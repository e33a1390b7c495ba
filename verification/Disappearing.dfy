/** Reading and disappearing messages over whole runs: when a message's clock starts, what the
    disappearing rule may delete, and what reading does to unread counts. */
module Disappearing {
  import opened Common
  import opened Schema
  import Retention
  import Media
  import Unread

  // ---------- marking read ----------

  /** The first reader other than the sender starts the clock of what was sent ephemeral. */
  function Started(m: Message, c: ConvId, reader: UserId, upTo: int, now: int): Message {
    if m.conv == c && m.disappearSeconds > 0 && m.sender.Some? && m.sender.value != reader
       && m.startedAt.None? && m.createdAt <= upTo
    then m.(startedAt := Some(now)) else m
  }

  predicate CanRead(db: Db, c: ConvId, i: MsgId, u: UserId) {
    (c, u) in db.members && i in db.messages && db.messages[i].conv == c
  }

  function MarkedRead(db: Db, now: int, c: ConvId, i: MsgId, u: UserId): Db
    requires CanRead(db, c, i, u)
  {
    var upTo := db.messages[i].createdAt;
    db.(members := db.members[(c, u) := db.members[(c, u)].(lastRead := Some(i), markedUnread := false)],
        receipts := db.receipts + {(i, u)},
        messages := map j | j in db.messages :: Started(db.messages[j], c, u, upTo, now))
  }

  /** mark_read on the live tables; clocks is whether the other devices are told to start hiding. */
  method MarkRead(d: Retention.Database, c: ConvId, i: MsgId, u: UserId, now: int) returns (ok: bool, clocks: bool)
    modifies d
    ensures ok <==> (c, u) in old(d.members) && i in old(d.messages) && old(d.messages)[i].conv == c
    ensures d.View() == if ok then MarkedRead(old(d.View()), now, c, i, u) else old(d.View())
    ensures clocks <==> d.messages != old(d.messages)
  {
    if (c, u) !in d.members || i !in d.messages || d.messages[i].conv != c { return false, false; }
    ghost var was := d.View();
    d.members := d.members[(c, u) := d.members[(c, u)].(lastRead := Some(i), markedUnread := false)];
    d.receipts := d.receipts + {(i, u)};
    var upTo := d.messages[i].createdAt;
    var after := map j | j in d.messages :: Started(d.messages[j], c, u, upTo, now);
    clocks := after != d.messages;
    d.messages := after;
    assert d.View() == MarkedRead(was, now, c, i, u);
    ok := true;
  }

  /** Reading message i leaves unread exactly the inbound messages after it; the count shown is
      0 exactly when there are none. */
  lemma ReadingLeavesTheNewer(db: Db, now: int, c: ConvId, i: MsgId, u: UserId)
    requires CanRead(db, c, i, u)
    ensures var d := MarkedRead(db, now, c, i, u);
            && Unread.UnreadIds(d, (c, u)) == (set j | j in db.messages && Unread.Inbound(db, (c, u), db.messages[j])
                                                       && db.messages[j].createdAt > db.messages[i].createdAt)
            && (Unread.Shown(d, (c, u)) == 0 <==>
                forall j :: j in db.messages && Unread.Inbound(db, (c, u), db.messages[j]) ==>
                  db.messages[j].createdAt <= db.messages[i].createdAt)
  {
    var d, k := MarkedRead(db, now, c, i, u), (c, u);
    var newer :=
      set j | j in db.messages && Unread.Inbound(db, k, db.messages[j])
              && db.messages[j].createdAt > db.messages[i].createdAt;
    assert Unread.LastReadAt(d, k) == Some(db.messages[i].createdAt);
    assert forall j :: j in db.messages ==>
             (Unread.Inbound(d, k, d.messages[j]) <==> Unread.Inbound(db, k, db.messages[j]));
    assert Unread.UnreadIds(d, k) == newer;
    assert newer == {} <==> |newer| == 0;
    if newer == {} {
      forall j | j in db.messages && Unread.Inbound(db, k, db.messages[j])
        ensures db.messages[j].createdAt <= db.messages[i].createdAt
      {
        assert j !in newer;
      }
    }
  }

  /** And nobody else's unread set changes. */
  lemma ReadingIsPrivate(db: Db, now: int, c: ConvId, i: MsgId, u: UserId, k: (ConvId, UserId))
    requires CanRead(db, c, i, u) && k in db.members && k != (c, u)
    ensures Unread.UnreadIds(MarkedRead(db, now, c, i, u), k) == Unread.UnreadIds(db, k)
  {
    var d := MarkedRead(db, now, c, i, u);
    assert Unread.LastReadAt(d, k) == Unread.LastReadAt(db, k);
    assert forall j :: j in db.messages ==>
             (Unread.Inbound(d, k, d.messages[j]) <==> Unread.Inbound(db, k, db.messages[j]));
  }

  // ---------- whole runs ----------

  /** What a run remembers: each accepted read, and each account deletion. */
  datatype Entry =
    | ReadUpTo(conv: ConvId, reader: UserId, upTo: int, at: int)
    | UserGone(user: UserId)

  /** A message as sent: its window is the conversation's at that moment; the log from `start`
      on is what happened since. */
  datatype Origin = Origin(conv: ConvId, sender: UserId, window: int, createdAt: int, start: nat)

  datatype State = State(db: Db, now: int, log: seq<Entry>, origins: map<MsgId, Origin>)

  datatype Event =
    | Send(i: MsgId, c: ConvId, u: UserId, media: Option<MediaId>, replyTo: Option<MsgId>)
    | Read(c: ConvId, i: MsgId, u: UserId)
    | SetWindow(c: ConvId, u: UserId, seconds: nat)
    | SetRetention(c: ConvId, u: UserId, days: Option<int>)
    | ClearHistory(c: ConvId, u: UserId)
    | MarkUnread(c: ConvId, u: UserId)
    | AddMember(c: ConvId, u: UserId)
    | Unsend(i: MsgId, u: UserId)
    | Leave(c: ConvId, u: UserId)
    | DeleteUser(u: UserId)
    | Sweep(defaultDays: int)
    | Tick(seconds: nat)

  function WithConv(db: Db, c: ConvId, u: UserId, conv: Conversation): Db {
    if (c, u) in db.members && c in db.convs then db.(convs := db.convs[c := conv]) else db
  }

  function WithMember(db: Db, c: ConvId, u: UserId, m: Member): Db {
    if (c, u) in db.members then db.(members := db.members[(c, u) := m]) else db
  }

  function ConvOf(db: Db, c: ConvId): Conversation {
    if c in db.convs then db.convs[c] else Conversation(None, 0)
  }

  function MemberOf(db: Db, c: ConvId, u: UserId): Member {
    if (c, u) in db.members then db.members[(c, u)] else Member(None, false, None)
  }

  function Apply(db: Db, now: int, e: Event): Db {
    match e
    case Send(i, c, u, media, replyTo) => Media.Sent(db, now, i, c, u, media, replyTo)
    case Read(c, i, u) => if CanRead(db, c, i, u) then MarkedRead(db, now, c, i, u) else db
    case SetWindow(c, u, seconds) => WithConv(db, c, u, ConvOf(db, c).(disappearSeconds := seconds))
    case SetRetention(c, u, days) => WithConv(db, c, u, ConvOf(db, c).(retentionDays := days))
    case ClearHistory(c, u) => WithMember(db, c, u, MemberOf(db, c, u).(clearedAt := Some(now)))
    case MarkUnread(c, u) => WithMember(db, c, u, MemberOf(db, c, u).(markedUnread := true))
    case AddMember(c, u) => if (c, u) in db.members
        then db else db.(members := db.members[(c, u) := Member(None, false, None)])
    case Unsend(i, u) => if Media.CanUnsend(db, i, u) then Media.Unsent(db, i) else db
    case Leave(c, u) => if (c, u) in db.members then Media.Left(db, c, u) else db
    case DeleteUser(u) => Media.UserDeleted(db, u)
    case Sweep(days) => Retention.Sweep(db, days, now)
    case Tick(_) => db
  }

  function Noted(s: State, e: Event): seq<Entry> {
    match e
    case Read(c, i, u) => if CanRead(s.db, c, i, u) then [ReadUpTo(c, u, s.db.messages[i].createdAt, s.now)] else []
    case DeleteUser(u) => [UserGone(u)]
    case _ => []
  }

  function Step(s: State, e: Event): State {
    var d := Apply(s.db, s.now, e);
    State(
      d,
      if e.Tick? then s.now + e.seconds else s.now,
      s.log + Noted(s, e),
      if e.Send? && e.i in d.messages && e.i !in s.origins
      then s.origins[e.i := Origin(e.c, e.u, ConvOf(s.db, e.c).disappearSeconds, s.now, |s.log|)] else s.origins)
  }

  /** Message ids are random: never one already given out. */
  predicate FreshId(s: State, e: Event) { e.Send? ==> e.i !in s.origins && e.i !in s.db.messages }

  function Run(s: State, es: seq<Event>): State
    decreases |es|
  {
    if es == [] then s else Run(Step(s, es[0]), es[1..])
  }

  predicate PossibleRun(s: State, es: seq<Event>)
    decreases |es|
  {
    es == [] || (FreshId(s, es[0]) && PossibleRun(Step(s, es[0]), es[1..]))
  }

  predicate Start(s: State) {
    && s.db.messages == map[] && s.log == [] && s.origins == map[]
    && forall k :: k in s.db.members ==> s.db.members[k].lastRead.None?
  }

  // ---------- when a clock should have started, by the log alone ----------

  predicate Departed(o: Origin, log: seq<Entry>, n: nat)
    requires n <= |log|
  {
    exists k :: o.start <= k < n && log[k] == UserGone(o.sender)
  }

  /** Entry k is a read of this message or a later one by someone else, its sender still there. */
  predicate Starts(o: Origin, log: seq<Entry>, k: nat) {
    && o.start <= k < |log|
    && log[k].ReadUpTo? && log[k].conv == o.conv && log[k].reader != o.sender && o.createdAt <= log[k].upTo
    && !Departed(o, log, k)
  }

  predicate FirstStart(o: Origin, log: seq<Entry>, k: nat) {
    Starts(o, log, k) && forall j :: 0 <= j < k ==> !Starts(o, log, j)
  }

  ghost predicate ClockIs(o: Origin, log: seq<Entry>, startedAt: Option<int>) {
    if startedAt.Some? then o.window > 0 && exists k: nat :: FirstStart(o, log, k) && log[k].at == startedAt.value
    else o.window > 0 ==> forall k :: !Starts(o, log, k)
  }

  ghost predicate Faithful(o: Origin, m: Message, log: seq<Entry>) {
    && m.conv == o.conv && m.createdAt == o.createdAt && m.disappearSeconds == o.window
    && o.start <= |log|
    && m.sender == (if Departed(o, log, |log|) then None else Some(o.sender))
    && ClockIs(o, log, m.startedAt)
  }

  ghost predicate MessagesFaithful(ms: map<MsgId, Message>, log: seq<Entry>, origins: map<MsgId, Origin>) {
    forall i :: i in ms ==> i in origins && Faithful(origins[i], ms[i], log)
  }

  predicate PointersHome(members: map<(ConvId, UserId), Member>, origins: map<MsgId, Origin>) {
    forall k :: k in members && members[k].lastRead.Some? ==>
      members[k].lastRead.value in origins && origins[members[k].lastRead.value].conv == k.0
  }

  ghost predicate Inv(s: State) {
    MessagesFaithful(s.db.messages, s.log, s.origins) && PointersHome(s.db.members, s.origins)
  }

  // ---------- deletions and edits leave clocks alone ----------

  predicate SameClock(a: Message, b: Message) {
    && a.conv == b.conv && a.sender == b.sender && a.disappearSeconds == b.disappearSeconds
    && a.startedAt == b.startedAt && a.createdAt == b.createdAt
  }

  predicate ClocksKept(was: map<MsgId, Message>, ms: map<MsgId, Message>) {
    forall i :: i in ms ==> i in was && SameClock(was[i], ms[i])
  }

  predicate PointersKept(was: map<(ConvId, UserId), Member>, members: map<(ConvId, UserId), Member>) {
    forall k :: k in members && members[k].lastRead.Some? ==> k in was && was[k].lastRead == members[k].lastRead
  }

  predicate Quiet(e: Event) { !e.Send? && !e.Read? && !e.DeleteUser? }

  lemma KeepingRowsKeepsClocks(was: map<MsgId, Message>, ms: map<MsgId, Message>, gone: set<MsgId>)
    requires ClocksKept(was, ms)
    ensures ClocksKept(was, KeepMessages(ms, gone))
  {}

  lemma SweepTables(db: Db, days: int, now: int)
    ensures exists a, b, c, orphans ::
              && Retention.Sweep(db, days, now).messages ==
                 KeepMessages(KeepMessages(KeepMessages(db.messages, a), b), c)
              && Retention.Sweep(db, days, now).members == KeepMembers(db.members, orphans)
  {
    var a := Retention.ExpiredIds(db, now);
    var d1 := DropMessages(db, a);
    var b := Retention.AgedIds(d1, days, now);
    var d2 := DropMessages(d1, b);
    var d3 := DropThreads(d2, Retention.ExpiredThreads(d2, now));
    var orphans := Retention.MemberlessIds(d3);
    var c := OfConvs(d3.messages, orphans);
    assert Retention.Sweep(db, days, now).messages == KeepMessages(KeepMessages(KeepMessages(db.messages, a), b), c);
    assert Retention.Sweep(db, days, now).members == KeepMembers(db.members, orphans);
  }

  lemma SweepKeepsClocks(db: Db, days: int, now: int)
    ensures var d := Retention.Sweep(db, days, now);
            ClocksKept(db.messages, d.messages) && PointersKept(db.members, d.members)
  {
    SweepTables(db, days, now);
    var d := Retention.Sweep(db, days, now);
    var a, b, c, orphans :|
      && d.messages == KeepMessages(KeepMessages(KeepMessages(db.messages, a), b), c)
      && d.members == KeepMembers(db.members, orphans);
    KeepingRowsKeepsClocks(db.messages, db.messages, a);
    KeepingRowsKeepsClocks(db.messages, KeepMessages(db.messages, a), b);
    KeepingRowsKeepsClocks(db.messages, KeepMessages(KeepMessages(db.messages, a), b), c);
  }

  lemma LeavingKeepsClocks(db: Db, c: ConvId, u: UserId)
    ensures var d := Media.Left(db, c, u); ClocksKept(db.messages, d.messages) && PointersKept(db.members, d.members)
  {}

  lemma UnsendKeepsClocks(db: Db, i: MsgId)
    requires i in db.messages
    ensures var d := Media.Unsent(db, i); ClocksKept(db.messages, d.messages) && PointersKept(db.members, d.members)
  {}

  lemma MemberKeepsClocks(db: Db, c: ConvId, u: UserId, m: Member)
    requires m.lastRead == MemberOf(db, c, u).lastRead
    ensures var d := WithMember(db, c, u, m); ClocksKept(db.messages, d.messages) && PointersKept(db.members, d.members)
  {
    SameKeepsClocks(db.messages, db.members);
    if (c, u) in db.members { PointerKeeps(db.members, (c, u), m); }
  }

  lemma PointerKeeps(members: map<(ConvId, UserId), Member>, k: (ConvId, UserId), m: Member)
    requires k in members && members[k].lastRead == m.lastRead
    ensures PointersKept(members, members[k := m])
  {}

  lemma ConvKeepsClocks(db: Db, c: ConvId, u: UserId, conv: Conversation)
    ensures var d := WithConv(db, c, u, conv); d.messages == db.messages && d.members == db.members
  {}

  lemma SameKeepsClocks(ms: map<MsgId, Message>, members: map<(ConvId, UserId), Member>)
    ensures ClocksKept(ms, ms) && PointersKept(members, members)
  {}

  lemma JoiningKeepsClocks(members: map<(ConvId, UserId), Member>, k: (ConvId, UserId))
    ensures PointersKept(members, members[k := Member(None, false, None)])
  {}

  lemma QuietKeepsClocks(db: Db, now: int, e: Event)
    requires Quiet(e)
    ensures var d := Apply(db, now, e); ClocksKept(db.messages, d.messages) && PointersKept(db.members, d.members)
  {
    SameKeepsClocks(db.messages, db.members);
    match e
    case SetWindow(c, u, seconds) => ConvKeepsClocks(db, c, u, ConvOf(db, c).(disappearSeconds := seconds));
    case SetRetention(c, u, days) => ConvKeepsClocks(db, c, u, ConvOf(db, c).(retentionDays := days));
    case AddMember(c, u) => JoiningKeepsClocks(db.members, (c, u));
    case Tick(_) =>
    case ClearHistory(c, u) => MemberKeepsClocks(db, c, u, MemberOf(db, c, u).(clearedAt := Some(now)));
    case MarkUnread(c, u) => MemberKeepsClocks(db, c, u, MemberOf(db, c, u).(markedUnread := true));
    case Unsend(i, u) => if Media.CanUnsend(db, i, u) { UnsendKeepsClocks(db, i); }
    case Leave(c, u) => LeavingKeepsClocks(db, c, u);
    case Sweep(days) => SweepKeepsClocks(db, days, now);
  }

  lemma QuietKeeps(s: State, e: Event)
    requires Inv(s) && Quiet(e)
    ensures Inv(Step(s, e))
  {
    QuietKeepsClocks(s.db, s.now, e);
    assert s.log + [] == s.log;
  }

  // ---------- a log that grows ----------

  lemma LogGrows(o: Origin, log: seq<Entry>, x: Entry, k: nat)
    requires k <= |log|
    ensures Departed(o, log + [x], k) <==> Departed(o, log, k)
    ensures k < |log| ==> (Starts(o, log + [x], k) <==> Starts(o, log, k))
  {
    assert forall j :: 0 <= j < |log| ==> (log + [x])[j] == log[j];
  }

  lemma DepartedGrows(o: Origin, log: seq<Entry>, x: Entry)
    requires o.start <= |log|
    ensures Departed(o, log + [x], |log| + 1) <==> Departed(o, log, |log|) || x == UserGone(o.sender)
  {
    assert forall j :: 0 <= j < |log| ==> (log + [x])[j] == log[j];
    if x == UserGone(o.sender) { assert (log + [x])[|log|] == UserGone(o.sender); }
  }

  /** A started clock never moves. */
  lemma ClockStays(o: Origin, log: seq<Entry>, x: Entry, at: int)
    requires ClockIs(o, log, Some(at))
    ensures ClockIs(o, log + [x], Some(at))
  {
    var k: nat :| FirstStart(o, log, k) && log[k].at == at;
    forall j: nat | j <= k ensures Starts(o, log + [x], j) <==> Starts(o, log, j) { LogGrows(o, log, x, j); }
    assert FirstStart(o, log + [x], k);
  }

  /** A stopped one starts exactly when the new entry is a qualifying read. */
  lemma ClockMoves(o: Origin, log: seq<Entry>, x: Entry)
    requires ClockIs(o, log, None) && o.start <= |log|
    ensures var hit := o.window > 0 && x.ReadUpTo? && x.conv == o.conv && x.reader != o.sender && o.createdAt <= x.upTo
                       && !Departed(o, log, |log|);
            ClockIs(o, log + [x], if hit then Some(x.at) else None)
  {
    var longer, n := log + [x], |log|;
    LogGrows(o, log, x, n);
    if o.window > 0 {
      forall j: nat | j < n ensures !Starts(o, longer, j) { LogGrows(o, log, x, j); }
      if Starts(o, longer, n) { assert FirstStart(o, longer, n); }
    }
  }

  lemma ReadKeepsRow(o: Origin, m: Message, log: seq<Entry>, c: ConvId, u: UserId, upTo: int, now: int)
    requires Faithful(o, m, log)
    ensures Faithful(o, Started(m, c, u, upTo, now), log + [ReadUpTo(c, u, upTo, now)])
  {
    var x := ReadUpTo(c, u, upTo, now);
    DepartedGrows(o, log, x);
    if m.startedAt.Some? { ClockStays(o, log, x, m.startedAt.value); } else { ClockMoves(o, log, x); }
  }

  lemma GoneKeepsRow(o: Origin, m: Message, log: seq<Entry>, u: UserId)
    requires Faithful(o, m, log)
    ensures Faithful(o, Media.Orphaned(m, u), log + [UserGone(u)])
  {
    var x := UserGone(u);
    DepartedGrows(o, log, x);
    if m.startedAt.Some? { ClockStays(o, log, x, m.startedAt.value); } else { ClockMoves(o, log, x); }
  }

  lemma ReadKeeps(s: State, c: ConvId, i: MsgId, u: UserId)
    requires Inv(s)
    ensures Inv(Step(s, Read(c, i, u)))
  {
    if CanRead(s.db, c, i, u) {
      var t, upTo := Step(s, Read(c, i, u)), s.db.messages[i].createdAt;
      forall j | j in t.db.messages ensures j in t.origins && Faithful(t.origins[j], t.db.messages[j], t.log) {
        ReadKeepsRow(s.origins[j], s.db.messages[j], s.log, c, u, upTo, s.now);
      }
    } else {
      assert s.log + [] == s.log;
    }
  }

  lemma DeleteUserKeeps(s: State, u: UserId)
    requires Inv(s)
    ensures Inv(Step(s, DeleteUser(u)))
  {
    var t := Step(s, DeleteUser(u));
    forall j | j in t.db.messages ensures j in t.origins && Faithful(t.origins[j], t.db.messages[j], t.log) {
      GoneKeepsRow(s.origins[j], s.db.messages[j], s.log, u);
    }
  }

  lemma SendKeeps(s: State, e: Event)
    requires Inv(s) && e.Send? && FreshId(s, e)
    ensures Inv(Step(s, e))
  {
    var t := Step(s, e);
    assert t.log == s.log;
    if e.i in t.db.messages {
      var o := t.origins[e.i];
      assert !Departed(o, s.log, |s.log|) && forall k :: !Starts(o, s.log, k);
      assert Faithful(o, t.db.messages[e.i], s.log);
    }
  }

  lemma StepKeeps(s: State, e: Event)
    requires Inv(s) && FreshId(s, e)
    ensures Inv(Step(s, e))
  {
    match e
    case Send(_, _, _, _, _) => SendKeeps(s, e);
    case Read(c, i, u) => ReadKeeps(s, c, i, u);
    case DeleteUser(u) => DeleteUserKeeps(s, u);
    case _ => QuietKeeps(s, e);
  }

  lemma {:induction false} RunKeeps(s: State, es: seq<Event>)
    requires Inv(s) && PossibleRun(s, es)
    ensures Inv(Run(s, es))
    decreases |es|
  {
    if es != [] {
      StepKeeps(s, es[0]);
      RunKeeps(Step(s, es[0]), es[1..]);
    }
  }

  // ---------- the promises ----------

  lemma FirstIsUnique(o: Origin, log: seq<Entry>, j: nat, k: nat)
    requires FirstStart(o, log, j) && FirstStart(o, log, k)
    ensures j == k
  {}

  /** The disappearing rule picks a message if and only if it was sent with a window and the first
      time someone other than its sender marked read it or a later message, before the sender's
      account went, is more than that window ago - whatever the setting became since. */
  lemma OnlyReadMessagesDisappear(s: State, es: seq<Event>, i: MsgId)
    requires Start(s) && PossibleRun(s, es) && i in Run(s, es).db.messages
    ensures var t := Run(s, es);
            && i in t.origins
            && (i in Retention.ExpiredIds(t.db, t.now) <==>
                && t.origins[i].window > 0
                && exists k: nat :: FirstStart(t.origins[i], t.log, k) && t.log[k].at + t.origins[i].window < t.now)
  {
    RunKeeps(s, es);
    var t := Run(s, es);
    var o, m := t.origins[i], t.db.messages[i];
    forall j: nat, k: nat | FirstStart(o, t.log, j) && FirstStart(o, t.log, k) ensures j == k {
      FirstIsUnique(o, t.log, j, k);
    }
  }

  lemma StepKeepsClock(s: State, e: Event, i: MsgId)
    requires FreshId(s, e) && i in s.db.messages && i in Step(s, e).db.messages
    ensures var was, m := s.db.messages[i], Step(s, e).db.messages[i];
            && m.disappearSeconds == was.disappearSeconds
            && (was.startedAt.Some? ==> m.startedAt == was.startedAt)
  {
    if Quiet(e) { QuietKeepsClocks(s.db, s.now, e); }
  }

  lemma OnlySendAdds(s: State, e: Event, i: MsgId)
    requires FreshId(s, e) && i in s.origins && i !in s.db.messages
    ensures i !in Step(s, e).db.messages && i in Step(s, e).origins
  {
    if Quiet(e) { QuietKeepsClocks(s.db, s.now, e); }
  }

  lemma {:induction false} GoneStaysGone(s: State, es: seq<Event>, i: MsgId)
    requires PossibleRun(s, es) && i in s.origins && i !in s.db.messages
    ensures i !in Run(s, es).db.messages
    decreases |es|
  {
    if es != [] {
      OnlySendAdds(s, es[0], i);
      GoneStaysGone(Step(s, es[0]), es[1..], i);
    }
  }

  /** A clock is written at most once, and a window never: both survive every later step. */
  lemma {:induction false} ClockWrittenOnce(s: State, es: seq<Event>, i: MsgId)
    requires Inv(s) && PossibleRun(s, es)
    requires i in s.db.messages && i in Run(s, es).db.messages
    ensures var was, m := s.db.messages[i], Run(s, es).db.messages[i];
            && m.disappearSeconds == was.disappearSeconds
            && (was.startedAt.Some? ==> m.startedAt == was.startedAt)
    decreases |es|
  {
    if es != [] {
      var t := Step(s, es[0]);
      StepKeeps(s, es[0]);
      assert i in t.origins;
      if i !in t.db.messages { GoneStaysGone(t, es[1..], i); }
      StepKeepsClock(s, es[0], i);
      ClockWrittenOnce(t, es[1..], i);
    }
  }

  /** In every reachable state the last-read pointers are at home, so age-based retention keeps
      every member's unread count exact, with nothing assumed about the tables. */
  lemma RetentionKeepsUnreadInEveryRun(s: State, es: seq<Event>, defaultDays: int, k: (ConvId, UserId))
    requires Start(s) && PossibleRun(s, es) && k in Run(s, es).db.members
    ensures var t := Run(s, es);
            var gone := Retention.AgedIds(t.db, defaultDays, t.now);
            Unread.UnreadIds(DropMessages(t.db, gone), k) == Unread.UnreadIds(t.db, k) - gone
  {
    RunKeeps(s, es);
    var t := Run(s, es);
    assert Unread.PointerAtHome(t.db, k);
    Unread.AgeRetentionKeepsUnread(t.db, defaultDays, t.now, k);
  }
}
