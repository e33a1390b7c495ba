/** The retention sweep: set-based deletes, in the order sweep_once issues them, against the
    row-by-row meaning of the retention rules. */
module Retention {
  import opened Common
  import opened Schema

  // ---------- the rules, one row at a time ----------

  predicate Expired(m: Message, now: int) {
    m.disappearSeconds > 0 && m.startedAt.Some? && m.startedAt.value + m.disappearSeconds < now
  }

  function EffectiveDays(c: Conversation, defaultDays: int): int {
    if c.retentionDays.Some? then c.retentionDays.value else defaultDays
  }

  /** Older than the window of its conversation; 0 (or less) keeps for ever. */
  predicate Aged(m: Message, convs: map<ConvId, Conversation>, defaultDays: int, now: int) {
    m.conv in convs &&
    var days := EffectiveDays(convs[m.conv], defaultDays);
    days > 0 && m.createdAt < now - days * DAY
  }

  predicate ThreadExpired(t: Thread, now: int) {
    || (t.burnMinutes.None? && t.expiresAt.Some? && t.expiresAt.value < now)
    || (t.burnMinutes.Some? && t.expiresAt.Some? && t.expiresAt.value < now - 7 * DAY)
    || (t.burnMinutes.Some? && t.expiresAt.None? && t.createdAt < now - 30 * DAY)
  }

  predicate Memberless(db: Db, c: ConvId) { forall k :: k in db.members ==> k.0 != c }

  predicate Spent(t: AuthToken, now: int) { t.revoked || t.expiresAt < now - 30 * DAY }

  // ---------- the sweep, statement by statement ----------

  function ExpiredIds(db: Db, now: int): set<MsgId> {
    set i | i in db.messages && Expired(db.messages[i], now)
  }

  function AgedIds(db: Db, defaultDays: int, now: int): set<MsgId> {
    set i | i in db.messages && Aged(db.messages[i], db.convs, defaultDays, now)
  }

  function ExpiredThreads(db: Db, now: int): set<ThreadId> {
    set t | t in db.threads && ThreadExpired(db.threads[t], now)
  }

  function MemberlessIds(db: Db): set<ConvId> { set c | c in db.convs && Memberless(db, c) }

  function SpentIds(db: Db, now: int): set<TokenId> { set t | t in db.tokens && Spent(db.tokens[t], now) }

  function Sweep(db: Db, defaultDays: int, now: int): Db {
    var d1 := DropMessages(db, ExpiredIds(db, now));
    var d2 := DropMessages(d1, AgedIds(d1, defaultDays, now));
    var d3 := DropThreads(d2, ExpiredThreads(d2, now));
    var d4 := DropConvs(d3, MemberlessIds(d3));
    d4.(tokens := d4.tokens - SpentIds(d4, now))
  }

  /** The row count sweep_once reports: cascaded rows are not in it. */
  function Removed(db: Db, defaultDays: int, now: int): nat {
    var d1 := DropMessages(db, ExpiredIds(db, now));
    var d2 := DropMessages(d1, AgedIds(d1, defaultDays, now));
    var d3 := DropThreads(d2, ExpiredThreads(d2, now));
    var d4 := DropConvs(d3, MemberlessIds(d3));
    |ExpiredIds(db, now)| + |AgedIds(d1, defaultDays, now)| + |ExpiredThreads(d2, now)|
      + |MemberlessIds(d3)| + |SpentIds(d4, now)|
  }

  /** sweep_once on the live tables. */
  class Database {
    var convs: map<ConvId, Conversation>
    var members: map<(ConvId, UserId), Member>
    var messages: map<MsgId, Message>
    var receipts: set<(MsgId, UserId)>
    var threads: map<ThreadId, Thread>
    var guestMessages: map<GuestMsgId, GuestMessage>
    var notes: map<NoteId, Note>
    var blobs: map<MediaId, BlobRow>
    var tokens: map<TokenId, AuthToken>
    var files: map<MediaId, int>

    function View(): Db reads this {
      Db(convs, members, messages, receipts, threads, guestMessages, notes, blobs, tokens, files)
    }

    constructor (db: Db)
      ensures View() == db
    {
      convs, members, messages, receipts := db.convs, db.members, db.messages, db.receipts;
      threads, guestMessages, notes := db.threads, db.guestMessages, db.notes;
      blobs, tokens, files := db.blobs, db.tokens, db.files;
    }

    /** media_store.delete of each id; a missing file is ignored. */
    method RemoveEach(ids: set<MediaId>)
      modifies `files
      ensures files == old(files) - ids
    {
      var todo := ids;
      while todo != {}
        invariant todo <= ids && files == old(files) - (ids - todo)
        decreases todo
      {
        var id :| id in todo;
        files := files - {id};
        todo := todo - {id};
      }
      assert ids - {} == ids;
    }

    method DropMessageRows(gone: set<MsgId>) returns (n: nat)
      modifies this
      ensures View() == DropMessages(old(View()), gone) && n == |gone|
    {
      RemoveEach(MediaIn(messages, gone));
      messages, receipts := KeepMessages(messages, gone), KeepReceipts(receipts, gone);
      n := |gone|;
    }

    method DropThreadRows(gone: set<ThreadId>) returns (n: nat)
      modifies this
      ensures View() == DropThreads(old(View()), gone) && n == |gone|
    {
      RemoveEach(GuestMediaIn(guestMessages, gone));
      threads, guestMessages, blobs := threads - gone, KeepGuest(guestMessages, gone), KeepBlobs(blobs, gone);
      n := |gone|;
    }

    method DropConvRows(gone: set<ConvId>) returns (n: nat)
      modifies this
      ensures View() == DropConvs(old(View()), gone) && n == |gone|
    {
      var _ := DropMessageRows(OfConvs(messages, gone));
      convs, members := convs - gone, KeepMembers(members, gone);
      n := |gone|;
    }

    method SweepOnce(defaultDays: int, now: int) returns (removed: nat)
      modifies this
      ensures View() == Sweep(old(View()), defaultDays, now)
      ensures removed == Removed(old(View()), defaultDays, now)
    {
      removed := DropMessageRows(ExpiredIds(View(), now));
      var n := DropMessageRows(AgedIds(View(), defaultDays, now));
      removed := removed + n;
      n := DropThreadRows(ExpiredThreads(View(), now));
      removed := removed + n;
      var orphans := MemberlessIds(View());
      if orphans != {} {
        n := DropConvRows(orphans);
        removed := removed + n;
      } else {
        DropNoConvs(View());
      }
      var spent := SpentIds(View(), now);
      tokens := tokens - spent;
      removed := removed + |spent|;
    }
  }

  // ---------- the same sweep, row by row ----------

  /** Whether a message row goes, judged by itself: its clock, its age, or its conversation. */
  predicate Goes(db: Db, m: Message, defaultDays: int, now: int) {
    || Expired(m, now)
    || Aged(m, db.convs, defaultDays, now)
    || (m.conv in db.convs && Memberless(db, m.conv))
  }

  function GoneIds(db: Db, defaultDays: int, now: int): set<MsgId> {
    set i | i in db.messages && Goes(db, db.messages[i], defaultDays, now)
  }

  /** What a loop over every row, deciding each on the original tables, would leave. */
  function RowByRow(db: Db, defaultDays: int, now: int): Db {
    var kept := DropThreads(DropMessages(db, GoneIds(db, defaultDays, now)), ExpiredThreads(db, now));
    kept.(convs := map c | c in db.convs && !Memberless(db, c) :: db.convs[c],
          tokens := map t | t in db.tokens && !Spent(db.tokens[t], now) :: db.tokens[t])
  }

  /** The two message deletes together, both judged on the original tables. */
  lemma BothMessageDeletes(db: Db, defaultDays: int, now: int)
    ensures var d1 := DropMessages(db, ExpiredIds(db, now));
            DropMessages(d1, AgedIds(d1, defaultDays, now)) ==
            DropMessages(db, ExpiredIds(db, now) + AgedIds(db, defaultDays, now))
  {
    var e := ExpiredIds(db, now);
    var d1 := DropMessages(db, e);
    var a1 := AgedIds(d1, defaultDays, now);
    DropMessagesTwice(db, e, a1);
    assert e + a1 == e + AgedIds(db, defaultDays, now);
  }

  /** Deleting member-less conversations after other messages went. */
  lemma OrphansLast(db: Db, em: set<MsgId>, orphans: set<ConvId>)
    ensures DropMessages(DropMessages(db, em), OfConvs(KeepMessages(db.messages, em), orphans)) ==
            DropMessages(db, em + OfConvs(db.messages, orphans))
  {
    var om := OfConvs(KeepMessages(db.messages, em), orphans);
    DropMessagesTwice(db, em, om);
    assert em + om == em + OfConvs(db.messages, orphans);
  }

  /** sweep_once keeps exactly the rows, cascades and files a row-by-row loop would keep. */
  lemma SweepIsRowByRow(db: Db, defaultDays: int, now: int)
    requires Referential(db)
    ensures Sweep(db, defaultDays, now) == RowByRow(db, defaultDays, now)
  {
    var em := ExpiredIds(db, now) + AgedIds(db, defaultDays, now);
    var closing, orphans := ExpiredThreads(db, now), MemberlessIds(db);
    BothMessageDeletes(db, defaultDays, now);
    var d2 := DropMessages(db, em);
    var d3 := DropThreads(d2, closing);
    assert MemberlessIds(d3) == orphans;
    OrphanStage(db, em, closing, orphans);
    AllGone(db, em, defaultDays, now);
    OrphanTables(db, now);
  }

  lemma AllGone(db: Db, em: set<MsgId>, defaultDays: int, now: int)
    requires em == ExpiredIds(db, now) + AgedIds(db, defaultDays, now) && Referential(db)
    ensures em + OfConvs(db.messages, MemberlessIds(db)) == GoneIds(db, defaultDays, now)
  {}

  /** The last delete, of member-less conversations, folded into the message delete. */
  lemma OrphanStage(db: Db, em: set<MsgId>, closing: set<ThreadId>, orphans: set<ConvId>)
    ensures DropConvs(DropThreads(DropMessages(db, em), closing), orphans) ==
            DropThreads(DropMessages(db, em + OfConvs(db.messages, orphans)), closing)
              .(convs := db.convs - orphans, members := KeepMembers(db.members, orphans))
  {
    var d2 := DropMessages(db, em);
    var om := OfConvs(d2.messages, orphans);
    assert DropThreads(d2, closing).messages == d2.messages;
    DropsCommute(d2, om, closing);
    OrphansLast(db, em, orphans);
  }

  lemma OrphanTables(db: Db, now: int)
    requires Referential(db)
    ensures db.convs - MemberlessIds(db) == map c | c in db.convs && !Memberless(db, c) :: db.convs[c]
    ensures KeepMembers(db.members, MemberlessIds(db)) == db.members
    ensures db.tokens - SpentIds(db, now) == map t | t in db.tokens && !Spent(db.tokens[t], now) :: db.tokens[t]
  {}

  // ---------- sweeping twice ----------

  lemma SweptReferential(db: Db, defaultDays: int, now: int)
    requires Referential(db)
    ensures Referential(RowByRow(db, defaultDays, now))
  {
    var d := RowByRow(db, defaultDays, now);
    assert forall k :: k in db.members ==> !Memberless(db, k.0);
  }

  /** A surviving row is judged the same way on the swept tables; a row that went would go later too. */
  lemma GoneTwice(db: Db, defaultDays: int, t1: int, t2: int)
    requires Referential(db) && t1 <= t2
    ensures GoneIds(db, defaultDays, t1) + GoneIds(RowByRow(db, defaultDays, t1), defaultDays, t2) ==
            GoneIds(db, defaultDays, t2)
  {
    var d := RowByRow(db, defaultDays, t1);
    forall i | i in d.messages
      ensures Goes(d, d.messages[i], defaultDays, t2) <==> Goes(db, db.messages[i], defaultDays, t2)
    {
      assert i !in GoneIds(db, defaultDays, t1);
      assert d.members == db.members;
    }
  }

  lemma ClosingTwice(db: Db, defaultDays: int, t1: int, t2: int)
    requires t1 <= t2
    ensures ExpiredThreads(db, t1) + ExpiredThreads(RowByRow(db, defaultDays, t1), t2) == ExpiredThreads(db, t2)
  {}

  lemma OtherTablesTwice(db: Db, defaultDays: int, t1: int, t2: int)
    requires t1 <= t2
    ensures var a, b := RowByRow(RowByRow(db, defaultDays, t1), defaultDays, t2), RowByRow(db, defaultDays, t2);
            a.convs == b.convs && a.tokens == b.tokens
  {
    var d := RowByRow(db, defaultDays, t1);
    assert d.members == db.members;
    assert forall c :: c in d.convs ==> (Memberless(d, c) <==> Memberless(db, c));
  }

  /** Sweeping at t1 and again at t2 with unchanged settings leaves the same database, files
      included, as sweeping once at t2. */
  lemma SweepTwiceIsSweepOnce(db: Db, defaultDays: int, t1: int, t2: int)
    requires Referential(db) && t1 <= t2
    ensures Sweep(Sweep(db, defaultDays, t1), defaultDays, t2) == Sweep(db, defaultDays, t2)
  {
    SweepIsRowByRow(db, defaultDays, t1);
    SweepIsRowByRow(db, defaultDays, t2);
    var d := RowByRow(db, defaultDays, t1);
    SweptReferential(db, defaultDays, t1);
    SweepIsRowByRow(d, defaultDays, t2);
    GoneTwice(db, defaultDays, t1, t2);
    ClosingTwice(db, defaultDays, t1, t2);
    DropTwice(db, d, GoneIds(db, defaultDays, t1), GoneIds(d, defaultDays, t2),
              ExpiredThreads(db, t1), ExpiredThreads(d, t2));
    OtherTablesTwice(db, defaultDays, t1, t2);
  }

  lemma DropTwice(db: Db, d: Db, g1: set<MsgId>, g2: set<MsgId>, c1: set<ThreadId>, c2: set<ThreadId>)
    requires var x := DropThreads(DropMessages(db, g1), c1); d == x.(convs := d.convs, tokens := d.tokens)
    ensures DropThreads(DropMessages(d, g2), c2) ==
            DropThreads(DropMessages(db, g1 + g2), c1 + c2).(convs := d.convs, tokens := d.tokens)
  {
    var x := DropThreads(DropMessages(db, g1), c1);
    DropsCommute(DropMessages(db, g1), g2, c1);
    DropMessagesTwice(db, g1, g2);
    DropThreadsTwice(DropMessages(db, g1 + g2), c1, c2);
    assert DropThreads(DropMessages(x, g2), c2) == DropThreads(DropMessages(db, g1 + g2), c1 + c2);
  }

  // ---------- the rules in their own numbers ----------

  /** A message of a conversation with a member is kept exactly when its clock, if it was sent with
      a window and has been started, has not run out, and the setting is 0 or less or the
      message is not older than that many days of 86400 seconds. */
  lemma MessageIsKeptIff(db: Db, defaultDays: int, now: int, i: MsgId, member: UserId)
    requires Referential(db) && i in db.messages && (db.messages[i].conv, member) in db.members
    ensures var m := db.messages[i];
            var own := db.convs[m.conv].retentionDays;
            var days := if own.Some? then own.value else defaultDays;
            i in Sweep(db, defaultDays, now).messages <==>
            && (m.disappearSeconds <= 0 || m.startedAt.None? || m.startedAt.value + m.disappearSeconds >= now)
            && (days <= 0 || m.createdAt >= now - days * 86400)
  {
    SweepIsRowByRow(db, defaultDays, now);
    assert !Memberless(db, db.messages[i].conv);
  }

  /** What is kept is unchanged, except that a reply to a deleted message loses its pointer. */
  lemma KeptMessagesAreUnchanged(db: Db, defaultDays: int, now: int, i: MsgId)
    requires Referential(db) && i in Sweep(db, defaultDays, now).messages
    ensures var d := Sweep(db, defaultDays, now);
            && i in db.messages
            && d.messages[i] == db.messages[i].(replyTo := d.messages[i].replyTo)
            && (d.messages[i].replyTo == db.messages[i].replyTo
                || (d.messages[i].replyTo.None? && db.messages[i].replyTo.value !in d.messages))
  {
    SweepIsRowByRow(db, defaultDays, now);
  }

  /** A conversation stays exactly when somebody is in it; memberships are never swept. */
  lemma ConversationIsKeptIff(db: Db, defaultDays: int, now: int, c: ConvId)
    requires Referential(db) && c in db.convs
    ensures c in Sweep(db, defaultDays, now).convs <==> exists u: UserId :: (c, u) in db.members
    ensures Sweep(db, defaultDays, now).members == db.members
  {
    SweepIsRowByRow(db, defaultDays, now);
    if !Memberless(db, c) {
      var k :| k in db.members && k.0 == c;
      assert (c, k.1) in db.members;
    }
  }

  /** A secret link goes at its expiry; a burn-after-reading one 7 days after the expiry its first
      open set, or 30 days after it was made when it was never opened. */
  lemma ThreadIsKeptIff(db: Db, defaultDays: int, now: int, t: ThreadId)
    requires Referential(db) && t in db.threads
    ensures var x := db.threads[t];
            t in Sweep(db, defaultDays, now).threads <==>
            match (x.burnMinutes, x.expiresAt)
            case (None, None) => true
            case (None, Some(at)) => at >= now
            case (Some(_), Some(at)) => at >= now - 604800
            case (Some(_), None) => x.createdAt >= now - 2592000
  {
    SweepIsRowByRow(db, defaultDays, now);
  }

  /** A refresh token row stays exactly while it is unrevoked and not 30 days past its expiry. */
  lemma TokenIsKeptIff(db: Db, defaultDays: int, now: int, t: TokenId)
    requires Referential(db) && t in db.tokens
    ensures t in Sweep(db, defaultDays, now).tokens <==>
            !db.tokens[t].revoked && db.tokens[t].expiresAt >= now - 2592000
  {
    SweepIsRowByRow(db, defaultDays, now);
  }

  /** A file goes exactly when a row that holds it goes: nothing else is removed from the store. */
  lemma FileIsKeptIff(db: Db, defaultDays: int, now: int, f: MediaId)
    requires Referential(db) && f in db.files
    ensures var d := Sweep(db, defaultDays, now);
            f in d.files <==>
            && (forall i :: i in db.messages && db.messages[i].media == Some(f) ==> i in d.messages)
            && (forall g :: g in db.guestMessages && db.guestMessages[g].media == Some(f) ==> g in d.guestMessages)
  {
    SweepIsRowByRow(db, defaultDays, now);
    var gone, closing := GoneIds(db, defaultDays, now), ExpiredThreads(db, now);
    assert f in MediaIn(db.messages, gone) <==>
           exists i :: i in db.messages && db.messages[i].media == Some(f) && i in gone;
    assert f in GuestMediaIn(db.guestMessages, closing) <==>
           exists g :: g in db.guestMessages && db.guestMessages[g].media == Some(f)
                       && db.guestMessages[g].thread in closing;
  }

  /** Dependent rows go with the row they hang on, and with nothing else. */
  lemma DependentsFollow(db: Db, defaultDays: int, now: int)
    requires Referential(db)
    ensures var d := Sweep(db, defaultDays, now);
            && d.receipts == (set r | r in db.receipts && r.0 in d.messages)
            && d.guestMessages ==
               (map g | g in db.guestMessages && db.guestMessages[g].thread in d.threads :: db.guestMessages[g])
            && d.notes == db.notes
            && (forall b :: b in d.blobs <==>
                  b in db.blobs && (db.blobs[b].thread.Some? && db.blobs[b].thread.value in db.threads ==>
                                      db.blobs[b].thread.value in d.threads))
  {
    SweepIsRowByRow(db, defaultDays, now);
  }

  // ---------- many sweeps ----------

  function SweepAll(db: Db, defaultDays: int, times: seq<int>): Db
    decreases |times|
  {
    if times == [] then db else SweepAll(Sweep(db, defaultDays, times[0]), defaultDays, times[1..])
  }

  /** With the setting 0 no sequence of sweeps, at whatever times, ever removes a message whose clock
      has not been started from a conversation somebody is in. */
  lemma {:induction false} ZeroKeepsForEver(db: Db, defaultDays: int, times: seq<int>, i: MsgId, member: UserId)
    requires Referential(db) && i in db.messages && (db.messages[i].conv, member) in db.members
    requires var own := db.convs[db.messages[i].conv].retentionDays; own == Some(0) || (own.None? && defaultDays == 0)
    requires db.messages[i].startedAt.None?
    ensures i in SweepAll(db, defaultDays, times).messages
    decreases |times|
  {
    if times != [] {
      var now := times[0];
      MessageIsKeptIff(db, defaultDays, now, i, member);
      KeptMessagesAreUnchanged(db, defaultDays, now, i);
      ConversationIsKeptIff(db, defaultDays, now, db.messages[i].conv);
      SweepIsRowByRow(db, defaultDays, now);
      SweptReferential(db, defaultDays, now);
      ZeroKeepsForEver(Sweep(db, defaultDays, now), defaultDays, times[1..], i, member);
    }
  }

  // ---------- the reported count ----------

  /** Messages whose clock has run out, or older than their conversation's setting. */
  function OutOfTime(db: Db, defaultDays: int, now: int): set<MsgId> {
    set i | i in db.messages && var m := db.messages[i];
      || (m.disappearSeconds > 0 && m.startedAt.Some? && m.startedAt.value + m.disappearSeconds < now)
      || (m.conv in db.convs
          && var own := db.convs[m.conv].retentionDays;
             var days := if own.Some? then own.value else defaultDays;
             days > 0 && m.createdAt < now - days * 86400)
  }

  lemma OutOfTimeIsBoth(db: Db, defaultDays: int, now: int)
    ensures OutOfTime(db, defaultDays, now) == ExpiredIds(db, now) + AgedIds(db, defaultDays, now)
  {
    forall i | i in db.messages
      ensures i in OutOfTime(db, defaultDays, now) <==> i in ExpiredIds(db, now) || i in AgedIds(db, defaultDays, now)
    {
      assert i in AgedIds(db, defaultDays, now) <==> Aged(db.messages[i], db.convs, defaultDays, now);
    }
  }

  lemma AgedAfterExpired(db: Db, e: set<MsgId>, defaultDays: int, now: int)
    ensures AgedIds(DropMessages(db, e), defaultDays, now) == AgedIds(db, defaultDays, now) - e
  {}

  lemma MessagesCounted(db: Db, defaultDays: int, now: int)
    ensures var d1 := DropMessages(db, ExpiredIds(db, now));
            |ExpiredIds(db, now)| + |AgedIds(d1, defaultDays, now)| == |OutOfTime(db, defaultDays, now)|
  {
    var e, a := ExpiredIds(db, now), AgedIds(db, defaultDays, now);
    OutOfTimeIsBoth(db, defaultDays, now);
    AgedAfterExpired(db, e, defaultDays, now);
    assert e + (a - e) == e + a;
  }

  lemma GoneKeys<K, V>(was: map<K, V>, gone: set<K>)
    requires gone <= was.Keys
    ensures was.Keys - (was - gone).Keys == gone
  {}

  /** The count is of the rows the sweep's own deletes name: messages out of time, and every thread,
      conversation and token that is gone; cascaded rows are not in it. */
  lemma RemovedCountsNamedRows(db: Db, defaultDays: int, now: int)
    ensures var d := Sweep(db, defaultDays, now);
            Removed(db, defaultDays, now) ==
            |OutOfTime(db, defaultDays, now)|
            + |db.threads.Keys - d.threads.Keys| + |db.convs.Keys - d.convs.Keys| + |db.tokens.Keys - d.tokens.Keys|
  {
    MessagesCounted(db, defaultDays, now);
    var d1 := DropMessages(db, ExpiredIds(db, now));
    var d2 := DropMessages(d1, AgedIds(d1, defaultDays, now));
    var d3 := DropThreads(d2, ExpiredThreads(d2, now));
    var d4 := DropConvs(d3, MemberlessIds(d3));
    GoneKeys(db.threads, ExpiredThreads(d2, now));
    GoneKeys(db.convs, MemberlessIds(d3));
    GoneKeys(db.tokens, SpentIds(d4, now));
  }

  // ---------- conversation by conversation ----------

  /** The age rule applied to one conversation at a time, in some order. */
  function SweepEach(db: Db, order: seq<ConvId>, defaultDays: int, now: int): Db
    decreases |order|
  {
    if order == [] then db
    else SweepEach(DropMessages(db, AgedIn(db, {order[0]}, defaultDays, now)), order[1..], defaultDays, now)
  }

  function AgedIn(db: Db, convs: set<ConvId>, defaultDays: int, now: int): set<MsgId> {
    AgedIds(db, defaultDays, now) * OfConvs(db.messages, convs)
  }

  function Listed(order: seq<ConvId>): set<ConvId> { set c | c in order }

  lemma AgedInTwice(db: Db, c: ConvId, rest: set<ConvId>, defaultDays: int, now: int)
    ensures var a := AgedIn(db, {c}, defaultDays, now);
            a + AgedIn(DropMessages(db, a), rest, defaultDays, now) == AgedIn(db, {c} + rest, defaultDays, now)
  {}

  /** The single joined DELETE removes what a query pair per conversation would, whatever the order. */
  lemma {:induction false} JoinedDeleteIsPerConversation(db: Db, order: seq<ConvId>, defaultDays: int, now: int)
    ensures SweepEach(db, order, defaultDays, now) ==
            DropMessages(db, AgedIn(db, Listed(order), defaultDays, now))
    decreases |order|
  {
    if order == [] {
      assert AgedIn(db, Listed(order), defaultDays, now) == {};
      DropNoMessages(db);
    } else {
      var a := AgedIn(db, {order[0]}, defaultDays, now);
      var d := DropMessages(db, a);
      var rest := Listed(order[1..]);
      JoinedDeleteIsPerConversation(d, order[1..], defaultDays, now);
      DropMessagesTwice(db, a, AgedIn(d, rest, defaultDays, now));
      AgedInTwice(db, order[0], rest, defaultDays, now);
      assert Listed(order) == {order[0]} + rest by { assert order == [order[0]] + order[1..]; }
    }
  }
}
