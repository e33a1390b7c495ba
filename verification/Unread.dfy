/** Read state: which messages count as unread for a member, how deletions affect it, and
    the badge number, which the server and the client compute by different queries. */
module Unread {
  import opened Common
  import opened Schema
  import Retention

  type MemberKey = (ConvId, UserId)

  // ---------- the unread rule, with SQL NULL comparisons ----------

  /** created_at of the last-read row; NULL when there is no pointer or it dangles. */
  function LastReadAt(db: Db, k: MemberKey): Option<int>
    requires k in db.members
  {
    var p := db.members[k].lastRead;
    if p.Some? && p.value in db.messages then Some(db.messages[p.value].createdAt) else None
  }

  /** Someone else's visible message; a NULL sender compares to nothing. */
  predicate Inbound(db: Db, k: MemberKey, m: Message)
    requires k in db.members
  {
    && m.conv == k.0
    && m.sender.Some? && m.sender.value != k.1
    && !m.unsent
    && (db.members[k].clearedAt.None? || m.createdAt > db.members[k].clearedAt.value)
  }

  function UnreadIds(db: Db, k: MemberKey): set<MsgId>
    requires k in db.members
  {
    set i | i in db.messages && Inbound(db, k, db.messages[i])
            && (LastReadAt(db, k).None? || db.messages[i].createdAt > LastReadAt(db, k).value)
  }

  /** The number shown: a conversation marked unread by hand shows at least 1. */
  function Shown(db: Db, k: MemberKey): nat
    requires k in db.members
  {
    if db.members[k].markedUnread && UnreadIds(db, k) == {} then 1 else |UnreadIds(db, k)|
  }

  // ---------- deletions ----------

  /** mark_read only accepts a message of the same conversation. */
  predicate PointerAtHome(db: Db, k: MemberKey)
    requires k in db.members
  {
    var p := db.members[k].lastRead;
    p.Some? && p.value in db.messages ==> db.messages[p.value].conv == k.0
  }

  /** Whatever set of messages is deleted: the unread messages afterwards are exactly the
      unread messages that survive, if and only if the last-read row survives too or no
      surviving inbound message is as old as it. */
  lemma DeletionKeepsUnreadIff(db: Db, gone: set<MsgId>, k: MemberKey)
    requires k in db.members
    ensures UnreadIds(DropMessages(db, gone), k) == UnreadIds(db, k) - gone <==>
            (LastReadAt(db, k).Some? && db.members[k].lastRead.value in gone ==>
               forall i :: i in db.messages && i !in gone && Inbound(db, k, db.messages[i]) ==>
                 db.messages[i].createdAt > LastReadAt(db, k).value)
  {
    var d := DropMessages(db, gone);
    assert forall i :: i in d.messages ==> d.messages[i] == Unlink(db.messages[i], gone);
    if LastReadAt(db, k).Some? && db.members[k].lastRead.value in gone {
      assert LastReadAt(d, k).None?;
      if i :| i in db.messages && i !in gone && Inbound(db, k, db.messages[i])
              && db.messages[i].createdAt <= LastReadAt(db, k).value {
        assert i in d.messages && i in UnreadIds(d, k) && i !in UnreadIds(db, k);
      }
    } else {
      assert LastReadAt(d, k) == LastReadAt(db, k);
    }
  }

  /** Age-based retention never turns a read message unread, even when it deletes the row
      the last-read pointer names. */
  lemma AgeRetentionKeepsUnread(db: Db, defaultDays: int, now: int, k: MemberKey)
    requires k in db.members && PointerAtHome(db, k)
    ensures var gone := Retention.AgedIds(db, defaultDays, now);
            && UnreadIds(DropMessages(db, gone), k) == UnreadIds(db, k) - gone
            && |UnreadIds(DropMessages(db, gone), k)| ==
               |set i | i in UnreadIds(db, k) && i in DropMessages(db, gone).messages|
  {
    var gone := Retention.AgedIds(db, defaultDays, now);
    DeletionKeepsUnreadIff(db, gone, k);
    assert UnreadIds(db, k) - gone == set i | i in UnreadIds(db, k) && i in DropMessages(db, gone).messages;
  }

  /** The disappearing rule has no such guarantee: when it deletes the last-read row, every
      older inbound message that survives counts as unread again. */
  lemma ExpiryReopensOlderMessages(db: Db, now: int, k: MemberKey, older: MsgId)
    requires k in db.members && LastReadAt(db, k).Some?
    requires Retention.Expired(db.messages[db.members[k].lastRead.value], now)
    requires older in db.messages && Inbound(db, k, db.messages[older]) && !Retention.Expired(db.messages[older], now)
    requires db.messages[older].createdAt <= LastReadAt(db, k).value
    ensures var gone := Retention.ExpiredIds(db, now);
            older !in UnreadIds(db, k) && older in UnreadIds(DropMessages(db, gone), k)
  {
    var d := DropMessages(db, Retention.ExpiredIds(db, now));
    assert older in d.messages && LastReadAt(d, k).None?;
  }

  // ---------- the grouped join ----------

  /** One row of the outer join of members with their unread messages; m.id may be NULL. */
  datatype JoinRow = JoinRow(user: UserId, conv: ConvId, marked: bool, id: Option<MsgId>)

  datatype Group = Group(user: UserId, conv: ConvId, marked: bool, unread: nat)

  function JoinRowsOf(db: Db, k: MemberKey): set<JoinRow>
    requires k in db.members
  {
    var mk := db.members[k].markedUnread;
    if UnreadIds(db, k) == {} then {JoinRow(k.1, k.0, mk, None)}
    else Image(UnreadIds(db, k), k.1, k.0, mk)
  }

  function Join(db: Db, users: set<UserId>): set<JoinRow> {
    set k, r | k in db.members && k.1 in users && r in JoinRowsOf(db, k) :: r
  }

  /** count(m.id) over a group ignores NULLs. */
  function CountIds(rows: set<JoinRow>): nat { |set r | r in rows && r.id.Some?| }

  function GroupOf(rows: set<JoinRow>, r: JoinRow): Group {
    Group(r.user, r.conv, r.marked,
          CountIds(set x | x in rows && x.user == r.user && x.conv == r.conv && x.marked == r.marked))
  }

  /** GROUP BY user, conversation, marked. */
  function Grouped(db: Db, users: set<UserId>): set<Group> {
    var rows := Join(db, users);
    set r | r in rows :: GroupOf(rows, r)
  }

  function Image(ids: set<MsgId>, user: UserId, conv: ConvId, marked: bool): set<JoinRow> {
    set i | i in ids :: JoinRow(user, conv, marked, Some(i))
  }

  lemma {:induction false} ImageSize(ids: set<MsgId>, user: UserId, conv: ConvId, marked: bool)
    ensures |Image(ids, user, conv, marked)| == |ids|
    decreases ids
  {
    if ids == {} {
      assert Image(ids, user, conv, marked) == {};
    } else {
      var x :| x in ids;
      var rest, row := Image(ids - {x}, user, conv, marked), JoinRow(user, conv, marked, Some(x));
      ImageSize(ids - {x}, user, conv, marked);
      assert row !in rest;
      assert Image(ids, user, conv, marked) == rest + {row};
    }
  }

  lemma GroupSize(db: Db, users: set<UserId>, k: MemberKey, r: JoinRow)
    requires k in db.members && k.1 in users && r in JoinRowsOf(db, k)
    ensures GroupOf(Join(db, users), r) == Group(k.1, k.0, db.members[k].markedUnread, |UnreadIds(db, k)|)
  {
    var rows := Join(db, users);
    var group := set x | x in rows && x.user == r.user && x.conv == r.conv && x.marked == r.marked;
    assert group == JoinRowsOf(db, k) by {
      forall x | x in group ensures x in JoinRowsOf(db, k) {
        var j :| j in db.members && j.1 in users && x in JoinRowsOf(db, j);
        assert j == k;
      }
    }
    var mk := db.members[k].markedUnread;
    ImageSize(UnreadIds(db, k), k.1, k.0, mk);
    var counted := set x | x in group && x.id.Some?;
    if UnreadIds(db, k) == {} {
      assert counted == {};
    } else {
      assert counted == Image(UnreadIds(db, k), k.1, k.0, mk);
    }
  }

  /** For any set of users, the grouped join has exactly one row per membership, holding that
      member's own unread count. */
  lemma GroupedIsPerMember(db: Db, users: set<UserId>, g: Group)
    ensures g in Grouped(db, users) <==>
            (g.conv, g.user) in db.members && g.user in users
            && g.marked == db.members[(g.conv, g.user)].markedUnread
            && g.unread == |UnreadIds(db, (g.conv, g.user))|
  {
    var rows := Join(db, users);
    if g in Grouped(db, users) {
      var r :| r in rows && g == GroupOf(rows, r);
      var k :| k in db.members && k.1 in users && r in JoinRowsOf(db, k);
      GroupSize(db, users, k, r);
    }
    var k := (g.conv, g.user);
    if k in db.members && g.user in users {
      var mk := db.members[k].markedUnread;
      var id := if UnreadIds(db, k) == {} then None else var i :| i in UnreadIds(db, k); Some(i);
      var r := JoinRow(k.1, k.0, mk, id);
      assert r in JoinRowsOf(db, k) && r in rows;
      GroupSize(db, users, k, r);
    }
  }

  // ---------- the badge, as a meaning ----------

  function ConvsOf(db: Db, u: UserId): set<ConvId> { set k | k in db.members && k.1 == u :: k.0 }

  lemma ConvsOfMembers(db: Db, u: UserId, c: ConvId)
    ensures c in ConvsOf(db, u) <==> (c, u) in db.members
  {
    if (c, u) in db.members {
      assert (c, u).1 == u && (c, u).0 == c;
    }
  }

  function ShownIn(db: Db, u: UserId, c: ConvId): nat {
    if (c, u) in db.members then Shown(db, (c, u)) else 0
  }

  ghost function ConvTotal(db: Db, u: UserId, convs: set<ConvId>): nat {
    if convs == {} then 0
    else var c :| c in convs; ShownIn(db, u, c) + ConvTotal(db, u, convs - {c})
  }

  lemma {:induction false} ConvTotalPick(db: Db, u: UserId, convs: set<ConvId>, x: ConvId)
    requires x in convs
    ensures ConvTotal(db, u, convs) == ShownIn(db, u, x) + ConvTotal(db, u, convs - {x})
    decreases convs
  {
    var c :| c in convs && ConvTotal(db, u, convs) == ShownIn(db, u, c) + ConvTotal(db, u, convs - {c});
    if c != x {
      ConvTotalPick(db, u, convs - {c}, x);
      ConvTotalPick(db, u, convs - {x}, c);
      assert convs - {c} - {x} == convs - {x} - {c};
    }
  }

  lemma ConvTotalAdd(db: Db, u: UserId, convs: set<ConvId>, x: ConvId)
    requires x !in convs
    ensures ConvTotal(db, u, convs + {x}) == ConvTotal(db, u, convs) + ShownIn(db, u, x)
  {
    ConvTotalPick(db, u, convs + {x}, x);
    assert convs + {x} - {x} == convs;
  }

  /** The newest message of a thread: what DISTINCT ON ... ORDER BY created_at DESC picks. */
  predicate IsLast(db: Db, t: ThreadId, g: GuestMsgId) {
    && g in db.guestMessages && db.guestMessages[g].thread == t
    && forall h :: h in db.guestMessages && db.guestMessages[h].thread == t ==>
         db.guestMessages[h].createdAt <= db.guestMessages[g].createdAt
  }

  predicate DistinctGuestTimes(db: Db) {
    forall g, h :: g in db.guestMessages && h in db.guestMessages && g != h
                   && db.guestMessages[g].thread == db.guestMessages[h].thread ==>
                   db.guestMessages[g].createdAt != db.guestMessages[h].createdAt
  }

  predicate FreshReply(db: Db, t: ThreadId, g: GuestMsgId)
    requires t in db.threads && g in db.guestMessages
  {
    && db.guestMessages[g].fromGuest
    && (db.threads[t].hostReadAt.None? || db.guestMessages[g].createdAt > db.threads[t].hostReadAt.value)
  }

  /** A thread whose newest message is a guest reply the host has not opened. */
  predicate ThreadUnread(db: Db, t: ThreadId)
    requires t in db.threads
  {
    exists g :: g in db.guestMessages && IsLast(db, t, g) && FreshReply(db, t, g)
  }

  function UnreadThreads(db: Db, u: UserId): set<ThreadId> {
    set t | t in db.threads && db.threads[t].creator == u && ThreadUnread(db, t)
  }

  ghost function Badge(db: Db, u: UserId): nat {
    ConvTotal(db, u, ConvsOf(db, u)) + |UnreadThreads(db, u)|
  }

  lemma MembershipsOf(db: Db, u: UserId)
    ensures forall c :: c in ConvsOf(db, u) <==> (c, u) in db.members
  {
    forall c ensures c in ConvsOf(db, u) <==> (c, u) in db.members { ConvsOfMembers(db, u, c); }
  }

  // ---------- query results, in whatever order they come ----------

  ghost predicate Lists<T(!new)>(xs: seq<T>, s: set<T>) {
    && (forall x :: x in xs <==> x in s)
    && (forall i, j :: 0 <= i < j < |xs| ==> xs[i] != xs[j])
  }

  /** The DISTINCT ON answer for some threads. */
  predicate Lasts(db: Db, threads: set<ThreadId>, lasts: map<ThreadId, GuestMsgId>) {
    && lasts.Keys <= threads
    && (forall t :: t in lasts ==> IsLast(db, t, lasts[t]))
    && (forall g :: g in db.guestMessages && db.guestMessages[g].thread in threads ==>
        db.guestMessages[g].thread in lasts)
  }

  lemma LastDecides(db: Db, threads: set<ThreadId>, lasts: map<ThreadId, GuestMsgId>, t: ThreadId)
    requires DistinctGuestTimes(db) && Lasts(db, threads, lasts) && t in threads && t in db.threads
    ensures ThreadUnread(db, t) <==> t in lasts && FreshReply(db, t, lasts[t])
  {
    if ThreadUnread(db, t) {
      var g :| g in db.guestMessages && IsLast(db, t, g) && FreshReply(db, t, g);
      assert IsLast(db, t, lasts[t]);
      assert g == lasts[t];
    }
  }

  function ThreadsOf(db: Db, u: UserId): set<ThreadId> {
    set t | t in db.threads && db.threads[t].creator == u
  }

  // ---------- the server ----------

  /** The conversations of u among the first n rows. */
  ghost function SeenConvs(rows: seq<Group>, n: nat, u: UserId): set<ConvId>
    requires n <= |rows|
  {
    if n == 0 then {}
    else SeenConvs(rows, n - 1, u) + if rows[n - 1].user == u then {rows[n - 1].conv} else {}
  }

  lemma {:induction false} SeenMeans(rows: seq<Group>, n: nat, u: UserId, c: ConvId)
    requires n <= |rows|
    ensures c in SeenConvs(rows, n, u) <==> exists j :: 0 <= j < n && rows[j].user == u && rows[j].conv == c
  {
    if n > 0 { SeenMeans(rows, n - 1, u, c); }
  }

  function GroupShown(g: Group): nat { if g.marked && g.unread == 0 then 1 else g.unread }

  /** What the first n rows add to the total of u. */
  function SumTo(rows: seq<Group>, n: nat, u: UserId): nat
    requires n <= |rows|
  {
    if n == 0 then 0 else SumTo(rows, n - 1, u) + if rows[n - 1].user == u then GroupShown(rows[n - 1]) else 0
  }

  /** The loop of _unread_totals. */
  method SumGroups(users: set<UserId>, rows: seq<Group>) returns (totals: map<UserId, nat>)
    requires forall j :: 0 <= j < |rows| ==> rows[j].user in users
    ensures totals.Keys == users && forall u :: u in users ==> totals[u] == SumTo(rows, |rows|, u)
  {
    totals := map u | u in users :: 0;
    for i := 0 to |rows|
      invariant totals.Keys == users && forall u :: u in users ==> totals[u] == SumTo(rows, i, u)
    {
      var g := rows[i];
      var unread := g.unread;
      if g.marked && unread == 0 {
        unread := 1;
      }
      totals := totals[g.user := totals[g.user] + unread];
    }
  }

  /** _unread_totals, given the grouped rows in any order. */
  method UnreadTotals(db: Db, users: set<UserId>, rows: seq<Group>) returns (totals: map<UserId, nat>)
    requires Lists(rows, Grouped(db, users))
    ensures totals.Keys == users
    ensures forall u :: u in users ==> totals[u] == ConvTotal(db, u, ConvsOf(db, u))
  {
    forall j | 0 <= j < |rows| ensures rows[j].user in users {
      GroupedIsPerMember(db, users, rows[j]);
    }
    totals := SumGroups(users, rows);
    forall u | u in users ensures SumTo(rows, |rows|, u) == ConvTotal(db, u, ConvsOf(db, u)) {
      SumIsTotal(db, users, rows, |rows|, u);
      AllSeen(db, users, rows, u);
    }
  }

  lemma RowIsNew(db: Db, users: set<UserId>, rows: seq<Group>, i: nat)
    requires Lists(rows, Grouped(db, users)) && i < |rows|
    ensures rows[i].user in users && rows[i].conv !in SeenConvs(rows, i, rows[i].user)
    ensures GroupShown(rows[i]) == ShownIn(db, rows[i].user, rows[i].conv)
  {
    var u, c := rows[i].user, rows[i].conv;
    GroupedIsPerMember(db, users, rows[i]);
    SeenMeans(rows, i, u, c);
    forall j | 0 <= j < i && rows[j].user == u ensures rows[j].conv != c {
      GroupedIsPerMember(db, users, rows[j]);
    }
  }

  lemma {:induction false} SumIsTotal(db: Db, users: set<UserId>, rows: seq<Group>, n: nat, u: UserId)
    requires Lists(rows, Grouped(db, users)) && n <= |rows|
    ensures SumTo(rows, n, u) == ConvTotal(db, u, SeenConvs(rows, n, u))
  {
    if n > 0 {
      SumIsTotal(db, users, rows, n - 1, u);
      if rows[n - 1].user == u {
        RowIsNew(db, users, rows, n - 1);
        ConvTotalAdd(db, u, SeenConvs(rows, n - 1, u), rows[n - 1].conv);
      } else {
        assert SeenConvs(rows, n, u) == SeenConvs(rows, n - 1, u);
      }
    }
  }

  lemma AllSeen(db: Db, users: set<UserId>, rows: seq<Group>, u: UserId)
    requires Lists(rows, Grouped(db, users)) && u in users
    ensures SeenConvs(rows, |rows|, u) == ConvsOf(db, u)
  {
    MembershipsOf(db, u);
    forall c ensures c in SeenConvs(rows, |rows|, u) <==> c in ConvsOf(db, u) {
      SeenMeans(rows, |rows|, u, c);
      if (c, u) in db.members {
        var g := Group(u, c, db.members[(c, u)].markedUnread, |UnreadIds(db, (c, u))|);
        GroupedIsPerMember(db, users, g);
        assert g in rows;
      }
      if c in SeenConvs(rows, |rows|, u) {
        var j :| 0 <= j < |rows| && rows[j].user == u && rows[j].conv == c;
        GroupedIsPerMember(db, users, rows[j]);
      }
    }
  }

  method HasFreshReply(db: Db, u: UserId, t: ThreadId, lasts: map<ThreadId, GuestMsgId>) returns (unread: bool)
    requires DistinctGuestTimes(db) && t in ThreadsOf(db, u) && Lasts(db, ThreadsOf(db, u), lasts)
    ensures unread <==> t in UnreadThreads(db, u)
  {
    LastDecides(db, ThreadsOf(db, u), lasts, t);
    unread := t in lasts && db.guestMessages[lasts[t]].fromGuest
              && (db.threads[t].hostReadAt.None? ||
                  db.guestMessages[lasts[t]].createdAt > db.threads[t].hostReadAt.value);
  }

  /** The secret-link loop of user_badge_total. */
  method FreshThreads(db: Db, u: UserId, threads: seq<ThreadId>, lasts: map<ThreadId, GuestMsgId>) returns (n: nat)
    requires DistinctGuestTimes(db) && Lists(threads, ThreadsOf(db, u)) && Lasts(db, ThreadsOf(db, u), lasts)
    ensures n == |UnreadThreads(db, u)|
  {
    n := 0;
    ghost var found: set<ThreadId> := {};
    for i := 0 to |threads|
      invariant forall t :: t in found <==> t in threads[..i] && t in UnreadThreads(db, u)
      invariant n == |found|
    {
      var t := threads[i];
      assert t in ThreadsOf(db, u) && t !in threads[..i];
      assert threads[..i + 1] == threads[..i] + [t];
      var unread := HasFreshReply(db, u, t, lasts);
      if unread {
        n := n + 1;
        found := found + {t};
      }
    }
    assert threads[..|threads|] == threads;
    assert found == UnreadThreads(db, u) by {
      forall t | t in UnreadThreads(db, u) ensures t in threads { assert t in ThreadsOf(db, u); }
    }
  }

  /** user_badge_total: the number the server sends with a push. */
  method UserBadgeTotal(db: Db, u: UserId, rows: seq<Group>, threads: seq<ThreadId>, lasts: map<ThreadId, GuestMsgId>)
    returns (total: nat)
    requires DistinctGuestTimes(db)
    requires Lists(rows, Grouped(db, {u})) && Lists(threads, ThreadsOf(db, u)) && Lasts(db, ThreadsOf(db, u), lasts)
    ensures total == Badge(db, u)
  {
    var totals := UnreadTotals(db, {u}, rows);
    var unopened := FreshThreads(db, u, threads, lasts);
    total := totals[u] + unopened;
  }

  // ---------- what the client is sent, and adds up ----------

  datatype ConvOut = ConvOut(id: ConvId, unreadCount: nat)

  datatype LinkOut = LinkOut(id: ThreadId, unread: bool)

  /** A conversation list as the client may hold it: every conversation once, in any order. */
  predicate ConvList(db: Db, u: UserId, out: seq<ConvOut>) {
    && (forall i :: 0 <= i < |out| ==> (out[i].id, u) in db.members && out[i].unreadCount == Shown(db, (out[i].id, u)))
    && (forall c :: c in ConvsOf(db, u) ==> exists i :: 0 <= i < |out| && out[i].id == c)
    && (forall i, j :: 0 <= i < j < |out| ==> out[i].id != out[j].id)
  }

  predicate LinkList(db: Db, u: UserId, out: seq<LinkOut>) {
    && (forall i :: 0 <= i < |out| ==>
          out[i].id in ThreadsOf(db, u) && (out[i].unread <==> ThreadUnread(db, out[i].id)))
    && (forall t :: t in ThreadsOf(db, u) ==> exists i :: 0 <= i < |out| && out[i].id == t)
    && (forall i, j :: 0 <= i < j < |out| ==> out[i].id != out[j].id)
  }

  predicate CountsShown(db: Db, u: UserId, unreadByConv: map<ConvId, nat>) {
    forall c :: c in unreadByConv ==> (c, u) in db.members && unreadByConv[c] == Shown(db, (c, u))
  }

  /** The loop over the grouped rows. */
  method UnreadByConversation(db: Db, u: UserId, rows: seq<Group>) returns (unreadByConv: map<ConvId, nat>)
    requires Lists(rows, Grouped(db, {u}))
    ensures CountsShown(db, u, unreadByConv) && forall c :: c in ConvsOf(db, u) ==> c in unreadByConv
  {
    unreadByConv := map[];
    for i := 0 to |rows|
      invariant CountsShown(db, u, unreadByConv)
      invariant forall j :: 0 <= j < i ==> rows[j].conv in unreadByConv
    {
      GroupedIsPerMember(db, {u}, rows[i]);
      var n := rows[i].unread;
      if rows[i].marked && n == 0 {
        n := 1;
      }
      unreadByConv := unreadByConv[rows[i].conv := n];
    }
    AllSeen(db, {u}, rows, u);
    forall c | c in ConvsOf(db, u) ensures c in unreadByConv {
      SeenMeans(rows, |rows|, u, c);
    }
  }

  /** list_conversations, up to the final sort by last activity. */
  method ListConversations(db: Db, u: UserId, memberships: seq<ConvId>, rows: seq<Group>) returns (out: seq<ConvOut>)
    requires Referential(db)
    requires Lists(memberships, ConvsOf(db, u)) && Lists(rows, Grouped(db, {u}))
    ensures ConvList(db, u, out)
  {
    MembershipsOf(db, u);
    var unreadByConv := UnreadByConversation(db, u, rows);
    out := [];
    for i := 0 to |memberships|
      invariant |out| == i && forall j :: 0 <= j < i ==> out[j].id == memberships[j]
      invariant forall j :: 0 <= j < i ==> out[j].unreadCount == Shown(db, (memberships[j], u))
      invariant forall j :: 0 <= j < i ==> (memberships[j], u) in db.members
    {
      var c := memberships[i];
      assert (c, u) in db.members && (c, u).0 in db.convs;
      if c in db.convs {
        out := out + [ConvOut(c, if c in unreadByConv then unreadByConv[c] else 0)];
      }
    }
    forall c | c in ConvsOf(db, u) ensures exists i :: 0 <= i < |out| && out[i].id == c {
      assert c in memberships;
      var i :| 0 <= i < |memberships| && memberships[i] == c;
      assert out[i].id == c;
    }
  }

  /** list_links: the unread flag of each of the creator's threads. */
  method ListLinks(db: Db, u: UserId, threads: seq<ThreadId>, lasts: map<ThreadId, GuestMsgId>)
    returns (out: seq<LinkOut>)
    requires DistinctGuestTimes(db)
    requires Lists(threads, ThreadsOf(db, u)) && Lasts(db, ThreadsOf(db, u), lasts)
    ensures LinkList(db, u, out)
  {
    out := [];
    for i := 0 to |threads|
      invariant |out| == i && forall j :: 0 <= j < i ==> out[j].id == threads[j]
      invariant forall j :: 0 <= j < i ==>
                  threads[j] in ThreadsOf(db, u) && (out[j].unread <==> ThreadUnread(db, threads[j]))
    {
      var t := threads[i];
      assert t in ThreadsOf(db, u);
      LastDecides(db, ThreadsOf(db, u), lasts, t);
      var unread := t in lasts && db.guestMessages[lasts[t]].fromGuest
        && (db.threads[t].hostReadAt.None? || db.guestMessages[lasts[t]].createdAt > db.threads[t].hostReadAt.value);
      out := out + [LinkOut(t, unread)];
    }
    forall t | t in ThreadsOf(db, u) ensures exists i :: 0 <= i < |out| && out[i].id == t {
      assert t in threads;
      var i :| 0 <= i < |threads| && threads[i] == t;
      assert out[i].id == t;
    }
  }

  method SumUnread(db: Db, u: UserId, conversations: seq<ConvOut>) returns (n: nat)
    requires ConvList(db, u, conversations)
    ensures n == ConvTotal(db, u, ConvsOf(db, u))
  {
    n := 0;
    ghost var seen: set<ConvId> := {};
    for i := 0 to |conversations|
      invariant seen == set j | 0 <= j < i :: conversations[j].id
      invariant n == ConvTotal(db, u, seen)
    {
      assert conversations[i].id !in seen;
      ConvTotalAdd(db, u, seen, conversations[i].id);
      n := n + conversations[i].unreadCount;
      seen := seen + {conversations[i].id};
    }
    MembershipsOf(db, u);
    assert seen == ConvsOf(db, u);
  }

  /** loadGuestUnread: list.filter(t => t.unread).length */
  method CountUnread(db: Db, u: UserId, links: seq<LinkOut>) returns (n: nat)
    requires LinkList(db, u, links)
    ensures n == |UnreadThreads(db, u)|
  {
    n := 0;
    ghost var found: set<ThreadId> := {};
    for i := 0 to |links|
      invariant found == set j | 0 <= j < i && links[j].unread :: links[j].id
      invariant n == |found|
    {
      if links[i].unread {
        assert links[i].id !in found;
        n := n + 1;
        found := found + {links[i].id};
      }
    }
    assert found == UnreadThreads(db, u) by {
      forall t | t in UnreadThreads(db, u) ensures t in found {
        assert t in ThreadsOf(db, u);
        var i :| 0 <= i < |links| && links[i].id == t;
        assert links[i].unread;
      }
    }
  }

  /** syncBadge after a full reload, whatever order the client keeps its lists in: the number
      on the app icon is the number user_badge_total computes. */
  method SyncBadge(db: Db, u: UserId, conversations: seq<ConvOut>, links: seq<LinkOut>) returns (total: nat)
    requires ConvList(db, u, conversations) && LinkList(db, u, links)
    ensures total == Badge(db, u)
  {
    var n := SumUnread(db, u, conversations);
    var guestUnread := CountUnread(db, u, links);
    total := n + guestUnread;
  }
}
