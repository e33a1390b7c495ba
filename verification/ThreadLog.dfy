/** Incremental polling of a secret-link thread (guest page and host page share the shape).

    The server answers "rows after message X"; the page keeps the id of the last row of
    the last non-empty answer and merges each answer into its list. Requests are
    numbered; they may be served and may arrive in any order, or never. */
module ThreadLog {
  import opened Common
  import opened Timeline

  // ---------- server ----------

  /** created_at of the anchor row, NULL when the id is not in this thread. */
  function AnchorTime(table: seq<Row>, home: Id, id: Id): Option<int> {
    if table == [] then None
    else if table[0].id == id && table[0].home == home then Some(table[0].at)
    else AnchorTime(table[1..], home, id)
  }

  /** The rows of get_thread / get_link. A comparison with a NULL anchor selects nothing. */
  function ThreadRows(table: seq<Row>, home: Id, after: Option<Id>): seq<Row> {
    match after
    case None => History(table, home)
    case Some(id) =>
      match AnchorTime(table, home, id)
      case None => []
      case Some(t) => Query(table, Range(home, Some(t), None))
  }

  // ---------- page ----------

  function Ids(rows: seq<Row>): set<Id> { set r | r in rows :: r.id }

  function Fresh(seen: set<Id>, next: seq<Row>): seq<Row> {
    if next == [] then []
    else (if next[0].id !in seen then [next[0]] else []) + Fresh(seen, next[1..])
  }

  function MergeDecoded(prev: seq<Row>, next: seq<Row>): seq<Row> {
    prev + Fresh(Ids(prev), next)
  }

  /** What the page holds: `lastIdRef` and the message list. */
  datatype Page = Page(lastId: Option<Id>, msgs: seq<Row>)

  function Absorb(p: Page, after: Option<Id>, out: seq<Row>): Page {
    Page(if out != [] then Some(out[|out| - 1].id) else p.lastId,
         if after.Some? then MergeDecoded(p.msgs, out) else out)
  }

  predicate LastNonEmpty(answers: seq<seq<Row>>, k: nat) {
    k < |answers| && answers[k] != [] && forall j :: k < j < |answers| ==> answers[j] == []
  }

  ghost predicate IsAnchor(answers: seq<seq<Row>>, anchor: Option<Id>) {
    if anchor.None? then forall k :: 0 <= k < |answers| ==> answers[k] == []
    else exists k: nat :: LastNonEmpty(answers, k) && anchor.value == answers[k][|answers[k]| - 1].id
  }

  lemma AnchorMoves(answers: seq<seq<Row>>, anchor: Option<Id>, out: seq<Row>)
    requires IsAnchor(answers, anchor)
    ensures IsAnchor(answers + [out], if out != [] then Some(out[|out| - 1].id) else anchor)
  {
    var more := answers + [out];
    if out != [] {
      assert LastNonEmpty(more, |answers|);
    } else if anchor.Some? {
      var k: nat :| LastNonEmpty(answers, k) && anchor.value == answers[k][|answers[k]| - 1].id;
      assert LastNonEmpty(more, k);
    }
  }

  /** The mutable page component. */
  class ThreadPage {
    var lastId: Option<Id>
    var msgs: seq<Row>

    ghost var arrived: seq<seq<Row>>   // every answer so far

    ghost function View(): Page reads this { Page(lastId, msgs) }

    /** The anchor is what the answers so far say it is. */
    ghost predicate Valid() reads this { IsAnchor(arrived, lastId) }

    constructor ()
      ensures Valid() && View() == Page(None, []) && arrived == []
    {
      lastId, msgs, arrived := None, [], [];
    }

    /** A poll started now asks for what follows the last row of the last non-empty answer, and for
        the whole thread exactly when every answer so far was empty. */
    method Anchor() returns (after: Option<Id>)
      requires Valid()
      ensures after.None? <==> forall k :: 0 <= k < |arrived| ==> arrived[k] == []
      ensures after.Some? ==>
                exists k: nat :: LastNonEmpty(arrived, k) && after.value == arrived[k][|arrived[k]| - 1].id
    {
      after := lastId;
    }

    /** The tail of `load`, once the answer to a poll sent with `after` has arrived. */
    method Arrive(after: Option<Id>, out: seq<Row>)
      requires Valid()
      modifies this
      ensures Valid() && arrived == old(arrived) + [out]
      ensures View() == Absorb(old(View()), after, out)
    {
      AnchorMoves(arrived, lastId, out);
      arrived := arrived + [out];
      if |out| != 0 {
        lastId := Some(out[|out| - 1].id);
      }
      if after.Some? {
        var merged := MergeInto(msgs, out);
        msgs := merged;
      } else {
        msgs := out;
      }
    }

    static method MergeInto(prev: seq<Row>, next: seq<Row>) returns (merged: seq<Row>)
      ensures merged == MergeDecoded(prev, next)
    {
      if |next| == 0 {
        merged := prev;
        return;
      }
      var seen := Ids(prev);
      var unseen: seq<Row> := [];
      for i := 0 to |next|
        invariant unseen + Fresh(seen, next[i..]) == Fresh(seen, next)
      {
        assert next[i..][1..] == next[i + 1..];
        if next[i].id !in seen {
          unseen := unseen + [next[i]];
        }
      }
      merged := if |unseen| != 0 then prev + unseen else prev;
    }
  }

  // ---------- one page polling one thread ----------

  datatype Flight = Asked(after: Option<Id>) | Answered(after: Option<Id>, rows: seq<Row>)

  datatype State = State(table: seq<Row>, page: Page, flights: map<nat, Flight>, next: nat)

  datatype Event =
    | Post(row: Row)   // a message row is inserted, in this thread or another
    | Poll             // the page sends a request
    | Serve(n: nat)    // the server evaluates request n
    | Arrive(n: nat)   // the answer to request n reaches the page
    | Lose(n: nat)     // request n fails (network, expired link)

  function Step(home: Id, s: State, e: Event): State {
    match e
    case Post(r) => s.(table := s.table + [r])
    case Poll => s.(flights := s.flights[s.next := Asked(s.page.lastId)], next := s.next + 1)
    case Serve(n) =>
      if n in s.flights && s.flights[n].Asked? then
        var after := s.flights[n].after;
        s.(flights := s.flights[n := Answered(after, ThreadRows(s.table, home, after))])
      else s
    case Arrive(n) =>
      if n in s.flights && s.flights[n].Answered? then
        s.(page := Absorb(s.page, s.flights[n].after, s.flights[n].rows), flights := s.flights - {n})
      else s
    case Lose(n) => s.(flights := s.flights - {n})
  }

  function Run(home: Id, s: State, es: seq<Event>): State
    decreases |es|
  {
    if es == [] then s else Run(home, Step(home, s, es[0]), es[1..])
  }

  /** Message times strictly increase, and a full poll (no anchor yet) is sent only when
      nothing else is in flight: `await load()` before the interval starts. */
  predicate Orderly(s: State, e: Event) {
    match e
    case Post(r) => Newest(s.table, r)
    case Poll => s.page.lastId.Some? || s.flights == map[]
    case _ => true
  }

  predicate OrderlyRun(home: Id, s: State, es: seq<Event>)
    decreases |es|
  {
    es == [] || (Orderly(s, es[0]) && OrderlyRun(home, Step(home, s, es[0]), es[1..]))
  }

  function Opened(table: seq<Row>): State { State(table, Page(None, []), map[], 0) }

  // ---------- positions ----------

  /** One past the position of `id`, 0 when it is absent. */
  function Past(log: seq<Row>, id: Id): nat {
    if log == [] then 0
    else if log[0].id == id then 1
    else var p := Past(log[1..], id); if p == 0 then 0 else p + 1
  }

  lemma {:induction false} PastIs(log: seq<Row>, k: nat)
    requires DistinctIds(log) && 0 < k <= |log|
    ensures Past(log, log[k - 1].id) == k
  {
    if k > 1 {
      assert log[1..][k - 2] == log[k - 1];
      PastIs(log[1..], k - 1);
    }
  }

  lemma {:induction false} PastFound(log: seq<Row>, id: Id)
    ensures Past(log, id) <= |log|
    ensures Past(log, id) > 0 ==> log[Past(log, id) - 1].id == id
  {
    if log != [] && log[0].id != id { PastFound(log[1..], id); }
  }

  lemma {:induction false} PastAppend(log: seq<Row>, more: seq<Row>, id: Id)
    requires Past(log, id) > 0
    ensures Past(log + more, id) == Past(log, id)
  {
    if log[0].id != id {
      assert (log + more)[1..] == log[1..] + more;
      PastAppend(log[1..], more, id);
    }
  }

  predicate Anchored(log: seq<Row>, after: Option<Id>) { after.Some? ==> Past(log, after.value) > 0 }

  function AnchorPos(log: seq<Row>, after: Option<Id>): nat {
    if after.Some? then Past(log, after.value) else 0
  }

  // ---------- the answer is the tail of the log ----------

  lemma {:induction false} AnchorTimeIs(table: seq<Row>, home: Id, r: Row)
    requires DistinctIds(table) && r in table && r.home == home
    ensures AnchorTime(table, home, r.id) == Some(r.at)
  {
    if table[0] != r {
      var k :| 0 <= k < |table| && table[k] == r;
      assert table[1..][k - 1] == r;
      AnchorTimeIs(table[1..], home, r);
    }
  }

  predicate GoodTable(table: seq<Row>, home: Id) {
    && DistinctIds(table)
    && StrictlyAscending(History(table, home))
  }

  lemma HistoryDistinct(table: seq<Row>, home: Id)
    requires GoodTable(table, home)
    ensures DistinctIds(History(table, home))
  {
    var log := History(table, home);
    QueryMembers(table, Whole(home));
    forall i, j | 0 <= i < j < |log| ensures log[i].id != log[j].id {
      assert log[i] in table && log[j] in table && log[i] != log[j];
    }
  }

  /** An anchored request is answered with exactly what the log holds past the anchor. */
  lemma ThreadRowsAreTail(table: seq<Row>, home: Id, after: Option<Id>)
    requires GoodTable(table, home) && Anchored(History(table, home), after)
    ensures AnchorPos(History(table, home), after) <= |History(table, home)|
    ensures ThreadRows(table, home, after) == History(table, home)[AnchorPos(History(table, home), after)..]
  {
    var log := History(table, home);
    if after.Some? {
      PastFound(log, after.value);
      var k := Past(log, after.value);
      var anchor := log[k - 1];
      QueryMembers(table, Whole(home));
      assert anchor in log;
      AnchorTimeIs(table, home, anchor);
      var q := Range(home, Some(anchor.at), None);
      forall i | 0 <= i < |log| ensures Matches(q, log[i]) <==> k <= i < |log| {
        assert log[i] in log;
      }
      QuerySlice(table, q, k, |log|);
    }
  }

  /** An anchor the thread does not hold selects nothing, so it can only stall the page. */
  lemma {:induction false} UnknownAnchorSelectsNothing(table: seq<Row>, home: Id, id: Id)
    requires forall r :: r in table && r.home == home ==> r.id != id
    ensures AnchorTime(table, home, id) == None && ThreadRows(table, home, Some(id)) == []
  {
    if table != [] {
      assert table[0] in table;
      UnknownAnchorSelectsNothing(table[1..], home, id);
    }
  }

  // ---------- merging ----------

  lemma {:induction false} FreshSlice(log: seq<Row>, n: nat, k: nat, m: nat)
    requires DistinctIds(log) && n <= |log| && k <= m <= |log|
    ensures Fresh(Ids(log[..n]), log[k..m]) == if m <= n then [] else log[if n < k then k else n..m]
    decreases m - k
  {
    if k < m {
      assert log[k..m][1..] == log[k + 1..m];
      FreshSlice(log, n, k + 1, m);
      if k < n {
        assert log[..n][k] == log[k];
      } else {
        assert forall i :: 0 <= i < n ==> log[..n][i] == log[i];
        assert log[k].id !in Ids(log[..n]);
      }
    }
  }

  /** Merging log[k..m] into log[..n] extends the prefix when it starts inside it. */
  lemma MergeExtendsPrefix(log: seq<Row>, n: nat, k: nat, m: nat)
    requires DistinctIds(log) && n <= |log| && k <= m <= |log| && k <= n
    ensures MergeDecoded(log[..n], log[k..m]) == log[..if n < m then m else n]
  {
    FreshSlice(log, n, k, m);
    var added := Fresh(Ids(log[..n]), log[k..m]);
    if n < m {
      assert added == log[n..m] && log[..n] + log[n..m] == log[..m];
    } else {
      assert added == [] && log[..n] + [] == log[..n];
    }
  }

  /** Exactly when one merge keeps the list a prefix: the list already reaches the anchor,
      or the answer is empty. A page can test this before it merges. */
  lemma MergeKeepsPrefixIff(log: seq<Row>, n: nat, k: nat, m: nat)
    requires DistinctIds(log) && n <= |log| && k <= m <= |log|
    ensures MergeDecoded(log[..n], log[k..m]) <= log <==> k <= n || k == m
  {
    FreshSlice(log, n, k, m);
    var merged := MergeDecoded(log[..n], log[k..m]);
    if n < k < m {
      assert merged[n] == log[k];
      assert log[n].id != log[k].id;
    }
  }

  // ---------- every run ----------

  /** True of every request: its anchor is in the log, its answer the rows just after the anchor. */
  ghost predicate SaneFlight(log: seq<Row>, f: Flight) {
    && Anchored(log, f.after)
    && (f.Answered? ==> AnchorPos(log, f.after) <= |log| && f.rows <= log[AnchorPos(log, f.after)..])
  }

  ghost predicate Sane(home: Id, s: State) {
    var log := History(s.table, home);
    && GoodTable(s.table, home)
    && Anchored(log, s.page.lastId)
    && (forall n :: n in s.flights ==> SaneFlight(log, s.flights[n]))
  }

  ghost predicate GoodFlight(log: seq<Row>, page: Page, f: Flight) {
    SaneFlight(log, f) && AnchorPos(log, f.after) <= |page.msgs|
  }

  ghost predicate Inv(home: Id, s: State) {
    var log := History(s.table, home);
    && GoodTable(s.table, home)
    && s.page.msgs <= log
    && Anchored(log, s.page.lastId)
    && AnchorPos(log, s.page.lastId) <= |s.page.msgs|
    && (s.page.lastId.None? ==> s.page.msgs == [])
    && (forall n :: n in s.flights ==> n < s.next && GoodFlight(log, s.page, s.flights[n]))
    && (forall n :: n in s.flights && s.flights[n].after.None? ==> s.page.lastId.None?)
    && (forall n, m :: n in s.flights && m in s.flights && s.flights[n].after.None? ==> n == m)
  }

  lemma OpenedInv(home: Id, table: seq<Row>)
    requires GoodTable(table, home)
    ensures Inv(home, Opened(table))
  {}

  lemma SaneGrows(log: seq<Row>, more: seq<Row>, f: Flight)
    requires SaneFlight(log, f)
    ensures SaneFlight(log + more, f) && AnchorPos(log + more, f.after) == AnchorPos(log, f.after)
  {
    if f.after.Some? { PastAppend(log, more, f.after.value); }
    if f.Answered? {
      var k := AnchorPos(log, f.after);
      assert (log + more)[k..] == log[k..] + more;
    }
  }

  lemma PostKeepsSane(home: Id, s: State, r: Row)
    requires Sane(home, s) && Newest(s.table, r)
    ensures Sane(home, Step(home, s, Post(r)))
    ensures History(s.table, home) <= History(Step(home, s, Post(r)).table, home)
    ensures AnchorPos(History(Step(home, s, Post(r)).table, home), s.page.lastId) ==
            AnchorPos(History(s.table, home), s.page.lastId)
  {
    var log, more := History(s.table, home), if r.home == home then [r] else [];
    HistoryAppend(s.table, r, home);
    QueryMembers(s.table, Whole(home));
    forall i | 0 <= i < |log| && r.home == home ensures log[i].at < r.at { assert log[i] in log; }
    if s.page.lastId.Some? { PastAppend(log, more, s.page.lastId.value); }
    forall n | n in s.flights ensures SaneFlight(log + more, s.flights[n]) { SaneGrows(log, more, s.flights[n]); }
  }

  lemma PostKeepsInv(home: Id, s: State, r: Row)
    requires Inv(home, s) && Newest(s.table, r)
    ensures Inv(home, Step(home, s, Post(r)))
  {
    var log, more := History(s.table, home), if r.home == home then [r] else [];
    PostKeepsSane(home, s, r);
    HistoryAppend(s.table, r, home);
    forall n | n in s.flights
      ensures GoodFlight(log + more, s.page, s.flights[n]) { SaneGrows(log, more, s.flights[n]); }
  }

  lemma ServeKeepsInv(home: Id, s: State, n: nat)
    requires Inv(home, s)
    ensures Inv(home, Step(home, s, Serve(n)))
  {
    if n in s.flights && s.flights[n].Asked? {
      ThreadRowsAreTail(s.table, home, s.flights[n].after);
    }
  }

  /** Absorbing rows k..m of the log into a page that shows its first rows, k of them at least. */
  lemma AbsorbExtends(log: seq<Row>, p: Page, after: Option<Id>, k: nat, m: nat)
    requires DistinctIds(log) && p.msgs <= log && k <= m <= |log| && k <= |p.msgs|
    requires Anchored(log, p.lastId) && AnchorPos(log, p.lastId) <= |p.msgs|
    requires after.None? ==> k == 0 && p.msgs == []
    ensures var x := Absorb(p, after, log[k..m]);
            && x.msgs == log[..if |p.msgs| < m then m else |p.msgs|]
            && Anchored(log, x.lastId) && AnchorPos(log, x.lastId) <= |x.msgs|
            && x.lastId == if k < m then Some(log[m - 1].id) else p.lastId
  {
    var out := log[k..m];
    assert p.msgs == log[..|p.msgs|];
    if after.Some? { MergeExtendsPrefix(log, |p.msgs|, k, m); }
    if k < m {
      assert out[|out| - 1] == log[m - 1];
      PastIs(log, m);
    }
  }

  /** The list after an answer arrives: never shorter, never anything but a prefix. */
  ghost predicate Extended(log: seq<Row>, was: Page, f: Flight, p: Page)
    requires f.Answered?
  {
    var m := AnchorPos(log, f.after) + |f.rows|;
    && p.msgs <= log
    && |p.msgs| == (if |was.msgs| < m then m else |was.msgs|)
    && Anchored(log, p.lastId) && AnchorPos(log, p.lastId) <= |p.msgs|
    && (p.lastId.None? ==> p.msgs == [] && was.lastId.None?)
  }

  lemma AnswerExtends(log: seq<Row>, p: Page, f: Flight)
    requires f.Answered? && GoodFlight(log, p, f) && DistinctIds(log) && p.msgs <= log
    requires Anchored(log, p.lastId) && AnchorPos(log, p.lastId) <= |p.msgs|
    requires (f.after.None? ==> p.msgs == []) && (p.lastId.None? ==> p.msgs == [])
    ensures Extended(log, p, f, Absorb(p, f.after, f.rows))
  {
    var k := AnchorPos(log, f.after);
    assert f.rows == log[k..k + |f.rows|];
    AbsorbExtends(log, p, f.after, k, k + |f.rows|);
  }

  lemma ArriveExtends(home: Id, s: State, n: nat)
    requires Inv(home, s) && n in s.flights && s.flights[n].Answered?
    ensures Extended(History(s.table, home), s.page, s.flights[n], Step(home, s, Arrive(n)).page)
  {
    HistoryDistinct(s.table, home);
    assert GoodFlight(History(s.table, home), s.page, s.flights[n]);
    AnswerExtends(History(s.table, home), s.page, s.flights[n]);
  }

  lemma ArriveKeepsInv(home: Id, s: State, n: nat)
    requires Inv(home, s)
    ensures Inv(home, Step(home, s, Arrive(n)))
  {
    if n in s.flights && s.flights[n].Answered? {
      ArriveExtends(home, s, n);
      var t := Step(home, s, Arrive(n));
      assert forall i :: i in t.flights ==> i in s.flights && t.flights[i] == s.flights[i];
    }
  }

  lemma StepKeepsInv(home: Id, s: State, e: Event)
    requires Inv(home, s) && Orderly(s, e)
    ensures Inv(home, Step(home, s, e))
  {
    match e
    case Post(r) => PostKeepsInv(home, s, r);
    case Poll =>
    case Serve(n) => ServeKeepsInv(home, s, n);
    case Arrive(n) => ArriveKeepsInv(home, s, n);
    case Lose(n) =>
  }

  lemma {:induction false} RunKeepsInv(home: Id, s: State, es: seq<Event>)
    requires Inv(home, s) && OrderlyRun(home, s, es)
    ensures Inv(home, Run(home, s, es))
    decreases |es|
  {
    if es != [] {
      StepKeepsInv(home, s, es[0]);
      RunKeepsInv(home, Step(home, s, es[0]), es[1..]);
    }
  }

  /** In every orderly run the page shows a duplicate-free prefix of the thread. */
  lemma PageIsPrefix(home: Id, table: seq<Row>, es: seq<Event>)
    requires GoodTable(table, home) && OrderlyRun(home, Opened(table), es)
    ensures var s := Run(home, Opened(table), es);
            s.page.msgs <= History(s.table, home) && DistinctIds(s.page.msgs)
  {
    OpenedInv(home, table);
    RunKeepsInv(home, Opened(table), es);
    HistoryDistinct(Run(home, Opened(table), es).table, home);
  }

  predicate Quiet(home: Id, e: Event) { e.Post? ==> e.row.home != home }

  /** Poll p saw (or will see) the whole log, or the page already shows it. */
  ghost predicate Caught(home: Id, s: State, p: nat) {
    var log := History(s.table, home);
    && p < s.next
    && (|| s.page.msgs == log
        || p !in s.flights
        || s.flights[p].Asked?
        || (&& AnchorPos(log, s.flights[p].after) <= |log|
            && s.flights[p].rows == log[AnchorPos(log, s.flights[p].after)..]))
  }

  lemma QuietStepKeepsCaught(home: Id, s: State, e: Event, p: nat)
    requires Inv(home, s) && Orderly(s, e) && Quiet(home, e) && Caught(home, s, p)
    ensures Caught(home, Step(home, s, e), p)
    ensures s.page.msgs == History(s.table, home) ==>
              Step(home, s, e).page.msgs == History(Step(home, s, e).table, home)
    ensures e == Arrive(p) && p in s.flights && s.flights[p].Answered? ==>
              Step(home, s, e).page.msgs == History(s.table, home)
    ensures p !in s.flights ==> p !in Step(home, s, e).flights
  {
    match e
    case Post(r) => HistoryAppend(s.table, r, home);
                    assert History(s.table, home) + [] == History(s.table, home);
    case Poll =>
    case Serve(n) =>
      if n in s.flights && s.flights[n].Asked? { ThreadRowsAreTail(s.table, home, s.flights[n].after); }
    case Arrive(n) =>
      if n in s.flights && s.flights[n].Answered? { ArriveExtends(home, s, n); }
    case Lose(n) =>
  }

  /** Arrive(p) really delivers an answer somewhere in the run. */
  ghost predicate Delivered(home: Id, s: State, es: seq<Event>, p: nat)
    decreases |es|
  {
    es != [] &&
    (|| (es[0] == Arrive(p) && p in s.flights && s.flights[p].Answered?)
     || Delivered(home, Step(home, s, es[0]), es[1..], p))
  }

  lemma {:induction false} CaughtUpRun(home: Id, s: State, es: seq<Event>, p: nat)
    requires Inv(home, s) && OrderlyRun(home, s, es) && Caught(home, s, p)
    requires forall i :: 0 <= i < |es| ==> Quiet(home, es[i])
    requires s.page.msgs == History(s.table, home) || Delivered(home, s, es, p)
    ensures Run(home, s, es).page.msgs == History(Run(home, s, es).table, home)
    decreases |es|
  {
    if es != [] {
      StepKeepsInv(home, s, es[0]);
      QuietStepKeepsCaught(home, s, es[0], p);
      if es[0] == Arrive(p) && p in s.flights && s.flights[p].Answered? {
        assert Step(home, s, es[0]).table == s.table;
      }
      CaughtUpRun(home, Step(home, s, es[0]), es[1..], p);
    }
  }

  /** A poll sent after the last post, once answered, makes the page equal to the log,
      and late answers to older polls do not undo it. */
  lemma PollAfterLastPostCatchesUp(home: Id, s: State, es: seq<Event>)
    requires Inv(home, s) && OrderlyRun(home, s, [Poll] + es)
    requires forall i :: 0 <= i < |es| ==> Quiet(home, es[i])
    requires Delivered(home, Step(home, s, Poll), es, s.next)
    ensures var t := Run(home, s, [Poll] + es); t.page.msgs == History(t.table, home)
  {
    assert ([Poll] + es)[1..] == es;
    StepKeepsInv(home, s, Poll);
    CaughtUpRun(home, Step(home, s, Poll), es, s.next);
  }

  // ---------- when the proviso fails ----------

  lemma Unroll(home: Id, s: State, es: seq<Event>, i: nat)
    requires i < |es|
    ensures Run(home, s, es[i..]) == Run(home, Step(home, s, es[i]), es[i + 1..])
  {
    assert es[i..][1..] == es[i + 1..];
  }

  predicate ThreeInOrder(home: Id, a: Row, b: Row, c: Row) {
    && a.home == b.home == c.home == home
    && a.at < b.at < c.at
    && a.id != b.id && a.id != c.id && b.id != c.id
  }

  lemma HistoryOfThree(home: Id, a: Row, b: Row, c: Row)
    requires ThreeInOrder(home, a, b, c)
    ensures History([a], home) == [a]
    ensures History([a, b], home) == [a, b]
    ensures History([a, b, c], home) == [a, b, c]
  {
    HistoryAppend([], a, home);
    HistoryAppend([a], b, home);
    HistoryAppend([a, b], c, home);
    assert [] + [a] == [a] && [a] + [b] == [a, b] && [a, b] + [c] == [a, b, c];
  }

  /** Two full polls in flight at once: the late answer to the first truncates the list,
      and the anchored answer that follows leaves a hole. */
  function OverlapRun(b: Row, c: Row): seq<Event> {
    [Poll, Serve(0), Post(b), Poll, Serve(1), Arrive(1)] + OverlapEnd(c)
  }

  function OverlapEnd(c: Row): seq<Event> { [Poll, Post(c), Serve(2), Arrive(0), Arrive(2)] }

  lemma OverlapMidway(home: Id, a: Row, b: Row, c: Row)
    requires ThreeInOrder(home, a, b, c)
    ensures Run(home, Opened([a]), OverlapRun(b, c)) ==
            Run(home, State([a, b], Page(Some(b.id), [a, b]), map[0 := Answered(None, [a])], 2), OverlapEnd(c))
  {
    HistoryOfThree(home, a, b, c);
    var es := OverlapRun(b, c);
    assert es[0..] == es;
    var s0 := Opened([a]);
    Unroll(home, s0, es, 0); var s1 := Step(home, s0, Poll);
    Unroll(home, s1, es, 1); var s2 := Step(home, s1, Serve(0));
    assert s2.flights == map[0 := Answered(None, [a])];
    Unroll(home, s2, es, 2); var s3 := Step(home, s2, Post(b));
    assert s3.table == [a, b];
    Unroll(home, s3, es, 3); var s4 := Step(home, s3, Poll);
    Unroll(home, s4, es, 4); var s5 := Step(home, s4, Serve(1));
    assert s5.flights == map[0 := Answered(None, [a]), 1 := Answered(None, [a, b])];
    Unroll(home, s5, es, 5); var s6 := Step(home, s5, Arrive(1));
    assert s6.flights == map[0 := Answered(None, [a])];
    assert es[6..] == OverlapEnd(c);
  }

  /** With no proviso at all: an arriving answer keeps the page a prefix of the log exactly
      when it is a full load, or empty, or its anchor lies inside the page's list. */
  lemma ArriveKeepsPrefixIff(home: Id, s: State, n: nat)
    requires GoodTable(s.table, home) && n in s.flights && s.flights[n].Answered?
    requires var log, f := History(s.table, home), s.flights[n];
             && s.page.msgs <= log && Anchored(log, f.after)
             && AnchorPos(log, f.after) <= |log| && f.rows <= log[AnchorPos(log, f.after)..]
    ensures var log, f := History(s.table, home), s.flights[n];
            Step(home, s, Arrive(n)).page.msgs <= log <==>
            f.after.None? || f.rows == [] || AnchorPos(log, f.after) <= |s.page.msgs|
  {
    var log, f := History(s.table, home), s.flights[n];
    var k := AnchorPos(log, f.after);
    HistoryDistinct(s.table, home);
    assert s.page.msgs == log[..|s.page.msgs|] && f.rows == log[k..k + |f.rows|];
    MergeKeepsPrefixIff(log, |s.page.msgs|, k, k + |f.rows|);
  }

  /** The condition of the lemma above, which a page can test before it merges. */
  predicate ArrivalFits(home: Id, s: State, e: Event) {
    e.Arrive? && e.n in s.flights && s.flights[e.n].Answered? ==>
      var f := s.flights[e.n];
      f.after.None? || f.rows == [] || AnchorPos(History(s.table, home), f.after) <= |s.page.msgs|
  }

  predicate AllArrivalsFit(home: Id, s: State, es: seq<Event>)
    decreases |es|
  {
    es == [] || (ArrivalFits(home, s, es[0]) && AllArrivalsFit(home, Step(home, s, es[0]), es[1..]))
  }

  /** The list is a prefix of the log at every moment of the run. */
  predicate AlwaysAPrefix(home: Id, s: State, es: seq<Event>)
    decreases |es|
  {
    s.page.msgs <= History(s.table, home) && (es == [] || AlwaysAPrefix(home, Step(home, s, es[0]), es[1..]))
  }

  predicate NewestPosts(home: Id, s: State, es: seq<Event>)
    decreases |es|
  {
    es == [] || ((es[0].Post? ==> Newest(s.table, es[0].row)) && NewestPosts(home, Step(home, s, es[0]), es[1..]))
  }

  lemma ArriveKeepsSane(home: Id, s: State, n: nat)
    requires Sane(home, s)
    ensures Sane(home, Step(home, s, Arrive(n)))
  {
    if n in s.flights && s.flights[n].Answered? {
      var log, f := History(s.table, home), s.flights[n];
      assert SaneFlight(log, f);
      var k := AnchorPos(log, f.after);
      if f.rows != [] {
        HistoryDistinct(s.table, home);
        assert f.rows[|f.rows| - 1] == log[k + |f.rows| - 1];
        PastIs(log, k + |f.rows|);
      }
    }
  }

  lemma StepKeepsSane(home: Id, s: State, e: Event)
    requires Sane(home, s) && (e.Post? ==> Newest(s.table, e.row))
    ensures Sane(home, Step(home, s, e))
  {
    match e
    case Post(r) => PostKeepsSane(home, s, r);
    case Poll =>
    case Serve(n) => if n in s.flights && s.flights[n].Asked? {
      assert SaneFlight(History(s.table, home), s.flights[n]);
      ThreadRowsAreTail(s.table, home, s.flights[n].after);
    }
    case Arrive(n) => ArriveKeepsSane(home, s, n);
    case Lose(n) =>
  }

  lemma StepKeepsPrefixIff(home: Id, s: State, e: Event)
    requires Sane(home, s) && (e.Post? ==> Newest(s.table, e.row)) && s.page.msgs <= History(s.table, home)
    ensures var t := Step(home, s, e); t.page.msgs <= History(t.table, home) <==> ArrivalFits(home, s, e)
  {
    if e.Post? { PostKeepsSane(home, s, e.row); }
    if e.Arrive? && e.n in s.flights && s.flights[e.n].Answered? {
      assert SaneFlight(History(s.table, home), s.flights[e.n]);
      ArriveKeepsPrefixIff(home, s, e.n);
    }
  }

  lemma {:induction false} PrefixIffArrivalsFit(home: Id, s: State, es: seq<Event>)
    requires Sane(home, s) && NewestPosts(home, s, es) && s.page.msgs <= History(s.table, home)
    ensures AlwaysAPrefix(home, s, es) <==> AllArrivalsFit(home, s, es)
    decreases |es|
  {
    if es != [] {
      var t := Step(home, s, es[0]);
      StepKeepsPrefixIff(home, s, es[0]);
      if ArrivalFits(home, s, es[0]) {
        StepKeepsSane(home, s, es[0]);
        PrefixIffArrivalsFit(home, t, es[1..]);
      }
    }
  }

  /** For every run at all, overlapping full polls and answers in any order included: the page
      shows a prefix of the thread at every moment if and only if every arriving answer is
      full, or empty, or anchored inside the page's list. */
  lemma AlwaysAPrefixIff(home: Id, table: seq<Row>, es: seq<Event>)
    requires GoodTable(table, home) && NewestPosts(home, Opened(table), es)
    ensures AlwaysAPrefix(home, Opened(table), es) <==> AllArrivalsFit(home, Opened(table), es)
  {
    PrefixIffArrivalsFit(home, Opened(table), es);
  }

  /** So the prefix property needs the "one full load first" proviso: without it the page
      skips a message, and every later poll starts past the hole. */
  lemma OverlappingFullPollsLeaveAHole(home: Id, a: Row, b: Row, c: Row)
    requires ThreeInOrder(home, a, b, c)
    ensures var s := Run(home, Opened([a]), OverlapRun(b, c));
            s.page == Page(Some(c.id), [a, c]) && History(s.table, home) == [a, b, c]
  {
    OverlapMidway(home, a, b, c);
    HistoryOfThree(home, a, b, c);
    var es := OverlapEnd(c);
    assert es[0..] == es;
    var s6 := State([a, b], Page(Some(b.id), [a, b]), map[0 := Answered(None, [a])], 2);
    Unroll(home, s6, es, 0); var s7 := Step(home, s6, Poll);
    Unroll(home, s7, es, 1); var s8 := Step(home, s7, Post(c));
    assert s8.table == [a, b, c];
    assert s8.page == s6.page && s8.flights == map[0 := Answered(None, [a]), 2 := Asked(Some(b.id))];
    OverlapLastAnswers(home, a, b, c, s8);
    assert es[2..] == [Serve(2), Arrive(0), Arrive(2)];
  }

  /** The late full answer replaces the list, and the tail after b is then merged without b. */
  lemma OverlapArrives(home: Id, a: Row, c: Row, s: State)
    requires a.id != c.id && 0 in s.flights && 2 in s.flights && s.flights[0] == Answered(None, [a])
    requires s.flights[2].Answered? && s.flights[2].after.Some? && s.flights[2].rows == [c]
    ensures var t := Step(home, Step(home, s, Arrive(0)), Arrive(2));
            t.page == Page(Some(c.id), [a, c]) && t.table == s.table
  {
    var t := Step(home, s, Arrive(0));
    assert t.page == Page(Some(a.id), [a]) && t.flights[2] == s.flights[2];
    assert Fresh(Ids([a]), [c]) == [c];
  }

  lemma OverlapLastAnswers(home: Id, a: Row, b: Row, c: Row, s8: State)
    requires ThreeInOrder(home, a, b, c) && s8.table == [a, b, c] && s8.page == Page(Some(b.id), [a, b])
    requires s8.flights == map[0 := Answered(None, [a]), 2 := Asked(Some(b.id))]
    ensures var s := Run(home, s8, [Serve(2), Arrive(0), Arrive(2)]);
            s.page == Page(Some(c.id), [a, c]) && s.table == [a, b, c]
  {
    var es := [Serve(2), Arrive(0), Arrive(2)];
    assert es[0..] == es && es[3..] == [];
    HistoryOfThree(home, a, b, c);
    PastIs([a, b, c], 2);
    ThreadRowsAreTail([a, b, c], home, Some(b.id));
    Unroll(home, s8, es, 0); var s9 := Step(home, s8, Serve(2));
    assert s9 == s8.(flights := s8.flights[2 := Answered(Some(b.id), [c])]);
    Unroll(home, s9, es, 1);
    Unroll(home, Step(home, s9, Arrive(0)), es, 2);
    OverlapArrives(home, a, c, s9);
  }
}
