/** Walking a conversation's history backwards by cursor while newer messages keep arriving. */
module Paging {
  import opened Common
  import opened Timeline

  const PAGE_SIZE := 50

  // ---------- the server ----------

  function Reverse<T>(s: seq<T>): seq<T> {
    if s == [] then [] else Reverse(s[1..]) + [s[0]]
  }

  lemma {:induction false} ReverseAt<T>(s: seq<T>)
    ensures |Reverse(s)| == |s|
    ensures forall k :: 0 <= k < |s| ==> Reverse(s)[k] == s[|s| - 1 - k]
  {
    if s != [] { ReverseAt(s[1..]); }
  }

  datatype Page = Page(messages: seq<Row>, next: Option<int>)

  /** What one member may see: "clear history" hides everything up to that instant. */
  function Visible(table: seq<Row>, conv: Id, cleared: Option<int>): seq<Row> {
    Query(table, Range(conv, cleared, None))
  }

  function Limit(rows: seq<Row>, n: nat): seq<Row> { if |rows| <= n then rows else rows[..n] }

  /** get_messages: newest first, one row more than a page to learn whether there are older ones. */
  function GetMessages(table: seq<Row>, conv: Id, cleared: Option<int>, cursor: Option<int>): Page {
    var rows := Limit(Reverse(Query(table, Range(conv, cleared, cursor))), PAGE_SIZE + 1);
    var page := Limit(rows, PAGE_SIZE);
    Page(Reverse(page), if |rows| > PAGE_SIZE && page != [] then Some(page[|page| - 1].at) else None)
  }

  /** Where a page starts that ends before visible row p. */
  function From(p: nat): nat { if p <= PAGE_SIZE then 0 else p - PAGE_SIZE }

  /** The cursor a client should hold whose oldest row is visible row lo. */
  function CursorAt(visible: seq<Row>, lo: nat): Option<int>
    requires lo <= |visible|
  {
    if 0 < lo < |visible| then Some(visible[lo].at) else None
  }

  /** The page that ends before visible row p. */
  function PageBefore(v: seq<Row>, p: nat): Page
    requires p <= |v|
  {
    Page(v[From(p)..p], CursorAt(v, From(p)))
  }

  /** Bounding the query by the time of visible row p cuts the visible history there. */
  lemma QueryBefore(table: seq<Row>, conv: Id, cleared: Option<int>, p: nat)
    requires var v := Visible(table, conv, cleared); StrictlyAscending(v) && p < |v|
    ensures var v := Visible(table, conv, cleared); Query(table, Range(conv, cleared, Some(v[p].at))) == v[..p]
  {
    var v := Visible(table, conv, cleared);
    var wide, q := Range(conv, cleared, None), Range(conv, cleared, Some(v[p].at));
    WhereSubRange(table, wide, q);
    WhereOrder(Where(table, wide), q);
    QueryMembers(table, wide);
    forall i | 0 <= i < |v| ensures Matches(q, v[i]) <==> 0 <= i < p {
      assert v[i] in v;
    }
    WhereSlice(v, q, 0, p);
    assert v[0..p] == v[..p];
  }

  lemma NewestOf(rows: seq<Row>)
    ensures var n := |rows|;
            var page := Limit(Limit(Reverse(rows), PAGE_SIZE + 1), PAGE_SIZE);
            && Reverse(page) == rows[From(n)..]
            && |page| == n - From(n)
            && (n > 0 ==> page[|page| - 1] == rows[From(n)])
  {
    ReverseAt(rows);
    var page := Limit(Limit(Reverse(rows), PAGE_SIZE + 1), PAGE_SIZE);
    ReverseAt(page);
    assert forall k :: 0 <= k < |page| ==> Reverse(page)[k] == rows[From(|rows|) + k];
  }

  /** A page is the slice of the visible history just before its cursor, oldest first, and its
      next cursor is its own first row's time exactly when older rows remain. */
  lemma PageIsASlice(table: seq<Row>, conv: Id, cleared: Option<int>, cursor: Option<int>, p: nat)
    requires var v := Visible(table, conv, cleared);
             StrictlyAscending(v) && p <= |v| && (if cursor.None? then p == |v| else p < |v| && cursor == Some(v[p].at))
    ensures var v := Visible(table, conv, cleared);
            GetMessages(table, conv, cleared, cursor) == PageBefore(v, p)
  {
    var v := Visible(table, conv, cleared);
    if cursor.Some? { QueryBefore(table, conv, cleared, p); }
    var rows := Query(table, Range(conv, cleared, cursor));
    assert rows == v[..p] by { assert v[..|v|] == v; }
    NewestOf(rows);
    ReverseAt(rows);
    assert v[..p][From(p)..] == v[From(p)..p];
  }

  // ---------- the client's store ----------

  datatype Window = Window(list: seq<Row>, cursor: Option<int>)

  /** What every answer of the server looks like: a next cursor is its first row's time. */
  predicate Answerable(page: Page) { page.next.Some? ==> page.messages != [] && page.next.value == page.messages[0].at }

  lemma AnswersAreAnswerable(table: seq<Row>, conv: Id, cleared: Option<int>, cursor: Option<int>)
    ensures Answerable(GetMessages(table, conv, cleared, cursor))
  {
    var rows := Query(table, Range(conv, cleared, cursor));
    NewestOf(rows);
    ReverseAt(rows);
  }

  function Loaded(page: Page): Window { Window(page.messages, page.next) }

  function Prepended(w: Window, page: Page): Window { Window(page.messages + w.list, page.next) }

  predicate Holds(list: seq<Row>, id: Id) { exists k :: 0 <= k < |list| && list[k].id == id }

  /** Both the message.new reducer and appendSent. */
  function Appended(w: Window, r: Row): Window {
    if Holds(w.list, r.id) then w else w.(list := w.list + [r])
  }

  class ChatStore {
    var messagesByConv: map<Id, seq<Row>>
    var cursorByConv: map<Id, Option<int>>

    function Of(conv: Id): Window
      reads this
    {
      Window(if conv in messagesByConv then messagesByConv[conv] else [],
             if conv in cursorByConv then cursorByConv[conv] else None)
    }

    /** A cursor always points just before the first row shown. */
    predicate Valid()
      reads this
    {
      forall c: Id :: c in cursorByConv && cursorByConv[c].Some? ==>
        c in messagesByConv && messagesByConv[c] != [] && cursorByConv[c].value == messagesByConv[c][0].at
    }

    constructor ()
      ensures Valid() && messagesByConv == map[] && cursorByConv == map[]
    {
      messagesByConv, cursorByConv := map[], map[];
    }

    /** loadMessages, when its page arrives. */
    method LoadMessages(conv: Id, page: Page)
      requires Valid() && Answerable(page)
      modifies this
      ensures Valid()
      ensures Of(conv) == Loaded(page)
      ensures forall c: Id :: c != conv ==> Of(c) == old(Of(c))
    {
      messagesByConv := messagesByConv[conv := page.messages];
      cursorByConv := cursorByConv[conv := page.next];
    }

    /** loadOlder, when it is called: it asks for what precedes the first row shown, and asks for
        nothing exactly when, in any history the list is a window on, it already begins it. */
    method RequestOlder(conv: Id) returns (cursor: Option<int>)
      requires Valid()
      ensures cursor.Some? ==> Of(conv).list != [] && cursor.value == Of(conv).list[0].at
      ensures forall visible, lo: nat :: Shows(Of(conv), visible, lo) ==>
                (cursor.None? <==> Of(conv).list <= visible && lo == 0)
    {
      cursor := if conv in cursorByConv then cursorByConv[conv] else None;
    }

    /** loadOlder, when its page arrives. */
    method ArriveOlder(conv: Id, page: Page)
      requires Valid() && Answerable(page)
      modifies this
      ensures Valid()
      ensures Of(conv) == Prepended(old(Of(conv)), page)
      ensures forall c: Id :: c != conv ==> Of(c) == old(Of(c))
    {
      var existing := if conv in messagesByConv then messagesByConv[conv] else [];
      messagesByConv := messagesByConv[conv := page.messages + existing];
      cursorByConv := cursorByConv[conv := page.next];
    }

    method Append(r: Row)
      requires Valid()
      modifies this
      ensures Valid()
      ensures Of(r.home) == Appended(old(Of(r.home)), r)
      ensures forall c: Id :: c != r.home ==> Of(c) == old(Of(c))
    {
      var existing := if r.home in messagesByConv then messagesByConv[r.home] else [];
      if !Holds(existing, r.id) {
        messagesByConv := messagesByConv[r.home := existing + [r]];
      }
    }
  }

  // ---------- a window on the history ----------

  /** The list is the visible history from row lo on, as far as it has been delivered, and the
      cursor names its first row exactly when there are older ones. */
  predicate Shows(w: Window, visible: seq<Row>, lo: nat) {
    && lo + |w.list| <= |visible|
    && w.list == visible[lo..lo + |w.list|]
    && w.cursor == CursorAt(visible, lo)
    && (w.list == [] ==> lo == 0)
  }

  predicate WellTimed(visible: seq<Row>) { StrictlyAscending(visible) && DistinctIds(visible) }

  lemma HoldsIff(w: Window, visible: seq<Row>, lo: nat, i: nat)
    requires WellTimed(visible) && Shows(w, visible, lo) && i < |visible|
    ensures Holds(w.list, visible[i].id) <==> lo <= i < lo + |w.list|
  {
    if lo <= i < lo + |w.list| { assert w.list[i - lo] == visible[i]; }
  }

  /** A delivered row keeps the list a window exactly when it is the next one or a repeat. */
  lemma AppendKeepsWindowIff(w: Window, visible: seq<Row>, lo: nat, i: nat)
    requires WellTimed(visible) && Shows(w, visible, lo) && i < |visible| && w.list != []
    ensures (exists k: nat :: Shows(Appended(w, visible[i]), visible, k)) <==> lo <= i <= lo + |w.list|
  {
    var n := |w.list|;
    HoldsIff(w, visible, lo, i);
    var x := Appended(w, visible[i]);
    if lo <= i <= lo + n {
      assert Shows(x, visible, lo);
    }
    if k: nat :| Shows(x, visible, k) {
      assert x.list[0] == w.list[0] == visible[lo] == visible[k];
      assert visible[lo].at == visible[k].at;
      assert k == lo;
      if !Holds(w.list, visible[i].id) {
        assert x.list[n] == visible[i] == visible[lo + n];
      }
    }
  }

  /** A page asked for with the cursor of visible row p keeps the list a window exactly when p is
      still its first row: the arrival does not check for rows already shown. */
  lemma PrependKeepsWindowIff(table: seq<Row>, conv: Id, cleared: Option<int>, w: Window, lo: nat, p: nat)
    requires var v := Visible(table, conv, cleared); WellTimed(v) && Shows(w, v, lo) && w.list != [] && 0 < p < |v|
    ensures var v := Visible(table, conv, cleared);
            var page := GetMessages(table, conv, cleared, Some(v[p].at));
            (exists k: nat :: Shows(Prepended(w, page), v, k)) <==> p == lo
  {
    var v := Visible(table, conv, cleared);
    PageIsASlice(table, conv, cleared, Some(v[p].at), p);
    if p == lo {
      SlicePrepended(w, v, p);
    } else {
      SliceMisplaced(w, v, lo, p);
    }
  }

  lemma SlicePrepended(w: Window, v: seq<Row>, p: nat)
    requires Shows(w, v, p) && 0 < p < |v| && w.list != []
    ensures Shows(Prepended(w, PageBefore(v, p)), v, From(p))
  {
    assert v[From(p)..p] + v[p..p + |w.list|] == v[From(p)..p + |w.list|];
  }

  lemma SliceMisplaced(w: Window, v: seq<Row>, lo: nat, p: nat)
    requires WellTimed(v) && Shows(w, v, lo) && w.list != [] && 0 < p < |v| && p != lo
    ensures forall k: nat :: !Shows(Prepended(w, PageBefore(v, p)), v, k)
  {
    var x, from := Prepended(w, PageBefore(v, p)), From(p);
    assert x.list[0] == v[from] && x.list[p - from] == w.list[0] == v[lo];
    assert x.list[p - from].at != v[p].at;
    forall k: nat | k < |v| ensures !Shows(x, v, k) {
      assert v[k] == v[from] ==> k == from;
    }
  }

  // ---------- whole runs ----------

  /** A newest page on its way, and how many visible rows there were when the server answered. */
  datatype Answer = Answer(page: Page, upTo: nat)

  /** `asked` is the cursor of the loadOlder call in flight; `answers` are those to loadMessages
      calls, from opening the conversation and from reconnecting; `handled` counts the visible
      rows the client has been given, one way or another. */
  datatype State = State(table: seq<Row>, window: Window, asked: Option<int>, answers: map<nat, Answer>, handled: nat)

  datatype Event =
    | Post(r: Row)            // anyone, in any conversation
    | Deliver(i: nat)         // visible row i reaches the client: socket frame or own send's answer
    | Ask                     // loadOlder called
    | LandOlder               // its page, as the server answers, arrives
    | Serve(n: nat)           // a loadMessages call is answered
    | LandNewest(n: nat)      // ... and replaces the list, once decrypted

  function Max(a: nat, b: nat): nat { if a < b then b else a }

  function Step(s: State, conv: Id, cleared: Option<int>, e: Event): State {
    var v := Visible(s.table, conv, cleared);
    match e
    case Post(r) => s.(table := s.table + [r])
    case Deliver(i) =>
      if i < |v| then s.(window := Appended(s.window, v[i]), handled := Max(s.handled, i + 1)) else s
    case Ask => if s.window.cursor.Some? then s.(asked := s.window.cursor) else s
    case LandOlder =>
      if s.asked.None? then s
      else s.(window := Prepended(s.window, GetMessages(s.table, conv, cleared, s.asked)), asked := None)
    case Serve(n) => s.(answers := s.answers[n := Answer(GetMessages(s.table, conv, cleared, None), |v|)])
    case LandNewest(n) =>
      if n !in s.answers then s
      else s.(window := Loaded(s.answers[n].page), answers := s.answers - {n},
              handled := Max(s.handled, s.answers[n].upTo))
  }

  /** New rows are the newest, the view asks for one older page at a time, and calls are numbered. */
  predicate Possible(s: State, e: Event) {
    match e
    case Post(r) => Newest(s.table, r)
    case Ask => s.asked.None?
    case Serve(n) => n !in s.answers
    case _ => true
  }

  /** What the client could test when something arrives: a delivered row is the next one or already
      listed; an older page was asked for with the present cursor; no row was given to the
      client since the newest page was answered. */
  predicate Fits(s: State, conv: Id, cleared: Option<int>, e: Event) {
    var v := Visible(s.table, conv, cleared);
    match e
    case Deliver(i) => i < |v| ==> i == s.handled || Holds(s.window.list, v[i].id)
    case LandOlder => s.asked.Some? ==> s.asked == s.window.cursor
    case LandNewest(n) => n in s.answers ==> s.handled <= s.answers[n].upTo
    case _ => true
  }

  function Run(s: State, conv: Id, cleared: Option<int>, es: seq<Event>): State
    decreases |es|
  {
    if es == [] then s else Run(Step(s, conv, cleared, es[0]), conv, cleared, es[1..])
  }

  predicate FittingRun(s: State, conv: Id, cleared: Option<int>, es: seq<Event>)
    decreases |es|
  {
    es == [] || (Possible(s, es[0]) && Fits(s, conv, cleared, es[0]) &&
        FittingRun(Step(s, conv, cleared, es[0]), conv, cleared, es[1..]))
  }

  predicate GoodAnswer(v: seq<Row>, a: Answer) {
    a.upTo <= |v| && a.page == PageBefore(v, a.upTo)
  }

  /** A cursor once held: the time of a handled row other than the first. */
  predicate GoodCursor(v: seq<Row>, cursor: Option<int>, handled: nat) {
    cursor.Some? ==> exists p :: 0 < p < handled && p < |v| && cursor == Some(v[p].at)
  }

  /** The list shows every row the client was given, from visible row lo on. */
  predicate Inv(s: State, conv: Id, cleared: Option<int>, lo: nat) {
    var v := Visible(s.table, conv, cleared);
    && WellTimed(v)
    && Shows(s.window, v, lo)
    && s.handled == lo + |s.window.list|
    && GoodCursor(v, s.asked, s.handled)
    && forall n :: n in s.answers ==> GoodAnswer(v, s.answers[n])
  }

  ghost predicate AWindow(s: State, conv: Id, cleared: Option<int>) { exists k: nat :: Inv(s, conv, cleared, k) }

  lemma VisibleAppend(table: seq<Row>, r: Row, conv: Id, cleared: Option<int>)
    requires Newest(table, r)
    ensures var q := Range(conv, cleared, None);
            Visible(table + [r], conv, cleared) == Visible(table, conv, cleared) + (if Matches(q, r) then [r] else [])
  {
    var q := Range(conv, cleared, None);
    WhereAppend(table, r, q);
    WhereMembers(table, q);
    var w := Where(table, q);
    if Matches(q, r) {
      forall i | 0 <= i < |w| ensures w[i].at < r.at { assert w[i] in w; }
      OrderAppend(w, r);
    } else {
      assert w + [] == w;
    }
  }

  /** What is known of a history stays true of a longer one. */
  lemma Longer(v: seq<Row>, more: seq<Row>, w: Window, lo: nat, a: Answer, cursor: Option<int>, handled: nat)
    requires Shows(w, v, lo) && GoodCursor(v, cursor, handled)
    ensures Shows(w, v + more, lo) && GoodCursor(v + more, cursor, handled)
    ensures GoodAnswer(v, a) ==> GoodAnswer(v + more, a)
  {
    if cursor.Some? {
      var p :| 0 < p < handled && p < |v| && cursor == Some(v[p].at);
      assert (v + more)[p] == v[p];
    }
  }

  lemma PostKeeps(s: State, conv: Id, cleared: Option<int>, r: Row, lo: nat)
    requires Inv(s, conv, cleared, lo) && Newest(s.table, r)
    ensures Inv(Step(s, conv, cleared, Post(r)), conv, cleared, lo)
  {
    var q := Range(conv, cleared, None);
    var v := Visible(s.table, conv, cleared);
    var more := if Matches(q, r) then [r] else [];
    VisibleAppend(s.table, r, conv, cleared);
    QueryMembers(s.table, q);
    forall i | 0 <= i < |v| && Matches(q, r) ensures v[i].at < r.at && v[i].id != r.id { assert v[i] in v; }
    assert WellTimed(v + more);
    Longer(v, more, s.window, lo, Answer(Page([], None), 0), s.asked, s.handled);
    forall n | n in s.answers ensures GoodAnswer(v + more, s.answers[n]) {
      Longer(v, more, s.window, lo, s.answers[n], s.asked, s.handled);
    }
  }

  lemma ServeKeeps(s: State, conv: Id, cleared: Option<int>, n: nat, lo: nat)
    requires Inv(s, conv, cleared, lo)
    ensures Inv(Step(s, conv, cleared, Serve(n)), conv, cleared, lo)
  {
    PageIsASlice(s.table, conv, cleared, None, |Visible(s.table, conv, cleared)|);
  }

  lemma AskKeeps(s: State, conv: Id, cleared: Option<int>, lo: nat)
    requires Inv(s, conv, cleared, lo)
    ensures Inv(Step(s, conv, cleared, Ask), conv, cleared, lo)
  {
    var v := Visible(s.table, conv, cleared);
    if s.window.cursor.Some? { assert 0 < lo < s.handled && s.window.cursor == Some(v[lo].at); }
  }

  lemma ShowsOnce(w: Window, visible: seq<Row>, j: nat, k: nat)
    requires StrictlyAscending(visible) && Shows(w, visible, j) && Shows(w, visible, k)
    ensures j == k
  {
    if w.list != [] { assert w.list[0] == visible[j] == visible[k]; }
  }

  lemma AppendedShows(w: Window, visible: seq<Row>, lo: nat, i: nat)
    requires WellTimed(visible) && Shows(w, visible, lo) && lo <= i <= lo + |w.list| && i < |visible|
    ensures Shows(Appended(w, visible[i]), visible, lo)
    ensures |Appended(w, visible[i]).list| == if i == lo + |w.list| then |w.list| + 1 else |w.list|
  {
    HoldsIff(w, visible, lo, i);
    assert i == lo + |w.list| ==> visible[lo..i] + [visible[i]] == visible[lo..i + 1];
  }

  lemma AppendToNothing(w: Window, visible: seq<Row>, i: nat)
    requires WellTimed(visible) && Shows(w, visible, 0) && w.list == [] && 0 < i < |visible|
    ensures forall k: nat :: !Shows(Appended(w, visible[i]), visible, k)
  {
    var x := Appended(w, visible[i]);
    forall k: nat ensures !Shows(x, visible, k) {
      assert x.list == [visible[i]] && x.cursor.None?;
    }
  }

  /** A larger `handled` keeps a cursor good. */
  lemma GoodCursorGrows(v: seq<Row>, cursor: Option<int>, a: nat, b: nat)
    requires GoodCursor(v, cursor, a) && a <= b
    ensures GoodCursor(v, cursor, b)
  {}

  lemma DeliverKeepsIff(s: State, conv: Id, cleared: Option<int>, i: nat, lo: nat)
    requires Inv(s, conv, cleared, lo)
    ensures Fits(s, conv, cleared, Deliver(i)) ==> Inv(Step(s, conv, cleared, Deliver(i)), conv, cleared, lo)
    ensures AWindow(Step(s, conv, cleared, Deliver(i)), conv, cleared) ==> Fits(s, conv, cleared, Deliver(i))
  {
    var v, t := Visible(s.table, conv, cleared), Step(s, conv, cleared, Deliver(i));
    if i < |v| {
      HoldsIff(s.window, v, lo, i);
      if Fits(s, conv, cleared, Deliver(i)) {
        AppendedShows(s.window, v, lo, i);
        GoodCursorGrows(v, s.asked, s.handled, t.handled);
      } else if s.window.list == [] {
        AppendToNothing(s.window, v, i);
      } else {
        AppendKeepsWindowIff(s.window, v, lo, i);
      }
    }
  }

  /** An older page that was asked for with the present cursor moves the window's start back by a
      page, or to the very beginning; any other breaks the list. */
  lemma LandOlderKeepsIff(s: State, conv: Id, cleared: Option<int>, lo: nat)
    requires Inv(s, conv, cleared, lo) && s.asked.Some?
    ensures var t := Step(s, conv, cleared, LandOlder);
            && (Fits(s, conv, cleared, LandOlder) ==> 0 < lo && Inv(t, conv, cleared, From(lo)))
            && (AWindow(t, conv, cleared) ==> Fits(s, conv, cleared, LandOlder))
  {
    var v := Visible(s.table, conv, cleared);
    var p: nat :| 0 < p < s.handled && p < |v| && s.asked == Some(v[p].at);
    PageIsASlice(s.table, conv, cleared, s.asked, p);
    if s.asked == s.window.cursor {
      assert v[p].at == v[lo].at;
      assert p == lo;
      SlicePrepended(s.window, v, p);
    } else {
      SliceMisplaced(s.window, v, lo, p);
    }
  }

  /** A newest page keeps every row the client was given exactly when none was given since it was
      answered; otherwise the rows in between are lost from the list. */
  lemma LandNewestKeepsIff(s: State, conv: Id, cleared: Option<int>, n: nat, lo: nat)
    requires Inv(s, conv, cleared, lo) && n in s.answers
    ensures var t := Step(s, conv, cleared, LandNewest(n));
            && (Fits(s, conv, cleared, LandNewest(n)) ==> Inv(t, conv, cleared, From(s.answers[n].upTo)))
            && (AWindow(t, conv, cleared) ==> Fits(s, conv, cleared, LandNewest(n)))
  {
    var v, t, a := Visible(s.table, conv, cleared), Step(s, conv, cleared, LandNewest(n)), s.answers[n];
    assert GoodAnswer(v, a);
    assert Shows(t.window, v, From(a.upTo));
    GoodCursorGrows(v, s.asked, s.handled, t.handled);
    if k: nat :| Inv(t, conv, cleared, k) {
      ShowsOnce(t.window, v, k, From(a.upTo));
    }
  }

  /** Opening a conversation gives such a window: its newest page. */
  lemma FirstLoad(table: seq<Row>, conv: Id, cleared: Option<int>)
    requires WellTimed(Visible(table, conv, cleared))
    ensures var n := |Visible(table, conv, cleared)|;
            Inv(State(table, Loaded(GetMessages(table, conv, cleared, None)), None, map[], n), conv, cleared, From(n))
  {
    PageIsASlice(table, conv, cleared, None, |Visible(table, conv, cleared)|);
  }

  /** Where the window starts after a step. */
  function Start(s: State, lo: nat, e: Event): nat {
    match e
    case LandOlder => if s.asked.Some? then From(lo) else lo
    case LandNewest(n) => if n in s.answers then From(s.answers[n].upTo) else lo
    case _ => lo
  }

  /** One step, exactly: the list keeps showing every row the client was given, without a gap or a
      repeat, if and only if what arrived fits. */
  lemma StepKeepsIff(s: State, conv: Id, cleared: Option<int>, e: Event, lo: nat)
    requires Inv(s, conv, cleared, lo) && Possible(s, e)
    ensures Fits(s, conv, cleared, e) ==> Inv(Step(s, conv, cleared, e), conv, cleared, Start(s, lo, e))
    ensures AWindow(Step(s, conv, cleared, e), conv, cleared) <==> Fits(s, conv, cleared, e)
  {
    match e
    case Post(r) => PostKeeps(s, conv, cleared, r, lo);
    case Deliver(i) => DeliverKeepsIff(s, conv, cleared, i, lo);
    case Ask => AskKeeps(s, conv, cleared, lo);
    case LandOlder => if s.asked.Some? { LandOlderKeepsIff(s, conv, cleared, lo); }
    case Serve(n) => ServeKeeps(s, conv, cleared, n, lo);
    case LandNewest(n) => if n in s.answers { LandNewestKeepsIff(s, conv, cleared, n, lo); }
  }

  /** In every run whose arrivals fit, reloads and older pages overlapping at will, the list is one
      gap-free, duplicate-free stretch of the visible history in time order, up to the last row the
      client was given; and when the cursor is null it reaches back to the first visible message. */
  lemma {:induction false} AlwaysAWindow(s: State, conv: Id, cleared: Option<int>, es: seq<Event>, lo: nat)
    requires Inv(s, conv, cleared, lo) && FittingRun(s, conv, cleared, es)
    ensures AWindow(Run(s, conv, cleared, es), conv, cleared)
    ensures var t := Run(s, conv, cleared, es);
            t.window.cursor.None? ==> t.window.list <= Visible(t.table, conv, cleared) && |t.window.list| == t.handled
    decreases |es|
  {
    if es == [] {
      assert Inv(s, conv, cleared, lo);
    } else {
      var t, next := Step(s, conv, cleared, es[0]), Start(s, lo, es[0]);
      StepKeepsIff(s, conv, cleared, es[0], lo);
      assert Run(s, conv, cleared, es) == Run(t, conv, cleared, es[1..]);
      AlwaysAWindow(t, conv, cleared, es[1..], next);
    }
  }

  // ---------- after a misfit ----------

  /** What holds however arrivals fall out: cursors and answers are true of the history. */
  predicate Sane(s: State, conv: Id, cleared: Option<int>) {
    var v := Visible(s.table, conv, cleared);
    && WellTimed(v)
    && GoodCursor(v, s.window.cursor, s.handled)
    && GoodCursor(v, s.asked, s.handled)
    && forall n :: n in s.answers ==> GoodAnswer(v, s.answers[n])
  }

  lemma InvIsSane(s: State, conv: Id, cleared: Option<int>, lo: nat)
    requires Inv(s, conv, cleared, lo)
    ensures Sane(s, conv, cleared)
  {
    AskKeeps(s, conv, cleared, lo);
  }

  lemma PostKeepsSane(s: State, conv: Id, cleared: Option<int>, r: Row)
    requires Sane(s, conv, cleared) && Newest(s.table, r)
    ensures Sane(Step(s, conv, cleared, Post(r)), conv, cleared)
  {
    var q := Range(conv, cleared, None);
    var v := Visible(s.table, conv, cleared);
    var more := if Matches(q, r) then [r] else [];
    VisibleAppend(s.table, r, conv, cleared);
    QueryMembers(s.table, q);
    forall i | 0 <= i < |v| && Matches(q, r) ensures v[i].at < r.at && v[i].id != r.id { assert v[i] in v; }
    assert WellTimed(v + more);
    var nothing := Window([], None);
    Longer(v, more, nothing, 0, Answer(Page([], None), 0), s.asked, s.handled);
    Longer(v, more, nothing, 0, Answer(Page([], None), 0), s.window.cursor, s.handled);
    forall n | n in s.answers ensures GoodAnswer(v + more, s.answers[n]) {
      Longer(v, more, nothing, 0, s.answers[n], s.asked, s.handled);
    }
  }

  lemma ArrivalKeepsSane(s: State, conv: Id, cleared: Option<int>, e: Event)
    requires Sane(s, conv, cleared) && !e.Post?
    ensures Sane(Step(s, conv, cleared, e), conv, cleared)
  {
    var v, t := Visible(s.table, conv, cleared), Step(s, conv, cleared, e);
    assert t.table == s.table && s.handled <= t.handled;
    GoodCursorGrows(v, s.asked, s.handled, t.handled);
    GoodCursorGrows(v, s.window.cursor, s.handled, t.handled);
    if e.Serve? {
      PageIsASlice(s.table, conv, cleared, None, |v|);
    } else if e.LandOlder? && s.asked.Some? {
      OlderCursor(s.table, conv, cleared, s.asked, s.handled);
    } else if e.LandNewest? && e.n in s.answers {
      assert GoodAnswer(v, s.answers[e.n]);
    }
  }

  lemma OlderCursor(table: seq<Row>, conv: Id, cleared: Option<int>, asked: Option<int>, handled: nat)
    requires var v := Visible(table, conv, cleared); WellTimed(v) && asked.Some? && GoodCursor(v, asked, handled)
    ensures GoodCursor(Visible(table, conv, cleared), GetMessages(table, conv, cleared, asked).next, handled)
  {
    var v := Visible(table, conv, cleared);
    var p: nat :| 0 < p < handled && p < |v| && asked == Some(v[p].at);
    PageIsASlice(table, conv, cleared, asked, p);
  }

  predicate PossibleRun(s: State, conv: Id, cleared: Option<int>, es: seq<Event>)
    decreases |es|
  {
    es == [] || (Possible(s, es[0]) && PossibleRun(Step(s, conv, cleared, es[0]), conv, cleared, es[1..]))
  }

  lemma {:induction false} RunKeepsSane(s: State, conv: Id, cleared: Option<int>, es: seq<Event>)
    requires Sane(s, conv, cleared) && PossibleRun(s, conv, cleared, es)
    ensures Sane(Run(s, conv, cleared, es), conv, cleared)
    decreases |es|
  {
    if es != [] {
      if es[0].Post? { PostKeepsSane(s, conv, cleared, es[0].r); } else { ArrivalKeepsSane(s, conv, cleared, es[0]); }
      RunKeepsSane(Step(s, conv, cleared, es[0]), conv, cleared, es[1..]);
    }
  }

  /** Whatever went wrong since the conversation was opened, in any run at all, a newest page that
      fits mends the list. */
  lemma ReloadMends(s: State, conv: Id, cleared: Option<int>, lo: nat, es: seq<Event>, n: nat)
    requires Inv(s, conv, cleared, lo) && PossibleRun(s, conv, cleared, es)
    requires var t := Run(s, conv, cleared, es); n in t.answers && Fits(t, conv, cleared, LandNewest(n))
    ensures AWindow(Step(Run(s, conv, cleared, es), conv, cleared, LandNewest(n)), conv, cleared)
  {
    InvIsSane(s, conv, cleared, lo);
    RunKeepsSane(s, conv, cleared, es);
    var t := Run(s, conv, cleared, es);
    Mended(t, conv, cleared, n);
  }

  lemma Mended(t: State, conv: Id, cleared: Option<int>, n: nat)
    requires Sane(t, conv, cleared) && n in t.answers && Fits(t, conv, cleared, LandNewest(n))
    ensures AWindow(Step(t, conv, cleared, LandNewest(n)), conv, cleared)
  {
    ArrivalKeepsSane(t, conv, cleared, LandNewest(n));
    assert GoodAnswer(Visible(t.table, conv, cleared), t.answers[n]);
    assert Inv(Step(t, conv, cleared, LandNewest(n)), conv, cleared, From(t.answers[n].upTo));
  }

  // ---------- the walk back ----------

  /** Older pages that arrived in a run. */
  function Landings(s: State, conv: Id, cleared: Option<int>, es: seq<Event>): nat
    decreases |es|
  {
    if es == [] then 0
    else (if es[0].LandOlder? && s.asked.Some?
        then 1 else 0) + Landings(Step(s, conv, cleared, es[0]), conv, cleared, es[1..])
  }

  /** Where a window that started at row lo starts after n more pages. */
  function Back(lo: nat, n: nat): nat { if lo <= PAGE_SIZE * n then 0 else lo - PAGE_SIZE * n }

  lemma {:induction false} WalkGoesBack(s: State, conv: Id, cleared: Option<int>, es: seq<Event>, lo: nat)
    requires Inv(s, conv, cleared, lo) && FittingRun(s, conv, cleared, es)
    requires forall k :: 0 <= k < |es| ==> !es[k].LandNewest?
    ensures var n := Landings(s, conv, cleared, es);
            Inv(Run(s, conv, cleared, es), conv, cleared, Back(lo, n)) && (n > 0 ==> PAGE_SIZE * (n - 1) < lo)
    decreases |es|
  {
    if es != [] {
      var e, t, next := es[0], Step(s, conv, cleared, es[0]), Start(s, lo, es[0]);
      StepKeepsIff(s, conv, cleared, e, lo);
      WalkGoesBack(t, conv, cleared, es[1..], next);
      var m := Landings(t, conv, cleared, es[1..]);
      assert Run(s, conv, cleared, es) == Run(t, conv, cleared, es[1..]);
      if e.LandOlder? && s.asked.Some? {
        LandOlderKeepsIff(s, conv, cleared, lo);
        assert Landings(s, conv, cleared, es) == m + 1 && next == From(lo) && lo > 0;
        assert Back(From(lo), m) == Back(lo, m + 1);
      } else {
        assert Landings(s, conv, cleared, es) == m && next == lo;
      }
    }
  }

  /** The walk ends: from a window that starts at row lo, exactly the first ceil(lo / 50) older
      pages arrive, and the last of them makes the list the whole visible history as far as it was
      delivered, whatever is posted and delivered between them. */
  lemma WalkReachesTheBeginning(s: State, conv: Id, cleared: Option<int>, es: seq<Event>, lo: nat)
    requires Inv(s, conv, cleared, lo) && FittingRun(s, conv, cleared, es)
    requires forall k :: 0 <= k < |es| ==> !es[k].LandNewest?
    ensures var t, n := Run(s, conv, cleared, es), Landings(s, conv, cleared, es);
            && (t.window.cursor.None? <==> lo <= PAGE_SIZE * n)
            && (n > 0 ==> PAGE_SIZE * (n - 1) < lo)
            && (lo <= PAGE_SIZE * n ==> t.window.list <= Visible(t.table, conv, cleared))
  {
    WalkGoesBack(s, conv, cleared, es, lo);
  }
}
