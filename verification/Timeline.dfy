/** Rows of a message table and the one query shape the message routes use:
    "rows of one thread or conversation, in a time range, ordered by created_at".
    The table is a sequence in no particular order; the query sorts. */
module Timeline {
  import opened Common

  type Id = nat

  /** `home` is the thread or the conversation the row belongs to, `at` its created_at. */
  datatype Row = Row(id: Id, home: Id, at: int, text: string)

  /** WHERE home = ... AND created_at > after AND created_at < before. */
  datatype Range = Range(home: Id, after: Option<int>, before: Option<int>)

  predicate Matches(q: Range, r: Row) {
    && r.home == q.home
    && (q.after.Some? ==> q.after.value < r.at)
    && (q.before.Some? ==> r.at < q.before.value)
  }

  function Where(rows: seq<Row>, q: Range): seq<Row> {
    if rows == [] then []
    else (if Matches(q, rows[0]) then [rows[0]] else []) + Where(rows[1..], q)
  }

  function Insert(r: Row, rows: seq<Row>): seq<Row> {
    if rows == [] || r.at <= rows[0].at then [r] + rows
    else [rows[0]] + Insert(r, rows[1..])
  }

  /** ORDER BY created_at. */
  function OrderByTime(rows: seq<Row>): seq<Row> {
    if rows == [] then [] else Insert(rows[0], OrderByTime(rows[1..]))
  }

  function Query(rows: seq<Row>, q: Range): seq<Row> {
    OrderByTime(Where(rows, q))
  }

  predicate Ascending(rows: seq<Row>) {
    forall i, j :: 0 <= i < j < |rows| ==> rows[i].at <= rows[j].at
  }

  predicate StrictlyAscending(rows: seq<Row>) {
    forall i, j :: 0 <= i < j < |rows| ==> rows[i].at < rows[j].at
  }

  predicate DistinctIds(rows: seq<Row>) {
    forall i, j :: 0 <= i < j < |rows| ==> rows[i].id != rows[j].id
  }

  lemma {:induction false} InsertMembers(r: Row, rows: seq<Row>)
    ensures forall x :: x in Insert(r, rows) <==> x == r || x in rows
  {
    if rows != [] && r.at > rows[0].at {
      InsertMembers(r, rows[1..]);
      assert rows == [rows[0]] + rows[1..];
    }
  }

  lemma {:induction false} InsertOnce(r: Row, rows: seq<Row>)
    ensures multiset(Insert(r, rows)) == multiset(rows) + multiset{r}
  {
    if rows != [] && r.at > rows[0].at {
      InsertOnce(r, rows[1..]);
      assert rows == [rows[0]] + rows[1..];
    }
  }

  lemma PrependKeepsOrder(r: Row, rows: seq<Row>)
    requires Ascending(rows) && forall x :: x in rows ==> r.at <= x.at
    ensures Ascending([r] + rows)
  {
    var all := [r] + rows;
    forall i, j | 0 <= i < j < |all| ensures all[i].at <= all[j].at {
      assert all[j] == rows[j - 1] && rows[j - 1] in rows;
      assert i > 0 ==> all[i] == rows[i - 1];
    }
  }

  lemma {:induction false} InsertKeepsOrder(r: Row, rows: seq<Row>)
    requires Ascending(rows)
    ensures Ascending(Insert(r, rows))
  {
    if rows == [] || r.at <= rows[0].at {
      PrependKeepsOrder(r, rows);
    } else {
      InsertKeepsOrder(r, rows[1..]);
      InsertMembers(r, rows[1..]);
      PrependKeepsOrder(rows[0], Insert(r, rows[1..]));
    }
  }

  /** ORDER BY returns exactly the selected rows, once each, oldest first. */
  lemma {:induction false} OrderByTimeSorts(rows: seq<Row>)
    ensures Ascending(OrderByTime(rows))
    ensures multiset(OrderByTime(rows)) == multiset(rows)
  {
    if rows != [] {
      OrderByTimeSorts(rows[1..]);
      InsertKeepsOrder(rows[0], OrderByTime(rows[1..]));
      InsertOnce(rows[0], OrderByTime(rows[1..]));
      assert rows == [rows[0]] + rows[1..];
    }
  }

  lemma {:induction false} WhereMembers(rows: seq<Row>, q: Range)
    ensures forall r :: r in Where(rows, q) <==> r in rows && Matches(q, r)
  {
    if rows != [] {
      WhereMembers(rows[1..], q);
      assert rows == [rows[0]] + rows[1..];
    }
  }

  /** A query returns the matching rows and nothing else. */
  lemma QueryMembers(rows: seq<Row>, q: Range)
    ensures Ascending(Query(rows, q))
    ensures forall r :: r in Query(rows, q) <==> r in rows && Matches(q, r)
  {
    WhereMembers(rows, q);
    OrderByTimeSorts(Where(rows, q));
    forall r ensures r in Query(rows, q) <==> r in Where(rows, q) {
      assert r in Query(rows, q) <==> r in multiset(Query(rows, q));
    }
  }

  lemma WhereFirst(rows: seq<Row>, q: Range)
    requires Ascending(rows)
    ensures Where(rows, q) != [] ==> rows[0].at <= Where(rows, q)[0].at
  {
    WhereMembers(rows, q);
    var w := Where(rows, q);
    if w != [] {
      assert w[0] in w;
    }
  }

  lemma {:induction false} WhereInsert(r: Row, rows: seq<Row>, q: Range)
    requires Ascending(rows)
    ensures Where(Insert(r, rows), q) == if Matches(q, r) then Insert(r, Where(rows, q)) else Where(rows, q)
  {
    if rows == [] || r.at <= rows[0].at {
      assert ([r] + rows)[1..] == rows;
      WhereFirst(rows, q);
    } else {
      WhereInsert(r, rows[1..], q);
      var whole := [rows[0]] + Insert(r, rows[1..]);
      assert whole[1..] == Insert(r, rows[1..]);
      var rest := Where(rows[1..], q);
      assert [] + rest == rest && [] + Where(Insert(r, rows[1..]), q) == Where(Insert(r, rows[1..]), q);
      assert ([rows[0]] + rest)[1..] == rest;
    }
  }

  /** Filtering and ordering commute, so a narrower range is a slice of the ordered rows. */
  lemma {:induction false} WhereOrder(rows: seq<Row>, q: Range)
    ensures Where(OrderByTime(rows), q) == OrderByTime(Where(rows, q))
  {
    if rows != [] {
      WhereOrder(rows[1..], q);
      OrderByTimeSorts(rows[1..]);
      WhereInsert(rows[0], OrderByTime(rows[1..]), q);
      var w := Where(rows[1..], q);
      assert ([rows[0]] + w)[1..] == w;
      assert [] + w == w;
    }
  }

  /** Filtering ordered rows when the matches are exactly the indices lo..hi. */
  lemma {:induction false} WhereSlice(rows: seq<Row>, q: Range, lo: nat, hi: nat)
    requires lo <= hi <= |rows|
    requires forall i :: 0 <= i < |rows| ==> (Matches(q, rows[i]) <==> lo <= i < hi)
    ensures Where(rows, q) == rows[lo..hi]
  {
    if rows != [] {
      var t := rows[1..];
      if lo > 0 {
        forall i | 0 <= i < |t| ensures Matches(q, t[i]) <==> lo - 1 <= i < hi - 1 { assert t[i] == rows[i + 1]; }
        WhereSlice(t, q, lo - 1, hi - 1);
      } else if hi > 0 {
        assert Matches(q, rows[0]);
        forall i | 0 <= i < |t| ensures Matches(q, t[i]) <==> 0 <= i < hi - 1 { assert t[i] == rows[i + 1]; }
        WhereSlice(t, q, 0, hi - 1);
        assert rows[0..hi] == [rows[0]] + t[0..hi - 1];
      } else {
        assert !Matches(q, rows[0]);
        forall i | 0 <= i < |t| ensures Matches(q, t[i]) <==> 0 <= i < 0 { assert t[i] == rows[i + 1]; }
        WhereSlice(t, q, 0, 0);
      }
    }
  }

  lemma {:induction false} WhereSubRange(rows: seq<Row>, wide: Range, q: Range)
    requires forall r :: Matches(q, r) ==> Matches(wide, r)
    ensures Where(Where(rows, wide), q) == Where(rows, q)
  {
    if rows != [] {
      WhereSubRange(rows[1..], wide, q);
      var w := Where(rows[1..], wide);
      assert ([rows[0]] + w)[1..] == w;
      assert [] + w == w;
    }
  }

  function Whole(home: Id): Range { Range(home, None, None) }

  /** The full history of one thread or conversation, oldest first. */
  function History(table: seq<Row>, home: Id): seq<Row> { Query(table, Whole(home)) }

  /** A range query is a slice of the full history: between the first row past `after`
      and the last row before `before`. */
  lemma QuerySlice(table: seq<Row>, q: Range, lo: nat, hi: nat)
    requires lo <= hi <= |History(table, q.home)|
    requires forall i :: 0 <= i < |History(table, q.home)| ==>
               (Matches(q, History(table, q.home)[i]) <==> lo <= i < hi)
    ensures Query(table, q) == History(table, q.home)[lo..hi]
  {
    WhereSubRange(table, Whole(q.home), q);
    WhereOrder(Where(table, Whole(q.home)), q);
    WhereSlice(History(table, q.home), q, lo, hi);
  }

  lemma {:induction false} WhereAppend(rows: seq<Row>, r: Row, q: Range)
    ensures Where(rows + [r], q) == Where(rows, q) + if Matches(q, r) then [r] else []
  {
    if rows == [] {
      assert rows + [r] == [r];
    } else {
      WhereAppend(rows[1..], r, q);
      assert (rows + [r])[1..] == rows[1..] + [r];
    }
  }

  lemma {:induction false} InsertBelow(r: Row, rows: seq<Row>, last: Row)
    requires r.at < last.at
    ensures Insert(r, rows + [last]) == Insert(r, rows) + [last]
  {
    if rows == [] {
      assert rows + [last] == [last];
    } else if r.at <= rows[0].at {
      assert [r] + (rows + [last]) == [r] + rows + [last];
    } else {
      assert (rows + [last])[1..] == rows[1..] + [last];
      InsertBelow(r, rows[1..], last);
    }
  }

  lemma {:induction false} OrderAppend(rows: seq<Row>, last: Row)
    requires forall i :: 0 <= i < |rows| ==> rows[i].at < last.at
    ensures OrderByTime(rows + [last]) == OrderByTime(rows) + [last]
  {
    if rows == [] {
      assert rows + [last] == [last];
    } else {
      assert (rows + [last])[1..] == rows[1..] + [last];
      OrderAppend(rows[1..], last);
      InsertBelow(rows[0], OrderByTime(rows[1..]), last);
    }
  }

  /** Newest of its home so far: what "strictly increasing message times" asks of a new row. */
  predicate Newest(table: seq<Row>, r: Row) {
    forall i :: 0 <= i < |table| ==> table[i].id != r.id && (table[i].home == r.home ==> table[i].at < r.at)
  }

  /** Inserting a newest row appends it to its own history and leaves every other history alone. */
  lemma HistoryAppend(table: seq<Row>, r: Row, home: Id)
    requires Newest(table, r)
    ensures History(table + [r], home) == History(table, home) + if r.home == home then [r] else []
  {
    WhereAppend(table, r, Whole(home));
    if r.home == home {
      WhereMembers(table, Whole(home));
      var w := Where(table, Whole(home));
      forall i | 0 <= i < |w| ensures w[i].at < r.at { assert w[i] in w; }
      OrderAppend(w, r);
    } else {
      assert Where(table, Whole(home)) + [] == Where(table, Whole(home));
    }
  }
}
