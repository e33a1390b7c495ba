/** Which rows the history routes return, in the rows' own columns. */
module Histories {
  import opened Common
  import opened Timeline
  import ThreadLog
  import Paging

  /** A member sees exactly the conversation's messages newer than its cleared history, oldest first. */
  lemma VisibleIff(table: seq<Row>, conv: Id, cleared: Option<int>, r: Row)
    ensures r in Paging.Visible(table, conv, cleared) <==>
            r in table && r.home == conv && (cleared.Some? ==> r.at > cleared.value)
    ensures var v := Paging.Visible(table, conv, cleared);
            forall i, j :: 0 <= i < j < |v| ==> v[i].at <= v[j].at
  {
    QueryMembers(table, Range(conv, cleared, None));
  }

  /** A page is the newest fifty of those before the cursor, and there is a next cursor, the time of its
      first message, exactly when there are more than fifty. */
  lemma PageIsTheNewestFifty(table: seq<Row>, conv: Id, cleared: Option<int>, cursor: Option<int>, p: nat)
    requires var v := Paging.Visible(table, conv, cleared);
             StrictlyAscending(v) && p <= |v| && (if cursor.None? then p == |v| else p < |v| && cursor == Some(v[p].at))
    ensures var v, page := Paging.Visible(table, conv, cleared), Paging.GetMessages(table, conv, cleared, cursor);
            if p <= 50 then page.messages == v[..p] && page.next == None
            else page.messages == v[p - 50..p] && page.next == Some(v[p - 50].at)
  {
    Paging.PageIsASlice(table, conv, cleared, cursor, p);
  }

  /** Whatever the cursor, nothing outside its range is on a page. */
  lemma PageRowsAreInRange(table: seq<Row>, conv: Id, cleared: Option<int>, cursor: Option<int>, r: Row)
    ensures var page := Paging.GetMessages(table, conv, cleared, cursor);
            && |page.messages| <= 50
            && (r in page.messages ==>
                  && r in table && r.home == conv
                  && (cleared.Some? ==> r.at > cleared.value)
                  && (cursor.Some? ==> r.at < cursor.value))
  {
    var rows := Query(table, Range(conv, cleared, cursor));
    QueryMembers(table, Range(conv, cleared, cursor));
    Paging.NewestOf(rows);
    var page := Paging.GetMessages(table, conv, cleared, cursor);
    assert page.messages == rows[Paging.From(|rows|)..];
  }

  /** A full answer is exactly the thread's rows; an anchored one exactly those later than the anchor,
      and none when the anchor is not in the thread. */
  lemma AnswerRowsIff(table: seq<Row>, home: Id, after: Option<Id>, r: Row)
    requires DistinctIds(table)
    ensures r in ThreadLog.ThreadRows(table, home, after) <==>
            && r in table && r.home == home
            && (after.Some? ==> exists a :: a in table && a.id == after.value && a.home == home && a.at < r.at)
  {
    match after
    case None => QueryMembers(table, Whole(home));
    case Some(id) =>
      if a :| a in table && a.id == id && a.home == home {
        ThreadLog.AnchorTimeIs(table, home, a);
        QueryMembers(table, Range(home, Some(a.at), None));
        assert forall b :: b in table && b.id == id ==> b == a;
      } else {
        NoAnchor(table, home, id);
      }
  }

  lemma {:induction false} NoAnchor(table: seq<Row>, home: Id, id: Id)
    requires forall a :: a in table ==> !(a.id == id && a.home == home)
    ensures ThreadLog.AnchorTime(table, home, id) == None
  {
    if table != [] {
      assert table[0] in table;
      NoAnchor(table[1..], home, id);
    }
  }
}
