/** Stored chat messages and the way a viewer pages back through them (internal/chat/store.go and loadEarlier in
    web/desent-web/apps/web/app/vods/[sessionId]/page.tsx).

    The table is the sequence of its rows in insertion order. A page is selected by `id` but ordered by
    `(created_at, id)`, so paging rests on creation times that follow the ids. */
module ChatHistory {

  datatype Row = Row(id: int, session: int, user: int, name: string, text: string, createdAt: int, deleted: bool)

  // ---- The queries ----

  predicate Wanted(r: Row, session: int, before: int) {
    r.session == session && !r.deleted && (before > 0 ==> r.id < before)
  }

  /** The rows the WHERE clause keeps, in insertion order. */
  function Selected(rows: seq<Row>, session: int, before: int): seq<Row> {
    if rows == [] then []
    else
      var last := rows[|rows| - 1];
      Selected(rows[..|rows| - 1], session, before) + if Wanted(last, session, before) then [last] else []
  }

  predicate Newer(a: Row, b: Row) {
    a.createdAt > b.createdAt || (a.createdAt == b.createdAt && a.id > b.id)
  }

  function Insert(r: Row, s: seq<Row>): seq<Row> {
    if s == [] then [r] else if Newer(r, s[0]) then [r] + s else [s[0]] + Insert(r, s[1..])
  }

  /** ORDER BY created_at DESC, id DESC. */
  function NewestFirst(rows: seq<Row>): seq<Row> {
    if rows == [] then [] else Insert(rows[|rows| - 1], NewestFirst(rows[..|rows| - 1]))
  }

  /** LIMIT n, where a negative n is no limit. */
  function Limited(rows: seq<Row>, limit: int): seq<Row> {
    if 0 <= limit < |rows| then rows[..limit] else rows
  }

  function Reversed(rows: seq<Row>): (r: seq<Row>)
    ensures |r| == |rows| && forall k :: 0 <= k < |r| ==> r[k] == rows[|rows| - 1 - k]
  {
    seq(|rows|, k requires 0 <= k < |rows| => rows[|rows| - 1 - k])
  }

  function Page(rows: seq<Row>, session: int, limit: int, before: int): seq<Row> {
    Reversed(Limited(NewestFirst(Selected(rows, session, before)), limit))
  }

  function Marked(rows: seq<Row>, id: int): (r: seq<Row>)
    ensures |r| == |rows|
  {
    seq(|rows|, k requires 0 <= k < |rows| => if rows[k].id == id then rows[k].(deleted := true) else rows[k])
  }

  /** Ids are positive and grow with insertion, as AUTOINCREMENT assigns them. */
  ghost predicate Numbered(rows: seq<Row>) {
    (forall r :: r in rows ==> r.id > 0) && Ascending(rows)
  }

  ghost predicate Ascending(rows: seq<Row>) {
    forall i, j :: 0 <= i < j < |rows| ==> rows[i].id < rows[j].id
  }

  /** Creation times follow the order of the rows. */
  ghost predicate Chronological(rows: seq<Row>) {
    forall i, j :: 0 <= i < j < |rows| ==> rows[i].createdAt <= rows[j].createdAt
  }

  class Store {
    var rows: seq<Row>
    var nextId: int

    ghost predicate Valid() reads this {
      Numbered(rows) && nextId > 0 && forall r :: r in rows ==> r.id < nextId
    }

    constructor ()
      ensures Valid() && rows == []
    {
      rows, nextId := [], 1;
    }

    method SaveMessage(session: int, user: int, name: string, text: string, now: int)
      requires Valid()
      modifies this
      ensures Valid() && nextId == old(nextId) + 1
      ensures rows == old(rows) + [Row(old(nextId), session, user, name, text, now, false)]
    {
      rows := rows + [Row(nextId, session, user, name, text, now, false)];
      nextId := nextId + 1;
    }

    /** The statement updates only undeleted rows; touching none of them is an error. */
    method DeleteMessage(id: int) returns (found: bool)
      requires Valid()
      modifies this`rows
      ensures Valid() && rows == Marked(old(rows), id)
      ensures |rows| == |old(rows)|
      ensures forall k :: 0 <= k < |rows| ==>
                rows[k] == if old(rows)[k].id == id then old(rows)[k].(deleted := true) else old(rows)[k]
      ensures found <==> exists r :: r in old(rows) && r.id == id && !r.deleted
    {
      found := exists r :: r in rows && r.id == id && !r.deleted;
      rows := Marked(rows, id);
    }

    /** The rows arrive newest first and are put into chronological order. */
    method GetMessages(session: int, limit: int, before: int) returns (msgs: array<Row>)
      ensures fresh(msgs) && msgs[..] == Page(rows, session, limit, before)
      ensures IsPageOf(msgs[..], rows, session, limit, before)
    {
      PageMeans(rows, session, limit, before);
      var found := Limited(NewestFirst(Selected(rows, session, before)), limit);
      msgs := new Row[|found|](k requires 0 <= k < |found| => found[k]);
      assert msgs[..] == found;
      ReverseInPlace(msgs);
    }
  }

  /** The reversal loop of GetMessages, with its two indices. */
  method ReverseInPlace(msgs: array<Row>)
    modifies msgs
    ensures msgs[..] == Reversed(old(msgs[..]))
  {
    var i, j := 0, msgs.Length - 1;
    while i < j
      invariant 0 <= i && j == msgs.Length - 1 - i && i <= j + 1
      invariant forall k :: 0 <= k < i || j < k < msgs.Length ==> msgs[k] == old(msgs[..])[msgs.Length - 1 - k]
      invariant forall k :: i <= k <= j ==> msgs[k] == old(msgs[..])[k]
    {
      msgs[i], msgs[j] := msgs[j], msgs[i];
      i, j := i + 1, j - 1;
    }
  }

  // ---- What a page is ----

  /** The row is one a viewer asks for: of this session, undeleted, and older by id than a cursor, if there is one. */
  ghost predicate AskedFor(r: Row, session: int, before: int) {
    r.session == session && !r.deleted && (before <= 0 || r.id < before)
  }

  /** Chronological, ids deciding between equal times. */
  ghost predicate NoLaterThan(a: Row, b: Row) {
    a.createdAt < b.createdAt || (a.createdAt == b.createdAt && a.id <= b.id)
  }

  /** What GetMessages is for, said of its answer alone: rows asked for, each once, in chronological order, no more than
      the limit; and one is missing only if the page is full, and then it is no later than any of them. */
  ghost predicate IsPageOf(page: seq<Row>, rows: seq<Row>, session: int, limit: int, before: int) {
    && (forall r :: r in page ==> r in rows && AskedFor(r, session, before))
    && multiset(page) <= multiset(rows)
    && (forall i, j :: 0 <= i < j < |page| ==> NoLaterThan(page[i], page[j]))
    && (limit >= 0 ==> |page| <= limit)
    && (forall r :: r in rows && AskedFor(r, session, before) && r !in page ==>
          |page| == limit && forall x :: x in page ==> NoLaterThan(r, x))
  }

  lemma {:induction false} SelectedOnce(rows: seq<Row>, session: int, before: int)
    ensures multiset(Selected(rows, session, before)) <= multiset(rows)
  {
    if rows != [] {
      var init, last := rows[..|rows| - 1], rows[|rows| - 1];
      SelectedOnce(init, session, before);
      assert rows == init + [last];
    }
  }

  lemma ReversedSame(rows: seq<Row>)
    ensures multiset(Reversed(rows)) == multiset(rows)
    ensures forall r :: r in Reversed(rows) <==> r in rows
    decreases |rows|
  {
    if rows != [] {
      var init, last := rows[..|rows| - 1], rows[|rows| - 1];
      ReversedSame(init);
      assert rows == init + [last] && Reversed(rows) == [last] + Reversed(init);
    }
  }

  lemma LimitedIs(sorted: seq<Row>, limit: int)
    ensures Limited(sorted, limit) <= sorted && multiset(Limited(sorted, limit)) <= multiset(sorted)
    ensures limit >= 0 ==> |Limited(sorted, limit)| <= limit
    ensures |Limited(sorted, limit)| < |sorted| ==> |Limited(sorted, limit)| == limit
  {
    var kept := Limited(sorted, limit);
    assert sorted == kept + sorted[|kept|..];
  }

  lemma SortedBackwards(sorted: seq<Row>, n: nat)
    requires Sorted(sorted) && n <= |sorted|
    ensures forall i, j :: 0 <= i < j < n ==> NoLaterThan(Reversed(sorted[..n])[i], Reversed(sorted[..n])[j])
    ensures forall r, x :: r in sorted && r !in sorted[..n] && x in sorted[..n] ==> NoLaterThan(r, x)
  {
    forall r, x | r in sorted && r !in sorted[..n] && x in sorted[..n]
      ensures NoLaterThan(r, x)
    {
      var k :| 0 <= k < |sorted| && sorted[k] == r;
      var m :| 0 <= m < n && sorted[m] == x;
      assert k < n ==> sorted[..n][k] == r;
    }
  }

  lemma PageIsOnce(rows: seq<Row>, session: int, limit: int, before: int)
    ensures multiset(Page(rows, session, limit, before)) <= multiset(rows)
    ensures forall i, j :: 0 <= i < j < |Page(rows, session, limit, before)| ==>
              NoLaterThan(Page(rows, session, limit, before)[i], Page(rows, session, limit, before)[j])
    ensures limit >= 0 ==> |Page(rows, session, limit, before)| <= limit
  {
    hide Selected, NewestFirst, Limited, Reversed, Sorted, NoLaterThan;
    var sel := Selected(rows, session, before);
    var sorted := NewestFirst(sel);
    var kept := Limited(sorted, limit);
    SelectedOnce(rows, session, before);
    SortedSameRows(sel);
    SortRearranges(sel);
    LimitedIs(sorted, limit);
    assert kept == sorted[..|kept|];
    SortedBackwards(sorted, |kept|);
    ReversedSame(kept);
  }

  lemma PageHolds(rows: seq<Row>, session: int, limit: int, before: int)
    ensures var page := Page(rows, session, limit, before);
            && (forall r :: r in page ==> r in rows && AskedFor(r, session, before))
            && (forall r :: r in rows && AskedFor(r, session, before) && r !in page ==>
                  |page| == limit && forall x :: x in page ==> NoLaterThan(r, x))
  {
    var sel := Selected(rows, session, before);
    SelectedIs(rows, session, before);
    assert forall r :: r in sel <==> r in rows && AskedFor(r, session, before);
    hide Selected, NewestFirst, Limited, Reversed, Sorted, NoLaterThan, AskedFor, Wanted;
    var sorted := NewestFirst(sel);
    var kept := Limited(sorted, limit);
    SortedSameRows(sel);
    LimitedIs(sorted, limit);
    assert kept == sorted[..|kept|];
    SortedBackwards(sorted, |kept|);
    ReversedSame(kept);
  }

  lemma PageMeans(rows: seq<Row>, session: int, limit: int, before: int)
    ensures IsPageOf(Page(rows, session, limit, before), rows, session, limit, before)
  {
    PageIsOnce(rows, session, limit, before);
    PageHolds(rows, session, limit, before);
    hide Page;
  }

  // ---- Facts about the queries ----

  lemma {:induction false} SelectedIs(rows: seq<Row>, session: int, before: int)
    ensures forall r :: r in Selected(rows, session, before) <==> r in rows && Wanted(r, session, before)
  {
    if rows != [] {
      var init := rows[..|rows| - 1];
      SelectedIs(init, session, before);
      assert rows == init + [rows[|rows| - 1]];
    }
  }

  lemma {:induction false} SelectedAscending(rows: seq<Row>, session: int, before: int)
    requires Ascending(rows)
    ensures Ascending(Selected(rows, session, before))
  {
    if rows != [] {
      var init := rows[..|rows| - 1];
      SelectedAscending(init, session, before);
      SelectedIs(init, session, before);
      AscendingAppend(Selected(init, session, before), rows[|rows| - 1]);
    }
  }

  lemma AscendingAppend(s: seq<Row>, r: Row)
    requires Ascending(s) && forall x :: x in s ==> x.id < r.id
    ensures Ascending(s + [r])
  {
  }

  lemma {:induction false} SelectedChronological(rows: seq<Row>, session: int, before: int)
    requires Chronological(rows)
    ensures Chronological(Selected(rows, session, before))
  {
    if rows != [] {
      var init := rows[..|rows| - 1];
      SelectedChronological(init, session, before);
      SelectedIs(init, session, before);
      ChronologicalAppend(Selected(init, session, before), rows[|rows| - 1]);
    }
  }

  lemma ChronologicalAppend(s: seq<Row>, r: Row)
    requires Chronological(s) && forall x :: x in s ==> x.createdAt <= r.createdAt
    ensures Chronological(s + [r])
  {
  }

  ghost predicate Sorted(s: seq<Row>) {
    forall i, j :: 0 <= i < j < |s| ==> !Newer(s[j], s[i])
  }

  lemma SortedCons(r: Row, s: seq<Row>)
    requires Sorted(s) && forall x :: x in s ==> !Newer(x, r)
    ensures Sorted([r] + s)
  {
  }

  lemma {:induction false} InsertSorts(r: Row, s: seq<Row>)
    requires Sorted(s)
    ensures Sorted(Insert(r, s)) && |Insert(r, s)| == |s| + 1
    ensures forall x :: x in Insert(r, s) <==> x == r || x in s
  {
    if s != [] {
      if Newer(r, s[0]) {
        SortedCons(r, s);
      } else {
        InsertSorts(r, s[1..]);
        assert forall x :: x in s <==> x == s[0] || x in s[1..];
        SortedCons(s[0], Insert(r, s[1..]));
      }
    }
  }

  lemma {:induction false} SortedSameRows(rows: seq<Row>)
    ensures Sorted(NewestFirst(rows)) && |NewestFirst(rows)| == |rows|
    ensures forall x :: x in NewestFirst(rows) <==> x in rows
  {
    if rows != [] {
      var init := rows[..|rows| - 1];
      SortedSameRows(init);
      InsertSorts(rows[|rows| - 1], NewestFirst(init));
      assert rows == init + [rows[|rows| - 1]];
    }
  }

  lemma {:induction false} InsertAdds(r: Row, s: seq<Row>)
    ensures multiset(Insert(r, s)) == multiset{r} + multiset(s)
  {
    if s != [] {
      assert s == [s[0]] + s[1..];
      if !Newer(r, s[0]) {
        InsertAdds(r, s[1..]);
      }
    }
  }

  lemma {:induction false} SortRearranges(rows: seq<Row>)
    ensures multiset(NewestFirst(rows)) == multiset(rows)
  {
    if rows != [] {
      var init, last := rows[..|rows| - 1], rows[|rows| - 1];
      SortRearranges(init);
      hide Insert;
      InsertAdds(last, NewestFirst(init));
      assert rows == init + [last];
    }
  }

  /** Sorting rearranges the rows, and no more. */
  lemma NewestFirstSorts(rows: seq<Row>)
    ensures Sorted(NewestFirst(rows)) && multiset(NewestFirst(rows)) == multiset(rows)
  {
    hide *;
    SortedSameRows(rows);
    SortRearranges(rows);
  }

  /** With times that follow the ids, sorting is only reversing. */
  lemma {:induction false} NewestFirstIsReverse(rows: seq<Row>)
    requires Ascending(rows) && Chronological(rows)
    ensures NewestFirst(rows) == Reversed(rows)
  {
    if rows != [] {
      var init, last := rows[..|rows| - 1], rows[|rows| - 1];
      NewestFirstIsReverse(init);
      assert Insert(last, Reversed(init)) == [last] + Reversed(init);
    }
  }

  lemma PageIsSuffix(rows: seq<Row>, session: int, limit: nat, before: int)
    requires Numbered(rows) && Chronological(rows)
    ensures var all := Selected(rows, session, before);
            Page(rows, session, limit, before) == all[if limit < |all| then |all| - limit else 0..]
  {
    SelectedAscending(rows, session, before);
    SelectedChronological(rows, session, before);
    NewestFirstIsReverse(Selected(rows, session, before));
  }

  lemma {:induction false} SameAscending(a: seq<Row>, b: seq<Row>)
    requires Ascending(a) && Ascending(b) && forall r :: r in a <==> r in b
    ensures a == b
  {
    assert (a != [] ==> a[|a| - 1] in a) && (b != [] ==> b[|b| - 1] in b);
    if a != [] && b != [] {
      var last, a', b' := a[|a| - 1], a[..|a| - 1], b[..|b| - 1];
      assert b[|b| - 1] == last;
      forall r ensures r in a' <==> r in b' {
        assert r in a <==> r in a' || r == last;
        assert r in b <==> r in b' || r == last;
      }
      SameAscending(a', b');
    }
  }
}
