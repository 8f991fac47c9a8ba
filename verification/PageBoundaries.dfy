/** Paging back through a recorded stream, for one page size (internal/chat/store.go, GetMessages, and loadEarlier in
    web/desent-web/apps/web/app/vods/[sessionId]/page.tsx): exactly when loading to the end shows the whole history.

    The history is kept here as the query orders it, newest first, and what is shown is a stretch of it reversed. */
module PageBoundaries {
  import opened ChatHistory
  import opened Paging

  function History(rows: seq<Row>, session: int): seq<Row> { NewestFirst(Selected(rows, session, 0)) }

  /** Loading while the button is there: the page offers it as long as there is more to load. */
  function LoadAll(rows: seq<Row>, session: int, limit: nat, v: View, loads: nat): View
    decreases loads
  {
    if loads == 0 || !v.hasMore then v
    else LoadAll(rows, session, limit, Earlier(rows, session, limit, v), loads - 1)
  }

  /** Loading to the end shows every undeleted message of the session once, in the order of the query. */
  predicate CompleteFor(rows: seq<Row>, session: int, limit: nat) {
    LoadAll(rows, session, limit, Opened(rows, session, limit), |rows|).messages == Reversed(History(rows, session))
  }

  /** The cursor after the newest `a` messages tells them from the rest: what is newer than it has a larger id, what is
      older a smaller one. */
  predicate CleanCut(history: seq<Row>, a: nat)
    requires 0 < a <= |history|
  {
    && (forall i :: 0 <= i < a - 1 ==> history[i].id > history[a - 1].id)
    && (forall i :: a <= i < |history| ==> history[i].id < history[a - 1].id)
  }

  /** So it is at every page boundary from the one after the newest `a` messages on. */
  predicate CleanBoundaries(history: seq<Row>, limit: nat, a: nat)
    requires limit > 0 && a > 0
    decreases |history| + limit - a
  {
    a <= |history| ==> CleanCut(history, a) && CleanBoundaries(history, limit, a + limit)
  }

  // ---- A page is cut from the history ----

  function Below(s: seq<Row>, c: int): seq<Row> {
    if s == [] then [] else (if s[0].id < c then [s[0]] else []) + Below(s[1..], c)
  }

  lemma {:induction false} BelowIs(s: seq<Row>, c: int)
    ensures forall r :: r in Below(s, c) <==> r in s && r.id < c
  {
    if s != [] {
      BelowIs(s[1..], c);
      assert forall r :: r in s <==> r == s[0] || r in s[1..];
    }
  }

  lemma BelowCons(r: Row, s: seq<Row>, c: int)
    ensures Below([r] + s, c) == if r.id < c then [r] + Below(s, c) else Below(s, c)
  {
    assert ([r] + s)[1..] == s;
  }

  lemma InsertCons(r: Row, x: Row, s: seq<Row>)
    ensures Insert(r, [x] + s) == if Newer(r, x) then [r] + ([x] + s) else [x] + Insert(r, s)
  {
    assert ([x] + s)[1..] == s;
  }

  lemma InsertNewest(r: Row, s: seq<Row>)
    requires forall x :: x in s ==> Newer(r, x)
    ensures Insert(r, s) == [r] + s
  {
  }

  lemma {:induction false} InsertBelow(r: Row, s: seq<Row>, c: int)
    requires Sorted(s)
    ensures Below(Insert(r, s), c) == if r.id < c then Insert(r, Below(s, c)) else Below(s, c)
  {
    if s == [] {
      BelowCons(r, [], c);
    } else {
      var x, rest := s[0], s[1..];
      assert s == [x] + rest;
      BelowCons(x, rest, c);
      if Newer(r, x) {
        NewerThanAll(r, s);
        BelowIs(s, c);
        hide Below, Insert, Newer, Sorted;
        BelowCons(r, s, c);
        InsertNewest(r, s);
        InsertNewest(r, Below(s, c));
      } else {
        InsertBelow(r, rest, c);
        hide Below, Insert, Newer, Sorted;
        InsertCons(r, x, rest);
        BelowCons(x, Insert(r, rest), c);
        InsertCons(r, x, Below(rest, c));
      }
    }
  }

  lemma NewerThanAll(r: Row, s: seq<Row>)
    requires Sorted(s) && s != [] && Newer(r, s[0])
    ensures forall x :: x in s ==> Newer(r, x)
  {
    forall x | x in s ensures Newer(r, x) {
      var k :| 0 <= k < |s| && s[k] == x;
      assert k > 0 ==> !Newer(s[k], s[0]);
    }
  }

  lemma SelectedSnoc(rows: seq<Row>, session: int, c: int)
    requires rows != []
    ensures var init, last := rows[..|rows| - 1], rows[|rows| - 1];
            NewestFirst(Selected(rows, session, c)) ==
            if Wanted(last, session, c) then Insert(last, NewestFirst(Selected(init, session, c)))
            else NewestFirst(Selected(init, session, c))
  {
    hide Insert;
    var sel, last := Selected(rows[..|rows| - 1], session, c), rows[|rows| - 1];
    assert (sel + [last])[..|sel|] == sel && sel + [] == sel;
  }

  lemma {:induction false} OlderIsBelow(rows: seq<Row>, session: int, c: int)
    requires c > 0
    ensures NewestFirst(Selected(rows, session, c)) == Below(NewestFirst(Selected(rows, session, 0)), c)
    decreases |rows|
  {
    if rows != [] {
      hide Insert, Below, NewestFirst, Selected, Sorted, Newer;
      var init, last := rows[..|rows| - 1], rows[|rows| - 1];
      OlderIsBelow(init, session, c);
      SelectedSnoc(rows, session, c);
      SelectedSnoc(rows, session, 0);
      SortedSameRows(Selected(init, session, 0));
      InsertBelow(last, NewestFirst(Selected(init, session, 0)), c);
    }
  }

  lemma PageIsBelow(rows: seq<Row>, session: int, limit: nat, c: int)
    requires c > 0
    ensures Page(rows, session, limit, c) == Reversed(Limited(Below(History(rows, session), c), limit))
  {
    OlderIsBelow(rows, session, c);
  }

  ghost predicate DistinctIds(s: seq<Row>) {
    forall i, j :: 0 <= i < j < |s| ==> s[i].id != s[j].id
  }

  lemma {:induction false} HistoryDistinct(s: seq<Row>)
    requires Ascending(s)
    ensures DistinctIds(NewestFirst(s))
  {
    if s != [] {
      var init := s[..|s| - 1];
      HistoryDistinct(init);
      SortedSameRows(init);
      InsertDistinct(s[|s| - 1], NewestFirst(init));
    }
  }

  lemma {:induction false} InsertDistinct(r: Row, s: seq<Row>)
    requires DistinctIds(s) && forall x :: x in s ==> x.id != r.id
    ensures DistinctIds(Insert(r, s)) && forall x :: x in Insert(r, s) <==> x == r || x in s
  {
    if s != [] && !Newer(r, s[0]) {
      InsertDistinct(r, s[1..]);
      assert forall x :: x in s <==> x == s[0] || x in s[1..];
      DistinctCons(s[0], Insert(r, s[1..]));
    } else {
      DistinctCons(r, s);
    }
  }

  lemma DistinctCons(r: Row, s: seq<Row>)
    requires DistinctIds(s) && forall x :: x in s ==> x.id != r.id
    ensures DistinctIds([r] + s)
  {
  }

  // ---- Loading ----

  lemma LoadSteps(rows: seq<Row>, session: int, limit: nat, v: View, loads: nat)
    ensures !v.hasMore || loads == 0 ==> LoadAll(rows, session, limit, v, loads) == v
    ensures v.hasMore && loads > 0 ==>
              LoadAll(rows, session, limit, v, loads) ==
              LoadAll(rows, session, limit, Earlier(rows, session, limit, v), loads - 1)
  {
  }

  lemma EarlierInFront(rows: seq<Row>, session: int, limit: nat, v: View) returns (page: seq<Row>)
    requires Numbered(rows) && v.messages != [] && v.messages[0].id > 0
    ensures Earlier(rows, session, limit, v).messages == page + v.messages
    ensures forall r :: r in page ==> 0 < r.id < v.messages[0].id
  {
    page := Page(rows, session, limit, v.messages[0].id);
    PageOlder(rows, session, limit, v.messages[0].id);
    hide Page;
    assert [] + v.messages == v.messages;
  }

  /** Loading only adds messages in front, with ids below the oldest shown. */
  lemma {:induction false} LoadsInFront(rows: seq<Row>, session: int, limit: nat, v: View, loads: nat)
    returns (front: seq<Row>)
    requires Numbered(rows) && v.messages != [] && v.messages[0].id > 0
    ensures LoadAll(rows, session, limit, v, loads).messages == front + v.messages
    ensures forall r :: r in front ==> r.id < v.messages[0].id
    decreases loads
  {
    hide *;
    LoadSteps(rows, session, limit, v, loads);
    if loads == 0 || !v.hasMore {
      front := [];
      assert front + v.messages == v.messages;
    } else {
      var page := EarlierInFront(rows, session, limit, v);
      var v' := Earlier(rows, session, limit, v);
      assert page != [] ==> v'.messages[0] == page[0];
      var more := LoadsInFront(rows, session, limit, v', loads - 1);
      front := more + page;
      assert more + (page + v.messages) == front + v.messages;
    }
  }

  lemma PageOlder(rows: seq<Row>, session: int, limit: nat, before: int)
    requires Numbered(rows) && before > 0
    ensures forall r :: r in Page(rows, session, limit, before) ==> 0 < r.id < before
  {
    var older := NewestFirst(Selected(rows, session, before));
    SelectedIs(rows, session, before);
    SortedSameRows(Selected(rows, session, before));
    SameElements(Limited(older, limit));
    assert forall r :: r in Limited(older, limit) ==> r in older;
  }

  /** Shows the newest `a` messages, and more can be asked for. */
  predicate Shows(v: View, history: seq<Row>, a: nat) {
    0 < a <= |history| && v.messages == Reversed(history[..a]) && v.hasMore
  }

  lemma ShowsBounds(v: View, history: seq<Row>, a: nat)
    requires Shows(v, history, a)
    ensures 0 < a <= |history| && v.hasMore && v.messages != [] && v.messages[0] == history[a - 1]
    ensures v.messages[0] in history
  {
  }

  lemma {:induction false} BelowAtCut(s: seq<Row>, a: nat, c: int)
    requires a <= |s| && (forall i :: 0 <= i < a ==> s[i].id >= c) && (forall i :: a <= i < |s| ==> s[i].id < c)
    ensures Below(s, c) == s[a..]
  {
    if s != [] {
      BelowAtCut(s[1..], if a > 0 then a - 1 else 0, c);
    }
  }

  lemma HistoryNumbered(rows: seq<Row>, session: int)
    requires Numbered(rows)
    ensures forall r :: r in History(rows, session) ==> r.id > 0
    ensures DistinctIds(History(rows, session)) && |History(rows, session)| <= |rows|
  {
    SelectedIs(rows, session, 0);
    SelectedAscending(rows, session, 0);
    SortedSameRows(Selected(rows, session, 0));
    HistoryDistinct(Selected(rows, session, 0));
    AscendingWithin(Selected(rows, session, 0), rows);
  }

  lemma ReverseJoin(a: seq<Row>, b: seq<Row>)
    ensures Reversed(b) + Reversed(a) == Reversed(a + b)
  {
  }

  /** The messages a load brings, newest first: from all with a smaller id than the oldest shown. */
  function Brought(history: seq<Row>, limit: nat, a: nat): seq<Row>
    requires 0 < a <= |history|
  {
    Limited(Below(history, history[a - 1].id), limit)
  }

  lemma EarlierBrings(rows: seq<Row>, session: int, limit: nat, v: View, a: nat)
    requires Numbered(rows) && Shows(v, History(rows, session), a)
    ensures var h := History(rows, session);
            var next := Brought(h, limit, a);
            Earlier(rows, session, limit, v) ==
              if next == [] then v.(hasMore := false) else View(Reversed(h[..a] + next), |next| >= limit)
  {
    hide History, Page, Below, Limited, Reversed;
    var h := History(rows, session);
    ShowsBounds(v, h, a);
    HistoryNumbered(rows, session);
    PageIsBelow(rows, session, limit, h[a - 1].id);
    ReverseJoin(h[..a], Brought(h, limit, a));
  }

  lemma BroughtAtCut(history: seq<Row>, limit: nat, a: nat)
    requires 0 < a <= |history| && CleanCut(history, a)
    ensures Brought(history, limit, a) == history[a..if a + limit < |history| then a + limit else |history|]
  {
    BelowAtCut(history, a, history[a - 1].id);
  }

  /** At a clean cut, a load brings exactly the next messages of the history. */
  lemma LoadAtCut(rows: seq<Row>, session: int, limit: nat, v: View, a: nat)
    requires Numbered(rows) && limit > 0
    requires Shows(v, History(rows, session), a) && CleanCut(History(rows, session), a)
    ensures var h, v' := History(rows, session), Earlier(rows, session, limit, v);
            if a + limit <= |h| then Shows(v', h, a + limit)
            else v'.messages == Reversed(h) && !v'.hasMore
  {
    EarlierBrings(rows, session, limit, v, a);
    BroughtAtCut(History(rows, session), limit, a);
    hide History, Earlier, CleanCut, Brought, Reversed;
    var h := History(rows, session);
    assert h[..a] + h[a..] == h && h[..|h|] == h;
    if a + limit <= |h| {
      assert h[..a] + h[a..a + limit] == h[..a + limit];
    }
  }

  lemma {:induction false} CleanSuffices(rows: seq<Row>, session: int, limit: nat, v: View, a: nat, loads: nat)
    requires Numbered(rows) && limit > 0 && a > 0 && Shows(v, History(rows, session), a)
    requires CleanBoundaries(History(rows, session), limit, a) && loads > |History(rows, session)| - a
    ensures LoadAll(rows, session, limit, v, loads).messages == Reversed(History(rows, session))
    decreases loads
  {
    hide *;
    var h, v' := History(rows, session), Earlier(rows, session, limit, v);
    ShowsBounds(v, h, a);
    CleanFrom(h, limit, a);
    LoadAtCut(rows, session, limit, v, a);
    LoadSteps(rows, session, limit, v, loads);
    if a + limit <= |h| {
      CleanSuffices(rows, session, limit, v', a + limit, loads - 1);
    } else {
      LoadSteps(rows, session, limit, v', loads - 1);
    }
  }

  lemma CleanFrom(history: seq<Row>, limit: nat, a: nat)
    requires limit > 0 && 0 < a <= |history|
    ensures CleanBoundaries(history, limit, a) <==> CleanCut(history, a) && CleanBoundaries(history, limit, a + limit)
  {
  }

  // ---- No other way ----

  lemma {:induction false} NothingBelowBefore(s: seq<Row>, c: int, a: nat)
    requires DistinctIds(s) && a <= |s|
    requires Below(s, c) != [] ==> a < |s| && Below(s, c)[0] == s[a]
    ensures forall i :: 0 <= i < a ==> s[i].id >= c
  {
    if a > 0 && s[0].id >= c {
      NothingBelowBefore(s[1..], c, a - 1);
    }
  }

  /** If what is shown next is the history's, the cut was clean. */
  lemma CutWasClean(history: seq<Row>, limit: nat, a: nat, rest: seq<Row>)
    requires 0 < a <= |history| && limit > 0 && DistinctIds(history)
    requires history == history[..a] + Brought(history, limit, a) + rest
    requires forall r :: r in Brought(history, limit, a) + rest ==> r.id < history[a - 1].id
    ensures CleanCut(history, a)
  {
    var c, next := history[a - 1].id, Brought(history, limit, a);
    forall i | a <= i < |history| ensures history[i].id < c {
      assert history[i] == (next + rest)[i - a];
    }
    assert next != [] ==> next[0] == history[a];
    NothingBelowBefore(history, c, a);
  }

  lemma AllShownAtCut(history: seq<Row>, limit: nat, a: nat)
    requires 0 < a <= |history| && limit > 0 && CleanCut(history, a) && |Brought(history, limit, a)| < limit
    ensures a + limit > |history|
  {
    BroughtAtCut(history, limit, a);
  }


  lemma ReverseInjective(a: seq<Row>, b: seq<Row>)
    requires Reversed(a) == Reversed(b)
    ensures a == b
  {
    assert |a| == |Reversed(a)| == |b|;
    forall i | 0 <= i < |a| ensures a[i] == b[i] {
      assert Reversed(a)[|a| - 1 - i] == Reversed(b)[|a| - 1 - i];
    }
  }

  lemma ReverseTwice(a: seq<Row>)
    ensures Reversed(Reversed(a)) == a
  {
  }

  /** What a load shows when all turns out right: the history so far, what the load brought, and what is yet to come. */
  lemma NextIsHistorys(rows: seq<Row>, session: int, limit: nat, v: View, a: nat, loads: nat) returns (rest: seq<Row>)
    requires Numbered(rows) && a > 0 && Shows(v, History(rows, session), a) && loads > 0
    requires LoadAll(rows, session, limit, v, loads).messages == Reversed(History(rows, session))
    ensures a <= |History(rows, session)|
    ensures var h, next := History(rows, session), Brought(History(rows, session), limit, a);
            h == h[..a] + next + rest && forall r :: r in next + rest ==> r.id < h[a - 1].id
  {
    hide *;
    var h, v' := History(rows, session), Earlier(rows, session, limit, v);
    ShowsBounds(v, h, a);
    HistoryNumbered(rows, session);
    var next := Brought(h, limit, a);
    EarlierBrings(rows, session, limit, v, a);
    LoadSteps(rows, session, limit, v, loads);
    var page := EarlierInFront(rows, session, limit, v);
    assert page != [] ==> v'.messages[0] == page[0];
    var front := LoadsInFront(rows, session, limit, v', loads - 1);
    rest := Reversed(front);
    BroughtOlder(h, limit, a);
    ShownNewest(v, v', h, limit, a, next);
    ReverseTwice(front);
    ReverseJoin(h[..a] + next, rest);
    ReverseInjective(h[..a] + next + rest, h);
    SameElements(front);
  }

  lemma BroughtOlder(history: seq<Row>, limit: nat, a: nat)
    requires 0 < a <= |history|
    ensures forall r :: r in Brought(history, limit, a) ==> r.id < history[a - 1].id
  {
    BelowIs(history, history[a - 1].id);
  }

  lemma ShownNewest(v: View, v': View, h: seq<Row>, limit: nat, a: nat, next: seq<Row>)
    requires Shows(v, h, a)
    requires v' == if next == [] then v.(hasMore := false) else View(Reversed(h[..a] + next), |next| >= limit)
    ensures v'.messages == Reversed(h[..a] + next)
  {
    assert h[..a] + [] == h[..a];
  }

  lemma ShowsNext(v': View, h: seq<Row>, limit: nat, a: nat, next: seq<Row>, rest: seq<Row>)
    requires limit > 0 && 0 < a <= |h| && h == h[..a] + next + rest && |next| == limit
    requires v' == View(Reversed(h[..a] + next), |next| >= limit)
    ensures Shows(v', h, a + limit)
  {
    assert h[..a] + next == h[..a + limit];
  }

  lemma BroughtAtMost(history: seq<Row>, limit: nat, a: nat)
    requires 0 < a <= |history|
    ensures |Brought(history, limit, a)| <= limit
  {
  }

  lemma PastTheEnd(history: seq<Row>, limit: nat, a: nat)
    requires limit > 0 && a > |history|
    ensures CleanBoundaries(history, limit, a)
  {
  }

  lemma {:induction false} CleanNeeded(rows: seq<Row>, session: int, limit: nat, v: View, a: nat, loads: nat)
    requires Numbered(rows) && limit > 0 && a > 0 && Shows(v, History(rows, session), a)
    requires LoadAll(rows, session, limit, v, loads).messages == Reversed(History(rows, session))
    requires loads > |History(rows, session)| - a
    ensures CleanBoundaries(History(rows, session), limit, a)
    decreases loads
  {
    hide *;
    var h, v' := History(rows, session), Earlier(rows, session, limit, v);
    ShowsBounds(v, h, a);
    HistoryNumbered(rows, session);
    var rest := NextIsHistorys(rows, session, limit, v, a, loads);
    var next := Brought(h, limit, a);
    CutWasClean(h, limit, a, rest);
    BroughtAtMost(h, limit, a);
    if |next| < limit {
      AllShownAtCut(h, limit, a);
      PastTheEnd(h, limit, a + limit);
    } else {
      EarlierBrings(rows, session, limit, v, a);
      ShowsNext(v', h, limit, a, next, rest);
      LoadSteps(rows, session, limit, v, loads);
      CleanNeeded(rows, session, limit, v', a + limit, loads - 1);
    }
    CleanFrom(h, limit, a);
  }

  lemma OpenedShows(rows: seq<Row>, session: int, limit: nat)
    requires limit > 0
    ensures var h, v := History(rows, session), Opened(rows, session, limit);
            if limit <= |h| then Shows(v, h, limit) else v.messages == Reversed(h) && !v.hasMore
  {
    assert History(rows, session)[..|History(rows, session)|] == History(rows, session);
  }

  /** For every page size: loading to the end shows the whole history, each message once and in order, if and only if
      at every page boundary the newer messages have larger ids than the cursor and the older ones smaller. */
  lemma CompleteExactlyIfCleanBoundaries(rows: seq<Row>, session: int, limit: nat)
    requires Numbered(rows) && limit > 0
    ensures CompleteFor(rows, session, limit) <==> CleanBoundaries(History(rows, session), limit, limit)
  {
    hide History, Opened, Reversed, Shows, CleanCut, LoadAll;
    var h, v := History(rows, session), Opened(rows, session, limit);
    HistoryNumbered(rows, session);
    OpenedShows(rows, session, limit);
    if limit <= |h| {
      if CleanBoundaries(h, limit, limit) {
        CleanSuffices(rows, session, limit, v, limit, |rows|);
      }
      if CompleteFor(rows, session, limit) {
        CleanNeeded(rows, session, limit, v, limit, |rows|);
      }
    } else {
      PastTheEnd(h, limit, limit);
      LoadSteps(rows, session, limit, v, |rows|);
    }
  }
}
