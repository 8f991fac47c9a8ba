/** The recorded-stream page's message list (web/desent-web/apps/web/app/vods/[sessionId]/page.tsx, lines 33-64):
    it loads the newest page and then prepends earlier ones, while the server may save and delete messages. */
module Paging {
  import opened ChatHistory

  datatype View = View(messages: seq<Row>, hasMore: bool)

  function Opened(rows: seq<Row>, session: int, limit: nat): View {
    var page := Page(rows, session, limit, 0);
    View(page, |page| >= limit && page != [])
  }

  function Earlier(rows: seq<Row>, session: int, limit: nat, v: View): View {
    if v.messages == [] then v
    else
      var page := Page(rows, session, limit, v.messages[0].id);
      if page == [] then v.(hasMore := false)
      else View(page + v.messages, v.hasMore && |page| >= limit)
  }

  /** The page component. Its `limit` is 200, which the server accepts as it is. A load is asked for at one moment and
      answered at another; while it is under way no other is asked for, so the list is the same at both. `answered`
      says whether a request was answered, rather than failed. */
  class VodPage {
    const session: int
    const limit: nat
    var messages: seq<Row>
    var hasMore: bool
    var loadingMore: bool
    var before: int

    ghost function Shown(): View reads this { View(messages, hasMore) }

    /** A load under way asked for what comes before the oldest message shown. */
    ghost predicate Valid() reads this { loadingMore ==> messages != [] && before == messages[0].id }

    /** A failed first request shows no messages and offers no more. */
    constructor (store: Store, session: int, limit: nat, answered: bool)
      ensures this.session == session && this.limit == limit && Valid() && !loadingMore
      ensures Shown() == if answered then Opened(store.rows, session, limit) else View([], false)
    {
      this.session, this.limit := session, limit;
      messages, hasMore, loadingMore, before := [], true, false, 0;
      new;
      if answered {
        var msgs := store.GetMessages(session, limit, 0);
        messages := msgs[..];
      }
      if messages == [] || |messages| < limit {
        hasMore := false;
      }
    }

    /** Up to the request, which is sent if there is a message shown and no load under way. */
    method AskEarlier() returns (asked: bool)
      requires Valid()
      modifies this`loadingMore, this`before
      ensures Valid() && loadingMore == (messages != [])
      ensures asked <==> messages != [] && !old(loadingMore)
    {
      if messages == [] || loadingMore {
        return false;
      }
      loadingMore := true;
      before := messages[0].id;
      return true;
    }

    /** From its answer on, given from the store of that moment; a failed request is ignored. */
    method ReceiveEarlier(store: Store, answered: bool)
      requires Valid() && loadingMore
      modifies this`messages, this`hasMore, this`loadingMore
      ensures Valid() && !loadingMore
      ensures Shown() == if answered then Earlier(store.rows, session, limit, old(Shown())) else old(Shown())
    {
      if answered {
        var page := store.GetMessages(session, limit, before);
        if page.Length == 0 {
          hasMore := false;
        } else {
          messages := page[..] + messages;
          if page.Length < limit {
            hasMore := false;
          }
        }
      }
      loadingMore := false;
    }
  }

  // ---- Runs: loads interleaved with saves and deletions ----

  datatype Act = Save(row: Row) | Delete(id: int) | LoadMore

  datatype World = World(rows: seq<Row>, nextId: int, view: View)

  /** A save takes the next id and a time no earlier than the table's. */
  ghost predicate CanAct(w: World, a: Act) {
    a.Save? ==> a.row.id == w.nextId && forall r :: r in w.rows ==> r.createdAt <= a.row.createdAt
  }

  function Act1(w: World, session: int, limit: nat, a: Act): World {
    match a
    case Save(row) => w.(rows := w.rows + [row], nextId := row.id + 1)
    case Delete(id) => w.(rows := Marked(w.rows, id))
    case LoadMore => w.(view := Earlier(w.rows, session, limit, w.view))
  }

  /** Each act is a call of the store's methods or of the page's. */
  method Perform(store: Store, page: VodPage, a: Act)
    requires store.Valid() && page.Valid() && !page.loadingMore
    requires a.Save? ==> a.row.id == store.nextId && !a.row.deleted
    modifies store, page
    ensures store.Valid() && page.Valid() && !page.loadingMore
    ensures var w := World(old(store.rows), old(store.nextId), old(page.Shown()));
            World(store.rows, store.nextId, page.Shown()) == Act1(w, page.session, page.limit, a)
  {
    match a {
      case Save(row) => store.SaveMessage(row.session, row.user, row.name, row.text, row.createdAt);
      case Delete(id) => var _ := store.DeleteMessage(id);
      case LoadMore =>
        var asked := page.AskEarlier();
        if asked {
          page.ReceiveEarlier(store, true);
        }
    }
  }

  ghost predicate CanRun(w: World, session: int, limit: nat, acts: seq<Act>)
    decreases |acts|
  {
    acts != [] ==> CanAct(w, acts[0]) && CanRun(Act1(w, session, limit, acts[0]), session, limit, acts[1..])
  }

  function Run(w: World, session: int, limit: nat, acts: seq<Act>): World
    decreases |acts|
  {
    if acts == [] then w else Run(Act1(w, session, limit, acts[0]), session, limit, acts[1..])
  }

  function Loads(acts: seq<Act>): nat {
    if acts == [] then 0 else Loads(acts[1..]) + if acts[0].LoadMore? then 1 else 0
  }

  ghost predicate Live(r: Row, rows: seq<Row>, session: int) {
    r in rows && r.session == session && !r.deleted
  }

  /** The row is still to be loaded. */
  ghost predicate Awaits(v: View, r: Row) {
    v.hasMore && v.messages != [] && r.id < v.messages[0].id
  }

  ghost predicate TableOk(rows: seq<Row>, nextId: int) {
    Numbered(rows) && Chronological(rows) && nextId > 0 && forall r :: r in rows ==> r.id < nextId
  }

  /** What holds in the middle of a run that opened on the table `first`, whose next id was `next`. */
  ghost predicate Inv(w: World, first: seq<Row>, next: int, session: int) {
    && TableOk(w.rows, w.nextId) && next <= w.nextId
    && Ascending(w.view.messages)
    && (forall r :: r in w.view.messages ==> Live(r, first, session) && 0 < r.id < next)
    && (forall r :: Live(r, w.rows, session) && r.id < next ==>
          Live(r, first, session) && (r in w.view.messages || Awaits(w.view, r)))
    && (w.view.messages == [] ==> !w.view.hasMore)
  }

  /** A page is in order, holds wanted rows only, and misses only older ones, and those only when it is full. */
  lemma PageFacts(rows: seq<Row>, session: int, limit: nat, before: int)
    requires Numbered(rows) && Chronological(rows) && limit > 0
    ensures var page := Page(rows, session, limit, before);
            && Ascending(page)
            && (forall r :: r in page ==> r in rows && Wanted(r, session, before))
            && (forall r :: r in rows && Wanted(r, session, before) ==>
                  r in page || (|page| >= limit && page != [] && r.id < page[0].id))
  {
    var all, page := Selected(rows, session, before), Page(rows, session, limit, before);
    PageIsSuffix(rows, session, limit, before);
    SelectedIs(rows, session, before);
    SelectedAscending(rows, session, before);
    forall r | r in all && r !in page
      ensures |page| >= limit && page != [] && r.id < page[0].id
    {
      var k :| 0 <= k < |all| && all[k] == r;
      assert forall m :: 0 <= m < |page| ==> page[m] == all[|all| - |page| + m];
    }
  }

  lemma OpenedInv(first: seq<Row>, next: int, session: int, limit: nat)
    requires TableOk(first, next) && limit > 0
    ensures Inv(Start(first, next, session, limit), first, next, session)
  {
    PageFacts(first, session, limit, 0);
  }

  lemma AscendingConcat(a: seq<Row>, b: seq<Row>)
    requires Ascending(a) && Ascending(b) && forall x, y :: x in a && y in b ==> x.id < y.id
    ensures Ascending(a + b)
  {
  }

  lemma LoadKeepsInv(w: World, first: seq<Row>, next: int, session: int, limit: nat)
    requires Inv(w, first, next, session) && limit > 0
    ensures Inv(Act1(w, session, limit, LoadMore), first, next, session)
  {
    var v := w.view;
    if v.messages != [] {
      var oldest := v.messages[0];
      assert oldest in v.messages;
      var page := Page(w.rows, session, limit, oldest.id);
      PageFacts(w.rows, session, limit, oldest.id);
      OldestBelongs(first, session, v.messages);
      forall r | r in page
        ensures Live(r, w.rows, session) && r !in v.messages
      {
      }
      AscendingConcat(page, v.messages);
    }
  }

  lemma OldestBelongs(first: seq<Row>, session: int, messages: seq<Row>)
    requires messages != [] && Ascending(messages)
    ensures forall r :: r in messages ==> messages[0].id <= r.id
  {
  }

  lemma SaveKeepsInv(w: World, first: seq<Row>, next: int, session: int, limit: nat, row: Row)
    requires Inv(w, first, next, session) && CanAct(w, Save(row))
    ensures Inv(Act1(w, session, limit, Save(row)), first, next, session)
  {
  }

  lemma DeleteKeepsInv(w: World, first: seq<Row>, next: int, session: int, limit: nat, id: int)
    requires Inv(w, first, next, session)
    ensures Inv(Act1(w, session, limit, Delete(id)), first, next, session)
  {
  }

  lemma {:induction false} RunKeepsInv(w: World, first: seq<Row>, next: int, session: int, limit: nat, acts: seq<Act>)
    requires Inv(w, first, next, session) && limit > 0 && CanRun(w, session, limit, acts)
    ensures Inv(Run(w, session, limit, acts), first, next, session)
    decreases |acts|
  {
    if acts != [] {
      match acts[0] {
        case Save(row) => SaveKeepsInv(w, first, next, session, limit, row);
        case Delete(id) => DeleteKeepsInv(w, first, next, session, limit, id);
        case LoadMore => LoadKeepsInv(w, first, next, session, limit);
      }
      RunKeepsInv(Act1(w, session, limit, acts[0]), first, next, session, limit, acts[1..]);
    }
  }

  // ---- Completeness ----

  function Start(first: seq<Row>, next: int, session: int, limit: nat): World {
    World(first, next, Opened(first, session, limit))
  }

  /** Once there is no more to load, the list is in order without duplicates, shows only messages that were
      undeleted when the page opened, and shows every one of them that is still undeleted, whatever was saved
      or deleted between the pages. */
  lemma LoadedIsComplete(first: seq<Row>, next: int, session: int, limit: nat, acts: seq<Act>, end: World)
    requires TableOk(first, next) && limit > 0
    requires CanRun(Start(first, next, session, limit), session, limit, acts)
    requires end == Run(Start(first, next, session, limit), session, limit, acts)
    ensures Ascending(end.view.messages)
    ensures forall r :: r in end.view.messages ==> Live(r, first, session)
    ensures !end.view.hasMore ==> forall r :: Live(r, first, session) && r in end.rows ==> r in end.view.messages
  {
    OpenedInv(first, next, session, limit);
    RunKeepsInv(Start(first, next, session, limit), first, next, session, limit, acts);
  }

  predicate NoDeletion(acts: seq<Act>) {
    forall a :: a in acts ==> !a.Delete?
  }

  lemma {:induction false} SavesOnlyExtend(w: World, session: int, limit: nat, acts: seq<Act>)
    requires NoDeletion(acts)
    ensures w.rows <= Run(w, session, limit, acts).rows
    decreases |acts|
  {
    if acts != [] {
      assert acts[0] in acts;
      SavesOnlyExtend(Act1(w, session, limit, acts[0]), session, limit, acts[1..]);
    }
  }

  /** With no deletion on the way, it shows exactly the session's undeleted messages of the moment it opened. */
  lemma LoadedIsExact(first: seq<Row>, next: int, session: int, limit: nat, acts: seq<Act>, end: World)
    requires TableOk(first, next) && limit > 0 && NoDeletion(acts)
    requires CanRun(Start(first, next, session, limit), session, limit, acts)
    requires end == Run(Start(first, next, session, limit), session, limit, acts) && !end.view.hasMore
    ensures end.view.messages == Selected(first, session, 0)
  {
    LoadedIsComplete(first, next, session, limit, acts, end);
    SavesOnlyExtend(Start(first, next, session, limit), session, limit, acts);
    SelectedIs(first, session, 0);
    SelectedAscending(first, session, 0);
    SameAscending(end.view.messages, Selected(first, session, 0));
  }

  // ---- Termination ----

  lemma {:induction false} AscendingWithin(a: seq<Row>, b: seq<Row>)
    requires Ascending(a) && forall r :: r in a ==> r in b
    ensures |a| <= |b|
  {
    if a != [] {
      var last := a[|a| - 1];
      assert last in a;
      var k :| 0 <= k < |b| && b[k] == last;
      var b' := b[..k] + b[k + 1..];
      forall r | r in a[..|a| - 1]
        ensures r in b'
      {
        assert r in a && r.id < last.id;
        var m :| 0 <= m < |b| && b[m] == r;
        assert b'[if m < k then m else m - 1] == r;
      }
      AscendingWithin(a[..|a| - 1], b');
    }
  }

  lemma StepBringsFullPage(w: World, session: int, limit: nat, a: Act)
    requires w.view.hasMore ==> w.view.messages != []
    ensures var v' := Act1(w, session, limit, a).view;
            v'.hasMore ==> w.view.hasMore && v'.messages != []
                           && |v'.messages| >= |w.view.messages| + if a.LoadMore? then limit else 0
  {
  }

  lemma OneMore(limit: nat, n: nat)
    ensures limit * (n + 1) == limit * n + limit
  {
  }

  /** While there is more to load, every load has brought a full page. */
  lemma {:induction false} FullPages(w: World, session: int, limit: nat, acts: seq<Act>)
    requires w.view.hasMore ==> w.view.messages != []
    ensures var v' := Run(w, session, limit, acts).view;
            v'.hasMore ==> w.view.hasMore && |v'.messages| >= |w.view.messages| + limit * Loads(acts)
    decreases |acts|
  {
    if acts != [] {
      StepBringsFullPage(w, session, limit, acts[0]);
      FullPages(Act1(w, session, limit, acts[0]), session, limit, acts[1..]);
      OneMore(limit, Loads(acts[1..]));
    }
  }

  /** The loads come to an end: once they and the opening page could have covered the session's undeleted
      messages, there is no more to load. */
  lemma LoadsTerminate(first: seq<Row>, next: int, session: int, limit: nat, acts: seq<Act>, end: World)
    requires TableOk(first, next) && limit > 0
    requires CanRun(Start(first, next, session, limit), session, limit, acts)
    requires end == Run(Start(first, next, session, limit), session, limit, acts)
    requires limit * (Loads(acts) + 1) > |Selected(first, session, 0)|
    ensures !end.view.hasMore
  {
    FullPages(Start(first, next, session, limit), session, limit, acts);
    LoadedIsComplete(first, next, session, limit, acts, end);
    SelectedIs(first, session, 0);
    AscendingWithin(end.view.messages, Selected(first, session, 0));
    OneMore(limit, Loads(acts));
  }

  /** Loading long enough, with saves but no deletion in between, shows exactly the session's undeleted messages
      of the moment the page opened, in order. */
  lemma PagingExact(first: seq<Row>, next: int, session: int, limit: nat, acts: seq<Act>, end: World)
    requires TableOk(first, next) && limit > 0 && NoDeletion(acts)
    requires CanRun(Start(first, next, session, limit), session, limit, acts)
    requires end == Run(Start(first, next, session, limit), session, limit, acts)
    requires limit * (Loads(acts) + 1) > |Selected(first, session, 0)|
    ensures end.view.messages == Selected(first, session, 0)
    ensures Ascending(end.view.messages)
    ensures forall r :: r in end.view.messages <==> r in first && r.session == session && !r.deleted
  {
    SelectedIs(first, session, 0);
    SelectedAscending(first, session, 0);
    LoadsTerminate(first, next, session, limit, acts, end);
    LoadedIsExact(first, next, session, limit, acts, end);
  }

  // ---- Exactly when paging is complete ----

  function Loading(n: nat): seq<Act> {
    if n == 0 then [] else [LoadMore] + Loading(n - 1)
  }

  lemma {:induction false} LoadingIsQuiet(w: World, session: int, limit: nat, n: nat)
    ensures NoDeletion(Loading(n)) && Loads(Loading(n)) == n && CanRun(w, session, limit, Loading(n))
    decreases n
  {
    if n > 0 {
      LoadingIsQuiet(Act1(w, session, limit, LoadMore), session, limit, n - 1);
      assert Loading(n)[1..] == Loading(n - 1);
    }
  }

  /** What a page that opens on a table nobody touches shows after n loads. */
  function Loaded(rows: seq<Row>, session: int, limit: nat, n: nat): seq<Row> {
    Run(Start(rows, 0, session, limit), session, limit, Loading(n)).view.messages
  }

  /** For every page size, loading to the end shows the session's undeleted messages in the order of the query. */
  ghost predicate PagingComplete(rows: seq<Row>, session: int) {
    forall limit: nat | limit > 0 ::
      Loaded(rows, session, limit, |rows|) == Reversed(NewestFirst(Selected(rows, session, 0)))
  }

  lemma {:induction false} SelectedTwice(rows: seq<Row>, session: int, before: int)
    ensures Selected(Selected(rows, session, 0), session, before) == Selected(rows, session, before)
  {
    if rows != [] {
      var init, last := rows[..|rows| - 1], rows[|rows| - 1];
      SelectedTwice(init, session, before);
      var sel := Selected(rows, session, 0);
      if Wanted(last, session, 0) {
        assert sel[..|sel| - 1] == Selected(init, session, 0);
      } else {
        assert sel == Selected(init, session, 0);
      }
    }
  }

  lemma EarlierOnSelected(rows: seq<Row>, session: int, limit: nat, v: View)
    ensures Earlier(Selected(rows, session, 0), session, limit, v) == Earlier(rows, session, limit, v)
  {
    if v.messages != [] {
      SelectedTwice(rows, session, v.messages[0].id);
    }
  }

  /** Only the selected rows matter to a quiet run. */
  lemma {:induction false} QuietRunOnSelected(w: World, session: int, limit: nat, next: int, n: nat)
    ensures Run(w, session, limit, Loading(n)).view ==
            Run(World(Selected(w.rows, session, 0), next, w.view), session, limit, Loading(n)).view
    decreases n
  {
    if n > 0 {
      EarlierOnSelected(w.rows, session, limit, w.view);
      assert Loading(n)[0] == LoadMore && Loading(n)[1..] == Loading(n - 1);
      QuietRunOnSelected(Act1(w, session, limit, LoadMore), session, limit, next, n - 1);
    }
  }

  lemma {:induction false} Covers(limit: nat, n: nat)
    requires limit > 0
    ensures limit * (n + 1) > n
  {
  }

  lemma SelectedTable(rows: seq<Row>, session: int) returns (next: int)
    requires Numbered(rows) && Chronological(Selected(rows, session, 0))
    ensures TableOk(Selected(rows, session, 0), next) && |Selected(rows, session, 0)| <= |rows|
  {
    var sel := Selected(rows, session, 0);
    SelectedIs(rows, session, 0);
    SelectedAscending(rows, session, 0);
    AscendingWithin(sel, rows);
    next := if sel == [] then 1 else sel[|sel| - 1].id + 1;
    forall r | r in sel
      ensures r.id < next
    {
      var k :| 0 <= k < |sel| && sel[k] == r;
    }
  }

  lemma OpenedOnSelected(rows: seq<Row>, session: int, limit: nat)
    ensures Opened(Selected(rows, session, 0), session, limit) == Opened(rows, session, limit)
  {
    SelectedTwice(rows, session, 0);
  }

  lemma QuietRunExact(sel: seq<Row>, next: int, session: int, limit: nat, n: nat)
    requires TableOk(sel, next) && limit > 0 && |sel| <= n && Selected(sel, session, 0) == sel
    ensures Run(Start(sel, next, session, limit), session, limit, Loading(n)).view.messages == sel
  {
    hide *;
    var w := Start(sel, next, session, limit);
    LoadingIsQuiet(w, session, limit, n);
    assert limit * (n + 1) > |sel| by {
      Covers(limit, n);
    }
    PagingExact(sel, next, session, limit, Loading(n), Run(w, session, limit, Loading(n)));
  }

  lemma ChronologicalSuffices(rows: seq<Row>, session: int, limit: nat)
    requires Numbered(rows) && Chronological(Selected(rows, session, 0)) && limit > 0
    ensures Loaded(rows, session, limit, |rows|) == Reversed(NewestFirst(Selected(rows, session, 0)))
  {
    var sel := Selected(rows, session, 0);
    var next := SelectedTable(rows, session);
    SelectedTwice(rows, session, 0);
    QuietRunExact(sel, next, session, limit, |rows|);
    OpenedOnSelected(rows, session, limit);
    QuietRunOnSelected(Start(rows, 0, session, limit), session, limit, next, |rows|);
    SelectedAscending(rows, session, 0);
    NewestFirstIsReverse(sel);
  }

  lemma SinglePage(rows: seq<Row>, session: int, before: int)
    ensures var page := Page(rows, session, 1, before);
            |page| <= 1 && forall r :: r in page ==> r in rows && Wanted(r, session, before)
  {
    SelectedIs(rows, session, before);
    SortedSameRows(Selected(rows, session, before));
  }

  lemma SingleLoadAscends(rows: seq<Row>, session: int, v: View)
    requires Ascending(v.messages) && (forall r :: r in v.messages ==> r.id > 0)
    requires forall r :: r in rows ==> r.id > 0
    ensures var v' := Earlier(rows, session, 1, v);
            Ascending(v'.messages) && forall r :: r in v'.messages ==> r.id > 0
  {
    if v.messages != [] {
      var oldest := v.messages[0];
      assert oldest in v.messages;
      SinglePage(rows, session, oldest.id);
      hide Page;
      AscendingConcat(Page(rows, session, 1, oldest.id), v.messages);
    }
  }

  lemma LoadingStep(w: World, session: int, limit: nat, n: nat)
    requires n > 0
    ensures Run(w, session, limit, Loading(n)) == Run(Act1(w, session, limit, LoadMore), session, limit, Loading(n - 1))
  {
    assert Loading(n)[0] == LoadMore && Loading(n)[1..] == Loading(n - 1);
  }

  /** Single-message pages always come out in the order of their ids. */
  lemma {:induction false} SinglesAscend(w: World, session: int, n: nat)
    requires Ascending(w.view.messages) && forall r :: r in w.view.messages ==> r.id > 0
    requires forall r :: r in w.rows ==> r.id > 0
    ensures Ascending(Run(w, session, 1, Loading(n)).view.messages)
    decreases n
  {
    if n > 0 {
      hide Run, Loading, Ascending, Earlier;
      LoadingStep(w, session, 1, n);
      SingleLoadAscends(w.rows, session, w.view);
      SinglesAscend(Act1(w, session, 1, LoadMore), session, n - 1);
    }
  }

  lemma ChronologicalNeeded(rows: seq<Row>, session: int)
    requires Numbered(rows) && PagingComplete(rows, session)
    ensures Chronological(Selected(rows, session, 0))
  {
    var sel := Selected(rows, session, 0);
    var shown := Loaded(rows, session, 1, |rows|);
    SinglePage(rows, session, 0);
    SinglesAscend(Start(rows, 0, session, 1), session, |rows|);
    SelectedAscending(rows, session, 0);
    SortedSameRows(sel);
    SameElements(NewestFirst(sel));
    SameAscending(shown, sel);
    assert sel == Reversed(NewestFirst(sel));
  }

  lemma SameElements(rows: seq<Row>)
    ensures forall r :: r in Reversed(rows) <==> r in rows
  {
    forall r | r in rows
      ensures r in Reversed(rows)
    {
      var k :| 0 <= k < |rows| && rows[k] == r;
      assert Reversed(rows)[|rows| - 1 - k] == r;
    }
  }

  /** The cursor is an id and the order is by time: paging is complete for every page size exactly when the
      session's undeleted messages were created in the order of their ids. */
  lemma PagingCompleteExactlyIfChronological(rows: seq<Row>, session: int)
    requires Numbered(rows)
    ensures PagingComplete(rows, session) <==> Chronological(Selected(rows, session, 0))
  {
    if PagingComplete(rows, session) {
      ChronologicalNeeded(rows, session);
    }
    if Chronological(Selected(rows, session, 0)) {
      forall limit: nat | limit > 0
        ensures Loaded(rows, session, limit, |rows|) == Reversed(NewestFirst(Selected(rows, session, 0)))
      {
        ChronologicalSuffices(rows, session, limit);
      }
    }
  }
}
