/** Coherence of the segment cache with the disk it speeds up, over every interleaving of disk changes, the
    watcher's event queue, the event loop's split loads, space eviction and purges (internal/hls/cache.go,
    internal/hls/handler.go).

    A disk change and its event enter the system together. The event loop is one goroutine, so at most one
    load is under way; its read, its stat and its commit are separate steps. */
module CacheCoherence {
  import opened SegmentCaching
  import opened Wrappers

  /** A load under way, by how far it has come. */
  datatype Load = Idle | Opening(path: string) | HasData(path: string, data: seq<bv8>) | HasFile(path: string, file: File)

  datatype World = World(disk: Files, queue: seq<Event>, entries: Files, load: Load)

  datatype Step =
    | Put(path: string, file: File)        // a file is created or written
    | Delete(path: string)
    | Move(source: string, target: string) // FFmpeg finishing a temporary file
    | TakeEvent
    | ReadFile
    | StatFile
    | Commit
    | Purge
    | Preload(path: string)                // the start-up walk meets a file

  ghost predicate Next(w: World, s: Step, w': World, maxSize: int) {
    match s
    case Put(p, f) =>
      w' == w.(disk := w.disk[p := f], queue := w.queue + [Event(p, if p in w.disk then Write else Create)])
    case Delete(p) =>
      p in w.disk && w' == w.(disk := w.disk - {p}, queue := w.queue + [Event(p, Remove)])
    case Move(p, q) =>
      p in w.disk && p != q &&
      w' == w.(disk := (w.disk - {p})[q := w.disk[p]], queue := w.queue + [Event(p, Rename), Event(q, Create)])
    case TakeEvent =>
      w.load.Idle? && w.queue != [] && w' == Taken(w)
    case ReadFile =>
      w.load.Opening? &&
      w' == w.(load := if w.load.path in w.disk then HasData(w.load.path, w.disk[w.load.path].data) else Idle)
    case StatFile =>
      w.load.HasData? &&
      w' == w.(load := if w.load.path in w.disk
                       then HasFile(w.load.path, File(w.load.data, w.disk[w.load.path].modTime)) else Idle)
    case Commit =>
      w.load.HasFile? && w' == w.(load := Idle, entries := w'.entries)
      && Stored(w.entries, w'.entries, w.load.path, w.load.file, maxSize)
    case Purge =>
      w' == w.(entries := map[])
    case Preload(p) =>
      w.load.Idle? && p in w.disk && IsHLSFile(p) && w' == w.(load := Opening(p))
  }

  /** The event loop's reaction to the event at the head of the queue. */
  function Taken(w: World): World
    requires w.queue != []
  {
    var ev, rest := w.queue[0], w.(queue := w.queue[1..]);
    if !IsHLSFile(ev.path) then rest
    else if ev.op.Create? || ev.op.Write? then rest.(load := Opening(ev.path))
    else rest.(entries := w.entries - {ev.path})
  }

  ghost predicate Init(w: World) {
    w.queue == [] && w.entries == map[] && w.load == Idle
  }

  ghost predicate Behaviour(ws: seq<World>, steps: seq<Step>, maxSize: int) {
    && |ws| == |steps| + 1 && Init(ws[0])
    && forall i :: 0 <= i < |steps| ==> Next(ws[i], steps[i], ws[i + 1], maxSize)
  }

  // ---- The invariant ----

  predicate Appears(ev: Event) { ev.op.Create? || ev.op.Write? }

  predicate Pending(queue: seq<Event>, p: string) {
    exists ev :: ev in queue && ev.path == p
  }

  /** The last pending event of `p`, when there is one, tells whether `p` is on disk. */
  predicate TellsPresence(queue: seq<Event>, disk: Files, p: string) {
    queue == [] ||
    if queue[|queue| - 1].path == p then Appears(queue[|queue| - 1]) <==> p in disk
    else TellsPresence(queue[..|queue| - 1], disk, p)
  }

  /** What the load under way is about to store is what the disk holds, or an event will correct it. */
  ghost predicate LoadSound(w: World) {
    match w.load
    case Idle => true
    case Opening(p) => p in w.disk || Pending(w.queue, p)
    case HasData(p, d) => (p in w.disk && w.disk[p].data == d) || Pending(w.queue, p)
    case HasFile(p, f) => (p in w.disk && w.disk[p] == f) || Pending(w.queue, p)
  }

  ghost predicate Differs(w: World, p: string) {
    p in w.entries && (p !in w.disk || w.entries[p] != w.disk[p])
  }

  predicate Loading(w: World, p: string) { !w.load.Idle? && w.load.path == p }

  ghost predicate Inv(w: World) {
    && (forall p :: TellsPresence(w.queue, w.disk, p))
    && LoadSound(w)
    && (forall p :: Differs(w, p) ==> Pending(w.queue, p) || Loading(w, p))
    && (forall p :: p in w.entries ==> IsHLSFile(p))
    && (!w.load.Idle? ==> IsHLSFile(w.load.path))
  }

  lemma PendingAppend(queue: seq<Event>, ev: Event)
    ensures forall p :: Pending(queue + [ev], p) <==> Pending(queue, p) || ev.path == p
  {
  }

  /** A change of one path's presence, with the event that announces it. */
  lemma PresenceAnnounced(queue: seq<Event>, disk: Files, disk': Files, ev: Event)
    requires forall p :: TellsPresence(queue, disk, p)
    requires forall p :: p != ev.path ==> (p in disk <==> p in disk')
    requires Appears(ev) <==> ev.path in disk'
    ensures forall p :: TellsPresence(queue + [ev], disk', p)
  {
    forall p
      ensures TellsPresence(queue + [ev], disk', p)
    {
      assert (queue + [ev])[..|queue|] == queue;
      if p != ev.path {
        SamePresence(queue, disk, disk', p);
      }
    }
  }

  lemma {:induction false} SamePresence(queue: seq<Event>, disk: Files, disk': Files, p: string)
    requires TellsPresence(queue, disk, p) && (p in disk <==> p in disk')
    ensures TellsPresence(queue, disk', p)
  {
    if queue != [] && queue[|queue| - 1].path != p {
      SamePresence(queue[..|queue| - 1], disk, disk', p);
    }
  }

  lemma {:induction false} PresenceWithoutHead(queue: seq<Event>, disk: Files, p: string)
    requires queue != [] && TellsPresence(queue, disk, p)
    ensures TellsPresence(queue[1..], disk, p)
    ensures queue[0].path == p && !Pending(queue[1..], p) ==> (Appears(queue[0]) <==> p in disk)
  {
    if |queue| > 1 {
      var init, rest := queue[..|queue| - 1], queue[1..];
      assert rest[..|rest| - 1] == init[1..] && rest[|rest| - 1] == queue[|queue| - 1] && rest[|rest| - 1] in rest;
      if queue[|queue| - 1].path != p {
        PresenceWithoutHead(init, disk, p);
        assert forall ev :: ev in init[1..] ==> ev in rest;
      }
    }
  }

  /** One file appears, changes or vanishes, and says so. */
  lemma ChangeKeepsInv(w: World, w': World, ev: Event)
    requires Inv(w) && w'.entries == w.entries && w'.load == w.load && w'.queue == w.queue + [ev]
    requires forall p :: p != ev.path ==> (p in w.disk <==> p in w'.disk) && (p in w.disk ==> w'.disk[p] == w.disk[p])
    requires Appears(ev) <==> ev.path in w'.disk
    ensures Inv(w')
  {
    PendingAppend(w.queue, ev);
    PresenceAnnounced(w.queue, w.disk, w'.disk, ev);
    forall p | Differs(w', p)
      ensures Pending(w'.queue, p) || Loading(w', p)
    {
      assert p != ev.path ==> Differs(w, p);
    }
  }

  lemma TakeKeepsInv(w: World)
    requires Inv(w) && w.queue != [] && w.load.Idle?
    ensures Inv(Taken(w))
  {
    var ev, w' := w.queue[0], Taken(w);
    forall p
      ensures TellsPresence(w'.queue, w.disk, p)
      ensures ev.path == p && !Pending(w'.queue, p) ==> (Appears(ev) <==> p in w.disk)
      ensures ev.path != p ==> (Pending(w'.queue, p) <==> Pending(w.queue, p))
    {
      PresenceWithoutHead(w.queue, w.disk, p);
      assert forall x :: x in w.queue <==> x == ev || x in w'.queue;
    }
    forall p | Differs(w', p)
      ensures Pending(w'.queue, p) || Loading(w', p)
    {
      assert Differs(w, p);
    }
  }

  lemma CommitKeepsInv(w: World, w': World, maxSize: int)
    requires Inv(w) && Next(w, Commit, w', maxSize)
    ensures Inv(w')
  {
  }

  lemma StepKeepsInv(w: World, s: Step, w': World, maxSize: int)
    requires Inv(w) && Next(w, s, w', maxSize)
    ensures Inv(w')
  {
    match s
    case Put(p, f) => ChangeKeepsInv(w, w', Event(p, if p in w.disk then Write else Create));
    case Delete(p) => ChangeKeepsInv(w, w', Event(p, Remove));
    case Move(p, q) =>
      var mid := w.(disk := w.disk - {p}, queue := w.queue + [Event(p, Rename)]);
      ChangeKeepsInv(w, mid, Event(p, Rename));
      assert w.queue + [Event(p, Rename), Event(q, Create)] == mid.queue + [Event(q, Create)];
      ChangeKeepsInv(mid, w', Event(q, Create));
    case TakeEvent => TakeKeepsInv(w);
    case Commit => CommitKeepsInv(w, w', maxSize);
    case Purge =>
    case _ =>
      forall p | Differs(w', p)
        ensures Pending(w'.queue, p) || Loading(w', p)
      {
        assert Differs(w, p);
      }
  }

  lemma {:induction false} InvAlways(ws: seq<World>, steps: seq<Step>, maxSize: int, i: nat)
    requires Behaviour(ws, steps, maxSize) && i <= |steps|
    ensures Inv(ws[i])
  {
    if i > 0 {
      InvAlways(ws, steps, maxSize, i - 1);
      StepKeepsInv(ws[i - 1], steps[i - 1], ws[i], maxSize);
    }
  }

  // ---- What viewers are served ----

  /** Get first, then the file on disk, then not found. */
  function Served(w: World, p: string): Option<File> {
    if p in w.entries then Some(w.entries[p]) else FromDisk(w, p)
  }

  function FromDisk(w: World, p: string): Option<File> {
    if p in w.disk then Some(w.disk[p]) else None
  }

  /** The handler's lookup. On a miss the file is stat-ed and then opened, at two moments. */
  method ServeHLS(cache: SegmentCache, path: string, atStat: Files, atOpen: Files) returns (r: Option<File>)
    ensures r == if path in cache.entries then Some(cache.entries[path])
                 else if path in atStat && path in atOpen then Some(File(atOpen[path].data, atStat[path].modTime))
                 else None
    ensures forall w: World :: w.entries == cache.entries && w.disk == atStat == atOpen ==> r == Served(w, path)
  {
    var hit := cache.Get(path);
    if hit.Some? {
      return hit;
    }
    if path !in atStat {
      return None;
    }
    var modTime := atStat[path].modTime;
    if path !in atOpen {
      return None;
    }
    return Some(File(atOpen[path].data, modTime));
  }

  /** In every reachable state, a viewer is served something else than the disk's file only while an event for
      that very path is queued, the last one telling whether the path is on disk, or its load is under way. */
  lemma StaleOnlyWhileAnnounced(ws: seq<World>, steps: seq<Step>, maxSize: int, i: nat, p: string)
    requires Behaviour(ws, steps, maxSize) && i <= |steps|
    ensures Served(ws[i], p) != FromDisk(ws[i], p) ==> Pending(ws[i].queue, p) || Loading(ws[i], p)
    ensures TellsPresence(ws[i].queue, ws[i].disk, p)
  {
    InvAlways(ws, steps, maxSize, i);
    assert Served(ws[i], p) != FromDisk(ws[i], p) ==> Differs(ws[i], p);
  }

  /** When the queue is drained and no load is under way, every path is served exactly as the disk would. */
  lemma DrainedIsCoherent(ws: seq<World>, steps: seq<Step>, maxSize: int, i: nat, p: string)
    requires Behaviour(ws, steps, maxSize) && i <= |steps|
    requires ws[i].queue == [] && ws[i].load.Idle?
    ensures Served(ws[i], p) == FromDisk(ws[i], p)
  {
    StaleOnlyWhileAnnounced(ws, steps, maxSize, i, p);
  }

  /** A load that ends without interference leaves its path right, even if it was purged or evicted meanwhile. */
  lemma UndisturbedLoadIsRight(w: World, w': World, maxSize: int)
    requires Inv(w) && Next(w, Commit, w', maxSize) && !Pending(w.queue, w.load.path)
    ensures Served(w', w.load.path) == FromDisk(w', w.load.path)
  {
  }

  // ---- Draining ----

  predicate LoopStep(s: Step) { s.TakeEvent? || s.ReadFile? || s.StatFile? || s.Commit? }

  /** How many steps the event loop has before it at most. */
  function Backlog(w: World): nat {
    4 * |w.queue| + match w.load
                    case Idle => 0
                    case Opening(_) => 3
                    case HasData(_, _) => 2
                    case HasFile(_, _) => 1
  }

  /** The event loop is never stuck: with an event queued or a load under way, it has a next step. */
  lemma LoopNeverStuck(w: World, maxSize: int) returns (s: Step, w': World)
    requires w.queue != [] || !w.load.Idle?
    ensures LoopStep(s) && Next(w, s, w', maxSize)
  {
    match w.load
    case Idle =>
      s, w' := TakeEvent, Taken(w);
    case Opening(p) =>
      s, w' := ReadFile, w.(load := if p in w.disk then HasData(p, w.disk[p].data) else Idle);
    case HasData(p, d) =>
      s, w' := StatFile, w.(load := if p in w.disk then HasFile(p, File(d, w.disk[p].modTime)) else Idle);
    case HasFile(p, f) =>
      var after := EvictionPossible(w.entries[p := f], maxSize);
      s, w' := Commit, w.(load := Idle, entries := after);
  }

  /** A disk left alone is caught up with: the event loop takes no more steps than its backlog, and once it
      has nothing left to do, every path is served as the disk holds it. */
  lemma {:induction false} QuietDiskIsCaughtUp(ws: seq<World>, steps: seq<Step>, maxSize: int, p: string)
    requires |ws| == |steps| + 1 && Inv(ws[0])
    requires forall i :: 0 <= i < |steps| ==> LoopStep(steps[i]) && Next(ws[i], steps[i], ws[i + 1], maxSize)
    ensures |steps| <= Backlog(ws[0]) <= 4 * |ws[0].queue| + 3
    ensures var end := ws[|steps|];
            end.queue == [] && end.load.Idle? ==> Served(end, p) == FromDisk(ws[0], p)
    decreases |steps|
  {
    if steps == [] {
      assert !Differs(ws[0], p) || Pending(ws[0].queue, p) || Loading(ws[0], p);
    } else {
      StepKeepsInv(ws[0], steps[0], ws[1], maxSize);
      QuietDiskIsCaughtUp(ws[1..], steps[1..], maxSize, p);
    }
  }

  // ---- The cache's methods are the loop's steps ----

  ghost predicate Continues(ws: seq<World>, steps: seq<Step>, maxSize: int) {
    |ws| == |steps| + 1 && forall i :: 0 <= i < |steps| ==> Next(ws[i], steps[i], ws[i + 1], maxSize)
  }

  /** The loop alone comes from w to w'. */
  ghost predicate LoopReaches(w: World, w': World, maxSize: int) {
    exists ws, steps :: Continues(ws, steps, maxSize) && ws[0] == w && ws[|steps|] == w' &&
      forall s :: s in steps ==> LoopStep(s)
  }

  lemma OneLoopStep(w: World, s: Step, w': World, w'': World, maxSize: int)
    requires LoopStep(s) && Next(w, s, w', maxSize) && LoopReaches(w', w'', maxSize)
    ensures LoopReaches(w, w'', maxSize)
  {
    var ws, steps :| Continues(ws, steps, maxSize) && ws[0] == w' && ws[|steps|] == w'' && forall s :: s in steps ==> LoopStep(s);
    var ws', steps' := [w] + ws, [s] + steps;
    assert forall i :: 0 < i < |steps'| ==> steps'[i] == steps[i - 1] && ws'[i] == ws[i - 1] && ws'[i + 1] == ws[i];
    assert Continues(ws', steps', maxSize);
    assert ws'[0] == w && ws'[|steps'|] == w'';
  }

  lemma NoLoopStep(w: World, maxSize: int)
    ensures LoopReaches(w, w, maxSize)
  {
    var steps: seq<Step> := [];
    assert Continues([w], steps, maxSize) && [w][|steps|] == w;
  }

  /** A load, once opened, ends in the table its commit leaves. */
  lemma LoadRuns(w: World, after: Files, maxSize: int)
    requires w.load.Opening?
    requires var p := w.load.path;
             if p in w.disk then Stored(w.entries, after, p, w.disk[p], maxSize) else after == w.entries
    ensures LoopReaches(w, w.(load := Idle, entries := after), maxSize)
  {
    var p, end := w.load.path, w.(load := Idle, entries := after);
    NoLoopStep(end, maxSize);
    if p in w.disk {
      var f := w.disk[p];
      var w1, w2 := w.(load := HasData(p, f.data)), w.(load := HasFile(p, f));
      OneLoopStep(w2, Commit, end, end, maxSize);
      OneLoopStep(w1, StatFile, w2, end, maxSize);
      OneLoopStep(w, ReadFile, w1, end, maxSize);
    } else {
      OneLoopStep(w, ReadFile, end, end, maxSize);
    }
  }

  /** Handling the next event, of a file on a disk at rest, is a run of the loop's steps. */
  method HandleNext(cache: SegmentCache, w: World)
    requires cache.Valid() && w.entries == cache.entries && w.load.Idle? && w.queue != []
    modifies cache
    ensures cache.Valid()
    ensures LoopReaches(w, World(w.disk, w.queue[1..], cache.entries, Idle), cache.maxSize)
  {
    var ev, rest := w.queue[0], w.queue[1..];
    cache.HandleEvent(ev, false, w.disk, w.disk);
    PathsByEnding(ev.path);
    ghost var end := World(w.disk, rest, cache.entries, Idle);
    NoLoopStep(end, cache.maxSize);
    if IsHLSFile(ev.path) && (ev.op.Create? || ev.op.Write?) {
      LoadRuns(Taken(w), cache.entries, cache.maxSize);
    }
    OneLoopStep(w, TakeEvent, Taken(w), end, cache.maxSize);
  }

  // ---- Files are cached ----

  /** The file is cached, or on its way there. */
  ghost predicate Coming(w: World, p: string) { p in w.entries || Loading(w, p) || Pending(w.queue, p) }

  lemma StepKeepsComing(w: World, s: Step, w': World, maxSize: int, p: string)
    requires Inv(w) && LoopStep(s) && Next(w, s, w', maxSize)
    requires p in w.disk && (EndsWith(p, ".m3u8") || (EndsWith(p, ".ts") && maxSize <= 0)) && Coming(w, p)
    ensures Coming(w', p)
  {
    PathsByEnding(p);
    if s.TakeEvent? {
      PresenceWithoutHead(w.queue, w.disk, p);
      assert forall x :: x in w.queue <==> x == w.queue[0] || x in w'.queue;
    }
  }

  /** On a disk left alone, every playlist with an event queued or a load under way is in the cache once the loop has
      nothing left to do, whatever the budget; without a budget, so is every segment. */
  lemma {:induction false} QuietDiskIsCached(ws: seq<World>, steps: seq<Step>, maxSize: int, p: string)
    requires Continues(ws, steps, maxSize) && Inv(ws[0]) && forall s :: s in steps ==> LoopStep(s)
    requires p in ws[0].disk && (EndsWith(p, ".m3u8") || (EndsWith(p, ".ts") && maxSize <= 0)) && Coming(ws[0], p)
    ensures var end := ws[|steps|];
            end.queue == [] && end.load.Idle? ==> p in end.entries && end.entries[p] == ws[0].disk[p]
    decreases |steps|
  {
    if steps == [] {
      assert !Differs(ws[0], p) || Pending(ws[0].queue, p) || Loading(ws[0], p);
    } else {
      StepKeepsInv(ws[0], steps[0], ws[1], maxSize);
      StepKeepsComing(ws[0], steps[0], ws[1], maxSize, p);
      QuietDiskIsCached(ws[1..], steps[1..], maxSize, p);
    }
  }

  // ---- Deleted files ----

  /** The step puts a file under `p` on disk. */
  predicate Brings(s: Step, p: string) { (s.Put? && s.path == p) || (s.Move? && s.target == p) }

  /** From here, though nothing puts `p` on disk again, a viewer may yet be served something under `p`. */
  ghost predicate Revivable(w: World, p: string, maxSize: int) {
    exists ws, steps ::
      Continues(ws, steps, maxSize) && ws[0] == w && (forall s :: s in steps ==> !Brings(s, p)) &&
      Served(ws[|steps|], p).Some?
  }

  /** A load of `p` is past its stat, and what it is about to store can stay: it is no segment, or fits the budget. */
  predicate Outlives(w: World, p: string, maxSize: int) {
    && w.load.HasFile? && w.load.path == p
    && (maxSize <= 0 || !IsSegment(p) || |w.load.file.data| <= maxSize)
  }

  /** Whatever is still there under `p` comes from the load `w` had under way. */
  ghost predicate OnlyFromLoad(w: World, w': World, p: string, maxSize: int) {
    && p !in w'.disk
    && (p in w'.entries ==> Outlives(w, p, maxSize) && w'.entries[p] == w.load.file)
    && (w'.load.HasFile? && w'.load.path == p ==> w'.load == w.load)
  }

  lemma FitsIfStored(before: Files, after: Files, p: string, f: File, maxSize: int)
    requires Stored(before, after, p, f, maxSize) && p in after
    ensures maxSize <= 0 || !IsSegment(p) || |f.data| <= maxSize
  {
    BytesWithout(after, p);
  }

  lemma StepOnlyFromLoad(w: World, w': World, s: Step, w'': World, p: string, maxSize: int)
    requires OnlyFromLoad(w, w', p, maxSize) && Next(w', s, w'', maxSize) && !Brings(s, p)
    ensures OnlyFromLoad(w, w'', p, maxSize)
  {
    if s.Commit? && w'.load.path == p && p in w''.entries {
      FitsIfStored(w'.entries, w''.entries, p, w'.load.file, maxSize);
    }
  }

  /** Once `p` is neither on disk nor cached, all that can still be served under it, until a file is put there again, is
      the file that a load past its stat is about to store. */
  lemma {:induction false} ServedOnlyFromLoad(ws: seq<World>, steps: seq<Step>, p: string, maxSize: int, i: nat)
    requires Continues(ws, steps, maxSize) && p !in ws[0].disk && p !in ws[0].entries
    requires (forall s :: s in steps ==> !Brings(s, p)) && i <= |steps|
    ensures OnlyFromLoad(ws[0], ws[i], p, maxSize)
    ensures Served(ws[i], p) != None ==> Outlives(ws[0], p, maxSize) && Served(ws[i], p) == Some(ws[0].load.file)
  {
    if i > 0 {
      ServedOnlyFromLoad(ws, steps, p, maxSize, i - 1);
      assert steps[i - 1] in steps;
      StepOnlyFromLoad(ws[0], ws[i - 1], steps[i - 1], ws[i], p, maxSize);
    }
  }

  /** Deleting a file and purging the cache keeps it from being served, until a file is put there again, if and only if
      no load of it is past its stat, or what that load stores exceeds the whole budget by itself. */
  lemma DeletedStaysGoneUnlessLoading(w: World, p: string, maxSize: int)
    requires p !in w.disk && p !in w.entries
    ensures Revivable(w, p, maxSize) <==> Outlives(w, p, maxSize)
  {
    if Revivable(w, p, maxSize) {
      var ws, steps :| Continues(ws, steps, maxSize) && ws[0] == w && (forall s :: s in steps ==> !Brings(s, p)) &&
        Served(ws[|steps|], p).Some?;
      ServedOnlyFromLoad(ws, steps, p, maxSize, |steps|);
    }
    if Outlives(w, p, maxSize) {
      var f := w.load.file;
      var purged := w.(entries := map[]);
      var stored := w.(entries := map[p := f], load := Idle);
      StoredAlone(p, f, maxSize);
      var ws, steps := [w, purged, stored], [Purge, Commit];
      assert Next(w, Purge, purged, maxSize) && Next(purged, Commit, stored, maxSize);
      assert Continues(ws, steps, maxSize);
      assert Served(ws[|steps|], p) == Some(f);
    }
  }

  lemma StoredAlone(p: string, f: File, maxSize: int)
    requires maxSize <= 0 || !IsSegment(p) || |f.data| <= maxSize
    ensures Stored(map[], map[p := f], p, f, maxSize)
  {
    var files: Files := map[p := f];
    BytesWithout(files, p);
    assert files - {p} == map[];
  }

  /** Such a load is reached: when a stream's files are deleted and the cache is purged while a load is about to commit,
      the deleted file is served until its own event is taken. */
  lemma PurgeOvertaken(w0: World, p: string, f: File) returns (ws: seq<World>, steps: seq<Step>)
    requires Init(w0) && w0.disk == map[] && IsHLSFile(p)
    ensures Behaviour(ws, steps, 0) && ws[0] == w0
    ensures steps == [Put(p, f), TakeEvent, ReadFile, StatFile, Delete(p), Purge, Commit]
    ensures Served(ws[7], p) == Some(f) && FromDisk(ws[7], p) == None
  {
    steps := [Put(p, f), TakeEvent, ReadFile, StatFile, Delete(p), Purge, Commit];
    var w1 := World(map[p := f], [Event(p, Create)], map[], Idle);
    var w2 := World(map[p := f], [], map[], Opening(p));
    var w3 := World(map[p := f], [], map[], HasData(p, f.data));
    var w4 := World(map[p := f], [], map[], HasFile(p, f));
    var w5 := World(map[], [Event(p, Remove)], map[], HasFile(p, f));
    var w7 := World(map[], [Event(p, Remove)], map[p := f], Idle);
    ws := [w0, w1, w2, w3, w4, w5, w5, w7];
    assert Next(w0, Put(p, f), w1, 0);
    assert Next(w1, TakeEvent, w2, 0);
    assert Next(w2, ReadFile, w3, 0);
    assert Next(w3, StatFile, w4, 0);
    assert Next(w4, Delete(p), w5, 0);
    assert Next(w5, Purge, w5, 0);
    assert Next(w5, Commit, w7, 0);
  }
}
