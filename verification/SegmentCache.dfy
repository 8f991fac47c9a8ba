/** The in-memory HLS segment cache (internal/hls/cache.go).

    Every method is one critical section of the source's mutex, or a sequence of them around disk reads.
    Ties in modification time make the eviction order a choice, so space eviction is specified by the
    relation `SpaceEvicted`, which every order the sort may produce satisfies. */
module SegmentCaching {
  import opened Wrappers

  datatype File = File(data: seq<bv8>, modTime: int)
  type Files = map<string, File>

  datatype Op = Create | Write | Remove | Rename
  datatype Event = Event(path: string, op: Op)

  predicate HasSuffix(s: string, suffix: string) {
    |suffix| <= |s| && s[|s| - |suffix|..] == suffix
  }

  predicate IsSegment(path: string) { HasSuffix(path, ".ts") }

  predicate IsHLSFile(path: string) { IsSegment(path) || HasSuffix(path, ".m3u8") }

  ghost predicate EndsWith(path: string, ending: string) { exists x: string :: path == x + ending }

  lemma SuffixIsEnding(path: string, ending: string)
    ensures HasSuffix(path, ending) <==> EndsWith(path, ending)
  {
    if HasSuffix(path, ending) {
      assert path == path[..|path| - |ending|] + ending;
    }
    if x: string :| path == x + ending {
      assert path[|x|..] == ending;
    }
  }

  /** Segments are the paths that end in ".ts", and playlists, which end in ".m3u8", are none. */
  lemma PathsByEnding(path: string)
    ensures IsSegment(path) <==> EndsWith(path, ".ts")
    ensures IsHLSFile(path) <==> EndsWith(path, ".ts") || EndsWith(path, ".m3u8")
    ensures !(EndsWith(path, ".ts") && EndsWith(path, ".m3u8"))
  {
    SuffixIsEnding(path, ".ts");
    SuffixIsEnding(path, ".m3u8");
    assert HasSuffix(path, ".ts") ==> path[|path| - 1] == 's';
    assert HasSuffix(path, ".m3u8") ==> path[|path| - 1] == '8';
  }

  // ---- Sizes ----

  /** The bytes held by a table of files. */
  ghost function Bytes(files: Files): nat
    decreases |files|
  {
    if files == map[] then 0
    else
      var p :| p in files;
      |files[p].data| + Bytes(files - {p})
  }

  lemma {:induction false} BytesWithout(files: Files, p: string)
    requires p in files
    ensures Bytes(files) == |files[p].data| + Bytes(files - {p})
    decreases |files|
  {
    var q :| q in files && Bytes(files) == |files[q].data| + Bytes(files - {q});
    if q != p {
      BytesWithout(files - {q}, p);
      BytesWithout(files - {p}, q);
      assert files - {q} - {p} == files - {p} - {q};
    }
  }

  lemma BytesWith(files: Files, p: string, f: File)
    ensures Bytes(files[p := f]) == Bytes(files - {p}) + |f.data|
  {
    BytesWithout(files[p := f], p);
    assert files[p := f] - {p} == files - {p};
  }

  // ---- Eviction for space ----

  ghost predicate Keeps(before: Files, after: Files) {
    forall p :: p in after ==> p in before && after[p] == before[p]
  }

  ghost predicate Dropped(before: Files, after: Files, p: string) {
    p in before && p !in after
  }

  /** The newest segment dropped; putting it back exceeds the budget. */
  ghost predicate IsLastDrop(before: Files, after: Files, last: string, maxSize: int) {
    && Dropped(before, after, last)
    && Bytes(after[last := before[last]]) > maxSize
    && (forall p :: Dropped(before, after, p) ==> before[p].modTime <= before[last].modTime)
  }

  /** Eviction removes segments only, oldest first, no further than needed, and stops only when the rest fits
      or no segment is left. */
  ghost predicate SpaceEvicted(before: Files, after: Files, maxSize: int) {
    && Keeps(before, after)
    && (maxSize <= 0 ==> after == before)
    && (forall p :: Dropped(before, after, p) ==> IsSegment(p))
    && (forall p, s :: Dropped(before, after, p) && s in after && IsSegment(s) ==> before[p].modTime <= before[s].modTime)
    && (after != before ==> exists last :: IsLastDrop(before, after, last, maxSize))
    && (maxSize > 0 ==> Bytes(after) <= maxSize || forall p :: p in after ==> !IsSegment(p))
  }

  /** The cache after a load of `f` under `path`. */
  ghost predicate Stored(before: Files, after: Files, path: string, f: File, maxSize: int) {
    SpaceEvicted(before[path := f], after, maxSize)
  }

  ghost predicate OldestFirst(order: seq<string>, files: Files) {
    && (forall p :: p in order <==> p in files && IsSegment(p))
    && (forall i, j :: 0 <= i < j < |order| ==> order[i] != order[j] && order[i] in files && order[j] in files
                                                && files[order[i]].modTime <= files[order[j]].modTime)
  }

  /** Said of the paths: only those that end in ".ts" are dropped, oldest first, and while the rest is over the budget none
      of them is left. */
  ghost predicate OnlyTsDropped(before: Files, after: Files, maxSize: int) {
    && (maxSize <= 0 ==> after == before)
    && (forall p :: p in before && !EndsWith(p, ".ts") ==> p in after && after[p] == before[p])
    && (forall p, s :: p in before && p !in after && s in after && EndsWith(s, ".ts") ==>
          before[p].modTime <= after[s].modTime)
    && (maxSize > 0 && Bytes(after) > maxSize ==> forall p :: p in after ==> !EndsWith(p, ".ts"))
  }

  lemma SpaceEvictedMeans(before: Files, after: Files, maxSize: int)
    requires SpaceEvicted(before, after, maxSize)
    ensures OnlyTsDropped(before, after, maxSize)
  {
    forall p ensures IsSegment(p) <==> EndsWith(p, ".ts") {
      PathsByEnding(p);
    }
    hide IsSegment, EndsWith, Bytes;
    assert forall p :: p in before && p !in after ==> Dropped(before, after, p);
  }

  class SegmentCache {
    var entries: Files
    var size: int
    var watched: set<string>
    const maxSize: int

    /** Size accounting. */
    ghost predicate Valid() reads this { size == Bytes(entries) }

    constructor (maxSizeMB: int)
      ensures Valid() && entries == map[] && watched == {} && maxSize == maxSizeMB * 1024 * 1024
    {
      entries, size, watched, maxSize := map[], 0, {}, maxSizeMB * 1024 * 1024;
    }

    method Get(path: string) returns (hit: Option<File>)
      ensures hit == if path in entries then Some(entries[path]) else None
    {
      if path in entries {
        return Some(entries[path]);
      }
      return None;
    }

    /** One event from the watcher. The disk is read, and then stat-ed, at two later moments; `isDir` is what a stat
        at the event says of a path just created. A new directory is watched, for the files to come. */
    method HandleEvent(ev: Event, isDir: bool, atRead: Files, atStat: Files)
      requires Valid()
      modifies this
      ensures Valid()
      ensures watched == if ev.op.Create? && isDir then old(watched) + {ev.path} else old(watched)
      ensures if (ev.op.Create? && isDir) || !(EndsWith(ev.path, ".ts") || EndsWith(ev.path, ".m3u8"))
              then entries == old(entries)
              else if ev.op.Create? || ev.op.Write? then
                if ev.path in atRead && ev.path in atStat
                then Stored(old(entries), entries, ev.path, File(atRead[ev.path].data, atStat[ev.path].modTime), maxSize)
                else entries == old(entries)
              else entries == old(entries) - {ev.path}
    {
      PathsByEnding(ev.path);
      if ev.op.Create? {
        if isDir {
          watched := watched + {ev.path};
          return;
        }
      }
      if !IsHLSFile(ev.path) {
        return;
      }
      if ev.op.Create? || ev.op.Write? {
        LoadFile(ev.path, atRead, atStat);
      } else {
        Evict(ev.path);
      }
    }

    method LoadFile(path: string, atRead: Files, atStat: Files)
      requires Valid()
      modifies this`entries, this`size
      ensures Valid()
      ensures if path in atRead && path in atStat
              then Stored(old(entries), entries, path, File(atRead[path].data, atStat[path].modTime), maxSize)
              else entries == old(entries)
      ensures forall p :: p in old(entries) && p != path && !EndsWith(p, ".ts") ==>
                p in entries && entries[p] == old(entries)[p]
      ensures path in atRead && path in atStat && !EndsWith(path, ".ts") ==>
                path in entries && entries[path] == File(atRead[path].data, atStat[path].modTime)
    {
      if path !in atRead {
        return;
      }
      var data := atRead[path].data;
      if path !in atStat {
        return;
      }
      if path in entries {
        BytesWithout(entries, path);
        size := size - |entries[path].data|;
      } else {
        assert entries - {path} == entries;
      }
      BytesWith(entries, path, File(data, atStat[path].modTime));
      entries := entries[path := File(data, atStat[path].modTime)];
      size := size + |data|;
      EvictIfNeeded();
    }

    method Evict(path: string)
      requires Valid()
      modifies this`entries, this`size
      ensures Valid() && entries == old(entries) - {path}
    {
      if path in entries {
        BytesWithout(entries, path);
        size := size - |entries[path].data|;
        entries := entries - {path};
      } else {
        assert entries - {path} == entries;
      }
    }

    method EvictIfNeeded()
      requires Valid()
      modifies this`entries, this`size
      ensures Valid() && SpaceEvicted(old(entries), entries, maxSize)
      ensures OnlyTsDropped(old(entries), entries, maxSize)
      ensures maxSize <= 0 || old(size) <= maxSize ==> entries == old(entries)
    {
      if maxSize <= 0 || size <= maxSize {
        SpaceEvictedMeans(entries, entries, maxSize);
        return;
      }
      hide OnlyTsDropped, EndsWith;
      hide Bytes, SpaceEvicted, IsSegment;
      var order := SortedByAge(entries);
      var i := 0;
      while i < |order| && size > maxSize
        invariant 0 <= i <= |order|
        invariant Valid() && Keeps(old(entries), entries)
        invariant forall p :: Dropped(old(entries), entries, p) <==> p in order[..i]
        invariant i > 0 ==> Bytes(entries[order[i - 1] := old(entries)[order[i - 1]]]) > maxSize
      {
        var p := order[i];
        assert p in order && p !in order[..i] && order[..i + 1] == order[..i] + [p];
        assert !Dropped(old(entries), entries, p);
        BytesWithout(entries, p);
        assert (entries - {p})[p := old(entries)[p]] == entries;
        size := size - |entries[p].data|;
        entries := entries - {p};
        i := i + 1;
      }
      EvictedInOrder(old(entries), entries, order, i, maxSize);
      SpaceEvictedMeans(old(entries), entries, maxSize);
    }

    method Purge()
      modifies this`entries, this`size
      ensures Valid() && entries == map[]
    {
      entries, size := map[], 0;
    }
  }

  /** Dropping a prefix of an oldest-first order, each drop from a table still too big, is space eviction. */
  lemma EvictedInOrder(before: Files, after: Files, order: seq<string>, i: nat, maxSize: int)
    requires OldestFirst(order, before) && i <= |order| && Keeps(before, after) && maxSize > 0
    requires forall p :: Dropped(before, after, p) <==> p in order[..i]
    requires i > 0 ==> Bytes(after[order[i - 1] := before[order[i - 1]]]) > maxSize
    requires i == |order| || Bytes(after) <= maxSize
    ensures SpaceEvicted(before, after, maxSize)
  {
    forall p, s | Dropped(before, after, p) && s in after && IsSegment(s)
      ensures before[p].modTime <= before[s].modTime
    {
      var k :| 0 <= k < i && order[k] == p;
      assert s in order && s !in order[..i];
      var m :| 0 <= m < |order| && order[m] == s;
    }
    if i == 0 {
      NothingDropped(before, after);
    } else {
      LastInOrder(before, after, order, i, maxSize);
    }
    if i == |order| {
      assert order[..i] == order;
    }
  }

  lemma NothingDropped(before: Files, after: Files)
    requires Keeps(before, after) && forall p :: !Dropped(before, after, p)
    ensures before == after
  {
    forall p | p in before
      ensures p in after
    {
      assert !Dropped(before, after, p);
    }
  }

  lemma LastInOrder(before: Files, after: Files, order: seq<string>, i: nat, maxSize: int)
    requires OldestFirst(order, before) && 0 < i <= |order|
    requires forall p :: Dropped(before, after, p) <==> p in order[..i]
    requires order[i - 1] in before && Bytes(after[order[i - 1] := before[order[i - 1]]]) > maxSize
    ensures IsLastDrop(before, after, order[i - 1], maxSize)
  {
  }

  // ---- There is always a way to evict ----

  /** Segments only, oldest first. */
  ghost predicate OldestDropped(before: Files, now: Files) {
    && Keeps(before, now)
    && (forall p :: Dropped(before, now, p) ==> IsSegment(p))
    && (forall p, s :: Dropped(before, now, p) && s in now && IsSegment(s) ==> before[p].modTime <= before[s].modTime)
  }

  ghost predicate IsOldest(files: Files, p: string) {
    p in files && IsSegment(p) && forall s :: s in files && IsSegment(s) ==> files[p].modTime <= files[s].modTime
  }

  lemma {:induction false} OldestSegment(files: Files, p: string) returns (oldest: string)
    requires p in files && IsSegment(p)
    ensures IsOldest(files, oldest)
    decreases |files|
  {
    oldest := p;
    if s :| s in files && IsSegment(s) && files[s].modTime < files[p].modTime {
      oldest := OldestSegment(files - {p}, s);
    }
  }

  lemma DropOldest(before: Files, now: Files, p: string)
    requires OldestDropped(before, now) && IsOldest(now, p)
    ensures OldestDropped(before, now - {p})
  {
    hide IsSegment;
    forall q | Dropped(before, now - {p}, q)
      ensures Dropped(before, now, q) || q == p
    {
    }
  }

  lemma DropNeeded(before: Files, now: Files, p: string, maxSize: int)
    requires OldestDropped(before, now) && IsOldest(now, p) && Bytes(now) > maxSize
    ensures Needed(before, now - {p}, maxSize) && p in now
  {
    hide IsSegment, Bytes;
    assert (now - {p})[p := before[p]] == now;
    forall q | Dropped(before, now - {p}, q)
      ensures before[q].modTime <= before[p].modTime
    {
      assert q != p ==> Dropped(before, now, q);
    }
    assert IsLastDrop(before, now - {p}, p, maxSize);
  }

  /** The last removal so far, if any, was needed. */
  ghost predicate Needed(before: Files, now: Files, maxSize: int) {
    now != before ==> exists last :: IsLastDrop(before, now, last, maxSize)
  }

  lemma EnoughDropped(before: Files, now: Files, maxSize: int)
    requires OldestDropped(before, now) && Needed(before, now, maxSize) && maxSize > 0
    requires Bytes(now) <= maxSize || forall s :: s in now ==> !IsSegment(s)
    ensures SpaceEvicted(before, now, maxSize)
  {
    hide Bytes, IsSegment;
  }

  lemma {:induction false} EvictOn(before: Files, now: Files, maxSize: int) returns (after: Files)
    requires OldestDropped(before, now) && Needed(before, now, maxSize) && maxSize > 0
    ensures SpaceEvicted(before, after, maxSize)
    decreases |now|
  {
    hide *;
    if Bytes(now) > maxSize {
      if s :| s in now && IsSegment(s) {
        var p := OldestSegment(now, s);
        DropOldest(before, now, p);
        DropNeeded(before, now, p, maxSize);
        after := EvictOn(before, now - {p}, maxSize);
        return;
      }
    }
    EnoughDropped(before, now, maxSize);
    after := now;
  }

  lemma EvictionPossible(before: Files, maxSize: int) returns (after: Files)
    ensures SpaceEvicted(before, after, maxSize)
  {
    if maxSize <= 0 {
      after := before;
    } else {
      after := EvictOn(before, before, maxSize);
    }
  }

  /** The candidates, sorted by modification time. */
  method SortedByAge(files: Files) returns (order: seq<string>)
    ensures OldestFirst(order, files)
  {
    order := [];
    var left := files.Keys;
    while left != {}
      invariant left <= files.Keys
      invariant forall p :: p in order <==> p in files.Keys - left && IsSegment(p)
      invariant AgeOrdered(order, files)
      decreases left
    {
      var p :| p in left;
      left := left - {p};
      if IsSegment(p) {
        var i := 0;
        while i < |order| && files[order[i]].modTime < files[p].modTime
          invariant 0 <= i <= |order|
          invariant forall k :: 0 <= k < i ==> files[order[k]].modTime < files[p].modTime
        {
          i := i + 1;
        }
        InsertKeepsOrder(order, i, p, files);
        order := order[..i] + [p] + order[i..];
      }
    }
  }

  ghost predicate AgeOrdered(order: seq<string>, files: Files) {
    && (forall p :: p in order ==> p in files)
    && (forall i, j :: 0 <= i < j < |order| ==> order[i] != order[j] && files[order[i]].modTime <= files[order[j]].modTime)
  }

  lemma InsertKeepsOrder(order: seq<string>, i: nat, p: string, files: Files)
    requires AgeOrdered(order, files) && i <= |order| && p in files && p !in order
    requires forall k :: 0 <= k < i ==> files[order[k]].modTime < files[p].modTime
    requires i < |order| ==> files[p].modTime <= files[order[i]].modTime
    ensures AgeOrdered(order[..i] + [p] + order[i..], files)
    ensures forall x :: x in order[..i] + [p] + order[i..] <==> x == p || x in order
  {
  }
}
