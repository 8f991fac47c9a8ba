/** The per-IP request limiter (internal/auth/ratelimit.go).

    The limiter keeps one fixed window per IP, opened by the first request that finds no live window.
    `Allow` and `Sweep` are proved against functions on the table; what a whole run of requests and
    sweeps grants is then proved about those functions. Times are integers on one non-decreasing clock. */
module RateLimit {

  datatype Entry = Entry(count: int, resetAt: int)
  type Table = map<string, Entry>

  predicate OpensWindow(table: Table, ip: string, now: int) {
    ip !in table || now > table[ip].resetAt
  }

  predicate Grants(table: Table, limit: int, ip: string, now: int) {
    OpensWindow(table, ip, now) || table[ip].count + 1 <= limit
  }

  function Counted(table: Table, window: int, ip: string, now: int): Table {
    if OpensWindow(table, ip, now) then table[ip := Entry(1, now + window)]
    else table[ip := table[ip].(count := table[ip].count + 1)]
  }

  function Swept(table: Table, now: int): Table {
    map ip | ip in table && now <= table[ip].resetAt :: table[ip]
  }

  class RateLimiter {
    var entries: Table
    const limit: int
    const window: int

    constructor (limit: int, window: int)
      ensures this.limit == limit && this.window == window && entries == map[]
    {
      this.limit, this.window, entries := limit, window, map[];
    }

    method Allow(ip: string, now: int) returns (allowed: bool)
      modifies this`entries
      ensures allowed == Grants(old(entries), limit, ip, now)
      ensures entries == Counted(old(entries), window, ip, now)
      ensures ip !in old(entries) || now > old(entries)[ip].resetAt ==>
                allowed && entries == old(entries)[ip := Entry(1, now + window)]
      ensures ip in old(entries) && now <= old(entries)[ip].resetAt ==>
                var e := old(entries)[ip];
                entries == old(entries)[ip := Entry(e.count + 1, e.resetAt)] && (allowed <==> e.count + 1 <= limit)
    {
      if ip !in entries || now > entries[ip].resetAt {
        entries := entries[ip := Entry(1, now + window)];
        return true;
      }
      var e := entries[ip];
      e := e.(count := e.count + 1);
      entries := entries[ip := e];
      return e.count <= limit;
    }

    /** The cleanup tick: a loop over the map that deletes while it ranges, in any order. */
    method Sweep(now: int)
      modifies this`entries
      ensures entries == Swept(old(entries), now)
      ensures forall ip :: ip in entries <==> ip in old(entries) && now <= old(entries)[ip].resetAt
      ensures forall ip :: ip in entries ==> entries[ip] == old(entries)[ip]
    {
      var left := entries.Keys;
      while left != {}
        invariant left <= old(entries).Keys
        invariant forall ip :: ip in entries <==>
                    ip in old(entries) && (ip in left || now <= old(entries)[ip].resetAt)
        invariant forall ip :: ip in entries ==> entries[ip] == old(entries)[ip]
        decreases left
      {
        var ip :| ip in left;
        left := left - {ip};
        if now > entries[ip].resetAt {
          entries := entries - {ip};
        }
      }
    }
  }

  // ---- Runs: any sequence of requests and sweeps on a non-decreasing clock ----

  datatype Event = Request(ip: string, at: int) | Sweep(at: int)

  predicate Clocked(evs: seq<Event>) {
    forall i, j :: 0 <= i < j < |evs| ==> evs[i].at <= evs[j].at
  }

  function After(table: Table, window: int, ev: Event): Table {
    match ev
    case Request(ip, at) => Counted(table, window, ip, at)
    case Sweep(at) => Swept(table, at)
  }

  function TableAfter(window: int, evs: seq<Event>): Table {
    if evs == [] then map[]
    else After(TableAfter(window, evs[..|evs| - 1]), window, evs[|evs| - 1])
  }

  /** How many requests of `ip` with a time in [lo, hi] the run granted. */
  function Granted(limit: int, window: int, evs: seq<Event>, ip: string, lo: int, hi: int): nat {
    if evs == [] then 0
    else
      var past, ev := evs[..|evs| - 1], evs[|evs| - 1];
      Granted(limit, window, past, ip, lo, hi) +
      if ev.Request? && ev.ip == ip && lo <= ev.at <= hi && Grants(TableAfter(window, past), limit, ip, ev.at)
      then 1 else 0
  }

  /** The requests each run decides, in order. */
  function Decisions(limit: int, window: int, evs: seq<Event>): seq<bool> {
    if evs == [] then []
    else
      var past, ev := evs[..|evs| - 1], evs[|evs| - 1];
      Decisions(limit, window, past) +
      if ev.Request? then [Grants(TableAfter(window, past), limit, ev.ip, ev.at)] else []
  }

  function WithoutSweeps(evs: seq<Event>): seq<Event> {
    if evs == [] then []
    else WithoutSweeps(evs[..|evs| - 1]) + if evs[|evs| - 1].Request? then [evs[|evs| - 1]] else []
  }

  function Cap(limit: int): int { if limit < 1 then 1 else limit }

  lemma ClockedPrefix(evs: seq<Event>)
    requires Clocked(evs) && evs != []
    ensures Clocked(evs[..|evs| - 1])
    ensures |evs| > 1 ==> evs[..|evs| - 1][|evs| - 2].at <= evs[|evs| - 1].at
  {
  }

  lemma {:induction false} GrantedMonotone(limit: int, window: int, evs: seq<Event>, ip: string,
                                           lo: int, hi: int, lo': int, hi': int)
    requires lo <= lo' && hi' <= hi
    ensures Granted(limit, window, evs, ip, lo', hi') <= Granted(limit, window, evs, ip, lo, hi)
  {
    if evs != [] {
      GrantedMonotone(limit, window, evs[..|evs| - 1], ip, lo, hi, lo', hi');
    }
  }

  lemma {:induction false} NothingGrantedOutside(limit: int, window: int, evs: seq<Event>, ip: string, lo: int, hi: int)
    requires Clocked(evs) && (evs == [] || evs[|evs| - 1].at < lo || hi < lo)
    ensures Granted(limit, window, evs, ip, lo, hi) == 0
  {
    if evs != [] {
      ClockedPrefix(evs);
      NothingGrantedOutside(limit, window, evs[..|evs| - 1], ip, lo, hi);
    }
  }

  // ---- The counting bounds ----

  /** What is known of `ip` after a run: its latest window opened at `open` and has granted `used` requests.
      At most used - 1 of them came strictly after `open`, none came after the window's end, and an interval
      that still reaches the window before this one holds at most Cap - 1 of that one's grants. */
  ghost predicate WindowState(limit: int, window: int, evs: seq<Event>, ip: string, hi: int, open: int, used: nat) {
    var table := TableAfter(window, evs);
    && used <= Cap(limit)
    && (ip in table ==>
          table[ip].resetAt == open + window && 1 <= table[ip].count
          && used == if table[ip].count <= Cap(limit) then table[ip].count else Cap(limit))
    && (ip !in table ==> used == 0 || evs == [] || open + window < evs[|evs| - 1].at)
    && (used > 0 ==> evs != [] && open <= evs[|evs| - 1].at)
    && (if used == 0 then forall lo :: Granted(limit, window, evs, ip, lo, hi) == 0 else
        && Granted(limit, window, evs, ip, open + 1, hi) <= used - 1
        && Granted(limit, window, evs, ip, open, hi) <= used
        && Granted(limit, window, evs, ip, open + window + 1, hi) == 0
        && Granted(limit, window, evs, ip, open - window, hi) <= Cap(limit) - 1 + used)
  }

  lemma OpeningStep(limit: int, window: int, past: seq<Event>, ip: string, now: int, a: int, hi: int, open: int, used: nat)
    requires Clocked(past) && 0 <= window && a + window <= hi && (past != [] ==> past[|past| - 1].at <= now)
    requires OpensWindow(TableAfter(window, past), ip, now) && now <= hi
    requires WindowState(limit, window, past, ip, hi, open, used)
    requires Granted(limit, window, past, ip, a, a + window) <= 2 * Cap(limit) - 1
    ensures WindowState(limit, window, past + [Request(ip, now)], ip, hi, now, 1)
    ensures Granted(limit, window, past + [Request(ip, now)], ip, a, a + window) <= 2 * Cap(limit) - 1
  {
    var evs := past + [Request(ip, now)];
    assert evs[..|evs| - 1] == past;
    if used > 0 {
      GrantedMonotone(limit, window, past, ip, open + 1, hi, now - window, hi);
      GrantedMonotone(limit, window, past, ip, open + window + 1, hi, now, hi);
      GrantedMonotone(limit, window, past, ip, now, hi, now + 1, hi);
      GrantedMonotone(limit, window, past, ip, now, hi, now + window + 1, hi);
      if a <= now <= a + window {
        GrantedMonotone(limit, window, past, ip, open + 1, hi, a, a + window);
      }
    } else {
      GrantedMonotone(limit, window, past, ip, a, hi, a, a + window);
    }
  }

  lemma CountingStep(limit: int, window: int, past: seq<Event>, ip: string, now: int, a: int, hi: int, open: int, used: nat)
    returns (used': nat)
    requires 0 <= window && a + window <= hi && (past != [] ==> past[|past| - 1].at <= now)
    requires !OpensWindow(TableAfter(window, past), ip, now)
    requires WindowState(limit, window, past, ip, hi, open, used)
    requires Granted(limit, window, past, ip, a, a + window) <= 2 * Cap(limit) - 1
    ensures WindowState(limit, window, past + [Request(ip, now)], ip, hi, open, used')
    ensures Granted(limit, window, past + [Request(ip, now)], ip, a, a + window) <= 2 * Cap(limit) - 1
  {
    var evs := past + [Request(ip, now)];
    assert evs[..|evs| - 1] == past;
    var count := TableAfter(window, past)[ip].count + 1;
    used' := if count <= Cap(limit) then count else Cap(limit);
    assert WindowState(limit, window, evs, ip, hi, open, used');
    if a <= now <= a + window {
      GrantedMonotone(limit, window, evs, ip, open - window, hi, a, a + window);
    }
  }

  lemma OtherStep(limit: int, window: int, past: seq<Event>, ip: string, ev: Event, hi: int, open: int, used: nat)
    requires ev.Sweep? || ev.ip != ip
    requires past != [] ==> past[|past| - 1].at <= ev.at
    requires WindowState(limit, window, past, ip, hi, open, used)
    ensures WindowState(limit, window, past + [ev], ip, hi, open, used)
  {
  }

  lemma {:induction false} WindowInvariant(limit: int, window: int, evs: seq<Event>, ip: string, a: int, hi: int)
    returns (open: int, used: nat)
    requires Clocked(evs) && 0 <= window && a + window <= hi
    requires evs != [] ==> evs[|evs| - 1].at <= hi
    ensures WindowState(limit, window, evs, ip, hi, open, used)
    ensures Granted(limit, window, evs, ip, a, a + window) <= 2 * Cap(limit) - 1
  {
    if evs == [] {
      return 0, 0;
    }
    var past, ev := evs[..|evs| - 1], evs[|evs| - 1];
    ClockedPrefix(evs);
    assert evs == past + [ev];
    open, used := WindowInvariant(limit, window, past, ip, a, hi);
    if ev.Sweep? || ev.ip != ip {
      OtherStep(limit, window, past, ip, ev, hi, open, used);
    } else if OpensWindow(TableAfter(window, past), ip, ev.at) {
      OpeningStep(limit, window, past, ip, ev.at, a, hi, open, used);
      open, used := ev.at, 1;
    } else {
      used := CountingStep(limit, window, past, ip, ev.at, a, hi, open, used);
    }
  }

  /** In any closed interval of length `window`, an IP is granted at most 2 * max(1, limit) - 1 requests,
      over every run and whatever the other IPs and the sweeps do. */
  lemma IntervalBound(limit: int, window: int, evs: seq<Event>, ip: string, a: int)
    requires Clocked(evs)
    ensures GrantedFrom(limit, window, evs, ip, a) <= 2 * Cap(limit) - 1
  {
    if window < 0 {
      NothingGrantedOutside(limit, window, evs, ip, a, a + window);
    } else {
      var last := if evs == [] then 0 else evs[|evs| - 1].at;
      var open, used := WindowInvariant(limit, window, evs, ip, a, if last < a + window then a + window else last);
    }
  }

  /** A window outlives every request and sweep up to and including its end. */
  lemma {:induction false} WindowPersists(window: int, evs: seq<Event>, ip: string, k: nat)
    requires Clocked(evs) && k <= |evs| && ip in TableAfter(window, evs[..k])
    requires evs != [] && evs[|evs| - 1].at <= TableAfter(window, evs[..k])[ip].resetAt
    ensures ip in TableAfter(window, evs)
    ensures TableAfter(window, evs)[ip].resetAt == TableAfter(window, evs[..k])[ip].resetAt
  {
    if k == |evs| {
      assert evs[..k] == evs;
    } else {
      ClockedPrefix(evs);
      var past := evs[..|evs| - 1];
      assert past[..k] == evs[..k];
      if k < |past| || past != [] {
        WindowPersists(window, past, ip, k);
      }
    }
  }

  /** Every window opened in a run, live at the end or not, grants at most max(1, limit) requests. */
  lemma {:induction false} PerWindowBound(limit: int, window: int, evs: seq<Event>, ip: string, k: nat)
    requires Clocked(evs) && 0 <= window && k <= |evs| && ip in TableAfter(window, evs[..k])
    ensures var end := TableAfter(window, evs[..k])[ip].resetAt;
            Granted(limit, window, evs, ip, end - window, end) <= Cap(limit)
  {
    var end := TableAfter(window, evs[..k])[ip].resetAt;
    if evs == [] {
    } else if evs[|evs| - 1].at <= end {
      WindowPersists(window, evs, ip, k);
      var open, used := WindowInvariant(limit, window, evs, ip, end - window, end);
    } else if k == |evs| {
      assert evs[..k] == evs;
      var open, used := WindowInvariant(limit, window, evs, ip, end - window, evs[|evs| - 1].at);
      GrantedMonotone(limit, window, evs, ip, end - window, evs[|evs| - 1].at, end - window, end);
    } else {
      ClockedPrefix(evs);
      assert evs[..|evs| - 1][..k] == evs[..k];
      PerWindowBound(limit, window, evs[..|evs| - 1], ip, k);
    }
  }

  // ---- No request is denied without cause ----

  /** A live window has granted as many requests as it counted, up to the cap. */
  lemma {:induction false} WindowCounted(limit: int, window: int, evs: seq<Event>, ip: string, hi: int)
    requires Clocked(evs) && (evs != [] ==> evs[|evs| - 1].at <= hi) && ip in TableAfter(window, evs)
    ensures var e := TableAfter(window, evs)[ip];
            evs != [] && e.resetAt - window <= evs[|evs| - 1].at && e.count >= 1 &&
            Granted(limit, window, evs, ip, e.resetAt - window, hi) >=
              if e.count < Cap(limit) then e.count else Cap(limit)
  {
    var past, ev := evs[..|evs| - 1], evs[|evs| - 1];
    ClockedPrefix(evs);
    if ev.Request? && ev.ip == ip && OpensWindow(TableAfter(window, past), ip, ev.at) {
      assert TableAfter(window, evs)[ip] == Entry(1, ev.at + window);
    } else {
      WindowCounted(limit, window, past, ip, hi);
    }
  }

  /** Over every run: a request is denied only while its IP's window is live and has granted max(1, limit) requests. */
  lemma DeniedOnlyWhenSpent(limit: int, window: int, past: seq<Event>, ip: string, now: int)
    requires Clocked(past) && (past != [] ==> past[|past| - 1].at <= now)
    requires !Grants(TableAfter(window, past), limit, ip, now)
    ensures ip in TableAfter(window, past)
    ensures var end := TableAfter(window, past)[ip].resetAt;
            now <= end && Granted(limit, window, past, ip, end - window, now) >= if limit < 1 then 1 else limit
  {
    WindowCounted(limit, window, past, ip, now);
  }

  // ---- The interval bound is attained, so the limiter is not a sliding window ----

  function Burst(ip: string, at: int, n: nat): seq<Event> {
    if n == 0 then [] else Burst(ip, at, n - 1) + [Request(ip, at)]
  }

  /** Opens a window at 0, spends the rest of it at its very end, then opens a second window and spends that. */
  function Spent(ip: string, limit: int, window: int): seq<Event>
    requires limit >= 1
  {
    ([] + [Request(ip, 0)]) + Burst(ip, window, limit - 1)
  }

  function Straddle(ip: string, limit: int, window: int): seq<Event>
    requires limit >= 1
  {
    (Spent(ip, limit, window) + [Request(ip, window + 1)]) + Burst(ip, window + 1, limit - 1)
  }

  lemma RequestAppended(limit: int, window: int, past: seq<Event>, ip: string, at: int, lo: int, hi: int)
    ensures var evs := past + [Request(ip, at)];
            && TableAfter(window, evs) == Counted(TableAfter(window, past), window, ip, at)
            && Granted(limit, window, evs, ip, lo, hi) == Granted(limit, window, past, ip, lo, hi) +
               if lo <= at <= hi && Grants(TableAfter(window, past), limit, ip, at) then 1 else 0
  {
  }

  /** After `all`, the window of `ip` stands at `e` and `n` of its requests were granted in [lo, hi]. */
  ghost predicate Tally(limit: int, window: int, all: seq<Event>, ip: string, lo: int, hi: int, e: Entry, n: nat) {
    && ip in TableAfter(window, all) && TableAfter(window, all)[ip] == e
    && Granted(limit, window, all, ip, lo, hi) == n
  }

  lemma TallyOneMore(limit: int, window: int, all: seq<Event>, ip: string, at: int, lo: int, hi: int, e: Entry, n: nat)
    requires Tally(limit, window, all, ip, lo, hi, e, n)
    requires lo <= at <= hi && at <= e.resetAt && e.count < limit
    ensures Tally(limit, window, all + [Request(ip, at)], ip, lo, hi, Entry(e.count + 1, e.resetAt), n + 1)
  {
  }

  lemma {:induction false} BurstTally(limit: int, window: int, evs: seq<Event>, ip: string, at: int, k: nat,
                                      lo: int, hi: int, e: Entry, n: nat)
    requires Tally(limit, window, evs, ip, lo, hi, e, n)
    requires lo <= at <= hi && at <= e.resetAt && e.count + k <= limit
    ensures Tally(limit, window, evs + Burst(ip, at, k), ip, lo, hi, Entry(e.count + k, e.resetAt), n + k)
  {
    if k == 0 {
      assert evs + Burst(ip, at, 0) == evs;
    } else {
      var fewer := Burst(ip, at, k - 1);
      BurstTally(limit, window, evs, ip, at, k - 1, lo, hi, e, n);
      TallyOneMore(limit, window, evs + fewer, ip, at, lo, hi, Entry(e.count + k - 1, e.resetAt), n + k - 1);
      assert evs + (fewer + [Request(ip, at)]) == (evs + fewer) + [Request(ip, at)];
    }
  }

  lemma {:induction false} BurstClocked(evs: seq<Event>, ip: string, at: int, n: nat)
    requires Clocked(evs) && (evs == [] || evs[|evs| - 1].at <= at)
    ensures Clocked(evs + Burst(ip, at, n))
    ensures forall i :: 0 <= i < |evs + Burst(ip, at, n)| ==> (evs + Burst(ip, at, n))[i].at <= at
  {
    if n == 0 {
      assert evs + Burst(ip, at, 0) == evs;
    } else {
      BurstClocked(evs, ip, at, n - 1);
      assert evs + Burst(ip, at, n) == (evs + Burst(ip, at, n - 1)) + [Request(ip, at)];
    }
  }

  lemma StraddleAttainsBound(limit: int, window: int, ip: string)
    requires limit >= 1 && window >= 1
    ensures Clocked(Straddle(ip, limit, window))
    ensures GrantedFrom(limit, window, Straddle(ip, limit, window), ip, 1) == 2 * limit - 1
  {
    var first, spent := [] + [Request(ip, 0)], Spent(ip, limit, window);
    RequestAppended(limit, window, [], ip, 0, 1, 1 + window);
    BurstTally(limit, window, first, ip, window, limit - 1, 1, 1 + window, Entry(1, window), 0);
    RequestAppended(limit, window, spent, ip, window + 1, 1, 1 + window);
    BurstTally(limit, window, spent + [Request(ip, window + 1)], ip, window + 1, limit - 1, 1, 1 + window,
               Entry(1, 2 * window + 1), limit);
    StraddleClocked(limit, window, ip, first, spent);
  }

  lemma StraddleClocked(limit: int, window: int, ip: string, first: seq<Event>, spent: seq<Event>)
    requires limit >= 1 && window >= 1
    requires first == [Request(ip, 0)] && spent == first + Burst(ip, window, limit - 1)
    ensures Clocked((spent + [Request(ip, window + 1)]) + Burst(ip, window + 1, limit - 1))
  {
    BurstClocked(first, ip, window, limit - 1);
    BurstClocked(spent + [Request(ip, window + 1)], ip, window + 1, limit - 1);
  }

  function GrantedFrom(limit: int, window: int, evs: seq<Event>, ip: string, a: int): nat {
    Granted(limit, window, evs, ip, a, a + window)
  }

  /** What the type's comment promises: never more than `limit` grants in a sliding window. */
  ghost predicate IsSlidingWindow(limit: int, window: int) {
    forall evs, ip, a | Clocked(evs) :: GrantedFrom(limit, window, evs, ip, a) <= limit
  }

  /** The promise holds exactly when the limit is one. A smaller limit still grants the opening request;
      a larger one is exceeded by `Straddle`. */
  lemma SlidingExactlyForLimitOne(limit: int, window: int)
    requires window >= 1
    ensures IsSlidingWindow(limit, window) <==> limit == 1
  {
    if limit == 1 {
      forall evs, ip, a | Clocked(evs)
        ensures GrantedFrom(limit, window, evs, ip, a) <= limit
      {
        IntervalBound(limit, window, evs, ip, a);
      }
    } else if limit >= 2 {
      StraddleAttainsBound(limit, window, "");
    } else {
      var evs := [Request("", 0)];
      RequestAppended(limit, window, [], "", 0, 0, window);
      assert evs == [] + evs && GrantedFrom(limit, window, evs, "", 0) == 1;
    }
  }

  // ---- Sweeping never changes a decision ----

  /** `swept` has lost, compared with `kept`, only entries that had expired before `now`. */
  ghost predicate LostOnlyExpired(swept: Table, kept: Table, now: int) {
    forall ip :: if ip in swept then ip in kept && kept[ip] == swept[ip]
                 else ip in kept ==> kept[ip].resetAt < now
  }

  lemma {:induction false} SweepsSimulated(limit: int, window: int, evs: seq<Event>)
    requires Clocked(evs)
    ensures evs != [] ==>
              LostOnlyExpired(TableAfter(window, evs), TableAfter(window, WithoutSweeps(evs)), evs[|evs| - 1].at)
    ensures Decisions(limit, window, evs) == Decisions(limit, window, WithoutSweeps(evs))
  {
    if evs != [] {
      var past, ev := evs[..|evs| - 1], evs[|evs| - 1];
      ClockedPrefix(evs);
      SweepsSimulated(limit, window, past);
      var kept := WithoutSweeps(evs);
      if ev.Request? {
        assert kept[..|kept| - 1] == WithoutSweeps(past);
      } else {
        assert kept == WithoutSweeps(past);
      }
    }
  }
}
