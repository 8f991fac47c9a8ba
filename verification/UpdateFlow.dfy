/** The updater's concurrency (internal/update/updater.go): racing Apply calls, the one run they may start, its
    broadcasts, and subscribers that come and go.

    Each step is one critical section or one channel operation. The mutex `mu` guards the flag and the
    progress, `subMu` the subscribers; a broadcast holds `subMu` while it sends to one subscriber after the
    other, and Subscribe registers, reads the progress and sends it in three separate steps. Published progress
    values are numbered in the order they are stored. */
module UpdateFlow {

  type ThreadId = nat
  type SubId = nat

  /** Where a run's broadcast stands. */
  datatype Cast = Quiet | Stored(value: nat) | Sending(value: nat, left: set<SubId>)

  /** An Apply call and, once its socket check has passed, the goroutine it started. */
  datatype Thread = Checking | Running(cast: Cast) | Done

  datatype Phase = Registered | Snapped(value: nat) | Active | Removed | Closed

  /** A value on a subscriber's channel: from a broadcast, or the one Subscribe itself sends. */
  datatype Item = FromCast(value: nat) | FromSnapshot(value: nat)

  /** `sent` is everything ever put on the channel, `queued` how much of it waits, `missed` whether a send found
      the buffer full. */
  datatype Sub = Sub(phase: Phase, sent: seq<Item>, queued: nat, missed: bool)

  datatype World = World(updating: bool, threads: map<ThreadId, Thread>, progress: nat, subs: map<SubId, Sub>)

  const BUFFER: nat := 16

  predicate Owner(t: Thread) { t.Checking? || t.Running? }

  predicate Subscribed(s: Sub) { s.phase.Registered? || s.phase.Snapped? || s.phase.Active? }

  predicate HoldsSubMu(t: Thread) { t.Running? && t.cast.Sending? }

  function Subscribers(w: World): set<SubId> {
    set s | s in w.subs && Subscribed(w.subs[s])
  }

  function Offered(s: Sub, item: Item): Sub {
    if s.queued < BUFFER then s.(sent := s.sent + [item], queued := s.queued + 1) else s.(missed := true)
  }

  datatype Step =
    | Apply(t: ThreadId)
    | NoSocket(t: ThreadId)
    | Start(t: ThreadId)
    | Exit(t: ThreadId)               // any of runApply's returns, through its deferred function
    | Store(t: ThreadId)
    | LockSubs(t: ThreadId)
    | SendTo(t: ThreadId, s: SubId)
    | UnlockSubs(t: ThreadId)
    | Register(s: SubId)
    | Snapshot(s: SubId)
    | SendSnapshot(s: SubId)
    | Remove(s: SubId)
    | CloseChannel(s: SubId)
    | Drain(s: SubId)

  predicate At(w: World, t: ThreadId, thread: Thread) { t in w.threads && w.threads[t] == thread }

  predicate InPhase(w: World, s: SubId, p: Phase) { s in w.subs && w.subs[s].phase == p }

  ghost predicate SubMuFree(w: World) { forall t :: t in w.threads ==> !HoldsSubMu(w.threads[t]) }

  ghost predicate Enabled(w: World, a: Step) {
    match a
    case Apply(t) => t !in w.threads
    case NoSocket(t) => At(w, t, Checking)
    case Start(t) => At(w, t, Checking)
    case Exit(t) => At(w, t, Running(Quiet))
    case Store(t) => At(w, t, Running(Quiet))
    case LockSubs(t) => t in w.threads && w.threads[t].Running? && w.threads[t].cast.Stored? && SubMuFree(w)
    case SendTo(t, s) => t in w.threads && HoldsSubMu(w.threads[t]) && s in w.threads[t].cast.left && s in w.subs
    case UnlockSubs(t) => t in w.threads && HoldsSubMu(w.threads[t]) && w.threads[t].cast.left == {}
    case Register(s) => s !in w.subs && SubMuFree(w)
    case Snapshot(s) => InPhase(w, s, Registered)
    case SendSnapshot(s) => s in w.subs && w.subs[s].phase.Snapped?
    case Remove(s) => InPhase(w, s, Active) && SubMuFree(w)
    case CloseChannel(s) => InPhase(w, s, Removed)
    case Drain(s) => s in w.subs && w.subs[s].queued > 0
  }

  function SetThread(w: World, t: ThreadId, thread: Thread): World { w.(threads := w.threads[t := thread]) }

  function SetSub(w: World, s: SubId, sub: Sub): World { w.(subs := w.subs[s := sub]) }

  ghost function Next(w: World, a: Step): World
    requires Enabled(w, a)
  {
    match a
    case Apply(t) => if w.updating then SetThread(w, t, Done) else SetThread(w, t, Checking).(updating := true)
    case NoSocket(t) => SetThread(w, t, Done).(updating := false)
    case Start(t) => SetThread(w, t, Running(Quiet))
    case Exit(t) => SetThread(w, t, Done).(updating := false)
    case Store(t) => SetThread(w, t, Running(Stored(w.progress + 1))).(progress := w.progress + 1)
    case LockSubs(t) => SetThread(w, t, Running(Sending(w.threads[t].cast.value, Subscribers(w))))
    case SendTo(t, s) =>
      var cast := w.threads[t].cast;
      SetSub(SetThread(w, t, Running(Sending(cast.value, cast.left - {s}))), s, Offered(w.subs[s], FromCast(cast.value)))
    case UnlockSubs(t) => SetThread(w, t, Running(Quiet))
    case Register(s) => SetSub(w, s, Sub(Registered, [], 0, false))
    case Snapshot(s) => SetSub(w, s, w.subs[s].(phase := Snapped(w.progress)))
    case SendSnapshot(s) =>
      SetSub(w, s, Offered(w.subs[s], FromSnapshot(w.subs[s].phase.value)).(phase := Active))
    case Remove(s) => SetSub(w, s, w.subs[s].(phase := Removed))
    case CloseChannel(s) => SetSub(w, s, w.subs[s].(phase := Closed))
    case Drain(s) => SetSub(w, s, w.subs[s].(queued := w.subs[s].queued - 1))
  }

  // ---- Invariants ----

  predicate Owns(w: World, t: ThreadId) { t in w.threads && Owner(w.threads[t]) }

  /** The flag is up exactly while one thread owns the update. */
  ghost predicate Exclusive(w: World) {
    && (w.updating <==> exists t :: Owns(w, t))
    && (forall t, u :: Owns(w, t) && Owns(w, u) ==> t == u)
  }

  /** A broadcast is of the current progress, and only to subscribers. */
  ghost predicate CastSound(w: World) {
    forall t :: t in w.threads && w.threads[t].Running? ==>
      match w.threads[t].cast
      case Quiet => true
      case Stored(v) => v == w.progress
      case Sending(v, left) => v == w.progress && forall s :: s in left ==> s in w.subs && Subscribed(w.subs[s])
  }

  /** The broadcast under way has yet to reach this subscriber. */
  ghost predicate Due(w: World, s: SubId) {
    exists t :: t in w.threads && w.threads[t].Running? &&
      (w.threads[t].cast.Stored? || (w.threads[t].cast.Sending? && s in w.threads[t].cast.left))
  }

  predicate WasSent(sub: Sub, value: nat) {
    FromCast(value) in sub.sent || FromSnapshot(value) in sub.sent
  }

  /** No value from the future; and a broadcast value is never older than what was sent before it. */
  ghost predicate InOrder(sub: Sub, progress: nat) {
    && (forall x :: x in sub.sent ==> x.value <= progress)
    && (forall i, j :: 0 <= i < j < |sub.sent| && sub.sent[j].FromCast? ==> sub.sent[i].value <= sub.sent[j].value)
  }

  ghost predicate Informed(w: World, s: SubId) {
    s in w.subs ==>
      var sub := w.subs[s];
      && InOrder(sub, w.progress)
      && (sub.phase.Snapped? ==> sub.phase.value <= w.progress)
      && (sub.phase.Snapped? && !sub.missed ==> sub.phase.value == w.progress || WasSent(sub, w.progress) || Due(w, s))
      && (sub.phase.Active? && !sub.missed ==> WasSent(sub, w.progress) || Due(w, s))
  }

  ghost predicate Inv(w: World) {
    Exclusive(w) && CastSound(w) && forall s :: Informed(w, s)
  }

  // ---- One update at a time ----

  lemma ExclusiveAlways(w: World, a: Step)
    requires Exclusive(w) && Enabled(w, a)
    ensures Exclusive(Next(w, a))
  {
    var w' := Next(w, a);
    match a
    case Apply(t) =>
      assert forall u :: u != t ==> (Owns(w', u) <==> Owns(w, u));
      assert Owns(w', t) <==> !w.updating;
    case NoSocket(t) => OthersDoNotOwn(w, w', t);
    case Exit(t) => OthersDoNotOwn(w, w', t);
    case _ =>
      assert forall u :: Owns(w', u) <==> Owns(w, u);
  }

  lemma OthersDoNotOwn(w: World, w': World, t: ThreadId)
    requires Exclusive(w) && Owns(w, t) && w'.threads == w.threads[t := Done] && !w'.updating
    ensures Exclusive(w')
  {
    assert forall u :: Owns(w', u) ==> Owns(w, u) && u != t;
  }

  // ---- Broadcasts and subscribers ----

  lemma CastSoundAlways(w: World, a: Step)
    requires Exclusive(w) && CastSound(w) && Enabled(w, a)
    ensures CastSound(Next(w, a))
  {
    var w' := Next(w, a);
    match a
    case Store(t) =>
      forall u | u in w'.threads && w'.threads[u].Running?
        ensures u == t
      {
        assert Owns(w, u) || u == t;
        assert Owns(w, t);
      }
    case Remove(s) =>
      assert forall u :: u in w.threads ==> !HoldsSubMu(w.threads[u]);
    case _ =>
  }

  /** No thread but `t` has a broadcast under way. */
  lemma OnlyCaster(w: World, t: ThreadId)
    requires Exclusive(w) && t in w.threads && w.threads[t].Running?
    ensures forall u :: u in w.threads && w.threads[u].Running? ==> u == t
  {
    assert Owns(w, t);
    forall u | u in w.threads && w.threads[u].Running?
      ensures u == t
    {
      assert Owns(w, u);
    }
  }

  /** A subscriber still due stays due, or is sent the value. */
  lemma DueKept(w: World, a: Step, s: SubId)
    requires Exclusive(w) && CastSound(w) && Enabled(w, a) && s in w.subs && Subscribed(w.subs[s]) && Due(w, s)
    ensures var w' := Next(w, a);
            Due(w', s) || (a.SendTo? && a.s == s && w'.subs[s] == Offered(w.subs[s], FromCast(w.progress)))
  {
    var w' := Next(w, a);
    var t :| t in w.threads && w.threads[t].Running? &&
      (w.threads[t].cast.Stored? || (w.threads[t].cast.Sending? && s in w.threads[t].cast.left));
    OnlyCaster(w, t);
    assert t in w'.threads;
  }

  lemma OfferedInOrder(sub: Sub, item: Item, progress: nat)
    requires InOrder(sub, progress) && item.value <= progress
    requires item.FromCast? ==> item.value == progress
    ensures InOrder(Offered(sub, item), progress) && Offered(sub, item).phase == sub.phase
    ensures !Offered(sub, item).missed ==> item in Offered(sub, item).sent && !sub.missed
    ensures forall v :: WasSent(sub, v) ==> WasSent(Offered(sub, item), v)
  {
  }

  lemma LaterProgress(sub: Sub, progress: nat, progress': nat)
    requires InOrder(sub, progress) && progress <= progress'
    ensures InOrder(sub, progress')
  {
  }

  lemma InformedAlways(w: World, a: Step, s: SubId)
    requires Inv(w) && Enabled(w, a)
    ensures Informed(Next(w, a), s)
  {
    hide InOrder, WasSent, Offered;
    var w' := Next(w, a);
    assert Informed(w, s);
    if s in w.subs && Subscribed(w.subs[s]) && Due(w, s) {
      DueKept(w, a, s);
    }
    match a
    case Store(t) =>
      assert t in w'.threads && w'.threads[t].cast.Stored?;
      if s in w.subs {
        LaterProgress(w.subs[s], w.progress, w'.progress);
      }
    case SendTo(t, x) =>
      if x == s {
        assert w.threads[t].cast.value == w.progress;
        OfferedInOrder(w.subs[s], FromCast(w.progress), w.progress);
        SentCounts(w'.subs[s], w.progress);
      }
    case SendSnapshot(x) =>
      if x == s {
        var v := w.subs[s].phase.value;
        OfferedInOrder(w.subs[s], FromSnapshot(v), w.progress);
        SentCounts(Offered(w.subs[s], FromSnapshot(v)), v);
        SamePast(Offered(w.subs[s], FromSnapshot(v)), w'.subs[s], w.progress);
      }
    case Register(x) =>
      if x == s {
        NothingSent(w'.subs[s], w.progress);
      }
    case _ =>
      if s in w.subs {
        SamePast(w.subs[s], w'.subs[s], w.progress);
      }
  }

  lemma SentCounts(sub: Sub, value: nat)
    ensures FromCast(value) in sub.sent || FromSnapshot(value) in sub.sent ==> WasSent(sub, value)
  {
  }

  lemma SamePast(sub: Sub, sub': Sub, progress: nat)
    requires sub.sent == sub'.sent
    ensures InOrder(sub, progress) <==> InOrder(sub', progress)
    ensures WasSent(sub, progress) <==> WasSent(sub', progress)
  {
  }

  lemma NothingSent(sub: Sub, progress: nat)
    requires sub.sent == []
    ensures InOrder(sub, progress)
  {
  }

  // ---- Whole runs ----

  ghost predicate Init(w: World) {
    !w.updating && w.threads == map[] && w.progress == 0 && w.subs == map[]
  }

  ghost predicate CanRun(w: World, steps: seq<Step>)
    decreases |steps|
  {
    steps != [] ==> Enabled(w, steps[0]) && CanRun(Next(w, steps[0]), steps[1..])
  }

  ghost function Run(w: World, steps: seq<Step>): World
    requires CanRun(w, steps)
    decreases |steps|
  {
    if steps == [] then w else Run(Next(w, steps[0]), steps[1..])
  }

  lemma {:induction false} InvAlways(w: World, steps: seq<Step>)
    requires Inv(w) && CanRun(w, steps)
    ensures Inv(Run(w, steps))
    decreases |steps|
  {
    if steps != [] {
      hide Informed;
      ExclusiveAlways(w, steps[0]);
      CastSoundAlways(w, steps[0]);
      forall s
        ensures Informed(Next(w, steps[0]), s)
      {
        InformedAlways(w, steps[0], s);
      }
      InvAlways(Next(w, steps[0]), steps[1..]);
    }
  }

  /** Over every interleaving: the flag is up exactly while one thread, an Apply in its socket check or one run,
      owns the update; two never do. */
  lemma OneUpdateAtATime(w: World, steps: seq<Step>)
    requires Init(w) && CanRun(w, steps)
    ensures Exclusive(Run(w, steps))
  {
    InvAlways(w, steps);
  }

  /** Over every interleaving, no step sends on a subscriber's channel that has been closed. */
  lemma NoSendOnClosed(w: World, steps: seq<Step>, a: Step)
    requires Init(w) && CanRun(w, steps) && Enabled(Run(w, steps), a) && (a.SendTo? || a.SendSnapshot?)
    ensures !Run(w, steps).subs[a.s].phase.Closed?
  {
    InvAlways(w, steps);
  }

  /** No broadcast is half done. */
  ghost predicate Settled(w: World) {
    forall t :: t in w.threads && w.threads[t].Running? ==> w.threads[t].cast.Quiet?
  }

  function Last(sub: Sub): Item
    requires sub.sent != []
  {
    sub.sent[|sub.sent| - 1]
  }

  /** A newer value was on the channel when its last one was sent. */
  predicate Overtaken(sub: Sub)
    requires sub.sent != []
  {
    exists i :: 0 <= i < |sub.sent| - 1 && sub.sent[i].value > Last(sub).value
  }

  /** Over every interleaving: when no broadcast is half done, a subscriber whose Subscribe has returned and whose
      buffer was never full has been sent the current progress. The last thing it was sent is that very value unless,
      and only unless, it is the value its own Subscribe read, sent when a newer one was on the channel already. */
  lemma SubscribersInformed(w: World, steps: seq<Step>, s: SubId)
    requires Init(w) && CanRun(w, steps) && Settled(Run(w, steps))
    requires InPhase(Run(w, steps), s, Active) && !Run(w, steps).subs[s].missed
    ensures var end, sub := Run(w, steps), Run(w, steps).subs[s];
            && WasSent(sub, end.progress) && sub.sent != []
            && (Last(sub).value != end.progress <==> Overtaken(sub))
            && (Overtaken(sub) ==> Last(sub).FromSnapshot?)
  {
    InvAlways(w, steps);
    var end := Run(w, steps);
    assert Informed(end, s);
    var sub := end.subs[s];
    assert !Due(end, s);
    var i :| 0 <= i < |sub.sent| && sub.sent[i].value == end.progress;
    assert Last(sub) in sub.sent;
  }

  /** The exception is real: a subscriber that reads the progress before a broadcast and sends it after is left
      with the older value last. */
  lemma SnapshotCanBeOvertaken(w: World) returns (steps: seq<Step>, end: World)
    requires Init(w)
    ensures CanRun(w, steps) && end == Run(w, steps) && Settled(end) && InPhase(end, 0, Active)
    ensures end.progress == 1 && end.subs[0].sent == [FromCast(1), FromSnapshot(0)] && !end.subs[0].missed
  {
    var w1 := Next(w, Register(0));
    var w2 := Next(w1, Snapshot(0));
    var w3 := Next(w2, Apply(0));
    var w4 := Next(w3, Start(0));
    assert w4 == World(true, map[0 := Running(Quiet)], 0, map[0 := Sub(Snapped(0), [], 0, false)]);
    steps, end := OvertakingBroadcast(w4);
    Prepend(w3, Start(0), steps);
    Prepend(w2, Apply(0), [Start(0)] + steps);
    Prepend(w1, Snapshot(0), [Apply(0)] + ([Start(0)] + steps));
    Prepend(w, Register(0), [Snapshot(0)] + ([Apply(0)] + ([Start(0)] + steps)));
    steps := [Register(0)] + ([Snapshot(0)] + ([Apply(0)] + ([Start(0)] + steps)));
  }

  lemma OvertakingBroadcast(w: World) returns (steps: seq<Step>, end: World)
    requires w == World(true, map[0 := Running(Quiet)], 0, map[0 := Sub(Snapped(0), [], 0, false)])
    ensures CanRun(w, steps) && end == Run(w, steps)
    ensures end.threads == map[0 := Running(Quiet)] && end.progress == 1 && 0 in end.subs
    ensures end.subs[0] == Sub(Active, [FromCast(1), FromSnapshot(0)], 2, false)
  {
    var w5 := Next(w, Store(0));
    var w6 := Next(w5, LockSubs(0));
    assert Subscribers(w5) == {0};
    var w7 := Next(w6, SendTo(0, 0));
    steps, end := LateSnapshot(w7);
    Prepend(w6, SendTo(0, 0), steps);
    steps := [SendTo(0, 0)] + steps;
    Prepend(w5, LockSubs(0), steps);
    steps := [LockSubs(0)] + steps;
    Prepend(w, Store(0), steps);
    steps := [Store(0)] + steps;
  }

  lemma LateSnapshot(w: World) returns (steps: seq<Step>, end: World)
    requires w.threads.Keys == {0} && HoldsSubMu(w.threads[0]) && w.threads[0].cast.left == {} && w.progress == 1
    requires 0 in w.subs && w.subs[0] == Sub(Snapped(0), [FromCast(1)], 1, false)
    ensures CanRun(w, steps) && end == Run(w, steps)
    ensures end.threads == map[0 := Running(Quiet)] && end.progress == 1 && 0 in end.subs
    ensures end.subs[0] == Sub(Active, [FromCast(1), FromSnapshot(0)], 2, false)
  {
    var w8 := Next(w, UnlockSubs(0));
    end := Next(w8, SendSnapshot(0));
    steps := [SendSnapshot(0)] + [];
    Prepend(w8, SendSnapshot(0), []);
    Prepend(w, UnlockSubs(0), steps);
    steps := [UnlockSubs(0)] + steps;
  }

  lemma Prepend(w: World, a: Step, steps: seq<Step>)
    requires Enabled(w, a) && CanRun(Next(w, a), steps)
    ensures CanRun(w, [a] + steps) && Run(w, [a] + steps) == Run(Next(w, a), steps)
  {
  }
}
