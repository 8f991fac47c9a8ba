/** The updater's methods (internal/update/updater.go: Subscribe, Unsubscribe, broadcast, Apply, runApply), each run on
    its own: what it does, and that it is a run of steps of `UpdateFlow`, whose theorems hold of every interleaving.

    A progress is kept as its phase and its number, counted from the one the updater starts with. What the run asks of
    GitHub, Docker and the host arrives as `Outcomes`. */
module Updates {
  import opened UpdateFlow

  datatype ProgressPhase = Idle | CheckingRelease | Downloading | Applying | Restarting | Failed

  /** How the run's calls fare, in order; a pull also says how often it reports. */
  datatype Outcomes = Outcomes(
    check: bool, available: bool, pullServer: bool, pullWeb: bool, findWeb: bool, recreateWeb: bool,
    selfId: bool, inspectSelf: bool, createHelper: bool, startHelper: bool, serverReports: nat, webReports: nat)

  function Times(n: nat, p: ProgressPhase): seq<ProgressPhase> { seq(n, _ => p) }

  /** The phases a run publishes, in order. */
  function Phases(o: Outcomes): seq<ProgressPhase> {
    [CheckingRelease] + if o.check && o.available then PullPhases(o) else [Failed]
  }

  function PullPhases(o: Outcomes): seq<ProgressPhase> {
    Times(1 + o.serverReports, Downloading) + if o.pullServer then WebPullPhases(o) else [Failed]
  }

  function WebPullPhases(o: Outcomes): seq<ProgressPhase> {
    Times(1 + o.webReports, Downloading) + if o.pullWeb then ApplyPhases(o) else [Failed]
  }

  function ApplyPhases(o: Outcomes): seq<ProgressPhase> {
    [Applying] + if o.findWeb && o.recreateWeb then RestartPhases(o) else [Failed]
  }

  function RestartPhases(o: Outcomes): seq<ProgressPhase> {
    [Restarting, if o.selfId && o.inspectSelf && o.createHelper && o.startHelper then Restarting else Failed]
  }

  lemma TimesOneMore(n: nat, p: ProgressPhase)
    ensures Times(1 + n, p) == [p] + Times(n, p)
  {
  }

  function Rank(p: ProgressPhase): nat {
    match p
    case Idle => 0
    case CheckingRelease => 1
    case Downloading => 2
    case Applying => 3
    case Restarting => 4
    case Failed => 5
  }

  predicate AllWell(o: Outcomes) {
    o.check && o.available && o.pullServer && o.pullWeb && o.findWeb && o.recreateWeb && o.selfId && o.inspectSelf &&
    o.createHelper && o.startHelper
  }

  /** A run's phases from some point on: "failed" is the last of them or none, and the others never go back. */
  ghost predicate Forward(ps: seq<ProgressPhase>, from: nat, well: bool) {
    && ps != [] && ps[|ps| - 1] == (if well then Restarting else Failed)
    && (forall i :: 0 <= i < |ps| ==> Rank(ps[i]) >= from)
    && (forall i :: 0 <= i < |ps| - 1 ==> ps[i] != Failed)
    && (forall i, j :: 0 <= i < j < |ps| ==> Rank(ps[i]) <= Rank(ps[j]))
  }

  lemma Stage(first: seq<ProgressPhase>, p: ProgressPhase, rest: seq<ProgressPhase>, from: nat, well: bool)
    requires forall i :: 0 <= i < |first| ==> first[i] == p
    requires p != Failed && Rank(p) <= from && Forward(rest, from, well)
    ensures Forward(first + rest, Rank(p), well)
  {
    hide Rank;
  }

  predicate Helped(o: Outcomes) { o.selfId && o.inspectSelf && o.createHelper && o.startHelper }

  lemma FailedForward()
    ensures forall from: nat :: from <= 4 ==> Forward([Failed], from, false)
  {
  }

  lemma ApplyForward(o: Outcomes)
    ensures Forward(ApplyPhases(o), 3, o.findWeb && o.recreateWeb && Helped(o))
  {
    assert Forward(RestartPhases(o), 4, Helped(o));
    FailedForward();
    hide Forward, RestartPhases, Helped;
    var rest := if o.findWeb && o.recreateWeb then RestartPhases(o) else [Failed];
    Stage([Applying], Applying, rest, 4, o.findWeb && o.recreateWeb && Helped(o));
  }

  lemma WebPullForward(o: Outcomes)
    ensures Forward(WebPullPhases(o), 2, o.pullWeb && o.findWeb && o.recreateWeb && Helped(o))
  {
    ApplyForward(o);
    FailedForward();
    hide Forward, ApplyPhases, Helped;
    var rest := if o.pullWeb then ApplyPhases(o) else [Failed];
    Stage(Times(1 + o.webReports, Downloading), Downloading, rest, 3, o.pullWeb && o.findWeb && o.recreateWeb && Helped(o));
  }

  lemma PullForward(o: Outcomes)
    ensures Forward(PullPhases(o), 2, o.pullServer && o.pullWeb && o.findWeb && o.recreateWeb && Helped(o))
  {
    WebPullForward(o);
    FailedForward();
    hide Forward, WebPullPhases, Helped;
    var rest := if o.pullServer then WebPullPhases(o) else [Failed];
    Stage(Times(1 + o.serverReports, Downloading), Downloading, rest, 2,
          o.pullServer && o.pullWeb && o.findWeb && o.recreateWeb && Helped(o));
  }

  /** "Failed", which ends a viewer's waiting, is published at the end if some call failed, and never otherwise; before
      that the phases never go back. */
  lemma PhasesGoForward(o: Outcomes)
    ensures Forward(Phases(o), 1, AllWell(o))
  {
    PullForward(o);
    FailedForward();
    hide Forward, PullPhases;
    var rest := if o.check && o.available then PullPhases(o) else [Failed];
    Stage([CheckingRelease], CheckingRelease, rest, 2, AllWell(o));
  }

  /** Said of the phases: what may come after each. */
  lemma PhasesInTurn(o: Outcomes, i: nat, j: nat)
    requires i < j < |Phases(o)|
    ensures var p, q := Phases(o)[i], Phases(o)[j];
            match p
            case CheckingRelease => q != Idle
            case Downloading => q != Idle && q != CheckingRelease
            case Applying => q == Applying || q == Restarting || q == Failed
            case Restarting => q == Restarting || q == Failed
            case _ => false
  {
    PhasesGoForward(o);
    hide Phases;
  }

  /** Every report of a pull is "downloading", as the start of each pull is; only then, if both images were pulled, comes
      "applying", and "restarting" after it if the web container was recreated. */
  lemma PhasesOfPulls(o: Outcomes)
    requires o.check && o.available
    ensures var ps, server, web := Phases(o), 1 + o.serverReports, 1 + o.webReports;
            && |ps| > 1 + server && (forall i :: 1 <= i < 1 + server ==> ps[i] == Downloading)
            && (!o.pullServer ==> |ps| == 2 + server)
            && (o.pullServer ==> |ps| > 1 + server + web && forall i :: 1 + server <= i < 1 + server + web ==> ps[i] == Downloading)
            && (o.pullServer ==> ps[1 + server + web] == if o.pullWeb then Applying else Failed)
            && (o.pullServer && o.pullWeb && o.findWeb && o.recreateWeb ==>
                  |ps| == 4 + server + web && ps[2 + server + web] == Restarting)
  {
  }

  /** "Restarting" is told before the helper that restarts the server is there, so "failed" can come after it: exactly
      when the web container was recreated and one of the helper's calls fails. */
  lemma RestartingBeforeFailed(o: Outcomes)
    ensures Restarting in Phases(o) && Failed in Phases(o) <==>
            && o.check && o.available && o.pullServer && o.pullWeb && o.findWeb && o.recreateWeb
            && !(o.selfId && o.inspectSelf && o.createHelper && o.startHelper)
  {
    hide Times;
    PhaseOccurs(o, Restarting);
    PhaseOccurs(o, Failed);
  }

  lemma PhaseOccurs(o: Outcomes, p: ProgressPhase)
    requires p == Restarting || p == Failed
    ensures p in Phases(o) <==>
            if !o.check || !o.available || !o.pullServer || !o.pullWeb then p == Failed
            else if !o.findWeb || !o.recreateWeb then p == Failed
            else p in RestartPhases(o)
  {
    hide RestartPhases;
    assert p !in Times(1 + o.serverReports, Downloading) && p !in Times(1 + o.webReports, Downloading);
  }

  // ---- Runs ----

  ghost predicate Reaches(w: World, w': World) { exists steps :: CanRun(w, steps) && Run(w, steps) == w' }

  lemma {:induction false} Joined(w: World, first: seq<Step>, second: seq<Step>)
    requires CanRun(w, first) && CanRun(Run(w, first), second)
    ensures CanRun(w, first + second) && Run(w, first + second) == Run(Run(w, first), second)
    decreases |first|
  {
    if first == [] {
      assert first + second == second;
    } else {
      Joined(Next(w, first[0]), first[1..], second);
      assert first + second == [first[0]] + (first[1..] + second);
      Prepend(w, first[0], first[1..] + second);
    }
  }

  lemma Onward(w: World, mid: World, end: World)
    requires Reaches(w, mid) && Reaches(mid, end)
    ensures Reaches(w, end)
  {
    var first :| CanRun(w, first) && Run(w, first) == mid;
    var second :| CanRun(mid, second) && Run(mid, second) == end;
    Joined(w, first, second);
  }

  lemma OneStep(w: World, a: Step)
    requires Enabled(w, a)
    ensures Reaches(w, Next(w, a))
  {
    Prepend(w, a, []);
    assert CanRun(w, [a] + []) && Run(w, [a] + []) == Next(w, a);
  }

  /** What a broadcast of this value leaves on the channels. */
  ghost predicate Delivered(before: map<SubId, Sub>, after: map<SubId, Sub>, value: nat) {
    && after.Keys == before.Keys
    && forall s :: s in before ==>
         after[s] == if Subscribed(before[s]) then Offered(before[s], FromCast(value)) else before[s]
  }

  /** Said of each channel: one of a subscriber takes the value if fewer than sixteen wait in it, and otherwise misses it;
      one of nobody is left alone. */
  lemma DeliveredMeans(before: map<SubId, Sub>, after: map<SubId, Sub>, value: nat)
    requires Delivered(before, after, value)
    ensures forall s :: s in before ==>
              var b, a := before[s], after[s];
              var subscribed := b.phase.Registered? || b.phase.Snapped? || b.phase.Active?;
              && (!subscribed ==> a == b)
              && (subscribed && b.queued < 16 ==>
                    a == Sub(b.phase, b.sent + [FromCast(value)], b.queued + 1, b.missed))
              && (subscribed && b.queued >= 16 ==> a == Sub(b.phase, b.sent, b.queued, true))
  {
  }

  /** The same while these of the subscribers are still to be sent to. */
  ghost predicate Partly(before: map<SubId, Sub>, after: map<SubId, Sub>, subs: set<SubId>, left: set<SubId>, value: nat) {
    && after.Keys == before.Keys && left <= subs <= before.Keys
    && forall s :: s in before ==>
         after[s] == if s in subs && s !in left then Offered(before[s], FromCast(value)) else before[s]
  }

  lemma PartlyStart(before: map<SubId, Sub>, subs: set<SubId>, value: nat)
    requires subs <= before.Keys
    ensures Partly(before, before, subs, subs, value)
  {
  }

  lemma PartlyEnd(before: map<SubId, Sub>, after: map<SubId, Sub>, value: nat)
    requires Partly(before, after, set s | s in before && Subscribed(before[s]), {}, value)
    ensures Delivered(before, after, value)
  {
  }

  lemma PartlyStep(before: map<SubId, Sub>, after: map<SubId, Sub>, subs: set<SubId>, left: set<SubId>, s: SubId, value: nat)
    requires Partly(before, after, subs, left, value) && s in left
    ensures s in after && Partly(before, after[s := Offered(after[s], FromCast(value))], subs, left - {s}, value)
  {
  }

  lemma SendStep(w: World, t: ThreadId, s: SubId, value: nat, left: set<SubId>)
    requires At(w, t, Running(Sending(value, left))) && s in left && s in w.subs
    ensures Reaches(w, w.(threads := w.threads[t := Running(Sending(value, left - {s}))],
                          subs := w.subs[s := Offered(w.subs[s], FromCast(value))]))
  {
    OneStep(w, SendTo(t, s));
    assert Next(w, SendTo(t, s)) == w.(threads := w.threads[t := Running(Sending(value, left - {s}))],
                                       subs := w.subs[s := Offered(w.subs[s], FromCast(value))]);
  }

  class Updater {
    var updating: bool
    var progress: nat
    var phase: ProgressPhase
    var subscribers: map<SubId, Sub>
    ghost var threads: map<ThreadId, Thread>
    ghost var published: seq<ProgressPhase> // the phase of progress number k is published[k - 1]

    ghost function State(): World
      reads this
    {
      World(updating, threads, progress, subscribers)
    }

    constructor ()
      ensures Init(State()) && phase == Idle && published == []
    {
      updating, progress, phase, subscribers, threads, published := false, 0, Idle, map[], map[], [];
    }

    method Subscribe(ch: SubId)
      requires ch !in subscribers && SubMuFree(State())
      modifies this`subscribers
      ensures Reaches(old(State()), State())
      ensures subscribers == old(subscribers)[ch := Sub(Active, [FromSnapshot(progress)], 1, false)]
    {
      hide Reaches, CanRun, Run;
      ghost var w0 := State();
      subscribers := subscribers[ch := Sub(Registered, [], 0, false)];
      ghost var w1 := State();
      OneStep(w0, Register(ch));
      var p := progress;
      subscribers := subscribers[ch := subscribers[ch].(phase := Snapped(p))];
      ghost var w2 := State();
      OneStep(w1, Snapshot(ch));
      subscribers := subscribers[ch := Offered(subscribers[ch], FromSnapshot(p)).(phase := Active)];
      OneStep(w2, SendSnapshot(ch));
      assert [] + [FromSnapshot(p)] == [FromSnapshot(p)];
      Onward(w0, w1, w2);
      Onward(w0, w2, State());
    }

    method Unsubscribe(ch: SubId)
      requires InPhase(State(), ch, Active) && SubMuFree(State())
      modifies this`subscribers
      ensures Reaches(old(State()), State())
      ensures subscribers == old(subscribers)[ch := old(subscribers)[ch].(phase := Closed)]
    {
      hide Reaches, CanRun, Run;
      ghost var w0 := State();
      subscribers := subscribers[ch := subscribers[ch].(phase := Removed)];
      ghost var w1 := State();
      OneStep(w0, Remove(ch));
      subscribers := subscribers[ch := subscribers[ch].(phase := Closed)];
      OneStep(w1, CloseChannel(ch));
      Onward(w0, w1, State());
    }

    /** The part of broadcast under `subMu`. */
    method SendToAll(ghost t: ThreadId)
      requires At(State(), t, Running(Stored(progress))) && SubMuFree(State())
      modifies this`subscribers, this`threads
      ensures Reaches(old(State()), State()) && threads == old(threads)[t := Running(Quiet)]
      ensures Delivered(old(subscribers), subscribers, progress)
    {
      hide Reaches, CanRun, Run, Offered, Partly, Delivered, Subscribed;
      ghost var w1 := State();
      var left := set s | s in subscribers && Subscribed(subscribers[s]);
      threads := threads[t := Running(Sending(progress, left))];
      ghost var w2 := State();
      OneStep(w1, LockSubs(t));
      ghost var subs := left;
      PartlyStart(w2.subs, subs, progress);
      while left != {}
        invariant left <= subscribers.Keys && At(State(), t, Running(Sending(progress, left)))
        invariant threads == w2.threads[t := Running(Sending(progress, left))]
        invariant Partly(w2.subs, subscribers, subs, left, progress)
        invariant Reaches(w1, State())
        decreases left
      {
        ghost var w := State();
        var s :| s in left;
        SendStep(w, t, s, progress, left);
        PartlyStep(w2.subs, subscribers, subs, left, s, progress);
        subscribers := subscribers[s := Offered(subscribers[s], FromCast(progress))];
        left := left - {s};
        threads := threads[t := Running(Sending(progress, left))];
        Onward(w1, w, State());
      }
      ghost var w3 := State();
      threads := threads[t := Running(Quiet)];
      OneStep(w3, UnlockSubs(t));
      Onward(w1, w3, State());
      PartlyEnd(w2.subs, subscribers, progress);
    }

    /** `start` is any state this one has been reached from. */
    method Broadcast(ghost t: ThreadId, ghost start: World, p: ProgressPhase)
      requires At(State(), t, Running(Quiet)) && SubMuFree(State()) && Reaches(start, State())
      modifies this`progress, this`phase, this`subscribers, this`threads, this`published
      ensures Reaches(start, State()) && threads == old(threads)
      ensures progress == old(progress) + 1 && phase == p && published == old(published) + [p]
      ensures Delivered(old(subscribers), subscribers, progress)
    {
      hide Reaches, CanRun, Run, Delivered;
      ghost var w0 := State();
      progress, phase, published := progress + 1, p, published + [p];
      threads := threads[t := Running(Stored(progress))];
      ghost var w1 := State();
      OneStep(w0, Store(t));
      Onward(start, w0, w1);
      SendToAll(t);
      Onward(start, w1, State());
      assert threads == old(threads);
    }

    method Pull(ghost t: ThreadId, ghost start: World, reports: nat)
      requires At(State(), t, Running(Quiet)) && SubMuFree(State()) && Reaches(start, State()) && |published| == progress
      modifies this`progress, this`phase, this`subscribers, this`threads, this`published
      ensures Reaches(start, State()) && threads == old(threads) && |published| == progress
      ensures published == old(published) + Times(reports, Downloading)
    {
      hide Reaches, Delivered;
      for i := 0 to reports
        invariant Reaches(start, State()) && threads == old(threads) && |published| == progress
        invariant published == old(published) + Times(i, Downloading)
      {
        Broadcast(t, start, Downloading);
      }
    }

    /** The body of the goroutine, up to the first phase. */
    method Update(ghost t: ThreadId, ghost start: World, o: Outcomes)
      requires At(State(), t, Running(Quiet)) && SubMuFree(State()) && Reaches(start, State()) && |published| == progress
      modifies this`progress, this`phase, this`subscribers, this`threads, this`published
      ensures Reaches(start, State()) && threads == old(threads) && |published| == progress
      ensures published == old(published) + Phases(o) && phase == published[|published| - 1]
    {
      hide Reaches, Delivered, PullPhases;
      Broadcast(t, start, CheckingRelease);
      if !o.check {
        Broadcast(t, start, Failed);
        return;
      }
      if !o.available {
        Broadcast(t, start, Failed);
        return;
      }
      PullImages(t, start, o);
    }

    /** Its first phase. */
    method PullImages(ghost t: ThreadId, ghost start: World, o: Outcomes)
      requires At(State(), t, Running(Quiet)) && SubMuFree(State()) && Reaches(start, State()) && |published| == progress
      modifies this`progress, this`phase, this`subscribers, this`threads, this`published
      ensures Reaches(start, State()) && threads == old(threads) && |published| == progress
      ensures published == old(published) + PullPhases(o) && phase == published[|published| - 1]
    {
      hide Reaches, Delivered, Times, WebPullPhases;
      TimesOneMore(o.serverReports, Downloading);
      Broadcast(t, start, Downloading);
      Pull(t, start, o.serverReports);
      assert published == old(published) + Times(1 + o.serverReports, Downloading);
      if !o.pullServer {
        Broadcast(t, start, Failed);
        return;
      }
      PullWebImage(t, start, o);
    }

    method PullWebImage(ghost t: ThreadId, ghost start: World, o: Outcomes)
      requires At(State(), t, Running(Quiet)) && SubMuFree(State()) && Reaches(start, State()) && |published| == progress
      modifies this`progress, this`phase, this`subscribers, this`threads, this`published
      ensures Reaches(start, State()) && threads == old(threads) && |published| == progress
      ensures published == old(published) + WebPullPhases(o) && phase == published[|published| - 1]
    {
      hide Reaches, Delivered, Times, ApplyPhases;
      TimesOneMore(o.webReports, Downloading);
      Broadcast(t, start, Downloading);
      Pull(t, start, o.webReports);
      assert published == old(published) + Times(1 + o.webReports, Downloading);
      if !o.pullWeb {
        Broadcast(t, start, Failed);
        return;
      }
      RecreateWeb(t, start, o);
    }

    /** Its second phase. */
    method RecreateWeb(ghost t: ThreadId, ghost start: World, o: Outcomes)
      requires At(State(), t, Running(Quiet)) && SubMuFree(State()) && Reaches(start, State()) && |published| == progress
      modifies this`progress, this`phase, this`subscribers, this`threads, this`published
      ensures Reaches(start, State()) && threads == old(threads) && |published| == progress
      ensures published == old(published) + ApplyPhases(o) && phase == published[|published| - 1]
    {
      hide Reaches, Delivered, RestartPhases;
      Broadcast(t, start, Applying);
      if !o.findWeb {
        Broadcast(t, start, Failed);
        return;
      }
      if !o.recreateWeb {
        Broadcast(t, start, Failed);
        return;
      }
      LaunchHelper(t, start, o);
    }

    /** Its third phase. */
    method LaunchHelper(ghost t: ThreadId, ghost start: World, o: Outcomes)
      requires At(State(), t, Running(Quiet)) && SubMuFree(State()) && Reaches(start, State()) && |published| == progress
      modifies this`progress, this`phase, this`subscribers, this`threads, this`published
      ensures Reaches(start, State()) && threads == old(threads) && |published| == progress
      ensures published == old(published) + RestartPhases(o) && phase == published[|published| - 1]
    {
      hide Reaches, Delivered;
      Broadcast(t, start, Restarting);
      if !o.selfId {
        Broadcast(t, start, Failed);
        return;
      }
      if !o.inspectSelf {
        Broadcast(t, start, Failed);
        return;
      }
      if !o.createHelper {
        Broadcast(t, start, Failed);
        return;
      }
      if !o.startHelper {
        Broadcast(t, start, Failed);
        return;
      }
      Broadcast(t, start, Restarting);
    }

    /** The goroutine: every return goes through the deferred function. */
    method RunApply(ghost t: ThreadId, ghost start: World, o: Outcomes)
      requires At(State(), t, Running(Quiet)) && SubMuFree(State()) && Reaches(start, State()) && |published| == progress
      modifies this
      ensures Reaches(start, State()) && !updating && threads == old(threads)[t := UpdateFlow.Done]
      ensures phase == if AllWell(o) then Restarting else Failed
      ensures published == old(published) + Phases(o) && |published| == progress
    {
      hide Reaches, CanRun, Run;
      PhasesGoForward(o);
      Update(t, start, o);
      ghost var w := State();
      updating := false;
      threads := threads[t := UpdateFlow.Done];
      OneStep(w, Exit(t));
      Onward(start, w, State());
    }

    /** The answer, and the goroutine if there is one to start. */
    method Apply(ghost t: ThreadId, socket: bool) returns (started: bool)
      requires t !in threads
      modifies this`updating, this`threads
      ensures Reaches(old(State()), State())
      ensures started <==> !old(updating) && socket
      ensures updating == (old(updating) || started)
      ensures threads == old(threads)[t := if started then Running(Quiet) else UpdateFlow.Done]
    {
      hide Reaches, CanRun, Run;
      ghost var w0 := State();
      OneStep(w0, UpdateFlow.Apply(t));
      if updating {
        threads := threads[t := UpdateFlow.Done];
        return false;
      }
      updating := true;
      threads := threads[t := Checking];
      ghost var w1 := State();
      if !socket {
        updating := false;
        threads := threads[t := UpdateFlow.Done];
        OneStep(w1, NoSocket(t));
        Onward(w0, w1, State());
        return false;
      }
      threads := threads[t := Running(Quiet)];
      OneStep(w1, Start(t));
      Onward(w0, w1, State());
      return true;
    }
  }
}
