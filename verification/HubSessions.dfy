/** The session log the chat hub keeps (internal/chat/hub.go, checkLiveStatus and persistMessage) against the live
    signal it samples. The references below read the signal and the chat alone. */
module HubSessions {
  import opened ChatHub

  function StateAfter(s: State, evs: seq<Event>): State {
    if evs == [] then s else After(StateAfter(s, evs[..|evs| - 1]), evs[|evs| - 1])
  }

  // ---- References ----

  /** The signal at the last tick. */
  predicate Live(evs: seq<Event>) {
    if evs == [] then false
    else
      var ev := evs[|evs| - 1];
      if ev.Tick? then ev.live else Live(evs[..|evs| - 1])
  }

  /** The title at the first tick of each maximal run of live ticks, in order. */
  function LiveRuns(evs: seq<Event>): seq<string> {
    if evs == [] then []
    else
      var past, ev := evs[..|evs| - 1], evs[|evs| - 1];
      LiveRuns(past) + if ev.Tick? && ev.live && !Live(past) then [ev.title] else []
  }

  /** Chat messages processed during a live run, each with the number of that run; `base` runs came before. */
  function Filed(evs: seq<Event>, base: nat): seq<Saved> {
    if evs == [] then []
    else
      var past, ev := evs[..|evs| - 1], evs[|evs| - 1];
      Filed(past, base) +
      if ev.Broadcast? && ev.chat.Chat? && Live(past) then [Saved(base + |LiveRuns(past)|, ev.chat)] else []
  }

  predicate NoFailure(evs: seq<Event>) {
    forall ev :: ev in evs ==> (ev.Tick? ==> ev.createOk && ev.closeOk) && (ev.Broadcast? ==> ev.saveOk)
  }

  // ---- The session state machine ----

  /** The table after these live runs: one row each after the first `base`, all ended but that of a run under way. */
  ghost predicate Follows(s: State, base: seq<Session>, runs: seq<string>, live: bool) {
    && s.wasLive == live && (live ==> runs != [])
    && |s.sessions| == |base| + |runs| && s.sessions[..|base|] == base
    && (forall k :: 0 <= k < |runs| ==> s.sessions[|base| + k] == Session(runs[k], !(live && k == |runs| - 1)))
    && s.sessionID == if live then |s.sessions| else 0
  }

  /** Only a tick touches the session state, and only chat during a session is saved. */
  lemma OnlyTicksTouchSessions(s: State, ev: Event)
    ensures !ev.Tick? ==> var s' := After(s, ev);
              s'.wasLive == s.wasLive && s'.sessionID == s.sessionID && s'.sessions == s.sessions
    ensures After(s, ev).saved == s.saved +
              if ev.Broadcast? && ev.chat.Chat? && ev.saveOk && s.sessionID != 0 then [Saved(s.sessionID, ev.chat)] else []
  {
  }

  lemma TickFollows(s: State, ev: Event, base: seq<Session>, runs: seq<string>, live: bool)
    requires Follows(s, base, runs, live) && ev.Tick? && !LosesSession(s, ev)
    ensures Follows(After(s, ev), base, runs + if ev.live && !live then [ev.title] else [], ev.live)
  {
  }

  // ---- What a failing store loses ----

  /** A tick that starts a run without a row for it, or ends a session without closing its row. */
  predicate LosesSession(s: State, ev: Event) {
    ev.Tick? && if ev.live then !s.wasLive && !ev.createOk else s.wasLive && s.sessionID > 0 && !ev.closeOk
  }

  /** A chat message that is to be filed and is not. */
  predicate LosesMessage(s: State, ev: Event) {
    ev.Broadcast? && ev.chat.Chat? && s.sessionID > 0 && !ev.saveOk
  }

  predicate LosesNoSession(s: State, evs: seq<Event>) {
    if evs == [] then true
    else
      var past, ev := evs[..|evs| - 1], evs[|evs| - 1];
      LosesNoSession(s, past) && !LosesSession(StateAfter(s, past), ev)
  }

  predicate LosesNoMessage(s: State, evs: seq<Event>) {
    if evs == [] then true
    else
      var past, ev := evs[..|evs| - 1], evs[|evs| - 1];
      LosesNoMessage(s, past) && !LosesMessage(StateAfter(s, past), ev)
  }

  /** Whatever was lost: at most one row a run, and a current session is the last row, and open. */
  predicate Bounded(s: State, base: nat, runs: nat, live: bool) {
    && s.wasLive == live && base <= |s.sessions| <= base + runs
    && (s.sessionID > 0 ==> live && s.sessionID == |s.sessions| > base && !s.sessions[s.sessionID - 1].ended)
  }

  /** Row k is open, and no tick will close it. */
  predicate LeftOpen(s: State, k: nat) {
    k < |s.sessions| && !s.sessions[k].ended && s.sessionID != k + 1
  }

  ghost predicate Lost(s: State, base: nat, runs: nat) {
    |s.sessions| < base + runs || exists k: nat :: base <= k && LeftOpen(s, k)
  }

  lemma TickBounded(s: State, ev: Event, base: nat, runs: nat, live: bool)
    requires Bounded(s, base, runs, live) && ev.Tick?
    ensures Bounded(After(s, ev), base, runs + if ev.live && !live then 1 else 0, ev.live)
  {
  }

  /** What is lost stays lost. */
  lemma TickLoses(s: State, ev: Event, base: nat, runs: nat, live: bool)
    requires Bounded(s, base, runs, live) && ev.Tick? && (Lost(s, base, runs) || LosesSession(s, ev))
    ensures Lost(After(s, ev), base, runs + if ev.live && !live then 1 else 0)
  {
    var s' := After(s, ev);
    if k: nat :| base <= k && LeftOpen(s, k) {
      assert LeftOpen(s', k);
    } else if LosesSession(s, ev) && !ev.live {
      assert LeftOpen(s', s.sessionID - 1);
    }
  }

  lemma FollowsIsNotLost(s: State, base: seq<Session>, runs: seq<string>, live: bool)
    requires Follows(s, base, runs, live)
    ensures !Lost(s, |base|, |runs|)
  {
    forall k: nat | |base| <= k < |s.sessions| ensures !LeftOpen(s, k) {
      var i := k - |base|;
      assert s.sessions[|base| + i] == Session(runs[i], !(live && i == |runs| - 1));
    }
  }

  lemma {:induction false} SessionsUpTo(s: State, evs: seq<Event>)
    requires !s.wasLive && s.sessionID == 0
    ensures var end, n := StateAfter(s, evs), |LiveRuns(evs)|;
            && Bounded(end, |s.sessions|, n, Live(evs))
            && if LosesNoSession(s, evs) then Follows(end, s.sessions, LiveRuns(evs), Live(evs))
               else Lost(end, |s.sessions|, n)
  {
    hide Bounded, Follows, Lost, LosesSession, After;
    if evs == [] {
      StartsBounded(s);
    } else {
      var past, ev := evs[..|evs| - 1], evs[|evs| - 1];
      SessionsUpTo(s, past);
      var t, runs := StateAfter(s, past), LiveRuns(past);
      if ev.Tick? {
        TickBounded(t, ev, |s.sessions|, |runs|, Live(past));
        if LosesNoSession(s, evs) {
          TickFollows(t, ev, s.sessions, runs, Live(past));
        } else {
          TickLoses(t, ev, |s.sessions|, |runs|, Live(past));
        }
      } else {
        assert LiveRuns(evs) == runs && Live(evs) == Live(past);
        OthersKeepSessions(t, ev, s.sessions, runs, Live(past));
      }
    }
  }

  lemma StartsBounded(s: State)
    requires !s.wasLive && s.sessionID == 0
    ensures Bounded(s, |s.sessions|, 0, false) && Follows(s, s.sessions, [], false)
  {
  }

  lemma OthersKeepSessions(s: State, ev: Event, base: seq<Session>, runs: seq<string>, live: bool)
    requires !ev.Tick?
    ensures !LosesSession(s, ev)
    ensures Bounded(s, |base|, |runs|, live) ==> Bounded(After(s, ev), |base|, |runs|, live)
    ensures Follows(s, base, runs, live) ==> Follows(After(s, ev), base, runs, live)
    ensures Lost(s, |base|, |runs|) ==> Lost(After(s, ev), |base|, |runs|)
  {
    OnlyTicksTouchSessions(s, ev);
    hide After;
    if k: nat :| |base| <= k && LeftOpen(s, k) {
      assert LeftOpen(After(s, ev), k);
    }
  }

  /** Over every run and whatever fails: the sessions are, one for one and in order, the maximal runs of live ticks,
      with only the one under way open and current, if and only if no tick that starts a run failed to create its
      session and no tick that ends one failed to close it. Failures on any other tick do not matter. */
  lemma SessionsFollowExactly(s: State, evs: seq<Event>)
    requires !s.wasLive && s.sessionID == 0
    ensures Follows(StateAfter(s, evs), s.sessions, LiveRuns(evs), Live(evs)) <==> LosesNoSession(s, evs)
  {
    hide *;
    SessionsUpTo(s, evs);
    if Follows(StateAfter(s, evs), s.sessions, LiveRuns(evs), Live(evs)) {
      FollowsIsNotLost(StateAfter(s, evs), s.sessions, LiveRuns(evs), Live(evs));
    }
  }

  // ---- Filed messages ----

  lemma {:induction false} FiledUpTo(s: State, evs: seq<Event>)
    requires !s.wasLive && s.sessionID == 0 && LosesNoSession(s, evs)
    ensures var saved, filed := StateAfter(s, evs).saved, Filed(evs, |s.sessions|);
            && |saved| <= |s.saved| + |filed|
            && if LosesNoMessage(s, evs) then saved == s.saved + filed else |saved| < |s.saved| + |filed|
  {
    if evs != [] {
      hide After;
      var past, ev := evs[..|evs| - 1], evs[|evs| - 1];
      FiledUpTo(s, past);
      SessionsUpTo(s, past);
      OnlyTicksTouchSessions(StateAfter(s, past), ev);
    }
  }

  /** Over every run that loses no session: every chat message processed in a live run is filed under that run's
      session, and no other message, if and only if no save of such a message failed. */
  lemma MessagesFollowExactly(s: State, evs: seq<Event>)
    requires !s.wasLive && s.sessionID == 0 && LosesNoSession(s, evs)
    ensures StateAfter(s, evs).saved == s.saved + Filed(evs, |s.sessions|) <==> LosesNoMessage(s, evs)
  {
    hide *;
    FiledUpTo(s, evs);
  }

  lemma {:induction false} NoFailureLosesNothing(s: State, evs: seq<Event>)
    requires NoFailure(evs)
    ensures LosesNoSession(s, evs) && LosesNoMessage(s, evs)
  {
    if evs != [] {
      NoFailureLosesNothing(s, evs[..|evs| - 1]);
      assert evs[|evs| - 1] in evs;
    }
  }

  /** So over every run of a hub whose store does not fail, both hold. */
  lemma SessionsFollowSignal(s: State, evs: seq<Event>)
    requires NoFailure(evs) && !s.wasLive && s.sessionID == 0
    ensures Follows(StateAfter(s, evs), s.sessions, LiveRuns(evs), Live(evs))
    ensures StateAfter(s, evs).saved == s.saved + Filed(evs, |s.sessions|)
  {
    hide *;
    NoFailureLosesNothing(s, evs);
    SessionsFollowExactly(s, evs);
    MessagesFollowExactly(s, evs);
  }

  // ---- What holds whatever fails ----

  /** Whatever fails, a current session means the signal was live, and it is the last row and open. */
  ghost predicate SessionSound(s: State) {
    s.sessionID != 0 ==> s.wasLive && s.sessionID == |s.sessions| && !s.sessions[s.sessionID - 1].ended
  }

  lemma {:induction false} SessionAlwaysSound(s: State, evs: seq<Event>)
    requires SessionSound(s)
    ensures SessionSound(StateAfter(s, evs))
    ensures s.saved <= StateAfter(s, evs).saved
  {
    if evs != [] {
      var past, ev := evs[..|evs| - 1], evs[|evs| - 1];
      SessionAlwaysSound(s, past);
      OnlyTicksTouchSessions(StateAfter(s, past), ev);
    }
  }

  /** A session that could not be created is not tried again: until the signal goes down, no session exists and
      no message is saved. */
  lemma {:induction false} FailedCreateLosesTheRun(s: State, first: Event, evs: seq<Event>)
    requires !s.wasLive && s.sessionID == 0 && first.Tick? && first.live && !first.createOk
    requires forall ev :: ev in evs && ev.Tick? ==> ev.live
    ensures var s' := StateAfter(After(s, first), evs);
            s'.sessionID == 0 && s'.wasLive && s'.sessions == s.sessions && s'.saved == s.saved
  {
    OnlyTicksTouchSessions(s, first);
    if evs != [] {
      var past, ev := evs[..|evs| - 1], evs[|evs| - 1];
      assert ev in evs;
      FailedCreateLosesTheRun(s, first, past);
      OnlyTicksTouchSessions(StateAfter(After(s, first), past), ev);
    }
  }
}
