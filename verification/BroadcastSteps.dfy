/** A broadcast, send by send (internal/chat/hub.go, the loop every broadcast ends with). `FanOut` is one step, but the
    source sends to one client after the other while readers and writers of the channels go on. Here each send is a
    step, and every interleaving is shown to come to the same as doing each client's own steps that precede its send
    before the broadcast, and the others after it. */
module BroadcastSteps {
  import opened ChatHub

  /** A send to one client, or a client's own step. */
  datatype Micro = Offer(id: ClientId) | Take(id: ClientId) | Notice(id: ClientId)

  /** What the hub and its client share. */
  datatype Line = Line(channel: Channel, connected: bool)

  function LineOf(s: State, c: ClientId): Line
    requires c in s.channels
  {
    Line(s.channels[c], c in s.clients)
  }

  function MicroStep(s: State, msg: Message, m: Micro): State {
    match m
    case Take(c) => After(s, Consume(c))
    case Notice(c) => After(s, Notify(c))
    case Offer(c) =>
      if c !in s.channels then s
      else if Full(s, c) then
        s.(clients := s.clients - {c}, channels := s.channels[c := s.channels[c].(closed := true)])
      else s.(channels := s.channels[c := s.channels[c].(buffer := s.channels[c].buffer + [FromHub(msg)])])
  }

  function MicroRun(s: State, msg: Message, ms: seq<Micro>): State
    decreases |ms|
  {
    if ms == [] then s else MicroRun(MicroStep(s, msg, ms[0]), msg, ms[1..])
  }

  // ---- One client's line ----

  function LineStep(l: Line, msg: Message, m: Micro): Line {
    var full := |l.channel.buffer| >= CAPACITY;
    match m
    case Take(_) => if l.channel.buffer == [] then l else l.(channel := l.channel.(buffer := l.channel.buffer[1..]))
    case Notice(_) =>
      if full then l else l.(channel := l.channel.(buffer := l.channel.buffer + [Item.Notice]))
    case Offer(_) =>
      if full then Line(l.channel.(closed := true), false)
      else l.(channel := l.channel.(buffer := l.channel.buffer + [FromHub(msg)]))
  }

  function LineRun(l: Line, msg: Message, ms: seq<Micro>): Line
    decreases |ms|
  {
    if ms == [] then l else LineRun(LineStep(l, msg, ms[0]), msg, ms[1..])
  }

  function Of(ms: seq<Micro>, c: ClientId): seq<Micro> {
    if ms == [] then [] else if ms[0].id == c then [ms[0]] + Of(ms[1..], c) else Of(ms[1..], c)
  }

  /** Everything but the lines; clients only leave. */
  ghost predicate SameRest(s: State, s': State) {
    && s'.channels.Keys == s.channels.Keys && s'.clients <= s.clients
    && s' == s.(clients := s'.clients, channels := s'.channels)
  }

  lemma {:induction false} RunKeepsRest(s: State, msg: Message, ms: seq<Micro>)
    ensures SameRest(s, MicroRun(s, msg, ms))
    decreases |ms|
  {
    if ms != [] {
      RunKeepsRest(MicroStep(s, msg, ms[0]), msg, ms[1..]);
    }
  }

  lemma StepOnLine(s: State, msg: Message, m: Micro, c: ClientId)
    requires c in s.channels
    ensures var s' := MicroStep(s, msg, m);
            SameRest(s, s') && LineOf(s', c) == if m.id == c then LineStep(LineOf(s, c), msg, m) else LineOf(s, c)
  {
  }

  lemma {:induction false} RunOnLine(s: State, msg: Message, ms: seq<Micro>, c: ClientId)
    requires c in s.channels
    ensures var s' := MicroRun(s, msg, ms);
            SameRest(s, s') && LineOf(s', c) == LineRun(LineOf(s, c), msg, Of(ms, c))
    decreases |ms|
  {
    if ms != [] {
      hide LineStep, MicroStep;
      StepOnLine(s, msg, ms[0], c);
      RunOnLine(MicroStep(s, msg, ms[0]), msg, ms[1..], c);
      LineRunCons(LineOf(s, c), msg, ms[0], Of(ms[1..], c));
    }
  }

  lemma LineRunCons(l: Line, msg: Message, m: Micro, ms: seq<Micro>)
    ensures LineRun(l, msg, [m] + ms) == LineRun(LineStep(l, msg, m), msg, ms)
  {
    assert ([m] + ms)[1..] == ms;
  }

  lemma {:induction false} LineRunConcat(l: Line, msg: Message, a: seq<Micro>, b: seq<Micro>)
    ensures LineRun(l, msg, a + b) == LineRun(LineRun(l, msg, a), msg, b)
    decreases |a|
  {
    hide LineStep;
    if a == [] {
      assert a + b == b;
    } else {
      assert a + b == [a[0]] + (a[1..] + b);
      LineRunCons(l, msg, a[0], a[1..] + b);
      LineRunConcat(LineStep(l, msg, a[0]), msg, a[1..], b);
    }
  }

  // ---- Early and late ----

  /** The clients' own steps that come before the send to that client. */
  function Early(ms: seq<Micro>): seq<Micro> {
    if ms == [] then []
    else if !ms[0].Offer? && Offer(ms[0].id) in ms[1..] then [ms[0]] + Early(ms[1..])
    else Early(ms[1..])
  }

  function Late(ms: seq<Micro>): seq<Micro> {
    if ms == [] then []
    else if !ms[0].Offer? && Offer(ms[0].id) !in ms[1..] then [ms[0]] + Late(ms[1..])
    else Late(ms[1..])
  }

  lemma OfCons(m: Micro, ms: seq<Micro>, c: ClientId)
    ensures Of([m] + ms, c) == if m.id == c then [m] + Of(ms, c) else Of(ms, c)
  {
    assert ([m] + ms)[1..] == ms;
  }

  lemma {:induction false} AllLate(ms: seq<Micro>, c: ClientId)
    requires Offer(c) !in ms
    ensures Of(Early(ms), c) == [] && Of(Late(ms), c) == Of(ms, c)
  {
    if ms != [] {
      AllLate(ms[1..], c);
      OfCons(ms[0], Early(ms[1..]), c);
      OfCons(ms[0], Late(ms[1..]), c);
    }
  }

  predicate OffersOnce(ms: seq<Micro>) {
    forall i, j :: 0 <= i < j < |ms| && ms[i].Offer? ==> ms[i] != ms[j]
  }

  lemma {:induction false} CutAtOffer(ms: seq<Micro>, c: ClientId)
    requires Offer(c) in ms && OffersOnce(ms)
    ensures Of(ms, c) == Of(Early(ms), c) + [Offer(c)] + Of(Late(ms), c)
  {
    var m, rest := ms[0], ms[1..];
    OfCons(m, Early(rest), c);
    OfCons(m, Late(rest), c);
    if m == Offer(c) {
      AllLate(rest, c);
    } else {
      CutAtOffer(rest, c);
    }
  }

  lemma {:induction false} OwnStepsKeepClients(s: State, msg: Message, ms: seq<Micro>)
    requires forall m :: m in ms ==> !m.Offer?
    ensures MicroRun(s, msg, ms).clients == s.clients
    decreases |ms|
  {
    if ms != [] {
      OwnStepsKeepClients(MicroStep(s, msg, ms[0]), msg, ms[1..]);
    }
  }

  lemma {:induction false} OwnSteps(ms: seq<Micro>)
    ensures forall m :: m in Early(ms) + Late(ms) ==> !m.Offer?
  {
    if ms != [] {
      OwnSteps(ms[1..]);
    }
  }

  lemma FanOutKeepsRest(s: State, msg: Message)
    ensures SameRest(s, FanOut(s, msg))
  {
  }

  lemma FanOutOnLine(s: State, msg: Message, c: ClientId)
    requires c in s.channels
    ensures c in FanOut(s, msg).channels
    ensures LineOf(FanOut(s, msg), c) == if c in s.clients then LineStep(LineOf(s, c), msg, Offer(c)) else LineOf(s, c)
  {
  }

  lemma SameLines(s: State, a: State, b: State)
    requires SameRest(s, a) && SameRest(s, b) && s.clients <= s.channels.Keys
    requires forall c :: c in s.channels ==> LineOf(a, c) == LineOf(b, c)
    ensures a == b
  {
    forall c | c in s.channels ensures a.channels[c] == b.channels[c] && (c in a.clients <==> c in b.clients) {
      assert LineOf(a, c) == LineOf(b, c);
    }
    assert a.channels == b.channels && a.clients == b.clients;
  }

  /** Whatever the order of the sends and however the clients' own steps come between them: the same state is reached by
      the own steps that precede the send to their client, then the broadcast as one step, then the other own steps. */
  lemma BroadcastAsOneStep(s: State, msg: Message, ms: seq<Micro>)
    requires Consistent(s) && OffersOnce(ms) && forall c :: Offer(c) in ms <==> c in s.clients
    ensures MicroRun(s, msg, ms) == MicroRun(FanOut(MicroRun(s, msg, Early(ms)), msg), msg, Late(ms))
  {
    hide MicroRun, FanOut, LineStep, LineRun, Early, Late, Of;
    var early, late := Early(ms), Late(ms);
    var a := MicroRun(s, msg, early);
    var b := FanOut(a, msg);
    OwnSteps(ms);
    OwnStepsKeepClients(s, msg, early);
    RunKeepsRest(s, msg, ms);
    RunKeepsRest(s, msg, early);
    FanOutKeepsRest(a, msg);
    RunKeepsRest(b, msg, late);
    forall c | c in s.channels
      ensures LineOf(MicroRun(s, msg, ms), c) == LineOf(MicroRun(b, msg, late), c)
    {
      RunOnLine(s, msg, ms, c);
      RunOnLine(s, msg, early, c);
      FanOutOnLine(a, msg, c);
      RunOnLine(b, msg, late, c);
      SameFate(LineOf(s, c), msg, ms, c);
    }
    SameLines(s, MicroRun(s, msg, ms), MicroRun(b, msg, late));
  }

  lemma SameFate(l: Line, msg: Message, ms: seq<Micro>, c: ClientId)
    requires OffersOnce(ms)
    ensures LineRun(l, msg, Of(ms, c)) ==
            var before := LineRun(l, msg, Of(Early(ms), c));
            LineRun(if Offer(c) in ms then LineStep(before, msg, Offer(c)) else before, msg, Of(Late(ms), c))
  {
    var early, late := Of(Early(ms), c), Of(Late(ms), c);
    if Offer(c) in ms {
      CutAtOffer(ms, c);
      hide LineStep;
      LineRunConcat(l, msg, early + [Offer(c)], late);
      LineRunConcat(l, msg, early, [Offer(c)]);
      LineRunCons(LineRun(l, msg, early), msg, Offer(c), []);
      assert [Offer(c)] + [] == [Offer(c)];
    } else {
      AllLate(ms, c);
    }
  }
}
