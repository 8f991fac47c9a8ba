/** What the chat hub delivers and accounts for over whole runs (internal/chat/hub.go).

    `World` adds to the hub's state what a run leaves behind: the log of everything the hub broadcast, how many
    clients were dropped for a full buffer, and the stay of one client, which the theorems let be any client.
    Client consumption and timed-out notices are steps of their own, between the hub's. A broadcast is one step;
    `BroadcastSteps` shows that steps of clients during its sends come to the same as steps before or after it. */
module HubDelivery {
  import opened ChatHub
  import opened HubCases

  /** One client's stay: what its writer has taken from the channel, and where in the log the stay begins and
      ends. */
  datatype Stay =
    | Absent
    | Here(taken: seq<Item>, from: nat)
    | Gone(taken: seq<Item>, from: nat, until: nat)

  datatype World = World(hub: State, down: bool, log: seq<Message>, drops: nat, stay: Stay)

  /** The message a case of the loop broadcasts, if any. */
  function Emitted(s: State, ev: Event): seq<Message> {
    match ev
    case Register(_, client) => [Joined(client.name)]
    case Unregister(c) => if c in s.clients then [Left(NameOf(s, c))] else []
    case Broadcast(msg, _) => [msg]
    case DeleteMsg(id) => [Deleted(id)]
    case Tick(live, _, createOk, _) =>
      if live && !s.wasLive then if createOk then [StreamStarted] else []
      else if !live && s.wasLive && s.sessionID > 0 then [StreamEnded]
      else []
    case _ => []
  }

  /** The clients a case of the loop disconnects on purpose. */
  function Dismissed(s: State, ev: Event): set<ClientId> {
    match ev
    case Unregister(c) => s.clients * {c}
    case Kick(user) => OfUser(s, user)
    case Shutdown => s.clients
    case _ => {}
  }

  /** A client registers once. The loop ends with its shutdown; a reader's notice needs an open channel. */
  predicate Allowed(w: World, ev: Event) {
    match ev
    case Register(c, _) => !w.down && c !in w.hub.channels
    case Consume(c) => c in w.hub.channels && w.hub.channels[c].buffer != []
    case Notify(c) => c in w.hub.channels && !w.hub.channels[c].closed
    case _ => !w.down
  }

  function Next(w: World, me: ClientId, ev: Event): World
    requires Allowed(w, ev)
  {
    var hub' := After(w.hub, ev);
    World(hub', w.down || ev.Shutdown?, w.log + Emitted(w.hub, ev),
          w.drops + |w.hub.clients - hub'.clients - Dismissed(w.hub, ev)|,
          NextStay(w, me, ev, hub'))
  }

  function NextStay(w: World, me: ClientId, ev: Event, hub': State): Stay
    requires Allowed(w, ev)
  {
    match w.stay
    case Absent => if ev.Register? && ev.id == me then Here([], |w.log|) else Absent
    case Here(taken, from) =>
      if me in hub'.clients then Here(Taken(w, me, ev), from) else Gone(Taken(w, me, ev), from, |w.log|)
    case Gone(taken, from, until) => Gone(Taken(w, me, ev), from, until)
  }

  function Taken(w: World, me: ClientId, ev: Event): seq<Item>
    requires Allowed(w, ev) && !w.stay.Absent?
  {
    w.stay.taken + if ev == Consume(me) then [w.hub.channels[me].buffer[0]] else []
  }

  function HubMessages(items: seq<Item>): seq<Message> {
    if items == [] then []
    else (if items[0].FromHub? then [items[0].msg] else []) + HubMessages(items[1..])
  }

  ghost predicate Delivered(taken: seq<Item>, buffer: seq<Item>, log: seq<Message>, from: nat, until: nat) {
    from <= until <= |log| && HubMessages(taken + buffer) == log[from..until]
  }

  /** What the client has taken and what still waits in its channel, notices aside, is the log of its stay. */
  ghost predicate StaySound(stay: Stay, hub: State, log: seq<Message>, me: ClientId) {
    match stay
    case Absent => me !in hub.channels
    case Here(taken, from) =>
      me in hub.clients && me in hub.channels && Delivered(taken, hub.channels[me].buffer, log, from, |log|)
    case Gone(taken, from, until) =>
      me !in hub.clients && me in hub.channels && Delivered(taken, hub.channels[me].buffer, log, from, until)
  }

  ghost predicate GapFree(w: World, me: ClientId) {
    StaySound(w.stay, w.hub, w.log, me)
  }

  ghost predicate Counted(w: World) {
    !w.down ==> w.hub.viewerCount == |w.hub.clients| + w.drops
  }

  ghost predicate Inv(w: World, me: ClientId) {
    Consistent(w.hub) && Counted(w) && GapFree(w, me)
  }

  // ---- What one case of the loop does to the channels ----

  function Items(msgs: seq<Message>): seq<Item> {
    seq(|msgs|, i requires 0 <= i < |msgs| => FromHub(msgs[i]))
  }

  /** Clients that stay get exactly what is broadcast; channels of all others are left as they are. */
  ghost predicate Shape(s: State, s': State, msgs: seq<Message>) {
    && Consistent(s') && s'.channels.Keys == s.channels.Keys && s'.clients <= s.clients
    && (forall c :: c in s.channels ==>
          s'.channels[c].buffer == if c in s'.clients then s.channels[c].buffer + Items(msgs) else s.channels[c].buffer)
  }

  lemma FanOutShape(s: State, msg: Message)
    requires Consistent(s)
    ensures Shape(s, FanOut(s, msg), [msg]) && FanOut(s, msg).viewerCount == s.viewerCount
    ensures forall c :: c in s.clients && c !in FanOut(s, msg).clients ==> Full(s, c)
  {
  }

  /** A case of the loop, accounted for: what it sends, who leaves and why, and the viewer count. */
  ghost predicate Accounted(s: State, ev: Event) {
    var s' := After(s, ev);
    && Shape(s, s', Emitted(s, ev))
    && Dismissed(s, ev) <= s.clients && Dismissed(s, ev) !! s'.clients
    && (forall c :: c in s.clients - s'.clients - Dismissed(s, ev) ==> Full(s, c))
    && s'.viewerCount == s.viewerCount - if ev.Shutdown? then 0 else |Dismissed(s, ev)|
  }

  lemma UnregisterAccounted(s: State, c: ClientId)
    requires Consistent(s)
    ensures Accounted(s, Unregister(c))
  {
    hide Disconnected, FanOut;
    if c in s.clients {
      DisconnectedFacts(s, {c});
      var t := Disconnected(s, {c}).(viewerCount := s.viewerCount - 1);
      assert Dismissed(s, Unregister(c)) == {c};
      FanOutShape(t, Left(NameOf(s, c)));
    } else {
      assert Dismissed(s, Unregister(c)) == {} && Items([]) == [];
    }
  }

  lemma QuietAccounted(s: State, ev: Event)
    requires Consistent(s) && (ev.Kick? || ev.Shutdown?)
    ensures Accounted(s, ev)
  {
  }

  lemma BroadcastAccounted(s: State, ev: Event)
    requires Consistent(s) && (ev.Broadcast? || ev.DeleteMsg?)
    ensures Accounted(s, ev)
  {
    if ev.Broadcast? {
      FanOutShape(Persisted(s, ev.chat, ev.saveOk), ev.chat);
    } else {
      FanOutShape(s, Deleted(ev.messageId));
    }
  }

  lemma TickAccounted(s: State, live: bool, title: string, createOk: bool, closeOk: bool)
    requires Consistent(s)
    ensures Accounted(s, Tick(live, title, createOk, closeOk))
  {
    hide FanOut;
    if live && !s.wasLive && createOk {
      FanOutShape(s.(sessions := s.sessions + [Session(title, false)], sessionID := |s.sessions| + 1), StreamStarted);
    } else if !live && s.wasLive && s.sessionID > 0 {
      FanOutShape(if closeOk then Closed(s) else s, StreamEnded);
    } else {
      assert Items([]) == [];
    }
  }

  predicate HubCase(ev: Event) { !ev.Register? && !ev.Consume? && !ev.Notify? }

  lemma CaseAccounted(s: State, ev: Event)
    requires Consistent(s) && HubCase(ev)
    ensures Accounted(s, ev)
  {
    match ev
    case Unregister(c) => UnregisterAccounted(s, c);
    case Tick(live, title, createOk, closeOk) => TickAccounted(s, live, title, createOk, closeOk);
    case Kick(_) => QuietAccounted(s, ev);
    case Shutdown => QuietAccounted(s, ev);
    case Broadcast(_, _) => BroadcastAccounted(s, ev);
    case DeleteMsg(_) => BroadcastAccounted(s, ev);
  }

  /** The same for a registration: the newcomer is in, with its own greeting waiting. */
  ghost predicate Welcomed(s: State, c: ClientId, msg: Message, s': State) {
    && Consistent(s') && s'.channels.Keys == s.channels.Keys + {c}
    && c in s'.clients && s'.clients <= s.clients + {c}
    && s'.channels[c].buffer == [FromHub(msg)]
    && (forall x :: x in s.channels ==>
          s'.channels[x].buffer == if x in s'.clients then s.channels[x].buffer + Items([msg]) else s.channels[x].buffer)
    && (forall x :: x in s.clients - s'.clients ==> Full(s, x))
    && s'.viewerCount == s.viewerCount + 1
  }

  lemma RegisterAccounted(s: State, c: ClientId, client: Client)
    requires Consistent(s) && c !in s.channels
    ensures Welcomed(s, c, Joined(client.name), After(s, Register(c, client)))
  {
    hide FanOut;
    var t := Admitted(s, c, client);
    assert Consistent(t);
    FanOutShape(t, Joined(client.name));
    assert [] + Items([Joined(client.name)]) == [FromHub(Joined(client.name))];
  }

  // ---- Delivery, step by step ----

  lemma {:induction false} HubMessagesConcat(a: seq<Item>, b: seq<Item>)
    ensures HubMessages(a + b) == HubMessages(a) + HubMessages(b)
  {
    if a == [] {
      assert a + b == b;
    } else {
      var head := if a[0].FromHub? then [a[0].msg] else [];
      assert (a + b)[0] == a[0] && (a + b)[1..] == a[1..] + b;
      calc {
        HubMessages(a + b);
        head + HubMessages(a[1..] + b);
        { HubMessagesConcat(a[1..], b); }
        head + (HubMessages(a[1..]) + HubMessages(b));
        HubMessages(a) + HubMessages(b);
      }
    }
  }

  lemma {:induction false} HubMessagesOfItems(msgs: seq<Message>)
    ensures HubMessages(Items(msgs)) == msgs
  {
    if msgs != [] {
      HubMessagesOfItems(msgs[1..]);
      assert Items(msgs)[1..] == Items(msgs[1..]);
    }
  }

  /** One connected client's view of a broadcast. */
  lemma StayExtended(taken: seq<Item>, buffer: seq<Item>, log: seq<Message>, from: nat, msgs: seq<Message>)
    requires Delivered(taken, buffer, log, from, |log|)
    ensures Delivered(taken, buffer + Items(msgs), log + msgs, from, |log + msgs|)
  {
    assert taken + (buffer + Items(msgs)) == (taken + buffer) + Items(msgs);
    HubMessagesConcat(taken + buffer, Items(msgs));
    HubMessagesOfItems(msgs);
    assert (log + msgs)[from..] == log[from..] + msgs;
  }

  /** A client no longer connected is not concerned by later broadcasts. */
  lemma StayEnded(taken: seq<Item>, buffer: seq<Item>, log: seq<Message>, from: nat, until: nat, msgs: seq<Message>)
    requires Delivered(taken, buffer, log, from, until)
    ensures Delivered(taken, buffer, log + msgs, from, until)
  {
  }

  lemma StayBegun(log: seq<Message>, msg: Message)
    ensures Delivered([], [FromHub(msg)], log + [msg], |log|, |log + [msg]|)
  {
  }

  lemma ItemTaken(taken: seq<Item>, buffer: seq<Item>, log: seq<Message>, from: nat, until: nat)
    requires buffer != [] && Delivered(taken, buffer, log, from, until)
    ensures Delivered(taken + [buffer[0]], buffer[1..], log, from, until)
  {
    assert taken + [buffer[0]] + buffer[1..] == taken + buffer;
  }

  lemma NoticeSent(taken: seq<Item>, buffer: seq<Item>, log: seq<Message>, from: nat, until: nat)
    requires Delivered(taken, buffer, log, from, until)
    ensures Delivered(taken, buffer + [Notice], log, from, until)
  {
    assert taken + (buffer + [Notice]) == (taken + buffer) + [Notice];
    HubMessagesConcat(taken + buffer, [Notice]);
  }

  lemma CaseKeepsCount(w: World, me: ClientId, ev: Event)
    requires Counted(w) && Allowed(w, ev) && HubCase(ev) && Accounted(w.hub, ev)
    ensures Counted(Next(w, me, ev))
  {
  }

  /** A stay goes on, or ends here, through a step that broadcasts `msgs`. */
  lemma StaySurvives(w: World, me: ClientId, ev: Event, s': State, msgs: seq<Message>)
    requires StaySound(w.stay, w.hub, w.log, me) && !w.stay.Absent? && Allowed(w, ev) && ev != Consume(me)
    requires me in s'.channels && (me in s'.clients ==> me in w.hub.clients)
    requires s'.channels[me].buffer ==
             if me in s'.clients then w.hub.channels[me].buffer + Items(msgs) else w.hub.channels[me].buffer
    ensures StaySound(NextStay(w, me, ev, s'), s', w.log + msgs, me)
  {
    hide Delivered, Items;
    var buffer, from := w.hub.channels[me].buffer, w.stay.from;
    assert Taken(w, me, ev) == w.stay.taken;
    if w.stay.Gone? {
      StayEnded(w.stay.taken, buffer, w.log, from, w.stay.until, msgs);
    } else if me in s'.clients {
      StayExtended(w.stay.taken, buffer, w.log, from, msgs);
    } else {
      StayEnded(w.stay.taken, buffer, w.log, from, |w.log|, msgs);
    }
  }

  lemma CaseKeepsGapFree(w: World, me: ClientId, ev: Event)
    requires GapFree(w, me) && Allowed(w, ev) && HubCase(ev) && Accounted(w.hub, ev)
    ensures GapFree(Next(w, me, ev), me)
  {
    hide After, Emitted, Dismissed, Items, Full, Delivered;
    if !w.stay.Absent? {
      StaySurvives(w, me, ev, After(w.hub, ev), Emitted(w.hub, ev));
    }
  }

  lemma NewcomerCount(all: set<ClientId>, stay: set<ClientId>, c: ClientId)
    requires c !in all && c in stay && stay <= all + {c}
    ensures |all| + 1 == |stay| + |all - stay|
  {
    assert all + {c} == stay + (all - stay);
  }

  lemma RegisterKeepsCount(w: World, me: ClientId, ev: Event)
    requires Consistent(w.hub) && Counted(w) && Allowed(w, ev) && ev.Register?
    requires Welcomed(w.hub, ev.id, Joined(ev.client.name), After(w.hub, ev))
    ensures Counted(Next(w, me, ev))
  {
    hide After, Items, Full;
    var s' := After(w.hub, ev);
    NewcomerCount(w.hub.clients, s'.clients, ev.id);
    assert w.hub.clients - s'.clients - {} == w.hub.clients - s'.clients;
  }

  lemma RegisterKeepsGapFree(w: World, me: ClientId, ev: Event)
    requires Consistent(w.hub) && GapFree(w, me) && Allowed(w, ev) && ev.Register?
    requires Welcomed(w.hub, ev.id, Joined(ev.client.name), After(w.hub, ev))
    ensures GapFree(Next(w, me, ev), me)
  {
    hide After, Items, Full, Delivered;
    var msg := Joined(ev.client.name);
    if w.stay.Absent? {
      StayBegun(w.log, msg);
    } else {
      StaySurvives(w, me, ev, After(w.hub, ev), [msg]);
    }
  }

  /** A client's own step, seen by the hub: one channel changes its buffer, and nothing else. */
  lemma ClientStep(s: State, ev: Event) returns (buffer: seq<Item>)
    requires (ev.Consume? && ev.id in s.channels && s.channels[ev.id].buffer != []) || (ev.Notify? && ev.id in s.channels)
    ensures After(s, ev) == s.(channels := s.channels[ev.id := s.channels[ev.id].(buffer := buffer)])
    ensures ev.Consume? ==> buffer == s.channels[ev.id].buffer[1..]
    ensures ev.Notify? ==> buffer == s.channels[ev.id].buffer + [Notice] || buffer == s.channels[ev.id].buffer
    ensures Emitted(s, ev) == [] && Dismissed(s, ev) == {}
  {
    hide FanOut, Ticked, Disconnected;
    buffer := After(s, ev).channels[ev.id].buffer;
  }

  lemma ClientKeepsInv(w: World, me: ClientId, ev: Event)
    requires Inv(w, me) && Allowed(w, ev) && (ev.Consume? || ev.Notify?)
    ensures Inv(Next(w, me, ev), me)
  {
    hide After, Emitted, Dismissed, Delivered;
    var buffer := ClientStep(w.hub, ev);
    assert (w.hub.clients - w.hub.clients) - {} == {};
    assert w.log + [] == w.log;
    if !w.stay.Absent? && ev != Consume(me) {
      assert Taken(w, me, ev) == w.stay.taken;
    }
    if !w.stay.Absent? && ev.id == me {
      var until := if w.stay.Here? then |w.log| else w.stay.until;
      if ev.Consume? {
        ItemTaken(w.stay.taken, w.hub.channels[me].buffer, w.log, w.stay.from, until);
      } else {
        NoticeSent(w.stay.taken, w.hub.channels[me].buffer, w.log, w.stay.from, until);
      }
    }
  }

  lemma StepKeepsInv(w: World, me: ClientId, ev: Event)
    requires Inv(w, me) && Allowed(w, ev)
    ensures Inv(Next(w, me, ev), me)
  {
    hide After, Emitted, Dismissed, GapFree, Counted, Items, Full;
    if HubCase(ev) {
      CaseAccounted(w.hub, ev);
      CaseKeepsCount(w, me, ev);
      CaseKeepsGapFree(w, me, ev);
    } else if ev.Register? {
      RegisterAccounted(w.hub, ev.id, ev.client);
      RegisterKeepsCount(w, me, ev);
      RegisterKeepsGapFree(w, me, ev);
    } else {
      ClientKeepsInv(w, me, ev);
    }
  }

  // ---- Whole runs ----

  ghost predicate CanRun(w: World, me: ClientId, evs: seq<Event>)
    decreases |evs|
  {
    evs != [] ==> Allowed(w, evs[0]) && CanRun(Next(w, me, evs[0]), me, evs[1..])
  }

  ghost function Run(w: World, me: ClientId, evs: seq<Event>): World
    requires CanRun(w, me, evs)
    decreases |evs|
  {
    if evs == [] then w else Run(Next(w, me, evs[0]), me, evs[1..])
  }

  function Fresh(sessions: seq<Session>): World {
    World(State({}, map[], map[], 0, 0, false, sessions, []), false, [], 0, Absent)
  }

  /** A hub is where a run starts. */
  method NewHub(sessions: seq<Session>) returns (hub: Hub)
    ensures fresh(hub) && hub.View() == Fresh(sessions).hub
  {
    hub := new Hub(sessions);
  }

  lemma {:induction false} RunKeepsInv(w: World, me: ClientId, evs: seq<Event>)
    requires Inv(w, me) && CanRun(w, me, evs)
    ensures Inv(Run(w, me, evs), me)
    decreases |evs|
  {
    if evs != [] {
      StepKeepsInv(w, me, evs[0]);
      RunKeepsInv(Next(w, me, evs[0]), me, evs[1..]);
    }
  }

  /** Over every run and for any client: the messages it has taken or still has waiting are exactly the stretch of
      the one broadcast log from its registration up to now, or up to the point where it was dropped, kicked or
      unregistered. */
  lemma GapFreeDelivery(sessions: seq<Session>, me: ClientId, evs: seq<Event>)
    requires CanRun(Fresh(sessions), me, evs)
    ensures GapFree(Run(Fresh(sessions), me, evs), me)
  {
    RunKeepsInv(Fresh(sessions), me, evs);
  }

  /** Over every run: a channel is open exactly while its client is connected, and until shutdown the viewer
      count exceeds the clients by those dropped for a full buffer, which the code does not subtract; so it is
      exact just when nobody was. */
  lemma ViewersCounted(sessions: seq<Session>, me: ClientId, evs: seq<Event>)
    requires CanRun(Fresh(sessions), me, evs)
    ensures var w := Run(Fresh(sessions), me, evs);
            && (forall c :: c in w.hub.channels ==> (c in w.hub.clients <==> !w.hub.channels[c].closed))
            && (!w.down ==> w.hub.viewerCount == |w.hub.clients| + w.drops)
            && (!w.down ==> (w.hub.viewerCount == |w.hub.clients| <==> w.drops == 0))
  {
    RunKeepsInv(Fresh(sessions), me, evs);
  }

  // ---- Who is who ----

  lemma OnlyRegisteringNames(s: State, ev: Event)
    ensures After(s, ev).known == if ev.Register? then s.known[ev.id := ev.client] else s.known
  {
    hide Offered;
  }

  /** Every client is known as it registered. */
  ghost predicate KnownAs(known: map<ClientId, Client>, before: map<ClientId, Client>, evs: seq<Event>) {
    && (forall c, client :: Register(c, client) in evs ==> c in known && known[c] == client)
    && (forall c :: c in known ==> (c in before && known[c] == before[c]) || Register(c, known[c]) in evs)
    && (forall c :: c in before ==> c in known && known[c] == before[c])
  }

  lemma KnownCons(known: map<ClientId, Client>, before: map<ClientId, Client>, ev: Event, rest: seq<Event>)
    requires ev.Register? ==> ev.id !in before
    requires KnownAs(known, if ev.Register? then before[ev.id := ev.client] else before, rest)
    ensures KnownAs(known, before, [ev] + rest)
  {
    var evs := [ev] + rest;
    assert forall e :: e in evs <==> e == ev || e in rest;
    var mid := if ev.Register? then before[ev.id := ev.client] else before;
    assert forall c :: c in before ==> c in mid && mid[c] == before[c];
    assert ev.Register? ==> ev.id in mid && mid[ev.id] == ev.client;
  }

  lemma NewcomerIsUnknown(w: World, me: ClientId, ev: Event)
    requires Inv(w, me) && Allowed(w, ev) && ev.Register?
    ensures ev.id !in w.hub.known
  {
  }

  lemma NextKnown(w: World, me: ClientId, ev: Event)
    requires Allowed(w, ev)
    ensures Next(w, me, ev).hub.known == if ev.Register? then w.hub.known[ev.id := ev.client] else w.hub.known
  {
    OnlyRegisteringNames(w.hub, ev);
    hide After, Emitted, Dismissed, NextStay;
  }

  lemma RunCons(w: World, me: ClientId, evs: seq<Event>)
    requires CanRun(w, me, evs)
    ensures evs == [] ==> Run(w, me, evs) == w
    ensures evs != [] ==> Allowed(w, evs[0]) && CanRun(Next(w, me, evs[0]), me, evs[1..]) &&
                          Run(w, me, evs) == Run(Next(w, me, evs[0]), me, evs[1..])
  {
    hide Next, Allowed;
  }

  lemma {:induction false} KnownAlong(w: World, me: ClientId, evs: seq<Event>)
    requires Inv(w, me) && CanRun(w, me, evs)
    ensures KnownAs(Run(w, me, evs).hub.known, w.hub.known, evs)
    decreases |evs|
  {
    hide *;
    RunCons(w, me, evs);
    if evs == [] {
      AllKnown(w.hub.known);
    } else {
      var ev, rest := evs[0], evs[1..];
      StepKeepsInv(w, me, ev);
      NextKnown(w, me, ev);
      KnownAlong(Next(w, me, ev), me, rest);
      if ev.Register? {
        NewcomerIsUnknown(w, me, ev);
      }
      KnownCons(Run(w, me, evs).hub.known, w.hub.known, ev, rest);
      assert evs == [ev] + rest;
    }
  }

  lemma AllKnown(known: map<ClientId, Client>)
    ensures KnownAs(known, known, [])
  {
  }

  /** Over every run: banning a user disconnects exactly the clients that registered as that user, and every other one
      stays. */
  lemma KickDisconnectsTheUser(sessions: seq<Session>, me: ClientId, evs: seq<Event>, user: int)
    requires CanRun(Fresh(sessions), me, evs)
    ensures var s := Run(Fresh(sessions), me, evs).hub;
            && (forall c, client :: Register(c, client) in evs && c in s.clients ==>
                  (c in After(s, Kick(user)).clients <==> client.user != user))
            && (forall c :: c in After(s, Kick(user)).clients ==>
                  c in s.clients && exists client :: Register(c, client) in evs && client.user != user)
  {
    var w := Run(Fresh(sessions), me, evs);
    RunKeepsInv(Fresh(sessions), me, evs);
    KnownAlong(Fresh(sessions), me, evs);
    KickMeans(w.hub, user);
    hide After, Run;
    forall c | c in After(w.hub, Kick(user)).clients
      ensures exists client :: Register(c, client) in evs && client.user != user
    {
      assert Register(c, w.hub.known[c]) in evs;
    }
  }

  /** And a leaving client is told of by the name it registered with. */
  lemma LeftUnderItsName(sessions: seq<Session>, me: ClientId, evs: seq<Event>, w: World, c: ClientId, client: Client)
    requires CanRun(Fresh(sessions), me, evs) && w == Run(Fresh(sessions), me, evs)
    requires Register(c, client) in evs && c in w.hub.clients && !w.down
    ensures Next(w, me, Unregister(c)).log == w.log + [Left(client.name)]
  {
    RunKeepsInv(Fresh(sessions), me, evs);
    KnownAlong(Fresh(sessions), me, evs);
  }
}
