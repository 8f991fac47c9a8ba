/** The chat hub's event loop (internal/chat/hub.go): bounded per-client channels, slow clients dropped, and the
    session that follows the live signal.

    `State` is what the loop's variables and the channels hold; the functions on it say what each case of the
    loop does, and the class carries it out with the source's loops and channel operations. Its channel
    operations demand an open channel, so the class also shows that the hub never sends on a closed channel
    and never closes one twice. */
module ChatHub {

  type ClientId = nat

  /** What the hub puts on the wire. */
  datatype Message =
    | Joined(name: string)
    | Left(name: string)
    | Chat(user: int, name: string, text: string)
    | Deleted(messageId: int)
    | StreamStarted
    | StreamEnded

  /** A channel also carries the notices a reader sends to its own client. */
  datatype Item = FromHub(msg: Message) | Notice

  datatype Channel = Channel(buffer: seq<Item>, closed: bool)

  datatype Client = Client(user: int, name: string)

  datatype Session = Session(title: string, ended: bool)

  datatype Saved = Saved(session: nat, msg: Message)

  /** Sessions are numbered from 1 in the order of the table; 0 is no session. */
  datatype State = State(
    clients: set<ClientId>,
    channels: map<ClientId, Channel>,
    known: map<ClientId, Client>,
    viewerCount: int,
    sessionID: nat,
    wasLive: bool,
    sessions: seq<Session>,
    saved: seq<Saved>)

  const CAPACITY: nat := 256

  predicate Full(s: State, c: ClientId) {
    c in s.channels && |s.channels[c].buffer| >= CAPACITY
  }

  /** Offering a message to every client; one whose buffer is full is dropped. */
  function FanOut(s: State, msg: Message): State {
    s.(clients := (set c | c in s.clients && !Full(s, c)),
       channels := map c | c in s.channels :: Offered(s, c, msg))
  }

  function Offered(s: State, c: ClientId, msg: Message): Channel
    requires c in s.channels
  {
    var ch := s.channels[c];
    if c !in s.clients then ch
    else if Full(s, c) then ch.(closed := true)
    else ch.(buffer := ch.buffer + [FromHub(msg)])
  }

  /** Removing these clients and closing their channels. */
  function Disconnected(s: State, gone: set<ClientId>): State {
    s.(clients := s.clients - gone,
       channels := map c | c in s.channels ::
         if c in gone then s.channels[c].(closed := true) else s.channels[c])
  }

  datatype Event =
    | Register(id: ClientId, client: Client)
    | Unregister(id: ClientId)
    | Kick(user: int)
    | Broadcast(chat: Message, saveOk: bool)
    | DeleteMsg(messageId: int)
    | Tick(live: bool, title: string, createOk: bool, closeOk: bool)
    | Shutdown
    | Consume(id: ClientId)   // the client's writer takes the next item
    | Notify(id: ClientId)    // the client's reader offers a timed-out notice

  function OfUser(s: State, user: int): set<ClientId> {
    set c | c in s.clients && c in s.known && s.known[c].user == user
  }

  function NameOf(s: State, c: ClientId): string {
    if c in s.known then s.known[c].name else ""
  }

  function Admitted(s: State, c: ClientId, client: Client): State {
    s.(clients := s.clients + {c}, channels := s.channels[c := Channel([], false)], known := s.known[c := client],
       viewerCount := s.viewerCount + 1)
  }

  function Ticked(s: State, live: bool, title: string, createOk: bool, closeOk: bool): State {
    var s' :=
      if live && !s.wasLive && createOk then
        FanOut(s.(sessions := s.sessions + [Session(title, false)], sessionID := |s.sessions| + 1), StreamStarted)
      else if !live && s.wasLive && s.sessionID > 0 then
        FanOut(if closeOk then Closed(s) else s, StreamEnded).(sessionID := 0)
      else s;
    s'.(wasLive := live)
  }

  /** The UPDATE touches the row with this id, if there is one. */
  function Closed(s: State): State {
    if 0 < s.sessionID <= |s.sessions|
    then s.(sessions := s.sessions[s.sessionID - 1 := s.sessions[s.sessionID - 1].(ended := true)])
    else s
  }

  function Persisted(s: State, msg: Message, saveOk: bool): State {
    if msg.Chat? && s.sessionID != 0 && saveOk then s.(saved := s.saved + [Saved(s.sessionID, msg)]) else s
  }

  function After(s: State, ev: Event): State {
    match ev
    case Register(c, client) => FanOut(Admitted(s, c, client), Joined(client.name))
    case Unregister(c) =>
      if c in s.clients then
        FanOut(Disconnected(s, {c}).(viewerCount := s.viewerCount - 1), Left(NameOf(s, c)))
      else s
    case Kick(user) => Disconnected(s, OfUser(s, user)).(viewerCount := s.viewerCount - |OfUser(s, user)|)
    case Broadcast(msg, saveOk) => FanOut(Persisted(s, msg, saveOk), msg)
    case DeleteMsg(id) => FanOut(s, Deleted(id))
    case Tick(live, title, createOk, closeOk) => Ticked(s, live, title, createOk, closeOk)
    case Shutdown => Disconnected(s, s.clients)
    case Consume(c) =>
      if c in s.channels && s.channels[c].buffer != []
      then s.(channels := s.channels[c := s.channels[c].(buffer := s.channels[c].buffer[1..])]) else s
    case Notify(c) =>
      if c in s.channels && !Full(s, c)
      then s.(channels := s.channels[c := s.channels[c].(buffer := s.channels[c].buffer + [Notice])]) else s
  }

  /** The state of a hub that accounts for its clients: each is known and has its channel, and a channel is open
      exactly while its client is connected. */
  predicate Consistent(s: State) {
    && s.clients <= s.channels.Keys && s.channels.Keys == s.known.Keys
    && (forall c :: c in s.channels ==> (c in s.clients <==> !s.channels[c].closed))
  }

  class Hub {
    var clients: set<ClientId>
    var channels: map<ClientId, Channel>
    var known: map<ClientId, Client>
    var viewerCount: int
    var sessionID: nat
    var wasLive: bool
    var sessions: seq<Session>
    var saved: seq<Saved>

    ghost function View(): State reads this {
      State(clients, channels, known, viewerCount, sessionID, wasLive, sessions, saved)
    }

    constructor (sessions: seq<Session>)
      ensures View() == State({}, map[], map[], 0, 0, false, sessions, []) && Consistent(View())
    {
      clients, channels, known, viewerCount := {}, map[], map[], 0;
      sessionID, wasLive, this.sessions, saved := 0, false, sessions, [];
    }

    // -- Channel operations --

    method TrySend(c: ClientId, item: Item) returns (sent: bool)
      requires c in channels && !channels[c].closed
      modifies this`channels
      ensures sent <==> |old(channels)[c].buffer| < CAPACITY
      ensures channels == if sent then old(channels)[c := Channel(old(channels)[c].buffer + [item], false)] else old(channels)
    {
      sent := |channels[c].buffer| < CAPACITY;
      if sent {
        channels := channels[c := channels[c].(buffer := channels[c].buffer + [item])];
      }
    }

    method Close(c: ClientId)
      requires c in channels && !channels[c].closed
      modifies this`channels
      ensures channels == old(channels)[c := Channel(old(channels)[c].buffer, true)]
    {
      channels := channels[c := channels[c].(closed := true)];
    }

    // -- The loop's cases --

    /** The loop every broadcast ends with; it ranges over the clients in any order. */
    method SendToAll(msg: Message)
      requires Consistent(View())
      modifies this`clients, this`channels
      ensures View() == FanOut(old(View()), msg) && Consistent(View())
    {
      hide Offered, SlowAmong, PartlyOffered, FanOut;
      ghost var s, done: set<ClientId> := View(), {};
      NobodyOffered(s, msg);
      var left := clients;
      while left != {}
        invariant left <= s.clients && done == s.clients - left
        invariant clients == s.clients - SlowAmong(s, done)
        invariant channels == PartlyOffered(s, done, msg)
        decreases left
      {
        var c :| c in left;
        left := left - {c};
        OfferOneMore(s, done, c, msg);
        done := done + {c};
        var sent := TrySend(c, FromHub(msg));
        if !sent {
          clients := clients - {c};
          Close(c);
        }
      }
      OfferedToAll(s, done, msg);
    }

    method OnRegister(c: ClientId, client: Client)
      requires Consistent(View()) && c !in channels
      modifies this
      ensures View() == After(old(View()), Register(c, client)) && Consistent(View())
    {
      hide FanOut, Offered;
      channels := channels[c := Channel([], false)];
      known := known[c := client];
      clients := clients + {c};
      viewerCount := viewerCount + 1;
      SendToAll(Joined(client.name));
    }

    method OnUnregister(c: ClientId)
      requires Consistent(View())
      modifies this
      ensures View() == After(old(View()), Unregister(c)) && Consistent(View())
    {
      hide FanOut, Offered;
      if c in clients {
        ghost var s := View();
        clients := clients - {c};
        Close(c);
        viewerCount := viewerCount - 1;
        assert channels == Disconnected(s, {c}).channels;
        SendToAll(Left(known[c].name));
      }
    }

    method OnKick(user: int)
      requires Consistent(View())
      modifies this`clients, this`channels, this`viewerCount
      ensures View() == After(old(View()), Kick(user)) && Consistent(View())
    {
      hide KickedSoFar, After, Consistent;
      ghost var s, gone: set<ClientId> := View(), {};
      var left := clients;
      KickStarts(s, user);
      while left != {}
        invariant KickedSoFar(s, user, left, gone, View())
        decreases left
      {
        var c :| c in left;
        KickStep(s, user, left, gone, View(), c);
        left := left - {c};
        if known[c].user == user {
          gone := gone + {c};
          clients := clients - {c};
          Close(c);
          viewerCount := viewerCount - 1;
        }
      }
      KickEnds(s, user, gone, View());
    }

    method OnBroadcast(msg: Message, saveOk: bool)
      requires Consistent(View())
      modifies this
      ensures View() == After(old(View()), Broadcast(msg, saveOk)) && Consistent(View())
    {
      if msg.Chat? && sessionID != 0 {
        if saveOk {
          saved := saved + [Saved(sessionID, msg)];
        }
      }
      SendToAll(msg);
    }

    method OnDelete(messageId: int)
      requires Consistent(View())
      modifies this
      ensures View() == After(old(View()), DeleteMsg(messageId)) && Consistent(View())
    {
      SendToAll(Deleted(messageId));
    }

    method CheckLiveStatus(live: bool, title: string, createOk: bool, closeOk: bool)
      requires Consistent(View())
      modifies this
      ensures View() == After(old(View()), Tick(live, title, createOk, closeOk)) && Consistent(View())
    {
      hide FanOut, Offered;
      if live && !wasLive {
        if createOk {
          sessions := sessions + [Session(title, false)];
          sessionID := |sessions|;
          SendToAll(StreamStarted);
        }
      }
      if !live && wasLive {
        if sessionID > 0 {
          if closeOk && sessionID <= |sessions| {
            sessions := sessions[sessionID - 1 := sessions[sessionID - 1].(ended := true)];
          }
          SendToAll(StreamEnded);
          sessionID := 0;
        }
      }
      wasLive := live;
    }

    method CloseAllClients()
      requires Consistent(View())
      modifies this`clients, this`channels
      ensures View() == After(old(View()), Shutdown) && Consistent(View())
    {
      hide Disconnected;
      ghost var s, gone: set<ClientId> := View(), {};
      DisconnectedFacts(s, gone);
      while clients != {}
        invariant clients == s.clients - gone && gone <= s.clients
        invariant channels == Disconnected(s, gone).channels
        decreases clients
      {
        var c :| c in clients;
        CloseOneMore(s, gone, c);
        gone := gone + {c};
        Close(c);
        clients := clients - {c};
      }
      assert gone == s.clients;
      DisconnectedFacts(s, gone);
    }
  }

  // ---- The loops, one client at a time ----

  ghost function SlowAmong(s: State, done: set<ClientId>): set<ClientId> {
    set c | c in done && Full(s, c)
  }

  ghost function PartlyOffered(s: State, done: set<ClientId>, msg: Message): map<ClientId, Channel> {
    map c | c in s.channels :: if c in done then Offered(s, c, msg) else s.channels[c]
  }

  lemma NobodyOffered(s: State, msg: Message)
    ensures SlowAmong(s, {}) == {} && PartlyOffered(s, {}, msg) == s.channels
  {
  }

  lemma OfferOneMore(s: State, done: set<ClientId>, c: ClientId, msg: Message)
    requires Consistent(s) && c in s.clients && c !in done
    ensures c in PartlyOffered(s, done, msg) && PartlyOffered(s, done, msg)[c] == s.channels[c] && !s.channels[c].closed
    ensures PartlyOffered(s, done + {c}, msg) == PartlyOffered(s, done, msg)[c := Offered(s, c, msg)]
    ensures SlowAmong(s, done + {c}) == if Full(s, c) then SlowAmong(s, done) + {c} else SlowAmong(s, done)
    ensures Offered(s, c, msg) == if Full(s, c) then Channel(s.channels[c].buffer, true)
                                  else Channel(s.channels[c].buffer + [FromHub(msg)], false)
  {
  }

  lemma OfferedToAll(s: State, done: set<ClientId>, msg: Message)
    requires Consistent(s) && done == s.clients
    ensures FanOut(s, msg) == s.(clients := s.clients - SlowAmong(s, done), channels := PartlyOffered(s, done, msg))
    ensures Consistent(FanOut(s, msg))
  {
  }

  lemma DisconnectedFacts(s: State, gone: set<ClientId>)
    requires Consistent(s) && gone <= s.clients
    ensures Consistent(Disconnected(s, gone)) && (gone == {} ==> Disconnected(s, gone) == s)
    ensures Disconnected(s, gone) == s.(clients := s.clients - gone, channels := Disconnected(s, gone).channels)
    ensures Disconnected(s, gone).channels.Keys == s.channels.Keys
    ensures forall c :: c in s.channels ==> Disconnected(s, gone).channels[c].buffer == s.channels[c].buffer
  {
  }

  /** The kick of a user with `left` still to be met: `gone` are the clients of that user met so far. */
  ghost predicate KickedSoFar(s: State, user: int, left: set<ClientId>, gone: set<ClientId>, now: State) {
    && Consistent(s) && left <= s.clients - gone
    && gone <= OfUser(s, user) <= gone + left
    && now == Disconnected(s, gone).(viewerCount := s.viewerCount - |gone|)
  }

  lemma KickStarts(s: State, user: int)
    requires Consistent(s)
    ensures KickedSoFar(s, user, s.clients, {}, s)
  {
    DisconnectedFacts(s, {});
    hide Disconnected;
  }

  lemma OneLess(all: set<ClientId>, gone: set<ClientId>, target: set<ClientId>, left: set<ClientId>, c: ClientId)
    requires gone <= target <= gone + left && c in left && left <= all - gone
    ensures if c in target then gone + {c} <= target <= gone + {c} + (left - {c}) && left - {c} <= all - (gone + {c})
            else target <= gone + (left - {c}) && left - {c} <= all - gone
  {
  }

  lemma KickStep(s: State, user: int, left: set<ClientId>, gone: set<ClientId>, now: State, c: ClientId)
    requires KickedSoFar(s, user, left, gone, now) && c in left
    ensures c in now.channels && !now.channels[c].closed && c in now.known
    ensures if now.known[c].user == user then
              KickedSoFar(s, user, left - {c}, gone + {c},
                now.(clients := now.clients - {c}, channels := now.channels[c := Channel(now.channels[c].buffer, true)],
                     viewerCount := now.viewerCount - 1))
            else KickedSoFar(s, user, left - {c}, gone, now)
  {
    ClientOf(s, user, c);
    CloseOneMore(s, gone, c);
    hide Disconnected, OfUser, Consistent;
    OneMoreGone(s, gone, c);
    OneLess(s.clients, gone, OfUser(s, user), left, c);
  }

  lemma ClientOf(s: State, user: int, c: ClientId)
    requires Consistent(s) && c in s.clients
    ensures c in s.known && c in s.channels && (c in OfUser(s, user) <==> s.known[c].user == user)
  {
  }

  lemma OneMoreGone(s: State, gone: set<ClientId>, c: ClientId)
    requires Consistent(s) && c in s.clients && c !in gone && gone <= s.clients
    ensures Disconnected(s, gone + {c}) == Disconnected(s, gone).(clients := s.clients - gone - {c},
              channels := Disconnected(s, gone).channels[c := Channel(s.channels[c].buffer, true)])
    ensures |gone + {c}| == |gone| + 1 && Disconnected(s, gone).clients == s.clients - gone
  {
    CloseOneMore(s, gone, c);
    assert s.clients - gone - {c} == s.clients - (gone + {c});
  }

  lemma KickEnds(s: State, user: int, gone: set<ClientId>, now: State)
    requires KickedSoFar(s, user, {}, gone, now)
    ensures now == After(s, Kick(user)) && Consistent(now)
  {
    assert gone == OfUser(s, user);
    DisconnectedFacts(s, gone);
    hide Disconnected;
  }

  lemma CloseOneMore(s: State, gone: set<ClientId>, c: ClientId)
    requires Consistent(s) && c in s.clients && c !in gone
    ensures c in Disconnected(s, gone).channels && Disconnected(s, gone).channels[c] == s.channels[c] && !s.channels[c].closed
    ensures Disconnected(s, gone + {c}).channels == Disconnected(s, gone).channels[c := Channel(s.channels[c].buffer, true)]
  {
  }
}
