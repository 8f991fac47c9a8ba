/** What each case of the chat hub's loop does (internal/chat/hub.go), said of the clients and their channels alone. */
module HubCases {
  import opened ChatHub

  /** A client of `before` with fewer than 256 items waiting stays and gets the message; any other one leaves, its channel
      closed with what it holds. Nobody else's channel changes. */
  ghost predicate AllOffered(before: State, msg: Message, after: State) {
    && after.clients <= before.clients && after.channels.Keys == before.channels.Keys && after.known == before.known
    && (forall c :: c in before.clients && c in before.channels ==>
          var ch := before.channels[c];
          if |ch.buffer| < 256 then c in after.clients && after.channels[c] == ch.(buffer := ch.buffer + [FromHub(msg)])
          else c !in after.clients && after.channels[c] == ch.(closed := true))
    && (forall c :: c in before.channels && c !in before.clients ==> after.channels[c] == before.channels[c])
    && after.viewerCount == before.viewerCount
  }

  lemma FanOutOffers(s: State, msg: Message)
    requires Consistent(s)
    ensures AllOffered(s, msg, FanOut(s, msg))
  {
  }

  /** A registered client is known as it registered, is counted, and is told of with everyone else. */
  lemma RegisterMeans(s: State, c: ClientId, client: Client)
    requires Consistent(s) && c !in s.channels
    ensures var t := s.(clients := s.clients + {c}, channels := s.channels[c := Channel([], false)],
                        known := s.known[c := client], viewerCount := s.viewerCount + 1);
            AllOffered(t, Joined(client.name), After(s, Register(c, client)))
  {
    FanOutOffers(Admitted(s, c, client), Joined(client.name));
    hide FanOut;
  }

  /** Of a user's clients, exactly the connected ones leave, closed and uncounted, and nobody is told anything. */
  lemma KickMeans(s: State, user: int)
    requires Consistent(s)
    ensures var s' := After(s, Kick(user));
            && (forall c :: c in s'.clients <==> c in s.clients && s.known[c].user != user)
            && s'.known == s.known && s'.channels.Keys == s.channels.Keys
            && (forall c :: c in s.channels ==>
                  s'.channels[c] == if c in s.clients && s.known[c].user == user then s.channels[c].(closed := true)
                                    else s.channels[c])
            && s'.viewerCount - |s'.clients| == s.viewerCount - |s.clients|
  {
    var gone := OfUser(s, user);
    assert |s.clients| == |s.clients - gone| + |gone| by {
      assert s.clients == (s.clients - gone) + gone;
    }
  }

  /** An unregistered client leaves, closed and uncounted, and the others are told its name; a client that left before
      changes nothing. */
  lemma UnregisterMeans(s: State, c: ClientId)
    requires Consistent(s)
    ensures c !in s.clients ==> After(s, Unregister(c)) == s
    ensures c in s.clients ==>
              var t := s.(clients := s.clients - {c}, channels := s.channels[c := Channel(s.channels[c].buffer, true)],
                          viewerCount := s.viewerCount - 1);
              AllOffered(t, Left(s.known[c].name), After(s, Unregister(c)))
  {
    if c in s.clients {
      var t := s.(clients := s.clients - {c}, channels := s.channels[c := Channel(s.channels[c].buffer, true)],
                  viewerCount := s.viewerCount - 1);
      assert Disconnected(s, {c}).channels == t.channels;
      FanOutOffers(t, Left(s.known[c].name));
      hide FanOut;
    }
  }

  /** Everyone gets the message, and chat is saved under the session there is, if the store lets it. */
  lemma BroadcastMeans(s: State, msg: Message, saveOk: bool)
    requires Consistent(s)
    ensures var s' := After(s, Broadcast(msg, saveOk));
            && AllOffered(s, msg, s')
            && s'.saved == s.saved + (if msg.Chat? && s.sessionID != 0 && saveOk then [Saved(s.sessionID, msg)] else [])
            && s'.sessions == s.sessions && s'.sessionID == s.sessionID && s'.wasLive == s.wasLive
  {
    FanOutOffers(Persisted(s, msg, saveOk), msg);
  }

  /** Everyone is told which message is deleted. */
  lemma DeleteMeans(s: State, messageId: int)
    requires Consistent(s)
    ensures AllOffered(s, Deleted(messageId), After(s, DeleteMsg(messageId)))
  {
    FanOutOffers(s, Deleted(messageId));
  }

  /** When the signal comes up, a session with the title is opened and everyone told, if the store lets it. When it goes
      down with a session open, its row is ended, if the store lets it, and everyone told; any other tick only notes the
      signal. */
  lemma TickMeans(s: State, live: bool, title: string, createOk: bool, closeOk: bool)
    requires Consistent(s) && (s.sessionID > 0 ==> s.sessionID <= |s.sessions|)
    ensures var s' := After(s, Tick(live, title, createOk, closeOk));
            && s'.wasLive == live && s'.saved == s.saved
            && (live && !s.wasLive && createOk ==>
                  s'.sessions == s.sessions + [Session(title, false)] && s'.sessionID == |s'.sessions| &&
                  AllOffered(s, StreamStarted, s'))
            && (!live && s.wasLive && s.sessionID > 0 ==>
                  s'.sessionID == 0 && AllOffered(s, StreamEnded, s') &&
                  s'.sessions == if closeOk then s.sessions[s.sessionID - 1 := Session(s.sessions[s.sessionID - 1].title, true)]
                                 else s.sessions)
            && (!(live && !s.wasLive && createOk) && !(!live && s.wasLive && s.sessionID > 0) ==>
                  s' == s.(wasLive := live))
  {
    if live && !s.wasLive && createOk {
      FanOutOffers(s.(sessions := s.sessions + [Session(title, false)], sessionID := |s.sessions| + 1), StreamStarted);
    } else if !live && s.wasLive && s.sessionID > 0 {
      FanOutOffers(if closeOk then Closed(s) else s, StreamEnded);
    }
    hide FanOut;
  }

  /** Between the hub's cases a client's writer takes what has waited longest, and its reader adds a notice if there is
      room among the 256. */
  lemma ClientStepsMean(s: State, c: ClientId, taken: State, told: State)
    requires c in s.channels && taken == After(s, Consume(c)) && told == After(s, Notify(c))
    ensures var buffer := s.channels[c].buffer;
            && (buffer == [] ==> taken == s)
            && (buffer != [] ==>
                  taken == s.(channels := s.channels[c := Channel(buffer[1..], s.channels[c].closed)]))
            && (|buffer| >= 256 ==> told == s)
            && (|buffer| < 256 ==>
                  told == s.(channels := s.channels[c := Channel(buffer + [Notice], s.channels[c].closed)]))
  {
  }

  /** At shutdown everyone leaves, closed. */
  lemma ShutdownMeans(s: State)
    requires Consistent(s)
    ensures var s' := After(s, Shutdown);
            && s'.clients == {} && s'.channels.Keys == s.channels.Keys
            && forall c :: c in s.channels ==> s'.channels[c] == Channel(s.channels[c].buffer, true)
  {
  }
}
