/**
 The handlers of the WebSocket route and of the Redis subscription, and what they
 amount to: the events on every socket are those due to it by the log of what happened.
 */
module Gateway {
  import opened Wrappers
  import opened Messages
  import opened Channels
  import opened Registry
  import opened WsManager
  import opened Delivery

  /** Handling one more item carries on the log of those handled before. */
  lemma LogGrows(before: Hub<Socket>, after: Hub<Socket>, log: seq<Item<Socket>>, item: Item<Socket>)
    requires before == HandleAll(log) && after == Handle(before, item)
    ensures after == HandleAll(log + [item])
  {
    assert (log + [item])[..|log|] == log;
  }

  /** `known` holds every socket that was ever accepted. */
  class Gateway {
    const manager: WsManager
    ghost var known: set<Socket>

    ghost function View(): Hub<Socket>
      reads this, manager, known
    {
      Hub(manager.View(), set s | s in known && s.isOpen, map s | s in known :: s.sent)
    }

    ghost predicate Valid()
      reads this, manager, known
    {
      && manager.Valid()
      && manager.subscriptions.Keys <= known
    }

    constructor ()
      ensures Valid() && View() == Hub(Empty(), {}, map[]) && fresh(manager)
    {
      manager := new WsManager();
      known := {};
    }

    /** `userId` is the subject of the access token, when there is one that verifies. */
    method OnConnection(userId: Option<string>, socket: Socket)
      requires Valid() && socket !in known && socket.isOpen && socket.sent == []
      modifies this, manager, socket
      ensures Valid() && socket.sent == []
      ensures if userId.Some?
              then known == old(known) + {socket} && View() == Handle(old(View()), Connect(userId.value, socket))
              else known == old(known) && View() == old(View()) && !socket.isOpen
    {
      if userId.None? {
        socket.Close();
        return;
      }
      ghost var before := View();
      manager.Add(userId.value, socket);
      known := known + {socket};
      ghost var after := View();
      assert after.sent == before.sent[socket := []];
      assert after.open == before.open + {socket};
      assert after == Handle(before, Connect(userId.value, socket));
    }

    /** `thrown`: reading a field of `null` throws, before anything has changed. */
    method OnMessage(socket: Socket, message: ClientMessage) returns (thrown: bool)
      requires Valid()
      modifies this, manager
      ensures thrown <==> message.NullMessage?
      ensures Valid() && known == old(known) && View() == Handle(old(View()), FromClient(socket, message))
    {
      ghost var before := View();
      thrown := message.NullMessage?;
      match message {
        case Subscribe(jobId) =>
          manager.Subscribe(socket, jobId);
          assert View() == before.(registry := Subscribed(before.registry, socket, jobId));
        case Unsubscribe(jobId) =>
          manager.Unsubscribe(socket, jobId);
          assert View() == before.(registry := Unsubscribed(before.registry, socket, jobId));
        case NullMessage =>
        case Other =>
      }
    }

    /** The library takes the socket out of the open state. */
    method OnClosing(socket: Socket)
      requires Valid() && socket in known
      modifies this, socket
      ensures Valid() && known == old(known) && View() == Handle(old(View()), Closing(socket))
    {
      ghost var before := View();
      socket.Close();
      assert View() == before.(open := before.open - {socket});
    }

    method OnClose(socket: Socket)
      requires Valid() && !socket.isOpen
      modifies this, manager
      ensures Valid() && known == old(known) && View() == Handle(old(View()), Closed(socket))
    {
      ghost var before := View();
      manager.Remove(socket);
      assert before.open - {socket} == before.open;
    }

    /** The `pmessage` handler. */
    method OnPublication(m: Message)
      requires Valid()
      modifies this, known
      ensures Valid() && known == old(known) && View() == Handle(old(View()), Published(m))
    {
      ghost var before := View();
      if !MatchesPattern(m.channel) {
        return;
      }
      var parts := Split(m.channel, ':');
      if |parts| < 3 || !m.body.Object? {
        return;
      }
      var eventType, jobId := parts[1], Join(parts[2..], ':');
      var event := map["type" := Str("job:" + eventType), "jobId" := Str(jobId)] + m.body.fields;
      manager.Broadcast(jobId, event);
      BroadcastView(before, View(), jobId, event);
    }

    lemma BroadcastView(before: Hub<Socket>, after: Hub<Socket>, jobId: string, event: Event)
      requires after.registry == before.registry && after.open == before.open && after.sent.Keys == before.sent.Keys
      requires before.registry.subscriptions.Keys <= before.sent.Keys
      requires forall s | s in before.sent ::
                 after.sent[s] == if Listens(before.registry, s, jobId) && s in before.open then before.sent[s] + [event] else before.sent[s]
      ensures after == Delivery.Broadcast(before, Addressed(jobId, event))
    {}

    /** While the handlers have been called with the items of `log`, each socket was sent what is due to it. */
    lemma SentWhatIsDue(log: seq<Item<Socket>>, socket: Socket)
      requires Valid() && View() == HandleAll(log) && socket in known
      ensures socket.sent == Due(log, socket)
    {
      SentIsDue(log, socket);
      assert View().sent[socket] == socket.sent;
    }

    /**
     The handlers called for the items of a log, one after the other; `sockets` are those
     accepted in it.  Then each socket was sent exactly what that log makes due to it.
     */
    method Run(log: seq<Item<Socket>>, ghost sockets: set<Socket>)
      requires Valid() && View() == HandleAll([]) && known == {}
      requires InOrder(log) && sockets == Accepted(log)
      requires forall s | s in sockets :: s.isOpen && s.sent == []
      modifies this, manager, sockets
      ensures Valid() && View() == HandleAll(log) && known == sockets
      ensures forall s | s in known :: s.sent == Due(log, s)
    {
      for i := 0 to |log|
        invariant Valid() && View() == HandleAll(log[..i]) && known == Accepted(log[..i])
        invariant forall s | s in sockets && s !in known :: s.isOpen && s.sent == []
      {
        ItemInOrder(log, i);
        ghost var before, knownBefore := View(), known;
        label BeforeStep:
        Step(log[i]);
        forall s | s in sockets && s !in known ensures s.isOpen && s.sent == [] {
          assert s !in knownBefore && s !in SocketOf(log[i]);
          assert unchanged@BeforeStep(s);
        }
        assert log[..i] + [log[i]] == log[..i + 1];
        LogGrows(before, View(), log[..i], log[i]);
        AcceptedGrows(log[..i], log[i]);
      }
      assert log[..|log|] == log;
      forall s | s in known ensures s.sent == Due(log, s) {
        SentWhatIsDue(log, s);
      }
    }

    /** The handler for one item. */
    method Step(item: Item<Socket>)
      requires Valid()
      requires item.Connect? ==> item.socket !in known && item.socket.isOpen && item.socket.sent == []
      requires item.Closing? ==> item.socket in known
      requires item.Closed? ==> item.socket in known && item.socket !in View().open
      modifies this, manager, known, SocketOf(item)
      ensures Valid() && View() == Handle(old(View()), item) && known == old(known) + AcceptedBy(item)
    {
      match item {
        case Connect(userId, socket) => OnConnection(Some(userId), socket);
        case FromClient(socket, message) => var _ := OnMessage(socket, message);
        case Closing(socket) => OnClosing(socket);
        case Closed(socket) => OnClose(socket);
        case Published(m) => OnPublication(m);
      }
    }
  }

  // ---- Logs that can happen --------------------------------------------------

  function AcceptedBy(item: Item<Socket>): set<Socket> {
    if item.Connect? then {item.socket} else {}
  }

  function SocketOf(item: Item<Socket>): set<Socket> {
    if item.Connect? || item.Closing? then {item.socket} else {}
  }

  /** The sockets that are accepted in the log. */
  function Accepted(log: seq<Item<Socket>>): set<Socket> {
    if log == [] then {} else Accepted(log[..|log| - 1]) + AcceptedBy(log[|log| - 1])
  }

  /** A socket is accepted once, then leaves the open state, then is closed. */
  predicate InOrder(log: seq<Item<Socket>>) {
    log != [] ==>
      var rest, last := log[..|log| - 1], log[|log| - 1];
      && InOrder(rest)
      && (last.Connect? ==> last.socket !in Accepted(rest))
      && (last.Closing? ==> last.socket in Accepted(rest))
      && (last.Closed? ==> last.socket in Accepted(rest) && !IsOpen(rest, last.socket))
  }

  lemma AcceptedGrows(log: seq<Item<Socket>>, item: Item<Socket>)
    ensures Accepted(log + [item]) == Accepted(log) + AcceptedBy(item)
  {
    assert (log + [item])[..|log|] == log;
  }

  /** The condition on item `i`, and that its socket is accepted in the log. */
  lemma {:induction false} ItemInOrder(log: seq<Item<Socket>>, i: nat)
    requires InOrder(log) && i < |log|
    ensures Accepted(log[..i]) + AcceptedBy(log[i]) <= Accepted(log)
    ensures log[i].Connect? ==> log[i].socket !in Accepted(log[..i])
    ensures log[i].Closing? ==> log[i].socket in Accepted(log[..i])
    ensures log[i].Closed? ==> log[i].socket in Accepted(log[..i]) && log[i].socket !in HandleAll(log[..i]).open
  {
    var rest := log[..|log| - 1];
    if i < |log| - 1 {
      assert rest[..i] == log[..i] && rest[i] == log[i];
      ItemInOrder(rest, i);
    } else if log[i].Closed? {
      RegistryFollowsLog(rest, log[i].socket);
    }
  }
}
