/** The WebSocket manager: which sockets are open for whom, and who gets which event. */
module WsManager {
  import opened Messages
  import opened Registry

  type Event = map<string, Json>

  class Socket {
    var isOpen: bool
    var sent: seq<Event>

    constructor ()
      ensures isOpen && sent == []
    {
      isOpen, sent := true, [];
    }

    method Close()
      modifies this
      ensures !isOpen && sent == old(sent)
    {
      isOpen := false;
    }

    method Send(event: Event)
      modifies this
      ensures sent == old(sent) + [event] && isOpen == old(isOpen)
    {
      sent := sent + [event];
    }
  }

  class WsManager {
    var byUser: map<string, set<Socket>>
    var subscriptions: map<Socket, set<string>>

    ghost function View(): Registry<Socket>
      reads this
    {
      Registry(byUser, subscriptions)
    }

    ghost predicate Valid()
      reads this
    {
      InStep(View())
    }

    constructor ()
      ensures Valid() && View() == Empty()
    {
      byUser, subscriptions := map[], map[];
    }

    method Add(userId: string, socket: Socket)
      modifies this
      ensures View() == Added(old(View()), userId, socket)
      ensures old(Valid()) && socket !in old(subscriptions) ==> Valid()
    {
      if old(Valid()) && socket !in old(subscriptions) {
        AddedStaysInStep(View(), userId, socket);
      }
      if userId !in byUser {
        byUser := byUser[userId := {}];
      }
      byUser := byUser[userId := byUser[userId] + {socket}];
      subscriptions := subscriptions[socket := {}];
    }

    /** The loop may stop at the first user found because no socket has two. */
    method Remove(socket: Socket)
      requires Valid()
      modifies this
      ensures Valid() && View() == Removed(old(View()), socket)
    {
      ghost var before := View();
      RemovedStaysInStep(before, socket);
      var pending := byUser.Keys;
      while pending != {}
        invariant pending <= byUser.Keys && View() == before
        invariant forall u | u in byUser && u !in pending :: socket !in byUser[u]
        decreases pending
      {
        var userId :| userId in pending;
        pending := pending - {userId};
        var sockets := byUser[userId];
        if socket in sockets {
          OneUserSuffices(before, userId, socket);
          byUser := byUser[userId := sockets - {socket}];
          if byUser[userId] == {} {
            byUser := byUser - {userId};
            assert byUser == before.byUser - {userId};
          }
          break;
        }
      }
      if byUser == before.byUser && forall u | u in byUser :: socket !in byUser[u] {
        NoUserToLeave(before, socket);
      }
      subscriptions := subscriptions - {socket};
    }

    method Subscribe(socket: Socket, jobId: string)
      modifies this
      ensures View() == Subscribed(old(View()), socket, jobId)
      ensures old(Valid()) ==> Valid()
    {
      if old(Valid()) {
        SubscriptionStaysInStep(View(), socket, jobId);
      }
      if socket in subscriptions {
        subscriptions := subscriptions[socket := subscriptions[socket] + {jobId}];
      }
    }

    method Unsubscribe(socket: Socket, jobId: string)
      modifies this
      ensures View() == Unsubscribed(old(View()), socket, jobId)
      ensures old(Valid()) ==> Valid()
    {
      if old(Valid()) {
        SubscriptionStaysInStep(View(), socket, jobId);
      }
      if socket in subscriptions {
        subscriptions := subscriptions[socket := subscriptions[socket] - {jobId}];
      }
    }

    /** Every open socket subscribed to the job gets the event once; nobody else gets it. */
    method Broadcast(jobId: string, event: Event)
      modifies subscriptions.Keys
      ensures View() == old(View())
      ensures forall s: Socket | s in subscriptions ::
                && s.isOpen == old(s.isOpen)
                && s.sent == if Listens(View(), s, jobId) && s.isOpen then old(s.sent) + [event] else old(s.sent)
    {
      var pending := subscriptions.Keys;
      while pending != {}
        invariant pending <= subscriptions.Keys && View() == old(View())
        invariant forall s: Socket | s in subscriptions :: s.isOpen == old(s.isOpen)
        invariant forall s: Socket | s in subscriptions ::
                    s.sent == if s !in pending && Listens(View(), s, jobId) && s.isOpen then old(s.sent) + [event] else old(s.sent)
        decreases pending
      {
        var socket :| socket in pending;
        pending := pending - {socket};
        if jobId in subscriptions[socket] && socket.isOpen {
          socket.Send(event);
        }
      }
    }
  }
}
