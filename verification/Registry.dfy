/**
 The two maps of the WebSocket manager as values: sockets by user, and subscribed jobs
 by socket.
 */
module Registry {
  datatype Registry<!S> = Registry(byUser: map<string, set<S>>, subscriptions: map<S, set<string>>)

  function Empty<S>(): Registry<S> {
    Registry(map[], map[])
  }

  function SocketsOf<S>(r: Registry<S>, userId: string): set<S> {
    if userId in r.byUser then r.byUser[userId] else {}
  }

  function Added<S>(r: Registry<S>, userId: string, socket: S): Registry<S> {
    Registry(r.byUser[userId := SocketsOf(r, userId) + {socket}], r.subscriptions[socket := {}])
  }

  /** The users left when `socket` goes: those who had another one. */
  function WithoutSocket<S>(byUser: map<string, set<S>>, socket: S): map<string, set<S>> {
    map u | u in byUser && byUser[u] - {socket} != {} :: byUser[u] - {socket}
  }

  function Removed<S>(r: Registry<S>, socket: S): Registry<S> {
    Registry(WithoutSocket(r.byUser, socket), r.subscriptions - {socket})
  }

  function Subscribed<S>(r: Registry<S>, socket: S, jobId: string): Registry<S> {
    if socket in r.subscriptions
    then r.(subscriptions := r.subscriptions[socket := r.subscriptions[socket] + {jobId}])
    else r
  }

  function Unsubscribed<S>(r: Registry<S>, socket: S, jobId: string): Registry<S> {
    if socket in r.subscriptions
    then r.(subscriptions := r.subscriptions[socket := r.subscriptions[socket] - {jobId}])
    else r
  }

  predicate Listens<S>(r: Registry<S>, socket: S, jobId: string) {
    socket in r.subscriptions && jobId in r.subscriptions[socket]
  }

  ghost predicate HasUser<S>(r: Registry<S>, socket: S) {
    exists u :: u in r.byUser && socket in r.byUser[u]
  }

  /** Both maps know the same sockets, each under exactly one user; no user has none. */
  ghost predicate InStep<S>(r: Registry<S>) {
    && (forall s {:trigger HasUser(r, s)} | s in r.subscriptions :: HasUser(r, s))
    && (forall u | u in r.byUser :: r.byUser[u] != {} && r.byUser[u] <= r.subscriptions.Keys)
    && (forall u, v | u in r.byUser && v in r.byUser && u != v :: r.byUser[u] !! r.byUser[v])
  }

  /** Taking the socket from its one user is taking it from all. */
  lemma OneUserSuffices<S>(r: Registry<S>, userId: string, socket: S)
    requires InStep(r) && userId in r.byUser && socket in r.byUser[userId]
    ensures var rest := r.byUser[userId] - {socket};
            WithoutSocket(r.byUser, socket) == if rest == {} then r.byUser - {userId} else r.byUser[userId := rest]
  {
    forall u | u in r.byUser && u != userId ensures r.byUser[u] - {socket} == r.byUser[u] {
      assert r.byUser[u] !! r.byUser[userId];
    }
  }

  lemma NoUserToLeave<S>(r: Registry<S>, socket: S)
    requires InStep(r) && forall u | u in r.byUser :: socket !in r.byUser[u]
    ensures WithoutSocket(r.byUser, socket) == r.byUser
  {
    assert forall u | u in r.byUser :: r.byUser[u] - {socket} == r.byUser[u];
  }

  lemma AddedHaveUsers<S>(r: Registry<S>, userId: string, socket: S, s: S)
    requires InStep(r) && s in Added(r, userId, socket).subscriptions
    ensures HasUser(Added(r, userId, socket), s)
  {
    var r' := Added(r, userId, socket);
    if s == socket {
      assert s in r'.byUser[userId];
    } else {
      assert HasUser(r, s);
      var u :| u in r.byUser && s in r.byUser[u];
      assert s in r'.byUser[u];
    }
  }

  /** A connection that was not registered before keeps the maps in step. */
  lemma AddedStaysInStep<S>(r: Registry<S>, userId: string, socket: S)
    requires InStep(r) && socket !in r.subscriptions
    ensures InStep(Added(r, userId, socket))
  {
    var r' := Added(r, userId, socket);
    forall s | s in r'.subscriptions ensures HasUser(r', s) {
      AddedHaveUsers(r, userId, socket, s);
    }
    assert forall u | u in r.byUser :: socket !in r.byUser[u];
    forall u, v | u in r'.byUser && v in r'.byUser && u != v ensures r'.byUser[u] !! r'.byUser[v] {
      assert SocketsOf(r, u) !! SocketsOf(r, v);
    }
  }

  lemma RemovedStaysInStep<S>(r: Registry<S>, socket: S)
    requires InStep(r)
    ensures InStep(Removed(r, socket))
  {
    var r' := Removed(r, socket);
    forall s | s in r'.subscriptions ensures HasUser(r', s) {
      assert HasUser(r, s);
      var u :| u in r.byUser && s in r.byUser[u];
      assert s in r.byUser[u] - {socket};
      assert s in r'.byUser[u];
    }
  }

  lemma SubscriptionStaysInStep<S>(r: Registry<S>, socket: S, jobId: string)
    requires InStep(r)
    ensures InStep(Subscribed(r, socket, jobId)) && InStep(Unsubscribed(r, socket, jobId))
  {
    SameSocketsInStep(r, Subscribed(r, socket, jobId));
    SameSocketsInStep(r, Unsubscribed(r, socket, jobId));
  }

  lemma SameSocketsInStep<S>(r: Registry<S>, r': Registry<S>)
    requires InStep(r) && r'.byUser == r.byUser && r'.subscriptions.Keys == r.subscriptions.Keys
    ensures InStep(r')
  {
    forall s | s in r'.subscriptions ensures HasUser(r', s) {
      assert s in r.subscriptions && HasUser(r, s);
    }
  }

  /** A socket that is gone from the maps cannot be told apart from one never seen. */
  lemma GoneSocketsAreIgnored<S>(r: Registry<S>, socket: S, jobId: string)
    requires InStep(r)
    ensures var gone := Removed(r, socket);
            && Subscribed(gone, socket, jobId) == gone
            && Unsubscribed(gone, socket, jobId) == gone
            && Removed(gone, socket) == gone
            && !Listens(gone, socket, jobId)
            && (socket !in r.subscriptions ==> gone == r)
  {
    var gone := Removed(r, socket);
    assert forall u | u in gone.byUser :: gone.byUser[u] - {socket} == gone.byUser[u];
    assert WithoutSocket(gone.byUser, socket) == gone.byUser;
    if socket !in r.subscriptions {
      assert forall u | u in r.byUser :: r.byUser[u] - {socket} == r.byUser[u];
      assert WithoutSocket(r.byUser, socket) == r.byUser;
    }
  }

  /** Adding a connection and removing it again leaves the maps as they were. */
  lemma RemoveUndoesAdd<S>(r: Registry<S>, userId: string, socket: S)
    requires InStep(r) && socket !in r.subscriptions
    ensures Removed(Added(r, userId, socket), socket) == r
  {
    var added := Added(r, userId, socket);
    assert socket !in SocketsOf(r, userId);
    assert forall u | u in r.byUser :: added.byUser[u] - {socket} == r.byUser[u];
    assert WithoutSocket(added.byUser, socket) == r.byUser;
    assert added.subscriptions - {socket} == r.subscriptions;
  }
}
