/**
 From published message to socket: what each socket is sent over a whole log of
 connections, subscriptions and publications.
 */
module Delivery {
  import opened Wrappers
  import opened Messages
  import opened Channels
  import opened Registry

  type Event = map<string, Json>

  /**
   `NullMessage` is the JSON text `null`; `Other` is any other message that is neither a
   subscription nor its end, or not JSON at all.
   */
  datatype ClientMessage = Subscribe(jobId: string) | Unsubscribe(jobId: string) | NullMessage | Other

  /** `Closing`: the socket leaves the open state; its `close` event follows later. */
  datatype Item<S> =
    | Connect(userId: string, socket: S)
    | FromClient(socket: S, message: ClientMessage)
    | Closing(socket: S)
    | Closed(socket: S)
    | Published(publication: Message)

  datatype Addressed = Addressed(jobId: string, event: Event)

  /** The pattern subscription to `job:*`. */
  predicate MatchesPattern(channel: string) {
    "job:" <= channel
  }

  /** The event built from a message, or nothing when its channel or body is malformed. */
  function Decode(m: Message): Option<Addressed> {
    if !MatchesPattern(m.channel) then None
    else match ParseChannel(m.channel)
      case None => None
      case Some(c) =>
        match m.body
        case Malformed => None
        case NotAnObject => None
        case Object(fields) =>
          Some(Addressed(c.jobId, map["type" := Str("job:" + c.event), "jobId" := Str(c.jobId)] + fields))
  }

  // ---- The program -----------------------------------------------------------

  /** `sent` holds what was sent on each socket so far; a missing entry is empty. */
  datatype Hub<!S> = Hub(registry: Registry<S>, open: set<S>, sent: map<S, seq<Event>>)

  function SentOn<S>(h: Hub<S>, s: S): seq<Event> {
    if s in h.sent then h.sent[s] else []
  }

  function Broadcast<S>(h: Hub<S>, a: Addressed): Hub<S> {
    h.(sent := map s | s in h.registry.subscriptions.Keys + h.sent.Keys ::
         if Listens(h.registry, s, a.jobId) && s in h.open then SentOn(h, s) + [a.event] else SentOn(h, s))
  }

  function Handle<S>(h: Hub<S>, item: Item<S>): Hub<S> {
    match item
    case Connect(u, s) =>
      h.(registry := Added(h.registry, u, s), open := h.open + {s}, sent := h.sent[s := SentOn(h, s)])
    case FromClient(s, Subscribe(j)) => h.(registry := Subscribed(h.registry, s, j))
    case FromClient(s, Unsubscribe(j)) => h.(registry := Unsubscribed(h.registry, s, j))
    case FromClient(s, NullMessage) => h
    case FromClient(s, Other) => h
    case Closing(s) => h.(open := h.open - {s})
    case Closed(s) => h.(registry := Removed(h.registry, s), open := h.open - {s})
    case Published(m) =>
      match Decode(m)
      case None => h
      case Some(a) => Broadcast(h, a)
  }

  function HandleAll<S>(log: seq<Item<S>>): Hub<S> {
    if log == [] then Hub(Empty(), {}, map[]) else Handle(HandleAll(log[..|log| - 1]), log[|log| - 1])
  }

  // ---- What ought to be sent, read off the log alone --------------------------

  predicate IsConnected<S(==)>(log: seq<Item<S>>, s: S) {
    log != [] &&
    var rest, last := log[..|log| - 1], log[|log| - 1];
    if last.Connect? && last.socket == s then true
    else if last.Closed? && last.socket == s then false
    else IsConnected(rest, s)
  }

  /** The latest word on `s` and `j` is a subscription made while connected. */
  predicate IsSubscribed<S(==)>(log: seq<Item<S>>, s: S, j: string) {
    log != [] &&
    var rest, last := log[..|log| - 1], log[|log| - 1];
    match last
    case Connect(_, t) => t != s && IsSubscribed(rest, s, j)
    case Closed(t) => t != s && IsSubscribed(rest, s, j)
    case FromClient(t, Subscribe(k)) => if t == s && k == j then IsConnected(rest, s) else IsSubscribed(rest, s, j)
    case FromClient(t, Unsubscribe(k)) => !(t == s && k == j) && IsSubscribed(rest, s, j)
    case _ => IsSubscribed(rest, s, j)
  }

  predicate IsOpen<S(==)>(log: seq<Item<S>>, s: S) {
    log != [] &&
    var rest, last := log[..|log| - 1], log[|log| - 1];
    match last
    case Connect(_, t) => t == s || IsOpen(rest, s)
    case Closing(t) => t != s && IsOpen(rest, s)
    case Closed(t) => t != s && IsOpen(rest, s)
    case _ => IsOpen(rest, s)
  }

  /** The messages from `s` since it connected. */
  function ClientSaid<S(==)>(log: seq<Item<S>>, s: S): seq<ClientMessage> {
    if log == [] then []
    else
      var rest, last := log[..|log| - 1], log[|log| - 1];
      match last
      case Connect(_, t) => if t == s then [] else ClientSaid(rest, s)
      case FromClient(t, m) => ClientSaid(rest, s) + if t == s then [m] else []
      case _ => ClientSaid(rest, s)
  }

  /** What the messages from a socket, in order, leave of its subscription to `j`. */
  predicate LastWord(messages: seq<ClientMessage>, j: string) {
    messages != [] &&
    var rest, last := messages[..|messages| - 1], messages[|messages| - 1];
    last == Subscribe(j) || (last != Unsubscribe(j) && LastWord(rest, j))
  }

  lemma OneMoreWord(messages: seq<ClientMessage>, m: ClientMessage, j: string)
    ensures LastWord(messages + [m], j) <==> m == Subscribe(j) || (m != Unsubscribe(j) && LastWord(messages, j))
  {
    assert (messages + [m])[..|messages|] == messages;
  }

  /** A connected socket is subscribed to what its client last said it wants. */
  lemma {:induction false} SubscribedBySaying<S>(log: seq<Item<S>>, s: S, j: string)
    requires IsConnected(log, s)
    ensures IsSubscribed(log, s, j) <==> LastWord(ClientSaid(log, s), j)
  {
    var rest, last := log[..|log| - 1], log[|log| - 1];
    if !(last.Connect? && last.socket == s) {
      SubscribedBySaying(rest, s, j);
      if last.FromClient? && last.socket == s {
        OneMoreWord(ClientSaid(rest, s), last.message, j);
        assert ClientSaid(log, s) == ClientSaid(rest, s) + [last.message];
      } else {
        assert ClientSaid(log, s) == ClientSaid(rest, s);
      }
    }
  }

  /** The well-formed publications for which `s` was open and subscribed when they were made. */
  function Due<S(==)>(log: seq<Item<S>>, s: S): seq<Event> {
    if log == [] then []
    else
      var rest, last := log[..|log| - 1], log[|log| - 1];
      if last.Published? && Decode(last.publication).Some?
         && IsSubscribed(rest, s, Decode(last.publication).value.jobId) && IsOpen(rest, s)
      then Due(rest, s) + [Decode(last.publication).value.event]
      else Due(rest, s)
  }

  // ---- They agree ------------------------------------------------------------

  lemma {:induction false} RegistryFollowsLog<S>(log: seq<Item<S>>, s: S)
    ensures var h := HandleAll(log);
            && (s in h.registry.subscriptions <==> IsConnected(log, s))
            && (s in h.open <==> IsOpen(log, s))
            && forall j :: Listens(h.registry, s, j) <==> IsSubscribed(log, s, j)
  {
    if log != [] {
      RegistryFollowsLog(log[..|log| - 1], s);
    }
  }

  lemma BroadcastSends<S>(h: Hub<S>, a: Addressed, s: S)
    ensures SentOn(Broadcast(h, a), s) == SentOn(h, s) + if Listens(h.registry, s, a.jobId) && s in h.open then [a.event] else []
  {}

  /** For every log, each socket is sent exactly what is due to it, in order and once. */
  lemma {:induction false} SentIsDue<S>(log: seq<Item<S>>, s: S)
    ensures SentOn(HandleAll(log), s) == Due(log, s)
  {
    if log != [] {
      var rest, last := log[..|log| - 1], log[|log| - 1];
      SentIsDue(rest, s);
      RegistryFollowsLog(rest, s);
      if last.Published? && Decode(last.publication).Some? {
        BroadcastSends(HandleAll(rest), Decode(last.publication).value, s);
      }
    }
  }

  /** Each accepted connection is a socket not seen before. */
  predicate SocketsAreNew<S(==)>(log: seq<Item<S>>) {
    log != [] ==>
      var rest, last := log[..|log| - 1], log[|log| - 1];
      SocketsAreNew(rest) && (last.Connect? ==> !IsConnected(rest, last.socket))
  }

  /** Then the two maps of the manager stay in step all along. */
  lemma {:induction false} RegistryStaysInStep<S>(log: seq<Item<S>>)
    requires SocketsAreNew(log)
    ensures InStep(HandleAll(log).registry)
  {
    if log != [] {
      var rest, last := log[..|log| - 1], log[|log| - 1];
      var r := HandleAll(rest).registry;
      RegistryStaysInStep(rest);
      match last
      case Connect(u, s) => RegistryFollowsLog(rest, s); AddedStaysInStep(r, u, s);
      case Closed(s) => RemovedStaysInStep(r, s);
      case FromClient(s, Subscribe(j)) => SubscriptionStaysInStep(r, s, j);
      case FromClient(s, Unsubscribe(j)) => SubscriptionStaysInStep(r, s, j);
      case _ =>
    }
  }

  /** The user as whom `s` is connected. */
  function UserOf<S(==)>(log: seq<Item<S>>, s: S): Option<string> {
    if log == [] then None
    else
      var rest, last := log[..|log| - 1], log[|log| - 1];
      match last
      case Connect(u, t) => if t == s then Some(u) else UserOf(rest, s)
      case Closed(t) => if t == s then None else UserOf(rest, s)
      case _ => UserOf(rest, s)
  }

  /** Each socket is among those of the user it connected as, for as long as it is connected, and of no other. */
  lemma {:induction false} UsersFollowLog<S>(log: seq<Item<S>>, s: S, u: string)
    requires SocketsAreNew(log)
    ensures s in SocketsOf(HandleAll(log).registry, u) <==> UserOf(log, s) == Some(u)
  {
    if log != [] {
      var rest, last := log[..|log| - 1], log[|log| - 1];
      UsersFollowLog(rest, s, u);
      RegistryStaysInStep(rest);
      if last.Connect? && last.socket == s {
        RegistryFollowsLog(rest, s);
      }
    }
  }

  /** The parts of a well-formed publication: channel `job:<event>:<id>` and an object, whose fields win. */
  ghost predicate IsPublication(m: Message, event: string, a: Addressed) {
    && ':' !in event && m.channel == "job:" + event + ":" + a.jobId && m.body.Object?
    && a.event == map["type" := Str("job:" + event), "jobId" := Str(a.jobId)] + m.body.fields
  }

  lemma HeadIsJob(head: string, rest: string)
    requires ':' !in head && "job:" <= head + ":" + rest
    ensures head == "job"
  {
    var channel := head + ":" + rest;
    assert channel[..4] == "job:" && channel[|head|] == ':';
    assert channel[0] == 'j' && channel[1] == 'o' && channel[2] == 'b' && channel[3] == ':';
    assert forall i | 0 <= i < |head| :: channel[i] == head[i] && channel[i] != ':';
    assert |head| == 3 && head == channel[..3];
  }

  /** A publication is decoded exactly if it is well-formed, and as what it says. */
  lemma DecodesExactly(m: Message, a: Addressed)
    ensures Decode(m) == Some(a) <==> exists event: string :: IsPublication(m, event, a)
  {
    if Decode(m) == Some(a) {
      var c := ParseChannel(m.channel).value;
      ParsesExactly(m.channel, c);
      var head: string :| ':' !in head && m.channel == head + ":" + c.event + ":" + c.jobId;
      assert head + ":" + c.event + ":" + c.jobId == head + ":" + (c.event + ":" + c.jobId);
      HeadIsJob(head, c.event + ":" + c.jobId);
      assert "job" + ":" == "job:";
      assert IsPublication(m, c.event, a);
    }
    forall event: string | IsPublication(m, event, a) ensures Decode(m) == Some(a) {
      PublicationDecodes(m, event, a);
    }
  }

  lemma PublicationDecodes(m: Message, event: string, a: Addressed)
    requires IsPublication(m, event, a)
    ensures Decode(m) == Some(a)
  {
    ChannelRoundTrip(event, a.jobId);
    assert m.channel == Channel(event, a.jobId);
    assert m.channel == "job:" + (event + ":" + a.jobId);
  }

  // ---- The worker's messages -------------------------------------------------

  lemma WellFormedMessagesDecode(event: string, jobId: string, fields: map<string, Json>)
    requires ':' !in event
    ensures Decode(Message(Channel(event, jobId), Object(fields)))
            == Some(Addressed(jobId, map["type" := Str("job:" + event), "jobId" := Str(jobId)] + fields))
  {
    ChannelRoundTrip(event, jobId);
    assert Channel(event, jobId) == "job:" + (event + ":" + jobId);
  }

  function ProgressEvent(jobId: string, progress: int): Event {
    map["type" := Str("job:progress"), "jobId" := Str(jobId), "progress" := Num(progress), "status" := Str("active")]
  }

  function CompletedEvent(jobId: string, output: string): Event {
    map["type" := Str("job:completed"), "jobId" := Str(jobId), "outputFileId" := Str(output)]
  }

  function FailedEvent(jobId: string, error: string): Event {
    map["type" := Str("job:failed"), "jobId" := Str(jobId), "error" := Str(error)]
  }

  /** What the worker publishes arrives as an event of the right type for the right job. */
  lemma ProgressDecodes(jobId: string, progress: int)
    ensures Decode(ProgressMessage(jobId, progress)) == Some(Addressed(jobId, ProgressEvent(jobId, progress)))
  {
    var fields := map["progress" := Num(progress), "status" := Str("active")];
    WellFormedMessagesDecode("progress", jobId, fields);
    assert "job:" + "progress" == "job:progress";
    assert map["type" := Str("job:progress"), "jobId" := Str(jobId)] + fields == ProgressEvent(jobId, progress);
  }

  lemma CompletedDecodes(jobId: string, output: string)
    ensures Decode(CompletedMessage(jobId, output)) == Some(Addressed(jobId, CompletedEvent(jobId, output)))
  {
    var fields := map["outputFileId" := Str(output)];
    WellFormedMessagesDecode("completed", jobId, fields);
    assert "job:" + "completed" == "job:completed";
    assert map["type" := Str("job:completed"), "jobId" := Str(jobId)] + fields == CompletedEvent(jobId, output);
  }

  lemma FailedDecodes(jobId: string, error: string)
    ensures Decode(FailedMessage(jobId, error)) == Some(Addressed(jobId, FailedEvent(jobId, error)))
  {
    var fields := map["error" := Str(error)];
    WellFormedMessagesDecode("failed", jobId, fields);
    assert "job:" + "failed" == "job:failed";
    assert map["type" := Str("job:failed"), "jobId" := Str(jobId)] + fields == FailedEvent(jobId, error);
  }
}
