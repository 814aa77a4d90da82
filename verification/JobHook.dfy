/**
 The browser's hook for one job: its view, its socket, and the effect that opens and
 closes the socket as the status shown changes.

 The token stays the same, and so does the job id once the hook has one; without one it has
 no socket, and the effect runs again when it is given one, as on mounting.  A browser
 calls no handler of a socket that `close` was called on.
 */
module JobHook {
  import opened Wrappers
  import opened Messages
  import opened AttemptEvents
  import opened Delivery
  import opened ClientView

  datatype Connection = NoSocket | Connecting | Live

  /** `ranFor`: the status shown when the effect last ran; `said`: what was sent on the latest socket that opened. */
  datatype Hook = Hook(view: View, connection: Connection, ranFor: Option<Json>, said: seq<ClientMessage>)

  /** `Renders`: the view is on the screen, and the effect has run if the status changed. */
  datatype Happening = Renders | Opens | Arrives(event: Event) | Breaks(withError: bool)

  const CONNECTION_ERROR := Str("WebSocket connection error. Progress updates may be delayed.")

  predicate IsFinal(status: Json) {
    status == Str("completed") || status == Str("failed")
  }

  predicate CanHappen(h: Hook, x: Happening) {
    match x
    case Renders => true
    case Opens => h.connection.Connecting?
    case Arrives(_) => h.connection.Live?
    case Breaks(_) => !h.connection.NoSocket?
  }

  function React(h: Hook, jobId: string, x: Happening): Hook {
    match x
    case Renders =>
      if h.ranFor == Some(h.view.status) then h
      else h.(connection := if IsFinal(h.view.status) then NoSocket else Connecting,
              ranFor := Some(h.view.status),
              said := if h.connection.Live? then h.said + [Unsubscribe(jobId)] else h.said)
    case Opens => h.(connection := Live, said := [Subscribe(jobId)])
    case Arrives(event) => h.(view := Receive(h.view, jobId, event))
    case Breaks(withError) =>
      h.(connection := NoSocket,
         view := if withError then h.view.(error := Some(CONNECTION_ERROR)) else h.view)
  }

  /** The hook as it is before its first effect. */
  function Mounted(progress: Json, status: Json): Hook {
    Hook(View(progress, status, None, None), NoSocket, None, [])
  }

  // ---- The hook as a component -----------------------------------------------

  class JobWebSocket {
    const jobId: string
    var view: View
    var connection: Connection
    var ranFor: Option<Json>
    var said: seq<ClientMessage>

    function State(): Hook
      reads this
    {
      Hook(view, connection, ranFor, said)
    }

    constructor (jobId: string, progress: Json, status: Json)
      ensures State() == Mounted(progress, status) && this.jobId == jobId
    {
      this.jobId := jobId;
      view, connection, ranFor, said := View(progress, status, None, None), NoSocket, None, [];
    }

    /** The effect and its cleanup: run again when the status shown has changed. */
    method OnRender()
      modifies this
      ensures State() == React(old(State()), jobId, Renders)
    {
      if ranFor == Some(view.status) {
        return;
      }
      if connection.Live? {
        said := said + [Unsubscribe(jobId)];
      }
      connection := NoSocket;
      ranFor := Some(view.status);
      if !IsFinal(view.status) {
        connection := Connecting;
      }
    }

    method OnOpen()
      requires CanHappen(State(), Opens)
      modifies this
      ensures State() == React(old(State()), jobId, Opens)
    {
      connection := Live;
      said := [Subscribe(jobId)];
    }

    method OnMessage(event: Event)
      requires CanHappen(State(), Arrives(event))
      modifies this
      ensures State() == React(old(State()), jobId, Arrives(event))
    {
      if !HasField(event, "jobId", Str(jobId)) {
        return;
      }
      if HasField(event, "type", Str("job:progress")) {
        view := View(FieldOr(event, "progress", Num(0)), FieldOr(event, "status", Str("active")), None, None);
      } else if HasField(event, "type", Str("job:completed")) {
        view := View(Num(100), Str("completed"), None, FieldOrNull(event, "outputFileId"));
      } else if HasField(event, "type", Str("job:failed")) {
        view := view.(status := Str("failed"), error := Some(FieldOr(event, "error", Str("Processing failed"))));
      }
    }

    /** The connection is gone, with an `error` event before or without. */
    method OnBreak(withError: bool)
      requires CanHappen(State(), Breaks(withError))
      modifies this
      ensures State() == React(old(State()), jobId, Breaks(withError))
    {
      if withError {
        view := view.(error := Some(CONNECTION_ERROR));
      }
      connection := NoSocket;
    }
  }

  // ---- Runs of the hook ------------------------------------------------------

  type Happenings = seq<Happening>

  predicate Possible(h: Hook, jobId: string, hs: Happenings) {
    hs != [] ==>
      var rest, last := hs[..|hs| - 1], hs[|hs| - 1];
      Possible(h, jobId, rest) && CanHappen(ReactAll(h, jobId, rest), last)
  }

  function ReactAll(h: Hook, jobId: string, hs: Happenings): Hook {
    if hs == [] then h else React(ReactAll(h, jobId, hs[..|hs| - 1]), jobId, hs[|hs| - 1])
  }

  /** The events that the hook takes in. */
  function Taken(hs: Happenings): seq<Event> {
    if hs == [] then []
    else
      var rest, last := hs[..|hs| - 1], hs[|hs| - 1];
      Taken(rest) + if last.Arrives? then [last.event] else []
  }

  predicate Rendered(h: Hook) {
    h.ranFor == Some(h.view.status)
  }

  /** No event arrives before what the one before it changed has been rendered. */
  predicate InTime(h: Hook, jobId: string, hs: Happenings) {
    hs != [] ==>
      var rest, last := hs[..|hs| - 1], hs[|hs| - 1];
      InTime(h, jobId, rest) && (last.Arrives? ==> Rendered(ReactAll(h, jobId, rest)))
  }

  /** There is no socket before the effect has run, nor after it ran for a final status. */
  predicate HookOk(h: Hook) {
    h.ranFor.None? || IsFinal(h.ranFor.value) ==> h.connection.NoSocket?
  }

  lemma {:induction false} HookStaysOk(h: Hook, jobId: string, hs: Happenings)
    requires HookOk(h) && Possible(h, jobId, hs)
    ensures HookOk(ReactAll(h, jobId, hs))
  {
    if hs != [] {
      HookStaysOk(h, jobId, hs[..|hs| - 1]);
    }
  }

  /** Once a final status has been rendered nothing changes what is shown, ever. */
  lemma {:induction false} FinalStatusStays(h: Hook, jobId: string, hs: Happenings)
    requires HookOk(h) && Rendered(h) && IsFinal(h.view.status) && Possible(h, jobId, hs)
    ensures ReactAll(h, jobId, hs) == h
  {
    if hs != [] {
      FinalStatusStays(h, jobId, hs[..|hs| - 1]);
    }
  }

  // ---- Subscription ------------------------------------------------------------

  /** The hook is in a state that it can get to after mounting. */
  ghost predicate Reached(h: Hook, jobId: string) {
    exists progress: Json, status: Json, hs: Happenings ::
      Possible(Mounted(progress, status), jobId, hs) && h == ReactAll(Mounted(progress, status), jobId, hs)
  }

  lemma {:induction false} SaysSubscribe(h: Hook, jobId: string, hs: Happenings)
    requires !h.connection.Live? && Possible(h, jobId, hs)
    ensures ReactAll(h, jobId, hs).connection.Live? ==> ReactAll(h, jobId, hs).said == [Subscribe(jobId)]
  {
    if hs != [] {
      SaysSubscribe(h, jobId, hs[..|hs| - 1]);
    }
  }

  /** All that the hook has said on its socket has reached the server, which still has the socket. */
  predicate OnSocket<S(==)>(log: seq<Item<S>>, s: S, h: Hook) {
    IsConnected(log, s) && IsOpen(log, s) && ClientSaid(log, s) == h.said
  }

  /** On a live socket the hook has subscribed to its job, and to nothing else, and so the server has it. */
  lemma LiveHookIsSubscribed<S>(h: Hook, jobId: string, log: seq<Item<S>>, s: S)
    requires Reached(h, jobId) && h.connection.Live? && OnSocket(log, s, h)
    ensures h.said == [Subscribe(jobId)]
    ensures forall j :: IsSubscribed(log, s, j) <==> j == jobId
  {
    var progress: Json, status: Json, hs: Happenings :|
      Possible(Mounted(progress, status), jobId, hs) && h == ReactAll(Mounted(progress, status), jobId, hs);
    SaysSubscribe(Mounted(progress, status), jobId, hs);
    forall j ensures IsSubscribed(log, s, j) <==> j == jobId {
      SubscribedBySaying(log, s, j);
    }
  }

  /** A broken socket leaves its notice if there was an error, and is not replaced while the status stays. */
  lemma BreakShows(h: Hook, jobId: string, withError: bool)
    requires !h.connection.NoSocket? && Rendered(h)
    ensures var h' := React(React(h, jobId, Breaks(withError)), jobId, Renders);
            && h'.connection.NoSocket? && h'.said == h.said
            && h'.view == if withError
                          then h.view.(error := Some(Str("WebSocket connection error. Progress updates may be delayed.")))
                          else h.view
  {}

  /** An event of job `j` as an attempt with this output, or the failure of another, announces it. */
  ghost predicate OfAttempt(event: Event, j: string, output: string) {
    || event == CompletedEvent(j, output)
    || (exists n: int :: event == ProgressEvent(j, n))
    || (exists error: string :: event == FailedEvent(j, error))
  }

  function CompletedView(output: string): View {
    View(Num(100), COMPLETED, None, Some(Str(output)))
  }

  lemma OneEventShows(view: View, j: string, output: string, event: Event)
    requires OfAttempt(event, j, output)
    ensures var after := Receive(view, j, event);
            if event == CompletedEvent(j, output) then after == CompletedView(output) else after.status != COMPLETED
  {}

  /**
   However the hook loses and reopens its socket: it ends up showing the completion
   exactly if that is among the events it took in.  (A connection error between the
   completion and its rendering still leaves its notice.)
   */
  lemma {:induction false} HookCompletesExactly(h: Hook, j: string, hs: Happenings, output: string)
    requires HookOk(h) && !IsFinal(h.view.status) && Possible(h, j, hs) && InTime(h, j, hs)
    requires forall e | e in Taken(hs) :: OfAttempt(e, j, output)
    ensures var shown := ReactAll(h, j, hs).view;
            if CompletedEvent(j, output) in Taken(hs) then shown.(error := None) == CompletedView(output) else shown.status != COMPLETED
  {
    if hs != [] {
      var rest, last := hs[..|hs| - 1], hs[|hs| - 1];
      HookCompletesExactly(h, j, rest, output);
      HookStaysOk(h, j, rest);
      if last.Arrives? {
        assert last.event in Taken(hs);
        OneEventShows(ReactAll(h, j, rest).view, j, output, last.event);
      } else {
        assert Taken(hs) == Taken(rest);
      }
    }
  }

  /** The first progress of a job shown pending makes the hook leave its socket for a new one. */
  lemma PendingHookReopens(h: Hook, j: string, n: int)
    requires h.connection.Live? && Rendered(h) && h.view.status == Str("pending")
    ensures var h' := React(React(h, j, Arrives(ProgressEvent(j, n))), j, Renders);
            h'.view.status == Str("active") && h'.connection.Connecting? && h'.said == h.said + [Unsubscribe(j)]
  {}

  // ---- A live socket ---------------------------------------------------------

  /** An event arrives and is rendered. */
  function Shown(h: Hook, j: string, event: Event): Hook {
    React(React(h, j, Arrives(event)), j, Renders)
  }

  /** The hook on a socket that brings these events, each rendered before the next. */
  function Feed(h: Hook, jobId: string, events: seq<Event>): Hook {
    if events == [] then h
    else
      var g := Feed(h, jobId, events[..|events| - 1]);
      if g.connection.Live? then Shown(g, jobId, events[|events| - 1]) else g
  }

  lemma FeedOne(h: Hook, jobId: string, events: seq<Event>, event: Event)
    ensures var g := Feed(h, jobId, events);
            Feed(h, jobId, events + [event])
            == if g.connection.Live? then Shown(g, jobId, event) else g
  {
    assert (events + [event])[..|events|] == events;
  }

  /** Which of the messages about a job decides what a steady hook ends up showing. */
  datatype Verdict = Undecided | Success | Failure(error: string)

  predicate IsCompletion(m: Message, j: string) {
    && m.body.Object? && "outputFileId" in m.body.fields && m.body.fields["outputFileId"].Str?
    && m == CompletedMessage(j, m.body.fields["outputFileId"].s)
  }

  function VerdictOf(m: Message, j: string): Verdict {
    if IsCompletion(m, j) then Success else if IsFailure(m, j) then Failure(m.body.fields["error"].s) else Undecided
  }

  /** The first final message about `j`, if there is one: a completion or a failure. */
  function FirstFinal(messages: seq<Message>, j: string): Verdict {
    if messages == [] then Undecided
    else if FirstFinal(messages[..|messages| - 1], j) != Undecided then FirstFinal(messages[..|messages| - 1], j)
    else VerdictOf(messages[|messages| - 1], j)
  }

  /** Live, and showing the job active. */
  predicate Steady(h: Hook) {
    h.connection.Live? && Rendered(h) && h.view.status == Str("active")
  }

  /** The hook as the verdict has it. */
  predicate Follows(h: Hook, verdict: Verdict, output: string) {
    match verdict
    case Undecided => Steady(h)
    case Success => h.view == CompletedView(output) && h.connection.NoSocket?
    case Failure(error) => h.view.status == Str("failed") && h.view.error == Some(Str(error)) && h.connection.NoSocket?
  }

  ghost predicate MessageOfAttempt(m: Message, j: string, output: string) {
    m == CompletedMessage(j, output) || IsProgress(m, j) || IsFailure(m, j)
  }

  lemma ProgressKeepsSteady(h: Hook, j: string, n: int)
    requires Steady(h)
    ensures Steady(Shown(h, j, ProgressEvent(j, n)))
  {}

  lemma CompletionCloses(h: Hook, j: string, output: string)
    requires Steady(h)
    ensures Follows(Shown(h, j, CompletedEvent(j, output)), Success, output)
  {}

  lemma FailureCloses(h: Hook, j: string, error: string, output: string)
    requires Steady(h)
    ensures Follows(Shown(h, j, FailedEvent(j, error)), Failure(error), output)
  {}

  lemma VerdictsDiffer(j: string, n: int, output: string)
    ensures VerdictOf(ProgressMessage(j, n), j) == Undecided
    ensures VerdictOf(CompletedMessage(j, output), j) == Success
    ensures forall m | IsFailure(m, j) :: VerdictOf(m, j) == Failure(m.body.fields["error"].s)
  {
    assert Channel("completed", j)[4] == 'c' && Channel("failed", j)[4] == 'f' && Channel("progress", j)[4] == 'p';
  }

  lemma MessageDecides(h: Hook, j: string, output: string, m: Message)
    requires Steady(h) && MessageOfAttempt(m, j, output)
    ensures EventOf(m).Some? && Follows(Shown(h, j, EventOf(m).value), VerdictOf(m, j), output)
  {
    if m == CompletedMessage(j, output) {
      CompletedDecodes(j, output);
      CompletionCloses(h, j, output);
      VerdictsDiffer(j, 0, output);
    } else if IsFailure(m, j) {
      FailedDecodes(j, m.body.fields["error"].s);
      FailureCloses(h, j, m.body.fields["error"].s, output);
      VerdictsDiffer(j, 0, output);
    } else {
      var n: int :| m == ProgressMessage(j, n);
      ProgressDecodes(j, n);
      ProgressKeepsSteady(h, j, n);
      VerdictsDiffer(j, n, output);
    }
  }

  /** What a steady hook shows in the end is settled by the first final message about its job. */
  lemma {:induction false} FirstFinalDecides(h: Hook, j: string, output: string, messages: seq<Message>)
    requires Steady(h)
    requires forall i | 0 <= i < |messages| :: MessageOfAttempt(messages[i], j, output)
    ensures Follows(Feed(h, j, EventsOf(messages)), FirstFinal(messages, j), output)
  {
    if messages != [] {
      var rest, last := messages[..|messages| - 1], messages[|messages| - 1];
      FirstFinalDecides(h, j, output, rest);
      assert messages == rest + [last];
      MessageDecodes(j, output, last);
      EventsOfAppend(rest, last, EventOf(last).value);
      FeedOne(h, j, EventsOf(rest), EventOf(last).value);
      if FirstFinal(rest, j) == Undecided {
        MessageDecides(Feed(h, j, EventsOf(rest)), j, output, last);
      }
    }
  }

  // ---- A job not yet shown active ----------------------------------------------

  /** Live, and showing the job pending. */
  predicate Expectant(h: Hook) {
    h.connection.Live? && Rendered(h) && h.view.status == Str("pending")
  }

  /** The messages there are about a job. */
  ghost predicate IsNews(m: Message, j: string) {
    IsProgress(m, j) || IsCompletion(m, j) || IsFailure(m, j)
  }

  /** What the first message about its job makes of an expectant hook. */
  predicate MovedOn(h: Hook, h': Hook, verdict: Verdict, j: string) {
    && Rendered(h') && h'.said == h.said + [Unsubscribe(j)]
    && match verdict
       case Undecided => h'.view.status == Str("active") && h'.connection.Connecting?
       case Success => h'.view.status == COMPLETED && h'.connection.NoSocket?
       case Failure(error) => h'.view.status == Str("failed") && h'.view.error == Some(Str(error)) && h'.connection.NoSocket?
  }

  lemma NewsMovesOn(h: Hook, j: string, m: Message)
    requires Expectant(h) && IsNews(m, j)
    ensures EventOf(m).Some? && MovedOn(h, Shown(h, j, EventOf(m).value), VerdictOf(m, j), j)
  {
    if IsProgress(m, j) {
      var n: int :| m == ProgressMessage(j, n);
      ProgressDecodes(j, n);
      VerdictsDiffer(j, n, "");
      PendingHookReopens(h, j, n);
    } else if IsCompletion(m, j) {
      CompletedDecodes(j, m.body.fields["outputFileId"].s);
    } else {
      FailedDecodes(j, m.body.fields["error"].s);
      VerdictsDiffer(j, 0, "");
    }
  }

  lemma NewsDecodes(m: Message, j: string)
    requires IsNews(m, j)
    ensures EventOf(m).Some?
  {
    if IsProgress(m, j) {
      var n: int :| m == ProgressMessage(j, n);
      ProgressDecodes(j, n);
    } else if IsCompletion(m, j) {
      CompletedDecodes(j, m.body.fields["outputFileId"].s);
    } else {
      FailedDecodes(j, m.body.fields["error"].s);
    }
  }

  /** An expectant hook leaves its socket at the first message about its job. */
  lemma {:induction false} FirstNewsMovesOn(h: Hook, j: string, messages: seq<Message>)
    requires Expectant(h) && messages != [] && forall i | 0 <= i < |messages| :: IsNews(messages[i], j)
    ensures MovedOn(h, Feed(h, j, EventsOf(messages)), VerdictOf(messages[0], j), j)
  {
    var rest, last := messages[..|messages| - 1], messages[|messages| - 1];
    assert messages == rest + [last];
    NewsDecodes(last, j);
    EventsOfAppend(rest, last, EventOf(last).value);
    FeedOne(h, j, EventsOf(rest), EventOf(last).value);
    if rest == [] {
      NewsMovesOn(h, j, last);
    } else {
      FirstNewsMovesOn(h, j, rest);
    }
  }

  // ---- Messages and events -----------------------------------------------------

  lemma MessageDecodes(j: string, output: string, m: Message)
    requires MessageOfAttempt(m, j, output)
    ensures EventOf(m).Some? && OfAttempt(EventOf(m).value, j, output)
  {
    if m == CompletedMessage(j, output) {
      CompletedDecodes(j, output);
    } else if IsFailure(m, j) {
      FailedDecodes(j, m.body.fields["error"].s);
      assert EventOf(m) == Some(FailedEvent(j, m.body.fields["error"].s));
    } else {
      var n: int :| m == ProgressMessage(j, n);
      ProgressDecodes(j, n);
      assert EventOf(m) == Some(ProgressEvent(j, n));
    }
  }
}
