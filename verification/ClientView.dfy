/** The browser's view of one job: a reducer over the events it receives. */
module ClientView {
  import opened Basics
  import opened Wrappers
  import opened Keys
  import opened Messages
  import opened Attempt
  import opened AttemptEvents
  import opened Delivery

  datatype View = View(progress: Json, status: Json, error: Option<Json>, outputFileId: Option<Json>)

  /** `fields[name] ?? default`. */
  function FieldOr(fields: Event, name: string, default: Json): Json {
    if name in fields && fields[name] != Null then fields[name] else default
  }

  function FieldOrNull(fields: Event, name: string): Option<Json> {
    if name in fields && fields[name] != Null then Some(fields[name]) else None
  }

  predicate HasField(fields: Event, name: string, value: Json) {
    name in fields && fields[name] == value
  }

  /** The view after one event. */
  function Receive(view: View, jobId: string, event: Event): View {
    if !HasField(event, "jobId", Str(jobId)) then view
    else if HasField(event, "type", Str("job:progress")) then
      View(FieldOr(event, "progress", Num(0)), FieldOr(event, "status", Str("active")), None, None)
    else if HasField(event, "type", Str("job:completed")) then
      View(Num(100), Str("completed"), None, FieldOrNull(event, "outputFileId"))
    else if HasField(event, "type", Str("job:failed")) then
      view.(status := Str("failed"), error := Some(FieldOr(event, "error", Str("Processing failed"))))
    else view
  }

  function ReceiveAll(view: View, jobId: string, events: seq<Event>): View {
    if events == [] then view
    else Receive(ReceiveAll(view, jobId, events[..|events| - 1]), jobId, events[|events| - 1])
  }

  /** What becomes of an event whose fields are missing or null, or that is not for the job at all. */
  lemma MissingFieldsAreFilledIn(view: View, j: string, event: Event)
    ensures var after := Receive(view, j, event);
            var missing := (name: string) => name !in event || event[name] == Null;
            if !("jobId" in event && event["jobId"] == Str(j) && "type" in event) then after == view
            else if event["type"] == Str("job:progress") then
              && after.error == None && after.outputFileId == None
              && after.progress == (if missing("progress") then Num(0) else event["progress"])
              && after.status == (if missing("status") then Str("active") else event["status"])
            else if event["type"] == Str("job:completed") then
              && after.progress == Num(100) && after.status == Str("completed") && after.error == None
              && after.outputFileId == (if missing("outputFileId") then None else Some(event["outputFileId"]))
            else if event["type"] == Str("job:failed") then
              && after.status == Str("failed")
              && after.progress == view.progress && after.outputFileId == view.outputFileId
              && after.error == Some(if missing("error") then Str("Processing failed") else event["error"])
            else after == view
  {}

  // ---- The events of one successful attempt ----------------------------------

  function EventOf(m: Message): Option<Event> {
    match Decode(m) case None => None case Some(a) => Some(a.event)
  }

  /** The events of the messages, those that cannot be decoded left out. */
  function EventsOf(messages: seq<Message>): seq<Event> {
    if messages == [] then []
    else
      var rest, last := messages[..|messages| - 1], messages[|messages| - 1];
      match EventOf(last) case None => EventsOf(rest) case Some(e) => EventsOf(rest) + [e]
  }

  /** `part` is `whole` with some events lost. */
  predicate Sublist<T(==)>(part: seq<T>, whole: seq<T>) {
    if part == [] then true
    else if whole == [] then false
    else if part[|part| - 1] == whole[|whole| - 1] && Sublist(part[..|part| - 1], whole[..|whole| - 1]) then true
    else Sublist(part, whole[..|whole| - 1])
  }

  /** Progress events of job `j` with increasing numbers, none above `top`. */
  ghost predicate Ascending(events: seq<Event>, j: string, top: int) {
    events != [] ==>
      exists n: int :: 0 <= n <= top && events[|events| - 1] == ProgressEvent(j, n) && Ascending(events[..|events| - 1], j, n)
  }

  lemma {:induction false} AscendingWeakens(events: seq<Event>, j: string, n: int, top: int)
    requires Ascending(events, j, n) && n <= top
    ensures Ascending(events, j, top)
  {
    if events != [] {
      var m :| 0 <= m <= n && events[|events| - 1] == ProgressEvent(j, m) && Ascending(events[..|events| - 1], j, m);
      assert 0 <= m <= top;
    }
  }

  lemma {:induction false} SublistAscends(part: seq<Event>, whole: seq<Event>, j: string, top: int)
    requires Sublist(part, whole) && Ascending(whole, j, top)
    ensures Ascending(part, j, top)
    decreases |whole|
  {
    if part != [] {
      var n :| 0 <= n <= top && whole[|whole| - 1] == ProgressEvent(j, n) && Ascending(whole[..|whole| - 1], j, n);
      if part[|part| - 1] == whole[|whole| - 1] && Sublist(part[..|part| - 1], whole[..|whole| - 1]) {
        SublistAscends(part[..|part| - 1], whole[..|whole| - 1], j, n);
        assert part[|part| - 1] == ProgressEvent(j, n);
      } else {
        SublistAscends(part, whole[..|whole| - 1], j, n);
        AscendingWeakens(part, j, n, top);
      }
    }
  }

  predicate ProgressWithin(view: View, low: int, high: int) {
    view.progress.Num? && low <= view.progress.n <= high
  }

  /** From the first of them on, ascending progress events never take the view's progress back. */
  lemma {:induction false} AscendingViews(view: View, j: string, events: seq<Event>, top: int, k: nat)
    requires Ascending(events, j, top) && 1 <= k <= |events|
    ensures ProgressWithin(ReceiveAll(view, j, events), 0, top)
    ensures ReceiveAll(view, j, events[..k]).progress.Num?
    ensures ReceiveAll(view, j, events[..k]).progress.n <= ReceiveAll(view, j, events).progress.n
    decreases |events|
  {
    var rest := events[..|events| - 1];
    var n :| 0 <= n <= top && events[|events| - 1] == ProgressEvent(j, n) && Ascending(rest, j, n);
    if k == |events| {
      assert events[..k] == events;
    } else {
      assert events[..k] == rest[..k];
      AscendingViews(view, j, rest, n, k);
    }
  }

  lemma RoundedProgressGrows(i: nat, stages: nat)
    requires 0 < stages
    ensures RoundedProgress(i, stages) <= RoundedProgress(i + 1, stages)
    ensures RoundedProgress(stages, stages) == 100
    ensures RoundedProgress(0, stages) == 0
  {
    Quotient(100, stages);
    Quotient(0, stages);
    DivisionGrows(200 * i + stages, 200 * (i + 1) + stages, 2 * stages);
  }

  /** The rounded progress is the number nearest to the exact one; halves round up. */
  lemma RoundedIsNearest(i: nat, stages: nat)
    requires 0 < stages
    ensures 200 * i - stages < 2 * stages * RoundedProgress(i, stages) <= 200 * i + stages
  {
    var n, d := 200 * i + stages, 2 * stages;
    assert n == d * (n / d) + n % d && n % d < d;
  }

  lemma Quotient(q: nat, stages: nat)
    requires 0 < stages
    ensures (2 * q * stages + stages) / (2 * stages) == q
  {
    assert 2 * q * stages + stages == q * (2 * stages) + stages;
    DivisionOfSum(q, stages, 2 * stages);
  }

  lemma EventsOfAppend(messages: seq<Message>, m: Message, e: Event)
    requires EventOf(m) == Some(e)
    ensures EventsOf(messages + [m]) == EventsOf(messages) + [e]
  {
    assert (messages + [m])[..|messages|] == messages;
  }

  lemma AscendingAppend(events: seq<Event>, j: string, n: int, top: int)
    requires 0 <= n <= top && Ascending(events, j, n)
    ensures Ascending(events + [ProgressEvent(j, top)], j, top)
  {
    AscendingWeakens(events, j, n, top);
    assert (events + [ProgressEvent(j, top)])[..|events|] == events;
  }

  lemma ProgressAppend(messages: seq<Message>, j: string, n: int, top: int)
    requires 0 <= n <= top && Ascending(EventsOf(messages), j, n)
    ensures Ascending(EventsOf(messages + [ProgressMessage(j, top)]), j, top)
  {
    ProgressDecodes(j, top);
    EventsOfAppend(messages, ProgressMessage(j, top), ProgressEvent(j, top));
    AscendingAppend(EventsOf(messages), j, n, top);
  }

  lemma {:induction false} StageEventsAscend(p: Payload, n: nat)
    requires n <= STAGES
    ensures Ascending(EventsOf(StageMessages(p, n)), p.jobId, RoundedProgress(n, STAGES))
  {
    if n > 0 {
      StageEventsAscend(p, n - 1);
      RoundedProgressGrows(n - 1, STAGES);
      ProgressAppend(StageMessages(p, n - 1), p.jobId, RoundedProgress(n - 1, STAGES), RoundedProgress(n, STAGES));
    }
  }

  lemma ImageEventsAscend(p: Payload)
    ensures Ascending(EventsOf(ImageMessages(p)), p.jobId, 66)
  {
    var none: seq<Message> := [];
    var j := p.jobId;
    ProgressAppend(none, j, 0, 0);
    ProgressAppend(none + [ProgressMessage(j, 0)], j, 0, 33);
    ProgressAppend(none + [ProgressMessage(j, 0)] + [ProgressMessage(j, 33)], j, 33, 66);
    assert none + [ProgressMessage(j, 0)] + [ProgressMessage(j, 33)] + [ProgressMessage(j, 66)] == ImageMessages(p);
  }

  function ProgressPart(p: Payload): seq<Message> {
    if IsImageJob(p) then ImageMessages(p) else StageMessages(p, STAGES)
  }

  lemma SuccessEvents(p: Payload, output: Id)
    ensures EventsOf(SuccessMessages(p, output)) == EventsOf(ProgressPart(p)) + [CompletedEvent(p.jobId, output)]
    ensures Ascending(EventsOf(ProgressPart(p)), p.jobId, 100)
  {
    CompletedDecodes(p.jobId, output);
    EventsOfAppend(ProgressPart(p), CompletedMessage(p.jobId, output), CompletedEvent(p.jobId, output));
    if IsImageJob(p) {
      ImageEventsAscend(p);
      AscendingWeakens(EventsOf(ProgressPart(p)), p.jobId, 66, 100);
    } else {
      StageEventsAscend(p, STAGES);
      RoundedProgressGrows(0, STAGES);
    }
  }

  // ---- A view with losses ----------------------------------------------------

  const COMPLETED := Str("completed")

  lemma {:induction false} SublistPrefix<T>(part: seq<T>, whole: seq<T>, m: nat)
    requires Sublist(part, whole) && m <= |part|
    ensures Sublist(part[..m], whole)
    decreases |whole|
  {
    if m == |part| {
      assert part[..m] == part;
    } else if m > 0 {
      var rest := whole[..|whole| - 1];
      if part[|part| - 1] == whole[|whole| - 1] && Sublist(part[..|part| - 1], rest) {
        assert part[..|part| - 1][..m] == part[..m];
        SublistPrefix(part[..|part| - 1], rest, m);
      } else {
        SublistPrefix(part, rest, m);
      }
    }
  }

  /**
   Losing any of the events of a successful attempt, and whatever was shown before, from
   the first event that arrives on the shown progress never goes back.
   */
  lemma LossyProgressNeverFalls(p: Payload, output: Id, part: seq<Event>, view: View, k: nat, m: nat)
    requires Sublist(part, EventsOf(SuccessMessages(p, output)))
    requires 1 <= k <= m <= |part|
    ensures var before, after := ReceiveAll(view, p.jobId, part[..k]), ReceiveAll(view, p.jobId, part[..m]);
            before.progress.Num? && after.progress.Num? && before.progress.n <= after.progress.n
  {
    SuccessEvents(p, output);
    SublistPrefix(part, EventsOf(SuccessMessages(p, output)), m);
    assert part[..m][..k] == part[..k];
    LossyViewNeverFalls(view, p.jobId, part[..m], EventsOf(ProgressPart(p)), output, k);
  }

  lemma LossyViewNeverFalls(view: View, j: string, seen: seq<Event>, progress: seq<Event>, output: Id, k: nat)
    requires Sublist(seen, progress + [CompletedEvent(j, output)]) && Ascending(progress, j, 100)
    requires 1 <= k <= |seen|
    ensures var before, after := ReceiveAll(view, j, seen[..k]), ReceiveAll(view, j, seen);
            before.progress.Num? && after.progress.Num? && before.progress.n <= after.progress.n
  {
    SublistOfAppend(seen, progress, CompletedEvent(j, output));
    if Sublist(seen, progress) {
      SublistAscends(seen, progress, j, 100);
      AscendingViews(view, j, seen, 100, k);
    } else {
      SublistAscends(seen[..|seen| - 1], progress, j, 100);
      CompletionTops(view, j, output, seen, k);
    }
  }

  /** A sublist of `whole + [last]` is one of `whole`, or one of `whole` with `last` behind it. */
  lemma SublistOfAppend<T>(part: seq<T>, whole: seq<T>, last: T)
    requires Sublist(part, whole + [last])
    ensures || Sublist(part, whole)
            || (part != [] && part[|part| - 1] == last && Sublist(part[..|part| - 1], whole))
  {
    assert (whole + [last])[..|whole|] == whole;
  }

  lemma CompletionTops(view: View, j: string, output: Id, seen: seq<Event>, k: nat)
    requires seen != [] && seen[|seen| - 1] == CompletedEvent(j, output) && 1 <= k <= |seen|
    requires Ascending(seen[..|seen| - 1], j, 100)
    ensures var before, after := ReceiveAll(view, j, seen[..k]), ReceiveAll(view, j, seen);
            before.progress.Num? && after.progress.Num? && before.progress.n <= after.progress.n
  {
    var rest := seen[..|seen| - 1];
    assert ReceiveAll(view, j, seen).progress == Num(100);
    if k < |seen| {
      assert rest[..k] == seen[..k];
      AscendingViews(view, j, rest, 100, k);
    } else {
      assert seen[..k] == seen;
    }
  }

  /** The progress that an event of a successful attempt carries. */
  function EventProgress(event: Event): int {
    if HasField(event, "type", Str("job:completed")) then 100
    else if "progress" in event && event["progress"].Num? then event["progress"].n
    else 0
  }

  /** What the view shows at first is not undercut later. */
  ghost predicate NeverBelow(view: View, j: string, part: seq<Event>)
    requires view.progress.Num?
  {
    forall m | 0 <= m <= |part| ::
      ProgressAtLeast(ReceiveAll(view, j, part[..m]), view.progress.n)
  }

  predicate ProgressAtLeast(view: View, low: int) {
    view.progress.Num? && low <= view.progress.n
  }

  lemma FirstEventShows(view: View, j: string, first: Event, progress: seq<Event>, output: Id)
    requires Sublist([first], progress + [CompletedEvent(j, output)]) && Ascending(progress, j, 100)
    ensures Receive(view, j, first).progress == Num(EventProgress(first))
  {
    SublistOfAppend([first], progress, CompletedEvent(j, output));
    if Sublist([first], progress) {
      SublistAscends([first], progress, j, 100);
    }
  }

  lemma ReceiveFirst(view: View, j: string, part: seq<Event>)
    requires part != []
    ensures ReceiveAll(view, j, part[..1]) == Receive(view, j, part[0])
  {
    var first, none: seq<Event> := part[..1], [];
    assert first[..|first| - 1] == none && first[|first| - 1] == part[0];
    assert ReceiveAll(view, j, none) == view;
  }

  /**
   The view starts from the progress of the job row.  That is never undercut exactly if
   the first event that arrives carries at least as much.
   */
  lemma InitialProgressHoldsExactly(p: Payload, output: Id, part: seq<Event>, view: View)
    requires Sublist(part, EventsOf(SuccessMessages(p, output))) && part != [] && view.progress.Num?
    ensures NeverBelow(view, p.jobId, part) <==> view.progress.n <= EventProgress(part[0])
  {
    SuccessEvents(p, output);
    SublistPrefix(part, EventsOf(SuccessMessages(p, output)), 1);
    assert part[..1] == [part[0]];
    FirstEventShows(view, p.jobId, part[0], EventsOf(ProgressPart(p)), output);
    ReceiveFirst(view, p.jobId, part);
    if view.progress.n <= EventProgress(part[0]) {
      forall m | 0 <= m <= |part| ensures ProgressAtLeast(ReceiveAll(view, p.jobId, part[..m]), view.progress.n) {
        if m > 0 {
          LossyProgressNeverFalls(p, output, part, view, 1, m);
        }
      }
    }
  }

  /** A panel opened at 66 percent is taken back to 0 by the events of a retry, all of them arriving. */
  lemma RetryTakesProgressBack(p: Payload, output: Id)
    requires IsImageJob(p)
    ensures var part := EventsOf(SuccessMessages(p, output));
            Sublist(part, part) && !NeverBelow(View(Num(66), Str("active"), None, None), p.jobId, part)
  {
    var part := EventsOf(SuccessMessages(p, output));
    SublistOfItself(part);
    FirstIsZero(p, output);
    InitialProgressHoldsExactly(p, output, part, View(Num(66), Str("active"), None, None));
  }

  lemma {:induction false} SublistOfItself<T>(s: seq<T>)
    ensures Sublist(s, s)
  {
    if s != [] {
      SublistOfItself(s[..|s| - 1]);
    }
  }

  lemma FirstIsZero(p: Payload, output: Id)
    requires IsImageJob(p)
    ensures var part := EventsOf(SuccessMessages(p, output));
            part != [] && part[0] == ProgressEvent(p.jobId, 0)
  {
    SuccessEvents(p, output);
    ImageEvents(p);
  }

  lemma ImageEvents(p: Payload)
    ensures var j := p.jobId; EventsOf(ImageMessages(p)) == [ProgressEvent(j, 0), ProgressEvent(j, 33), ProgressEvent(j, 66)]
  {
    var j, none: seq<Message> := p.jobId, [];
    ProgressDecodes(j, 0);
    ProgressDecodes(j, 33);
    ProgressDecodes(j, 66);
    var one := none + [ProgressMessage(j, 0)];
    EventsOfAppend(none, ProgressMessage(j, 0), ProgressEvent(j, 0));
    EventsOfAppend(one, ProgressMessage(j, 33), ProgressEvent(j, 33));
    EventsOfAppend(one + [ProgressMessage(j, 33)], ProgressMessage(j, 66), ProgressEvent(j, 66));
    assert one + [ProgressMessage(j, 33)] + [ProgressMessage(j, 66)] == ImageMessages(p);
  }
}
