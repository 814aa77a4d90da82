/** The published log of the platform: what is in it, and what one attempt adds to it. */
module Announcements {
  import opened Keys
  import opened Messages
  import opened Store
  import opened Environment
  import opened Attempt
  import opened Calls
  import opened Sweeps
  import opened Machine
  import opened ControlSteps
  import opened Retry
  import opened Guarantees
  import opened AttemptEvents
  import opened Outputs
  import Channels
  import Delivery

  /** The message is for job `j`, by its channel and in its body. */
  ghost predicate IsAbout(m: Message, j: Id) {
    && Delivery.Decode(m).Some?
    && var a := Delivery.Decode(m).value;
       a.jobId == j && "jobId" in a.event && a.event["jobId"] == Str(j)
  }

  lemma AttemptPublishesAboutItsJob(s: Store, p: Payload, pc: Pc, env: Env, j: Id)
    ensures var e := Attempt.Next(s, p, pc, env).effect;
            e.Publish? ==> (IsAbout(e.message, j) <==> j == p.jobId)
  {
    var e := Attempt.Next(s, p, pc, env).effect;
    if e.Publish? {
      match pc
      case AnnounceActive => Delivery.ProgressDecodes(p.jobId, 0);
      case Report(m, _, _) => Delivery.ProgressDecodes(p.jobId, MilestoneProgress(m));
      case Announce(output) => Delivery.CompletedDecodes(p.jobId, output);
    }
  }

  lemma AttemptsAnnounceNoFailure(s: Store, p: Payload, pc: Pc, env: Env, j: Id)
    ensures var e := Attempt.Next(s, p, pc, env).effect;
            e.Publish? ==> !IsFailure(e.message, j)
  {
    var e := Attempt.Next(s, p, pc, env).effect;
    if e.Publish? {
      assert Channel("failed", j)[4] == 'f';
      assert Channel("progress", p.jobId)[4] == 'p' && Channel("completed", p.jobId)[4] == 'c';
    }
  }

  lemma FailureNamesItsJob(i: Id, error: string, j: Id)
    ensures IsFailure(FailedMessage(i, error), j) <==> i == j
  {
    Channels.ChannelRoundTrip("failed", i);
    Channels.ChannelRoundTrip("failed", j);
  }

  // ---- Every message in the log ----------------------------------------------

  ghost predicate IsQueued(w: World, j: Id) {
    exists q | 0 <= q < |w.queue| :: w.queue[q].payload.jobId == j
  }

  ghost predicate IsDeliverable(w: World, m: Message) {
    exists j :: IsQueued(w, j) && IsAbout(m, j)
  }

  ghost predicate PublishedOk(w: World) {
    forall i | 0 <= i < |w.base.store.published| :: IsDeliverable(w, w.base.store.published[i])
  }

  /** What a step publishes: at most one message. */
  function StepMessages(w: World, step: Step, env: Env): seq<Message>
    requires Enabled(w, step, env)
  {
    match step
    case ContinueAttempt(q) => MessagesOf(Attempt.Next(w.base.store, w.queue[q].payload, w.queue[q].state.pc, env).effect)
    case ContinueHandler(h) =>
      if w.handlers[h].pc == PublishingFailed && env.outcome.Landed() then [FailedMessageOf(w.handlers[h])] else []
    case _ => []
  }

  lemma EffectPublishes(s: Store, e: Effect)
    ensures Apply(s, e).published == s.published + MessagesOf(e)
  {}

  lemma CallsPublishNothing(s: Store, call: Call, env: Env)
    ensures !Calls.Next(s, call, env).effect.Publish?
  {}

  lemma AttemptPublishes(w: World, q: nat, env: Env)
    requires Enabled(w, ContinueAttempt(q), env)
    ensures AfterAttempt(w, q, env).base.store.published
            == w.base.store.published + StepMessages(w, ContinueAttempt(q), env)
  {
    EffectPublishes(w.base.store, Attempt.Next(w.base.store, w.queue[q].payload, w.queue[q].state.pc, env).effect);
  }

  lemma HandlerPublishes(w: World, h: nat, env: Env)
    requires HandlerActive(w, h)
    ensures AfterHandler(w, h, env).base.store.published
            == w.base.store.published + StepMessages(w, ContinueHandler(h), env)
  {
    var w' := AfterHandler(w, h, env);
    if w.handlers[h].pc == WritingFailed {
      assert w'.base.store.published == w.base.store.published;
    }
  }

  lemma CallPublishes(w: World, c: nat, env: Env)
    requires InFlight(w, c)
    ensures AfterCall(w, c, env).base.store.published == w.base.store.published
  {
    EffectPublishes(w.base.store, Calls.Next(w.base.store, w.calls[c], env).effect);
    CallsPublishNothing(w.base.store, w.calls[c], env);
  }

  lemma SweepPublishes(w: World, s: nat, env: Env)
    requires SweepActive(w, s)
    ensures AfterSweep(w, s, env).base.store.published == w.base.store.published
  {
    EffectPublishes(w.base.store, Sweeps.Next(w.sweeps[s], env).effect);
  }

  lemma StepPublishes(w: World, step: Step, env: Env)
    requires Enabled(w, step, env)
    ensures After(w, step, env).base.store.published == w.base.store.published + StepMessages(w, step, env)
  {
    if step.ContinueAttempt? {
      AttemptPublishes(w, step.q, env);
    } else if step.ContinueHandler? {
      HandlerPublishes(w, step.h, env);
    } else if step.ContinueCall? {
      CallPublishes(w, step.c, env);
    } else if step.ContinueSweep? {
      SweepPublishes(w, step.s, env);
    }
  }

  /** The log of a run. */
  function RunMessages(w: World, run: Run): seq<Message>
    requires ValidRun(w, run)
    decreases |run|
  {
    if run == [] then []
    else StepMessages(w, run[0].0, run[0].1) + RunMessages(After(w, run[0].0, run[0].1), run[1..])
  }

  lemma {:induction false} RunPublishes(w: World, run: Run)
    requires ValidRun(w, run)
    ensures End(w, run).base.store.published == w.base.store.published + RunMessages(w, run)
    decreases |run|
  {
    if run != [] {
      var w' := After(w, run[0].0, run[0].1);
      StepPublishes(w, run[0].0, run[0].1);
      RunPublishes(w', run[1..]);
      Regroup(w.base.store.published, StepMessages(w, run[0].0, run[0].1), RunMessages(w', run[1..]));
    }
  }

  lemma QueueOnlyGrows(w: World, step: Step, env: Env)
    requires Enabled(w, step, env)
    ensures var w' := After(w, step, env);
            |w.queue| <= |w'.queue| && forall q | 0 <= q < |w.queue| :: w'.queue[q].payload == w.queue[q].payload
  {}

  lemma FailureIsDeliverable(w: World, h: nat)
    requires Invariant(w) && h < |w.handlers|
    ensures IsDeliverable(w, FailedMessageOf(w.handlers[h]))
  {
    Delivery.FailedDecodes(w.handlers[h].jobId, w.handlers[h].message);
    assert Attempted(w, w.handlers[h].jobId);
    assert IsQueued(w, w.handlers[h].jobId);
    assert IsAbout(FailedMessageOf(w.handlers[h]), w.handlers[h].jobId);
  }

  lemma AttemptIsDeliverable(w: World, q: nat, env: Env)
    requires CanContinue(w, q)
    ensures var e := Attempt.Next(w.base.store, w.queue[q].payload, w.queue[q].state.pc, env).effect;
            e.Publish? ==> IsDeliverable(w, e.message)
  {
    AttemptPublishesAboutItsJob(w.base.store, w.queue[q].payload, w.queue[q].state.pc, env, w.queue[q].payload.jobId);
    assert IsQueued(w, w.queue[q].payload.jobId);
  }

  lemma StepMessagesAreDeliverable(w: World, step: Step, env: Env)
    requires Invariant(w) && Enabled(w, step, env)
    ensures forall i | 0 <= i < |StepMessages(w, step, env)| :: IsDeliverable(w, StepMessages(w, step, env)[i])
  {
    if step.ContinueAttempt? {
      AttemptIsDeliverable(w, step.q, env);
    } else if step.ContinueHandler? {
      FailureIsDeliverable(w, step.h);
    }
  }

  lemma DeliverableLasts(w: World, step: Step, env: Env, m: Message)
    requires Enabled(w, step, env) && IsDeliverable(w, m)
    ensures IsDeliverable(After(w, step, env), m)
  {
    QueueOnlyGrows(w, step, env);
    var j :| IsQueued(w, j) && IsAbout(m, j);
    var q :| 0 <= q < |w.queue| && w.queue[q].payload.jobId == j;
    assert After(w, step, env).queue[q].payload.jobId == j;
    assert IsQueued(After(w, step, env), j);
  }

  lemma {:induction false} RunKeepsPublished(w: World, run: Run)
    requires Invariant(w) && ValidRun(w, run) && PublishedOk(w)
    ensures PublishedOk(End(w, run))
    decreases |run|
  {
    if run != [] {
      var step, env := run[0].0, run[0].1;
      var w' := After(w, step, env);
      StepPublishes(w, step, env);
      StepMessagesAreDeliverable(w, step, env);
      forall i | 0 <= i < |w'.base.store.published| ensures IsDeliverable(w', w'.base.store.published[i]) {
        var m := w'.base.store.published[i];
        assert m == if i < |w.base.store.published| then w.base.store.published[i]
                    else StepMessages(w, step, env)[i - |w.base.store.published|];
        DeliverableLasts(w, step, env, m);
      }
      StepKeepsInvariant(w, step, env);
      RunKeepsPublished(w', run[1..]);
    }
  }

  /** Whatever is ever published can be decoded, and concerns a job that was queued. */
  lemma EverythingPublishedIsDeliverable(w: World, i: nat)
    requires Reachable(w) && i < |w.base.store.published|
    ensures IsDeliverable(w, w.base.store.published[i])
  {
    var run: Run :| ValidRun(INITIAL, run) && End(INITIAL, run) == w;
    RunKeepsPublished(INITIAL, run);
  }

  // ---- What one attempt adds -------------------------------------------------

  ghost function About(messages: seq<Message>, j: Id): seq<Message> {
    if messages == [] then []
    else (if IsAbout(messages[0], j) then [messages[0]] else []) + About(messages[1..], j)
  }

  lemma {:induction false} AboutDistributes(a: seq<Message>, b: seq<Message>, j: Id)
    ensures About(a + b, j) == About(a, j) + About(b, j)
  {
    if a == [] {
      assert a + b == b;
    } else {
      var first := if IsAbout(a[0], j) then [a[0]] else [];
      assert (a + b)[0] == a[0] && (a + b)[1..] == a[1..] + b;
      AboutDistributes(a[1..], b, j);
      assert first + (About(a[1..], j) + About(b, j)) == (first + About(a[1..], j)) + About(b, j);
    }
  }

  /** The messages without those that announce a failure of `j`. */
  function NoFailures(messages: seq<Message>, j: Id): seq<Message> {
    if messages == [] then []
    else (if IsFailure(messages[0], j) then [] else [messages[0]]) + NoFailures(messages[1..], j)
  }

  lemma {:induction false} NoFailuresDistributes(a: seq<Message>, b: seq<Message>, j: Id)
    ensures NoFailures(a + b, j) == NoFailures(a, j) + NoFailures(b, j)
  {
    if a == [] {
      assert a + b == b;
    } else {
      assert (a + b)[1..] == a[1..] + b;
      NoFailuresDistributes(a[1..], b, j);
    }
  }

  /** What is published about `j`, its failures left out. */
  ghost function Own(messages: seq<Message>, j: Id): seq<Message> {
    NoFailures(About(messages, j), j)
  }

  lemma OwnDistributes(a: seq<Message>, b: seq<Message>, j: Id)
    ensures Own(a + b, j) == Own(a, j) + Own(b, j)
  {
    AboutDistributes(a, b, j);
    NoFailuresDistributes(About(a, j), About(b, j), j);
  }

  lemma OwnOfOne(m: Message, j: Id)
    ensures Own([m], j) == if IsAbout(m, j) && !IsFailure(m, j) then [m] else []
  {
    var one: seq<Message>, none: seq<Message> := [m], [];
    assert one[1..] == none;
    assert About(none, j) == none && NoFailures(none, j) == none;
    assert About(one, j) == if IsAbout(m, j) then one else none;
    assert NoFailures(one, j) == if IsFailure(m, j) then none else one;
  }

  /** The awaits of the attempt at queue position `q`, as the run interleaves them. */
  function TraceOf(w: World, run: Run, q: nat): Trace
    requires ValidRun(w, run)
    decreases |run|
  {
    if run == [] then []
    else
      (if run[0].0 == ContinueAttempt(q) then [(w.base.store, run[0].1)] else [])
      + TraceOf(After(w, run[0].0, run[0].1), run[1..], q)
  }

  ghost predicate NeverSettles(run: Run, q: nat) {
    forall i | 0 <= i < |run| :: run[i].0 != SettleAttempt(q)
  }

  lemma NeverSettlesLater(run: Run, q: nat)
    requires run != [] && NeverSettles(run, q)
    ensures run[0].0 != SettleAttempt(q) && NeverSettles(run[1..], q)
  {
    forall i | 0 <= i < |run[1..]| ensures run[1..][i].0 != SettleAttempt(q) {
      assert run[1..][i] == run[i + 1];
    }
  }

  predicate AtWork(w: World, q: nat) {
    q < |w.queue| && w.queue[q].state.Running?
  }

  lemma AttemptLasts(w: World, step: Step, env: Env, q: nat)
    requires Enabled(w, step, env) && AtWork(w, q) && step != SettleAttempt(q)
    ensures var w' := After(w, step, env);
            && AtWork(w', q) && w'.queue[q].payload == w.queue[q].payload
            && (step != ContinueAttempt(q) ==> w'.queue[q] == w.queue[q])
  {}

  /** But for announcements of its failures, no one else publishes about the job. */
  lemma StepSpeaksForAttempt(w: World, step: Step, env: Env, q: nat)
    requires Invariant(w) && Enabled(w, step, env) && AtWork(w, q)
    ensures Own(StepMessages(w, step, env), w.queue[q].payload.jobId)
            == if step == ContinueAttempt(q) then StepMessages(w, step, env) else []
  {
    match step
    case ContinueAttempt(r) => AttemptSpeaks(w, r, env, q);
    case ContinueHandler(h) => FailuresAreLeftOut(w.handlers[h].jobId, w.handlers[h].message, w.queue[q].payload.jobId);
    case _ =>
  }

  lemma AttemptSpeaks(w: World, r: nat, env: Env, q: nat)
    requires Invariant(w) && Enabled(w, ContinueAttempt(r), env) && AtWork(w, q)
    ensures var messages := StepMessages(w, ContinueAttempt(r), env);
            Own(messages, w.queue[q].payload.jobId) == if r == q then messages else []
  {
    var j := w.queue[q].payload.jobId;
    AttemptPublishesAboutItsJob(w.base.store, w.queue[r].payload, w.queue[r].state.pc, env, j);
    AttemptsAnnounceNoFailure(w.base.store, w.queue[r].payload, w.queue[r].state.pc, env, j);
    assert r != q ==> w.queue[r].payload.jobId != j;
    var messages := StepMessages(w, ContinueAttempt(r), env);
    if messages != [] {
      assert messages == [messages[0]];
      OwnOfOne(messages[0], j);
    }
  }

  lemma FailuresAreLeftOut(i: Id, error: string, j: Id)
    ensures Own([FailedMessage(i, error)], j) == [] && Own([], j) == []
  {
    var m := FailedMessage(i, error);
    Delivery.FailedDecodes(i, error);
    FailureNamesItsJob(i, error, j);
    OwnOfOne(m, j);
  }

  lemma {:induction false} RunSpeaksForAttempt(w: World, run: Run, q: nat)
    requires Invariant(w) && ValidRun(w, run) && AtWork(w, q) && NeverSettles(run, q)
    ensures var p, pc := w.queue[q].payload, w.queue[q].state.pc;
            && Own(RunMessages(w, run), p.jobId) == Published(p, pc, TraceOf(w, run, q))
            && AtWork(End(w, run), q) && End(w, run).queue[q].state == Running(PcAfter(p, pc, TraceOf(w, run, q)))
    decreases |run|
  {
    if run != [] {
      var step, env := run[0].0, run[0].1;
      var w' := After(w, step, env);
      NeverSettlesLater(run, q);
      AttemptLasts(w, step, env, q);
      StepKeepsInvariant(w, step, env);
      RunSpeaksForAttempt(w', run[1..], q);
      StepSpeaksForAttempt(w, step, env, q);
      OwnDistributes(StepMessages(w, step, env), RunMessages(w', run[1..]), w.queue[q].payload.jobId);
      FirstOfTrace(w, run, q);
    }
  }

  lemma FirstOfTrace(w: World, run: Run, q: nat)
    requires run != [] && ValidRun(w, run) && AtWork(w, q)
    ensures var rest := TraceOf(After(w, run[0].0, run[0].1), run[1..], q);
            var p, pc := w.queue[q].payload, w.queue[q].state.pc;
            if run[0].0 == ContinueAttempt(q)
            then var m := Attempt.Next(w.base.store, p, pc, run[0].1);
                 && PcAfter(p, pc, TraceOf(w, run, q)) == PcAfter(p, m.pc, rest)
                 && Published(p, pc, TraceOf(w, run, q)) == MessagesOf(m.effect) + Published(p, m.pc, rest)
            else TraceOf(w, run, q) == rest
  {
    if run[0].0 == ContinueAttempt(q) {
      assert TraceOf(w, run, q)[1..] == TraceOf(After(w, run[0].0, run[0].1), run[1..], q);
    }
  }

  // ---- No failure of the job being handled -----------------------------------

  ghost predicate HandlersDone(w: World, j: Id) {
    forall h | 0 <= h < |w.handlers| && w.handlers[h].jobId == j :: w.handlers[h].pc == HandlerDone
  }

  /** While an attempt of `j` is at work, no other throws on behalf of `j`. */
  lemma HandlersStayDone(w: World, step: Step, env: Env, q: nat)
    requires Invariant(w) && Enabled(w, step, env) && AtWork(w, q) && step != SettleAttempt(q)
    requires HandlersDone(w, w.queue[q].payload.jobId)
    ensures HandlersDone(After(w, step, env), w.queue[q].payload.jobId)
  {
    if step.SettleAttempt? {
      assert w.queue[step.q].payload.jobId != w.queue[q].payload.jobId;
    } else if !step.ContinueHandler? {
      HandlersUntouched(w, step, env);
    }
  }

  lemma HandlersUntouched(w: World, step: Step, env: Env)
    requires Enabled(w, step, env) && !step.SettleAttempt? && !step.ContinueHandler?
    ensures After(w, step, env).handlers == w.handlers
  {}

  lemma StepAnnouncesNoFailure(w: World, step: Step, env: Env, j: Id)
    requires Enabled(w, step, env) && HandlersDone(w, j)
    ensures NoFailures(StepMessages(w, step, env), j) == StepMessages(w, step, env)
  {
    match step
    case ContinueAttempt(q) =>
      AttemptsAnnounceNoFailure(w.base.store, w.queue[q].payload, w.queue[q].state.pc, env, j);
    case ContinueHandler(h) => FailureNamesItsJob(w.handlers[h].jobId, w.handlers[h].message, j);
    case _ =>
  }

  lemma {:induction false} NoFailuresAbout(messages: seq<Message>, j: Id)
    requires NoFailures(messages, j) == messages
    ensures Own(messages, j) == About(messages, j)
  {
    if messages != [] {
      NoFailuresShorten(messages[1..], j);
      assert !IsFailure(messages[0], j);
      assert NoFailures(messages, j)[1..] == messages[1..];
      NoFailuresAbout(messages[1..], j);
      NoFailuresDistributes(if IsAbout(messages[0], j) then [messages[0]] else [], About(messages[1..], j), j);
    }
  }

  lemma {:induction false} NoFailuresShorten(messages: seq<Message>, j: Id)
    ensures |NoFailures(messages, j)| <= |messages|
  {
    if messages != [] {
      NoFailuresShorten(messages[1..], j);
    }
  }

  lemma {:induction false} RunAnnouncesNoFailure(w: World, run: Run, q: nat)
    requires Invariant(w) && ValidRun(w, run) && AtWork(w, q) && NeverSettles(run, q)
    requires HandlersDone(w, w.queue[q].payload.jobId)
    ensures NoFailures(RunMessages(w, run), w.queue[q].payload.jobId) == RunMessages(w, run)
    decreases |run|
  {
    if run != [] {
      var step, env, j := run[0].0, run[0].1, w.queue[q].payload.jobId;
      NeverSettlesLater(run, q);
      AttemptLasts(w, step, env, q);
      HandlersStayDone(w, step, env, q);
      StepKeepsInvariant(w, step, env);
      RunAnnouncesNoFailure(After(w, step, env), run[1..], q);
      StepAnnouncesNoFailure(w, step, env, j);
      NoFailuresDistributes(StepMessages(w, step, env), RunMessages(After(w, step, env), run[1..]), j);
    }
  }

  /**
   Take any run in which an attempt gets from any of its awaits to its return while
   everything else interleaves: what is published about the job meanwhile is the rest of
   its progress and its completion, in order, and otherwise only failures of earlier
   attempts; not even those if no failure of the job was still being handled at the start.
   */
  lemma AttemptAnnouncesItsSuccess(w: World, run: Run, q: nat, output: Id)
    requires Reachable(w) && ValidRun(w, run) && NeverSettles(run, q)
    requires AtWork(w, q)
    requires q < |End(w, run).queue| && End(w, run).queue[q].state == Running(Returned(output))
    ensures var p, pc := w.queue[q].payload, w.queue[q].state.pc;
            && End(w, run).base.store.published == w.base.store.published + RunMessages(w, run)
            && Announced(p, pc) + Own(RunMessages(w, run), p.jobId) == SuccessMessages(p, output)
            && (HandlersDone(w, p.jobId) ==> Own(RunMessages(w, run), p.jobId) == About(RunMessages(w, run), p.jobId))
  {
    RunPublishes(w, run);
    AttemptAnnounces(w, run, q);
  }

  /** The same up to any await that the attempt gets to without failing. */
  lemma AttemptAnnounces(w: World, run: Run, q: nat)
    requires Reachable(w) && ValidRun(w, run) && NeverSettles(run, q) && AtWork(w, q)
    ensures AtWork(End(w, run), q)
    ensures var p, pc, pc' := w.queue[q].payload, w.queue[q].state.pc, End(w, run).queue[q].state.pc;
            && (!Doomed(pc') ==> Announced(p, pc) + Own(RunMessages(w, run), p.jobId) == Announced(p, pc'))
            && (HandlersDone(w, p.jobId) ==> Own(RunMessages(w, run), p.jobId) == About(RunMessages(w, run), p.jobId))
  {
    ReachableKeepsInvariant(w);
    ReachableKeepsOutputs(w);
    RunSpeaksForAttempt(w, run, q);
    var p, pc := w.queue[q].payload, w.queue[q].state.pc;
    if !Doomed(PcAfter(p, pc, TraceOf(w, run, q))) {
      PublishedUpTo(p, pc, TraceOf(w, run, q));
    }
    if HandlersDone(w, p.jobId) {
      RunAnnouncesNoFailure(w, run, q);
      NoFailuresAbout(RunMessages(w, run), p.jobId);
    }
  }
}
