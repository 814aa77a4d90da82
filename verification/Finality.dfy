/** Which statuses are final: settled jobs, and jobs cancelled by their owner. */
module Finality {
  import opened Keys
  import opened Store
  import opened Environment
  import opened Attempt
  import opened Calls
  import opened Machine
  import opened ProcessInvariant
  import opened ControlSteps
  import opened Retry
  import opened Guarantees

  /** No attempt will follow: the payload is done with, or its last attempt has just thrown. */
  predicate Spent(entry: Entry) {
    || entry.state.Finished?
    || (entry.state.Running? && entry.state.pc.Threw? && entry.attempts >= MAX_ATTEMPTS)
  }

  /** Job `j` is neither queued with an attempt to come nor about to be queued. */
  ghost predicate OutOfQueue(w: World, j: Id) {
    && (forall q | 0 <= q < |w.queue| && w.queue[q].payload.jobId == j :: Spent(w.queue[q]))
    && (forall c | 0 <= c < |w.calls| && w.calls[c].Enqueuing? :: w.calls[c].payload.jobId != j)
  }

  /** The payload is done with, or its last attempt has just returned. */
  predicate Concluded(entry: Entry) {
    entry.state.Finished? || (entry.state.Running? && entry.state.pc.Returned?)
  }

  /** All attempts at job `j` have concluded, and no failure of it is still to be written. */
  ghost predicate DoneWith(w: World, j: Id) {
    && (forall q | 0 <= q < |w.queue| && w.queue[q].payload.jobId == j :: Concluded(w.queue[q]))
    && !HandlerOutstanding(w, j)
  }

  ghost predicate NotBeingQueued(w: World, j: Id) {
    forall c | 0 <= c < |w.calls| && w.calls[c].Enqueuing? :: w.calls[c].payload.jobId != j
  }

  /** Nothing can move job `j` off `status` any more, but for the cancellation of a pending one. */
  ghost predicate Settled(w: World, j: Id, status: JobStatus) {
    && j in w.base.issued
    && NotBeingQueued(w, j)
    && (j in w.base.store.jobs ==>
          || w.base.store.jobs[j].status == status
          || (status == JobStatus.Pending && w.base.store.jobs[j].status == Failed))
    && ((status == Failed && OutOfQueue(w, j)) || DoneWith(w, j))
  }

  // ---- Settled jobs stay as they are -----------------------------------------

  lemma HandlerKeepsSettled(w: World, h: nat, env: Env, j: Id, status: JobStatus)
    requires Settled(w, j, status) && HandlerActive(w, h)
    ensures Settled(AfterHandler(w, h, env), j, status)
  {
    var w' := AfterHandler(w, h, env);
    if HandlerOutstanding(w', j) {
      var g :| 0 <= g < |w'.handlers| && w'.handlers[g].jobId == j && w'.handlers[g].pc == WritingFailed;
      assert w.handlers[g] == w'.handlers[g];
    }
  }

  lemma AttemptKeepsSettled(w: World, q: nat, env: Env, j: Id, status: JobStatus)
    requires ControlOk(w) && Settled(w, j, status) && Enabled(w, ContinueAttempt(q), env)
    ensures Settled(AfterAttempt(w, q, env), j, status)
  {
    var w' := AfterAttempt(w, q, env);
    assert w.queue[q].payload.jobId != j;
    AttemptKeepsOtherStatuses(w.base.store, w.queue[q].payload, w.queue[q].state.pc, env, j);
    assert HandlerOutstanding(w', j) == HandlerOutstanding(w, j);
  }

  lemma SettleKeepsSettled(w: World, q: nat, j: Id, status: JobStatus)
    requires ControlOk(w) && Settled(w, j, status) && CanSettle(w, q)
    ensures Settled(AfterSettle(w, q), j, status)
  {
    SettleMovesHandlers(w, q);
    assert EntryOk(w.base, w.queue[q]);
  }

  lemma CallKeepsSettled(w: World, c: nat, env: Env, j: Id, status: JobStatus)
    requires ControlOk(w) && Settled(w, j, status) && Enabled(w, ContinueCall(c), env)
    ensures Settled(AfterCall(w, c, env), j, status)
  {
    var w' := AfterCall(w, c, env);
    assert CallOk(w.base, w.calls[c]);
    CallEffectOk(w.base, w.calls[c], env);
    EffectStatusesFollow(w.base, Calls.Next(w.base.store, w.calls[c], env).effect);
    assert HandlerOutstanding(w', j) == HandlerOutstanding(w, j);
    CallQueuesNothingOf(w, c, env, j);
  }

  /** A job that exists is not put into a call to be queued, nor queued if it is in none. */
  lemma CallQueuesNothingOf(w: World, c: nat, env: Env, j: Id)
    requires Enabled(w, ContinueCall(c), env) && j in w.base.issued && NotBeingQueued(w, j)
    ensures var w' := AfterCall(w, c, env);
            && NotBeingQueued(w', j)
            && forall q | 0 <= q < |w'.queue| && w'.queue[q].payload.jobId == j :: q < |w.queue| && w'.queue[q] == w.queue[q]
  {
    var w' := AfterCall(w, c, env);
    assert w'.calls[c].Enqueuing? ==> w'.calls[c].payload.jobId in Draws(Calls.Next(w.base.store, w.calls[c], env).effect);
  }

  lemma IdleStepKeepsSettled(w: World, w': World, j: Id, status: JobStatus)
    requires Settled(w, j, status) && StatusesFollow(w.base, w'.base) && w.base.issued <= w'.base.issued
    requires w'.queue == w.queue && w'.handlers == w.handlers
    requires forall c | 0 <= c < |w'.calls| && w'.calls[c].Enqueuing? :: c < |w.calls| && w'.calls[c] == w.calls[c]
    ensures Settled(w', j, status)
  {
    assert HandlerOutstanding(w', j) == HandlerOutstanding(w, j);
  }

  lemma OtherStepKeepsSettled(w: World, step: Step, env: Env, j: Id, status: JobStatus)
    requires ControlOk(w) && Settled(w, j, status) && Enabled(w, step, env) && IsIdleStep(step)
    ensures Settled(After(w, step, env), j, status)
  {
    IdleStepStatuses(w, step, env);
    StepKeepsControl(w, step, env);
    IdleStepFrame(w, step, env);
    IdleStepQueuesNothing(w, step, env);
    IdleStepKeepsSettled(w, After(w, step, env), j, status);
  }

  lemma IdleStepQueuesNothing(w: World, step: Step, env: Env)
    requires Enabled(w, step, env) && IsIdleStep(step)
    ensures var w' := After(w, step, env);
            forall c | 0 <= c < |w'.calls| && w'.calls[c].Enqueuing? :: c < |w.calls| && w'.calls[c] == w.calls[c]
  {}

  lemma StartKeepsSettled(w: World, q: nat, j: Id, status: JobStatus)
    requires Settled(w, j, status) && CanStart(w, q)
    ensures Settled(AfterStart(w, q), j, status)
  {
    assert HandlerOutstanding(AfterStart(w, q), j) == HandlerOutstanding(w, j);
  }

  lemma StepKeepsSettled(w: World, step: Step, env: Env, j: Id, status: JobStatus)
    requires ControlOk(w) && Settled(w, j, status) && Enabled(w, step, env)
    ensures Settled(After(w, step, env), j, status)
  {
    if step.StartAttempt? {
      StartKeepsSettled(w, step.q, j, status);
    } else if step.ContinueAttempt? {
      AttemptKeepsSettled(w, step.q, env, j, status);
    } else if step.SettleAttempt? {
      SettleKeepsSettled(w, step.q, j, status);
    } else if step.ContinueHandler? {
      HandlerKeepsSettled(w, step.h, env, j, status);
    } else if step.ContinueCall? {
      CallKeepsSettled(w, step.c, env, j, status);
    } else {
      OtherStepKeepsSettled(w, step, env, j, status);
    }
  }

  lemma {:induction false} RunKeepsSettled(w: World, run: Run, j: Id, status: JobStatus)
    requires Invariant(w) && Settled(w, j, status) && ValidRun(w, run)
    ensures Settled(End(w, run), j, status)
    decreases |run|
  {
    if run != [] {
      StepKeepsInvariant(w, run[0].0, run[0].1);
      StepKeepsSettled(w, run[0].0, run[0].1, j, status);
      RunKeepsSettled(After(w, run[0].0, run[0].1), run[1..], j, status);
    }
  }

  /** A job that is queued already is not about to be queued again. */
  lemma QueuedIsNotBeingQueued(w: World, j: Id)
    requires ControlOk(w) && Attempted(w, j)
    ensures NotBeingQueued(w, j)
  {
    var q :| 0 <= q < |w.queue| && w.queue[q].payload.jobId == j && w.queue[q].attempts > 0;
    forall c | 0 <= c < |w.calls| && w.calls[c].Enqueuing? ensures w.calls[c].payload.jobId != j {
      assert w.queue[q].payload.jobId != w.calls[c].payload.jobId;
    }
  }

  /**
   Once a payload is finished and the failures of its job are written, the status of the
   job is final in every run, whatever it is and whatever else goes on; only a job that
   still reads pending can be cancelled yet.
   */
  lemma FinishedJobsAreFinal(w: World, run: Run, q: nat)
    requires Reachable(w) && ValidRun(w, run) && q < |w.queue| && w.queue[q].state.Finished?
    requires var j := w.queue[q].payload.jobId;
             && j in w.base.store.jobs && j in End(w, run).base.store.jobs && !HandlerOutstanding(w, j)
    ensures var j := w.queue[q].payload.jobId;
            var before, after := w.base.store.jobs[j].status, End(w, run).base.store.jobs[j].status;
            after == before || (before == JobStatus.Pending && after == Failed)
  {
    var j := w.queue[q].payload.jobId;
    ReachableKeepsInvariant(w);
    assert EntryOk(w.base, w.queue[q]);
    assert Attempted(w, j);
    QueuedIsNotBeingQueued(w, j);
    RunKeepsSettled(w, run, j, w.base.store.jobs[j].status);
  }

  // ---- What a job can still become -------------------------------------------

  ghost predicate CanBecome(w: World, j: Id, status: JobStatus) {
    exists run: Run :: ValidRun(w, run) && j in End(w, run).base.store.jobs && End(w, run).base.store.jobs[j].status == status
  }

  lemma AlreadyIs(w: World, j: Id)
    requires j in w.base.store.jobs
    ensures CanBecome(w, j, w.base.store.jobs[j].status)
  {
    var none: Run := [];
    assert ValidRun(w, none) && End(w, none) == w;
  }

  lemma StepTowards(w: World, step: Step, env: Env, j: Id, status: JobStatus)
    requires Enabled(w, step, env) && CanBecome(After(w, step, env), j, status)
    ensures CanBecome(w, j, status)
  {
    var w' := After(w, step, env);
    var rest: Run :| ValidRun(w', rest) && j in End(w', rest).base.store.jobs && End(w', rest).base.store.jobs[j].status == status;
    var run: Run := [(step, env)] + rest;
    assert run[0] == (step, env) && run[1..] == rest;
    assert ValidRun(w, run) && End(w, run) == End(w', rest);
  }

  lemma MarkingActivates(w: World, q: nat)
    requires q < |w.queue| && w.queue[q].state == Running(MarkActive) && w.queue[q].payload.jobId in w.base.store.jobs
    ensures CanBecome(w, w.queue[q].payload.jobId, Active)
  {
    AlreadyIs(After(w, ContinueAttempt(q), WILLING), w.queue[q].payload.jobId);
    StepTowards(w, ContinueAttempt(q), WILLING, w.queue[q].payload.jobId, Active);
  }

  lemma StartingActivates(w: World, q: nat)
    requires CanStart(w, q) && w.queue[q].payload.jobId in w.base.store.jobs
    ensures CanBecome(w, w.queue[q].payload.jobId, Active)
  {
    MarkingActivates(AfterStart(w, q), q);
    StepTowards(w, StartAttempt(q), WILLING, w.queue[q].payload.jobId, Active);
  }

  lemma RetryingActivates(w: World, q: nat)
    requires CanSettle(w, q) && w.queue[q].state.pc.Threw? && w.queue[q].attempts < MAX_ATTEMPTS
    requires w.queue[q].payload.jobId in w.base.store.jobs
    ensures CanBecome(w, w.queue[q].payload.jobId, Active)
  {
    StartingActivates(AfterSettle(w, q), q);
    StepTowards(w, SettleAttempt(q), WILLING, w.queue[q].payload.jobId, Active);
  }

  lemma EnqueuingActivates(w: World, c: nat)
    requires InFlight(w, c) && w.calls[c].Enqueuing? && w.calls[c].payload.jobId in w.base.store.jobs
    ensures CanBecome(w, w.calls[c].payload.jobId, Active)
  {
    var w' := After(w, ContinueCall(c), WILLING);
    StartingActivates(w', |w.queue|);
    StepTowards(w, ContinueCall(c), WILLING, w.calls[c].payload.jobId, Active);
  }

  /** A job still to be attempted can be made active again, even if it reads failed now. */
  lemma QueuedJobsRevive(w: World, j: Id)
    requires Invariant(w) && j in w.base.store.jobs && !OutOfQueue(w, j)
    requires forall q | 0 <= q < |w.queue| && w.queue[q].payload.jobId == j && w.queue[q].state.Running? ::
               w.queue[q].state.pc.MarkActive? || w.queue[q].state.pc.Threw?
    ensures CanBecome(w, j, Active)
  {
    if c :| 0 <= c < |w.calls| && w.calls[c].Enqueuing? && w.calls[c].payload.jobId == j {
      EnqueuingActivates(w, c);
    } else {
      var q :| 0 <= q < |w.queue| && w.queue[q].payload.jobId == j && !Spent(w.queue[q]);
      match w.queue[q].state
      case Waiting => StartingActivates(w, q);
      case Running(pc) => if pc.MarkActive? { MarkingActivates(w, q); } else { RetryingActivates(w, q); }
    }
  }

  // ---- Completion ------------------------------------------------------------

  lemma WritingFails(w: World, j: Id)
    requires HandlerOutstanding(w, j) && j in w.base.store.jobs
    ensures CanBecome(w, j, Failed)
  {
    var h :| 0 <= h < |w.handlers| && w.handlers[h].jobId == j && w.handlers[h].pc == WritingFailed;
    AlreadyIs(After(w, ContinueHandler(h), WILLING), j);
    StepTowards(w, ContinueHandler(h), WILLING, j, Failed);
  }

  lemma ThrowingFails(w: World, q: nat)
    requires CanSettle(w, q) && w.queue[q].state.pc.Threw? && w.queue[q].payload.jobId in w.base.store.jobs
    ensures CanBecome(w, w.queue[q].payload.jobId, Failed)
  {
    SettleMovesHandlers(w, q);
    WritingFails(AfterSettle(w, q), w.queue[q].payload.jobId);
    StepTowards(w, SettleAttempt(q), WILLING, w.queue[q].payload.jobId, Failed);
  }

  lemma AnnouncingFails(w: World, q: nat)
    requires CanContinue(w, q) && w.queue[q].state.pc.Announce? && w.queue[q].payload.jobId in w.base.store.jobs
    ensures CanBecome(w, w.queue[q].payload.jobId, Failed)
  {
    ThrowingFails(After(w, ContinueAttempt(q), REFUSING), q);
    StepTowards(w, ContinueAttempt(q), REFUSING, w.queue[q].payload.jobId, Failed);
  }

  ghost predicate StaysCompleted(w: World, j: Id) {
    forall run: Run | ValidRun(w, run) && j in End(w, run).base.store.jobs :: End(w, run).base.store.jobs[j].status == Completed
  }

  lemma CompletedLeft(w: World, j: Id)
    requires Invariant(w) && j in w.base.store.jobs && w.base.store.jobs[j].status == Completed && !DoneWith(w, j)
    ensures CanBecome(w, j, Failed) || CanBecome(w, j, Active)
  {
    if HandlerOutstanding(w, j) {
      WritingFails(w, j);
    } else {
      var q :| 0 <= q < |w.queue| && w.queue[q].payload.jobId == j && !Concluded(w.queue[q]);
      if w.queue[q].state.Waiting? {
        StartingActivates(w, q);
      } else {
        assert StatusOk(w.base.store, w.queue[q].payload, w.queue[q].state.pc);
        match w.queue[q].state.pc
        case MarkActive => MarkingActivates(w, q);
        case Announce(_) => AnnouncingFails(w, q);
        case Threw(_) => ThrowingFails(w, q);
      }
    }
  }

  /**
   A completed job stays completed in every run exactly if all its attempts have
   concluded and no failure of it is still to be written.
   */
  lemma CompletionHoldsExactlyWhenDone(w: World, j: Id)
    requires Reachable(w) && j in w.base.store.jobs && w.base.store.jobs[j].status == Completed
    ensures StaysCompleted(w, j) <==> DoneWith(w, j)
  {
    ReachableKeepsInvariant(w);
    if DoneWith(w, j) {
      QueuedIsNotBeingQueued(w, j);
      forall run: Run | ValidRun(w, run) ensures Settled(End(w, run), j, Completed) {
        RunKeepsSettled(w, run, j, Completed);
      }
    } else {
      CompletedLeft(w, j);
    }
  }

  // ---- Cancellation ----------------------------------------------------------

  ghost predicate StaysFailed(w: World, j: Id) {
    forall run: Run | ValidRun(w, run) && j in End(w, run).base.store.jobs :: End(w, run).base.store.jobs[j].status == Failed
  }

  predicate Cancels(w: World, c: nat, env: Env) {
    && Enabled(w, ContinueCall(c), env) && w.calls[c].Cancelling? && env.outcome.Landed()
    && FindJob(w.base.store, w.calls[c].userId, w.calls[c].jobId).Some?
    && w.base.store.jobs[w.calls[c].jobId].status == JobStatus.Pending
  }

  lemma CancelledOutOfQueueStaysFailed(w: World, j: Id)
    requires Invariant(w) && j in w.base.store.jobs && w.base.store.jobs[j].status == Failed && OutOfQueue(w, j)
    ensures StaysFailed(w, j)
  {
    assert Settled(w, j, Failed);
    forall run: Run | ValidRun(w, run) ensures Settled(End(w, run), j, Failed) {
      RunKeepsSettled(w, run, j, Failed);
    }
  }

  lemma PendingIsUnmarked(w: World, q: nat)
    requires ControlOk(w) && q < |w.queue| && w.queue[q].state.Running?
    requires var j := w.queue[q].payload.jobId; j in w.base.store.jobs && w.base.store.jobs[j].status == JobStatus.Pending
    ensures w.queue[q].state.pc.MarkActive? || w.queue[q].state.pc.Threw?
  {
    assert StatusOk(w.base.store, w.queue[q].payload, w.queue[q].state.pc);
  }

  lemma CancellationFrame(w: World, c: nat, env: Env)
    requires Cancels(w, c, env)
    ensures var w', j := AfterCall(w, c, env), w.calls[c].jobId;
            && w'.queue == w.queue && j in w'.base.store.jobs && w'.base.store.jobs[j].status == Failed
            && After(w, ContinueCall(c), env) == w'
  {}

  lemma CancelledInQueueRevives(w: World, c: nat, env: Env)
    requires Invariant(w) && Cancels(w, c, env) && Invariant(AfterCall(w, c, env))
    requires !OutOfQueue(AfterCall(w, c, env), w.calls[c].jobId)
    ensures !StaysFailed(AfterCall(w, c, env), w.calls[c].jobId)
  {
    var w', j := AfterCall(w, c, env), w.calls[c].jobId;
    CancellationFrame(w, c, env);
    forall q | 0 <= q < |w.queue| && w.queue[q].payload.jobId == j && w.queue[q].state.Running?
      ensures w.queue[q].state.pc.MarkActive? || w.queue[q].state.pc.Threw?
    {
      PendingIsUnmarked(w, q);
    }
    QueuedJobsRevive(w', j);
  }

  /**
   A job that its owner has just cancelled stays failed in every run exactly if no
   attempt of it is still to come: the worker does not look at the status.
   */
  lemma CancellationHoldsExactlyOutOfQueue(w: World, c: nat, env: Env)
    requires Reachable(w) && Cancels(w, c, env)
    ensures StaysFailed(AfterCall(w, c, env), w.calls[c].jobId) <==> OutOfQueue(AfterCall(w, c, env), w.calls[c].jobId)
  {
    ReachableKeepsInvariant(w);
    StepKeepsInvariant(w, ContinueCall(c), env);
    CancellationFrame(w, c, env);
    if OutOfQueue(AfterCall(w, c, env), w.calls[c].jobId) {
      CancelledOutOfQueueStaysFailed(AfterCall(w, c, env), w.calls[c].jobId);
    } else {
      CancelledInQueueRevives(w, c, env);
    }
  }
}
