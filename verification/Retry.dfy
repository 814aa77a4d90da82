/**
 Retries: how a job's status follows its attempts, however late the writes of the
 `failed` handlers arrive, and what is left when all the work is done.
 */
module Retry {
  import opened Keys
  import opened Store
  import opened Environment
  import opened Attempt
  import opened Calls
  import opened Sweeps
  import opened Machine
  import opened TableInvariant
  import opened ProcessInvariant
  import opened ControlSteps

  ghost predicate RunningFor(w: World, j: Id) {
    exists q | 0 <= q < |w.queue| :: w.queue[q].payload.jobId == j && w.queue[q].state.Running?
  }

  ghost predicate Attempted(w: World, j: Id) {
    exists q | 0 <= q < |w.queue| :: w.queue[q].payload.jobId == j && w.queue[q].attempts > 0
  }

  /** An active job has an attempt running, a failure still to be written, or one never written. */
  ghost predicate ActiveOk(w: World) {
    forall j | j in w.base.store.jobs && w.base.store.jobs[j].status == Active ::
      RunningFor(w, j) || HandlerOutstanding(w, j) || j in w.lost
  }

  /** Only an attempt makes a job active or completed. */
  ghost predicate AttemptedOk(w: World) {
    forall j | j in w.base.store.jobs && w.base.store.jobs[j].status in {Active, Completed} :: Attempted(w, j)
  }

  ghost predicate HandlersOk(w: World) {
    forall h | 0 <= h < |w.handlers| :: Attempted(w, w.handlers[h].jobId)
  }

  /** The failures of job `j` were all written, each before the next attempt. */
  predicate Prompt(w: World, j: Id) {
    j !in w.lost && j !in w.raced
  }

  ghost predicate EntrySettled(w: World, entry: Entry) {
    var j, jobs := entry.payload.jobId, w.base.store.jobs;
    Prompt(w, j) ==>
      match entry.state
      case Running(pc) =>
        && !HandlerOutstanding(w, j)
        && (j in jobs && Midway(pc) ==> jobs[j].status == Active)
        && (j in jobs && PastCompletion(pc) ==> jobs[j].status == Completed)
      case Waiting =>
        if entry.attempts == 0 then !HandlerOutstanding(w, j) && (j in jobs ==> jobs[j].status in {JobStatus.Pending, Failed})
        else j in jobs && !HandlerOutstanding(w, j) ==> jobs[j].status == Failed
      case Finished(true) =>
        !HandlerOutstanding(w, j) && (j in jobs ==> jobs[j].status == Completed)
      case Finished(false) =>
        j in jobs && !HandlerOutstanding(w, j) ==> jobs[j].status == Failed
  }

  ghost predicate SettledOk(w: World) {
    forall q | 0 <= q < |w.queue| :: EntrySettled(w, w.queue[q])
  }

  ghost predicate RetryOk(w: World) {
    ActiveOk(w) && AttemptedOk(w) && HandlersOk(w) && SettledOk(w)
  }

  // ---- Steps that leave the queue and the handlers alone ---------------------

  /** Every job that is left keeps its status, but for a cancelled one; new jobs are pending. */
  ghost predicate StatusesFollow(b: Base, b': Base) {
    forall j | j in b'.store.jobs ::
      || (j in b.store.jobs && b'.store.jobs[j].status == b.store.jobs[j].status)
      || (j in b.store.jobs && b.store.jobs[j].status == JobStatus.Pending && b'.store.jobs[j].status == Failed)
      || (j !in b.issued && b'.store.jobs[j].status == JobStatus.Pending)
  }

  lemma EffectStatusesFollow(b: Base, e: Effect)
    requires TablesOk(b) && EffectOk(b, e) && !e.UpdateStatus?
    ensures StatusesFollow(b, Act(b, e))
  {}

  lemma IdleStepKeepsRetry(w: World, w': World)
    requires ControlOk(w) && RetryOk(w) && StatusesFollow(w.base, w'.base)
    requires w'.queue == w.queue && w'.handlers == w.handlers && w'.lost == w.lost && w'.raced == w.raced
    ensures RetryOk(w')
  {
    assert forall j :: HandlerOutstanding(w', j) == HandlerOutstanding(w, j);
    assert forall j :: Attempted(w', j) == Attempted(w, j);
    SameFailuresKeepRetry(w, w');
  }

  /** The same with handlers that differ only in what is already written. */
  lemma SameFailuresKeepRetry(w: World, w': World)
    requires ControlOk(w) && RetryOk(w) && StatusesFollow(w.base, w'.base) && HandlersOk(w')
    requires w'.queue == w.queue && w'.lost == w.lost && w'.raced == w.raced
    requires forall j :: HandlerOutstanding(w', j) == HandlerOutstanding(w, j)
    ensures RetryOk(w')
  {
    assert forall j :: RunningFor(w', j) == RunningFor(w, j);
    assert forall j :: Attempted(w', j) == Attempted(w, j);
    forall q | 0 <= q < |w'.queue| ensures EntrySettled(w', w'.queue[q]) {
      assert EntrySettled(w, w.queue[q]) && EntryOk(w.base, w.queue[q]);
    }
  }

  // ---- Attempts --------------------------------------------------------------

  lemma StartAttemptKeepsRetry(w: World, q: nat)
    requires ControlOk(w) && RetryOk(w) && CanStart(w, q)
    ensures RetryOk(AfterStart(w, q))
  {
    var w' := AfterStart(w, q);
    assert forall j :: HandlerOutstanding(w', j) == HandlerOutstanding(w, j);
    forall j | RunningFor(w, j) ensures RunningFor(w', j) {
      var r :| 0 <= r < |w.queue| && w.queue[r].payload.jobId == j && w.queue[r].state.Running?;
      assert w'.queue[r] == w.queue[r];
    }
    AttemptedLasts(w, w');
    forall r | 0 <= r < |w'.queue| ensures EntrySettled(w', w'.queue[r]) {
      assert EntrySettled(w, w.queue[r]);
    }
  }

  lemma AttemptedLasts(w: World, w': World)
    requires |w.queue| <= |w'.queue|
    requires forall q | 0 <= q < |w.queue| ::
               w'.queue[q].payload == w.queue[q].payload && w'.queue[q].attempts >= w.queue[q].attempts
    ensures forall j | Attempted(w, j) :: Attempted(w', j)
  {
    forall j | Attempted(w, j) ensures Attempted(w', j) {
      var r :| 0 <= r < |w.queue| && w.queue[r].payload.jobId == j && w.queue[r].attempts > 0;
      assert w'.queue[r].payload.jobId == j && w'.queue[r].attempts > 0;
    }
  }

  lemma AttemptKeepsOtherStatuses(s: Store, p: Payload, pc: Pc, env: Env, j: Id)
    requires j != p.jobId
    ensures var s' := Apply(s, Attempt.Next(s, p, pc, env).effect);
            && (j in s'.jobs <==> j in s.jobs)
            && (j in s.jobs ==> s'.jobs[j].status == s.jobs[j].status)
  {}

  /** How an attempt moves its own job while no handler interferes. */
  lemma AttemptMovesOwnStatus(s: Store, p: Payload, pc: Pc, env: Env)
    requires !Ended(pc) && p.jobId in s.jobs
    ensures var m := Attempt.Next(s, p, pc, env);
            var s' := Apply(s, m.effect);
            && p.jobId in s'.jobs
            && var before, after := s.jobs[p.jobId].status, s'.jobs[p.jobId].status;
            && ((Midway(pc) ==> before == Active) && Midway(m.pc) ==> after == Active)
            && ((PastCompletion(pc) ==> before == Completed) && PastCompletion(m.pc) ==> after == Completed)
            && (after == before || after in {Active, Completed})
  {}

  lemma ContinueAttemptKeepsRetry(w: World, q: nat, env: Env)
    requires ControlOk(w) && RetryOk(w) && Enabled(w, ContinueAttempt(q), env)
    ensures RetryOk(AfterAttempt(w, q, env))
  {
    var w' := AfterAttempt(w, q, env);
    var p, pc := w.queue[q].payload, w.queue[q].state.pc;
    assert forall j :: HandlerOutstanding(w', j) == HandlerOutstanding(w, j);
    assert RunningFor(w', p.jobId) by { assert w'.queue[q].payload.jobId == p.jobId && w'.queue[q].state.Running?; }
    assert Attempted(w', p.jobId) by { assert EntryOk(w.base, w.queue[q]) && w'.queue[q].payload.jobId == p.jobId && w'.queue[q].attempts > 0; }
    AttemptedLasts(w, w');
    forall j | j in w'.base.store.jobs && j != p.jobId
      ensures j in w.base.store.jobs && w'.base.store.jobs[j].status == w.base.store.jobs[j].status
      ensures RunningFor(w, j) ==> RunningFor(w', j)
    {
      AttemptKeepsOtherStatuses(w.base.store, p, pc, env, j);
      OthersKeepRunning(w, q, env, j);
    }
    forall r | 0 <= r < |w'.queue| ensures EntrySettled(w', w'.queue[r]) {
      if r == q {
        OwnEntryStaysSettled(w, q, env);
      } else {
        OtherEntryStaysSettled(w, q, env, r);
      }
    }
  }

  lemma OthersKeepRunning(w: World, q: nat, env: Env, j: Id)
    requires CanContinue(w, q) && j != w.queue[q].payload.jobId
    ensures RunningFor(w, j) ==> RunningFor(AfterAttempt(w, q, env), j)
  {
    if RunningFor(w, j) {
      var r :| 0 <= r < |w.queue| && w.queue[r].payload.jobId == j && w.queue[r].state.Running?;
      assert AfterAttempt(w, q, env).queue[r] == w.queue[r];
    }
  }

  lemma OtherEntryStaysSettled(w: World, q: nat, env: Env, r: nat)
    requires ControlOk(w) && SettledOk(w) && CanContinue(w, q) && r < |w.queue| && r != q
    ensures EntrySettled(AfterAttempt(w, q, env), AfterAttempt(w, q, env).queue[r])
  {
    var w', j := AfterAttempt(w, q, env), w.queue[r].payload.jobId;
    assert EntrySettled(w, w.queue[r]) && j != w.queue[q].payload.jobId;
    assert HandlerOutstanding(w', j) == HandlerOutstanding(w, j);
    AttemptKeepsOtherStatuses(w.base.store, w.queue[q].payload, w.queue[q].state.pc, env, j);
  }

  lemma OwnEntryStaysSettled(w: World, q: nat, env: Env)
    requires ControlOk(w) && RetryOk(w) && Enabled(w, ContinueAttempt(q), env)
    ensures EntrySettled(AfterAttempt(w, q, env), AfterAttempt(w, q, env).queue[q])
  {
    var w' := AfterAttempt(w, q, env);
    var p, pc := w.queue[q].payload, w.queue[q].state.pc;
    assert HandlerOutstanding(w', p.jobId) == HandlerOutstanding(w, p.jobId);
    assert EntrySettled(w, w.queue[q]);
    AttemptOwnJob(w.base.store, p, pc, env);
    if p.jobId in w.base.store.jobs {
      AttemptMovesOwnStatus(w.base.store, p, pc, env);
    }
  }

  /** The job of a returned attempt is not active any more. */
  lemma SettleAttemptKeepsRetry(w: World, q: nat)
    requires ControlOk(w) && RetryOk(w) && CanSettle(w, q)
    ensures RetryOk(AfterSettle(w, q))
  {
    var w' := AfterSettle(w, q);
    var own := w.queue[q].payload.jobId;
    assert EntryOk(w.base, w.queue[q]) && StatusOk(w.base.store, w.queue[q].payload, w.queue[q].state.pc);
    AttemptedLasts(w, w');
    assert Attempted(w, own) by { assert w.queue[q].payload.jobId == own && w.queue[q].attempts > 0; }
    SettleMovesHandlers(w, q);
    forall j | RunningFor(w, j) && j != own ensures RunningFor(w', j) {
      var r :| 0 <= r < |w.queue| && w.queue[r].payload.jobId == j && w.queue[r].state.Running?;
      assert w'.queue[r] == w.queue[r];
    }
    forall r | 0 <= r < |w'.queue| ensures EntrySettled(w', w'.queue[r]) {
      SettleKeepsEntry(w, q, r);
    }
  }

  lemma SettleKeepsEntry(w: World, q: nat, r: nat)
    requires ControlOk(w) && SettledOk(w) && CanSettle(w, q) && r < |w.queue|
    ensures EntrySettled(AfterSettle(w, q), AfterSettle(w, q).queue[r])
  {
    SettleMovesHandlers(w, q);
    assert EntrySettled(w, w.queue[r]) && EntryOk(w.base, w.queue[q]);
    assert r != q ==> w.queue[r].payload.jobId != w.queue[q].payload.jobId;
  }

  lemma SettleMovesHandlers(w: World, q: nat)
    requires CanSettle(w, q)
    ensures var w' := AfterSettle(w, q);
            && (forall j | j != w.queue[q].payload.jobId :: HandlerOutstanding(w', j) == HandlerOutstanding(w, j))
            && (HandlerOutstanding(w', w.queue[q].payload.jobId)
                == (HandlerOutstanding(w, w.queue[q].payload.jobId) || w.queue[q].state.pc.Threw?))
  {
    var w' := AfterSettle(w, q);
    forall j | HandlerOutstanding(w, j) ensures HandlerOutstanding(w', j) {
      var h :| 0 <= h < |w.handlers| && w.handlers[h].jobId == j && w.handlers[h].pc == WritingFailed;
      assert w'.handlers[h] == w.handlers[h];
    }
    if w.queue[q].state.pc.Threw? {
      assert w'.handlers[|w.handlers|].jobId == w.queue[q].payload.jobId && w'.handlers[|w.handlers|].pc == WritingFailed;
    }
  }

  // ---- Handlers --------------------------------------------------------------

  /** A handler's step leaves the queue and all other outstanding failures alone. */
  lemma HandlerStepFrame(w: World, h: nat, env: Env)
    requires HandlerActive(w, h) && HandlersOk(w)
    ensures var w' := AfterHandler(w, h, env);
            && HandlersOk(w')
            && (forall j :: RunningFor(w', j) == RunningFor(w, j))
            && (forall j :: Attempted(w', j) == Attempted(w, j))
            && (forall j | j != w.handlers[h].jobId || w.handlers[h].pc == PublishingFailed ::
                  HandlerOutstanding(w', j) == HandlerOutstanding(w, j))
  {
    var w' := AfterHandler(w, h, env);
    assert forall j :: Attempted(w', j) == Attempted(w, j);
    forall g | 0 <= g < |w'.handlers| ensures Attempted(w', w'.handlers[g].jobId) {
      assert Attempted(w, w.handlers[g].jobId);
    }
    forall j | HandlerOutstanding(w, j) && (j != w.handlers[h].jobId || w.handlers[h].pc == PublishingFailed)
      ensures HandlerOutstanding(w', j)
    {
      var g :| 0 <= g < |w.handlers| && w.handlers[g].jobId == j && w.handlers[g].pc == WritingFailed;
      assert w'.handlers[g] == w.handlers[g];
    }
  }

  lemma PublishingKeepsRetry(w: World, h: nat, env: Env)
    requires ControlOk(w) && RetryOk(w) && HandlerActive(w, h) && w.handlers[h].pc == PublishingFailed
    ensures RetryOk(AfterHandler(w, h, env))
  {
    var w' := AfterHandler(w, h, env);
    HandlerStepFrame(w, h, env);
    assert w'.base.store.jobs == w.base.store.jobs;
    SameFailuresKeepRetry(w, w');
  }

  lemma WritingKeepsRetry(w: World, h: nat, env: Env)
    requires ControlOk(w) && RetryOk(w) && HandlerActive(w, h) && w.handlers[h].pc == WritingFailed
    ensures RetryOk(AfterHandler(w, h, env))
  {
    var w' := AfterHandler(w, h, env);
    assert HandlerOutstanding(w, w.handlers[h].jobId);
    HandlerStepFrame(w, h, env);
    forall q | 0 <= q < |w'.queue| ensures EntrySettled(w', w'.queue[q]) {
      WritingKeepsEntry(w, h, env, q);
    }
  }

  lemma WritingKeepsEntry(w: World, h: nat, env: Env, q: nat)
    requires RetryOk(w) && HandlerActive(w, h) && w.handlers[h].pc == WritingFailed && q < |w.queue|
    ensures EntrySettled(AfterHandler(w, h, env), w.queue[q])
  {
    assert HandlerOutstanding(w, w.handlers[h].jobId) && EntrySettled(w, w.queue[q]);
    HandlerStepFrame(w, h, env);
  }

  // ---- Calls -----------------------------------------------------------------

  lemma QueueGrowthKeepsRetry(w: World, w': World, entry: Entry)
    requires RetryOk(w) && !Attempted(w, entry.payload.jobId) && entry.attempts == 0 && entry.state.Waiting?
    requires w'.queue == w.queue + [entry] && w'.base == w.base
    requires w'.handlers == w.handlers && w'.lost == w.lost && w'.raced == w.raced
    ensures RetryOk(w')
  {
    assert forall k :: HandlerOutstanding(w', k) == HandlerOutstanding(w, k);
    AttemptedLasts(w, w');
    forall k | RunningFor(w, k) ensures RunningFor(w', k) {
      var r :| 0 <= r < |w.queue| && w.queue[r].payload.jobId == k && w.queue[r].state.Running?;
      assert w'.queue[r] == w.queue[r];
    }
    forall q | 0 <= q < |w'.queue| ensures EntrySettled(w', w'.queue[q]) {
      if q < |w.queue| {
        assert EntrySettled(w, w.queue[q]);
      }
    }
  }

  lemma EnqueueKeepsRetry(w: World, c: nat, env: Env)
    requires ControlOk(w) && RetryOk(w) && Enabled(w, ContinueCall(c), env) && w.calls[c].Enqueuing?
    ensures RetryOk(AfterCall(w, c, env))
  {
    var w' := AfterCall(w, c, env);
    assert w'.base == w.base;
    if env.outcome.Landed() {
      QueueGrowthKeepsRetry(w, w', Entry(w.calls[c].payload, 0, Waiting));
    } else {
      IdleStepKeepsRetry(w, w');
    }
  }

  lemma ContinueCallKeepsRetry(w: World, c: nat, env: Env)
    requires ControlOk(w) && RetryOk(w) && Enabled(w, ContinueCall(c), env)
    ensures RetryOk(AfterCall(w, c, env))
  {
    if w.calls[c].Enqueuing? {
      EnqueueKeepsRetry(w, c, env);
    } else {
      assert CallOk(w.base, w.calls[c]);
      CallEffectOk(w.base, w.calls[c], env);
      EffectStatusesFollow(w.base, Calls.Next(w.base.store, w.calls[c], env).effect);
      IdleStepKeepsRetry(w, AfterCall(w, c, env));
    }
  }

  // ---- All steps -------------------------------------------------------------

  lemma IdleStepStatuses(w: World, step: Step, env: Env)
    requires ControlOk(w) && Enabled(w, step, env) && IsIdleStep(step)
    ensures StatusesFollow(w.base, After(w, step, env).base)
  {
    if step.ContinueSweep? {
      var sweep := w.sweeps[step.s];
      assert SweepOk(w.base, sweep) && TargetOk(w.base, sweep.guest, sweep.remaining[0]);
      EffectStatusesFollow(w.base, Sweeps.Next(sweep, env).effect);
    } else {
      IdleStepsWriteNoJob(w, step, env);
    }
  }

  lemma IdleStepsWriteNoJob(w: World, step: Step, env: Env)
    requires Enabled(w, step, env) && IsIdleStep(step) && !step.ContinueSweep?
    ensures After(w, step, env).base.store.jobs == w.base.store.jobs
  {}

  lemma HandlerKeepsRetry(w: World, h: nat, env: Env)
    requires ControlOk(w) && RetryOk(w) && HandlerActive(w, h)
    ensures RetryOk(AfterHandler(w, h, env))
  {
    if w.handlers[h].pc == WritingFailed {
      WritingKeepsRetry(w, h, env);
    } else {
      PublishingKeepsRetry(w, h, env);
    }
  }

  predicate IsIdleStep(step: Step) {
    !step.ContinueCall? && !step.ContinueHandler? && !step.StartAttempt? && !step.ContinueAttempt? && !step.SettleAttempt?
  }

  lemma IdleStepFrame(w: World, step: Step, env: Env)
    requires Enabled(w, step, env) && IsIdleStep(step)
    ensures var w' := After(w, step, env);
            w'.queue == w.queue && w'.handlers == w.handlers && w'.lost == w.lost && w'.raced == w.raced
  {}

  lemma StepKeepsRetry(w: World, step: Step, env: Env)
    requires ControlOk(w) && RetryOk(w) && Enabled(w, step, env)
    ensures RetryOk(After(w, step, env))
  {
    if step.StartAttempt? {
      StartAttemptKeepsRetry(w, step.q);
    } else if step.ContinueAttempt? {
      ContinueAttemptKeepsRetry(w, step.q, env);
    } else if step.SettleAttempt? {
      SettleAttemptKeepsRetry(w, step.q);
    } else if step.ContinueHandler? {
      HandlerKeepsRetry(w, step.h, env);
    } else if step.ContinueCall? {
      ContinueCallKeepsRetry(w, step.c, env);
    } else {
      IdleStepStatuses(w, step, env);
      IdleStepFrame(w, step, env);
      IdleStepKeepsRetry(w, After(w, step, env));
    }
  }
}
