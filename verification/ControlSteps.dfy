/** Every step of every process keeps the tables and the processes in order. */
module ControlSteps {
  import opened Wrappers
  import opened Keys
  import opened Store
  import Messages
  import opened Environment
  import opened Attempt
  import opened Calls
  import opened Sweeps
  import opened Machine
  import opened TableInvariant
  import opened ProcessInvariant

  // ---- Statuses of running attempts ------------------------------------------

  /** Only a process that completes or activates the job itself can upset its attempt. */
  lemma EffectKeepsStatus(b: Base, e: Effect, p: Payload, pc: Pc)
    requires PayloadOk(b, p) && StatusOk(b.store, p, pc) && EffectOk(b, e)
    requires e.UpdateStatus? && e.jobId == p.jobId ==> e.status == Failed
    ensures StatusOk(Act(b, e).store, p, pc)
  {}

  lemma EffectKeepsStatuses(w: World, e: Effect)
    requires ControlOk(w) && EffectOk(w.base, e)
    requires e.UpdateStatus? ==> e.status == Failed
    ensures StatusesOk(Perform(w, e))
  {
    forall q | 0 <= q < |w.queue| && w.queue[q].state.Running?
      ensures StatusOk(Act(w.base, e).store, w.queue[q].payload, w.queue[q].state.pc)
    {
      EffectKeepsStatus(w.base, e, w.queue[q].payload, w.queue[q].state.pc);
    }
  }

  /** An effect whose cause knows enough, and which activates or completes no job. */
  lemma EffectKeepsControl(w: World, e: Effect)
    requires ControlOk(w) && EffectOk(w.base, e)
    requires e.UpdateStatus? ==> e.status == Failed
    ensures ControlOk(Perform(w, e)) && Grows(w.base, Perform(w, e).base)
  {
    EffectKeepsTables(w.base, e);
    ProcessesLast(w, Perform(w, e));
    EffectKeepsStatuses(w, e);
  }

  // ---- Attempts --------------------------------------------------------------

  lemma RoundedProgressBounds(i: nat, stages: nat)
    requires 0 < stages && i <= stages
    ensures RoundedProgress(i, stages) <= 100
  {
    assert 200 * i + stages <= 200 * stages + stages;
    assert (200 * i + stages) / (2 * stages) < 101 by {
      assert 200 * i + stages < 101 * (2 * stages);
    }
  }

  lemma AttemptEffectOk(b: Base, p: Payload, pc: Pc, env: Env)
    requires TablesOk(b) && PayloadOk(b, p) && PcOk(b, p, pc) && StatusOk(b.store, p, pc)
    requires forall id | id in Draws(Attempt.Next(b.store, p, pc, env).effect) :: id !in b.issued && IsUuid(id)
    ensures EffectOk(b, Attempt.Next(b.store, p, pc, env).effect)
  {
    match pc
    case Report(m, waiting, _) =>
      if m.Stage? {
        RoundedProgressBounds(m.i, STAGES);
      }
    case CompleteImage(output) =>
    case _ =>
  }

  lemma AttemptPcOk(b: Base, p: Payload, pc: Pc, env: Env)
    requires TablesOk(b) && PayloadOk(b, p) && PcOk(b, p, pc)
    requires !Ended(pc)
    ensures var m := Attempt.Next(b.store, p, pc, env);
            PcOk(Act(b, m.effect), p, m.pc)
  {
    RankDecreases(b.store, p, pc, env);
  }

  lemma AttemptStatusOk(s: Store, p: Payload, pc: Pc, env: Env)
    requires StatusOk(s, p, pc) && !Ended(pc)
    ensures var m := Attempt.Next(s, p, pc, env);
            StatusOk(Apply(s, m.effect), p, m.pc)
  {}

  /** An attempt touches no job but its own. */
  lemma AttemptOwnJob(s: Store, p: Payload, pc: Pc, env: Env)
    ensures var e := Attempt.Next(s, p, pc, env).effect;
            && (e.UpdateStatus? ==> e.jobId == p.jobId)
            && (e.UpdateProgress? ==> e.jobId == p.jobId)
            && !e.AddUser? && !e.InsertJob? && !e.HardDelete? && !e.RemoveObject? && !e.CancelJob?
            && !e.MarkReady? && !e.SoftDelete?
            && (e.InsertFile? ==> e.file.status == Ready && e.file.storagePath == OutputKey(p.userId, p.jobId, e.file.originalName))
  {}

  lemma ContinueAttemptKeepsControl(w: World, q: nat, env: Env)
    requires ControlOk(w) && Enabled(w, ContinueAttempt(q), env)
    ensures var w' := AfterAttempt(w, q, env);
            ControlOk(w') && Grows(w.base, w'.base)
  {
    var p, pc := w.queue[q].payload, w.queue[q].state.pc;
    var m := Attempt.Next(w.base.store, p, pc, env);
    var w' := AfterAttempt(w, q, env);
    assert EntryOk(w.base, w.queue[q]);
    AttemptEffectOk(w.base, p, pc, env);
    EffectKeepsTables(w.base, m.effect);
    ProcessesLast(w, Perform(w, m.effect));
    assert EntryOk(w'.base, w'.queue[q]) by {
      assert EntryOk(Perform(w, m.effect).base, Perform(w, m.effect).queue[q]);
      AttemptPcOk(w.base, p, pc, env);
    }
    AttemptOwnJob(w.base.store, p, pc, env);
    forall r | 0 <= r < |w'.queue| && w'.queue[r].state.Running?
      ensures StatusOk(w'.base.store, w'.queue[r].payload, w'.queue[r].state.pc)
    {
      if r == q {
        AttemptStatusOk(w.base.store, p, pc, env);
      } else {
        EffectKeepsStatus(w.base, m.effect, w.queue[r].payload, w.queue[r].state.pc);
      }
    }
  }

  lemma StartAttemptKeepsControl(w: World, q: nat)
    requires ControlOk(w) && CanStart(w, q)
    ensures ControlOk(AfterStart(w, q))
  {
    assert EntryOk(w.base, w.queue[q]);
  }

  lemma SettleAttemptKeepsControl(w: World, q: nat)
    requires ControlOk(w) && CanSettle(w, q)
    ensures ControlOk(AfterSettle(w, q))
  {
    assert EntryOk(w.base, w.queue[q]);
  }

  // ---- Calls -----------------------------------------------------------------

  lemma CallEffectOk(b: Base, call: Call, env: Env)
    requires TablesOk(b) && CallOk(b, call)
    requires forall id | id in Draws(Calls.Next(b.store, call, env).effect) :: id !in b.issued && IsUuid(id)
    ensures EffectOk(b, Calls.Next(b.store, call, env).effect)
    ensures !Calls.Next(b.store, call, env).effect.UpdateStatus?
  {}

  lemma CallStaysOk(b: Base, call: Call, env: Env)
    requires TablesOk(b) && CallOk(b, call)
    ensures var m := Calls.Next(b.store, call, env);
            CallOk(Act(b, m.effect), m.call)
  {}

  lemma ContinueCallKeepsControl(w: World, c: nat, env: Env)
    requires ControlOk(w) && Enabled(w, ContinueCall(c), env)
    ensures var w' := AfterCall(w, c, env);
            ControlOk(w') && Grows(w.base, w'.base)
  {
    var call := w.calls[c];
    var m := Calls.Next(w.base.store, call, env);
    var w' := AfterCall(w, c, env);
    assert CallOk(w.base, call);
    CallEffectOk(w.base, call, env);
    EffectKeepsControl(w, m.effect);
    var v := Perform(w, m.effect);
    assert CallOk(w'.base, m.call) by { CallStaysOk(w.base, call, env); }
    assert CallOk(w'.base, call) by { assert CallOk(v.base, v.calls[c]); }
    ContinuedCallInOrder(w, v, c, env);
    ContinueCallQueuesOnce(w, c, env);
  }

  /** With the write of a call done, what it leaves behind is in order too. */
  lemma ContinuedCallInOrder(w: World, v: World, c: nat, env: Env)
    requires InFlight(w, c) && v == Perform(w, Calls.Next(w.base.store, w.calls[c], env).effect) && ControlOk(v)
    requires CallOk(v.base, w.calls[c]) && CallOk(v.base, Calls.Next(w.base.store, w.calls[c], env).call)
    ensures ProcessesOk(AfterCall(w, c, env)) && StatusesOk(AfterCall(w, c, env))
  {}

  lemma ContinueCallQueuesOnce(w: World, c: nat, env: Env)
    requires ControlOk(w) && Enabled(w, ContinueCall(c), env)
    ensures QueuedOnce(AfterCall(w, c, env))
  {
    var w', call := AfterCall(w, c, env), w.calls[c];
    assert w'.calls[c].Enqueuing? ==> call.InsertingJob?;
    assert w'.calls[c].Enqueuing? ==> w'.calls[c].payload.jobId in Draws(Calls.Next(w.base.store, call, env).effect);
    forall q | 0 <= q < |w.queue| ensures w.queue[q].payload.jobId in w.base.issued {
      assert EntryOk(w.base, w.queue[q]);
    }
    forall d | 0 <= d < |w.calls| && w.calls[d].Enqueuing? ensures w.calls[d].payload.jobId in w.base.issued {
      assert CallOk(w.base, w.calls[d]);
    }
  }

  lemma AddCallKeepsControl(w: World, call: Call)
    requires ControlOk(w) && CallOk(w.base, call) && !call.Enqueuing?
    ensures ControlOk(AddCall(w, call))
  {}

  lemma StartUploadKeepsControl(w: World, userId: Id, input: UploadInput, env: Env)
    requires ControlOk(w) && Enabled(w, StartUpload(userId, input), env)
    ensures var w' := AfterUpload(w, userId, input, env);
            ControlOk(w') && Grows(w.base, w'.base)
  {
    var m := BeginUpload(userId, input, env);
    UploadKeyParts(userId, env.uuid, env.text);
    assert {env.newId, env.uuid} !! w.base.issued;
    assert env.newId in {env.newId, env.uuid} && env.uuid in {env.newId, env.uuid};
    EffectKeepsControl(w, m.effect);
    AddCallKeepsControl(Perform(w, m.effect), m.call);
  }

  /** What a call read when it started is what it later recalls. */
  lemma FirstReadsOk(b: Base, userId: Id, id: Id, jobType: string, env: Env)
    requires TablesOk(b) && userId in b.principals
    ensures CallOk(b, BeginConfirm(b.store, userId, id, env)) && !BeginConfirm(b.store, userId, id, env).Enqueuing?
    ensures CallOk(b, BeginDelete(b.store, userId, id, env)) && !BeginDelete(b.store, userId, id, env).Enqueuing?
    ensures CallOk(b, BeginJob(b.store, userId, id, jobType, env)) && !BeginJob(b.store, userId, id, jobType, env).Enqueuing?
    ensures CallOk(b, BeginCancel(b.store, userId, id, env)) && !BeginCancel(b.store, userId, id, env).Enqueuing?
  {}

  // ---- Handlers and sweeps ---------------------------------------------------

  lemma ContinueHandlerKeepsControl(w: World, h: nat, env: Env)
    requires ControlOk(w) && HandlerActive(w, h)
    ensures var w' := AfterHandler(w, h, env);
            ControlOk(w') && Grows(w.base, w'.base)
  {
    var handler := w.handlers[h];
    if handler.pc == WritingFailed {
      var extra := NO_EXTRA.(errorMessage := Some(handler.message));
      EffectKeepsControl(w, IfLanded(env, UpdateStatus(handler.jobId, Failed, extra, env.at)));
    } else {
      EffectKeepsControl(w, IfLanded(env, Publish(FailedMessageOf(handler))));
    }
  }

  function FailedMessageOf(handler: Handler): Messages.Message {
    Messages.FailedMessage(handler.jobId, handler.message)
  }

  lemma SnapshotOk(b: Base, guest: bool, order: seq<Id>, before: int)
    requires TablesOk(b)
    requires Lists(order, if guest then ExpiredGuestFiles(b.store, before) else ExpiredPending(b.store, before))
    ensures SweepOk(b, Sweep(guest, Snapshot(b.store, order), false))
  {
    var sweep := Sweep(guest, Snapshot(b.store, order), false);
    forall i | 0 <= i < |sweep.remaining| ensures TargetOk(b, guest, sweep.remaining[i]) {
      assert order[i] in b.store.files;
    }
  }

  lemma ContinueSweepKeepsControl(w: World, s: nat, env: Env)
    requires ControlOk(w) && SweepActive(w, s)
    ensures var w' := AfterSweep(w, s, env);
            ControlOk(w') && Grows(w.base, w'.base)
  {
    var sweep := w.sweeps[s];
    var m := Sweeps.Next(sweep, env);
    assert SweepOk(w.base, sweep) && TargetOk(w.base, sweep.guest, sweep.remaining[0]);
    EffectKeepsControl(w, m.effect);
    assert SweepOk(Act(w.base, m.effect), m.sweep) by {
      assert SweepOk(Perform(w, m.effect).base, Perform(w, m.effect).sweeps[s]);
    }
  }

  // ---- All steps -------------------------------------------------------------

  lemma OpenGuestSessionKeepsControl(w: World, env: Env)
    requires ControlOk(w) && Enabled(w, OpenGuestSession, env)
    ensures var w' := After(w, OpenGuestSession, env);
            ControlOk(w') && Grows(w.base, w'.base)
  {
    var w' := After(w, OpenGuestSession, env);
    assert Grows(w.base, w'.base);
    ProcessesLast(w, w');
  }

  predicate StartsCall(step: Step) {
    step.StartConfirm? || step.StartDelete? || step.StartJob? || step.StartCancel?
  }

  lemma StartCallKeepsControl(w: World, step: Step, env: Env)
    requires ControlOk(w) && Enabled(w, step, env) && StartsCall(step)
    ensures var w' := After(w, step, env);
            ControlOk(w') && w'.base == w.base
  {
    match step
    case StartConfirm(u, f) => FirstReadsOk(w.base, u, f, "", env); AddCallKeepsControl(w, BeginConfirm(w.base.store, u, f, env));
    case StartDelete(u, f) => FirstReadsOk(w.base, u, f, "", env); AddCallKeepsControl(w, BeginDelete(w.base.store, u, f, env));
    case StartJob(u, f, t) => FirstReadsOk(w.base, u, f, t, env); AddCallKeepsControl(w, BeginJob(w.base.store, u, f, t, env));
    case StartCancel(u, j) => FirstReadsOk(w.base, u, j, "", env); AddCallKeepsControl(w, BeginCancel(w.base.store, u, j, env));
  }

  lemma StartSweepKeepsControl(w: World, step: Step, env: Env)
    requires ControlOk(w) && Enabled(w, step, env) && (step.StartPendingSweep? || step.StartGuestSweep?)
    ensures var w' := After(w, step, env);
            ControlOk(w') && w'.base == w.base
  {
    SnapshotOk(w.base, step.StartGuestSweep?, step.order, step.before);
  }

  lemma UnchangedGrows(b: Base)
    requires IdsOk(b)
    ensures Grows(b, b)
  {}

  lemma StepKeepsControl(w: World, step: Step, env: Env)
    requires ControlOk(w) && Enabled(w, step, env)
    ensures ControlOk(After(w, step, env))
    ensures Grows(w.base, After(w, step, env).base)
  {
    if IsWorkersStep(step) {
      WorkersStepKeepsControl(w, step, env);
    } else if step.ContinueCall? {
      ContinueCallKeepsControl(w, step.c, env);
    } else if step.ContinueSweep? {
      ContinueSweepKeepsControl(w, step.s, env);
    } else {
      OutsideStepKeepsControl(w, step, env);
    }
  }

  predicate IsWorkersStep(step: Step) {
    step.StartAttempt? || step.ContinueAttempt? || step.SettleAttempt? || step.ContinueHandler?
  }

  lemma WorkersStepKeepsControl(w: World, step: Step, env: Env)
    requires ControlOk(w) && Enabled(w, step, env) && IsWorkersStep(step)
    ensures ControlOk(After(w, step, env))
    ensures Grows(w.base, After(w, step, env).base)
  {
    UnchangedGrows(w.base);
    match step
    case StartAttempt(q) => StartAttemptKeepsControl(w, q);
    case ContinueAttempt(q) => ContinueAttemptKeepsControl(w, q, env);
    case SettleAttempt(q) => SettleAttemptKeepsControl(w, q);
    case ContinueHandler(h) => ContinueHandlerKeepsControl(w, h, env);
  }

  lemma OutsideStepKeepsControl(w: World, step: Step, env: Env)
    requires ControlOk(w) && Enabled(w, step, env)
    requires !IsWorkersStep(step) && !step.ContinueCall? && !step.ContinueSweep?
    ensures ControlOk(After(w, step, env))
    ensures Grows(w.base, After(w, step, env).base)
  {
    if step.Register? {
      EffectKeepsControl(w, AddUser(env.newId));
    } else if step.OpenGuestSession? {
      OpenGuestSessionKeepsControl(w, env);
    } else if step.StartUpload? {
      StartUploadKeepsControl(w, step.userId, step.input, env);
    } else if step.BrowserUpload? {
      EffectKeepsControl(w, PutObject(step.policy.key, step.policy.size));
    } else {
      UnchangedGrows(w.base);
      if StartsCall(step) {
        StartCallKeepsControl(w, step, env);
      } else {
        StartSweepKeepsControl(w, step, env);
      }
    }
  }
}
