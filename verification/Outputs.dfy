/**
 Which completed jobs have an output file and which an output path.  The documentation of
 the columns says that all have both; the image processors set only the file, the default
 processor only the path, and deleting a guest's output clears the reference to the file.
 */
module Outputs {
  import opened Wrappers
  import opened Keys
  import opened Store
  import opened Environment
  import opened Attempt
  import opened Calls
  import opened Sweeps
  import opened Machine
  import opened TableInvariant
  import opened ProcessInvariant
  import opened ControlSteps
  import opened Guarantees
  import opened AttemptEvents

  ghost predicate ColumnOk(s: Store, job: JobRow) {
    && (job.outputFileId.Some? ==> IsImageType(job.jobType))
    && (job.status == Completed && IsImageType(job.jobType) && job.userId in s.users ==> job.outputFileId.Some?)
    && (job.outputPath.Some? ==> !IsImageType(job.jobType))
    && (job.status == Completed && !IsImageType(job.jobType) ==> job.outputPath.Some?)
  }

  ghost predicate ColumnsOk(s: Store) {
    forall j | j in s.jobs :: ColumnOk(s, s.jobs[j])
  }

  ghost predicate TypeOk(s: Store, p: Payload) {
    p.jobId in s.jobs ==> s.jobs[p.jobId].jobType == p.jobType
  }

  /** Each payload has the type of its job, and its attempt is one of that type. */
  ghost predicate TypesOk(w: World) {
    && (forall q | 0 <= q < |w.queue| :: TypeOk(w.base.store, w.queue[q].payload))
    && (forall q | 0 <= q < |w.queue| && w.queue[q].state.Running? :: Fits(w.queue[q].payload, w.queue[q].state.pc))
    && (forall c | 0 <= c < |w.calls| && w.calls[c].Enqueuing? :: TypeOk(w.base.store, w.calls[c].payload))
  }

  ghost predicate OutputsOk(w: World) {
    TypesOk(w) && ColumnsOk(w.base.store)
  }

  // ---- The column ------------------------------------------------------------

  /** A job is given an output file when it is completed as an image job, else a path. */
  ghost predicate EffectFits(s: Store, e: Effect) {
    e.UpdateStatus? && e.jobId in s.jobs ==>
      && (e.extra.outputFileId.Some? ==> IsImageType(s.jobs[e.jobId].jobType))
      && (e.status == Completed && IsImageType(s.jobs[e.jobId].jobType) ==> e.extra.outputFileId.Some?)
      && (e.extra.outputPath.Some? ==> !IsImageType(s.jobs[e.jobId].jobType))
      && (e.status == Completed && !IsImageType(s.jobs[e.jobId].jobType) ==> e.extra.outputPath.Some?)
  }

  lemma HardDeleteKeepsColumns(b: Base, userId: Id, f: Id)
    requires TablesOk(b) && ColumnsOk(b.store) && userId !in b.store.users
    ensures ColumnsOk(Act(b, HardDelete(userId, f)).store)
  {
    var s' := Act(b, HardDelete(userId, f)).store;
    forall j | j in s'.jobs ensures ColumnOk(s', s'.jobs[j]) {
      assert ColumnOk(b.store, b.store.jobs[j]) && ReferencesOk(b.store, b.store.jobs[j]);
    }
  }

  lemma AddUserKeepsColumns(b: Base, u: Id)
    requires TablesOk(b) && ColumnsOk(b.store) && u !in b.issued
    ensures ColumnsOk(Act(b, AddUser(u)).store)
  {
    var s' := Act(b, AddUser(u)).store;
    forall j | j in s'.jobs ensures ColumnOk(s', s'.jobs[j]) {
      assert ColumnOk(b.store, b.store.jobs[j]) && ReferencesOk(b.store, b.store.jobs[j]);
      assert FileOk(b, b.store.files[b.store.jobs[j].fileId]);
    }
  }

  lemma EffectKeepsColumns(b: Base, e: Effect)
    requires TablesOk(b) && ColumnsOk(b.store) && EffectOk(b, e) && EffectFits(b.store, e)
    ensures ColumnsOk(Act(b, e).store)
  {
    match e
    case HardDelete(u, f) => HardDeleteKeepsColumns(b, u, f);
    case AddUser(u) => AddUserKeepsColumns(b, u);
    case _ =>
  }

  lemma AttemptFits(s: Store, p: Payload, pc: Pc, env: Env)
    requires Fits(p, pc) && TypeOk(s, p)
    ensures EffectFits(s, Attempt.Next(s, p, pc, env).effect)
  {}

  lemma HandlerKeepsColumns(w: World, h: nat, env: Env)
    requires ControlOk(w) && ColumnsOk(w.base.store) && HandlerActive(w, h)
    ensures ColumnsOk(AfterHandler(w, h, env).base.store)
  {
    var handler := w.handlers[h];
    if handler.pc == WritingFailed {
      var extra := NO_EXTRA.(errorMessage := Some(handler.message));
      EffectKeepsColumns(w.base, IfLanded(env, UpdateStatus(handler.jobId, Failed, extra, env.at)));
    }
  }

  lemma AttemptKeepsColumns(w: World, q: nat, env: Env)
    requires ControlOk(w) && OutputsOk(w) && Enabled(w, ContinueAttempt(q), env)
    ensures ColumnsOk(AfterAttempt(w, q, env).base.store)
  {
    var p, pc := w.queue[q].payload, w.queue[q].state.pc;
    assert EntryOk(w.base, w.queue[q]);
    AttemptEffectOk(w.base, p, pc, env);
    AttemptFits(w.base.store, p, pc, env);
    EffectKeepsColumns(w.base, Attempt.Next(w.base.store, p, pc, env).effect);
  }

  lemma SweepKeepsColumns(w: World, s: nat, env: Env)
    requires ControlOk(w) && ColumnsOk(w.base.store) && SweepActive(w, s)
    ensures ColumnsOk(AfterSweep(w, s, env).base.store)
  {
    assert SweepOk(w.base, w.sweeps[s]) && TargetOk(w.base, w.sweeps[s].guest, w.sweeps[s].remaining[0]);
    EffectKeepsColumns(w.base, Sweeps.Next(w.sweeps[s], env).effect);
  }

  lemma CallKeepsColumns(w: World, c: nat, env: Env)
    requires ControlOk(w) && ColumnsOk(w.base.store) && Enabled(w, ContinueCall(c), env)
    ensures ColumnsOk(AfterCall(w, c, env).base.store)
  {
    assert CallOk(w.base, w.calls[c]);
    CallEffectOk(w.base, w.calls[c], env);
    EffectKeepsColumns(w.base, Calls.Next(w.base.store, w.calls[c], env).effect);
  }

  lemma OtherStepsWriteNoJob(w: World, step: Step, env: Env)
    requires Enabled(w, step, env) && !step.Register? && !step.ContinueCall? && !step.ContinueAttempt?
    requires !step.ContinueHandler? && !step.ContinueSweep?
    ensures After(w, step, env).base.store.jobs == w.base.store.jobs
    ensures After(w, step, env).base.store.users == w.base.store.users
  {}

  lemma StepKeepsColumns(w: World, step: Step, env: Env)
    requires ControlOk(w) && OutputsOk(w) && Enabled(w, step, env)
    ensures ColumnsOk(After(w, step, env).base.store)
  {
    match step
    case Register => AddUserKeepsColumns(w.base, env.newId);
    case ContinueCall(c) => CallKeepsColumns(w, c, env);
    case ContinueAttempt(q) => AttemptKeepsColumns(w, q, env);
    case ContinueSweep(s) => SweepKeepsColumns(w, s, env);
    case ContinueHandler(h) => HandlerKeepsColumns(w, h, env);
    case _ => OtherStepsWriteNoJob(w, step, env);
  }

  // ---- The types -------------------------------------------------------------

  lemma TypeLasts(b: Base, b': Base, p: Payload)
    requires Grows(b, b') && PayloadOk(b, p) && TypeOk(b.store, p)
    ensures TypeOk(b'.store, p)
  {}

  /** A payload about to be queued is new with the row of its job, or was there before. */
  lemma CallKeepsType(b: Base, call: Call, env: Env)
    requires call.Enqueuing? ==> TypeOk(b.store, call.payload)
    ensures var m := Calls.Next(b.store, call, env);
            m.call.Enqueuing? ==> TypeOk(Act(b, m.effect).store, m.call.payload)
  {}

  lemma PayloadsKeepTypes(w: World, b': Base)
    requires ControlOk(w) && TypesOk(w) && Grows(w.base, b')
    ensures forall q | 0 <= q < |w.queue| :: TypeOk(b'.store, w.queue[q].payload)
    ensures forall c | 0 <= c < |w.calls| && w.calls[c].Enqueuing? :: TypeOk(b'.store, w.calls[c].payload)
  {
    forall q | 0 <= q < |w.queue| ensures TypeOk(b'.store, w.queue[q].payload) {
      assert EntryOk(w.base, w.queue[q]);
      TypeLasts(w.base, b', w.queue[q].payload);
    }
    forall c | 0 <= c < |w.calls| && w.calls[c].Enqueuing? ensures TypeOk(b'.store, w.calls[c].payload) {
      assert CallOk(w.base, w.calls[c]);
      TypeLasts(w.base, b', w.calls[c].payload);
    }
  }

  lemma CallKeepsTypes(w: World, c: nat, env: Env)
    requires ControlOk(w) && TypesOk(w) && Enabled(w, ContinueCall(c), env)
    requires Grows(w.base, AfterCall(w, c, env).base)
    ensures TypesOk(AfterCall(w, c, env))
  {
    CallKeepsType(w.base, w.calls[c], env);
    PayloadsKeepTypes(w, AfterCall(w, c, env).base);
  }

  predicate IsAttemptStep(step: Step) {
    step.StartAttempt? || step.ContinueAttempt? || step.SettleAttempt?
  }

  lemma AttemptKeepsTypes(w: World, q: nat, env: Env)
    requires ControlOk(w) && TypesOk(w) && Enabled(w, ContinueAttempt(q), env)
    requires Grows(w.base, AfterAttempt(w, q, env).base)
    ensures TypesOk(AfterAttempt(w, q, env))
  {
    PayloadsKeepTypes(w, AfterAttempt(w, q, env).base);
    NextAnnounces(w.base.store, w.queue[q].payload, w.queue[q].state.pc, env);
  }

  lemma StartKeepsTypes(w: World, q: nat)
    requires TypesOk(w) && CanStart(w, q)
    ensures TypesOk(AfterStart(w, q))
  {}

  lemma SettleKeepsTypes(w: World, q: nat)
    requires TypesOk(w) && CanSettle(w, q)
    ensures TypesOk(AfterSettle(w, q))
  {}

  /** Other steps leave the queue alone and put no payload into a call. */
  lemma OtherStepFrame(w: World, step: Step, env: Env)
    requires Enabled(w, step, env) && !step.ContinueCall? && !IsAttemptStep(step)
    ensures var w' := After(w, step, env);
            && w'.queue == w.queue
            && forall c | 0 <= c < |w'.calls| && w'.calls[c].Enqueuing? :: c < |w.calls| && w'.calls[c] == w.calls[c]
  {}

  lemma OtherStepsLeaveJobs(w: World, step: Step, env: Env)
    requires Enabled(w, step, env) && !step.ContinueAttempt? && !step.ContinueCall? && !step.ContinueSweep? && !step.ContinueHandler?
    ensures After(w, step, env).base.store.jobs == w.base.store.jobs
  {}

  /** Steps of others leave each entry alone, or put it where nothing has been done yet. */
  lemma OtherStepsMoveEntries(w: World, step: Step, env: Env, q: nat)
    requires Enabled(w, step, env) && step != ContinueAttempt(q) && q < |After(w, step, env).queue|
    ensures var entry := After(w, step, env).queue[q];
            || (q < |w.queue| && entry == w.queue[q])
            || (entry.state.Running? ==> entry.state.pc == MarkActive)
  {}

  lemma StepKeepsTypes(w: World, step: Step, env: Env)
    requires ControlOk(w) && TypesOk(w) && Enabled(w, step, env)
    requires Grows(w.base, After(w, step, env).base)
    ensures TypesOk(After(w, step, env))
  {
    if step.ContinueCall? {
      CallKeepsTypes(w, step.c, env);
    } else if step.StartAttempt? {
      StartKeepsTypes(w, step.q);
    } else if step.ContinueAttempt? {
      AttemptKeepsTypes(w, step.q, env);
    } else if step.SettleAttempt? {
      SettleKeepsTypes(w, step.q);
    } else {
      PayloadsKeepTypes(w, After(w, step, env).base);
      OtherStepFrame(w, step, env);
    }
  }

  lemma StepKeepsOutputs(w: World, step: Step, env: Env)
    requires Invariant(w) && OutputsOk(w) && Enabled(w, step, env)
    ensures OutputsOk(After(w, step, env))
  {
    StepKeepsInvariant(w, step, env);
    StepKeepsColumns(w, step, env);
    StepKeepsTypes(w, step, env);
  }

  lemma {:induction false} RunKeepsOutputs(w: World, run: Run)
    requires Invariant(w) && OutputsOk(w) && ValidRun(w, run)
    ensures OutputsOk(End(w, run))
    decreases |run|
  {
    if run != [] {
      StepKeepsInvariant(w, run[0].0, run[0].1);
      StepKeepsOutputs(w, run[0].0, run[0].1);
      RunKeepsOutputs(After(w, run[0].0, run[0].1), run[1..]);
    }
  }

  lemma InitialOutputs()
    ensures Invariant(INITIAL) && OutputsOk(INITIAL)
  {
    InitialInvariant();
  }

  lemma ReachableKeepsOutputs(w: World)
    requires Reachable(w)
    ensures OutputsOk(w)
  {
    var run: Run :| ValidRun(INITIAL, run) && End(INITIAL, run) == w;
    InitialOutputs();
    RunKeepsOutputs(INITIAL, run);
  }

  /**
   A registered user's completed job has an output file exactly if it compresses or
   converts, and anyone's completed job has an output path exactly if it does not; no job,
   completed or not, has the column of the other kind.
   */
  lemma CompletedImagesHaveOutputs(w: World, j: Id)
    requires Reachable(w) && j in w.base.store.jobs
    ensures var job := w.base.store.jobs[j];
            var isImage := job.jobType in {"compress", "jpeg", "png", "webp"};
            && (job.status == Completed && job.userId in w.base.store.users ==> (job.outputFileId.Some? <==> isImage))
            && (job.status == Completed ==> (job.outputPath.Some? <==> !isImage))
            && (if isImage then job.outputPath.None? else job.outputFileId.None?)
  {
    ReachableKeepsOutputs(w);
    assert ColumnOk(w.base.store, w.base.store.jobs[j]);
  }
}
