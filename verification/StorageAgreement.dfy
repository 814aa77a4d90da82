/**
 Storage agreement: a confirmed upload has its object, of exactly the reserved size,
 unless a sweep has removed the object and not (or never) got to the row.
 */
module StorageAgreement {
  import opened Wrappers
  import opened Keys
  import opened Store
  import opened Environment
  import opened Attempt
  import opened Calls
  import opened Sweeps
  import opened Machine
  import opened TableInvariant
  import opened ProcessInvariant
  import opened ControlSteps

  ghost predicate CutBy(sweep: Sweep, f: Id) {
    sweep.cut && sweep.remaining != [] && sweep.remaining[0].fileId == f
  }

  /** A running sweep is between the removal of the object of `f` and the deletion of its row. */
  ghost predicate BeingCut(w: World, f: Id) {
    exists s | 0 <= s < |w.sweeps| :: CutBy(w.sweeps[s], f)
  }

  /** A sweep has removed the object, and is about to delete the row or failed to. */
  ghost predicate Exempt(w: World, f: Id) {
    f in w.removed && (f in w.abandoned || BeingCut(w, f))
  }

  /** `f` is an uploaded file in the given status whose object is missing or has another size. */
  ghost predicate Disagrees(s: Store, f: Id, status: FileStatus) {
    && f in s.files && s.files[f].status == status
    && InUploadNamespace(s.files[f].storagePath) && !HasObject(s, s.files[f])
  }

  ghost predicate ReadyOk(w: World) {
    forall f | f in w.base.store.files && Disagrees(w.base.store, f, Ready) :: Exempt(w, f)
  }

  /** The same for a file that a confirmation has checked and is about to mark ready. */
  ghost predicate CheckedOk(w: World) {
    forall c | 0 <= c < |w.calls| && w.calls[c].Marking? ::
      Disagrees(w.base.store, w.calls[c].fileId, FileStatus.Pending) ==> Exempt(w, w.calls[c].fileId)
  }

  ghost predicate StorageOk(w: World) {
    ReadyOk(w) && CheckedOk(w)
  }

  /** Nothing is removed, nothing marked ready, and only reserved sizes are written. */
  ghost predicate Harmless(b: Base, e: Effect) {
    && EffectOk(b, e)
    && !e.RemoveObject? && !e.MarkReady?
    && (e.PutObject? && InUploadNamespace(e.key) ==> PolicyOk(b, e.key, e.size))
    && (e.InsertFile? && e.file.status == Ready ==> !InUploadNamespace(e.file.storagePath))
  }

  lemma HarmlessCreatesNoDisagreement(b: Base, e: Effect, f: Id, status: FileStatus)
    requires TablesOk(b) && Harmless(b, e) && Disagrees(Act(b, e).store, f, status)
    requires status == Ready || (status == FileStatus.Pending && f in b.issued)
    ensures Disagrees(b.store, f, status)
  {
    if e.InsertFile? {
      assert e.fileId in Draws(e);
    }
  }

  lemma HarmlessKeepsStorage(w: World, e: Effect)
    requires ControlOk(w) && StorageOk(w) && Harmless(w.base, e)
    ensures StorageOk(Perform(w, e))
  {
    var w' := Perform(w, e);
    assert forall f :: Exempt(w', f) == Exempt(w, f);
    forall f | f in w'.base.store.files && Disagrees(w'.base.store, f, Ready) ensures Exempt(w', f) {
      HarmlessCreatesNoDisagreement(w.base, e, f, Ready);
    }
    forall c | 0 <= c < |w'.calls| && w'.calls[c].Marking? && Disagrees(w'.base.store, w'.calls[c].fileId, FileStatus.Pending)
      ensures Exempt(w', w'.calls[c].fileId)
    {
      assert CallOk(w.base, w.calls[c]);
      HarmlessCreatesNoDisagreement(w.base, e, w.calls[c].fileId, FileStatus.Pending);
    }
  }

  // ---- Confirmation ----------------------------------------------------------

  /** A call other than the final write of a confirmation. */
  lemma OtherCallKeepsStorage(w: World, c: nat, env: Env)
    requires ControlOk(w) && StorageOk(w) && Enabled(w, ContinueCall(c), env)
    requires !w.calls[c].Marking? && !w.calls[c].Stating?
    ensures StorageOk(AfterCall(w, c, env))
  {
    var m := Calls.Next(w.base.store, w.calls[c], env);
    assert CallOk(w.base, w.calls[c]);
    CallEffectOk(w.base, w.calls[c], env);
    HarmlessKeepsStorage(w, m.effect);
    SameStorageOk(Perform(w, m.effect), AfterCall(w, c, env));
  }

  /** Steps that change neither the tables nor the sweeps nor add a checked confirmation. */
  lemma SameStorageOk(w: World, w': World)
    requires StorageOk(w) && w'.base == w.base && w'.sweeps == w.sweeps && w'.removed == w.removed && w'.abandoned == w.abandoned
    requires forall c | 0 <= c < |w'.calls| && w'.calls[c].Marking? :: c < |w.calls| && w.calls[c] == w'.calls[c]
    ensures StorageOk(w')
  {
    assert forall f :: Exempt(w', f) == Exempt(w, f);
  }

  lemma StatingKeepsStorage(w: World, c: nat, env: Env)
    requires ControlOk(w) && StorageOk(w) && Enabled(w, ContinueCall(c), env) && w.calls[c].Stating?
    ensures StorageOk(AfterCall(w, c, env))
  {
    var w', call := AfterCall(w, c, env), w.calls[c];
    assert CallOk(w.base, call);
    assert w'.base.store == w.base.store;
    assert forall f :: Exempt(w', f) == Exempt(w, f);
    assert w'.calls[c].Marking? ==> !Disagrees(w'.base.store, call.fileId, FileStatus.Pending);
  }

  lemma MarkingKeepsStorage(w: World, c: nat, env: Env)
    requires ControlOk(w) && StorageOk(w) && Enabled(w, ContinueCall(c), env) && w.calls[c].Marking?
    ensures StorageOk(AfterCall(w, c, env))
  {
    var w', call := AfterCall(w, c, env), w.calls[c];
    assert forall f :: Exempt(w', f) == Exempt(w, f);
    forall f | f in w'.base.store.files && Disagrees(w'.base.store, f, Ready) ensures Exempt(w', f) {
      assert Disagrees(w.base.store, f, Ready) || (f == call.fileId && Disagrees(w.base.store, f, FileStatus.Pending));
    }
    forall d | 0 <= d < |w'.calls| && w'.calls[d].Marking? && Disagrees(w'.base.store, w'.calls[d].fileId, FileStatus.Pending)
      ensures Exempt(w', w'.calls[d].fileId)
    {
      assert w.calls[d] == w'.calls[d];
    }
  }

  // ---- Sweeps ----------------------------------------------------------------

  lemma CutRemoves(w: World, s: nat, env: Env, f: Id, status: FileStatus)
    requires ControlOk(w) && SweepActive(w, s) && !w.sweeps[s].cut
    requires Disagrees(AfterSweep(w, s, env).base.store, f, status)
    ensures Disagrees(w.base.store, f, status) || (CutBy(AfterSweep(w, s, env).sweeps[s], f) && env.outcome.Landed())
  {
    assert SweepOk(w.base, w.sweeps[s]) && TargetOk(w.base, w.sweeps[s].guest, w.sweeps[s].remaining[0]);
  }

  lemma ExemptLasts(w: World, s: nat, env: Env, f: Id)
    requires SweepActive(w, s) && Exempt(w, f) && !CutBy(w.sweeps[s], f)
    ensures Exempt(AfterSweep(w, s, env), f)
  {
    if f !in w.abandoned {
      var r :| 0 <= r < |w.sweeps| && CutBy(w.sweeps[r], f);
      assert CutBy(AfterSweep(w, s, env).sweeps[r], f);
    }
  }

  lemma RemovingKeepsStorage(w: World, s: nat, env: Env)
    requires ControlOk(w) && StorageOk(w) && SweepActive(w, s) && !w.sweeps[s].cut
    ensures StorageOk(AfterSweep(w, s, env))
  {
    var w' := AfterSweep(w, s, env);
    forall f | f in w'.base.store.files && Disagrees(w'.base.store, f, Ready) ensures Exempt(w', f) {
      CutRemoves(w, s, env, f, Ready);
      if Exempt(w, f) { ExemptLasts(w, s, env, f); }
    }
    forall c | 0 <= c < |w'.calls| && w'.calls[c].Marking? && Disagrees(w'.base.store, w'.calls[c].fileId, FileStatus.Pending)
      ensures Exempt(w', w'.calls[c].fileId)
    {
      CutRemoves(w, s, env, w.calls[c].fileId, FileStatus.Pending);
      if Exempt(w, w.calls[c].fileId) { ExemptLasts(w, s, env, w.calls[c].fileId); }
    }
  }

  /** Once the row write of a sweep has taken place, its target is neither pending nor ready. */
  lemma DeletedIsGone(w: World, s: nat, env: Env, f: Id, status: FileStatus)
    requires ControlOk(w) && SweepActive(w, s) && w.sweeps[s].cut && status != Deleted
    requires Disagrees(AfterSweep(w, s, env).base.store, f, status)
    ensures Disagrees(w.base.store, f, status)
    ensures env.outcome.Landed() ==> f != w.sweeps[s].remaining[0].fileId
  {
    assert SweepOk(w.base, w.sweeps[s]) && TargetOk(w.base, w.sweeps[s].guest, w.sweeps[s].remaining[0]);
  }

  lemma DeletingKeepsStorage(w: World, s: nat, env: Env)
    requires ControlOk(w) && StorageOk(w) && SweepActive(w, s) && w.sweeps[s].cut
    ensures StorageOk(AfterSweep(w, s, env))
  {
    var w' := AfterSweep(w, s, env);
    forall f | f in w'.base.store.files && Disagrees(w'.base.store, f, Ready) ensures Exempt(w', f) {
      DeletedIsGone(w, s, env, f, Ready);
      if !CutBy(w.sweeps[s], f) { ExemptLasts(w, s, env, f); }
    }
    forall c | 0 <= c < |w'.calls| && w'.calls[c].Marking? && Disagrees(w'.base.store, w'.calls[c].fileId, FileStatus.Pending)
      ensures Exempt(w', w'.calls[c].fileId)
    {
      DeletedIsGone(w, s, env, w.calls[c].fileId, FileStatus.Pending);
      if !CutBy(w.sweeps[s], w.calls[c].fileId) { ExemptLasts(w, s, env, w.calls[c].fileId); }
    }
  }

  lemma StartSweepKeepsStorage(w: World, step: Step, env: Env)
    requires StorageOk(w) && Enabled(w, step, env) && (step.StartPendingSweep? || step.StartGuestSweep?)
    ensures StorageOk(After(w, step, env))
  {
    var w' := After(w, step, env);
    forall f | Exempt(w, f) ensures Exempt(w', f) {
      if f !in w.abandoned {
        var r :| 0 <= r < |w.sweeps| && CutBy(w.sweeps[r], f);
        assert CutBy(w'.sweeps[r], f);
      }
    }
  }

  // ---- The other processes ---------------------------------------------------

  lemma AttemptIsHarmless(w: World, q: nat, env: Env)
    requires ControlOk(w) && Enabled(w, ContinueAttempt(q), env)
    ensures Harmless(w.base, Attempt.Next(w.base.store, w.queue[q].payload, w.queue[q].state.pc, env).effect)
  {
    var p, pc := w.queue[q].payload, w.queue[q].state.pc;
    assert EntryOk(w.base, w.queue[q]);
    AttemptEffectOk(w.base, p, pc, env);
    AttemptOwnJob(w.base.store, p, pc, env);
    match pc
    case PutOutput(name, _, _) => OutputKeysAreNotUploadKeys(p.userId, p.jobId, name);
    case CreateOutput(name, _, _) => OutputKeysAreNotUploadKeys(p.userId, p.jobId, name);
    case _ =>
  }

  lemma ContinueAttemptKeepsStorage(w: World, q: nat, env: Env)
    requires ControlOk(w) && StorageOk(w) && Enabled(w, ContinueAttempt(q), env)
    ensures StorageOk(AfterAttempt(w, q, env))
  {
    AttemptIsHarmless(w, q, env);
    var e := Attempt.Next(w.base.store, w.queue[q].payload, w.queue[q].state.pc, env).effect;
    HarmlessKeepsStorage(w, e);
    SameStorageOk(Perform(w, e), AfterAttempt(w, q, env));
  }

  lemma StartUploadKeepsStorage(w: World, userId: Id, input: UploadInput, env: Env)
    requires ControlOk(w) && StorageOk(w) && Enabled(w, StartUpload(userId, input), env)
    ensures StorageOk(AfterUpload(w, userId, input, env))
  {
    var m := BeginUpload(userId, input, env);
    UploadKeyParts(userId, env.uuid, env.text);
    assert env.newId in {env.newId, env.uuid} && env.uuid in {env.newId, env.uuid};
    HarmlessKeepsStorage(w, m.effect);
    SameStorageOk(Perform(w, m.effect), AfterUpload(w, userId, input, env));
  }

  lemma ContinueHandlerKeepsStorage(w: World, h: nat, env: Env)
    requires ControlOk(w) && StorageOk(w) && HandlerActive(w, h)
    ensures StorageOk(AfterHandler(w, h, env))
  {
    var handler := w.handlers[h];
    var e := if handler.pc == WritingFailed
             then UpdateStatus(handler.jobId, Failed, NO_EXTRA.(errorMessage := Some(handler.message)), env.at)
             else Publish(FailedMessageOf(handler));
    HarmlessKeepsStorage(w, IfLanded(env, e));
    SameStorageOk(Perform(w, IfLanded(env, e)), AfterHandler(w, h, env));
  }

  lemma ProcessStepKeepsStorage(w: World, step: Step, env: Env)
    requires ControlOk(w) && StorageOk(w) && Enabled(w, step, env)
    requires step.ContinueCall? || step.ContinueSweep? || step.ContinueAttempt? || step.ContinueHandler? || step.StartUpload?
    ensures StorageOk(After(w, step, env))
  {
    match step
    case ContinueCall(c) =>
      if w.calls[c].Marking? { MarkingKeepsStorage(w, c, env); }
      else if w.calls[c].Stating? { StatingKeepsStorage(w, c, env); }
      else { OtherCallKeepsStorage(w, c, env); }
    case ContinueSweep(s) =>
      if w.sweeps[s].cut { DeletingKeepsStorage(w, s, env); } else { RemovingKeepsStorage(w, s, env); }
    case ContinueAttempt(q) => ContinueAttemptKeepsStorage(w, q, env);
    case ContinueHandler(h) => ContinueHandlerKeepsStorage(w, h, env);
    case StartUpload(u, input) => StartUploadKeepsStorage(w, u, input, env);
  }

  lemma StepKeepsStorage(w: World, step: Step, env: Env)
    requires ControlOk(w) && StorageOk(w) && Enabled(w, step, env)
    ensures StorageOk(After(w, step, env))
  {
    if step.ContinueCall? || step.ContinueSweep? || step.ContinueAttempt? || step.ContinueHandler? || step.StartUpload? {
      ProcessStepKeepsStorage(w, step, env);
    } else if step.Register? {
      HarmlessKeepsStorage(w, AddUser(env.newId));
    } else if step.BrowserUpload? {
      HarmlessKeepsStorage(w, PutObject(step.policy.key, step.policy.size));
    } else if step.StartPendingSweep? || step.StartGuestSweep? {
      StartSweepKeepsStorage(w, step, env);
    } else if step.OpenGuestSession? {
      OpenGuestSessionKeepsStorage(w, env);
    } else {
      QuietStepFrame(w, step, env);
      SameStorageOk(w, After(w, step, env));
    }
  }

  /** Starting a call, and starting and settling an attempt. */
  lemma QuietStepFrame(w: World, step: Step, env: Env)
    requires Enabled(w, step, env) && (StartsCall(step) || step.StartAttempt? || step.SettleAttempt?)
    ensures var w' := After(w, step, env);
            && w'.base == w.base && w'.sweeps == w.sweeps && w'.removed == w.removed && w'.abandoned == w.abandoned
            && forall c | 0 <= c < |w'.calls| && w'.calls[c].Marking? :: c < |w.calls| && w.calls[c] == w'.calls[c]
  {}

  lemma OpenGuestSessionKeepsStorage(w: World, env: Env)
    requires StorageOk(w) && Enabled(w, OpenGuestSession, env)
    ensures StorageOk(After(w, OpenGuestSession, env))
  {
    assert forall f :: Exempt(After(w, OpenGuestSession, env), f) == Exempt(w, f);
  }
}
