/**
 Storage agreement for outputs: a completed image job names a file that has its object, of
 exactly the recorded size, however often the job was attempted, or else a sweep has
 removed what was stored under the key of a guest's job.  All attempts of a job store
 under keys of that job, which no one else writes, and only guest sweeps remove.
 */
module OutputAgreement {
  import opened Keys
  import opened Store
  import opened Environment
  import opened Attempt
  import opened Calls
  import opened Sweeps
  import opened Machine
  import opened TableInvariant
  import opened ProcessInvariant
  import opened ControlSteps
  import opened Guarantees
  import opened Outputs
  import opened AttemptEvents
  import ObjectKeeping

  /** A key under which attempts of job `j` of user `u` store. */
  ghost predicate IsOutputPath(u: Id, j: Id, path: string) {
    exists name: string :: path == OutputKey(u, j, name)
  }

  ghost predicate IsSomeOutputPath(u: Id, path: string) {
    exists j: Id :: IsUuid(j) && IsOutputPath(u, j, path)
  }

  /** A file is stored under an upload key, or past reservation under an output key of its owner. */
  ghost predicate PathOk(file: FileRow) {
    || InUploadNamespace(file.storagePath)
    || (file.status != FileStatus.Pending && IsSomeOutputPath(file.userId, file.storagePath))
  }

  ghost predicate TargetPathOk(guest: bool, file: FileRow) {
    || InUploadNamespace(file.storagePath)
    || (guest && IsSomeOutputPath(file.userId, file.storagePath))
  }

  ghost predicate PathsOk(w: World) {
    && (forall f | f in w.base.store.files :: PathOk(w.base.store.files[f]))
    && (forall s, i | 0 <= s < |w.sweeps| && 0 <= i < |w.sweeps[s].remaining| ::
          TargetPathOk(w.sweeps[s].guest, w.sweeps[s].remaining[i].file))
  }

  /** The keys under which a step of a sweep removes an object. */
  function RemovedKeys(w: World, step: Step, env: Env): set<string>
    requires Enabled(w, step, env)
  {
    match step
    case ContinueSweep(s) =>
      var e := Sweeps.Next(w.sweeps[s], env).effect;
      if e.RemoveObject? then {e.key} else {}
    case _ => {}
  }

  function RemovedIn(w: World, run: Run): set<string>
    requires ValidRun(w, run)
    decreases |run|
  {
    if run == [] then {}
    else RemovedKeys(w, run[0].0, run[0].1) + RemovedIn(After(w, run[0].0, run[0].1), run[1..])
  }

  /** There are `size` bytes under the key, or it is a guest's among those `gone` and there is nothing. */
  predicate StoredAs(s: Store, u: Id, key: string, size: int, gone: set<string>) {
    if key in s.objects then s.objects[key] == size else u !in s.users && key in gone
  }

  /** File `o` is an output of job `j` and has its object, unless that is gone. */
  ghost predicate OutputStored(s: Store, u: Id, j: Id, o: Id, gone: set<string>) {
    && o in s.files && IsOutputPath(u, j, s.files[o].storagePath)
    && StoredAs(s, u, s.files[o].storagePath, s.files[o].size, gone)
  }

  /** What an attempt has stored and not yet recorded with its job. */
  ghost predicate StoredOk(s: Store, p: Payload, pc: Pc, gone: set<string>) {
    match pc
    case CreateOutput(name, _, size) => StoredAs(s, p.userId, OutputKey(p.userId, p.jobId, name), size, gone)
    case CompleteImage(o) => o in s.files ==> OutputStored(s, p.userId, p.jobId, o, gone)
    case _ => true
  }

  ghost predicate CompletedOk(s: Store, j: Id, job: JobRow, gone: set<string>) {
    job.status == Completed && job.outputFileId.Some?
    ==> OutputStored(s, job.userId, j, job.outputFileId.value, gone)
  }

  ghost predicate EntryStoredOk(s: Store, entry: Entry, gone: set<string>) {
    entry.state.Running? ==> StoredOk(s, entry.payload, entry.state.pc, gone)
  }

  /** `gone` are the keys under which sweeps have removed an object. */
  ghost predicate AgreementOk(w: World, gone: set<string>) {
    && PathsOk(w)
    && (forall q | 0 <= q < |w.queue| :: EntryStoredOk(w.base.store, w.queue[q], gone))
    && (forall j | j in w.base.store.jobs :: CompletedOk(w.base.store, j, w.base.store.jobs[j], gone))
  }

  // ---- Paths -----------------------------------------------------------------

  ghost predicate InsertsOk(e: Effect) {
    e.InsertFile? ==> PathOk(e.file)
  }

  lemma EffectKeepsPath(s: Store, e: Effect, f: Id)
    requires InsertsOk(e) && (f in s.files ==> PathOk(s.files[f])) && f in Apply(s, e).files
    ensures PathOk(Apply(s, e).files[f])
  {}

  lemma AttemptInsertsOk(b: Base, p: Payload, pc: Pc, env: Env)
    requires IdsOk(b) && PayloadOk(b, p)
    ensures InsertsOk(Attempt.Next(b.store, p, pc, env).effect)
  {
    match pc
    case CreateOutput(name, _, _) =>
      assert IsOutputPath(p.userId, p.jobId, OutputKey(p.userId, p.jobId, name));
    case _ =>
  }

  lemma CallInsertsOk(s: Store, call: Call, env: Env)
    ensures InsertsOk(Calls.Next(s, call, env).effect)
  {}

  lemma UploadInsertsOk(userId: Id, input: UploadInput, env: Env)
    requires IsUuid(userId) && IsUuid(env.uuid)
    ensures InsertsOk(BeginUpload(userId, input, env).effect)
  {
    UploadKeyParts(userId, env.uuid, env.text);
  }

  /** The write of a step to the files. */
  lemma StepKeepsFilePath(w: World, step: Step, env: Env, f: Id)
    requires Invariant(w) && PathsOk(w) && Enabled(w, step, env) && f in After(w, step, env).base.store.files
    ensures PathOk(After(w, step, env).base.store.files[f])
  {
    if step.ContinueAttempt? {
      assert EntryOk(w.base, w.queue[step.q]);
      AttemptInsertsOk(w.base, w.queue[step.q].payload, w.queue[step.q].state.pc, env);
      EffectKeepsPath(w.base.store, Attempt.Next(w.base.store, w.queue[step.q].payload, w.queue[step.q].state.pc, env).effect, f);
    } else if step.ContinueCall? {
      CallInsertsOk(w.base.store, w.calls[step.c], env);
      EffectKeepsPath(w.base.store, Calls.Next(w.base.store, w.calls[step.c], env).effect, f);
    } else if step.StartUpload? {
      assert env.uuid in {env.newId, env.uuid};
      UploadInsertsOk(step.userId, step.input, env);
      EffectKeepsPath(w.base.store, BeginUpload(step.userId, step.input, env).effect, f);
    } else if step.ContinueSweep? {
      EffectKeepsPath(w.base.store, Sweeps.Next(w.sweeps[step.s], env).effect, f);
    } else {
      OtherStepsKeepFiles(w, step, env);
    }
  }

  lemma OtherStepsKeepFiles(w: World, step: Step, env: Env)
    requires Enabled(w, step, env) && !step.ContinueAttempt? && !step.ContinueCall? && !step.StartUpload? && !step.ContinueSweep?
    ensures After(w, step, env).base.store.files == w.base.store.files
  {
    if step.ContinueHandler? {
      HandlersKeepFiles(w, step.h, env);
    }
  }

  lemma HandlersKeepFiles(w: World, h: nat, env: Env)
    requires HandlerActive(w, h)
    ensures AfterHandler(w, h, env).base.store.files == w.base.store.files
  {}

  lemma ContinueSweepKeepsTargets(w: World, s: nat, env: Env)
    requires PathsOk(w) && SweepActive(w, s)
    ensures forall r, i | 0 <= r < |w.sweeps| && 0 <= i < |AfterSweep(w, s, env).sweeps[r].remaining| ::
              TargetPathOk(AfterSweep(w, s, env).sweeps[r].guest, AfterSweep(w, s, env).sweeps[r].remaining[i].file)
  {}

  lemma NewSweepTargetsOk(w: World, step: Step, env: Env)
    requires PathsOk(w) && Enabled(w, step, env) && (step.StartPendingSweep? || step.StartGuestSweep?)
    ensures var w' := After(w, step, env);
            forall r, i | 0 <= r < |w'.sweeps| && 0 <= i < |w'.sweeps[r].remaining| ::
              TargetPathOk(w'.sweeps[r].guest, w'.sweeps[r].remaining[i].file)
  {
    forall i | 0 <= i < |step.order|
      ensures TargetPathOk(step.StartGuestSweep?, w.base.store.files[step.order[i]])
    {
      assert PathOk(w.base.store.files[step.order[i]]);
    }
  }

  lemma StepKeepsPaths(w: World, step: Step, env: Env)
    requires Invariant(w) && PathsOk(w) && Enabled(w, step, env)
    ensures PathsOk(After(w, step, env))
  {
    var w' := After(w, step, env);
    forall f | f in w'.base.store.files ensures PathOk(w'.base.store.files[f]) {
      StepKeepsFilePath(w, step, env, f);
    }
    if step.ContinueSweep? {
      ContinueSweepKeepsTargets(w, step.s, env);
    } else if step.StartPendingSweep? || step.StartGuestSweep? {
      NewSweepTargetsOk(w, step, env);
    } else {
      ObjectKeeping.OtherStepsLeaveSweeps(w, step, env);
    }
  }

  // ---- Objects under the keys of a job ---------------------------------------

  /** Another job's key, whatever its name, is another key. */
  lemma OtherJobsKey(u: Id, j: Id, path: string, u': Id, j': Id, name: string)
    requires IsUuid(u) && IsUuid(j) && IsUuid(u') && IsUuid(j') && IsOutputPath(u, j, path) && (u != u' || j != j')
    ensures path != OutputKey(u', j', name)
  {
    var n: string :| path == OutputKey(u, j, n);
    OutputKeysNeverCollide(u, j, n, u', j', name);
  }

  lemma NoUploadKey(u: Id, j: Id, path: string)
    requires IsOutputPath(u, j, path)
    ensures !InUploadNamespace(path)
  {
    var n: string :| path == OutputKey(u, j, n);
    OutputKeysAreNotUploadKeys(u, j, n);
  }

  lemma SweepSparesOutput(w: World, s: nat, env: Env, u: Id, j: Id, key: string)
    requires Invariant(w) && PathsOk(w) && SweepActive(w, s)
    requires u in w.base.store.users && IsUuid(j) && IsOutputPath(u, j, key)
    ensures SameObject(w.base.store, AfterSweep(w, s, env).base.store, key)
  {
    var sweep := w.sweeps[s];
    SweepTargetIsElsewhere(w, s, u, j, key);
    RemovalSpares(w.base.store, Sweeps.Next(sweep, env).effect, sweep.remaining[0].file.storagePath, key);
  }

  lemma RemovalSpares(s: Store, e: Effect, path: string, key: string)
    requires !e.PutObject? && (e.RemoveObject? ==> e.key == path) && key != path
    ensures SameObject(s, Apply(s, e), key)
  {}

  lemma SweepTargetIsElsewhere(w: World, s: nat, u: Id, j: Id, key: string)
    requires Invariant(w) && PathsOk(w) && SweepActive(w, s)
    requires u in w.base.store.users && IsUuid(j) && IsOutputPath(u, j, key)
    ensures key != w.sweeps[s].remaining[0].file.storagePath
  {
    var target := w.sweeps[s].remaining[0];
    assert SweepOk(w.base, w.sweeps[s]) && TargetOk(w.base, w.sweeps[s].guest, target);
    assert TargetPathOk(w.sweeps[s].guest, target.file);
    NoUploadKey(u, j, key);
    if !InUploadNamespace(target.file.storagePath) {
      OthersPathDiffers(u, j, key, target.file);
    }
  }

  lemma OthersPathDiffers(u: Id, j: Id, key: string, file: FileRow)
    requires IsUuid(u) && IsUuid(j) && IsOutputPath(u, j, key)
    requires IsUuid(file.userId) && file.userId != u && IsSomeOutputPath(file.userId, file.storagePath)
    ensures key != file.storagePath
  {
    var j': Id :| IsUuid(j') && IsOutputPath(file.userId, j', file.storagePath);
    var n: string :| file.storagePath == OutputKey(file.userId, j', n);
    OtherJobsKey(u, j, key, file.userId, j', n);
  }

  lemma AttemptSparesOutput(w: World, q: nat, env: Env, u: Id, j: Id, key: string)
    requires Invariant(w) && CanContinue(w, q) && w.queue[q].payload.jobId != j
    requires IsUuid(u) && IsUuid(j) && IsOutputPath(u, j, key)
    ensures SameObject(w.base.store, AfterAttempt(w, q, env).base.store, key)
  {
    var p, pc := w.queue[q].payload, w.queue[q].state.pc;
    assert EntryOk(w.base, w.queue[q]) && IsUuid(p.userId) && IsUuid(p.jobId);
    if pc.PutOutput? {
      OtherJobsKey(u, j, key, p.userId, p.jobId, pc.name);
    } else {
      OnlyPutsWrite(w.base.store, p, pc, env);
    }
  }

  lemma OnlyPutsWrite(s: Store, p: Payload, pc: Pc, env: Env)
    requires !pc.PutOutput?
    ensures Apply(s, Attempt.Next(s, p, pc, env).effect).objects == s.objects
  {}

  lemma UploadSparesOutput(w: World, policy: Policy, u: Id, j: Id, key: string)
    requires ProcessesOk(w) && policy in w.policies && IsOutputPath(u, j, key)
    ensures SameObject(w.base.store, Perform(w, PutObject(policy.key, policy.size)).base.store, key)
  {
    NoUploadKey(u, j, key);
    assert PolicyOk(w.base, policy.key, policy.size);
  }

  predicate ContinuesJob(w: World, step: Step, j: Id) {
    step.ContinueAttempt? && step.q < |w.queue| && w.queue[step.q].payload.jobId == j
  }

  /** Only the attempts of a registered user's job touch what is stored under its keys. */
  lemma OthersSpareOutput(w: World, step: Step, env: Env, u: Id, j: Id, key: string)
    requires Invariant(w) && PathsOk(w) && Enabled(w, step, env) && !ContinuesJob(w, step, j)
    requires u in w.base.store.users && IsUuid(j) && IsOutputPath(u, j, key)
    ensures SameObject(w.base.store, After(w, step, env).base.store, key)
  {
    if step.ContinueSweep? {
      SweepSparesOutput(w, step.s, env, u, j, key);
    } else if step.ContinueAttempt? {
      AttemptSparesOutput(w, step.q, env, u, j, key);
    } else if step.BrowserUpload? {
      UploadSparesOutput(w, step.policy, u, j, key);
    } else {
      ObjectKeeping.ObjectsUntouched(w, step, env);
    }
  }

  /** Where the user is a guest, sweeps may remove it too. */
  lemma OthersKeepStored(w: World, step: Step, env: Env, u: Id, j: Id, key: string, size: int, gone: set<string>)
    requires Invariant(w) && PathsOk(w) && Enabled(w, step, env) && !ContinuesJob(w, step, j)
    requires u in w.base.principals && IsUuid(j) && IsOutputPath(u, j, key) && StoredAs(w.base.store, u, key, size, gone)
    ensures StoredAs(After(w, step, env).base.store, u, key, size, gone + RemovedKeys(w, step, env))
  {
    StepKeepsInvariant(w, step, env);
    if u in w.base.store.users {
      OthersSpareOutput(w, step, env, u, j, key);
    } else if step.ContinueSweep? {
      SweepKeepsStored(w, step.s, env, u, key, size, gone);
    } else if step.ContinueAttempt? {
      AttemptSparesOutput(w, step.q, env, u, j, key);
    } else if step.BrowserUpload? {
      UploadSparesOutput(w, step.policy, u, j, key);
    } else {
      ObjectKeeping.ObjectsUntouched(w, step, env);
    }
  }

  lemma SweepKeepsStored(w: World, s: nat, env: Env, u: Id, key: string, size: int, gone: set<string>)
    requires SweepActive(w, s) && u !in w.base.store.users && StoredAs(w.base.store, u, key, size, gone)
    ensures StoredAs(AfterSweep(w, s, env).base.store, u, key, size, gone + RemovedKeys(w, ContinueSweep(s), env))
  {}

  /** What others do leaves a stored output stored. */
  lemma OutputStaysStored(w: World, step: Step, env: Env, u: Id, j: Id, o: Id, gone: set<string>)
    requires Invariant(w) && PathsOk(w) && Enabled(w, step, env) && !ContinuesJob(w, step, j)
    requires u in w.base.principals && IsUuid(j) && OutputStored(w.base.store, u, j, o, gone)
    requires o in After(w, step, env).base.store.files
    ensures OutputStored(After(w, step, env).base.store, u, j, o, gone + RemovedKeys(w, step, env))
  {
    OthersKeepStored(w, step, env, u, j, w.base.store.files[o].storagePath, w.base.store.files[o].size, gone);
    StepKeepsInvariant(w, step, env);
  }

  // ---- Attempts --------------------------------------------------------------

  lemma OtherEntryStaysStored(w: World, step: Step, env: Env, entry: Entry, gone: set<string>)
    requires Invariant(w) && PathsOk(w) && Enabled(w, step, env) && !ContinuesJob(w, step, entry.payload.jobId)
    requires EntryOk(w.base, entry) && EntryStoredOk(w.base.store, entry, gone)
    ensures EntryStoredOk(After(w, step, env).base.store, entry, gone + RemovedKeys(w, step, env))
  {
    if entry.state.Running? && entry.state.pc.CreateOutput? {
      var p, key := entry.payload, OutputKey(entry.payload.userId, entry.payload.jobId, entry.state.pc.name);
      assert IsOutputPath(p.userId, p.jobId, key);
      OthersKeepStored(w, step, env, p.userId, p.jobId, key, entry.state.pc.size, gone);
    } else if entry.state.Running? && entry.state.pc.CompleteImage? {
      RecordedStaysStored(w, step, env, entry.payload, entry.state.pc.output, gone);
    }
  }

  lemma RecordedStaysStored(w: World, step: Step, env: Env, p: Payload, o: Id, gone: set<string>)
    requires Invariant(w) && PathsOk(w) && Enabled(w, step, env) && !ContinuesJob(w, step, p.jobId)
    requires PayloadOk(w.base, p) && OutputOk(w.base, p, o) && StoredOk(w.base.store, p, CompleteImage(o), gone)
    ensures StoredOk(After(w, step, env).base.store, p, CompleteImage(o), gone + RemovedKeys(w, step, env))
  {
    StepKeepsInvariant(w, step, env);
    if o in After(w, step, env).base.store.files {
      assert o in w.base.store.files;
      OutputStaysStored(w, step, env, p.userId, p.jobId, o, gone);
    }
  }

  /** An attempt has stored what it is about to record. */
  lemma OwnEntryStaysStored(s: Store, p: Payload, pc: Pc, env: Env, gone: set<string>)
    requires StoredOk(s, p, pc, gone) && !Ended(pc)
    ensures var m := Attempt.Next(s, p, pc, env);
            StoredOk(Apply(s, m.effect), p, m.pc, gone)
  {
    match pc
    case CreateOutput(name, mimeType, size) =>
      assert IsOutputPath(p.userId, p.jobId, OutputKey(p.userId, p.jobId, name));
    case _ =>
  }

  lemma ContinueKeepsEntries(w: World, q: nat, env: Env, gone: set<string>)
    requires Invariant(w) && AgreementOk(w, gone) && Enabled(w, ContinueAttempt(q), env)
    ensures var w' := AfterAttempt(w, q, env);
            forall r | 0 <= r < |w'.queue| :: EntryStoredOk(w'.base.store, w'.queue[r], gone)
  {
    var w' := AfterAttempt(w, q, env);
    assert After(w, ContinueAttempt(q), env) == w' && gone + RemovedKeys(w, ContinueAttempt(q), env) == gone;
    forall r | 0 <= r < |w'.queue| ensures EntryStoredOk(w'.base.store, w'.queue[r], gone) {
      assert EntryStoredOk(w.base.store, w.queue[r], gone) && EntryOk(w.base, w.queue[r]);
      if r == q {
        OwnEntryStaysStored(w.base.store, w.queue[q].payload, w.queue[q].state.pc, env, gone);
      } else {
        OtherEntryStaysStored(w, ContinueAttempt(q), env, w.queue[r], gone);
      }
    }
  }

  lemma StepKeepsEntries(w: World, step: Step, env: Env, gone: set<string>)
    requires Invariant(w) && AgreementOk(w, gone) && Enabled(w, step, env)
    ensures var w' := After(w, step, env);
            forall r | 0 <= r < |w'.queue| :: EntryStoredOk(w'.base.store, w'.queue[r], gone + RemovedKeys(w, step, env))
  {
    var w', gone' := After(w, step, env), gone + RemovedKeys(w, step, env);
    if step.ContinueAttempt? {
      assert gone' == gone;
      ContinueKeepsEntries(w, step.q, env, gone);
    } else {
      forall r | 0 <= r < |w'.queue| ensures EntryStoredOk(w'.base.store, w'.queue[r], gone') {
        OtherStepsMoveEntries(w, step, env, r);
        if r < |w.queue| && w'.queue[r] == w.queue[r] {
          assert EntryStoredOk(w.base.store, w.queue[r], gone) && EntryOk(w.base, w.queue[r]);
          OtherEntryStaysStored(w, step, env, w.queue[r], gone);
        }
      }
    }
  }

  // ---- Completed jobs --------------------------------------------------------

  /** But by its own attempt a job is neither completed nor given another output. */
  ghost predicate NotNewlyCompleted(s: Store, s': Store, j: Id) {
    j in s'.jobs && s'.jobs[j].status == Completed && s'.jobs[j].outputFileId.Some? ==>
      && j in s.jobs && s.jobs[j].status == Completed && s.jobs[j].userId == s'.jobs[j].userId
      && s'.jobs[j].outputFileId == s.jobs[j].outputFileId
  }

  lemma EffectCompletesNothing(s: Store, e: Effect, j: Id)
    requires e.UpdateStatus? && e.jobId == j ==> e.status == Failed
    requires e.InsertJob? ==> e.job.status == JobStatus.Pending
    ensures NotNewlyCompleted(s, Apply(s, e), j)
  {}

  lemma CallCompletesNothing(s: Store, call: Call, env: Env)
    ensures var e := Calls.Next(s, call, env).effect;
            !e.UpdateStatus? && (e.InsertJob? ==> e.job.status == JobStatus.Pending)
  {}

  lemma OthersCompleteNothing(w: World, step: Step, env: Env, j: Id)
    requires Enabled(w, step, env) && !ContinuesJob(w, step, j)
    ensures NotNewlyCompleted(w.base.store, After(w, step, env).base.store, j)
  {
    if step.ContinueAttempt? {
      var p, pc := w.queue[step.q].payload, w.queue[step.q].state.pc;
      AttemptOwnJob(w.base.store, p, pc, env);
      EffectCompletesNothing(w.base.store, Attempt.Next(w.base.store, p, pc, env).effect, j);
    } else if step.ContinueCall? {
      CallCompletesNothing(w.base.store, w.calls[step.c], env);
      EffectCompletesNothing(w.base.store, Calls.Next(w.base.store, w.calls[step.c], env).effect, j);
    } else if step.ContinueSweep? {
      EffectCompletesNothing(w.base.store, Sweeps.Next(w.sweeps[step.s], env).effect, j);
    } else if step.ContinueHandler? {
      HandlerCompletesNothing(w, step.h, env, j);
    } else {
      OtherStepsLeaveJobs(w, step, env);
    }
  }

  lemma HandlerCompletesNothing(w: World, h: nat, env: Env, j: Id)
    requires HandlerActive(w, h)
    ensures NotNewlyCompleted(w.base.store, AfterHandler(w, h, env).base.store, j)
  {}

  /** A job that others did not touch keeps its stored output. */
  lemma OtherJobStaysOk(w: World, step: Step, env: Env, j: Id, gone: set<string>)
    requires Invariant(w) && AgreementOk(w, gone) && Enabled(w, step, env) && !ContinuesJob(w, step, j)
    requires j in After(w, step, env).base.store.jobs
    ensures var s' := After(w, step, env).base.store;
            CompletedOk(s', j, s'.jobs[j], gone + RemovedKeys(w, step, env))
  {
    var s' := After(w, step, env).base.store;
    var job := s'.jobs[j];
    StepKeepsInvariant(w, step, env);
    OthersCompleteNothing(w, step, env, j);
    if job.status == Completed && job.outputFileId.Some? {
      assert CompletedOk(w.base.store, j, w.base.store.jobs[j], gone);
      OwnerIsPrincipal(w, j);
      assert ReferencesOk(s', job);
      OutputStaysStored(w, step, env, job.userId, j, job.outputFileId.value, gone);
    }
  }

  lemma OwnerIsPrincipal(w: World, j: Id)
    requires Invariant(w) && j in w.base.store.jobs
    ensures w.base.store.jobs[j].userId in w.base.principals
  {
    var job := w.base.store.jobs[j];
    assert ReferencesOk(w.base.store, job) && FileOk(w.base, w.base.store.files[job.fileId]);
  }

  /** An attempt completes its job with the output it has stored. */
  lemma OwnJobStaysOk(s: Store, p: Payload, pc: Pc, env: Env, gone: set<string>)
    requires p.jobId in s.jobs && s.jobs[p.jobId].userId == p.userId && CompletedOk(s, p.jobId, s.jobs[p.jobId], gone)
    requires StatusOk(s, p, pc) && !Ended(pc) && StoredOk(s, p, pc, gone)
    requires Fits(p, pc) && ColumnsOk(s) && s.jobs[p.jobId].jobType == p.jobType
    ensures var s' := Apply(s, Attempt.Next(s, p, pc, env).effect);
            p.jobId in s'.jobs && CompletedOk(s', p.jobId, s'.jobs[p.jobId], gone)
  {
    assert ColumnOk(s, s.jobs[p.jobId]);
  }

  lemma StepKeepsCompleted(w: World, step: Step, env: Env, j: Id, gone: set<string>)
    requires Invariant(w) && OutputsOk(w) && AgreementOk(w, gone) && Enabled(w, step, env)
    requires j in After(w, step, env).base.store.jobs
    ensures var s' := After(w, step, env).base.store;
            CompletedOk(s', j, s'.jobs[j], gone + RemovedKeys(w, step, env))
  {
    if ContinuesJob(w, step, j) {
      OwnAttemptKeepsCompleted(w, step.q, env, gone);
      assert gone + RemovedKeys(w, step, env) == gone;
    } else {
      OtherJobStaysOk(w, step, env, j, gone);
    }
  }

  lemma OwnAttemptKeepsCompleted(w: World, q: nat, env: Env, gone: set<string>)
    requires Invariant(w) && OutputsOk(w) && AgreementOk(w, gone) && Enabled(w, ContinueAttempt(q), env)
    requires w.queue[q].payload.jobId in AfterAttempt(w, q, env).base.store.jobs
    ensures var s', j := AfterAttempt(w, q, env).base.store, w.queue[q].payload.jobId;
            CompletedOk(s', j, s'.jobs[j], gone)
  {
    var p, pc := w.queue[q].payload, w.queue[q].state.pc;
    assert EntryOk(w.base, w.queue[q]) && EntryStoredOk(w.base.store, w.queue[q], gone);
    assert StatusOk(w.base.store, p, pc) && TypeOk(w.base.store, p);
    AttemptOwnJob(w.base.store, p, pc, env);
    OwnJobWasThere(w.base.store, p, pc, env);
    assert CompletedOk(w.base.store, p.jobId, w.base.store.jobs[p.jobId], gone);
    OwnJobStaysOk(w.base.store, p, pc, env, gone);
  }

  lemma OwnJobWasThere(s: Store, p: Payload, pc: Pc, env: Env)
    requires p.jobId in Apply(s, Attempt.Next(s, p, pc, env).effect).jobs
    ensures p.jobId in s.jobs
  {}

  // ---- Every reachable state --------------------------------------------------

  lemma StepKeepsAgreement(w: World, step: Step, env: Env, gone: set<string>)
    requires Invariant(w) && OutputsOk(w) && AgreementOk(w, gone) && Enabled(w, step, env)
    ensures AgreementOk(After(w, step, env), gone + RemovedKeys(w, step, env))
  {
    var s' := After(w, step, env).base.store;
    StepKeepsPaths(w, step, env);
    StepKeepsEntries(w, step, env, gone);
    forall j | j in s'.jobs ensures CompletedOk(s', j, s'.jobs[j], gone + RemovedKeys(w, step, env)) {
      StepKeepsCompleted(w, step, env, j, gone);
    }
  }

  lemma {:induction false} RunKeepsAgreement(w: World, run: Run, gone: set<string>)
    requires Invariant(w) && OutputsOk(w) && AgreementOk(w, gone) && ValidRun(w, run)
    ensures AgreementOk(End(w, run), gone + RemovedIn(w, run))
    decreases |run|
  {
    if run == [] {
      assert gone + RemovedIn(w, run) == gone;
    } else {
      var now, w' := RemovedKeys(w, run[0].0, run[0].1), After(w, run[0].0, run[0].1);
      StepKeepsInvariant(w, run[0].0, run[0].1);
      StepKeepsOutputs(w, run[0].0, run[0].1);
      StepKeepsAgreement(w, run[0].0, run[0].1, gone);
      RunKeepsAgreement(w', run[1..], gone + now);
      assert gone + RemovedIn(w, run) == gone + now + RemovedIn(w', run[1..]);
    }
  }

  lemma InitialAgreement()
    ensures AgreementOk(INITIAL, {})
  {}

  lemma ReachesAgreement(run: Run)
    requires ValidRun(INITIAL, run)
    ensures Reachable(End(INITIAL, run)) && AgreementOk(End(INITIAL, run), RemovedIn(INITIAL, run))
  {
    InitialOutputs();
    InitialAgreement();
    RunKeepsAgreement(INITIAL, run, {});
    assert {} + RemovedIn(INITIAL, run) == RemovedIn(INITIAL, run);
  }

  lemma ReachableKeepsPaths(w: World)
    requires Reachable(w)
    ensures PathsOk(w)
  {
    var run: Run :| ValidRun(INITIAL, run) && End(INITIAL, run) == w;
    ReachesAgreement(run);
  }

  /**
   After any run of the platform the output of a completed compress or convert job exists
   and has its object, of exactly the recorded size, unless the job is a guest's and a
   sweep has removed what was stored under that very key, leaving nothing there.
   */
  lemma OutputsHaveTheirObject(run: Run, j: Id)
    requires ValidRun(INITIAL, run)
    requires var s := End(INITIAL, run).base.store;
             j in s.jobs && s.jobs[j].status == Completed && s.jobs[j].outputFileId.Some?
    ensures var s := End(INITIAL, run).base.store;
            var output := s.jobs[j].outputFileId.value;
            output in s.files && StoredAs(s, s.jobs[j].userId, s.files[output].storagePath, s.files[output].size, RemovedIn(INITIAL, run))
  {
    var w := End(INITIAL, run);
    ReachesAgreement(run);
    assert CompletedOk(w.base.store, j, w.base.store.jobs[j], RemovedIn(INITIAL, run));
  }

  /**
   So in every reachable state a registered user's completed compress or convert job names
   an output file that has its object, of exactly the recorded size.
   */
  lemma CompletedOutputsHaveTheirObject(w: World, j: Id)
    requires Reachable(w) && j in w.base.store.jobs
    requires var job := w.base.store.jobs[j];
             job.status == Completed && IsImageType(job.jobType) && job.userId in w.base.store.users
    ensures var s := w.base.store;
            var output := s.jobs[j].outputFileId;
            output.Some? && output.value in s.files && HasObject(s, s.files[output.value])
  {
    var run: Run :| ValidRun(INITIAL, run) && End(INITIAL, run) == w;
    CompletedImagesHaveOutputs(w, j);
    OutputsHaveTheirObject(run, j);
  }

  // ---- Outputs that are not overwritten ---------------------------------------

  predicate HasStored(pc: Pc) {
    pc.CreateOutput? || pc.CompleteImage? || pc.CompleteDefault? || pc.Announce?
  }

  /** If the attempt at `pc` goes on to store anything under `key`, that is `size` bytes. */
  predicate StoresAlike(p: Payload, pc: Pc, key: string, size: int) {
    || HasStored(pc) || Doomed(pc)
    || (pc.Report? && pc.milestone.Transformed? && pc.milestone.size == size)
    || (pc.PutOutput? && (OutputKey(p.userId, p.jobId, pc.name) == key ==> pc.size == size))
  }

  /** No attempt on the payload is to store anything but `size` bytes under `key`. */
  predicate StoresNoOther(entry: Entry, key: string, size: int) {
    match entry.state
    case Waiting => false
    case Running(pc) => pc.Returned? || (entry.attempts >= MAX_ATTEMPTS && StoresAlike(entry.payload, pc, key, size))
    case Finished(_) => true
  }

  /** No attempt of job `j` is still to store anything but `size` bytes under `key`. */
  ghost predicate NothingElseToStore(w: World, j: Id, key: string, size: int) {
    && (forall q | 0 <= q < |w.queue| && w.queue[q].payload.jobId == j :: StoresNoOther(w.queue[q], key, size))
    && (forall c | 0 <= c < |w.calls| && w.calls[c].Enqueuing? :: w.calls[c].payload.jobId != j)
  }

  predicate HasBytes(s: Store, key: string, size: int) {
    key in s.objects && s.objects[key] == size
  }

  lemma AttemptStoresAlike(s: Store, p: Payload, pc: Pc, env: Env, key: string, size: int)
    requires StoresAlike(p, pc, key, size) && !Ended(pc)
    ensures var m := Attempt.Next(s, p, pc, env);
            && (StoresAlike(p, m.pc, key, size) || m.pc.Returned?)
            && (HasBytes(s, key, size) ==> HasBytes(Apply(s, m.effect), key, size))
  {}

  lemma ContinueStoresAlike(w: World, q: nat, env: Env, j: Id, key: string, size: int)
    requires NothingElseToStore(w, j, key, size) && Enabled(w, ContinueAttempt(q), env)
    ensures var w' := AfterAttempt(w, q, env);
            && NothingElseToStore(w', j, key, size)
            && (w.queue[q].payload.jobId == j && HasBytes(w.base.store, key, size) ==> HasBytes(w'.base.store, key, size))
  {
    if w.queue[q].payload.jobId == j {
      AttemptStoresAlike(w.base.store, w.queue[q].payload, w.queue[q].state.pc, env, key, size);
    }
  }

  lemma CallQueuesOthers(w: World, c: nat, env: Env, j: Id, key: string, size: int)
    requires j in w.base.issued && NothingElseToStore(w, j, key, size) && Enabled(w, ContinueCall(c), env)
    ensures NothingElseToStore(AfterCall(w, c, env), j, key, size)
  {
    var e := Calls.Next(w.base.store, w.calls[c], env).effect;
    var w' := AfterCall(w, c, env);
    assert w'.calls[c].Enqueuing? ==> w'.calls[c].payload.jobId in Draws(e);
  }

  lemma StepStoresAlike(w: World, step: Step, env: Env, j: Id, key: string, size: int)
    requires j in w.base.issued && NothingElseToStore(w, j, key, size) && Enabled(w, step, env)
    ensures NothingElseToStore(After(w, step, env), j, key, size)
  {
    if step.ContinueAttempt? {
      ContinueStoresAlike(w, step.q, env, j, key, size);
    } else if step.ContinueCall? {
      CallQueuesOthers(w, step.c, env, j, key, size);
    } else if step.StartAttempt? || step.SettleAttempt? {
      StartOrSettleStoresAlike(w, step, env, j, key, size);
    } else {
      OtherStepFrame(w, step, env);
    }
  }

  lemma StartOrSettleStoresAlike(w: World, step: Step, env: Env, j: Id, key: string, size: int)
    requires NothingElseToStore(w, j, key, size) && Enabled(w, step, env) && (step.StartAttempt? || step.SettleAttempt?)
    ensures NothingElseToStore(After(w, step, env), j, key, size)
  {}

  /** File `o` is a registered user's, stored with `size` bytes under `key`, and nothing is going to change that. */
  ghost predicate Kept(w: World, u: Id, j: Id, o: Id, key: string, size: int) {
    && u in w.base.store.users && j in w.base.issued && NothingElseToStore(w, j, key, size)
    && o in w.base.store.files && w.base.store.files[o].userId == u && IsOutputPath(u, j, key)
    && w.base.store.files[o].storagePath == key && w.base.store.files[o].size == size && HasBytes(w.base.store, key, size)
  }

  lemma StepKeepsKept(w: World, step: Step, env: Env, u: Id, j: Id, o: Id, key: string, size: int)
    requires Invariant(w) && PathsOk(w) && Kept(w, u, j, o, key, size) && Enabled(w, step, env)
    ensures Kept(After(w, step, env), u, j, o, key, size)
  {
    StepKeepsInvariant(w, step, env);
    StepStoresAlike(w, step, env, j, key, size);
    if ContinuesJob(w, step, j) {
      ContinueStoresAlike(w, step.q, env, j, key, size);
    } else {
      OthersSpareOutput(w, step, env, u, j, key);
    }
  }

  lemma {:induction false} RunKeepsKept(w: World, run: Run, u: Id, j: Id, o: Id, key: string, size: int)
    requires Invariant(w) && PathsOk(w) && Kept(w, u, j, o, key, size) && ValidRun(w, run)
    ensures Kept(End(w, run), u, j, o, key, size)
    decreases |run|
  {
    if run != [] {
      StepKeepsInvariant(w, run[0].0, run[0].1);
      StepKeepsPaths(w, run[0].0, run[0].1);
      StepKeepsKept(w, run[0].0, run[0].1, u, j, o, key, size);
      RunKeepsKept(After(w, run[0].0, run[0].1), run[1..], u, j, o, key, size);
    }
  }

  /** The output file keeps its object in every run. */
  ghost predicate KeepsOutput(w: World, o: Id) {
    forall run: Run | ValidRun(w, run) ::
      o in End(w, run).base.store.files && HasObject(End(w, run).base.store, End(w, run).base.store.files[o])
  }

  /**
   A registered user's stored output keeps its object in every run if no attempt of its job
   is still to store another size under its key.
   */
  lemma OutputIsKept(w: World, u: Id, j: Id, o: Id)
    requires Reachable(w) && o in w.base.store.files
    requires var file := w.base.store.files[o];
             Kept(w, u, j, o, file.storagePath, file.size)
    ensures KeepsOutput(w, o)
  {
    var key, size := w.base.store.files[o].storagePath, w.base.store.files[o].size;
    ReachableKeepsInvariant(w);
    ReachableKeepsPaths(w);
    forall run: Run | ValidRun(w, run) ensures Kept(End(w, run), u, j, o, key, size) {
      RunKeepsKept(w, run, u, j, o, key, size);
    }
  }
}
