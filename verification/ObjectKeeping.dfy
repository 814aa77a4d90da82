/**
 Exactly when the object of a confirmed upload is safe: when no sweep that is already
 running has the removal of it still ahead, and the file is a registered user's or held by
 a job that is stuck active.
 */
module ObjectKeeping {
  import opened Wrappers
  import opened Keys
  import opened Store
  import opened Environment
  import opened Attempt
  import opened Calls
  import opened Sweeps
  import opened Machine
  import opened ProcessInvariant
  import opened Guarantees
  import opened Finality
  import opened JobEnding

  /** Position `i` of the sweep is `f`, and its object is still to be removed. */
  predicate AheadIn(sweep: Sweep, i: nat, f: Id) {
    i < |sweep.remaining| && sweep.remaining[i].fileId == f && (i > 0 || !sweep.cut)
  }

  ghost predicate RemovalAhead(w: World, f: Id) {
    exists s, i | 0 <= s < |w.sweeps| && 0 <= i < |w.sweeps[s].remaining| :: AheadIn(w.sweeps[s], i, f)
  }

  predicate IsReady(w: World, f: Id) {
    f in w.base.store.files && w.base.store.files[f].status == Ready
  }

  /** In every run the file has its object for as long as it is ready. */
  ghost predicate KeepsObject(w: World, f: Id) {
    forall run: Run | ValidRun(w, run) && IsReady(End(w, run), f) ::
      HasObject(End(w, run).base.store, End(w, run).base.store.files[f])
  }

  // ---- Nothing ahead, nothing lost -------------------------------------------

  /** Job `j` is stuck active, and works on `f` for as long as `f` is there. */
  ghost predicate Holds(w: World, j: Id, f: Id) {
    && Settled(w, j, Active)
    && (f in w.base.store.files ==> j in w.base.store.jobs && w.base.store.jobs[j].fileId == f)
  }

  /**
   An upload, ready or past that, that no running sweep is going to cut, and that is a
   registered user's or held by the stuck job `holder`.
   */
  ghost predicate Safe(w: World, f: Id, holder: Option<Id>) {
    && f in w.base.issued
    && !RemovalAhead(w, f)
    && (f in w.base.store.files ==>
          var file := w.base.store.files[f];
          && file.status != FileStatus.Pending && InUploadNamespace(file.storagePath)
          && (holder.None? ==> file.userId in w.base.store.users)
          && (file.status == Ready ==> HasObject(w.base.store, file)))
    && (holder.Some? ==> Holds(w, holder.value, f))
  }

  /** Only a sweep removes objects, and an upload form only admits the reserved size. */
  lemma OtherStepsKeepObjects(w: World, step: Step, env: Env, f: Id)
    requires Invariant(w) && Enabled(w, step, env) && !step.ContinueSweep? && f in w.base.store.files
    requires var file := w.base.store.files[f]; InUploadNamespace(file.storagePath) && HasObject(w.base.store, file)
    ensures HasObject(After(w, step, env).base.store, w.base.store.files[f])
  {
    if step.BrowserUpload? {
      UploadKeepsObjects(w, step.policy, f);
    } else if step.ContinueAttempt? {
      AttemptKeepsObjects(w, step.q, env, f);
    } else {
      ObjectsUntouched(w, step, env);
    }
  }

  lemma UploadKeepsObjects(w: World, policy: Policy, f: Id)
    requires ProcessesOk(w) && policy in w.policies && f in w.base.store.files
    requires HasObject(w.base.store, w.base.store.files[f])
    ensures HasObject(Perform(w, PutObject(policy.key, policy.size)).base.store, w.base.store.files[f])
  {
    assert PolicyOk(w.base, policy.key, policy.size);
  }

  lemma ObjectsUntouched(w: World, step: Step, env: Env)
    requires Enabled(w, step, env) && !step.ContinueSweep? && !step.BrowserUpload? && !step.ContinueAttempt?
    ensures After(w, step, env).base.store.objects == w.base.store.objects
  {
    if step.ContinueCall? {
      CallsWriteNoObject(w, step.c, env);
    } else if step.ContinueHandler? {
      HandlersWriteNoObject(w, step.h, env);
    }
  }

  lemma CallsWriteNoObject(w: World, c: nat, env: Env)
    requires InFlight(w, c)
    ensures AfterCall(w, c, env).base.store.objects == w.base.store.objects
  {}

  lemma HandlersWriteNoObject(w: World, h: nat, env: Env)
    requires HandlerActive(w, h)
    ensures AfterHandler(w, h, env).base.store.objects == w.base.store.objects
  {}

  lemma AttemptKeepsObjects(w: World, q: nat, env: Env, f: Id)
    requires Enabled(w, ContinueAttempt(q), env) && f in w.base.store.files
    requires var file := w.base.store.files[f]; InUploadNamespace(file.storagePath) && HasObject(w.base.store, file)
    ensures HasObject(AfterAttempt(w, q, env).base.store, w.base.store.files[f])
  {
    var p := w.queue[q].payload;
    match w.queue[q].state.pc
    case PutOutput(name, _, _) => OutputKeysAreNotUploadKeys(p.userId, p.jobId, name);
    case _ =>
  }

  /** The sweep removes another file's object, under another key. */
  lemma SweepKeepsObject(w: World, s: nat, env: Env, f: Id)
    requires Invariant(w) && SweepActive(w, s) && !RemovalAhead(w, f) && f in w.base.store.files
    requires var file := w.base.store.files[f]; InUploadNamespace(file.storagePath) && HasObject(w.base.store, file)
    ensures HasObject(AfterSweep(w, s, env).base.store, w.base.store.files[f])
  {
    var sweep := w.sweeps[s];
    assert SweepOk(w.base, sweep) && TargetOk(w.base, sweep.guest, sweep.remaining[0]);
    if !sweep.cut {
      assert !AheadIn(sweep, 0, f);
    }
  }

  lemma StepKeepsObject(w: World, step: Step, env: Env, f: Id)
    requires Invariant(w) && Enabled(w, step, env) && !RemovalAhead(w, f) && f in w.base.store.files
    requires var file := w.base.store.files[f]; InUploadNamespace(file.storagePath) && HasObject(w.base.store, file)
    ensures HasObject(After(w, step, env).base.store, w.base.store.files[f])
  {
    if step.ContinueSweep? {
      SweepKeepsObject(w, step.s, env, f);
    } else {
      OtherStepsKeepObjects(w, step, env, f);
    }
  }

  lemma SweepAddsNothing(w: World, s: nat, env: Env, f: Id)
    requires SweepActive(w, s) && !RemovalAhead(w, f)
    ensures !RemovalAhead(AfterSweep(w, s, env), f)
  {
    var w' := AfterSweep(w, s, env);
    forall r, i | 0 <= r < |w'.sweeps| && 0 <= i < |w'.sweeps[r].remaining| ensures !AheadIn(w'.sweeps[r], i, f) {
      if r == s && w.sweeps[s].cut {
        assert i + 1 < |w.sweeps[s].remaining| ==> !AheadIn(w.sweeps[s], i + 1, f);
      } else {
        assert !AheadIn(w.sweeps[r], i, f);
      }
    }
  }

  /** A new sweep fetches pending files, or ready ones of guests that no job uses. */
  lemma NewSweepSpares(w: World, step: Step, env: Env, f: Id, holder: Option<Id>)
    requires Safe(w, f, holder) && Enabled(w, step, env) && (step.StartPendingSweep? || step.StartGuestSweep?)
    ensures !RemovalAhead(After(w, step, env), f)
  {
    var w' := After(w, step, env);
    assert holder.Some? && f in w.base.store.files ==> InUse(w.base.store, f);
    forall r, i | 0 <= r < |w'.sweeps| && 0 <= i < |w'.sweeps[r].remaining| ensures !AheadIn(w'.sweeps[r], i, f) {
      if r < |w.sweeps| {
        assert !AheadIn(w.sweeps[r], i, f);
      } else {
        assert w'.sweeps[r].remaining[i].fileId == step.order[i];
      }
    }
  }

  lemma OtherStepsLeaveSweeps(w: World, step: Step, env: Env)
    requires Enabled(w, step, env) && !step.ContinueSweep? && !step.StartPendingSweep? && !step.StartGuestSweep?
    ensures After(w, step, env).sweeps == w.sweeps
  {}

  /** A job goes only with its file. */
  lemma JobStaysWithFile(w: World, step: Step, env: Env, j: Id)
    requires Invariant(w) && Enabled(w, step, env) && j in w.base.store.jobs
    requires w.base.store.jobs[j].fileId in After(w, step, env).base.store.files
    ensures j in After(w, step, env).base.store.jobs
  {
    if step.ContinueSweep? {
      SweepKeepsJobs(w, step.s, env, j);
    } else {
      NoOtherJobGoes(w, step, env);
    }
  }

  lemma NoOtherJobGoes(w: World, step: Step, env: Env)
    requires Enabled(w, step, env) && !step.ContinueSweep?
    ensures w.base.store.jobs.Keys <= After(w, step, env).base.store.jobs.Keys
  {
    if step.ContinueCall? {
      CallKeepsJobs(w.base.store, w.calls[step.c], env);
    } else if step.ContinueAttempt? {
      AttemptKeepsJobs(w.base.store, w.queue[step.q].payload, w.queue[step.q].state.pc, env);
    } else {
      OtherStepsKeepJobs(w, step, env);
    }
  }

  lemma SweepKeepsJobs(w: World, s: nat, env: Env, j: Id)
    requires SweepActive(w, s) && j in w.base.store.jobs
    requires w.base.store.jobs[j].fileId in AfterSweep(w, s, env).base.store.files
    ensures j in AfterSweep(w, s, env).base.store.jobs
  {
    EffectKeepsJob(w.base.store, Sweeps.Next(w.sweeps[s], env).effect, j);
  }

  lemma EffectKeepsJob(s: Store, e: Effect, j: Id)
    requires j in s.jobs && s.jobs[j].fileId in Apply(s, e).files
    ensures j in Apply(s, e).jobs
  {}

  lemma CallKeepsJobs(s: Store, call: Call, env: Env)
    ensures s.jobs.Keys <= Apply(s, Calls.Next(s, call, env).effect).jobs.Keys
  {}

  lemma AttemptKeepsJobs(s: Store, p: Payload, pc: Pc, env: Env)
    ensures s.jobs.Keys <= Apply(s, Attempt.Next(s, p, pc, env).effect).jobs.Keys
  {}

  lemma OtherStepsKeepJobs(w: World, step: Step, env: Env)
    requires Enabled(w, step, env) && !step.ContinueSweep? && !step.ContinueCall? && !step.ContinueAttempt?
    ensures w.base.store.jobs.Keys <= After(w, step, env).base.store.jobs.Keys
  {}

  lemma StepKeepsHolder(w: World, step: Step, env: Env, j: Id, f: Id)
    requires Invariant(w) && Enabled(w, step, env) && Holds(w, j, f) && f in w.base.issued
    ensures Holds(After(w, step, env), j, f)
  {
    StepKeepsInvariant(w, step, env);
    StepKeepsSettled(w, step, env, j, Active);
    if f in After(w, step, env).base.store.files {
      JobStaysWithFile(w, step, env, j);
    }
  }

  lemma NothingNewAhead(w: World, step: Step, env: Env, f: Id, holder: Option<Id>)
    requires Safe(w, f, holder) && Enabled(w, step, env)
    ensures !RemovalAhead(After(w, step, env), f)
  {
    if step.ContinueSweep? {
      SweepAddsNothing(w, step.s, env, f);
    } else if step.StartPendingSweep? || step.StartGuestSweep? {
      NewSweepSpares(w, step, env, f, holder);
    } else {
      OtherStepsLeaveSweeps(w, step, env);
    }
  }

  lemma StepKeepsSafe(w: World, step: Step, env: Env, f: Id, holder: Option<Id>)
    requires Invariant(w) && Safe(w, f, holder) && Enabled(w, step, env)
    ensures Safe(After(w, step, env), f, holder)
  {
    StepKeepsInvariant(w, step, env);
    NothingNewAhead(w, step, env, f, holder);
    if holder.Some? {
      StepKeepsHolder(w, step, env, holder.value, f);
    }
    if f in w.base.store.files && w.base.store.files[f].status == Ready {
      StepKeepsObject(w, step, env, f);
    }
  }

  lemma {:induction false} RunKeepsSafe(w: World, run: Run, f: Id, holder: Option<Id>)
    requires Invariant(w) && Safe(w, f, holder) && ValidRun(w, run)
    ensures Safe(End(w, run), f, holder)
    decreases |run|
  {
    if run != [] {
      StepKeepsInvariant(w, run[0].0, run[0].1);
      StepKeepsSafe(w, run[0].0, run[0].1, f, holder);
      RunKeepsSafe(After(w, run[0].0, run[0].1), run[1..], f, holder);
    }
  }

  // ---- A removal ahead can take place ----------------------------------------

  ghost predicate SweepsDistinct(w: World) {
    forall s | 0 <= s < |w.sweeps| :: Distinct(w.sweeps[s].remaining)
  }

  lemma StepKeepsDistinct(w: World, step: Step, env: Env)
    requires SweepsDistinct(w) && Enabled(w, step, env)
    ensures SweepsDistinct(After(w, step, env))
  {
    if !step.ContinueSweep? && !step.StartPendingSweep? && !step.StartGuestSweep? {
      OtherStepsLeaveSweeps(w, step, env);
    }
  }

  lemma {:induction false} RunKeepsDistinct(w: World, run: Run)
    requires SweepsDistinct(w) && ValidRun(w, run)
    ensures SweepsDistinct(End(w, run))
    decreases |run|
  {
    if run != [] {
      StepKeepsDistinct(w, run[0].0, run[0].1);
      RunKeepsDistinct(After(w, run[0].0, run[0].1), run[1..]);
    }
  }

  ghost predicate CanLose(w: World, f: Id) {
    exists run: Run ::
      && ValidRun(w, run) && IsReady(End(w, run), f)
      && !HasObject(End(w, run).base.store, End(w, run).base.store.files[f])
  }

  lemma StepTowardsLoss(w: World, step: Step, env: Env, f: Id)
    requires Enabled(w, step, env) && CanLose(After(w, step, env), f)
    ensures CanLose(w, f)
  {
    var w' := After(w, step, env);
    var rest: Run :| ValidRun(w', rest) && IsReady(End(w', rest), f)
                     && !HasObject(End(w', rest).base.store, End(w', rest).base.store.files[f]);
    var run: Run := [(step, env)] + rest;
    assert run[0] == (step, env) && run[1..] == rest;
    assert ValidRun(w, run) && End(w, run) == End(w', rest);
  }

  lemma LostAlready(w: World, f: Id)
    requires IsReady(w, f) && !HasObject(w.base.store, w.base.store.files[f])
    ensures CanLose(w, f)
  {
    var none: Run := [];
    assert ValidRun(w, none) && End(w, none) == w;
  }

  /** One more await of the sweep that succeeds: `f` is lost, or comes nearer. */
  lemma SweepComesNearer(w: World, s: nat, i: nat, f: Id)
    requires Invariant(w) && SweepsDistinct(w) && IsReady(w, f)
    requires s < |w.sweeps| && AheadIn(w.sweeps[s], i, f)
    ensures var w' := AfterSweep(w, s, WILLING);
            && IsReady(w', f)
            && (if i == 0 then !HasObject(w'.base.store, w'.base.store.files[f])
                else AheadIn(w'.sweeps[s], if w.sweeps[s].cut then i - 1 else i, f) && w'.sweeps[s].cut == !w.sweeps[s].cut)
  {
    if w.sweeps[s].cut {
      RowIsPassed(w, s, i, f);
    }
  }

  lemma RowIsPassed(w: World, s: nat, i: nat, f: Id)
    requires SweepsDistinct(w) && IsReady(w, f)
    requires s < |w.sweeps| && AheadIn(w.sweeps[s], i, f) && w.sweeps[s].cut
    ensures var w' := AfterSweep(w, s, WILLING);
            IsReady(w', f) && AheadIn(w'.sweeps[s], i - 1, f) && !w'.sweeps[s].cut
  {
    var sweep := w.sweeps[s];
    assert sweep.remaining[0].fileId != f;
    OtherRowsStay(w.base.store, DeleteRow(sweep.guest, sweep.remaining[0], 0), f);
  }

  lemma OtherRowsStay(s: Store, e: Effect, f: Id)
    requires (e.SoftDelete? || e.HardDelete?) && e.fileId != f && f in s.files
    ensures f in Apply(s, e).files && Apply(s, e).files[f] == s.files[f]
  {}

  /** Let the sweep go on, every call succeeding, until it gets to the object of `f`. */
  lemma {:induction false} SweepGetsThere(w: World, s: nat, i: nat, f: Id)
    requires Invariant(w) && SweepsDistinct(w) && IsReady(w, f)
    requires s < |w.sweeps| && AheadIn(w.sweeps[s], i, f)
    ensures CanLose(w, f)
    decreases i, !w.sweeps[s].cut
  {
    var step := ContinueSweep(s);
    SweepComesNearer(w, s, i, f);
    if i == 0 {
      LostAlready(After(w, step, WILLING), f);
    } else {
      StepKeepsInvariant(w, step, WILLING);
      StepKeepsDistinct(w, step, WILLING);
      SweepGetsThere(After(w, step, WILLING), s, if w.sweeps[s].cut then i - 1 else i, f);
    }
    StepTowardsLoss(w, step, WILLING, f);
  }

  lemma RunTowardsLoss(w: World, run: Run, f: Id)
    requires ValidRun(w, run) && CanLose(End(w, run), f)
    ensures CanLose(w, f)
  {
    var w' := End(w, run);
    var rest: Run :| ValidRun(w', rest) && IsReady(End(w', rest), f)
                     && !HasObject(End(w', rest).base.store, End(w', rest).base.store.files[f]);
    RunsConcatenate(w, run, rest);
    assert ValidRun(w, run + rest);
  }

  // ---- A guest's file that no stuck job holds can be swept --------------------

  /** The pending and active jobs that work on `f`. */
  function JobsOn(s: Store, f: Id): set<Id> {
    set j | j in s.jobs && s.jobs[j].fileId == f && s.jobs[j].status in {JobStatus.Pending, Active}
  }

  /** A job on `f` is active and never going to be anything else. */
  ghost predicate HeldByStuckJob(w: World, f: Id) {
    exists j | j in w.base.store.jobs ::
      w.base.store.jobs[j].fileId == f && w.base.store.jobs[j].status == Active && DoneWith(w, j)
  }

  lemma OthersStayUnstuck(w: World, w': World, j: Id, f: Id)
    requires OnlyEnds(w, w', j) && !HeldByStuckJob(w, f)
    ensures !HeldByStuckJob(w', f)
  {
    forall i | i in w'.base.store.jobs && w'.base.store.jobs[i].fileId == f && w'.base.store.jobs[i].status == Active
      ensures !DoneWith(w', i)
    {
      assert i != j && w'.base.store.jobs[i] == w.base.store.jobs[i];
      assert !DoneWith(w, i);
      if !HandlerOutstanding(w, i) {
        var q :| 0 <= q < |w.queue| && w.queue[q].payload.jobId == i && !Concluded(w.queue[q]);
        assert w'.queue[q] == w.queue[q];
      }
    }
  }

  lemma OneFewerOn(w: World, w': World, j: Id, f: Id)
    requires OnlyEnds(w, w', j)
    ensures JobsOn(w'.base.store, f) == JobsOn(w.base.store, f) - {j}
  {}

  lemma JobIsEnded(w: World, f: Id, j: Id) returns (run: Run)
    requires Invariant(w) && !HeldByStuckJob(w, f) && j in JobsOn(w.base.store, f)
    ensures ValidRun(w, run)
    ensures var w' := End(w, run);
            && Invariant(w') && !HeldByStuckJob(w', f) && w'.sweeps == w.sweeps
            && JobsOn(w'.base.store, f) == JobsOn(w.base.store, f) - {j}
            && w'.base.store.files == w.base.store.files && w'.base.store.users == w.base.store.users
  {
    if w.base.store.jobs[j].status == Active {
      run := ActiveEnds(w, j);
    } else {
      run := PendingEnds(w, j);
    }
    RunKeepsInvariant(w, run);
    OthersStayUnstuck(w, End(w, run), j, f);
    OneFewerOn(w, End(w, run), j, f);
  }

  /** One job after the other is ended, until none uses the file. */
  lemma {:induction false} FileIsFreed(w: World, f: Id) returns (run: Run)
    requires Invariant(w) && !HeldByStuckJob(w, f)
    ensures ValidRun(w, run)
    ensures var w' := End(w, run);
            && JobsOn(w'.base.store, f) == {} && w'.sweeps == w.sweeps
            && w'.base.store.files == w.base.store.files && w'.base.store.users == w.base.store.users
    decreases JobsOn(w.base.store, f)
  {
    if JobsOn(w.base.store, f) == {} {
      run := [];
    } else {
      var j :| j in JobsOn(w.base.store, f);
      var first := JobIsEnded(w, f, j);
      var rest := FileIsFreed(End(w, first), f);
      RunsConcatenate(w, first, rest);
      run := first + rest;
    }
  }

  lemma {:induction false} CanBeListed(ids: set<Id>) returns (order: seq<Id>)
    ensures Lists(order, ids)
  {
    if ids == {} {
      order := [];
    } else {
      var id :| id in ids;
      var rest := CanBeListed(ids - {id});
      order := rest + [id];
    }
  }

  /** A guest sweep that starts now fetches the file. */
  lemma FreeFileIsFetched(w: World, f: Id)
    requires Invariant(w) && SweepsDistinct(w) && IsReady(w, f)
    requires w.base.store.files[f].userId !in w.base.store.users && JobsOn(w.base.store, f) == {}
    ensures CanLose(w, f)
  {
    var before := w.base.store.files[f].updatedAt + 1;
    forall j | j in w.base.store.jobs && w.base.store.jobs[j].fileId == f
      ensures w.base.store.jobs[j].status !in {JobStatus.Pending, Active}
    {
      assert j !in JobsOn(w.base.store, f);
    }
    assert !InUse(w.base.store, f) && f in ExpiredGuestFiles(w.base.store, before);
    var order := CanBeListed(ExpiredGuestFiles(w.base.store, before));
    var step := StartGuestSweep(order, before);
    var i :| 0 <= i < |order| && order[i] == f;
    var w' := After(w, step, WILLING);
    StepKeepsInvariant(w, step, WILLING);
    StepKeepsDistinct(w, step, WILLING);
    assert AheadIn(w'.sweeps[|w.sweeps|], i, f);
    SweepGetsThere(w', |w.sweeps|, i, f);
    StepTowardsLoss(w, step, WILLING, f);
  }

  lemma GuestFileCanBeLost(w: World, f: Id)
    requires Invariant(w) && SweepsDistinct(w) && IsReady(w, f)
    requires w.base.store.files[f].userId !in w.base.store.users && !HeldByStuckJob(w, f)
    ensures CanLose(w, f)
  {
    var run := FileIsFreed(w, f);
    RunKeepsInvariant(w, run);
    RunKeepsDistinct(w, run);
    FreeFileIsFetched(End(w, run), f);
    RunTowardsLoss(w, run, f);
  }

  // ---- Exactly ---------------------------------------------------------------

  lemma SpareFileIsKept(w: World, f: Id, holder: Option<Id>)
    requires Invariant(w) && Safe(w, f, holder)
    ensures KeepsObject(w, f)
  {
    forall run: Run | ValidRun(w, run) ensures Safe(End(w, run), f, holder) {
      RunKeepsSafe(w, run, f, holder);
    }
  }

  lemma ReachableSweepsAreDistinct(w: World)
    requires Reachable(w)
    ensures SweepsDistinct(w)
  {
    var run: Run :| ValidRun(INITIAL, run) && End(INITIAL, run) == w;
    RunKeepsDistinct(INITIAL, run);
  }

  /**
   A ready upload that has its object keeps it, for as long as it is ready, in every run
   exactly if no sweep already running has its removal ahead, and its owner is registered
   or a job on it is stuck active.
   */
  lemma ObjectIsKeptExactly(w: World, f: Id)
    requires Reachable(w) && IsReady(w, f)
    requires InUploadNamespace(w.base.store.files[f].storagePath) && HasObject(w.base.store, w.base.store.files[f])
    ensures KeepsObject(w, f)
            <==> !RemovalAhead(w, f) && (w.base.store.files[f].userId in w.base.store.users || HeldByStuckJob(w, f))
  {
    ReachableKeepsInvariant(w);
    ReachableSweepsAreDistinct(w);
    if RemovalAhead(w, f) {
      var s, i :| 0 <= s < |w.sweeps| && 0 <= i < |w.sweeps[s].remaining| && AheadIn(w.sweeps[s], i, f);
      SweepGetsThere(w, s, i, f);
    } else if w.base.store.files[f].userId in w.base.store.users {
      SpareFileIsKept(w, f, None);
    } else if HeldByStuckJob(w, f) {
      var j :| j in w.base.store.jobs && w.base.store.jobs[j].fileId == f
               && w.base.store.jobs[j].status == Active && DoneWith(w, j);
      QueuedIsNotBeingQueued(w, j);
      SpareFileIsKept(w, f, Some(j));
    } else {
      GuestFileCanBeLost(w, f);
    }
  }
}
