/** What holds in every reachable state, and over every run, of the platform. */
module Guarantees {
  import opened Keys
  import opened Store
  import opened Environment
  import opened Calls
  import opened Machine
  import opened TableInvariant
  import opened ProcessInvariant
  import opened ControlSteps
  import opened StorageAgreement
  import opened Retry

  ghost predicate Invariant(w: World) {
    ControlOk(w) && StorageOk(w) && RetryOk(w)
  }

  ghost predicate Reachable(w: World) {
    exists run: Run :: ValidRun(INITIAL, run) && End(INITIAL, run) == w
  }

  lemma StepKeepsInvariant(w: World, step: Step, env: Env)
    requires Invariant(w) && Enabled(w, step, env)
    ensures Invariant(After(w, step, env)) && Grows(w.base, After(w, step, env).base)
  {
    StepKeepsControl(w, step, env);
    StepKeepsStorage(w, step, env);
    StepKeepsRetry(w, step, env);
  }

  lemma {:induction false} RunKeepsInvariant(w: World, run: Run)
    requires Invariant(w) && ValidRun(w, run)
    ensures Invariant(End(w, run))
    decreases |run|
  {
    if run != [] {
      StepKeepsInvariant(w, run[0].0, run[0].1);
      RunKeepsInvariant(After(w, run[0].0, run[0].1), run[1..]);
    }
  }

  lemma InitialInvariant()
    ensures Invariant(INITIAL)
  {}

  lemma ReachableKeepsInvariant(w: World)
    requires Reachable(w)
    ensures Invariant(w)
  {
    var run: Run :| ValidRun(INITIAL, run) && End(INITIAL, run) == w;
    InitialInvariant();
    RunKeepsInvariant(INITIAL, run);
  }

  lemma {:induction false} RunExtends(w: World, run: Run, step: Step, env: Env)
    requires ValidRun(w, run) && Enabled(End(w, run), step, env)
    ensures ValidRun(w, run + [(step, env)])
    ensures End(w, run + [(step, env)]) == After(End(w, run), step, env)
    decreases |run|
  {
    var longer := run + [(step, env)];
    if run == [] {
      assert longer[1..] == [];
    } else {
      assert longer[0] == run[0] && longer[1..] == run[1..] + [(step, env)];
      RunExtends(After(w, run[0].0, run[0].1), run[1..], step, env);
    }
  }

  lemma StepReaches(w: World, step: Step, env: Env)
    requires Reachable(w) && Enabled(w, step, env)
    ensures Reachable(After(w, step, env))
  {
    var run: Run :| ValidRun(INITIAL, run) && End(INITIAL, run) == w;
    RunExtends(INITIAL, run, step, env);
  }

  lemma {:induction false} RunsConcatenate(w: World, run: Run, more: Run)
    requires ValidRun(w, run) && ValidRun(End(w, run), more)
    ensures ValidRun(w, run + more) && End(w, run + more) == End(End(w, run), more)
    decreases |run|
  {
    var all := run + more;
    if run == [] {
      assert all == more;
    } else {
      assert all[0] == run[0] && all[1..] == run[1..] + more;
      RunsConcatenate(After(w, run[0].0, run[0].1), run[1..], more);
    }
  }

  lemma InitialIsReachable()
    ensures Reachable(INITIAL)
  {
    var run: Run := [];
    assert ValidRun(INITIAL, run) && End(INITIAL, run) == INITIAL;
  }

  // ---- Reachable states ------------------------------------------------------

  /**
   Every ready upload has an object of exactly the reserved size, but for a file whose
   object a sweep has removed and whose row it is about to delete, or failed to delete.
   */
  lemma ReadyUploadsHaveTheirObject(w: World, f: Id)
    requires Reachable(w)
    requires f in w.base.store.files && w.base.store.files[f].status == Ready
    requires InUploadNamespace(w.base.store.files[f].storagePath)
    ensures HasObject(w.base.store, w.base.store.files[f]) || (f in w.removed && (BeingCut(w, f) || f in w.abandoned))
  {
    ReachableKeepsInvariant(w);
    if !HasObject(w.base.store, w.base.store.files[f]) {
      assert Disagrees(w.base.store, f, Ready);
      assert Exempt(w, f);
    }
  }

  /** Each job belongs to the owner of its file, and its output is that owner's too. */
  lemma JobsReferToTheirOwnersFiles(w: World, j: Id)
    requires Reachable(w) && j in w.base.store.jobs
    ensures ReferencesOk(w.base.store, w.base.store.jobs[j])
  {
    ReachableKeepsInvariant(w);
  }

  lemma JobRowsAreConsistent(w: World, j: Id)
    requires Reachable(w) && j in w.base.store.jobs
    ensures JobRowOk(w.base.store.jobs[j])
  {
    ReachableKeepsInvariant(w);
  }

  lemma UploadKeysAreDistinct(w: World, f: Id, g: Id)
    requires Reachable(w) && f in w.base.store.files && g in w.base.store.files && f != g
    requires InUploadNamespace(w.base.store.files[f].storagePath)
    ensures w.base.store.files[f].storagePath != w.base.store.files[g].storagePath
  {
    ReachableKeepsInvariant(w);
    assert OwnsPath(w.base, f, w.base.store.files[f].storagePath);
  }

  lemma AttemptsAreBounded(w: World, q: nat)
    requires Reachable(w) && q < |w.queue|
    ensures w.queue[q].attempts <= 3
    ensures w.queue[q].state == Finished(false) ==> w.queue[q].attempts == 3
  {
    ReachableKeepsInvariant(w);
    assert EntryOk(w.base, w.queue[q]);
  }

  // ---- Quiescence ------------------------------------------------------------

  /** No attempt is running or still to come, and no failure is still to be written. */
  ghost predicate Quiescent(w: World) {
    && (forall q | 0 <= q < |w.queue| :: w.queue[q].state.Finished?)
    && (forall h | 0 <= h < |w.handlers| :: w.handlers[h].pc != WritingFailed)
  }

  /** A job none of whose attempts is running and whose failures were all written is not active. */
  lemma QuietMeansInactive(w: World, j: Id)
    requires Reachable(w) && j in w.base.store.jobs
    requires !RunningFor(w, j) && !HandlerOutstanding(w, j) && j !in w.lost
    ensures w.base.store.jobs[j].status != Active
  {
    ReachableKeepsInvariant(w);
  }

  /**
   Once a payload is finished and the failures of its job were written, each before the
   next attempt, the job is completed exactly if its last attempt returned, else failed;
   whatever the rest of the platform is doing.
   */
  lemma OutcomeFollowsLastAttempt(w: World, q: nat)
    requires Reachable(w) && q < |w.queue| && w.queue[q].state.Finished?
    requires var j := w.queue[q].payload.jobId;
             j in w.base.store.jobs && Prompt(w, j) && !HandlerOutstanding(w, j)
    ensures var status := w.base.store.jobs[w.queue[q].payload.jobId].status;
            && (status == Completed <==> w.queue[q].state == Finished(true))
            && (status == Failed <==> w.queue[q].state == Finished(false))
  {
    ReachableKeepsInvariant(w);
    assert EntrySettled(w, w.queue[q]);
  }

  /** A job that was never queued was never worked on either. */
  lemma UnqueuedJobsAreUntouched(w: World, j: Id)
    requires Reachable(w) && j in w.base.store.jobs
    requires forall q | 0 <= q < |w.queue| :: w.queue[q].payload.jobId != j
    ensures w.base.store.jobs[j].status in {JobStatus.Pending, Failed}
  {
    ReachableKeepsInvariant(w);
  }

  // ---- Runs ------------------------------------------------------------------

  ghost predicate FileHistory(s: Store, s': Store, f: Id) {
    if f in s.files
    then && (f in s'.files ==> FileFollows(s.files[f], s'.files[f]))
         && (s.files[f].userId in s.users ==> f in s'.files)
    else f !in s'.files
  }

  lemma {:induction false} RunKeepsFileHistory(w: World, run: Run, f: Id)
    requires Invariant(w) && ValidRun(w, run) && f in w.base.issued
    ensures FileHistory(w.base.store, End(w, run).base.store, f)
    decreases |run|
  {
    if run != [] {
      StepKeepsInvariant(w, run[0].0, run[0].1);
      RunKeepsFileHistory(After(w, run[0].0, run[0].1), run[1..], f);
    }
  }

  /**
   The life of a file over a run: it keeps its owner, name, type, size and key, and its
   status only moves from pending over ready to deleted; once gone it stays gone; and a
   registered user's file is never gone.
   */
  lemma FilesLiveForward(w: World, run: Run, f: Id)
    requires Reachable(w) && ValidRun(w, run) && f in w.base.issued
    ensures var s, s' := w.base.store, End(w, run).base.store;
            if f in s.files
            then && (f in s'.files ==> FileFollows(s.files[f], s'.files[f]))
                 && (s.files[f].userId in s.users ==> f in s'.files)
            else f !in s'.files
  {
    ReachableKeepsInvariant(w);
    RunKeepsFileHistory(w, run, f);
  }

  ghost predicate JobHistory(s: Store, s': Store, j: Id) {
    if j in s.jobs then j in s'.jobs ==> JobFollows(s.jobs[j], s'.jobs[j]) else j !in s'.jobs
  }

  lemma {:induction false} RunKeepsJobHistory(w: World, run: Run, j: Id)
    requires Invariant(w) && ValidRun(w, run) && j in w.base.issued
    ensures JobHistory(w.base.store, End(w, run).base.store, j)
    decreases |run|
  {
    if run != [] {
      StepKeepsInvariant(w, run[0].0, run[0].1);
      RunKeepsJobHistory(After(w, run[0].0, run[0].1), run[1..], j);
    }
  }

  /** A job keeps its file, owner and type over a run, and never returns to pending. */
  lemma JobsLiveForward(w: World, run: Run, j: Id)
    requires Reachable(w) && ValidRun(w, run) && j in w.base.issued
    ensures var s, s' := w.base.store, End(w, run).base.store;
            if j in s.jobs then j in s'.jobs ==> JobFollows(s.jobs[j], s'.jobs[j]) else j !in s'.jobs
  {
    ReachableKeepsInvariant(w);
    RunKeepsJobHistory(w, run, j);
  }

  predicate ConfirmedBy(w: World, step: Step, env: Env, f: Id)
    requires Enabled(w, step, env)
  {
    var w' := After(w, step, env);
    && f in w.base.store.files && w.base.store.files[f].status == FileStatus.Pending
    && f in w'.base.store.files && w'.base.store.files[f].status == Ready
  }

  /** How many steps of a run turn file `f` from pending to ready. */
  function Confirmations(w: World, run: Run, f: Id): nat
    requires ValidRun(w, run)
    decreases |run|
  {
    if run == [] then 0
    else (if ConfirmedBy(w, run[0].0, run[0].1, f) then 1 else 0)
         + Confirmations(After(w, run[0].0, run[0].1), run[1..], f)
  }

  lemma {:induction false} RunConfirmsAtMostOnce(w: World, run: Run, f: Id)
    requires Invariant(w) && ValidRun(w, run)
    ensures Confirmations(w, run, f) <= 1
    ensures f in w.base.issued && (f in w.base.store.files ==> w.base.store.files[f].status != FileStatus.Pending)
            ==> Confirmations(w, run, f) == 0
    decreases |run|
  {
    if run != [] {
      StepKeepsInvariant(w, run[0].0, run[0].1);
      RunConfirmsAtMostOnce(After(w, run[0].0, run[0].1), run[1..], f);
    }
  }

  /** However many confirmations race, at most one of them makes the file ready. */
  lemma ConfirmedAtMostOnce(run: Run, f: Id)
    requires ValidRun(INITIAL, run)
    ensures Confirmations(INITIAL, run, f) <= 1
  {
    RunConfirmsAtMostOnce(INITIAL, run, f);
  }

  /** A confirmation is told of success exactly if it is the one that makes the file ready; the others are refused. */
  lemma OneConfirmationIsAccepted(w: World, c: nat, env: Env)
    requires Enabled(w, ContinueCall(c), env) && w.calls[c].Marking? && env.outcome == Done
    ensures AfterCall(w, c, env).calls[c]
            == if w.calls[c].fileId in w.base.store.files && w.base.store.files[w.calls[c].fileId].userId == w.calls[c].userId
                  && ConfirmedBy(w, ContinueCall(c), env, w.calls[c].fileId)
               then Replied(Accepted) else Replied(Rejected("FILE_NOT_PENDING"))
  {}

  /** In any step, a file row disappears only if its owner is not a registered user. */
  lemma OnlyGuestFilesDisappear(w: World, step: Step, env: Env, f: Id)
    requires Reachable(w) && Enabled(w, step, env)
    requires f in w.base.store.files
    ensures var w' := After(w, step, env);
            || f in w'.base.store.files
            || (w.base.store.files[f].userId !in w.base.store.users && w.base.store.files[f].userId !in w'.base.store.users)
  {
    ReachableKeepsInvariant(w);
    StepKeepsInvariant(w, step, env);
  }
}
