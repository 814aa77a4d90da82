/**
 Bringing a job to an end: a job that is pending or active can be failed by a few more
 steps that leave every other job alone, unless it is stuck.
 */
module JobEnding {
  import opened Keys
  import opened Store
  import opened Environment
  import opened Attempt
  import opened Calls
  import opened Machine
  import opened ProcessInvariant
  import opened Retry
  import opened Guarantees
  import opened Finality

  /** Between `w` and `w'` at most the entries and handlers of job `j` have moved. */
  ghost predicate OnlyWorked(w: World, w': World, j: Id) {
    && w'.sweeps == w.sweeps
    && |w'.queue| == |w.queue|
    && (forall q | 0 <= q < |w.queue| :: w'.queue[q].payload == w.queue[q].payload)
    && (forall q | 0 <= q < |w.queue| && w.queue[q].payload.jobId != j :: w'.queue[q] == w.queue[q])
    && (forall i | i != j :: HandlerOutstanding(w', i) == HandlerOutstanding(w, i))
  }

  ghost predicate OnlyEnds(w: World, w': World, j: Id) {
    && OnlyWorked(w, w', j)
    && j in w.base.store.jobs && j in w'.base.store.jobs
    && w'.base == w.base.(store := w.base.store.(jobs := w.base.store.jobs[j := w'.base.store.jobs[j]]))
    && w'.base.store.jobs[j].status == Failed && w'.base.store.jobs[j].fileId == w.base.store.jobs[j].fileId
  }

  /** A step on behalf of `j` that writes nothing, then the rest of a run that ends `j`. */
  lemma StepThenEnds(w: World, step: Step, env: Env, rest: Run, j: Id) returns (run: Run)
    requires Enabled(w, step, env) && ValidRun(After(w, step, env), rest)
    requires OnlyWorked(w, After(w, step, env), j) && After(w, step, env).base == w.base
    requires OnlyEnds(After(w, step, env), End(After(w, step, env), rest), j)
    ensures ValidRun(w, run) && OnlyEnds(w, End(w, run), j)
  {
    run := [(step, env)] + rest;
    assert run[1..] == rest;
  }

  lemma OneStepEnds(w: World, step: Step, env: Env, j: Id) returns (run: Run)
    requires Enabled(w, step, env) && OnlyEnds(w, After(w, step, env), j)
    ensures ValidRun(w, run) && OnlyEnds(w, End(w, run), j)
  {
    run := [(step, env)];
    var none: Run := [];
    assert run[1..] == none && ValidRun(After(w, step, env), none);
    assert End(After(w, step, env), none) == After(w, step, env);
  }

  // ---- Active jobs -----------------------------------------------------------

  lemma WritingEnds(w: World, j: Id) returns (run: Run)
    requires HandlerOutstanding(w, j) && j in w.base.store.jobs
    ensures ValidRun(w, run) && OnlyEnds(w, End(w, run), j)
  {
    var h :| 0 <= h < |w.handlers| && w.handlers[h].jobId == j && w.handlers[h].pc == WritingFailed;
    OthersStayOutstanding(w, h);
    run := OneStepEnds(w, ContinueHandler(h), WILLING, j);
  }

  lemma OthersStayOutstanding(w: World, h: nat)
    requires h < |w.handlers| && w.handlers[h].pc == WritingFailed
    ensures forall i | i != w.handlers[h].jobId ::
              HandlerOutstanding(AfterHandler(w, h, WILLING), i) == HandlerOutstanding(w, i)
  {
    var w' := AfterHandler(w, h, WILLING);
    forall i | i != w.handlers[h].jobId && HandlerOutstanding(w, i) ensures HandlerOutstanding(w', i) {
      var g :| 0 <= g < |w.handlers| && w.handlers[g].jobId == i && w.handlers[g].pc == WritingFailed;
      assert w'.handlers[g] == w.handlers[g];
    }
  }

  lemma ThrowingEnds(w: World, q: nat) returns (run: Run)
    requires CanSettle(w, q) && w.queue[q].state.pc.Threw? && w.queue[q].payload.jobId in w.base.store.jobs
    ensures ValidRun(w, run) && OnlyEnds(w, End(w, run), w.queue[q].payload.jobId)
  {
    var j := w.queue[q].payload.jobId;
    SettleMovesHandlers(w, q);
    var rest := WritingEnds(AfterSettle(w, q), j);
    run := StepThenEnds(w, SettleAttempt(q), WILLING, rest, j);
  }

  /** A refused call changes nothing and brings the attempt nearer to throwing. */
  lemma RefusalLeadsToThrow(s: Store, p: Payload, pc: Pc)
    requires !Ended(pc) && !PastCompletion(pc) && WaitingNonempty(pc)
    ensures var m := Attempt.Next(s, p, pc, REFUSING);
            && m.effect == NoEffect && !PastCompletion(m.pc) && WaitingNonempty(m.pc) && Rank(m.pc) < Rank(pc)
  {
    RankDecreases(s, p, pc, REFUSING);
  }

  lemma {:induction false} RunningEnds(w: World, q: nat) returns (run: Run)
    requires q < |w.queue| && w.queue[q].state.Running? && w.queue[q].payload.jobId in w.base.store.jobs
    requires !PastCompletion(w.queue[q].state.pc) && WaitingNonempty(w.queue[q].state.pc)
    ensures ValidRun(w, run) && OnlyEnds(w, End(w, run), w.queue[q].payload.jobId)
    decreases Rank(w.queue[q].state.pc)
  {
    if w.queue[q].state.pc.Threw? {
      run := ThrowingEnds(w, q);
    } else {
      RefusalLeadsToThrow(w.base.store, w.queue[q].payload, w.queue[q].state.pc);
      var w' := After(w, ContinueAttempt(q), REFUSING);
      assert forall i :: HandlerOutstanding(w', i) == HandlerOutstanding(w, i);
      var rest := RunningEnds(w', q);
      run := StepThenEnds(w, ContinueAttempt(q), REFUSING, rest, w.queue[q].payload.jobId);
    }
  }

  lemma WaitingEnds(w: World, q: nat) returns (run: Run)
    requires CanStart(w, q) && w.queue[q].payload.jobId in w.base.store.jobs
    ensures ValidRun(w, run) && OnlyEnds(w, End(w, run), w.queue[q].payload.jobId)
  {
    var w' := AfterStart(w, q);
    assert forall i :: HandlerOutstanding(w', i) == HandlerOutstanding(w, i);
    var rest := RunningEnds(w', q);
    run := StepThenEnds(w, StartAttempt(q), WILLING, rest, w.queue[q].payload.jobId);
  }

  /** An active job with an attempt to conclude or a failure to write can be failed. */
  lemma ActiveEnds(w: World, j: Id) returns (run: Run)
    requires Invariant(w) && j in w.base.store.jobs && w.base.store.jobs[j].status == Active && !DoneWith(w, j)
    ensures ValidRun(w, run) && OnlyEnds(w, End(w, run), j)
  {
    if HandlerOutstanding(w, j) {
      run := WritingEnds(w, j);
    } else {
      var q :| 0 <= q < |w.queue| && w.queue[q].payload.jobId == j && !Concluded(w.queue[q]);
      if w.queue[q].state.Waiting? {
        run := WaitingEnds(w, q);
      } else {
        assert StatusOk(w.base.store, w.queue[q].payload, w.queue[q].state.pc);
        assert EntryOk(w.base, w.queue[q]);
        run := RunningEnds(w, q);
      }
    }
  }

  ghost predicate StaysActive(w: World, j: Id) {
    forall run: Run | ValidRun(w, run) && j in End(w, run).base.store.jobs :: End(w, run).base.store.jobs[j].status == Active
  }

  /**
   An active job stays active in every run exactly if all its attempts have concluded and
   no failure of it is still to be written, whatever became of those that were.
   */
  lemma StuckExactlyWhenDone(w: World, j: Id)
    requires Reachable(w) && j in w.base.store.jobs && w.base.store.jobs[j].status == Active
    ensures StaysActive(w, j) <==> DoneWith(w, j)
  {
    ReachableKeepsInvariant(w);
    if DoneWith(w, j) {
      QueuedIsNotBeingQueued(w, j);
      forall run: Run | ValidRun(w, run) ensures Settled(End(w, run), j, Active) {
        RunKeepsSettled(w, run, j, Active);
      }
    } else {
      var run := ActiveEnds(w, j);
    }
  }

  // ---- Pending jobs ----------------------------------------------------------

  /** The owner of a pending job can cancel it. */
  lemma PendingEnds(w: World, j: Id) returns (run: Run)
    requires Invariant(w) && j in w.base.store.jobs && w.base.store.jobs[j].status == JobStatus.Pending
    ensures ValidRun(w, run) && OnlyEnds(w, End(w, run), j)
  {
    var u := w.base.store.jobs[j].userId;
    OwnerIsKnown(w, j);
    var w1 := After(w, StartCancel(u, j), WILLING);
    assert forall i :: HandlerOutstanding(w1, i) == HandlerOutstanding(w, i);
    var rest := CancellingEnds(w1, |w.calls|, j);
    run := StepThenEnds(w, StartCancel(u, j), WILLING, rest, j);
  }

  lemma CancellingEnds(w: World, c: nat, j: Id) returns (run: Run)
    requires j in w.base.store.jobs && w.base.store.jobs[j].status == JobStatus.Pending
    requires c < |w.calls| && w.calls[c] == Cancelling(w.base.store.jobs[j].userId, j)
    ensures ValidRun(w, run) && OnlyEnds(w, End(w, run), j)
  {
    var w' := After(w, ContinueCall(c), WILLING);
    assert forall i :: HandlerOutstanding(w', i) == HandlerOutstanding(w, i);
    run := OneStepEnds(w, ContinueCall(c), WILLING, j);
  }

  lemma OwnerIsKnown(w: World, j: Id)
    requires Invariant(w) && j in w.base.store.jobs
    ensures w.base.store.jobs[j].userId in w.base.principals
  {}
}
