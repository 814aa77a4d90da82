/**
 The progress in a job's row while an attempt on it is at work: whatever earlier attempts,
 their late handlers and all other processes do, it is that of the attempt.
 */
module RowProgress {
  import opened Keys
  import opened Store
  import opened Environment
  import opened Attempt
  import opened Calls
  import opened Sweeps
  import opened Machine
  import opened ProcessInvariant
  import opened Guarantees
  import opened AttemptEvents
  import opened Outputs

  /** The progress with an attempt at `pc` that is not going to throw; its first await sets it to 0. */
  predicate ProgressAt(pc: Pc, progress: int) {
    match pc
    case MarkActive => true
    case AnnounceActive => progress == 0
    case ReadInput => progress == 0
    case FetchObject(_) => progress == 0
    case Report(Fetched(_), waiting, _) => progress == if Part.RowProgress in waiting then 0 else 33
    case Transform(_) => progress == 33
    case Report(Transformed(_, _), waiting, _) => progress == if Part.RowProgress in waiting then 33 else 66
    case PutOutput(_, _, _) => progress == 66
    case CreateOutput(_, _, _) => progress == 66
    case CompleteImage(_) => progress == 66
    case Work(i) => progress == 20 * i - 20
    case Report(Stage(i), waiting, _) => progress == if Part.RowProgress in waiting then 20 * i - 20 else 20 * i
    case CompleteDefault => progress == 100
    case Announce(_) => progress == 100
    case Returned(_) => progress == 100
    case Threw(_) => true
  }

  ghost predicate EntryShows(s: Store, entry: Entry) {
    entry.state.Running? && !Doomed(entry.state.pc) && entry.payload.jobId in s.jobs
    ==> ProgressAt(entry.state.pc, s.jobs[entry.payload.jobId].progress)
  }

  ghost predicate ProgressOk(w: World) {
    forall q | 0 <= q < |w.queue| :: EntryShows(w.base.store, w.queue[q])
  }

  // ---- One attempt ------------------------------------------------------------

  lemma StageProgress(i: nat)
    requires 1 <= i <= STAGES
    ensures RoundedProgress(i, STAGES) == 20 * i
  {}

  lemma ReportKeepsProgress(s: Store, p: Payload, pc: Pc, env: Env)
    requires pc.Report? && Fits(p, pc) && Ending(pc.waiting, env.part) in pc.waiting
    requires p.jobId in s.jobs && !Doomed(pc) && ProgressAt(pc, s.jobs[p.jobId].progress)
    ensures var m := Attempt.Next(s, p, pc, env);
            var jobs := Apply(s, m.effect).jobs;
            p.jobId in jobs && (!Doomed(m.pc) ==> ProgressAt(m.pc, jobs[p.jobId].progress))
  {
    if pc.milestone.Stage? {
      StageProgress(pc.milestone.i);
    }
  }

  lemma AttemptKeepsProgress(s: Store, p: Payload, pc: Pc, env: Env)
    requires Fits(p, pc) && !Ended(pc) && p.jobId in s.jobs
    requires !Doomed(pc) ==> ProgressAt(pc, s.jobs[p.jobId].progress)
    ensures var m := Attempt.Next(s, p, pc, env);
            var jobs := Apply(s, m.effect).jobs;
            p.jobId in jobs && (!Doomed(m.pc) ==> ProgressAt(m.pc, jobs[p.jobId].progress))
  {
    if Doomed(pc) {
      EndingWaits(pc.waiting, env.part);
      NextAnnounces(s, p, pc, env);
    } else if pc.Report? {
      EndingWaits(pc.waiting, env.part);
      ReportKeepsProgress(s, p, pc, env);
    }
  }

  // ---- The other processes ------------------------------------------------------

  /** The write leaves the progress of job `j` alone. */
  predicate Spares(e: Effect, j: Id) {
    && (e.UpdateProgress? ==> e.jobId != j)
    && (e.UpdateStatus? && e.jobId == j ==> e.extra.progress.None?)
    && (e.InsertJob? ==> e.jobId != j)
  }

  /** Job `j`, if it is still there, was there and showed the same progress. */
  predicate SameProgress(s: Store, s': Store, j: Id) {
    j in s'.jobs ==> j in s.jobs && s'.jobs[j].progress == s.jobs[j].progress
  }

  lemma EffectSpares(s: Store, e: Effect, j: Id)
    requires Spares(e, j)
    ensures SameProgress(s, Apply(s, e), j)
  {}

  lemma OtherAttemptSpares(s: Store, p: Payload, pc: Pc, env: Env, j: Id)
    requires p.jobId != j
    ensures Spares(Attempt.Next(s, p, pc, env).effect, j)
  {}

  lemma CallSpares(w: World, c: nat, env: Env, j: Id)
    requires Enabled(w, ContinueCall(c), env) && j in w.base.issued
    ensures Spares(Calls.Next(w.base.store, w.calls[c], env).effect, j)
  {
    var e := Calls.Next(w.base.store, w.calls[c], env).effect;
    assert e.InsertJob? ==> e.jobId in Draws(e);
  }

  lemma HandlerSpares(w: World, h: nat, env: Env, j: Id)
    requires HandlerActive(w, h)
    ensures SameProgress(w.base.store, AfterHandler(w, h, env).base.store, j)
  {}

  lemma OtherStepsSpare(w: World, step: Step, env: Env, q: nat)
    requires Invariant(w) && Enabled(w, step, env) && q < |w.queue| && step != ContinueAttempt(q)
    ensures SameProgress(w.base.store, After(w, step, env).base.store, w.queue[q].payload.jobId)
  {
    var j := w.queue[q].payload.jobId;
    assert EntryOk(w.base, w.queue[q]);
    if step.ContinueAttempt? {
      OtherAttemptSpares(w.base.store, w.queue[step.q].payload, w.queue[step.q].state.pc, env, j);
      EffectSpares(w.base.store, Attempt.Next(w.base.store, w.queue[step.q].payload, w.queue[step.q].state.pc, env).effect, j);
    } else if step.ContinueCall? {
      CallSpares(w, step.c, env, j);
      EffectSpares(w.base.store, Calls.Next(w.base.store, w.calls[step.c], env).effect, j);
    } else if step.ContinueHandler? {
      HandlerSpares(w, step.h, env, j);
    } else if step.ContinueSweep? {
      EffectSpares(w.base.store, Sweeps.Next(w.sweeps[step.s], env).effect, j);
    } else {
      OtherStepsLeaveJobs(w, step, env);
    }
  }

  // ---- Every reachable state ----------------------------------------------------

  lemma OwnAttemptShows(w: World, q: nat, env: Env)
    requires Invariant(w) && OutputsOk(w) && Enabled(w, ContinueAttempt(q), env) && EntryShows(w.base.store, w.queue[q])
    ensures EntryShows(AfterAttempt(w, q, env).base.store, AfterAttempt(w, q, env).queue[q])
  {
    var p, pc := w.queue[q].payload, w.queue[q].state.pc;
    assert Fits(p, pc);
    if p.jobId in w.base.store.jobs {
      AttemptKeepsProgress(w.base.store, p, pc, env);
    } else {
      AttemptAddsNoJob(w.base.store, p, pc, env);
    }
  }

  lemma AttemptAddsNoJob(s: Store, p: Payload, pc: Pc, env: Env)
    ensures Apply(s, Attempt.Next(s, p, pc, env).effect).jobs.Keys == s.jobs.Keys
  {}

  lemma StepKeepsProgress(w: World, step: Step, env: Env)
    requires Invariant(w) && OutputsOk(w) && ProgressOk(w) && Enabled(w, step, env)
    ensures ProgressOk(After(w, step, env))
  {
    var w' := After(w, step, env);
    forall q | 0 <= q < |w'.queue| ensures EntryShows(w'.base.store, w'.queue[q]) {
      if step == ContinueAttempt(q) {
        OwnAttemptShows(w, q, env);
      } else {
        OtherStepsMoveEntries(w, step, env, q);
        if q < |w.queue| {
          assert EntryShows(w.base.store, w.queue[q]);
          OtherStepsSpare(w, step, env, q);
        }
      }
    }
  }

  lemma {:induction false} RunKeepsProgress(w: World, run: Run)
    requires Invariant(w) && OutputsOk(w) && ProgressOk(w) && ValidRun(w, run)
    ensures ProgressOk(End(w, run))
    decreases |run|
  {
    if run != [] {
      StepKeepsInvariant(w, run[0].0, run[0].1);
      StepKeepsOutputs(w, run[0].0, run[0].1);
      StepKeepsProgress(w, run[0].0, run[0].1);
      RunKeepsProgress(After(w, run[0].0, run[0].1), run[1..]);
    }
  }

  /**
   In every reachable state the row of a job on which an attempt is at work, and not yet
   bound to throw, shows how far that attempt is: 0, 33 and 66 percent, or 20 for each
   stage, and 100 once completed.
   */
  lemma RowShowsTheAttempt(w: World, q: nat)
    requires Reachable(w) && q < |w.queue| && w.queue[q].state.Running? && !Doomed(w.queue[q].state.pc)
    requires w.queue[q].payload.jobId in w.base.store.jobs
    ensures ProgressAt(w.queue[q].state.pc, w.base.store.jobs[w.queue[q].payload.jobId].progress)
  {
    var run: Run :| ValidRun(INITIAL, run) && End(INITIAL, run) == w;
    InitialOutputs();
    RunKeepsProgress(INITIAL, run);
    assert EntryShows(w.base.store, w.queue[q]);
  }
}
