/** What a failed job says about its failure: what an attempt of it threw, in the row and in the message. */
module FailureTexts {
  import opened Keys
  import opened Messages
  import opened Store
  import opened Environment
  import opened Attempt
  import opened Calls
  import opened Sweeps
  import opened Machine
  import opened Announcements
  import opened Outputs
  import opened Solo

  /** What the attempts of job `j` that the step settles have thrown. */
  function ThrownBy(w: World, step: Step, j: Id): set<string> {
    match step
    case SettleAttempt(q) =>
      if q < |w.queue| && w.queue[q].payload.jobId == j && w.queue[q].state.Running? && w.queue[q].state.pc.Threw?
      then {w.queue[q].state.pc.message} else {}
    case _ => {}
  }

  function ThrownIn(w: World, run: Run, j: Id): set<string>
    requires ValidRun(w, run)
    decreases |run|
  {
    if run == [] then {}
    else ThrownBy(w, run[0].0, j) + ThrownIn(After(w, run[0].0, run[0].1), run[1..], j)
  }

  predicate RowSays(s: Store, j: Id, thrown: set<string>) {
    j in s.jobs && s.jobs[j].errorMessage.Some? ==> s.jobs[j].errorMessage.value in thrown + {"Cancelled by user"}
  }

  ghost predicate HandlersSay(w: World, j: Id, thrown: set<string>) {
    forall h | 0 <= h < |w.handlers| && w.handlers[h].jobId == j :: w.handlers[h].message in thrown
  }

  ghost predicate MessagesSay(messages: seq<Message>, j: Id, thrown: set<string>) {
    forall i | 0 <= i < |messages| && IsFailure(messages[i], j) :: messages[i].body.fields["error"].s in thrown
  }

  ghost predicate AllSay(w: World, j: Id, thrown: set<string>) {
    RowSays(w.base.store, j, thrown) && HandlersSay(w, j, thrown) && MessagesSay(w.base.store.published, j, thrown)
  }

  // ---- Rows -------------------------------------------------------------------

  /** The write gives job `j` no error text but one of `thrown`. */
  predicate Says(e: Effect, j: Id, thrown: set<string>) {
    && (e.UpdateStatus? && e.jobId == j && e.extra.errorMessage.Some? ==> e.extra.errorMessage.value in thrown)
    && (e.InsertJob? ==> e.job.errorMessage.None?)
  }

  lemma EffectKeepsRow(s: Store, e: Effect, j: Id, thrown: set<string>)
    requires RowSays(s, j, thrown) && Says(e, j, thrown)
    ensures RowSays(Apply(s, e), j, thrown)
  {}

  lemma AttemptSays(s: Store, p: Payload, pc: Pc, env: Env, j: Id, thrown: set<string>)
    ensures Says(Attempt.Next(s, p, pc, env).effect, j, thrown)
  {}

  lemma CallSays(s: Store, call: Call, env: Env, j: Id, thrown: set<string>)
    ensures Says(Calls.Next(s, call, env).effect, j, thrown)
  {}

  lemma HandlerKeepsRow(w: World, h: nat, env: Env, j: Id, thrown: set<string>)
    requires HandlerActive(w, h) && RowSays(w.base.store, j, thrown) && HandlersSay(w, j, thrown)
    ensures RowSays(AfterHandler(w, h, env).base.store, j, thrown)
  {}

  lemma StepKeepsRow(w: World, step: Step, env: Env, j: Id, thrown: set<string>)
    requires Enabled(w, step, env) && RowSays(w.base.store, j, thrown) && HandlersSay(w, j, thrown)
    ensures RowSays(After(w, step, env).base.store, j, thrown)
  {
    if step.ContinueAttempt? {
      var p, pc := w.queue[step.q].payload, w.queue[step.q].state.pc;
      AttemptSays(w.base.store, p, pc, env, j, thrown);
      EffectKeepsRow(w.base.store, Attempt.Next(w.base.store, p, pc, env).effect, j, thrown);
    } else if step.ContinueCall? {
      CallSays(w.base.store, w.calls[step.c], env, j, thrown);
      EffectKeepsRow(w.base.store, Calls.Next(w.base.store, w.calls[step.c], env).effect, j, thrown);
    } else if step.ContinueHandler? {
      HandlerKeepsRow(w, step.h, env, j, thrown);
    } else if step.ContinueSweep? {
      EffectKeepsRow(w.base.store, Sweeps.Next(w.sweeps[step.s], env).effect, j, thrown);
    } else {
      OtherStepsLeaveJobs(w, step, env);
    }
  }

  // ---- Handlers and messages ----------------------------------------------------

  lemma StepKeepsHandlers(w: World, step: Step, env: Env, j: Id, thrown: set<string>)
    requires Enabled(w, step, env) && HandlersSay(w, j, thrown)
    ensures HandlersSay(After(w, step, env), j, thrown + ThrownBy(w, step, j))
  {
    if step.ContinueHandler? {
      HandlerKeepsTexts(w, step.h, env, j, thrown);
    } else if step.SettleAttempt? {
      SettleHandsOver(w, step.q);
    } else {
      HandlersUntouched(w, step, env);
    }
  }

  lemma HandlerKeepsTexts(w: World, h: nat, env: Env, j: Id, thrown: set<string>)
    requires HandlerActive(w, h) && HandlersSay(w, j, thrown)
    ensures HandlersSay(AfterHandler(w, h, env), j, thrown)
  {}

  /** What an attempt throws is handed to the listener as it is. */
  lemma SettleHandsOver(w: World, q: nat)
    requires CanSettle(w, q)
    ensures AfterSettle(w, q).handlers
            == w.handlers + match w.queue[q].state.pc
                            case Threw(message) => [Handler(w.queue[q].payload.jobId, message, WritingFailed)]
                            case _ => []
  {}

  lemma StepMessagesSay(w: World, step: Step, env: Env, j: Id, thrown: set<string>)
    requires Enabled(w, step, env) && HandlersSay(w, j, thrown)
    ensures MessagesSay(StepMessages(w, step, env), j, thrown)
  {
    match step
    case ContinueAttempt(q) =>
      AttemptsAnnounceNoFailure(w.base.store, w.queue[q].payload, w.queue[q].state.pc, env, j);
    case ContinueHandler(h) => FailureNamesItsJob(w.handlers[h].jobId, w.handlers[h].message, j);
    case _ =>
  }

  lemma StepKeepsSaying(w: World, step: Step, env: Env, j: Id, thrown: set<string>)
    requires Enabled(w, step, env) && AllSay(w, j, thrown)
    ensures AllSay(After(w, step, env), j, thrown + ThrownBy(w, step, j))
  {
    StepKeepsRow(w, step, env, j, thrown);
    StepKeepsHandlers(w, step, env, j, thrown);
    StepMessagesSay(w, step, env, j, thrown);
    StepPublishes(w, step, env);
  }

  lemma {:induction false} RunKeepsSaying(w: World, run: Run, j: Id, thrown: set<string>)
    requires ValidRun(w, run) && AllSay(w, j, thrown)
    ensures AllSay(End(w, run), j, thrown + ThrownIn(w, run, j))
    decreases |run|
  {
    if run == [] {
      assert thrown + ThrownIn(w, run, j) == thrown;
    } else {
      var now, w' := ThrownBy(w, run[0].0, j), After(w, run[0].0, run[0].1);
      StepKeepsSaying(w, run[0].0, run[0].1, j, thrown);
      RunKeepsSaying(w', run[1..], j, thrown + now);
      assert thrown + ThrownIn(w, run, j) == thrown + now + ThrownIn(w', run[1..], j);
    }
  }

  /**
   After any run the error text of a job is what one of its attempts threw, or that of a
   cancellation, and each `job:failed` message about it carries what one of them threw.
   */
  lemma FailuresSayWhatWasThrown(run: Run, j: Id)
    requires ValidRun(INITIAL, run)
    ensures var s := End(INITIAL, run).base.store;
            && RowSays(s, j, ThrownIn(INITIAL, run, j))
            && (forall i | 0 <= i < |s.published| && IsFailure(s.published[i], j) ::
                  s.published[i].body.fields["error"].s in ThrownIn(INITIAL, run, j))
  {
    RunKeepsSaying(INITIAL, run, j, {});
    assert {} + ThrownIn(INITIAL, run, j) == ThrownIn(INITIAL, run, j);
  }

  /** The listener's two awaits, taken by a handler of the machine, do what the listener does. */
  lemma HandlerIsListener(w: World, h: nat, write: Env, announce: Env)
    requires h < |w.handlers| && w.handlers[h].pc == WritingFailed
    ensures var w1 := AfterHandler(w, h, write);
            && w1.handlers[h].pc == (if write.outcome == Done then PublishingFailed else HandlerDone)
            && (if write.outcome == Done then AfterHandler(w1, h, announce) else w1).base.store
               == RunListener(w.base.store, w.handlers[h].jobId, w.handlers[h].message, write, announce)
  {}
}
