/**
 How often a failure is announced.  The type of the `job:failed` message promises one
 after the last retry; the worker's listener sends one for every attempt that throws.
 */
module FailureCount {
  import opened Keys
  import opened Messages
  import opened Environment
  import opened Attempt
  import opened Machine
  import opened ProcessInvariant
  import opened Retry
  import opened Guarantees
  import opened Announcements

  /** How many `job:failed` messages about `j` are in the log. */
  function FailuresIn(messages: seq<Message>, j: Id): nat {
    if messages == [] then 0
    else FailuresIn(messages[..|messages| - 1], j) + if IsFailure(messages[|messages| - 1], j) then 1 else 0
  }

  function IsUnderway(handler: Handler, j: Id): nat {
    if handler.jobId == j && handler.pc != HandlerDone then 1 else 0
  }

  /** How many failures of `j` the listener is still busy with. */
  function Underway(handlers: seq<Handler>, j: Id): nat {
    if handlers == [] then 0
    else IsUnderway(handlers[0], j) + Underway(handlers[1..], j)
  }

  /** How many attempts of the entry have thrown. */
  function Thrown(entry: Entry): int {
    match entry.state
    case Waiting => entry.attempts
    case Running(_) => entry.attempts - 1
    case Finished(ok) => if ok then entry.attempts - 1 else entry.attempts
  }

  function ThrownFor(queue: seq<Entry>, j: Id): int {
    if queue == [] then 0
    else (if queue[0].payload.jobId == j then Thrown(queue[0]) else 0) + ThrownFor(queue[1..], j)
  }

  /** The listener gives up on a failure of `j`: its write, or then its publication, fails. */
  predicate Drops(w: World, step: Step, env: Env, j: Id) {
    match step
    case ContinueHandler(h) =>
      && h < |w.handlers| && w.handlers[h].jobId == j
      && (if w.handlers[h].pc == WritingFailed then env.outcome != Done else env.outcome.Refused?)
    case _ => false
  }

  function DroppedIn(w: World, run: Run, j: Id): nat
    requires ValidRun(w, run)
    decreases |run|
  {
    if run == [] then 0
    else (if Drops(w, run[0].0, run[0].1, j) then 1 else 0) + DroppedIn(After(w, run[0].0, run[0].1), run[1..], j)
  }

  /** The failures of `j` not yet accounted for by an announcement or a handler at work. */
  function Balance(w: World, j: Id): int {
    ThrownFor(w.queue, j) - FailuresIn(w.base.store.published, j) - Underway(w.handlers, j)
  }

  // ---- Sums ------------------------------------------------------------------

  lemma {:induction false} UpdatedThrown(queue: seq<Entry>, q: nat, entry: Entry, j: Id)
    requires q < |queue| && entry.payload == queue[q].payload
    ensures ThrownFor(queue[q := entry], j)
            == ThrownFor(queue, j) + if entry.payload.jobId == j then Thrown(entry) - Thrown(queue[q]) else 0
  {
    var updated := queue[q := entry];
    if q == 0 {
      assert updated[1..] == queue[1..];
    } else {
      assert updated[1..] == queue[1..][q - 1 := entry];
      UpdatedThrown(queue[1..], q - 1, entry, j);
    }
  }

  lemma {:induction false} AppendedThrown(queue: seq<Entry>, entry: Entry, j: Id)
    requires Thrown(entry) == 0
    ensures ThrownFor(queue + [entry], j) == ThrownFor(queue, j)
  {
    if queue != [] {
      assert (queue + [entry])[1..] == queue[1..] + [entry];
      AppendedThrown(queue[1..], entry, j);
    }
  }

  lemma {:induction false} UpdatedUnderway(handlers: seq<Handler>, h: nat, handler: Handler, j: Id)
    requires h < |handlers|
    ensures Underway(handlers[h := handler], j) + IsUnderway(handlers[h], j) == Underway(handlers, j) + IsUnderway(handler, j)
  {
    var updated := handlers[h := handler];
    if h == 0 {
      assert updated[1..] == handlers[1..];
    } else {
      assert updated[1..] == handlers[1..][h - 1 := handler];
      UpdatedUnderway(handlers[1..], h - 1, handler, j);
    }
  }

  lemma {:induction false} AppendedUnderway(handlers: seq<Handler>, handler: Handler, j: Id)
    ensures Underway(handlers + [handler], j) == Underway(handlers, j) + IsUnderway(handler, j)
  {
    if handlers != [] {
      assert (handlers + [handler])[1..] == handlers[1..] + [handler];
      AppendedUnderway(handlers[1..], handler, j);
    }
  }

  lemma AppendedFailure(messages: seq<Message>, m: Message, j: Id)
    ensures FailuresIn(messages + [m], j) == FailuresIn(messages, j) + if IsFailure(m, j) then 1 else 0
  {
    assert (messages + [m])[..|messages|] == messages;
  }

  // ---- Every step keeps the balance, but for what the listener drops ----------

  lemma AttemptKeepsBalance(w: World, q: nat, env: Env, j: Id)
    requires CanContinue(w, q)
    ensures Balance(AfterAttempt(w, q, env), j) == Balance(w, j)
  {
    var p, pc := w.queue[q].payload, w.queue[q].state.pc;
    var e := Attempt.Next(w.base.store, p, pc, env).effect;
    EffectPublishes(w.base.store, e);
    UpdatedThrown(w.queue, q, AfterAttempt(w, q, env).queue[q], j);
    AttemptsAnnounceNoFailure(w.base.store, p, pc, env, j);
    if e.Publish? {
      AppendedFailure(w.base.store.published, e.message, j);
    }
  }

  lemma SettleKeepsBalance(w: World, q: nat, j: Id)
    requires CanSettle(w, q)
    ensures Balance(AfterSettle(w, q), j) == Balance(w, j)
  {
    var w' := AfterSettle(w, q);
    UpdatedThrown(w.queue, q, w'.queue[q], j);
    if w.queue[q].state.pc.Threw? {
      AppendedUnderway(w.handlers, w'.handlers[|w.handlers|], j);
    }
  }

  lemma WritingPublishesNothing(w: World, h: nat, env: Env)
    requires HandlerActive(w, h) && w.handlers[h].pc == WritingFailed
    ensures AfterHandler(w, h, env).base.store.published == w.base.store.published
  {}

  lemma PublishingAnnounces(w: World, h: nat, env: Env, j: Id)
    requires HandlerActive(w, h) && w.handlers[h].pc == PublishingFailed
    ensures FailuresIn(AfterHandler(w, h, env).base.store.published, j)
            == FailuresIn(w.base.store.published, j) + if w.handlers[h].jobId == j && env.outcome.Landed() then 1 else 0
  {
    var handler := w.handlers[h];
    FailureNamesItsJob(handler.jobId, handler.message, j);
    AppendedFailure(w.base.store.published, FailedMessage(handler.jobId, handler.message), j);
  }

  lemma HandlerMovesBalance(w: World, h: nat, env: Env, j: Id)
    requires HandlerActive(w, h)
    ensures Balance(AfterHandler(w, h, env), j) == Balance(w, j) + if Drops(w, ContinueHandler(h), env, j) then 1 else 0
  {
    UpdatedUnderway(w.handlers, h, AfterHandler(w, h, env).handlers[h], j);
    if w.handlers[h].pc == WritingFailed {
      WritingPublishesNothing(w, h, env);
    } else {
      PublishingAnnounces(w, h, env, j);
    }
  }

  lemma CallKeepsBalance(w: World, c: nat, env: Env, j: Id)
    requires InFlight(w, c)
    ensures Balance(AfterCall(w, c, env), j) == Balance(w, j)
  {
    EffectPublishes(w.base.store, Calls.Next(w.base.store, w.calls[c], env).effect);
    CallsPublishNothing(w.base.store, w.calls[c], env);
    if w.calls[c].Enqueuing? {
      AppendedThrown(w.queue, Entry(w.calls[c].payload, 0, Waiting), j);
    }
  }

  lemma StartKeepsBalance(w: World, q: nat, j: Id)
    requires CanStart(w, q)
    ensures Balance(AfterStart(w, q), j) == Balance(w, j)
  {
    UpdatedThrown(w.queue, q, AfterStart(w, q).queue[q], j);
  }

  lemma OtherStepKeepsBalance(w: World, step: Step, env: Env, j: Id)
    requires Enabled(w, step, env)
    requires !step.StartAttempt? && !step.ContinueAttempt? && !step.SettleAttempt? && !step.ContinueHandler? && !step.ContinueCall?
    ensures Balance(After(w, step, env), j) == Balance(w, j)
  {
    StepPublishes(w, step, env);
    IdleStepFrame(w, step, env);
  }

  lemma StepMovesBalance(w: World, step: Step, env: Env, j: Id)
    requires Enabled(w, step, env)
    ensures Balance(After(w, step, env), j) == Balance(w, j) + if Drops(w, step, env, j) then 1 else 0
  {
    if step.StartAttempt? {
      StartKeepsBalance(w, step.q, j);
    } else if step.ContinueAttempt? {
      AttemptKeepsBalance(w, step.q, env, j);
    } else if step.SettleAttempt? {
      SettleKeepsBalance(w, step.q, j);
    } else if step.ContinueHandler? {
      HandlerMovesBalance(w, step.h, env, j);
    } else if step.ContinueCall? {
      CallKeepsBalance(w, step.c, env, j);
    } else {
      OtherStepKeepsBalance(w, step, env, j);
    }
  }

  lemma {:induction false} RunMovesBalance(w: World, run: Run, j: Id)
    requires ValidRun(w, run)
    ensures Balance(End(w, run), j) == Balance(w, j) + DroppedIn(w, run, j)
    decreases |run|
  {
    if run != [] {
      StepMovesBalance(w, run[0].0, run[0].1, j);
      RunMovesBalance(After(w, run[0].0, run[0].1), run[1..], j);
    }
  }

  lemma {:induction false} OthersThrewNothing(queue: seq<Entry>, j: Id)
    requires forall r | 0 <= r < |queue| :: queue[r].payload.jobId != j
    ensures ThrownFor(queue, j) == 0
  {
    if queue != [] {
      OthersThrewNothing(queue[1..], j);
    }
  }

  lemma {:induction false} OneEntryPerJob(queue: seq<Entry>, q: nat)
    requires q < |queue| && forall r | 0 <= r < |queue| && r != q :: queue[r].payload.jobId != queue[q].payload.jobId
    ensures ThrownFor(queue, queue[q].payload.jobId) == Thrown(queue[q])
  {
    if q == 0 {
      OthersThrewNothing(queue[1..], queue[q].payload.jobId);
    } else {
      assert queue[1..][q - 1] == queue[q];
      OneEntryPerJob(queue[1..], q - 1);
    }
  }

  /**
   Over any run of the platform, every attempt of a job that threw has led to one
   `job:failed` message, or is still being handled, or was given up by the listener;
   so there are at most three such messages, one for each attempt.
   */
  lemma FailuresAreConserved(run: Run, q: nat)
    requires ValidRun(INITIAL, run) && q < |End(INITIAL, run).queue|
    ensures var w := End(INITIAL, run);
            var j := w.queue[q].payload.jobId;
            && Thrown(w.queue[q]) == FailuresIn(w.base.store.published, j) + Underway(w.handlers, j) + DroppedIn(INITIAL, run, j)
            && FailuresIn(w.base.store.published, j) <= MAX_ATTEMPTS
  {
    var w := End(INITIAL, run);
    assert Reachable(w);
    ReachableKeepsInvariant(w);
    assert EntryOk(w.base, w.queue[q]);
    RunMovesBalance(INITIAL, run, w.queue[q].payload.jobId);
    OneEntryPerJob(w.queue, q);
  }
}
