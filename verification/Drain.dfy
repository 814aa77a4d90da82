/**
 Draining the queue: with no new calls, the worker's attempts, retries and `failed`
 handlers come to an end, and they do not stop before everything is settled.
 */
module Drain {
  import opened Basics
  import opened Store
  import opened Environment
  import opened Attempt
  import opened Machine
  import opened ProcessInvariant
  import opened Guarantees

  predicate IsWorkerStep(step: Step) {
    step.StartAttempt? || step.ContinueAttempt? || step.SettleAttempt? || step.ContinueHandler?
  }

  // ---- The work left ---------------------------------------------------------

  /** Starting an attempt and its 23 awaits, settling it, and two steps to handle its failure. */
  const ATTEMPT_WORK := 27

  function AttemptsLeft(entry: Entry): nat {
    if entry.attempts < MAX_ATTEMPTS then MAX_ATTEMPTS - entry.attempts else 0
  }

  function EntryWork(entry: Entry): nat {
    match entry.state
    case Waiting => ATTEMPT_WORK * AttemptsLeft(entry)
    case Running(pc) => ATTEMPT_WORK * AttemptsLeft(entry) + Rank(pc)
    case Finished(_) => 0
  }

  function QueueWork(queue: seq<Entry>): nat {
    if queue == [] then 0 else EntryWork(queue[0]) + QueueWork(queue[1..])
  }

  function HandlerWork(handler: Handler): nat {
    match handler.pc
    case WritingFailed => 2
    case PublishingFailed => 1
    case HandlerDone => 0
  }

  function HandlersWork(handlers: seq<Handler>): nat {
    if handlers == [] then 0 else HandlerWork(handlers[0]) + HandlersWork(handlers[1..])
  }

  function Work(w: World): nat {
    QueueWork(w.queue) + HandlersWork(w.handlers)
  }

  lemma {:induction false} UpdatedQueueWork(queue: seq<Entry>, q: nat, entry: Entry)
    requires q < |queue|
    ensures QueueWork(queue[q := entry]) + EntryWork(queue[q]) == QueueWork(queue) + EntryWork(entry)
  {
    var updated := queue[q := entry];
    if q == 0 {
      assert updated[1..] == queue[1..];
    } else {
      assert updated[1..] == queue[1..][q - 1 := entry];
      UpdatedQueueWork(queue[1..], q - 1, entry);
    }
  }

  lemma {:induction false} UpdatedHandlersWork(handlers: seq<Handler>, h: nat, handler: Handler)
    requires h < |handlers|
    ensures HandlersWork(handlers[h := handler]) + HandlerWork(handlers[h]) == HandlersWork(handlers) + HandlerWork(handler)
  {
    var updated := handlers[h := handler];
    if h == 0 {
      assert updated[1..] == handlers[1..];
    } else {
      assert updated[1..] == handlers[1..][h - 1 := handler];
      UpdatedHandlersWork(handlers[1..], h - 1, handler);
    }
  }

  lemma {:induction false} AppendedHandlersWork(handlers: seq<Handler>, handler: Handler)
    ensures HandlersWork(handlers + [handler]) == HandlersWork(handlers) + HandlerWork(handler)
  {
    if handlers != [] {
      assert (handlers + [handler])[1..] == handlers[1..] + [handler];
      AppendedHandlersWork(handlers[1..], handler);
    }
  }

  // ---- Termination -----------------------------------------------------------

  lemma StartReducesWork(w: World, q: nat)
    requires ControlOk(w) && CanStart(w, q)
    ensures Work(AfterStart(w, q)) < Work(w)
  {
    assert EntryOk(w.base, w.queue[q]);
    UpdatedQueueWork(w.queue, q, AfterStart(w, q).queue[q]);
  }

  lemma AttemptReducesWork(w: World, q: nat, env: Env)
    requires ControlOk(w) && CanContinue(w, q)
    ensures Work(AfterAttempt(w, q, env)) < Work(w)
  {
    assert EntryOk(w.base, w.queue[q]);
    RankDecreases(w.base.store, w.queue[q].payload, w.queue[q].state.pc, env);
    UpdatedQueueWork(w.queue, q, AfterAttempt(w, q, env).queue[q]);
  }

  lemma SettleReducesWork(w: World, q: nat)
    requires ControlOk(w) && CanSettle(w, q)
    ensures Work(AfterSettle(w, q)) < Work(w)
  {
    var w' := AfterSettle(w, q);
    assert EntryOk(w.base, w.queue[q]);
    UpdatedQueueWork(w.queue, q, w'.queue[q]);
    if w.queue[q].state.pc.Threw? {
      AppendedHandlersWork(w.handlers, w'.handlers[|w.handlers|]);
    }
  }

  lemma HandlerReducesWork(w: World, h: nat, env: Env)
    requires HandlerActive(w, h)
    ensures Work(AfterHandler(w, h, env)) < Work(w)
  {
    UpdatedHandlersWork(w.handlers, h, AfterHandler(w, h, env).handlers[h]);
  }

  lemma WorkerStepReducesWork(w: World, step: Step, env: Env)
    requires ControlOk(w) && Enabled(w, step, env) && IsWorkerStep(step)
    ensures Work(After(w, step, env)) < Work(w)
  {
    match step
    case ContinueHandler(h) => HandlerReducesWork(w, h, env);
    case StartAttempt(q) => StartReducesWork(w, q);
    case ContinueAttempt(q) => AttemptReducesWork(w, q, env);
    case SettleAttempt(q) => SettleReducesWork(w, q);
  }

  lemma {:induction false} WorkBoundsRun(w: World, run: Run)
    requires Invariant(w) && ValidRun(w, run)
    requires forall i | 0 <= i < |run| :: IsWorkerStep(run[i].0)
    ensures |run| <= Work(w)
    decreases |run|
  {
    if run != [] {
      StepKeepsInvariant(w, run[0].0, run[0].1);
      WorkerStepReducesWork(w, run[0].0, run[0].1);
      WorkBoundsRun(After(w, run[0].0, run[0].1), run[1..]);
    }
  }

  lemma {:induction false} QueueWorkBound(queue: seq<Entry>)
    requires forall q | 0 <= q < |queue| ::
               queue[q].state.Running? ==> 1 <= queue[q].attempts && Rank(queue[q].state.pc) <= ATTEMPT_WORK
    ensures QueueWork(queue) <= 3 * ATTEMPT_WORK * |queue|
  {
    if queue != [] {
      QueueWorkBound(queue[1..]);
    }
  }

  lemma {:induction false} HandlersWorkBound(handlers: seq<Handler>)
    ensures HandlersWork(handlers) <= 2 * |handlers|
  {
    if handlers != [] {
      HandlersWorkBound(handlers[1..]);
    }
  }

  lemma PartsAreFew(parts: set<Part>)
    ensures |parts| <= 3
  {
    forall x | x in parts ensures x in ALL_PARTS {
      assert x == BullProgress || x == RowProgress || x == PublishProgress;
    }
    SubsetCount(parts, ALL_PARTS);
    assert |ALL_PARTS| == 3;
  }

  /** However the attempts fail and are retried, the worker takes at most 81 steps a payload and 2 a handler. */
  lemma WorkerRunsTerminate(w: World, run: Run)
    requires Reachable(w) && ValidRun(w, run)
    requires forall i | 0 <= i < |run| :: IsWorkerStep(run[i].0)
    ensures |run| <= 81 * |w.queue| + 2 * |w.handlers|
  {
    ReachableKeepsInvariant(w);
    WorkBoundsRun(w, run);
    forall q | 0 <= q < |w.queue| && w.queue[q].state.Running?
      ensures 1 <= w.queue[q].attempts && Rank(w.queue[q].state.pc) <= ATTEMPT_WORK
    {
      assert EntryOk(w.base, w.queue[q]);
      if w.queue[q].state.pc.Report? {
        PartsAreFew(w.queue[q].state.pc.waiting);
      }
    }
    QueueWorkBound(w.queue);
    HandlersWorkBound(w.handlers);
  }

  // ---- Progress --------------------------------------------------------------

  predicate CanWork(w: World, step: Step, env: Env) {
    IsWorkerStep(step) && Enabled(w, step, env)
  }

  /** With nothing acknowledged an attempt needs no new id, so it can always go on. */
  lemma RefusedCallsDrawNothing(s: Store, p: Payload, pc: Pc, env: Env)
    requires env.outcome == Refused
    ensures Draws(Attempt.Next(s, p, pc, env).effect) == {}
  {}

  lemma IdleEntryIsFinished(w: World, q: nat)
    requires q < |w.queue|
    requires !CanStart(w, q) && !CanSettle(w, q) && !Enabled(w, ContinueAttempt(q), REFUSING)
    ensures w.queue[q].state.Finished?
  {
    if w.queue[q].state.Running? {
      RefusedCallsDrawNothing(w.base.store, w.queue[q].payload, w.queue[q].state.pc, REFUSING);
    }
  }

  /** The worker stops only when every payload is finished and every handler done. */
  lemma IdleWorkerHasDrained(w: World)
    requires Reachable(w)
    requires forall step, env :: !CanWork(w, step, env)
    ensures Quiescent(w)
    ensures forall h | 0 <= h < |w.handlers| :: w.handlers[h].pc == HandlerDone
  {
    forall q | 0 <= q < |w.queue| ensures w.queue[q].state.Finished? {
      assert !CanWork(w, StartAttempt(q), REFUSING) && !CanWork(w, SettleAttempt(q), REFUSING);
      assert !CanWork(w, ContinueAttempt(q), REFUSING);
      IdleEntryIsFinished(w, q);
    }
    forall h | 0 <= h < |w.handlers| ensures w.handlers[h].pc == HandlerDone {
      assert !CanWork(w, ContinueHandler(h), REFUSING);
    }
  }
}
