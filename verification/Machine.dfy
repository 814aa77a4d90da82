/**
 The whole platform as a step machine: API calls, browser uploads, worker attempts with
 retry, `failed` handlers and cleanup sweeps, interleaved at every await.
 */
module Machine {
  import opened Wrappers
  import opened Keys
  import opened Messages
  import opened Store
  import opened Environment
  import opened Attempt
  import opened Calls
  import opened Sweeps

  /** A signed upload form: exactly this key, exactly this many bytes. */
  datatype Policy = Policy(key: string, size: nat)

  datatype RunState = Waiting | Running(pc: Pc) | Finished(ok: bool)

  /** A queued payload; `attempts` counts the attempts started. */
  datatype Entry = Entry(payload: Payload, attempts: nat, state: RunState)

  datatype HandlerPc = WritingFailed | PublishingFailed | HandlerDone

  /** The worker's `failed` listener at work on one failure. */
  datatype Handler = Handler(jobId: Id, message: string, pc: HandlerPc)

  /** `principals` are the ids of users and guests, `issued` every random id drawn so far. */
  datatype Base = Base(store: Store, principals: set<Id>, issued: set<Id>)

  /**
   The last four fields only record history: files whose object was removed by a sweep;
   files whose row a sweep failed to delete after it had seen to the object; jobs for which the write of a
   `failed` handler never took place; and jobs whose next attempt started before such a
   write.
   */
  datatype World = World(
    base: Base,
    policies: set<Policy>,
    calls: seq<Call>,
    queue: seq<Entry>,
    handlers: seq<Handler>,
    sweeps: seq<Sweep>,
    removed: set<Id>,
    abandoned: set<Id>,
    lost: set<Id>,
    raced: set<Id>)

  const MAX_ATTEMPTS := 3

  const INITIAL := World(Base(Store({}, map[], map[], map[], []), {}, {}), {}, [], [], [], [], {}, {}, {}, {})

  datatype Step =
    | Register
    | OpenGuestSession
    | StartUpload(userId: Id, input: UploadInput)
    | StartConfirm(userId: Id, fileId: Id)
    | StartDelete(userId: Id, fileId: Id)
    | StartJob(userId: Id, fileId: Id, jobType: string)
    | StartCancel(userId: Id, jobId: Id)
    | ContinueCall(c: nat)
    | BrowserUpload(policy: Policy)
    | StartAttempt(q: nat)
    | ContinueAttempt(q: nat)
    | SettleAttempt(q: nat)
    | ContinueHandler(h: nat)
    | StartPendingSweep(order: seq<Id>, before: int)
    | StartGuestSweep(order: seq<Id>, before: int)
    | ContinueSweep(s: nat)

  // ---- What each step does ---------------------------------------------------

  /** The random ids that an effect brings into the state. */
  function Draws(e: Effect): set<Id> {
    match e
    case AddUser(u) => {u}
    case InsertFile(f, row) => {f} + (if InUploadNamespace(row.storagePath) then {KeyUuid(row.storagePath)} else {})
    case InsertJob(j, _) => {j}
    case _ => {}
  }

  predicate Fresh(w: World, ids: set<Id>) {
    ids !! w.base.issued && forall id | id in ids :: IsUuid(id)
  }

  function Act(b: Base, e: Effect): Base {
    Base(Apply(b.store, e), if e.AddUser? then b.principals + {e.userId} else b.principals, b.issued + Draws(e))
  }

  function Perform(w: World, e: Effect): World {
    w.(base := Act(w.base, e))
  }

  function AddCall(w: World, call: Call): World {
    w.(calls := w.calls + [call])
  }

  predicate InFlight(w: World, c: nat) {
    c < |w.calls| && !w.calls[c].Replied?
  }

  function AfterCall(w: World, c: nat, env: Env): World
    requires InFlight(w, c)
  {
    var call := w.calls[c];
    var m := Calls.Next(w.base.store, call, env);
    Perform(w, m.effect).(
      calls := w.calls[c := m.call],
      policies := if call.Presigning? && env.outcome == Done then w.policies + {Policy(call.key, call.size)} else w.policies,
      queue := if call.Enqueuing? && env.outcome.Landed() then w.queue + [Entry(call.payload, 0, Waiting)] else w.queue)
  }

  predicate CanStart(w: World, q: nat) {
    q < |w.queue| && w.queue[q].state.Waiting?
  }

  predicate HandlerOutstanding(w: World, jobId: Id) {
    exists h | 0 <= h < |w.handlers| :: w.handlers[h].jobId == jobId && w.handlers[h].pc == WritingFailed
  }

  function AfterStart(w: World, q: nat): World
    requires CanStart(w, q)
  {
    var entry := w.queue[q];
    var jobId := entry.payload.jobId;
    w.(queue := w.queue[q := Entry(entry.payload, entry.attempts + 1, Running(MarkActive))],
       raced := if HandlerOutstanding(w, jobId) then w.raced + {jobId} else w.raced)
  }

  predicate CanContinue(w: World, q: nat) {
    q < |w.queue| && w.queue[q].state.Running? && !Ended(w.queue[q].state.pc)
  }

  function AfterAttempt(w: World, q: nat, env: Env): World
    requires CanContinue(w, q)
  {
    var entry := w.queue[q];
    var m := Attempt.Next(w.base.store, entry.payload, entry.state.pc, env);
    Perform(w, m.effect).(queue := w.queue[q := entry.(state := Running(m.pc))])
  }

  predicate CanSettle(w: World, q: nat) {
    q < |w.queue| && w.queue[q].state.Running? && Ended(w.queue[q].state.pc)
  }

  function AfterSettle(w: World, q: nat): World
    requires CanSettle(w, q)
  {
    var entry := w.queue[q];
    if entry.state.pc.Returned? then
      w.(queue := w.queue[q := entry.(state := Finished(true))])
    else
      w.(queue := w.queue[q := entry.(state := if entry.attempts < MAX_ATTEMPTS then Waiting else Finished(false))],
         handlers := w.handlers + [Handler(entry.payload.jobId, entry.state.pc.message, WritingFailed)])
  }

  predicate HandlerActive(w: World, h: nat) {
    h < |w.handlers| && w.handlers[h].pc != HandlerDone
  }

  function AfterHandler(w: World, h: nat, env: Env): World
    requires HandlerActive(w, h)
  {
    var handler := w.handlers[h];
    if handler.pc == WritingFailed then
      var extra := NO_EXTRA.(errorMessage := Some(handler.message));
      Perform(w, IfLanded(env, UpdateStatus(handler.jobId, Failed, extra, env.at))).(
        handlers := w.handlers[h := handler.(pc := if env.outcome == Done then PublishingFailed else HandlerDone)],
        lost := if env.outcome.Landed() then w.lost else w.lost + {handler.jobId})
    else
      Perform(w, IfLanded(env, Publish(FailedMessage(handler.jobId, handler.message)))).(
        handlers := w.handlers[h := handler.(pc := HandlerDone)])
  }

  predicate SweepActive(w: World, s: nat) {
    s < |w.sweeps| && w.sweeps[s].remaining != []
  }

  function AfterSweep(w: World, s: nat, env: Env): World
    requires SweepActive(w, s)
  {
    var sweep := w.sweeps[s];
    var m := Sweeps.Next(sweep, env);
    Perform(w, m.effect).(
      sweeps := w.sweeps[s := m.sweep],
      removed := if !sweep.cut && env.outcome.Landed() then w.removed + {sweep.remaining[0].fileId} else w.removed,
      abandoned := if sweep.cut && !env.outcome.Landed() then w.abandoned + {sweep.remaining[0].fileId} else w.abandoned)
  }

  function AfterUpload(w: World, userId: Id, input: UploadInput, env: Env): World {
    var m := BeginUpload(userId, input, env);
    AddCall(Perform(w, m.effect), m.call)
  }

  predicate Enabled(w: World, step: Step, env: Env) {
    match step
    case Register => Fresh(w, {env.newId})
    case OpenGuestSession => Fresh(w, {env.newId})
    case StartUpload(u, _) => u in w.base.principals && Fresh(w, {env.newId, env.uuid}) && env.newId != env.uuid
    case StartConfirm(u, _) => u in w.base.principals
    case StartDelete(u, _) => u in w.base.principals
    case StartJob(u, _, _) => u in w.base.principals
    case StartCancel(u, _) => u in w.base.principals
    case ContinueCall(c) => InFlight(w, c) && Fresh(w, Draws(Calls.Next(w.base.store, w.calls[c], env).effect))
    case BrowserUpload(p) => p in w.policies
    case StartAttempt(q) => CanStart(w, q)
    case ContinueAttempt(q) =>
      CanContinue(w, q) && Fresh(w, Draws(Attempt.Next(w.base.store, w.queue[q].payload, w.queue[q].state.pc, env).effect))
    case SettleAttempt(q) => CanSettle(w, q)
    case ContinueHandler(h) => HandlerActive(w, h)
    case StartPendingSweep(order, before) => Lists(order, ExpiredPending(w.base.store, before))
    case StartGuestSweep(order, before) => Lists(order, ExpiredGuestFiles(w.base.store, before))
    case ContinueSweep(s) => SweepActive(w, s)
  }

  function After(w: World, step: Step, env: Env): World
    requires Enabled(w, step, env)
  {
    match step
    case Register => Perform(w, AddUser(env.newId))
    case OpenGuestSession => w.(base := Base(w.base.store, w.base.principals + {env.newId}, w.base.issued + {env.newId}))
    case StartUpload(u, input) => AfterUpload(w, u, input, env)
    case StartConfirm(u, f) => AddCall(w, BeginConfirm(w.base.store, u, f, env))
    case StartDelete(u, f) => AddCall(w, BeginDelete(w.base.store, u, f, env))
    case StartJob(u, f, t) => AddCall(w, BeginJob(w.base.store, u, f, t, env))
    case StartCancel(u, j) => AddCall(w, BeginCancel(w.base.store, u, j, env))
    case ContinueCall(c) => AfterCall(w, c, env)
    case BrowserUpload(p) => Perform(w, PutObject(p.key, p.size))
    case StartAttempt(q) => AfterStart(w, q)
    case ContinueAttempt(q) => AfterAttempt(w, q, env)
    case SettleAttempt(q) => AfterSettle(w, q)
    case ContinueHandler(h) => AfterHandler(w, h, env)
    case StartPendingSweep(order, _) => w.(sweeps := w.sweeps + [Sweep(false, Snapshot(w.base.store, order), false)])
    case StartGuestSweep(order, _) => w.(sweeps := w.sweeps + [Sweep(true, Snapshot(w.base.store, order), false)])
    case ContinueSweep(s) => AfterSweep(w, s, env)
  }

  // ---- Runs ------------------------------------------------------------------

  type Run = seq<(Step, Env)>

  predicate ValidRun(w: World, run: Run)
    decreases |run|
  {
    run == [] || (Enabled(w, run[0].0, run[0].1) && ValidRun(After(w, run[0].0, run[0].1), run[1..]))
  }

  function End(w: World, run: Run): World
    requires ValidRun(w, run)
    decreases |run|
  {
    if run == [] then w else End(After(w, run[0].0, run[0].1), run[1..])
  }
}
