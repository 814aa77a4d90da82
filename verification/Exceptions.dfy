/**
 Runs showing what the documentation rules out and the worker does: a completed job that
 fails, a cancelled one that is worked on, one that stays active for ever, two failures
 announced for a job that completes, a failure announced before and behind the
 completion, and a pending job that a guest sweep deletes.
 */
module Exceptions {
  import opened Keys
  import opened Messages
  import opened Store
  import opened Environment
  import opened Attempt
  import opened Calls
  import opened Machine
  import opened ProcessInvariant
  import opened ControlSteps
  import opened Retry
  import opened Guarantees
  import opened Finality
  import opened AttemptEvents
  import opened Announcements
  import opened FailureCount
  import opened JobEnding
  import opened JobHook
  import opened EndToEnd
  import opened Sweeps
  import opened Races
  import Delivery

  predicate FourIds(u: Id, f: Id, k: Id, j: Id) {
    ThreeIds(u, f, k) && IsUuid(j) && j != u && j != f && j != k
  }

  /** Such ids exist, so the runs below do. */
  lemma FourIdsExist()
    ensures exists u, f, k, j :: FourIds(u, f, k, j)
  {
    var id := (c: char) => seq(UUID_LENGTH, _ => c);
    var u, f, k, j := id('a'), id('b'), id('c'), id('d');
    assert u[0] == 'a' && f[0] == 'b' && k[0] == 'c' && j[0] == 'd';
    assert FourIds(u, f, k, j);
  }

  function DefaultPayload(u: Id, f: Id, j: Id): Payload {
    Payload(j, f, u, "default")
  }

  // ---- A queued job ----------------------------------------------------------

  lemma ConfirmedFileReached(guest: bool, u: Id, f: Id, k: Id, size: nat) returns (w: World)
    requires ThreeIds(u, f, k) && 0 < size <= MAX_FILE_SIZE_BYTES
    ensures Reachable(w) && WorkerIdle(w) && |w.calls| == 2
    ensures w.base.store.files == map[f := ReservedFile(u, k, size, Ready)]
    ensures w.base.issued == {u, f, k} && u in w.base.principals
    ensures w.sweeps == [] && w.base.store.users == Users(guest, u)
    ensures w.base.store.objects == map[UploadKey(u, k, "") := size]
    ensures w.policies == {Policy(UploadKey(u, k, ""), size)}
  {
    var w1 := CheckedFileReached(guest, u, f, k, size);
    w := After(w1, ContinueCall(1), WILLING);
    StepReaches(w1, ContinueCall(1), WILLING);
  }

  /** The user asks for a job on the ready file. */
  lemma InsertingFrom(w: World, u: Id, f: Id, jobType: string) returns (w': World)
    requires Reachable(w) && u in w.base.principals && |w.calls| == 2
    requires f in w.base.store.files && w.base.store.files[f].userId == u && w.base.store.files[f].status == Ready
    ensures Reachable(w') && w' == w.(calls := w.calls + [InsertingJob(u, f, jobType)])
  {
    w' := After(w, StartJob(u, f, jobType), WILLING);
    StepReaches(w, StartJob(u, f, jobType), WILLING);
  }

  lemma EnqueuingFrom(w: World, u: Id, f: Id, j: Id, jobType: string) returns (w': World)
    requires Reachable(w) && |w.calls| == 3 && w.calls[2] == InsertingJob(u, f, jobType) && f in w.base.store.files
    requires IsUuid(j) && j !in w.base.issued
    ensures Reachable(w') && |w'.calls| == 3 && w'.calls[2] == Enqueuing(Payload(j, f, u, jobType))
    ensures w'.base.store == w.base.store.(jobs := w.base.store.jobs[j := NewJob(u, f, jobType, 0)])
    ensures w'.base.issued == w.base.issued + {j}
    ensures w'.base.principals == w.base.principals && w'.sweeps == w.sweeps
    ensures w'.queue == w.queue && w'.handlers == w.handlers && w'.lost == w.lost && w'.raced == w.raced
    ensures w'.policies == w.policies
  {
    var env := At(Done, j, "");
    assert Draws(Calls.Next(w.base.store, w.calls[2], env).effect) == {j};
    w' := After(w, ContinueCall(2), env);
    StepReaches(w, ContinueCall(2), env);
  }

  lemma EnqueuingReached(guest: bool, u: Id, f: Id, k: Id, j: Id, size: nat) returns (w: World)
    requires FourIds(u, f, k, j) && 0 < size <= MAX_FILE_SIZE_BYTES
    ensures Reachable(w) && |w.calls| == 3 && w.calls[2] == Enqueuing(DefaultPayload(u, f, j))
    ensures w.queue == [] && w.handlers == [] && w.lost == {} && w.raced == {} && w.base.store.published == []
    ensures w.base.store.jobs == map[j := NewJob(u, f, "default", 0)] && u in w.base.principals
  {
    var w1 := ConfirmedFileReached(guest, u, f, k, size);
    var w2 := InsertingFrom(w1, u, f, "default");
    w := EnqueuingFrom(w2, u, f, j, "default");
  }

  /** The job `j` of user `u` waits for its first attempt. */
  lemma QueuedJobReached(guest: bool, u: Id, f: Id, k: Id, j: Id, size: nat) returns (w: World)
    requires FourIds(u, f, k, j) && 0 < size <= MAX_FILE_SIZE_BYTES
    ensures Reachable(w) && w.queue == [Entry(DefaultPayload(u, f, j), 0, Waiting)] && |w.calls| == 3
    ensures w.handlers == [] && w.lost == {} && w.raced == {} && w.base.store.published == []
    ensures w.base.store.jobs == map[j := NewJob(u, f, "default", 0)] && u in w.base.principals
  {
    var w1 := EnqueuingReached(guest, u, f, k, j, size);
    w := After(w1, ContinueCall(2), WILLING);
    StepReaches(w1, ContinueCall(2), WILLING);
  }

  // ---- Attempts that fail ----------------------------------------------------

  function JobOf(w: World, q: nat): Id
    requires q < |w.queue|
  {
    w.queue[q].payload.jobId
  }

  lemma AttemptThrows(w: World, q: nat) returns (w': World)
    requires Reachable(w) && CanStart(w, q) && !HandlerOutstanding(w, JobOf(w, q))
    ensures Reachable(w') && w'.base == w.base && w'.lost == w.lost && w'.raced == w.raced && w'.handlers == w.handlers
    ensures w'.queue == w.queue[q := Entry(w.queue[q].payload, w.queue[q].attempts + 1, Running(Threw("")))]
  {
    var w1 := After(w, StartAttempt(q), WILLING);
    StepReaches(w, StartAttempt(q), WILLING);
    w' := After(w1, ContinueAttempt(q), REFUSING);
    StepReaches(w1, ContinueAttempt(q), REFUSING);
  }

  /** An attempt throws at its first await; another one is to come. */
  lemma AttemptFails(w: World, q: nat) returns (w': World)
    requires Reachable(w) && CanStart(w, q) && w.queue[q].attempts < MAX_ATTEMPTS - 1 && !HandlerOutstanding(w, JobOf(w, q))
    ensures Reachable(w') && w'.base == w.base && w'.lost == w.lost && w'.raced == w.raced
    ensures w'.queue == w.queue[q := Entry(w.queue[q].payload, w.queue[q].attempts + 1, Waiting)]
    ensures w'.handlers == w.handlers + [Handler(JobOf(w, q), "", WritingFailed)]
  {
    var w1 := AttemptThrows(w, q);
    w' := After(w1, SettleAttempt(q), WILLING);
    StepReaches(w1, SettleAttempt(q), WILLING);
  }

  lemma FailureIsWritten(w: World, h: nat) returns (w': World)
    requires Reachable(w) && h < |w.handlers| && w.handlers[h].pc == WritingFailed
    ensures Reachable(w') && w'.queue == w.queue && w'.lost == w.lost && w'.raced == w.raced
    ensures w'.handlers == w.handlers[h := w.handlers[h].(pc := PublishingFailed)]
    ensures w'.base.store.jobs.Keys == w.base.store.jobs.Keys && w'.base.store.published == w.base.store.published
  {
    w' := After(w, ContinueHandler(h), WILLING);
    StepReaches(w, ContinueHandler(h), WILLING);
  }

  lemma FailureIsPublished(w: World, h: nat) returns (w': World)
    requires Reachable(w) && h < |w.handlers| && w.handlers[h].pc == PublishingFailed
    ensures Reachable(w') && w'.queue == w.queue && w'.lost == w.lost && w'.raced == w.raced
    ensures w'.handlers == w.handlers[h := w.handlers[h].(pc := HandlerDone)]
    ensures w'.base.store.jobs == w.base.store.jobs
    ensures w'.base.store.published == w.base.store.published + [FailedMessageOf(w.handlers[h])]
  {
    w' := After(w, ContinueHandler(h), WILLING);
    StepReaches(w, ContinueHandler(h), WILLING);
  }

  // ---- An attempt that succeeds ----------------------------------------------

  /** A default attempt on its way, with no failure of its job left unwritten or outrun. */
  ghost predicate OnItsWay(w: World, q: nat) {
    && Reachable(w) && q < |w.queue| && w.queue[q].state.Running?
    && var p, pc := w.queue[q].payload, w.queue[q].state.pc;
       && !IsImageJob(p) && Fits(p, pc) && !Doomed(pc) && !Ended(pc)
       && (pc.Announce? ==> pc.output == p.fileId)
       && p.jobId in w.base.store.jobs && Prompt(w, p.jobId)
  }

  predicate Announces(w: World, q: nat) {
    q < |w.queue| && w.queue[q].state == Running(Announce(w.queue[q].payload.fileId))
  }

  lemma PcComesNearer(s: Store, p: Payload, pc: Pc)
    requires !IsImageJob(p) && Fits(p, pc) && !Doomed(pc) && !Ended(pc) && !pc.Announce? && WaitingNonempty(pc)
    ensures var m := Attempt.Next(s, p, pc, WILLING);
            && Fits(p, m.pc) && !Doomed(m.pc) && !Ended(m.pc) && Rank(m.pc) < Rank(pc)
            && (m.pc.Announce? ==> m.pc.output == p.fileId)
            && Draws(m.effect) == {} && Apply(s, m.effect).jobs.Keys == s.jobs.Keys
  {
    RankDecreases(s, p, pc, WILLING);
    NextAnnounces(s, p, pc, WILLING);
  }

  /** One more await that succeeds. */
  lemma ComesNearer(w: World, q: nat)
    requires OnItsWay(w, q) && !Announces(w, q)
    ensures Enabled(w, ContinueAttempt(q), WILLING)
    ensures var w' := After(w, ContinueAttempt(q), WILLING);
            && OnItsWay(w', q) && w'.handlers == w.handlers && w'.lost == w.lost && w'.raced == w.raced
            && w'.queue == w.queue[q := w.queue[q].(state := w'.queue[q].state)]
            && Rank(w'.queue[q].state.pc) < Rank(w.queue[q].state.pc)
            && FailuresIn(w'.base.store.published, JobOf(w, q)) == FailuresIn(w.base.store.published, JobOf(w, q))
  {
    var p, pc := w.queue[q].payload, w.queue[q].state.pc;
    ReachableKeepsInvariant(w);
    assert EntryOk(w.base, w.queue[q]);
    PcComesNearer(w.base.store, p, pc);
    StepReaches(w, ContinueAttempt(q), WILLING);
    AddsNoFailure(w, q, WILLING);
  }

  lemma AddsNoFailure(w: World, q: nat, env: Env)
    requires CanContinue(w, q)
    ensures FailuresIn(AfterAttempt(w, q, env).base.store.published, JobOf(w, q)) == FailuresIn(w.base.store.published, JobOf(w, q))
  {
    var p, pc := w.queue[q].payload, w.queue[q].state.pc;
    var e := Attempt.Next(w.base.store, p, pc, env).effect;
    EffectPublishes(w.base.store, e);
    AttemptsAnnounceNoFailure(w.base.store, p, pc, env, p.jobId);
    if e.Publish? {
      AppendedFailure(w.base.store.published, e.message, p.jobId);
    }
  }

  /** Left alone, it gets to its announcement, and its job is completed. */
  lemma {:induction false} GetsToAnnouncement(w: World, q: nat) returns (run: Run)
    requires OnItsWay(w, q)
    ensures ValidRun(w, run) && NeverSettles(run, q)
    ensures var w' := End(w, run);
            && OnItsWay(w', q) && Announces(w', q) && w'.handlers == w.handlers
            && w'.queue[q].payload == w.queue[q].payload && w'.base.store.jobs[JobOf(w, q)].status == Completed
            && FailuresIn(w'.base.store.published, JobOf(w, q)) == FailuresIn(w.base.store.published, JobOf(w, q))
    decreases Rank(w.queue[q].state.pc)
  {
    if Announces(w, q) {
      run := [];
      ReachableKeepsInvariant(w);
      assert EntrySettled(w, w.queue[q]);
    } else {
      ComesNearer(w, q);
      var rest := GetsToAnnouncement(After(w, ContinueAttempt(q), WILLING), q);
      run := [(ContinueAttempt(q), WILLING)] + rest;
      assert run[1..] == rest;
    }
  }

  lemma GetsToReturn(w: World, q: nat) returns (run: Run)
    requires OnItsWay(w, q)
    ensures ValidRun(w, run) && NeverSettles(run, q)
    ensures var w' := End(w, run);
            && w'.handlers == w.handlers
            && q < |w'.queue| && w'.queue[q].state == Running(Returned(w.queue[q].payload.fileId))
  {
    var first := GetsToAnnouncement(w, q);
    RunExtends(w, first, ContinueAttempt(q), WILLING);
    run := first + [(ContinueAttempt(q), WILLING)];
  }

  /** The worker takes up a queued default job. */
  lemma TakesUp(w: World, q: nat) returns (w': World)
    requires Reachable(w) && CanStart(w, q) && !IsImageJob(w.queue[q].payload)
    requires JobOf(w, q) in w.base.store.jobs && Prompt(w, JobOf(w, q)) && !HandlerOutstanding(w, JobOf(w, q))
    ensures OnItsWay(w', q) && w'.base == w.base && w'.handlers == w.handlers
    ensures w'.queue == w.queue[q := Entry(w.queue[q].payload, w.queue[q].attempts + 1, Running(MarkActive))]
  {
    w' := After(w, StartAttempt(q), WILLING);
    StepReaches(w, StartAttempt(q), WILLING);
  }

  lemma {:induction false} RunReaches(w: World, run: Run)
    requires Reachable(w) && ValidRun(w, run)
    ensures Reachable(End(w, run))
    decreases |run|
  {
    if run != [] {
      StepReaches(w, run[0].0, run[0].1);
      RunReaches(After(w, run[0].0, run[0].1), run[1..]);
    }
  }

  // ---- The exceptions --------------------------------------------------------

  /** A completed job fails: the last announcement is refused, and the failure written. */
  lemma CompletedJobCanFail(guest: bool, u: Id, f: Id, k: Id, j: Id, size: nat)
    requires FourIds(u, f, k, j) && 0 < size <= MAX_FILE_SIZE_BYTES
    ensures exists w: World :: Reachable(w) && HasStatus(w, j, Completed) && CanBecome(w, j, Failed)
  {
    var w1 := QueuedJobReached(guest, u, f, k, j, size);
    var w2 := TakesUp(w1, 0);
    var run := GetsToAnnouncement(w2, 0);
    var w := End(w2, run);
    AnnouncingFails(w, 0);
    assert Reachable(w) && HasStatus(w, j, Completed);
  }

  predicate HasStatus(w: World, j: Id, status: JobStatus) {
    j in w.base.store.jobs && w.base.store.jobs[j].status == status
  }

  predicate IsCancelled(w: World, j: Id) {
    HasStatus(w, j, Failed) && w.base.store.jobs[j].errorMessage == CANCELLED
  }

  lemma CancellingReached(guest: bool, u: Id, f: Id, k: Id, j: Id, size: nat) returns (w: World)
    requires FourIds(u, f, k, j) && 0 < size <= MAX_FILE_SIZE_BYTES
    ensures Reachable(w) && w.queue == [Entry(DefaultPayload(u, f, j), 0, Waiting)]
    ensures |w.calls| == 4 && w.calls[3] == Cancelling(u, j)
    ensures w.base.store.jobs == map[j := NewJob(u, f, "default", 0)]
  {
    var w1 := QueuedJobReached(guest, u, f, k, j, size);
    w := After(w1, StartCancel(u, j), WILLING);
    StepReaches(w1, StartCancel(u, j), WILLING);
  }

  /** A cancelled job becomes active: it is still queued, and the worker does not look. */
  lemma CancelledJobCanBecomeActive(guest: bool, u: Id, f: Id, k: Id, j: Id, size: nat)
    requires FourIds(u, f, k, j) && 0 < size <= MAX_FILE_SIZE_BYTES
    ensures exists w: World :: Reachable(w) && IsCancelled(w, j) && CanBecome(w, j, Active)
  {
    var w1 := CancellingReached(guest, u, f, k, j, size);
    var w := After(w1, ContinueCall(3), WILLING);
    StepReaches(w1, ContinueCall(3), WILLING);
    StartingActivates(w, 0);
    assert IsCancelled(w, j);
  }

  /** An attempt fails, and its failure is written and announced before the next. */
  lemma AttemptFailsLoudly(w: World, q: nat) returns (w': World)
    requires Reachable(w) && CanStart(w, q) && w.queue[q].attempts < MAX_ATTEMPTS - 1
    requires JobOf(w, q) in w.base.store.jobs && HandlersDone(w, JobOf(w, q))
    ensures Reachable(w') && w'.lost == w.lost && w'.raced == w.raced && JobOf(w, q) in w'.base.store.jobs
    ensures w'.queue == w.queue[q := Entry(w.queue[q].payload, w.queue[q].attempts + 1, Waiting)]
    ensures HandlersDone(w', JobOf(w, q))
    ensures FailuresIn(w'.base.store.published, JobOf(w, q)) == FailuresIn(w.base.store.published, JobOf(w, q)) + 1
  {
    var h := |w.handlers|;
    var w1 := AttemptFails(w, q);
    var w2 := FailureIsWritten(w1, h);
    w' := FailureIsPublished(w2, h);
    FailureNamesItsJob(JobOf(w, q), "", JobOf(w, q));
    AppendedFailure(w.base.store.published, FailedMessage(JobOf(w, q), ""), JobOf(w, q));
  }

  /** Two failures are announced for a job that its third attempt completes. */
  lemma TwoFailuresThenCompletion(guest: bool, u: Id, f: Id, k: Id, j: Id, size: nat)
    requires FourIds(u, f, k, j) && 0 < size <= MAX_FILE_SIZE_BYTES
    ensures exists w: World :: Reachable(w) && HasStatus(w, j, Completed) && FailuresIn(w.base.store.published, j) == 2
  {
    var w1 := QueuedJobReached(guest, u, f, k, j, size);
    var w2 := AttemptFailsLoudly(w1, 0);
    var w3 := AttemptFailsLoudly(w2, 0);
    var w4 := TakesUp(w3, 0);
    var run := GetsToAnnouncement(w4, 0);
    assert Reachable(End(w4, run)) && HasStatus(End(w4, run), j, Completed);
  }

  /** An attempt about to start while the announcement of an earlier failure is outstanding. */
  lemma LateAttemptReached(guest: bool, u: Id, f: Id, k: Id, j: Id, size: nat) returns (w: World)
    requires FourIds(u, f, k, j) && 0 < size <= MAX_FILE_SIZE_BYTES
    ensures OnItsWay(w, 0) && w.queue == [Entry(DefaultPayload(u, f, j), 2, Running(MarkActive))]
    ensures w.handlers == [Handler(j, "", PublishingFailed)]
  {
    var w1 := QueuedJobReached(guest, u, f, k, j, size);
    var w2 := AttemptFails(w1, 0);
    var w3 := FailureIsWritten(w2, 0);
    w := TakesUp(w3, 0);
  }

  predicate EndsInFailure(messages: seq<Message>, j: Id) {
    messages != [] && IsFailure(messages[|messages| - 1], j)
  }

  ghost predicate EndsLate(w: World, run: Run, q: nat, output: Id) {
    && AttemptReturns(w, run, q, output) && w.queue[q].state == Running(MarkActive)
    && EndsInFailure(AnnouncedMeanwhile(w, run, q), JobOf(w, q))
  }

  /** The announcement of a failure comes behind that of the completion. */
  lemma LateFailureCanFollowCompletion(guest: bool, u: Id, f: Id, k: Id, j: Id, size: nat)
    requires FourIds(u, f, k, j) && 0 < size <= MAX_FILE_SIZE_BYTES
    ensures exists w, run :: EndsLate(w, run, 0, f)
  {
    var w := LateAttemptReached(guest, u, f, k, j, size);
    var run := GetsToReturn(w, 0);
    AnnouncesLate(w, run, j);
    assert EndsLate(w, run + [(ContinueHandler(0), WILLING)], 0, f);
  }

  lemma AnnouncesLate(w: World, run: Run, j: Id)
    requires ValidRun(w, run) && |End(w, run).handlers| > 0
    requires End(w, run).handlers[0] == Handler(j, "", PublishingFailed)
    ensures var longer := run + [(ContinueHandler(0), WILLING)];
            && ValidRun(w, longer) && End(w, longer).queue == End(w, run).queue
            && EndsInFailure(About(RunMessages(w, longer), j), j)
  {
    RunExtends(w, run, ContinueHandler(0), WILLING);
    FailureIsAbout(j, "");
    LastMessage(w, run, ContinueHandler(0), WILLING, FailedMessage(j, ""), j);
  }

  lemma FailureIsAbout(j: Id, error: string)
    ensures IsAbout(FailedMessage(j, error), j) && IsFailure(FailedMessage(j, error), j)
  {
    Delivery.FailedDecodes(j, error);
    FailureNamesItsJob(j, error, j);
  }

  lemma SameRest(a: seq<Message>, b: seq<Message>, c: seq<Message>)
    requires a + b == a + c
    ensures b == c
  {
    assert (a + b)[|a|..] == b && (a + c)[|a|..] == c;
  }

  /** The last message of a run is what its last step publishes. */
  lemma LastMessage(w: World, run: Run, step: Step, env: Env, m: Message, j: Id)
    requires ValidRun(w, run) && Enabled(End(w, run), step, env) && ValidRun(w, run + [(step, env)])
    requires End(w, run + [(step, env)]) == After(End(w, run), step, env)
    requires StepMessages(End(w, run), step, env) == [m] && IsAbout(m, j) && IsFailure(m, j)
    ensures EndsInFailure(About(RunMessages(w, run + [(step, env)]), j), j)
  {
    var longer := run + [(step, env)];
    RunPublishes(w, run);
    RunPublishes(w, longer);
    StepPublishes(End(w, run), step, env);
    Regroup(w.base.store.published, RunMessages(w, run), [m]);
    SameRest(w.base.store.published, RunMessages(w, longer), RunMessages(w, run) + [m]);
    AboutDistributes(RunMessages(w, run), [m], j);
    OwnOfOne(m, j);
    assert About([m], j) == [m];
  }

  ghost predicate FailsFirst(w: World, run: Run, q: nat, output: Id) {
    && AttemptReturns(w, run, q, output) && w.queue[q].state == Running(MarkActive)
    && FirstFinal(AnnouncedMeanwhile(w, run, q), JobOf(w, q)).Failure?
  }

  /** The failure of an earlier attempt is announced before the completion: a browser shows the job failed. */
  lemma FailureCanPrecedeCompletion(guest: bool, u: Id, f: Id, k: Id, j: Id, size: nat)
    requires FourIds(u, f, k, j) && 0 < size <= MAX_FILE_SIZE_BYTES
    ensures exists w, run :: FailsFirst(w, run, 0, f)
  {
    var w := LateAttemptReached(guest, u, f, k, j, size);
    LateFailureAnnounced(w, j);
    var rest := GetsToReturn(After(w, ContinueHandler(0), WILLING), 0);
    var run := StepThen(w, ContinueHandler(0), WILLING, rest, 0);
    FailureIsAbout(j, "");
    FirstMessage(w, run, FailedMessage(j, ""), j);
    assert FailsFirst(w, run, 0, f);
  }

  lemma LateFailureAnnounced(w: World, j: Id)
    requires OnItsWay(w, 0) && |w.handlers| > 0 && w.handlers[0] == Handler(j, "", PublishingFailed)
    ensures Enabled(w, ContinueHandler(0), WILLING) && OnItsWay(After(w, ContinueHandler(0), WILLING), 0)
    ensures After(w, ContinueHandler(0), WILLING).queue == w.queue
    ensures StepMessages(w, ContinueHandler(0), WILLING) == [FailedMessage(j, "")]
  {
    StepReaches(w, ContinueHandler(0), WILLING);
  }

  lemma StepThen(w: World, step: Step, env: Env, rest: Run, q: nat) returns (run: Run)
    requires Enabled(w, step, env) && ValidRun(After(w, step, env), rest)
    requires step != SettleAttempt(q) && NeverSettles(rest, q)
    ensures run != [] && run[0] == (step, env) && ValidRun(w, run) && NeverSettles(run, q)
    ensures End(w, run) == End(After(w, step, env), rest)
  {
    run := [(step, env)] + rest;
    assert run[1..] == rest;
  }

  lemma FirstMessage(w: World, run: Run, m: Message, j: Id)
    requires run != [] && ValidRun(w, run) && StepMessages(w, run[0].0, run[0].1) == [m]
    requires IsAbout(m, j) && IsFailure(m, j)
    ensures FirstFinal(About(RunMessages(w, run), j), j).Failure?
  {
    var rest := RunMessages(After(w, run[0].0, run[0].1), run[1..]);
    AboutDistributes([m], rest, j);
    OwnOfOne(m, j);
    assert About([m], j) == [m];
    VerdictsDiffer(j, 0, "");
    FirstDecides([m], About(rest, j), j);
  }

  lemma {:induction false} FirstDecides(a: seq<Message>, b: seq<Message>, j: Id)
    requires FirstFinal(a, j) != Undecided
    ensures FirstFinal(a + b, j) == FirstFinal(a, j)
    decreases |b|
  {
    if b == [] {
      assert a + b == a;
    } else {
      assert (a + b)[..|a + b| - 1] == a + b[..|b| - 1];
      FirstDecides(a, b[..|b| - 1], j);
    }
  }

  // ---- A job that stays active -----------------------------------------------

  /** The listener gives up on a failure: its write is refused. */
  lemma FailureIsLost(w: World, h: nat) returns (w': World)
    requires Reachable(w) && h < |w.handlers| && w.handlers[h].pc == WritingFailed
    ensures Reachable(w') && w'.base == w.base && w'.queue == w.queue && w'.sweeps == w.sweeps
    ensures w'.handlers == w.handlers[h := w.handlers[h].(pc := HandlerDone)]
  {
    w' := After(w, ContinueHandler(h), REFUSING);
    StepReaches(w, ContinueHandler(h), REFUSING);
  }

  lemma AttemptFailsSilently(w: World, q: nat) returns (w': World)
    requires Reachable(w) && CanStart(w, q) && w.queue[q].attempts < MAX_ATTEMPTS - 1 && HandlersDone(w, JobOf(w, q))
    ensures Reachable(w') && w'.base == w.base && HandlersDone(w', JobOf(w, q))
    ensures w'.queue == w.queue[q := Entry(w.queue[q].payload, w.queue[q].attempts + 1, Waiting)]
  {
    var w1 := AttemptFails(w, q);
    w' := FailureIsLost(w1, |w.handlers|);
  }

  /** The last attempt marks the job active, but sees the call fail. */
  lemma LastAttemptThrows(w: World, q: nat) returns (w': World)
    requires Reachable(w) && CanStart(w, q) && w.queue[q].attempts == MAX_ATTEMPTS - 1 && HandlersDone(w, JobOf(w, q))
    requires JobOf(w, q) in w.base.store.jobs
    ensures Reachable(w') && HasStatus(w', JobOf(w, q), Active) && w'.handlers == w.handlers
    ensures w'.queue == w.queue[q := Entry(w.queue[q].payload, MAX_ATTEMPTS, Running(Threw("")))]
  {
    var w1 := After(w, StartAttempt(q), WILLING);
    StepReaches(w, StartAttempt(q), WILLING);
    var env := WILLING.(outcome := Unacknowledged);
    w' := After(w1, ContinueAttempt(q), env);
    StepReaches(w1, ContinueAttempt(q), env);
  }

  lemma LastAttemptSettles(w: World, q: nat) returns (w': World)
    requires Reachable(w) && q < |w.queue| && w.queue[q].attempts == MAX_ATTEMPTS && w.queue[q].state == Running(Threw(""))
    ensures Reachable(w') && w'.base == w.base
    ensures w'.queue == w.queue[q := Entry(w.queue[q].payload, MAX_ATTEMPTS, Finished(false))]
    ensures w'.handlers == w.handlers + [Handler(JobOf(w, q), "", WritingFailed)]
  {
    w' := After(w, SettleAttempt(q), WILLING);
    StepReaches(w, SettleAttempt(q), WILLING);
  }

  lemma LastFailureIsLost(w: World) returns (w': World)
    requires Reachable(w) && |w.queue| == 1 && w.queue[0].attempts == MAX_ATTEMPTS && w.queue[0].state == Running(Threw(""))
    requires HandlersDone(w, JobOf(w, 0))
    ensures Reachable(w') && w'.base == w.base && HandlersDone(w', JobOf(w, 0))
    ensures w'.queue == [Entry(w.queue[0].payload, MAX_ATTEMPTS, Finished(false))]
  {
    var w1 := LastAttemptSettles(w, 0);
    w' := FailureIsLost(w1, |w.handlers|);
  }

  /** All attempts have failed, no write of a failure took place, and the job is active for ever. */
  lemma JobCanStayActive(guest: bool, u: Id, f: Id, k: Id, j: Id, size: nat)
    requires FourIds(u, f, k, j) && 0 < size <= MAX_FILE_SIZE_BYTES
    ensures exists w: World ::
              Reachable(w) && Quiescent(w) && HandlersDone(w, j) && HasStatus(w, j, Active) && StaysActive(w, j)
  {
    var w1 := QueuedJobReached(guest, u, f, k, j, size);
    var w2 := AttemptFailsSilently(w1, 0);
    var w3 := AttemptFailsSilently(w2, 0);
    var w4 := LastAttemptThrows(w3, 0);
    var w := LastFailureIsLost(w4);
    HandlersAreOfOneJob(w, j);
    FinishedActiveStays(w, j);
  }

  lemma FinishedActiveStays(w: World, j: Id)
    requires Reachable(w) && HasStatus(w, j, Active) && HandlersDone(w, j)
    requires forall q | 0 <= q < |w.queue| :: w.queue[q].state.Finished?
    ensures StaysActive(w, j)
  {
    StuckExactlyWhenDone(w, j);
  }

  lemma HandlersAreOfOneJob(w: World, j: Id)
    requires Reachable(w) && |w.queue| == 1 && JobOf(w, 0) == j && HandlersDone(w, j)
    ensures forall h | 0 <= h < |w.handlers| :: w.handlers[h].pc == HandlerDone
  {
    ReachableKeepsInvariant(w);
    forall h | 0 <= h < |w.handlers| ensures w.handlers[h].jobId == j {
      assert Attempted(w, w.handlers[h].jobId);
    }
  }

  // ---- A sweep that takes a job along ----------------------------------------

  predicate TakesJobAlong(w: World, s: nat, j: Id) {
    && HasStatus(w, j, JobStatus.Pending) && SweepActive(w, s) && w.sweeps[s].guest
    && j !in AfterSweep(w, s, WILLING).base.store.jobs
  }

  /** A guest sweep has fetched the file. */
  lemma GuestFileFetched(u: Id, f: Id, k: Id, size: nat) returns (w: World)
    requires ThreeIds(u, f, k) && 0 < size <= MAX_FILE_SIZE_BYTES
    ensures Reachable(w) && WorkerIdle(w) && |w.calls| == 2
    ensures w.base.store.files == map[f := ReservedFile(u, k, size, Ready)]
    ensures w.sweeps == [Sweep(true, [Target(f, ReservedFile(u, k, size, Ready))], false)]
    ensures w.base.issued == {u, f, k} && u in w.base.principals
  {
    var w1 := ConfirmedFileReached(true, u, f, k, size);
    var sweep := StartGuestSweep([f], 1);
    assert ExpiredGuestFiles(w1.base.store, 1) == {f};
    assert Snapshot(w1.base.store, [f]) == [Target(f, ReservedFile(u, k, size, Ready))];
    w := After(w1, sweep, WILLING);
    StepReaches(w1, sweep, WILLING);
  }

  /** The guest has then asked for a job on it, which is queued. */
  lemma FetchedFileUsed(u: Id, f: Id, k: Id, j: Id, size: nat) returns (w: World)
    requires FourIds(u, f, k, j) && 0 < size <= MAX_FILE_SIZE_BYTES
    ensures Reachable(w) && w.queue == [Entry(DefaultPayload(u, f, j), 0, Waiting)]
    ensures w.base.store.jobs == map[j := NewJob(u, f, "default", 0)]
    ensures w.base.store.files == map[f := ReservedFile(u, k, size, Ready)]
    ensures w.sweeps == [Sweep(true, [Target(f, ReservedFile(u, k, size, Ready))], false)]
  {
    var w1 := GuestFileFetched(u, f, k, size);
    var w2 := InsertingFrom(w1, u, f, "default");
    var w3 := EnqueuingFrom(w2, u, f, j, "default");
    w := After(w3, ContinueCall(2), WILLING);
    StepReaches(w3, ContinueCall(2), WILLING);
  }

  /** A sweep deletes a pending job that is queued, with the file it fetched before the job was there. */
  lemma GuestSweepCanTakePendingJob(u: Id, f: Id, k: Id, j: Id, size: nat)
    requires FourIds(u, f, k, j) && 0 < size <= MAX_FILE_SIZE_BYTES
    ensures exists w: World :: Reachable(w) && TakesJobAlong(w, 0, j) && CanStart(w, 0) && JobOf(w, 0) == j
  {
    var w1 := FetchedFileUsed(u, f, k, j, size);
    var w := After(w1, ContinueSweep(0), WILLING);
    StepReaches(w1, ContinueSweep(0), WILLING);
    assert TakesJobAlong(w, 0, j);
  }
}
