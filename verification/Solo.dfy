/**
 Processes left to themselves: an attempt, a call or a sweep run to its end with no
 other step in between.  `oracle(k)` is the environment at the `k`-th await.
 */
module Solo {
  import opened Wrappers
  import opened Keys
  import opened Messages
  import opened Store
  import opened Environment
  import opened Attempt
  import opened Calls
  import opened Sweeps

  type Oracle = nat -> Env

  datatype AttemptEnd = AttemptEnd(store: Store, pc: Pc)

  function RunAttempt(s: Store, p: Payload, pc: Pc, oracle: Oracle, k: nat): AttemptEnd
    requires WaitingNonempty(pc)
    decreases Rank(pc)
  {
    if Ended(pc) then AttemptEnd(s, pc)
    else
      RankDecreases(s, p, pc, oracle(k));
      var m := Attempt.Next(s, p, pc, oracle(k));
      RunAttempt(Apply(s, m.effect), p, m.pc, oracle, k + 1)
  }

  lemma RunUnfolds(s: Store, p: Payload, pc: Pc, oracle: Oracle, k: nat)
    requires !Ended(pc) && WaitingNonempty(pc)
    ensures var m := Attempt.Next(s, p, pc, oracle(k));
            WaitingNonempty(m.pc) && RunAttempt(s, p, pc, oracle, k) == RunAttempt(Apply(s, m.effect), p, m.pc, oracle, k + 1)
  {
    RankDecreases(s, p, pc, oracle(k));
  }

  function CallRank(call: Call): nat {
    match call
    case Stating(_, _, _) => 2
    case InsertingJob(_, _, _) => 2
    case Replied(_) => 0
    case _ => 1
  }

  datatype CallEnd = CallEnd(store: Store, reply: Reply, enqueued: Option<Payload>)

  /** `enqueued`: the payload that the call added to the queue, if any. */
  function RunCall(s: Store, call: Call, oracle: Oracle, k: nat): CallEnd
    decreases CallRank(call)
  {
    if call.Replied? then CallEnd(s, call.reply, None)
    else
      var m := Calls.Next(s, call, oracle(k));
      var end := RunCall(Apply(s, m.effect), m.call, oracle, k + 1);
      if call.Enqueuing? && oracle(k).outcome.Landed() then end.(enqueued := Some(call.payload)) else end
  }

  lemma CallUnfolds(s: Store, call: Call, oracle: Oracle, k: nat)
    requires !call.Replied?
    ensures var m := Calls.Next(s, call, oracle(k));
            var end := RunCall(Apply(s, m.effect), m.call, oracle, k + 1);
            RunCall(s, call, oracle, k)
            == if call.Enqueuing? && oracle(k).outcome.Landed() then end.(enqueued := Some(call.payload)) else end
  {}

  /** The `failed` listener: the failure is written and, if that is acknowledged, announced. */
  function RunListener(s: Store, jobId: Id, message: string, write: Env, announce: Env): Store {
    var written := Apply(s, IfLanded(write, UpdateStatus(jobId, Failed, NO_EXTRA.(errorMessage := Some(message)), write.at)));
    if write.outcome == Done then Apply(written, IfLanded(announce, Publish(FailedMessage(jobId, message)))) else written
  }

  datatype SweepEnd = SweepEnd(store: Store, thrown: bool)

  function RunSweep(s: Store, sweep: Sweep, oracle: Oracle, k: nat): SweepEnd
    decreases |sweep.remaining|, !sweep.cut
  {
    if sweep.remaining == [] then SweepEnd(s, false)
    else
      var m := Sweeps.Next(sweep, oracle(k));
      if sweep.cut && oracle(k).outcome != Done then SweepEnd(Apply(s, m.effect), true)
      else RunSweep(Apply(s, m.effect), m.sweep, oracle, k + 1)
  }
}
