/**
 What an attempt publishes, whatever the other processes do between its awaits.

 A trace gives, for each await of the attempt, the tables it found and the environment.
 */
module AttemptEvents {
  import opened Keys
  import opened Messages
  import opened Store
  import opened Environment
  import opened Attempt

  type Trace = seq<(Store, Env)>

  function PcAfter(p: Payload, pc: Pc, trace: Trace): Pc
    decreases |trace|
  {
    if trace == [] then pc else PcAfter(p, Next(trace[0].0, p, pc, trace[0].1).pc, trace[1..])
  }

  function MessagesOf(e: Effect): seq<Message> {
    if e.Publish? then [e.message] else []
  }

  function Published(p: Payload, pc: Pc, trace: Trace): seq<Message>
    decreases |trace|
  {
    if trace == [] then []
    else
      var m := Next(trace[0].0, p, pc, trace[0].1);
      MessagesOf(m.effect) + Published(p, m.pc, trace[1..])
  }

  // ---- What a successful attempt announces -----------------------------------

  function StageMessages(p: Payload, n: nat): seq<Message> {
    if n == 0 then [] else StageMessages(p, n - 1) + [ProgressMessage(p.jobId, RoundedProgress(n, STAGES))]
  }

  function ImageMessages(p: Payload): seq<Message> {
    [ProgressMessage(p.jobId, 0), ProgressMessage(p.jobId, 33), ProgressMessage(p.jobId, 66)]
  }

  /** Three or five progress messages, then one completion. */
  function SuccessMessages(p: Payload, output: Id): seq<Message> {
    (if IsImageJob(p) then ImageMessages(p) else StageMessages(p, STAGES)) + [CompletedMessage(p.jobId, output)]
  }

  /** What has been announced by the time an attempt that has not failed is at `pc`. */
  function Announced(p: Payload, pc: Pc): seq<Message> {
    match pc
    case MarkActive => []
    case AnnounceActive => []
    case ReadInput => ImageMessages(p)[..1]
    case FetchObject(_) => ImageMessages(p)[..1]
    case Report(Fetched(_), waiting, _) => ImageMessages(p)[..if PublishProgress in waiting then 1 else 2]
    case Transform(_) => ImageMessages(p)[..2]
    case Report(Transformed(_, _), waiting, _) => ImageMessages(p)[..if PublishProgress in waiting then 2 else 3]
    case PutOutput(_, _, _) => ImageMessages(p)
    case CreateOutput(_, _, _) => ImageMessages(p)
    case CompleteImage(_) => ImageMessages(p)
    case Work(i) => if i == 0 then [] else StageMessages(p, i - 1)
    case Report(Stage(i), waiting, _) => StageMessages(p, if PublishProgress in waiting && i > 0 then i - 1 else i)
    case CompleteDefault => StageMessages(p, STAGES)
    case Announce(_) => if IsImageJob(p) then ImageMessages(p) else StageMessages(p, STAGES)
    case Returned(output) => SuccessMessages(p, output)
    case Threw(_) => []
  }

  /** The attempt will end by throwing. */
  predicate Doomed(pc: Pc) {
    pc.Threw? || (pc.Report? && pc.failure.Some?)
  }

  predicate Fits(p: Payload, pc: Pc) {
    match pc
    case MarkActive => true
    case Announce(_) => true
    case Returned(_) => true
    case Threw(_) => true
    case Work(i) => !IsImageJob(p) && 1 <= i <= STAGES
    case CompleteDefault => !IsImageJob(p)
    case Report(Stage(i), waiting, _) => !IsImageJob(p) && 1 <= i <= STAGES && waiting != {}
    case Report(_, waiting, _) => IsImageJob(p) && waiting != {}
    case _ => IsImageJob(p)
  }

  lemma NextAnnounces(s: Store, p: Payload, pc: Pc, env: Env)
    requires Fits(p, pc) && !Ended(pc)
    ensures var m := Next(s, p, pc, env);
            && Fits(p, m.pc)
            && (Doomed(pc) ==> Doomed(m.pc))
            && (!Doomed(m.pc) ==> Announced(p, m.pc) == Announced(p, pc) + MessagesOf(m.effect))
  {
    if pc.Report? {
      EndingWaits(pc.waiting, env.part);
      ReportAnnounces(s, p, pc, env);
    }
  }

  lemma ReportAnnounces(s: Store, p: Payload, pc: Pc, env: Env)
    requires Fits(p, pc) && pc.Report? && Ending(pc.waiting, env.part) in pc.waiting
    ensures var m := Next(s, p, pc, env);
            && Fits(p, m.pc)
            && (Doomed(pc) ==> Doomed(m.pc))
            && (!Doomed(m.pc) ==> Announced(p, m.pc) == Announced(p, pc) + MessagesOf(m.effect))
  {
    var m := Next(s, p, pc, env);
    var part := Ending(pc.waiting, env.part);
    var rest := pc.waiting - {part};
    if PublishProgress in pc.waiting && part != PublishProgress {
      assert PublishProgress in rest;
    }
  }

  lemma {:induction false} EndedStaysPut(p: Payload, pc: Pc, trace: Trace)
    requires Ended(pc)
    ensures PcAfter(p, pc, trace) == pc && Published(p, pc, trace) == []
    decreases |trace|
  {
    if trace != [] {
      EndedStaysPut(p, pc, trace[1..]);
    }
  }

  lemma {:induction false} DoomedStaysDoomed(p: Payload, pc: Pc, trace: Trace)
    requires Fits(p, pc) && Doomed(pc)
    ensures Doomed(PcAfter(p, pc, trace))
    decreases |trace|
  {
    if trace != [] {
      if Ended(pc) {
        EndedStaysPut(p, pc, trace);
      } else {
        NextAnnounces(trace[0].0, p, pc, trace[0].1);
        DoomedStaysDoomed(p, Next(trace[0].0, p, pc, trace[0].1).pc, trace[1..]);
      }
    }
  }

  lemma Regroup(a: seq<Message>, b: seq<Message>, c: seq<Message>)
    ensures a + (b + c) == (a + b) + c
  {}

  /** Wherever an attempt gets to without failing, it has made the announcements up to there. */
  lemma {:induction false} PublishedUpTo(p: Payload, pc: Pc, trace: Trace)
    requires Fits(p, pc) && !Doomed(PcAfter(p, pc, trace))
    ensures Announced(p, pc) + Published(p, pc, trace) == Announced(p, PcAfter(p, pc, trace))
    decreases |trace|
  {
    if Ended(pc) {
      EndedStaysPut(p, pc, trace);
    } else if trace != [] {
      var m := Next(trace[0].0, p, pc, trace[0].1);
      NextAnnounces(trace[0].0, p, pc, trace[0].1);
      PublishedUpTo(p, m.pc, trace[1..]);
      if Doomed(m.pc) {
        DoomedStaysDoomed(p, m.pc, trace[1..]);
      }
      Regroup(Announced(p, pc), MessagesOf(m.effect), Published(p, m.pc, trace[1..]));
    }
  }

  /** An attempt that returns has published its progress and its completion, each once and in order. */
  lemma ReturnedAttemptAnnouncedAll(p: Payload, trace: Trace, output: Id)
    requires PcAfter(p, MarkActive, trace) == Returned(output)
    ensures Published(p, MarkActive, trace) == SuccessMessages(p, output)
  {
    PublishedUpTo(p, MarkActive, trace);
  }

  // ---- What an attempt that goes on has announced ------------------------------

  lemma {:induction false} StagesAreProgress(p: Payload, n: nat)
    ensures forall m | m in StageMessages(p, n) :: IsProgress(m, p.jobId)
  {
    if n > 0 {
      StagesAreProgress(p, n - 1);
      assert IsProgress(ProgressMessage(p.jobId, RoundedProgress(n, STAGES)), p.jobId);
    }
  }

  ghost predicate IsProgress(m: Message, j: Id) {
    exists n: int :: m == ProgressMessage(j, n)
  }

  lemma ImagesAreProgress(p: Payload)
    ensures forall m | m in ImageMessages(p) :: IsProgress(m, p.jobId)
  {
    assert IsProgress(ProgressMessage(p.jobId, 0), p.jobId);
    assert IsProgress(ProgressMessage(p.jobId, 33), p.jobId);
    assert IsProgress(ProgressMessage(p.jobId, 66), p.jobId);
  }

  /** Until it returns an attempt has announced nothing but progress. */
  lemma AnnouncedIsProgress(p: Payload, pc: Pc)
    requires !pc.Returned?
    ensures forall m | m in Announced(p, pc) :: IsProgress(m, p.jobId)
  {
    ImagesAreProgress(p);
    forall n: nat ensures forall m | m in StageMessages(p, n) :: IsProgress(m, p.jobId) {
      StagesAreProgress(p, n);
    }
  }
}
