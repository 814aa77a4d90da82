/**
 One run of a processor over one queued payload, await by await.

 `Pc` says which await comes next and carries the local variables still needed;
 `Next` performs it.  Compressing and converting share their stages.
 */
module Attempt {
  import opened Wrappers
  import opened Keys
  import opened Messages
  import opened Store
  import opened Environment

  datatype Payload = Payload(jobId: Id, fileId: Id, userId: Id, jobType: string)

  /** Where in a processor a joined progress report stands. */
  datatype Milestone =
    | Fetched(input: FileRow)
    | Transformed(input: FileRow, size: nat)
    | Stage(i: nat)

  datatype Pc =
    | MarkActive
    | AnnounceActive
    | ReadInput
    | FetchObject(input: FileRow)
    | Report(milestone: Milestone, waiting: set<Part>, failure: Option<string>)
    | Transform(input: FileRow)
    | PutOutput(name: string, mimeType: string, size: nat)
    | CreateOutput(name: string, mimeType: string, size: nat)
    | CompleteImage(output: Id)
    | CompleteDefault
    | Announce(output: Id)
    | Work(i: nat)
    | Returned(output: Id)
    | Threw(message: string)

  datatype Move = Move(effect: Effect, pc: Pc)

  const STAGES := 5

  const ALL_PARTS := {BullProgress, RowProgress, PublishProgress}

  /** `Math.round((i / stages) * 100)`: halves round up. */
  function RoundedProgress(i: nat, stages: nat): nat
    requires stages > 0
  {
    (200 * i + stages) / (2 * stages)
  }

  datatype Format = Format(ext: string, mime: string)

  function ConvertFormat(jobType: string): Option<Format> {
    if jobType == "jpeg" then Some(Format("jpg", "image/jpeg"))
    else if jobType == "png" then Some(Format("png", "image/png"))
    else if jobType == "webp" then Some(Format("webp", "image/webp"))
    else None
  }

  predicate IsImageType(jobType: string) {
    jobType == "compress" || ConvertFormat(jobType).Some?
  }

  predicate IsImageJob(p: Payload) {
    IsImageType(p.jobType)
  }

  function MilestoneProgress(m: Milestone): nat {
    match m
    case Fetched(_) => 33
    case Transformed(_, _) => 66
    case Stage(i) => RoundedProgress(i, STAGES)
  }

  function StartReport(m: Milestone): Pc {
    Report(m, ALL_PARTS, None)
  }

  /** The name and type of the output: unchanged when compressing, else by target format. */
  function NamedOutput(p: Payload, input: FileRow, size: nat, stem: string): Pc {
    match ConvertFormat(p.jobType)
    case None => PutOutput(input.originalName, input.mimeType, size)
    case Some(format) => PutOutput(stem + "." + format.ext, format.mime, size)
  }

  function AfterMilestone(p: Payload, m: Milestone, stem: string): Pc {
    match m
    case Fetched(input) => Transform(input)
    case Transformed(input, size) => NamedOutput(p, input, size, stem)
    case Stage(i) => if i < STAGES then Work(i + 1) else CompleteDefault
  }

  /** The join of the three reports while those of `waiting` still run, and after it. */
  function Joined(p: Payload, m: Milestone, waiting: set<Part>, failure: Option<string>, text: string): Pc {
    if waiting != {} then Report(m, waiting, failure)
    else if failure.Some? then Threw(failure.value)
    else AfterMilestone(p, m, text)
  }

  function ReportEffect(p: Payload, m: Milestone, part: Part, at: int): Effect {
    match part
    case BullProgress => NoEffect
    case RowProgress => UpdateProgress(p.jobId, MilestoneProgress(m), at)
    case PublishProgress => Publish(ProgressMessage(p.jobId, MilestoneProgress(m)))
  }

  /** The joined call that ends next; any of those still running. */
  function Ending(waiting: set<Part>, part: Part): Part {
    if part in waiting then part
    else if BullProgress in waiting then BullProgress
    else if RowProgress in waiting then RowProgress
    else PublishProgress
  }

  function CompletedExtra(output: Option<Id>, path: Option<string>): Extra {
    Extra(Some(100), path, output, None)
  }

  function DefaultOutputPath(p: Payload): string {
    "processed/" + p.fileId + "/output.txt"
  }

  /** Continue with `pc` when the call succeeded, else leave by the exception. */
  function Unless(env: Env, pc: Pc): Pc {
    if env.outcome == Done then pc else Threw(env.error)
  }

  function OutputRow(p: Payload, name: string, mimeType: string, size: nat, at: int): FileRow {
    FileRow(p.userId, name, mimeType, size, OutputKey(p.userId, p.jobId, name), Ready, at, at)
  }

  /** The next await of the attempt at `pc`; `Returned` and `Threw` have none. */
  function Next(s: Store, p: Payload, pc: Pc, env: Env): Move {
    match pc
    case MarkActive =>
      Move(IfLanded(env, UpdateStatus(p.jobId, Active, NO_EXTRA.(progress := Some(0)), env.at)),
           Unless(env, if IsImageJob(p) then AnnounceActive else Work(1)))
    case AnnounceActive =>
      Move(IfLanded(env, Publish(ProgressMessage(p.jobId, 0))), Unless(env, ReadInput))
    case ReadInput =>
      if env.outcome != Done then Move(NoEffect, Threw(env.error))
      else (match FindFile(s, p.userId, p.fileId)
            case None => Move(NoEffect, Threw("Input file not found: " + p.fileId))
            case Some(input) => Move(NoEffect, FetchObject(input)))
    case FetchObject(input) =>
      if input.storagePath in s.objects then Move(NoEffect, Unless(env, StartReport(Fetched(input))))
      else Move(NoEffect, Threw(env.error))
    case Report(m, waiting, failure) =>
      var part := Ending(waiting, env.part);
      var rest := waiting - {part};
      var failed := if env.outcome == Done || failure.Some? then failure else Some(env.error);
      Move(IfLanded(env, ReportEffect(p, m, part, env.at)),
           Joined(p, m, rest, failed, env.text))
    case Transform(input) =>
      Move(NoEffect, Unless(env, StartReport(Transformed(input, env.size))))
    case PutOutput(name, mimeType, size) =>
      Move(IfLanded(env, PutObject(OutputKey(p.userId, p.jobId, name), size)),
           Unless(env, CreateOutput(name, mimeType, size)))
    case CreateOutput(name, mimeType, size) =>
      Move(IfLanded(env, InsertFile(env.newId, OutputRow(p, name, mimeType, size, env.at))),
           Unless(env, CompleteImage(env.newId)))
    case CompleteImage(output) =>
      var extra := CompletedExtra(Some(output), None);
      if KeepsForeignKey(s, p.jobId, extra) then
        Move(IfLanded(env, UpdateStatus(p.jobId, Completed, extra, env.at)), Unless(env, Announce(output)))
      else Move(NoEffect, Threw(env.error))
    case CompleteDefault =>
      Move(IfLanded(env, UpdateStatus(p.jobId, Completed, CompletedExtra(None, Some(DefaultOutputPath(p))), env.at)),
           Unless(env, Announce(p.fileId)))
    case Announce(output) =>
      Move(IfLanded(env, Publish(CompletedMessage(p.jobId, output))), Unless(env, Returned(output)))
    case Work(i) =>
      Move(NoEffect, StartReport(Stage(i)))
    case Returned(_) => Move(NoEffect, pc)
    case Threw(_) => Move(NoEffect, pc)
  }

  predicate Ended(pc: Pc) {
    pc.Returned? || pc.Threw?
  }

  // ---- How far an attempt still has to go ------------------------------------

  function StagesLeft(i: nat): nat {
    if i < STAGES then 4 * (STAGES - i) else 0
  }

  /** The steps to come at most, with one to settle the attempt and two to handle its failure. */
  function Rank(pc: Pc): nat {
    match pc
    case MarkActive => 26
    case AnnounceActive => 17
    case ReadInput => 16
    case FetchObject(_) => 15
    case Report(Fetched(_), waiting, _) => 11 + |waiting|
    case Transform(_) => 11
    case Report(Transformed(_, _), waiting, _) => 7 + |waiting|
    case PutOutput(_, _, _) => 7
    case CreateOutput(_, _, _) => 6
    case Work(i) => StagesLeft(i) + 9
    case Report(Stage(i), waiting, _) => StagesLeft(i) + 5 + |waiting|
    case CompleteImage(_) => 5
    case CompleteDefault => 5
    case Announce(_) => 4
    case Returned(_) => 3
    case Threw(_) => 3
  }

  predicate WaitingNonempty(pc: Pc) {
    pc.Report? ==> pc.waiting != {}
  }

  lemma EndingWaits(waiting: set<Part>, part: Part)
    requires waiting != {}
    ensures Ending(waiting, part) in waiting
  {
    var x :| x in waiting;
    assert x == BullProgress || x == RowProgress || x == PublishProgress;
  }

  /** Every await brings the attempt nearer to its end. */
  lemma RankDecreases(s: Store, p: Payload, pc: Pc, env: Env)
    requires !Ended(pc) && WaitingNonempty(pc)
    ensures Rank(Next(s, p, pc, env).pc) < Rank(pc) && WaitingNonempty(Next(s, p, pc, env).pc)
  {
    assert |ALL_PARTS| == 3;
    if pc.Report? {
      EndingWaits(pc.waiting, env.part);
      var rest := pc.waiting - {Ending(pc.waiting, env.part)};
      assert |rest| == |pc.waiting| - 1;
    }
  }
}
