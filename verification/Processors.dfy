/** The worker's processors and its `failed` handler, statement by statement. */
module Processors {
  import opened Wrappers
  import opened Keys
  import opened Messages
  import opened Store
  import opened Environment
  import opened Attempt
  import opened Solo
  import opened Repositories

  /** One of the joined reports ends: the run goes on with the others, or past the join. */
  lemma PartUnfolds(s: Store, p: Payload, m: Milestone, waiting: set<Part>, thrown: Option<string>, oracle: Oracle, k: nat)
    requires waiting != {}
    ensures var env := oracle(k);
            var part := Ending(waiting, env.part);
            var rest := waiting - {part};
            var thrown' := if env.outcome == Done || thrown.Some? then thrown else Some(env.error);
            && |rest| == |waiting| - 1
            && RunAttempt(s, p, Report(m, waiting, thrown), oracle, k)
               == RunAttempt(Apply(s, IfLanded(env, ReportEffect(p, m, part, env.at))), p,
                             Joined(p, m, rest, thrown', env.text), oracle, k + 1)
  {
    EndingWaits(waiting, oracle(k).part);
    RunUnfolds(s, p, Report(m, waiting, thrown), oracle, k);
  }

  class Worker {
    const backend: Backend
    const jobRepo: JobRepository
    const fileRepo: FileRepository
    const redis: Redis
    const minio: ObjectStorage

    constructor (backend: Backend)
      ensures Valid() && this.backend == backend
    {
      this.backend := backend;
      var jobs := new JobRepository(backend);
      var files := new FileRepository(backend);
      var channel := new Redis(backend);
      var storage := new ObjectStorage(backend);
      jobRepo, fileRepo, redis, minio := jobs, files, channel, storage;
    }

    ghost predicate Valid() {
      jobRepo.db == backend && fileRepo.db == backend && redis.backend == backend && minio.backend == backend
    }

    /** One of the three calls that report progress. */
    method ReportPart(p: Payload, m: Milestone, part: Part, env: Env)
      requires Valid()
      modifies backend
      ensures backend.View() == Apply(old(backend.View()), IfLanded(env, ReportEffect(p, m, part, env.at)))
    {
      match part {
        case BullProgress =>
        case RowProgress => var _ := jobRepo.UpdateProgress(p.jobId, MilestoneProgress(m), env);
        case PublishProgress => var _ := redis.Publish(ProgressMessage(p.jobId, MilestoneProgress(m)), env);
      }
    }

    /** One of the reports still running ends, keeping the first error. */
    method EndOneReport(p: Payload, m: Milestone, waiting: set<Part>, failure: Option<string>, oracle: Oracle, k: nat)
      returns (rest: set<Part>, thrown: Option<string>, text: string)
      requires Valid() && waiting != {}
      modifies backend
      ensures |rest| == |waiting| - 1 && text == oracle(k).text
      ensures thrown == if failure.Some? || oracle(k).outcome == Done then failure else Some(oracle(k).error)
      ensures RunAttempt(old(backend.View()), p, Report(m, waiting, failure), oracle, k)
              == RunAttempt(backend.View(), p, Joined(p, m, rest, thrown, text), oracle, k + 1)
    {
      var env := oracle(k);
      var part := Ending(waiting, env.part);
      PartUnfolds(backend.View(), p, m, waiting, failure, oracle, k);
      ReportPart(p, m, part, env);
      thrown := if env.outcome == Done || failure.Some? then failure else Some(env.error);
      text := env.text;
      rest := waiting - {part};
    }

    /**
     `Promise.all` over the three progress reports: they end in any order, and the first
     error, if any, is thrown once all have ended.
     */
    method ReportProgress(p: Payload, m: Milestone, oracle: Oracle, first: nat) returns (thrown: Option<string>, text: string)
      requires Valid()
      modifies backend
      ensures RunAttempt(old(backend.View()), p, StartReport(m), oracle, first)
              == RunAttempt(backend.View(), p, Joined(p, m, {}, thrown, text), oracle, first + 3)
      ensures text == oracle(first + 2).text
      ensures thrown == if oracle(first).outcome != Done then Some(oracle(first).error)
                        else if oracle(first + 1).outcome != Done then Some(oracle(first + 1).error)
                        else if oracle(first + 2).outcome != Done then Some(oracle(first + 2).error)
                        else None
    {
      assert |ALL_PARTS| == 3;
      var waiting;
      waiting, thrown, text := EndOneReport(p, m, ALL_PARTS, None, oracle, first);
      waiting, thrown, text := EndOneReport(p, m, waiting, thrown, oracle, first + 1);
      waiting, thrown, text := EndOneReport(p, m, waiting, thrown, oracle, first + 2);
      assert waiting == {};
    }

    /** The first awaits: mark the job active, announce it, find the input and open its object. */
    method OpenInput(p: Payload, oracle: Oracle) returns (thrown: Option<string>, file: Option<FileRow>)
      requires Valid() && IsImageJob(p)
      modifies backend
      ensures thrown.None? ==> file.Some?
      ensures RunAttempt(old(backend.View()), p, MarkActive, oracle, 0)
              == if thrown.Some? then AttemptEnd(backend.View(), Threw(thrown.value))
                 else RunAttempt(backend.View(), p, StartReport(Fetched(file.value)), oracle, 4)
    {
      thrown, file := None, None;
      ghost var goal := RunAttempt(backend.View(), p, MarkActive, oracle, 0);
      var ok := jobRepo.UpdateStatus(p.jobId, Active, NO_EXTRA.(progress := Some(0)), oracle(0));
      if !ok {
        return Some(oracle(0).error), None;
      }
      assert goal == RunAttempt(backend.View(), p, AnnounceActive, oracle, 1);
      ok := redis.Publish(ProgressMessage(p.jobId, 0), oracle(1));
      if !ok {
        return Some(oracle(1).error), None;
      }
      assert goal == RunAttempt(backend.View(), p, ReadInput, oracle, 2);
      ok, file := fileRepo.FindById(p.userId, p.fileId, oracle(2));
      if !ok {
        return Some(oracle(2).error), None;
      }
      if file.None? {
        return Some("Input file not found: " + p.fileId), None;
      }
      assert goal == RunAttempt(backend.View(), p, FetchObject(file.value), oracle, 3);
      ok := minio.GetObject(file.value.storagePath, oracle(3));
      if !ok {
        return Some(oracle(3).error), None;
      }
    }

    /** Compressing and converting. */
    method ProcessImage(p: Payload, oracle: Oracle) returns (thrown: Option<string>, output: Id)
      requires Valid() && IsImageJob(p)
      modifies backend
      ensures RunAttempt(old(backend.View()), p, MarkActive, oracle, 0)
              == AttemptEnd(backend.View(), if thrown.Some? then Threw(thrown.value) else Returned(output))
    {
      output := "";
      ghost var goal := RunAttempt(backend.View(), p, MarkActive, oracle, 0);
      var file;
      thrown, file := OpenInput(p, oracle);
      if thrown.Some? {
        return;
      }
      var input := file.value;
      var text;
      thrown, text := ReportProgress(p, Fetched(input), oracle, 4);
      if thrown.Some? {
        return;
      }
      assert goal == RunAttempt(backend.View(), p, Transform(input), oracle, 7);
      if oracle(7).outcome != Done {
        return Some(oracle(7).error), "";
      }
      thrown, output := FinishImage(p, input, oracle(7).size, oracle);
    }

    /** The second half: the transformed bytes are `size` bytes long. */
    method FinishImage(p: Payload, input: FileRow, size: nat, oracle: Oracle) returns (thrown: Option<string>, output: Id)
      requires Valid() && IsImageJob(p)
      modifies backend
      ensures RunAttempt(old(backend.View()), p, StartReport(Transformed(input, size)), oracle, 8)
              == AttemptEnd(backend.View(), if thrown.Some? then Threw(thrown.value) else Returned(output))
    {
      output := "";
      ghost var goal := RunAttempt(backend.View(), p, StartReport(Transformed(input, size)), oracle, 8);
      var stem;
      thrown, stem := ReportProgress(p, Transformed(input, size), oracle, 8);
      if thrown.Some? {
        return;
      }
      var format := ConvertFormat(p.jobType);
      var name := if format.Some? then stem + "." + format.value.ext else input.originalName;
      var mimeType := if format.Some? then format.value.mime else input.mimeType;
      assert goal == RunAttempt(backend.View(), p, PutOutput(name, mimeType, size), oracle, 11);
      var ok := minio.PutObject(OutputKey(p.userId, p.jobId, name), size, oracle(11));
      if !ok {
        return Some(oracle(11).error), "";
      }
      assert goal == RunAttempt(backend.View(), p, CreateOutput(name, mimeType, size), oracle, 12);
      thrown, output := CompleteImage(p, name, mimeType, size, oracle);
    }

    /** Once the output is stored: create its row, complete the job, announce it. */
    method CompleteImage(p: Payload, name: string, mimeType: string, size: nat, oracle: Oracle)
      returns (thrown: Option<string>, output: Id)
      requires Valid()
      modifies backend
      ensures RunAttempt(old(backend.View()), p, CreateOutput(name, mimeType, size), oracle, 12)
              == AttemptEnd(backend.View(), if thrown.Some? then Threw(thrown.value) else Returned(output))
    {
      thrown := None;
      ghost var goal := RunAttempt(backend.View(), p, CreateOutput(name, mimeType, size), oracle, 12);
      RunUnfolds(backend.View(), p, CreateOutput(name, mimeType, size), oracle, 12);
      output := oracle(12).newId;
      var ok := fileRepo.Create(output, OutputRow(p, name, mimeType, size, oracle(12).at), oracle(12));
      if !ok {
        return Some(oracle(12).error), "";
      }
      assert goal == RunAttempt(backend.View(), p, Pc.CompleteImage(output), oracle, 13);
      thrown := CompleteJob(p, output, oracle);
    }

    /** With the row of the output created: complete the job and announce it. */
    method CompleteJob(p: Payload, output: Id, oracle: Oracle) returns (thrown: Option<string>)
      requires Valid()
      modifies backend
      ensures RunAttempt(old(backend.View()), p, Pc.CompleteImage(output), oracle, 13)
              == AttemptEnd(backend.View(), if thrown.Some? then Threw(thrown.value) else Returned(output))
    {
      ghost var goal := RunAttempt(backend.View(), p, Pc.CompleteImage(output), oracle, 13);
      RunUnfolds(backend.View(), p, Pc.CompleteImage(output), oracle, 13);
      var ok := jobRepo.UpdateStatus(p.jobId, Completed, CompletedExtra(Some(output), None), oracle(13));
      if !ok {
        return Some(oracle(13).error);
      }
      assert goal == RunAttempt(backend.View(), p, Announce(output), oracle, 14);
      ok := redis.Publish(CompletedMessage(p.jobId, output), oracle(14));
      thrown := if ok then None else Some(oracle(14).error);
    }

    /** One stage of the simulated processing: its work, then its report. */
    method RunStage(p: Payload, i: nat, oracle: Oracle, k: nat) returns (thrown: Option<string>)
      requires Valid()
      modifies backend
      ensures RunAttempt(old(backend.View()), p, Work(i), oracle, k)
              == RunAttempt(backend.View(), p,
                            if thrown.Some? then Threw(thrown.value) else if i < STAGES then Work(i + 1) else Pc.CompleteDefault,
                            oracle, k + 4)
    {
      RunUnfolds(backend.View(), p, Work(i), oracle, k);
      var text;
      thrown, text := ReportProgress(p, Stage(i), oracle, k + 1);
    }

    method FinishDefault(p: Payload, oracle: Oracle, k: nat) returns (thrown: Option<string>)
      requires Valid()
      modifies backend
      ensures RunAttempt(old(backend.View()), p, Pc.CompleteDefault, oracle, k)
              == AttemptEnd(backend.View(), if thrown.Some? then Threw(thrown.value) else Returned(p.fileId))
    {
      ghost var goal := RunAttempt(backend.View(), p, Pc.CompleteDefault, oracle, k);
      var ok := jobRepo.UpdateStatus(p.jobId, Completed, CompletedExtra(None, Some(DefaultOutputPath(p))), oracle(k));
      if !ok {
        return Some(oracle(k).error);
      }
      assert goal == RunAttempt(backend.View(), p, Announce(p.fileId), oracle, k + 1);
      ok := redis.Publish(CompletedMessage(p.jobId, p.fileId), oracle(k + 1));
      thrown := if ok then None else Some(oracle(k + 1).error);
    }

    /** All stages in turn. */
    method RunStages(p: Payload, oracle: Oracle, first: nat) returns (thrown: Option<string>, k: nat)
      requires Valid()
      modifies backend
      ensures RunAttempt(old(backend.View()), p, Work(1), oracle, first)
              == RunAttempt(backend.View(), p, if thrown.Some? then Threw(thrown.value) else Pc.CompleteDefault, oracle, k)
    {
      k := first;
      ghost var pc := Work(1);
      for i := 1 to STAGES + 1
        invariant pc == if i <= STAGES then Work(i) else Pc.CompleteDefault
        invariant RunAttempt(old(backend.View()), p, Work(1), oracle, first) == RunAttempt(backend.View(), p, pc, oracle, k)
      {
        thrown := RunStage(p, i, oracle, k);
        k := k + 4;
        if thrown.Some? {
          return;
        }
        pc := if i < STAGES then Work(i + 1) else Pc.CompleteDefault;
      }
      thrown := None;
    }

    /** The simulated processing in stages. */
    method ProcessDefault(p: Payload, oracle: Oracle) returns (thrown: Option<string>)
      requires Valid() && !IsImageJob(p)
      modifies backend
      ensures RunAttempt(old(backend.View()), p, MarkActive, oracle, 0)
              == AttemptEnd(backend.View(), if thrown.Some? then Threw(thrown.value) else Returned(p.fileId))
    {
      ghost var goal := RunAttempt(backend.View(), p, MarkActive, oracle, 0);
      var ok := jobRepo.UpdateStatus(p.jobId, Active, NO_EXTRA.(progress := Some(0)), oracle(0));
      if !ok {
        return Some(oracle(0).error);
      }
      assert goal == RunAttempt(backend.View(), p, Work(1), oracle, 1);
      var k;
      thrown, k := RunStages(p, oracle, 1);
      if thrown.Some? {
        return;
      }
      thrown := FinishDefault(p, oracle, k);
    }

    /** The dispatch by job type; any type that is not an image job is processed by default. */
    method Process(p: Payload, oracle: Oracle) returns (thrown: Option<string>)
      requires Valid()
      modifies backend
      ensures var end := RunAttempt(old(backend.View()), p, MarkActive, oracle, 0);
              && end.store == backend.View()
              && (thrown.None? <==> end.pc.Returned?)
              && (thrown.Some? ==> end.pc == Threw(thrown.value))
    {
      if p.jobType == "compress" || p.jobType == "jpeg" || p.jobType == "png" || p.jobType == "webp" {
        var output;
        thrown, output := ProcessImage(p, oracle);
      } else {
        thrown := ProcessDefault(p, oracle);
      }
    }

    /** The `failed` listener: write the failure, then, if that worked, announce it. */
    method OnFailed(jobId: Id, message: string, write: Env, announce: Env)
      requires Valid()
      modifies backend
      ensures backend.View() == RunListener(old(backend.View()), jobId, message, write, announce)
      ensures backend.published == old(backend.published)
                + if write.outcome == Done && !announce.outcome.Refused?
                  then [Message("job:failed:" + jobId, Object(map["error" := Str(message)]))] else []
      ensures jobId in backend.jobs && !write.outcome.Refused?
              ==> backend.jobs[jobId].status == Failed && backend.jobs[jobId].errorMessage == Some(message)
    {
      var ok := jobRepo.UpdateStatus(jobId, Failed, NO_EXTRA.(errorMessage := Some(message)), write);
      if ok {
        assert "job:" + "failed" + ":" == "job:failed:";
        var _ := redis.Publish(FailedMessage(jobId, message), announce);
      }
    }
  }
}
