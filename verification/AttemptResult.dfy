/** What an attempt achieves when nothing disturbs it and every call succeeds. */
module AttemptResult {
  import opened Wrappers
  import opened Keys
  import opened Store
  import opened Environment
  import opened Attempt
  import opened Solo

  /** From await `k` on every call succeeds. */
  ghost predicate AllSucceed(oracle: Oracle) {
    forall k: nat :: oracle(k).outcome == Done
  }

  /** Between `s` and `s'` only job `j` has changed among the tables and objects. */
  ghost predicate OnlyJobChanged(s: Store, s': Store, j: Id) {
    && s'.users == s.users && s'.files == s.files && s'.objects == s.objects
    && s'.jobs.Keys == s.jobs.Keys
    && forall i | i in s.jobs && i != j :: s'.jobs[i] == s.jobs[i]
  }

  lemma ChangesCompose(s: Store, s': Store, s'': Store, j: Id)
    requires OnlyJobChanged(s, s', j) && OnlyJobChanged(s', s'', j)
    ensures OnlyJobChanged(s, s'', j)
  {}

  /** One of the joined reports: the run goes on with the others, or past the join. */
  lemma PartSucceeds(s: Store, p: Payload, m: Milestone, waiting: set<Part>, oracle: Oracle, k: nat)
    returns (s': Store, rest: set<Part>)
    requires oracle(k).outcome == Done && waiting != {}
    ensures |rest| == |waiting| - 1 && OnlyJobChanged(s, s', p.jobId)
    ensures RunAttempt(s, p, Report(m, waiting, None), oracle, k)
            == RunAttempt(s', p, if rest != {} then Report(m, rest, None) else AfterMilestone(p, m, oracle(k).text), oracle, k + 1)
  {
    EndingWaits(waiting, oracle(k).part);
    RunUnfolds(s, p, Report(m, waiting, None), oracle, k);
    var part := Ending(waiting, oracle(k).part);
    rest := waiting - {part};
    s' := Apply(s, ReportEffect(p, m, part, oracle(k).at));
  }

  lemma {:induction false} ReportSucceeds(s: Store, p: Payload, m: Milestone, waiting: set<Part>, oracle: Oracle, k: nat)
    returns (s': Store)
    requires AllSucceed(oracle) && waiting != {}
    ensures RunAttempt(s, p, Report(m, waiting, None), oracle, k)
            == RunAttempt(s', p, AfterMilestone(p, m, oracle(k + |waiting| - 1).text), oracle, k + |waiting|)
    ensures OnlyJobChanged(s, s', p.jobId)
    decreases |waiting|
  {
    var s1, rest := PartSucceeds(s, p, m, waiting, oracle, k);
    if rest == {} {
      s' := s1;
    } else {
      s' := ReportSucceeds(s1, p, m, rest, oracle, k + 1);
      ChangesCompose(s, s1, s', p.jobId);
    }
  }

  lemma AllPartsReport(s: Store, p: Payload, m: Milestone, oracle: Oracle, k: nat) returns (s': Store)
    requires AllSucceed(oracle)
    ensures RunAttempt(s, p, StartReport(m), oracle, k) == RunAttempt(s', p, AfterMilestone(p, m, oracle(k + 2).text), oracle, k + 3)
    ensures OnlyJobChanged(s, s', p.jobId)
  {
    assert |ALL_PARTS| == 3;
    s' := ReportSucceeds(s, p, m, ALL_PARTS, oracle, k);
  }

  lemma JobIsMarked(s: Store, p: Payload, oracle: Oracle) returns (s': Store)
    requires oracle(0).outcome == Done
    ensures RunAttempt(s, p, MarkActive, oracle, 0) == RunAttempt(s', p, if IsImageJob(p) then AnnounceActive else Work(1), oracle, 1)
    ensures OnlyJobChanged(s, s', p.jobId)
  {
    RunUnfolds(s, p, MarkActive, oracle, 0);
    s' := Apply(s, Attempt.Next(s, p, MarkActive, oracle(0)).effect);
  }

  lemma InputIsFound(s: Store, p: Payload, input: FileRow, oracle: Oracle) returns (s': Store)
    requires oracle(1).outcome == oracle(2).outcome == oracle(3).outcome == Done
    requires FindFile(s, p.userId, p.fileId) == Some(input) && input.storagePath in s.objects
    ensures RunAttempt(s, p, AnnounceActive, oracle, 1) == RunAttempt(s', p, StartReport(Fetched(input)), oracle, 4)
    ensures OnlyJobChanged(s, s', p.jobId)
  {
    RunUnfolds(s, p, AnnounceActive, oracle, 1);
    s' := Apply(s, Attempt.Next(s, p, AnnounceActive, oracle(1)).effect);
    RunUnfolds(s', p, ReadInput, oracle, 2);
    RunUnfolds(s', p, FetchObject(input), oracle, 3);
  }

  lemma ImageIsFetched(s: Store, p: Payload, input: FileRow, oracle: Oracle) returns (s': Store)
    requires AllSucceed(oracle) && IsImageJob(p)
    requires FindFile(s, p.userId, p.fileId) == Some(input) && input.storagePath in s.objects
    ensures RunAttempt(s, p, MarkActive, oracle, 0) == RunAttempt(s', p, StartReport(Fetched(input)), oracle, 4)
    ensures OnlyJobChanged(s, s', p.jobId)
  {
    var s1 := JobIsMarked(s, p, oracle);
    s' := InputIsFound(s1, p, input, oracle);
    ChangesCompose(s, s1, s', p.jobId);
  }

  lemma ImageTransforms(s: Store, p: Payload, input: FileRow, oracle: Oracle)
    requires oracle(7).outcome == Done
    ensures RunAttempt(s, p, Transform(input), oracle, 7)
            == RunAttempt(s, p, StartReport(Transformed(input, oracle(7).size)), oracle, 8)
  {
    RunUnfolds(s, p, Transform(input), oracle, 7);
  }

  lemma FetchIsReported(s: Store, p: Payload, input: FileRow, oracle: Oracle) returns (s': Store)
    requires AllSucceed(oracle)
    ensures RunAttempt(s, p, StartReport(Fetched(input)), oracle, 4) == RunAttempt(s', p, Transform(input), oracle, 7)
    ensures OnlyJobChanged(s, s', p.jobId)
  {
    s' := AllPartsReport(s, p, Fetched(input), oracle, 4);
  }

  lemma TransformIsReported(s: Store, p: Payload, input: FileRow, size: nat, oracle: Oracle) returns (s': Store)
    requires AllSucceed(oracle)
    ensures RunAttempt(s, p, StartReport(Transformed(input, size)), oracle, 8)
            == RunAttempt(s', p, NamedOutput(p, input, size, oracle(10).text), oracle, 11)
    ensures OnlyJobChanged(s, s', p.jobId)
  {
    s' := AllPartsReport(s, p, Transformed(input, size), oracle, 8);
  }

  lemma FetchedIsTransformed(s: Store, p: Payload, input: FileRow, oracle: Oracle) returns (s': Store)
    requires AllSucceed(oracle)
    ensures RunAttempt(s, p, StartReport(Fetched(input)), oracle, 4)
            == RunAttempt(s', p, NamedOutput(p, input, oracle(7).size, oracle(10).text), oracle, 11)
    ensures OnlyJobChanged(s, s', p.jobId)
  {
    var s1 := FetchIsReported(s, p, input, oracle);
    ImageTransforms(s1, p, input, oracle);
    s' := TransformIsReported(s1, p, input, oracle(7).size, oracle);
    ChangesCompose(s, s1, s', p.jobId);
  }

  /** Up to the transformation, and through the report that follows it. */
  lemma ImageIsTransformed(s: Store, p: Payload, input: FileRow, oracle: Oracle) returns (s': Store)
    requires AllSucceed(oracle) && IsImageJob(p)
    requires FindFile(s, p.userId, p.fileId) == Some(input) && input.storagePath in s.objects
    ensures RunAttempt(s, p, MarkActive, oracle, 0) == RunAttempt(s', p, NamedOutput(p, input, oracle(7).size, oracle(10).text), oracle, 11)
    ensures OnlyJobChanged(s, s', p.jobId)
  {
    var s1 := ImageIsFetched(s, p, input, oracle);
    s' := FetchedIsTransformed(s1, p, input, oracle);
    ChangesCompose(s, s1, s', p.jobId);
  }

  lemma OutputIsRecorded(s: Store, p: Payload, name: string, mimeType: string, size: nat, oracle: Oracle) returns (s': Store)
    requires oracle(11).outcome == oracle(12).outcome == Done
    ensures RunAttempt(s, p, PutOutput(name, mimeType, size), oracle, 11) == RunAttempt(s', p, CompleteImage(oracle(12).newId), oracle, 13)
    ensures s' == s.(objects := s.objects[OutputKey(p.userId, p.jobId, name) := size],
                     files := s.files[oracle(12).newId := OutputRow(p, name, mimeType, size, oracle(12).at)])
  {
    RunUnfolds(s, p, PutOutput(name, mimeType, size), oracle, 11);
    var s1 := Apply(s, PutObject(OutputKey(p.userId, p.jobId, name), size));
    RunUnfolds(s1, p, CreateOutput(name, mimeType, size), oracle, 12);
    s' := Apply(s1, InsertFile(oracle(12).newId, OutputRow(p, name, mimeType, size, oracle(12).at)));
  }

  lemma JobIsCompleted(s: Store, p: Payload, output: Id, oracle: Oracle)
    requires oracle(13).outcome == oracle(14).outcome == Done && p.jobId in s.jobs && output in s.files
    ensures var end := RunAttempt(s, p, CompleteImage(output), oracle, 13);
            && end.pc == Returned(output)
            && end.store.files == s.files && end.store.objects == s.objects
            && end.store.jobs == s.jobs[p.jobId := WithStatus(s.jobs[p.jobId], Completed, CompletedExtra(Some(output), None), oracle(13).at)]
  {
    RunUnfolds(s, p, CompleteImage(output), oracle, 13);
    var s1 := Apply(s, UpdateStatus(p.jobId, Completed, CompletedExtra(Some(output), None), oracle(13).at));
    RunUnfolds(s1, p, Announce(output), oracle, 14);
  }

  /** The last awaits: store the output, record it, complete the job and announce it. */
  lemma ImageIsCompleted(s: Store, p: Payload, name: string, mimeType: string, size: nat, oracle: Oracle)
    requires AllSucceed(oracle) && p.jobId in s.jobs && oracle(12).newId !in s.files
    ensures var end := RunAttempt(s, p, PutOutput(name, mimeType, size), oracle, 11);
            var output, key := oracle(12).newId, OutputKey(p.userId, p.jobId, name);
            && end.pc == Returned(output)
            && end.store.files == s.files[output := OutputRow(p, name, mimeType, size, oracle(12).at)]
            && end.store.objects == s.objects[key := size]
            && end.store.jobs == s.jobs[p.jobId := WithStatus(s.jobs[p.jobId], Completed, CompletedExtra(Some(output), None), oracle(13).at)]
  {
    var output := oracle(12).newId;
    var s2 := OutputIsRecorded(s, p, name, mimeType, size, oracle);
    JobIsCompleted(s2, p, output, oracle);
  }

  /** The name and type of an output; `stem` is the name of the input without its extension. */
  predicate IsNamed(p: Payload, input: FileRow, stem: string, output: FileRow) {
    && (p.jobType == "compress" ==> output.originalName == input.originalName && output.mimeType == input.mimeType)
    && (p.jobType == "jpeg" ==> output.originalName == stem + ".jpg" && output.mimeType == "image/jpeg")
    && (p.jobType == "png" ==> output.originalName == stem + ".png" && output.mimeType == "image/png")
    && (p.jobType == "webp" ==> output.originalName == stem + ".webp" && output.mimeType == "image/webp")
  }

  lemma OutputIsNamed(p: Payload, input: FileRow, size: nat, stem: string, at: int)
    requires IsImageJob(p)
    ensures var put := NamedOutput(p, input, size, stem);
            IsNamed(p, input, stem, OutputRow(p, put.name, put.mimeType, put.size, at)) && put.size == size
  {
    if p.jobType != "compress" {
      var format := ConvertFormat(p.jobType).value;
      assert stem + "." + format.ext == stem + ("." + format.ext);
      assert "." + "jpg" == ".jpg" && "." + "png" == ".png" && "." + "webp" == ".webp";
    }
  }

  /**
   An undisturbed image attempt adds one ready file for the owner, stored under the
   job's own key with exactly the size of the transformed image, and completes the job
   with it; every other file, job and object is as before.  The file is named and typed as
   the input when compressing, else by the stem of the input's name and the target format.
   */
  lemma UndisturbedImageAttempt(s: Store, p: Payload, oracle: Oracle)
    requires AllSucceed(oracle) && IsImageJob(p) && p.jobId in s.jobs && oracle(12).newId !in s.files
    requires FindFile(s, p.userId, p.fileId).Some? && s.files[p.fileId].storagePath in s.objects
    ensures var end := RunAttempt(s, p, MarkActive, oracle, 0);
            var output := oracle(12).newId;
            && end.pc == Returned(output)
            && output in end.store.files && end.store.files - {output} == s.files
            && p.jobId in end.store.jobs
            && var file, job := end.store.files[output], end.store.jobs[p.jobId];
               && file.userId == p.userId && file.status == Ready && file.size == oracle(7).size
               && file.storagePath == "processed/" + p.userId + "/" + p.jobId + "/" + file.originalName
               && file.createdAt == file.updatedAt == oracle(12).at
               && IsNamed(p, s.files[p.fileId], oracle(10).text, file)
               && file.storagePath in end.store.objects && end.store.objects[file.storagePath] == file.size
               && (forall key | key in s.objects && key != file.storagePath ::
                     key in end.store.objects && end.store.objects[key] == s.objects[key])
               && job.status == Completed && job.progress == 100 && job.outputFileId == Some(output)
               && (forall j | j in s.jobs && j != p.jobId :: j in end.store.jobs && end.store.jobs[j] == s.jobs[j])
  {
    var input := s.files[p.fileId];
    var s' := ImageIsTransformed(s, p, input, oracle);
    var put := NamedOutput(p, input, oracle(7).size, oracle(10).text);
    ImageIsCompleted(s', p, put.name, put.mimeType, put.size, oracle);
    OutputIsNamed(p, input, oracle(7).size, oracle(10).text, oracle(12).at);
    assert s.files[oracle(12).newId := OutputRow(p, put.name, put.mimeType, put.size, oracle(12).at)] - {oracle(12).newId} == s.files;
  }

  lemma StageWorks(s: Store, p: Payload, i: nat, oracle: Oracle, k: nat)
    requires oracle(k).outcome == Done
    ensures RunAttempt(s, p, Work(i), oracle, k) == RunAttempt(s, p, StartReport(Stage(i)), oracle, k + 1)
  {
    RunUnfolds(s, p, Work(i), oracle, k);
  }

  lemma StageSucceeds(s: Store, p: Payload, i: nat, oracle: Oracle, k: nat) returns (s': Store)
    requires AllSucceed(oracle) && 1 <= i < STAGES
    ensures RunAttempt(s, p, Work(i), oracle, k) == RunAttempt(s', p, Work(i + 1), oracle, k + 4)
    ensures OnlyJobChanged(s, s', p.jobId)
  {
    StageWorks(s, p, i, oracle, k);
    s' := AllPartsReport(s, p, Stage(i), oracle, k + 1);
  }

  lemma LastStageSucceeds(s: Store, p: Payload, oracle: Oracle, k: nat) returns (s': Store)
    requires AllSucceed(oracle)
    ensures RunAttempt(s, p, Work(STAGES), oracle, k) == RunAttempt(s', p, CompleteDefault, oracle, k + 4)
    ensures OnlyJobChanged(s, s', p.jobId)
  {
    StageWorks(s, p, STAGES, oracle, k);
    s' := AllPartsReport(s, p, Stage(STAGES), oracle, k + 1);
  }

  lemma {:induction false} StagesSucceed(s: Store, p: Payload, i: nat, oracle: Oracle, k: nat) returns (s': Store, k': nat)
    requires AllSucceed(oracle) && 1 <= i <= STAGES
    ensures RunAttempt(s, p, Work(i), oracle, k) == RunAttempt(s', p, CompleteDefault, oracle, k')
    ensures OnlyJobChanged(s, s', p.jobId)
    decreases STAGES - i
  {
    if i == STAGES {
      s' := LastStageSucceeds(s, p, oracle, k);
      k' := k + 4;
    } else {
      var s1 := StageSucceeds(s, p, i, oracle, k);
      s', k' := StagesSucceed(s1, p, i + 1, oracle, k + 4);
      ChangesCompose(s, s1, s', p.jobId);
    }
  }

  lemma DefaultIsCompleted(s: Store, p: Payload, oracle: Oracle, k: nat)
    requires oracle(k).outcome == oracle(k + 1).outcome == Done && p.jobId in s.jobs
    ensures var end := RunAttempt(s, p, CompleteDefault, oracle, k);
            && end.pc == Returned(p.fileId)
            && OnlyJobChanged(s, end.store, p.jobId)
            && var job := end.store.jobs[p.jobId];
               job.status == Completed && job.progress == 100 && job.outputPath == Some("processed/" + p.fileId + "/output.txt")
  {
    RunUnfolds(s, p, CompleteDefault, oracle, k);
    var s1 := Apply(s, Attempt.Next(s, p, CompleteDefault, oracle(k)).effect);
    RunUnfolds(s1, p, Announce(p.fileId), oracle, k + 1);
  }

  /** An undisturbed default attempt completes the job without an output file and stores nothing. */
  lemma UndisturbedDefaultAttempt(s: Store, p: Payload, oracle: Oracle)
    requires AllSucceed(oracle) && !IsImageJob(p) && p.jobId in s.jobs
    ensures var end := RunAttempt(s, p, MarkActive, oracle, 0);
            && end.pc == Returned(p.fileId)
            && OnlyJobChanged(s, end.store, p.jobId)
            && var job := end.store.jobs[p.jobId];
               job.status == Completed && job.progress == 100 && job.outputPath == Some("processed/" + p.fileId + "/output.txt")
  {
    var s1 := JobIsMarked(s, p, oracle);
    var s2, k := StagesSucceed(s1, p, 1, oracle, 1);
    DefaultIsCompleted(s2, p, oracle, k);
    var end := RunAttempt(s, p, MarkActive, oracle, 0);
    ChangesCompose(s, s1, s2, p.jobId);
    ChangesCompose(s, s2, end.store, p.jobId);
  }

  // ---- Attempts that throw ----------------------------------------------------

  /** A call that is not acknowledged ends the attempt with its error; the joined reports wait for each other. */
  lemma FailedCallThrows(s: Store, p: Payload, pc: Pc, env: Env)
    requires env.outcome != Done && !Ended(pc) && !pc.Report? && !pc.Work?
    ensures Attempt.Next(s, p, pc, env).pc == Threw(env.error)
  {}

  lemma InputIsMissing(s: Store, p: Payload, oracle: Oracle)
    requires oracle(1).outcome == oracle(2).outcome == Done
    requires p.fileId in s.files ==> s.files[p.fileId].userId != p.userId
    ensures var end := RunAttempt(s, p, AnnounceActive, oracle, 1);
            end.pc == Threw("Input file not found: " + p.fileId) && OnlyJobChanged(s, end.store, p.jobId)
            && end.store.jobs == s.jobs
  {
    RunUnfolds(s, p, AnnounceActive, oracle, 1);
    var s1 := Apply(s, Attempt.Next(s, p, AnnounceActive, oracle(1)).effect);
    RunUnfolds(s1, p, ReadInput, oracle, 2);
  }

  lemma MarkedRow(s: Store, p: Payload, oracle: Oracle) returns (s': Store)
    requires oracle(0).outcome == Done && IsImageJob(p) && p.jobId in s.jobs
    ensures RunAttempt(s, p, MarkActive, oracle, 0) == RunAttempt(s', p, AnnounceActive, oracle, 1)
    ensures s' == s.(jobs := s.jobs[p.jobId := s.jobs[p.jobId].(status := Active, progress := 0, updatedAt := oracle(0).at)])
  {
    RunUnfolds(s, p, MarkActive, oracle, 0);
    s' := Apply(s, Attempt.Next(s, p, MarkActive, oracle(0)).effect);
  }

  /** An image attempt whose input is not there, or is another user's, marks the job active and throws. */
  lemma MissingInputThrows(s: Store, p: Payload, oracle: Oracle)
    requires AllSucceed(oracle) && IsImageJob(p) && p.jobId in s.jobs
    requires p.fileId in s.files ==> s.files[p.fileId].userId != p.userId
    ensures var end := RunAttempt(s, p, MarkActive, oracle, 0);
            && end.pc == Threw("Input file not found: " + p.fileId)
            && end.store.files == s.files && end.store.objects == s.objects && end.store.users == s.users
            && end.store.jobs == s.jobs[p.jobId := s.jobs[p.jobId].(status := Active, progress := 0, updatedAt := oracle(0).at)]
  {
    var s1 := MarkedRow(s, p, oracle);
    InputIsMissing(s1, p, oracle);
  }

  lemma ObjectIsMissing(s: Store, p: Payload, input: FileRow, oracle: Oracle)
    requires oracle(1).outcome == oracle(2).outcome == Done
    requires FindFile(s, p.userId, p.fileId) == Some(input) && input.storagePath !in s.objects
    ensures var end := RunAttempt(s, p, AnnounceActive, oracle, 1);
            end.pc == Threw(oracle(3).error) && OnlyJobChanged(s, end.store, p.jobId) && end.store.jobs == s.jobs
  {
    RunUnfolds(s, p, AnnounceActive, oracle, 1);
    var s1 := Apply(s, Attempt.Next(s, p, AnnounceActive, oracle(1)).effect);
    RunUnfolds(s1, p, ReadInput, oracle, 2);
    RunUnfolds(s1, p, FetchObject(input), oracle, 3);
  }

  /** An image attempt whose input has no object does so too, with the error of the storage. */
  lemma MissingObjectThrows(s: Store, p: Payload, oracle: Oracle)
    requires AllSucceed(oracle) && IsImageJob(p) && p.jobId in s.jobs
    requires p.fileId in s.files && s.files[p.fileId].userId == p.userId && s.files[p.fileId].storagePath !in s.objects
    ensures var end := RunAttempt(s, p, MarkActive, oracle, 0);
            && end.pc == Threw(oracle(3).error)
            && end.store.files == s.files && end.store.objects == s.objects && end.store.users == s.users
            && end.store.jobs == s.jobs[p.jobId := s.jobs[p.jobId].(status := Active, progress := 0, updatedAt := oracle(0).at)]
  {
    var s1 := MarkedRow(s, p, oracle);
    ObjectIsMissing(s1, p, s.files[p.fileId], oracle);
  }
}
