/** `FileService` and `JobService`, statement by statement, and what a lone call achieves. */
module Services {
  import opened Wrappers
  import opened Keys
  import opened Store
  import opened Environment
  import opened Attempt
  import opened Calls
  import opened Solo
  import opened Repositories

  function FailedWith(env: Env): Reply {
    Crashed(env.error)
  }

  class FileService {
    const backend: Backend
    const repo: FileRepository
    const storage: ObjectStorage

    constructor (backend: Backend)
      ensures Valid() && this.backend == backend
    {
      this.backend := backend;
      var files := new FileRepository(backend);
      var objects := new ObjectStorage(backend);
      repo, storage := files, objects;
    }

    ghost predicate Valid() {
      repo.db == backend && storage.backend == backend
    }

    /** `form`: the key and size that the returned upload form is signed for. */
    method CreateUploadUrl(userId: Id, input: UploadInput, oracle: Oracle) returns (reply: Reply, form: Option<(string, nat)>)
      requires Valid()
      modifies backend
      ensures var m := BeginUpload(userId, input, oracle(0));
              RunCall(Apply(old(backend.View()), m.effect), m.call, oracle, 1) == CallEnd(backend.View(), reply, None)
      ensures form.Some? <==> reply.Accepted?
      ensures form.Some? ==> form.value == (userId + "/" + oracle(0).uuid + oracle(0).text, input.size)
    {
      form := None;
      if input.size <= 0 {
        return Rejected("INVALID_FILE_SIZE"), None;
      }
      if input.size > MAX_FILE_SIZE_BYTES {
        return Rejected("FILE_TOO_LARGE"), None;
      }
      var ok := repo.Create(oracle(0).newId, ReservedRow(userId, input, oracle(0)), oracle(0));
      if !ok {
        return FailedWith(oracle(0)), None;
      }
      if oracle(1).outcome != Done {
        return FailedWith(oracle(1)), None;
      }
      reply, form := Accepted, Some((UploadKey(userId, oracle(0).uuid, oracle(0).text), input.size));
    }

    method ConfirmUpload(userId: Id, fileId: Id, oracle: Oracle) returns (reply: Reply)
      requires Valid()
      modifies backend
      ensures RunCall(old(backend.View()), BeginConfirm(old(backend.View()), userId, fileId, oracle(0)), oracle, 1)
              == CallEnd(backend.View(), reply, None)
    {
      var ok, found := repo.FindById(userId, fileId, oracle(0));
      if !ok {
        return FailedWith(oracle(0));
      }
      if found.None? {
        return Rejected("FILE_NOT_FOUND");
      }
      var file := found.value;
      if file.status == Ready {
        return Accepted;
      }
      if file.status != FileStatus.Pending {
        return Rejected("FILE_NOT_PENDING");
      }
      var stat := storage.StatObject(file.storagePath, oracle(1));
      if stat.None? {
        return Rejected("UPLOAD_NOT_FOUND");
      }
      if stat.value != file.size {
        return Rejected("UPLOAD_SIZE_MISMATCH");
      }
      CallUnfolds(backend.View(), Stating(userId, fileId, file), oracle, 1);
      CallUnfolds(backend.View(), Marking(userId, fileId, file), oracle, 2);
      var updated;
      ok, updated := repo.MarkReady(userId, fileId, oracle(2));
      if !ok {
        return FailedWith(oracle(2));
      }
      reply := if updated then Accepted else Rejected("FILE_NOT_PENDING");
    }

    method Delete(userId: Id, fileId: Id, oracle: Oracle) returns (reply: Reply)
      requires Valid()
      modifies backend
      ensures RunCall(old(backend.View()), BeginDelete(old(backend.View()), userId, fileId, oracle(0)), oracle, 1)
              == CallEnd(backend.View(), reply, None)
    {
      var ok, found := repo.FindById(userId, fileId, oracle(0));
      if !ok {
        return FailedWith(oracle(0));
      }
      if found.None? {
        return Rejected("FILE_NOT_FOUND");
      }
      if found.value.status == Deleted {
        return Rejected("FILE_ALREADY_DELETED");
      }
      ok := repo.SoftDelete(userId, fileId, oracle(1));
      reply := if ok then Accepted else FailedWith(oracle(1));
    }
  }

  class JobService {
    const backend: Backend
    const jobRepo: JobRepository
    const fileRepo: FileRepository
    var queue: seq<Payload>

    constructor (backend: Backend)
      ensures Valid() && this.backend == backend && queue == []
    {
      this.backend := backend;
      var jobs := new JobRepository(backend);
      var files := new FileRepository(backend);
      jobRepo, fileRepo, queue := jobs, files, [];
    }

    ghost predicate Valid() {
      jobRepo.db == backend && fileRepo.db == backend
    }

    method Create(userId: Id, fileId: Id, jobType: string, oracle: Oracle) returns (reply: Reply)
      requires Valid()
      modifies this, backend
      ensures var end := RunCall(old(backend.View()), BeginJob(old(backend.View()), userId, fileId, jobType, oracle(0)), oracle, 1);
              && end.store == backend.View() && end.reply == reply
              && queue == old(queue) + if end.enqueued.Some? then [end.enqueued.value] else []
    {
      var ok, found := fileRepo.FindById(userId, fileId, oracle(0));
      if !ok {
        return FailedWith(oracle(0));
      }
      if found.None? || found.value.status == Deleted {
        return Rejected("FILE_NOT_FOUND");
      }
      if found.value.status != Ready {
        return Rejected("FILE_NOT_READY");
      }
      var jobId := oracle(1).newId;
      CallUnfolds(backend.View(), InsertingJob(userId, fileId, jobType), oracle, 1);
      ok := jobRepo.Create(jobId, NewJob(userId, fileId, jobType, oracle(1).at), oracle(1));
      if !ok {
        return FailedWith(oracle(1));
      }
      CallUnfolds(backend.View(), Enqueuing(Payload(jobId, fileId, userId, jobType)), oracle, 2);
      if oracle(2).outcome.Landed() {
        queue := queue + [Payload(jobId, fileId, userId, jobType)];
      }
      reply := if oracle(2).outcome == Done then Accepted else FailedWith(oracle(2));
    }

    method Cancel(userId: Id, jobId: Id, oracle: Oracle) returns (reply: Reply)
      requires Valid()
      modifies backend
      ensures RunCall(old(backend.View()), BeginCancel(old(backend.View()), userId, jobId, oracle(0)), oracle, 1)
              == CallEnd(backend.View(), reply, None)
    {
      var ok, found := jobRepo.FindById(userId, jobId, oracle(0));
      if !ok {
        return FailedWith(oracle(0));
      }
      if found.None? {
        return Rejected("JOB_NOT_FOUND");
      }
      if found.value.userId != userId {
        return Rejected("FORBIDDEN");
      }
      if found.value.status != JobStatus.Pending {
        return Rejected("JOB_NOT_CANCELLABLE");
      }
      ok := jobRepo.Cancel(userId, jobId, oracle(1));
      reply := if ok then Accepted else FailedWith(oracle(1));
    }
  }

  // ---- Calls that nothing disturbs -------------------------------------------

  /** The await that ended with `env` went wrong for the caller. */
  predicate Fails(env: Env) {
    env.outcome != Done
  }

  /**
   A lone reservation succeeds exactly for a size from 1 to 50 MiB and calls that succeed.
   It adds one pending file under the owner's key if its insert takes effect, and nothing else.
   */
  lemma ReserveSucceedsExactly(s: Store, userId: Id, input: UploadInput, oracle: Oracle)
    ensures var m := BeginUpload(userId, input, oracle(0));
            var end := RunCall(Apply(s, m.effect), m.call, oracle, 1);
            var admissible := 0 < input.size <= 52428800;
            && end.reply == (if input.size <= 0 then Rejected("INVALID_FILE_SIZE")
                             else if !admissible then Rejected("FILE_TOO_LARGE")
                             else if Fails(oracle(0)) then Crashed(oracle(0).error)
                             else if Fails(oracle(1)) then Crashed(oracle(1).error)
                             else Accepted)
            && end.enqueued == None
            && end.store == if admissible && !oracle(0).outcome.Refused?
                            then s.(files := s.files[oracle(0).newId :=
                                   FileRow(userId, input.filename, input.mimeType, input.size,
                                           userId + "/" + oracle(0).uuid + oracle(0).text,
                                           FileStatus.Pending, oracle(0).at, oracle(0).at)])
                            else s
  {
    var m := BeginUpload(userId, input, oracle(0));
    if m.call.Presigning? {
      CallUnfolds(Apply(s, m.effect), m.call, oracle, 1);
    }
  }

  /** The row of the user's file, if it is the user's. */
  function Own(s: Store, userId: Id, fileId: Id): (file: Option<FileRow>)
    ensures file.Some? <==> fileId in s.files && s.files[fileId].userId == userId
    ensures file.Some? ==> file.value == s.files[fileId]
  {
    FindFile(s, userId, fileId)
  }

  /** A lone deletion succeeds exactly for the owner's file that is not deleted yet, and marks only that one. */
  lemma DeleteSucceedsExactly(s: Store, userId: Id, fileId: Id, oracle: Oracle)
    ensures var end := RunCall(s, BeginDelete(s, userId, fileId, oracle(0)), oracle, 1);
            var file := Own(s, userId, fileId);
            var goes := !Fails(oracle(0)) && file.Some? && file.value.status != Deleted;
            && end.reply == (if Fails(oracle(0)) then Crashed(oracle(0).error)
                             else if file.None? then Rejected("FILE_NOT_FOUND")
                             else if file.value.status == Deleted then Rejected("FILE_ALREADY_DELETED")
                             else if Fails(oracle(1)) then Crashed(oracle(1).error)
                             else Accepted)
            && end.enqueued == None
            && end.store == if goes && !oracle(1).outcome.Refused?
                            then s.(files := s.files[fileId := file.value.(status := Deleted, updatedAt := oracle(1).at)])
                            else s
  {
    var call := BeginDelete(s, userId, fileId, oracle(0));
    if call.Deleting? {
      CallUnfolds(s, call, oracle, 1);
    }
  }

  /**
   A lone confirmation succeeds exactly for a ready file, or a pending one whose upload is
   complete; it makes the latter ready and changes nothing else.  Each other case has an
   answer of its own; a storage error counts as a missing upload.
   */
  lemma ConfirmSucceedsExactly(s: Store, userId: Id, fileId: Id, oracle: Oracle)
    ensures var end := RunCall(s, BeginConfirm(s, userId, fileId, oracle(0)), oracle, 1);
            var file := Own(s, userId, fileId);
            var asks := !Fails(oracle(0)) && file.Some? && file.value.status == FileStatus.Pending;
            && end.reply == (if Fails(oracle(0)) then Crashed(oracle(0).error)
                             else if file.None? then Rejected("FILE_NOT_FOUND")
                             else if file.value.status == Ready then Accepted
                             else if file.value.status == Deleted then Rejected("FILE_NOT_PENDING")
                             else if Fails(oracle(1)) || file.value.storagePath !in s.objects then Rejected("UPLOAD_NOT_FOUND")
                             else if s.objects[file.value.storagePath] != file.value.size then Rejected("UPLOAD_SIZE_MISMATCH")
                             else if Fails(oracle(2)) then Crashed(oracle(2).error)
                             else Accepted)
            && end.enqueued == None
            && end.store == if asks && !Fails(oracle(1)) && HasObject(s, file.value) && !oracle(2).outcome.Refused?
                            then s.(files := s.files[fileId := file.value.(status := Ready, updatedAt := oracle(2).at)])
                            else s
  {
    var call := BeginConfirm(s, userId, fileId, oracle(0));
    if call.Stating? {
      CallUnfolds(s, call, oracle, 1);
      var next := Calls.Next(s, call, oracle(1)).call;
      if next.Marking? {
        CallUnfolds(s, next, oracle, 2);
      }
    }
  }

  /** A lone job creation succeeds exactly for a ready file; it adds one pending job and queues it. */
  lemma CreateJobSucceedsExactly(s: Store, userId: Id, fileId: Id, jobType: string, oracle: Oracle)
    ensures var end := RunCall(s, BeginJob(s, userId, fileId, jobType, oracle(0)), oracle, 1);
            var file := Own(s, userId, fileId);
            var inserts := !Fails(oracle(0)) && file.Some? && file.value.status == Ready;
            && end.reply == (if Fails(oracle(0)) then Crashed(oracle(0).error)
                             else if file.None? || file.value.status == Deleted then Rejected("FILE_NOT_FOUND")
                             else if file.value.status == FileStatus.Pending then Rejected("FILE_NOT_READY")
                             else if Fails(oracle(1)) then Crashed(oracle(1).error)
                             else if Fails(oracle(2)) then Crashed(oracle(2).error)
                             else Accepted)
            && end.enqueued == (if inserts && !Fails(oracle(1)) && !oracle(2).outcome.Refused?
                                then Some(Payload(oracle(1).newId, fileId, userId, jobType)) else None)
            && end.store == if inserts && !oracle(1).outcome.Refused?
                            then s.(jobs := s.jobs[oracle(1).newId :=
                                   JobRow(fileId, userId, jobType, JobStatus.Pending, 0, None, None, None,
                                          oracle(1).at, oracle(1).at)])
                            else s
  {
    var call := BeginJob(s, userId, fileId, jobType, oracle(0));
    if call.InsertingJob? {
      CallUnfolds(s, call, oracle, 1);
      var m := Calls.Next(s, call, oracle(1));
      if m.call.Enqueuing? {
        CallUnfolds(Apply(s, m.effect), m.call, oracle, 2);
      }
    }
  }

  /** A lone cancellation succeeds exactly for the owner's pending job, and changes nothing but that row. */
  lemma CancelSucceedsExactly(s: Store, userId: Id, jobId: Id, oracle: Oracle)
    ensures var end := RunCall(s, BeginCancel(s, userId, jobId, oracle(0)), oracle, 1);
            var found := jobId in s.jobs && s.jobs[jobId].userId == userId;
            var goes := !Fails(oracle(0)) && found && s.jobs[jobId].status == JobStatus.Pending;
            && end.reply == (if Fails(oracle(0)) then Crashed(oracle(0).error)
                             else if !found then Rejected("JOB_NOT_FOUND")
                             else if !goes then Rejected("JOB_NOT_CANCELLABLE")
                             else if Fails(oracle(1)) then Crashed(oracle(1).error)
                             else Accepted)
            && end.enqueued == None
            && end.store == if goes && !oracle(1).outcome.Refused?
                            then s.(jobs := s.jobs[jobId := s.jobs[jobId].(status := Failed, updatedAt := oracle(1).at,
                                                                          errorMessage := Some("Cancelled by user"))])
                            else s
  {
    var call := BeginCancel(s, userId, jobId, oracle(0));
    if call.Cancelling? {
      CallUnfolds(s, call, oracle, 1);
    }
  }
}
