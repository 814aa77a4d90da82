/**
 The calls of `FileService` and `JobService`, await by await.

 A `Call` is a request in flight: which await comes next and the values it has read so
 far, which may be stale by then.  The first await of a call is part of starting it.
 */
module Calls {
  import opened Wrappers
  import opened Keys
  import opened Store
  import opened Environment
  import opened Attempt

  datatype Reply = Accepted | Rejected(code: string) | Crashed(message: string)

  datatype Call =
    | Presigning(fileId: Id, key: string, size: nat)
    | Stating(userId: Id, fileId: Id, file: FileRow)
    | Marking(userId: Id, fileId: Id, file: FileRow)
    | Deleting(userId: Id, fileId: Id)
    | InsertingJob(userId: Id, fileId: Id, jobType: string)
    | Enqueuing(payload: Payload)
    | Cancelling(userId: Id, jobId: Id)
    | Replied(reply: Reply)

  datatype CallMove = CallMove(effect: Effect, call: Call)

  const MAX_FILE_SIZE_BYTES := 50 * 1024 * 1024

  datatype UploadInput = UploadInput(filename: string, mimeType: string, size: int)

  /** Continue with `call` when the awaited call succeeded, else reply with its error. */
  function Unless(env: Env, call: Call): Call {
    if env.outcome == Done then call else Replied(Crashed(env.error))
  }

  function Reject(code: string): Call {
    Replied(Rejected(code))
  }

  function ReservedRow(userId: Id, input: UploadInput, env: Env): FileRow {
    FileRow(userId, input.filename, input.mimeType, input.size, UploadKey(userId, env.uuid, env.text),
            FileStatus.Pending, env.at, env.at)
  }

  /** `createUploadUrl` up to its insert; `env.text` is the extension of the file name. */
  function BeginUpload(userId: Id, input: UploadInput, env: Env): CallMove {
    if input.size <= 0 then CallMove(NoEffect, Reject("INVALID_FILE_SIZE"))
    else if input.size > MAX_FILE_SIZE_BYTES then CallMove(NoEffect, Reject("FILE_TOO_LARGE"))
    else
      CallMove(IfLanded(env, InsertFile(env.newId, ReservedRow(userId, input, env))),
               Unless(env, Presigning(env.newId, UploadKey(userId, env.uuid, env.text), input.size)))
  }

  function BeginConfirm(s: Store, userId: Id, fileId: Id, env: Env): Call {
    if env.outcome != Done then Replied(Crashed(env.error))
    else match FindFile(s, userId, fileId)
      case None => Reject("FILE_NOT_FOUND")
      case Some(file) =>
        match file.status
        case Ready => Replied(Accepted)
        case Deleted => Reject("FILE_NOT_PENDING")
        case Pending => Stating(userId, fileId, file)
  }

  function BeginDelete(s: Store, userId: Id, fileId: Id, env: Env): Call {
    if env.outcome != Done then Replied(Crashed(env.error))
    else match FindFile(s, userId, fileId)
      case None => Reject("FILE_NOT_FOUND")
      case Some(file) =>
        if file.status == Deleted then Reject("FILE_ALREADY_DELETED") else Deleting(userId, fileId)
  }

  function BeginJob(s: Store, userId: Id, fileId: Id, jobType: string, env: Env): Call {
    if env.outcome != Done then Replied(Crashed(env.error))
    else match FindFile(s, userId, fileId)
      case None => Reject("FILE_NOT_FOUND")
      case Some(file) =>
        if file.status == Deleted then Reject("FILE_NOT_FOUND")
        else if file.status != Ready then Reject("FILE_NOT_READY")
        else InsertingJob(userId, fileId, jobType)
  }

  function BeginCancel(s: Store, userId: Id, jobId: Id, env: Env): Call {
    if env.outcome != Done then Replied(Crashed(env.error))
    else match FindJob(s, userId, jobId)
      case None => Reject("JOB_NOT_FOUND")
      case Some(job) =>
        if job.userId != userId then Reject("FORBIDDEN")
        else if job.status != JobStatus.Pending then Reject("JOB_NOT_CANCELLABLE")
        else Cancelling(userId, jobId)
  }

  function NewJob(userId: Id, fileId: Id, jobType: string, at: int): JobRow {
    JobRow(fileId, userId, jobType, JobStatus.Pending, 0, None, None, None, at, at)
  }

  /** The next await of a call. */
  function Next(s: Store, call: Call, env: Env): CallMove {
    match call
    case Presigning(_, _, _) => CallMove(NoEffect, Unless(env, Replied(Accepted)))
    case Stating(userId, fileId, file) =>
      CallMove(NoEffect,
               if env.outcome != Done || file.storagePath !in s.objects then Reject("UPLOAD_NOT_FOUND")
               else if s.objects[file.storagePath] != file.size then Reject("UPLOAD_SIZE_MISMATCH")
               else Marking(userId, fileId, file))
    case Marking(userId, fileId, _) =>
      var found := FindFile(s, userId, fileId).Some? && s.files[fileId].status == FileStatus.Pending;
      CallMove(IfLanded(env, MarkReady(userId, fileId, env.at)),
               Unless(env, if found then Replied(Accepted) else Reject("FILE_NOT_PENDING")))
    case Deleting(userId, fileId) =>
      CallMove(IfLanded(env, SoftDelete(userId, fileId, env.at)), Unless(env, Replied(Accepted)))
    case InsertingJob(userId, fileId, jobType) =>
      // The foreign key refuses the insert when the file is gone by now.
      if fileId !in s.files then CallMove(NoEffect, Replied(Crashed(env.error)))
      else
        CallMove(IfLanded(env, InsertJob(env.newId, NewJob(userId, fileId, jobType, env.at))),
                 Unless(env, Enqueuing(Payload(env.newId, fileId, userId, jobType))))
    case Enqueuing(_) => CallMove(NoEffect, Unless(env, Replied(Accepted)))
    case Cancelling(userId, jobId) =>
      CallMove(IfLanded(env, CancelJob(userId, jobId, env.at)), Unless(env, Replied(Accepted)))
    case Replied(_) => CallMove(NoEffect, call)
  }
}
