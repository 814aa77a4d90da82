/**
 The shared state: the `users`, `files` and `jobs` tables, the object store and the
 log of published messages, with every write the program makes to it.

 An `Effect` is one write; `Apply` is what it does.  The foreign keys of `jobs` are
 part of it: deleting a file deletes its jobs and clears `outputFileId` elsewhere.
 */
module Store {
  import opened Wrappers
  import opened Keys
  import opened Messages

  datatype FileStatus = Pending | Ready | Deleted

  datatype FileRow = FileRow(
    userId: Id,
    originalName: string,
    mimeType: string,
    size: int,
    storagePath: string,
    status: FileStatus,
    createdAt: int,
    updatedAt: int)

  datatype JobStatus = Pending | Active | Completed | Failed

  datatype JobRow = JobRow(
    fileId: Id,
    userId: Id,
    jobType: string,
    status: JobStatus,
    progress: int,
    outputPath: Option<string>,
    outputFileId: Option<Id>,
    errorMessage: Option<string>,
    createdAt: int,
    updatedAt: int)

  /** The columns an update of a job's status may set besides the status. */
  datatype Extra = Extra(
    progress: Option<int>,
    outputPath: Option<string>,
    outputFileId: Option<Id>,
    errorMessage: Option<string>)

  datatype Store = Store(
    users: set<Id>,
    files: map<Id, FileRow>,
    jobs: map<Id, JobRow>,
    objects: map<string, nat>,
    published: seq<Message>)

  datatype Effect =
    | NoEffect
    | AddUser(userId: Id)
    | InsertFile(fileId: Id, file: FileRow)
    | MarkReady(userId: Id, fileId: Id, at: int)
    | SoftDelete(userId: Id, fileId: Id, at: int)
    | HardDelete(userId: Id, fileId: Id)
    | InsertJob(jobId: Id, job: JobRow)
    | UpdateStatus(jobId: Id, status: JobStatus, extra: Extra, at: int)
    | CancelJob(userId: Id, jobId: Id, at: int)
    | UpdateProgress(jobId: Id, progress: int, at: int)
    | PutObject(key: string, size: nat)
    | RemoveObject(key: string)
    | Publish(message: Message)

  const NO_EXTRA := Extra(None, None, None, None)

  // ---- Reads -----------------------------------------------------------------

  function FindFile(s: Store, userId: Id, fileId: Id): Option<FileRow> {
    if fileId in s.files && s.files[fileId].userId == userId then Some(s.files[fileId]) else None
  }

  function FindJob(s: Store, userId: Id, jobId: Id): Option<JobRow> {
    if jobId in s.jobs && s.jobs[jobId].userId == userId then Some(s.jobs[jobId]) else None
  }

  /** The file has its object, of exactly the recorded size. */
  predicate HasObject(s: Store, file: FileRow) {
    file.storagePath in s.objects && s.objects[file.storagePath] == file.size
  }

  /** The object under `key` is the same in both. */
  predicate SameObject(s: Store, s': Store, key: string) {
    (key in s'.objects <==> key in s.objects) && (key in s.objects ==> s'.objects[key] == s.objects[key])
  }

  function ExpiredPending(s: Store, before: int): set<Id> {
    set f | f in s.files && s.files[f].status == FileStatus.Pending && s.files[f].createdAt < before
  }

  predicate InUse(s: Store, fileId: Id) {
    exists j | j in s.jobs :: s.jobs[j].fileId == fileId && s.jobs[j].status in {JobStatus.Pending, Active}
  }

  function ExpiredGuestFiles(s: Store, before: int): set<Id> {
    set f | f in s.files && s.files[f].userId !in s.users && s.files[f].status == Ready
            && s.files[f].updatedAt < before && !InUse(s, f)
  }

  // ---- Writes ----------------------------------------------------------------

  function Merge<T>(new_: Option<T>, old_: Option<T>): Option<T> {
    if new_.Some? then new_ else old_
  }

  function WithStatus(job: JobRow, status: JobStatus, extra: Extra, at: int): JobRow {
    job.(status := status,
         updatedAt := at,
         progress := if extra.progress.Some? then extra.progress.value else job.progress,
         outputPath := Merge(extra.outputPath, job.outputPath),
         outputFileId := Merge(extra.outputFileId, job.outputFileId),
         errorMessage := Merge(extra.errorMessage, job.errorMessage))
  }

  /** `on delete set null` on `jobs.output_file_id`. */
  function WithoutOutput(job: JobRow, fileId: Id): JobRow {
    if job.outputFileId == Some(fileId) then job.(outputFileId := None) else job
  }

  /** The jobs left once file `fileId` is gone: `on delete cascade` on `jobs.file_id`. */
  function Cascade(jobs: map<Id, JobRow>, fileId: Id): map<Id, JobRow> {
    map j | j in jobs && jobs[j].fileId != fileId :: WithoutOutput(jobs[j], fileId)
  }

  /** Whether the update keeps the foreign key of `jobs.output_file_id`. */
  predicate KeepsForeignKey(s: Store, jobId: Id, extra: Extra) {
    jobId in s.jobs && extra.outputFileId.Some? ==> extra.outputFileId.value in s.files
  }

  const CANCELLED := Some("Cancelled by user")

  function Apply(s: Store, e: Effect): Store {
    match e
    case NoEffect => s
    case AddUser(u) => s.(users := s.users + {u})
    case InsertFile(f, row) => s.(files := s.files[f := row])
    case MarkReady(u, f, at) =>
      if FindFile(s, u, f).Some? && s.files[f].status == FileStatus.Pending
      then s.(files := s.files[f := s.files[f].(status := Ready, updatedAt := at)])
      else s
    case SoftDelete(u, f, at) =>
      if FindFile(s, u, f).Some?
      then s.(files := s.files[f := s.files[f].(status := Deleted, updatedAt := at)])
      else s
    case HardDelete(u, f) =>
      if FindFile(s, u, f).Some?
      then s.(files := s.files - {f}, jobs := Cascade(s.jobs, f))
      else s
    case InsertJob(j, row) => s.(jobs := s.jobs[j := row])
    case UpdateStatus(j, status, extra, at) =>
      if j in s.jobs then s.(jobs := s.jobs[j := WithStatus(s.jobs[j], status, extra, at)]) else s
    case CancelJob(u, j, at) =>
      if FindJob(s, u, j).Some? && s.jobs[j].status == JobStatus.Pending
      then s.(jobs := s.jobs[j := s.jobs[j].(status := Failed, updatedAt := at, errorMessage := CANCELLED)])
      else s
    case UpdateProgress(j, n, at) =>
      if j in s.jobs then s.(jobs := s.jobs[j := s.jobs[j].(progress := n, updatedAt := at)]) else s
    case PutObject(key, size) => s.(objects := s.objects[key := size])
    case RemoveObject(key) => s.(objects := s.objects - {key})
    case Publish(m) => s.(published := s.published + [m])
  }
}
