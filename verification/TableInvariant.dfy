/**
 What holds of the tables in every reachable state, and how one effect may change them.
 */
module TableInvariant {
  import opened Wrappers
  import opened Keys
  import opened Store
  import opened Machine

  // ---- One state -------------------------------------------------------------

  ghost predicate IdsOk(b: Base) {
    && b.store.users <= b.principals <= b.issued
    && b.store.files.Keys <= b.issued
    && b.store.jobs.Keys <= b.issued
    && forall id | id in b.issued :: IsUuid(id)
  }

  ghost predicate FileOk(b: Base, row: FileRow) {
    && row.userId in b.principals
    && (InUploadNamespace(row.storagePath) ==> KeyUuid(row.storagePath) in b.issued)
  }

  /** No file but `f` is stored under the upload key `path`, now or later. */
  ghost predicate OwnsPath(b: Base, f: Id, path: string) {
    InUploadNamespace(path) ==>
      && KeyUuid(path) in b.issued
      && forall g | g in b.store.files && g != f :: b.store.files[g].storagePath != path
  }

  ghost predicate FilesOk(b: Base) {
    forall f | f in b.store.files ::
      FileOk(b, b.store.files[f]) && OwnsPath(b, f, b.store.files[f].storagePath)
  }

  /** Both foreign keys of a job name files of the job's own user; the output is not pending. */
  ghost predicate ReferencesOk(s: Store, job: JobRow) {
    && job.fileId in s.files
    && s.files[job.fileId].userId == job.userId
    && (job.outputFileId.Some? ==>
          && job.outputFileId.value in s.files
          && s.files[job.outputFileId.value].userId == job.userId
          && s.files[job.outputFileId.value].status != FileStatus.Pending)
  }

  ghost predicate JobRowOk(job: JobRow) {
    && 0 <= job.progress <= 100
    && (job.status == JobStatus.Pending ==>
          job.progress == 0 && job.errorMessage.None? && job.outputPath.None? && job.outputFileId.None?)
    && (job.status == Failed ==> job.errorMessage.Some?)
    && (job.status == Completed ==> job.progress == 100)
  }

  ghost predicate JobsOk(b: Base) {
    forall j | j in b.store.jobs :: ReferencesOk(b.store, b.store.jobs[j]) && JobRowOk(b.store.jobs[j])
  }

  ghost predicate TablesOk(b: Base) {
    IdsOk(b) && FilesOk(b) && JobsOk(b)
  }

  // ---- Two states ------------------------------------------------------------

  /** `pending`, `ready`, `deleted` in the order a file goes through them. */
  function Age(status: FileStatus): nat {
    match status
    case Pending => 0
    case Ready => 1
    case Deleted => 2
  }

  ghost predicate SameFile(a: FileRow, b: FileRow) {
    b == a.(status := b.status, updatedAt := b.updatedAt)
  }

  ghost predicate FileFollows(a: FileRow, b: FileRow) {
    SameFile(a, b) && Age(a.status) <= Age(b.status)
  }

  ghost predicate JobFollows(a: JobRow, b: JobRow) {
    && a.fileId == b.fileId && a.userId == b.userId && a.jobType == b.jobType && a.createdAt == b.createdAt
    && (b.status == JobStatus.Pending ==> a.status == JobStatus.Pending)
  }

  ghost predicate NewFile(b: Base, f: Id, row: FileRow) {
    f !in b.issued && (InUploadNamespace(row.storagePath) ==> KeyUuid(row.storagePath) !in b.issued)
  }

  ghost predicate IdsGrow(b: Base, b': Base) {
    && b.principals <= b'.principals
    && b.issued <= b'.issued
    && b.store.users <= b'.store.users
    && (b'.store.users - b.store.users) !! b.principals
  }

  ghost predicate FilesGrow(b: Base, b': Base) {
    && (forall f | f in b'.store.files ::
          if f in b.store.files then FileFollows(b.store.files[f], b'.store.files[f])
          else NewFile(b, f, b'.store.files[f]))
    && (forall f | f in b.store.files && f !in b'.store.files :: b.store.files[f].userId !in b.store.users)
  }

  ghost predicate JobsGrow(b: Base, b': Base) {
    forall j | j in b'.store.jobs ::
      if j in b.store.jobs then JobFollows(b.store.jobs[j], b'.store.jobs[j]) else j !in b.issued
  }

  /** Everything that a step may do to the tables, whichever process takes it. */
  ghost predicate Grows(b: Base, b': Base) {
    IdsGrow(b, b') && FilesGrow(b, b') && JobsGrow(b, b')
  }

  // ---- Effects ---------------------------------------------------------------

  ghost predicate ExtraOk(s: Store, j: Id, status: JobStatus, extra: Extra) {
    && status != JobStatus.Pending
    && (extra.progress.Some? ==> 0 <= extra.progress.value <= 100)
    && (status == Failed ==> extra.errorMessage.Some?)
    && (status == Completed ==> extra.progress == Some(100))
    && (j in s.jobs && extra.outputFileId.Some? ==>
          && extra.outputFileId.value in s.files
          && s.files[extra.outputFileId.value].userId == s.jobs[j].userId
          && s.files[extra.outputFileId.value].status != FileStatus.Pending)
  }

  /** What the process that causes an effect must know for the tables to stay in order. */
  ghost predicate EffectOk(b: Base, e: Effect) {
    match e
    case AddUser(u) => u !in b.issued && IsUuid(u)
    case InsertFile(f, row) =>
      && (forall id | id in Draws(e) :: id !in b.issued && IsUuid(id))
      && row.userId in b.principals
    case InsertJob(j, row) =>
      && j !in b.issued && IsUuid(j)
      && ReferencesOk(b.store, row) && JobRowOk(row) && row.status == JobStatus.Pending
    case HardDelete(u, _) => u !in b.store.users
    case UpdateStatus(j, status, extra, _) => ExtraOk(b.store, j, status, extra)
    case UpdateProgress(j, n, _) =>
      0 <= n <= 100 && (j in b.store.jobs ==> b.store.jobs[j].status in {Active, Failed})
    case _ => true
  }

  lemma EffectGrowsFiles(b: Base, e: Effect)
    requires TablesOk(b) && EffectOk(b, e)
    ensures FilesGrow(b, Act(b, e))
  {
    match e
    case InsertFile(f, _) => assert f in Draws(e);
    case _ =>
  }

  lemma EffectGrowsJobs(b: Base, e: Effect)
    requires TablesOk(b) && EffectOk(b, e)
    ensures JobsGrow(b, Act(b, e))
  {
    if WritesFile(e) {
      assert b.store.jobs == Act(b, e).store.jobs;
    }
  }

  lemma EffectGrows(b: Base, e: Effect)
    requires TablesOk(b) && EffectOk(b, e)
    ensures Grows(b, Act(b, e))
  {
    EffectGrowsFiles(b, e);
    EffectGrowsJobs(b, e);
  }

  lemma EffectKeepsIds(b: Base, e: Effect)
    requires TablesOk(b) && EffectOk(b, e)
    ensures IdsOk(Act(b, e))
  {
    var b' := Act(b, e);
    forall j | j in b'.store.jobs ensures j in b'.issued {
      assert e.InsertJob? || j in b.store.jobs;
    }
  }

  lemma EffectKeepsFiles(b: Base, e: Effect)
    requires TablesOk(b) && EffectOk(b, e)
    ensures FilesOk(Act(b, e))
  {
    var b' := Act(b, e);
    EffectGrows(b, e);
    forall f | f in b'.store.files
      ensures FileOk(b', b'.store.files[f]) && OwnsPath(b', f, b'.store.files[f].storagePath)
    {
      if f in b.store.files {
        PathStaysOwned(b, b', f);
      } else {
        assert e.InsertFile? && f == e.fileId;
      }
    }
  }

  lemma PathStaysOwned(b: Base, b': Base, f: Id)
    requires FilesOk(b) && Grows(b, b') && f in b.store.files && f in b'.store.files
    ensures OwnsPath(b', f, b'.store.files[f].storagePath)
  {}

  predicate WritesFile(e: Effect) {
    e.InsertFile? || e.MarkReady? || e.SoftDelete?
  }

  lemma FileWriteKeepsJobs(b: Base, e: Effect)
    requires TablesOk(b) && EffectOk(b, e) && WritesFile(e)
    ensures JobsOk(Act(b, e))
  {
    if e.InsertFile? {
      assert e.fileId in Draws(e);
    }
  }

  /** Deleting a file takes its jobs along and leaves no reference to it. */
  lemma HardDeleteKeepsJobs(b: Base, userId: Id, f: Id)
    requires TablesOk(b)
    ensures JobsOk(Act(b, HardDelete(userId, f)))
  {
    var b' := Act(b, HardDelete(userId, f));
    forall j | j in b'.store.jobs ensures ReferencesOk(b'.store, b'.store.jobs[j]) && JobRowOk(b'.store.jobs[j]) {
      HardDeleteKeepsJob(b, userId, f, j);
    }
  }

  lemma HardDeleteKeepsJob(b: Base, userId: Id, f: Id, j: Id)
    requires TablesOk(b) && j in Act(b, HardDelete(userId, f)).store.jobs
    ensures var s' := Act(b, HardDelete(userId, f)).store;
            ReferencesOk(s', s'.jobs[j]) && JobRowOk(s'.jobs[j])
  {}

  lemma EffectKeepsJobs(b: Base, e: Effect)
    requires TablesOk(b) && EffectOk(b, e)
    ensures JobsOk(Act(b, e))
  {
    if WritesFile(e) {
      FileWriteKeepsJobs(b, e);
    } else if e.HardDelete? {
      HardDeleteKeepsJobs(b, e.userId, e.fileId);
    }
  }

  lemma EffectKeepsTables(b: Base, e: Effect)
    requires TablesOk(b) && EffectOk(b, e)
    ensures TablesOk(Act(b, e)) && Grows(b, Act(b, e))
  {
    EffectGrows(b, e);
    EffectKeepsIds(b, e);
    EffectKeepsFiles(b, e);
    EffectKeepsJobs(b, e);
  }
}
