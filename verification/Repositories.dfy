/**
 The repositories and clients through which the program writes the shared state, in
 place.  Each method is one awaited call; its outcome comes from the environment.
 */
module Repositories {
  import opened Wrappers
  import opened Keys
  import opened Messages
  import opened Store
  import opened Environment
  import opened Sweeps

  /** The database, the bucket and the Pub/Sub log. */
  class Backend {
    var users: set<Id>
    var files: map<Id, FileRow>
    var jobs: map<Id, JobRow>
    var objects: map<string, nat>
    var published: seq<Message>

    function View(): Store
      reads this
    {
      Store(users, files, jobs, objects, published)
    }

    constructor ()
      ensures View() == Store({}, map[], map[], map[], [])
    {
      users, files, jobs, objects, published := {}, map[], map[], map[], [];
    }
  }

  class FileRepository {
    const db: Backend

    constructor (db: Backend)
      ensures this.db == db
    {
      this.db := db;
    }

    method Create(newId: Id, data: FileRow, env: Env) returns (ok: bool)
      modifies db
      ensures ok <==> env.outcome == Done
      ensures db.View() == Apply(old(db.View()), IfLanded(env, InsertFile(newId, data)))
      ensures db.View() == old(db.View()).(files := if env.outcome.Refused? then old(db.files) else old(db.files)[newId := data])
    {
      if env.outcome.Landed() {
        db.files := db.files[newId := data];
      }
      ok := env.outcome == Done;
    }

    method FindById(userId: Id, fileId: Id, env: Env) returns (ok: bool, file: Option<FileRow>)
      ensures ok <==> env.outcome == Done
      ensures file == FindFile(db.View(), userId, fileId)
      ensures file.Some? <==> fileId in db.files && db.files[fileId].userId == userId
      ensures file.Some? ==> file.value == db.files[fileId]
    {
      ok := env.outcome == Done;
      file := if fileId in db.files && db.files[fileId].userId == userId then Some(db.files[fileId]) else None;
    }

    method SoftDelete(userId: Id, fileId: Id, env: Env) returns (ok: bool)
      modifies db
      ensures ok <==> env.outcome == Done
      ensures db.View() == Apply(old(db.View()), IfLanded(env, Effect.SoftDelete(userId, fileId, env.at)))
      ensures db.View() == old(db.View()).(files := db.files) && db.files.Keys == old(db.files).Keys
      ensures forall f | f in db.files ::
                db.files[f] == if f == fileId && old(db.files)[f].userId == userId && !env.outcome.Refused?
                               then old(db.files)[f].(status := Deleted, updatedAt := env.at) else old(db.files)[f]
    {
      if env.outcome.Landed() && fileId in db.files && db.files[fileId].userId == userId {
        db.files := db.files[fileId := db.files[fileId].(status := Deleted, updatedAt := env.at)];
      }
      ok := env.outcome == Done;
    }

    /** `updated`: the file was the user's and pending. */
    method MarkReady(userId: Id, fileId: Id, env: Env) returns (ok: bool, updated: bool)
      modifies db
      ensures ok <==> env.outcome == Done
      ensures updated <==> fileId in old(db.files) && old(db.files)[fileId].userId == userId
                           && old(db.files)[fileId].status == FileStatus.Pending
      ensures db.View() == Apply(old(db.View()), IfLanded(env, Effect.MarkReady(userId, fileId, env.at)))
      ensures db.View() == old(db.View()).(files := db.files) && db.files.Keys == old(db.files).Keys
      ensures forall f | f in db.files ::
                db.files[f] == if f == fileId && updated && !env.outcome.Refused?
                               then old(db.files)[f].(status := Ready, updatedAt := env.at) else old(db.files)[f]
    {
      updated := fileId in db.files && db.files[fileId].userId == userId && db.files[fileId].status == FileStatus.Pending;
      if env.outcome.Landed() && updated {
        db.files := db.files[fileId := db.files[fileId].(status := Ready, updatedAt := env.at)];
      }
      ok := env.outcome == Done;
    }

    /** The expired pending files, in some order. */
    method FindExpiredPending(before: int) returns (order: seq<Id>)
      ensures Lists(order, ExpiredPending(db.View(), before))
      ensures forall f :: f in order <==>
                f in db.files && db.files[f].status == FileStatus.Pending && db.files[f].createdAt < before
    {
      order := ListOf(set f | f in db.files && db.files[f].status == FileStatus.Pending && db.files[f].createdAt < before);
    }

    /** The expired ready files of guests that no pending or active job refers to, in some order. */
    method FindExpiredGuestFiles(before: int) returns (order: seq<Id>)
      ensures Lists(order, ExpiredGuestFiles(db.View(), before))
      ensures forall f :: f in order <==>
                && f in db.files && db.files[f].userId !in db.users && db.files[f].status == Ready
                && db.files[f].updatedAt < before
                && forall j | j in db.jobs :: db.jobs[j].fileId == f ==> db.jobs[j].status !in {JobStatus.Pending, Active}
    {
      var inUse := set j | j in db.jobs && db.jobs[j].status in {JobStatus.Pending, Active} :: db.jobs[j].fileId;
      var expired := set f | f in db.files && db.files[f].userId !in db.users && db.files[f].status == Ready
                             && db.files[f].updatedAt < before && f !in inUse;
      assert forall f | f in db.files :: f in inUse <==> InUse(db.View(), f);
      assert expired == ExpiredGuestFiles(db.View(), before);
      order := ListOf(expired);
    }

    static method ListOf(ids: set<Id>) returns (order: seq<Id>)
      ensures Lists(order, ids)
    {
      order := [];
      var rest := ids;
      while rest != {}
        invariant rest <= ids && Lists(order, ids - rest)
        decreases rest
      {
        var id :| id in rest;
        order := order + [id];
        rest := rest - {id};
      }
      assert ids - rest == ids;
    }

    /** Deletes the row; the database deletes its jobs and clears references to it as an output. */
    method HardDelete(userId: Id, fileId: Id, env: Env) returns (ok: bool)
      modifies db
      ensures ok <==> env.outcome == Done
      ensures db.View() == Apply(old(db.View()), IfLanded(env, Effect.HardDelete(userId, fileId)))
      ensures var gone := fileId in old(db.files) && old(db.files)[fileId].userId == userId && !env.outcome.Refused?;
              && db.View() == old(db.View()).(files := db.files, jobs := db.jobs)
              && db.files == (if gone then old(db.files) - {fileId} else old(db.files))
              && (forall j :: j in db.jobs <==> j in old(db.jobs) && !(gone && old(db.jobs)[j].fileId == fileId))
              && (forall j | j in db.jobs ::
                    db.jobs[j] == if gone && old(db.jobs)[j].outputFileId == Some(fileId)
                                  then old(db.jobs)[j].(outputFileId := None) else old(db.jobs)[j])
    {
      if env.outcome.Landed() && fileId in db.files && db.files[fileId].userId == userId {
        db.files := db.files - {fileId};
        db.jobs := Cascade(db.jobs, fileId);
      }
      ok := env.outcome == Done;
    }
  }

  class JobRepository {
    const db: Backend

    constructor (db: Backend)
      ensures this.db == db
    {
      this.db := db;
    }

    /** Fails without effect when the file of the job does not exist. */
    method Create(newId: Id, data: JobRow, env: Env) returns (ok: bool)
      modifies db
      ensures ok <==> env.outcome == Done && data.fileId in db.files
      ensures db.View() == Apply(old(db.View()),
                                 if data.fileId in old(db.files) then IfLanded(env, InsertJob(newId, data)) else NoEffect)
      ensures db.View() == old(db.View()).(
                jobs := if data.fileId in old(db.files) && !env.outcome.Refused? then old(db.jobs)[newId := data] else old(db.jobs))
    {
      if data.fileId !in db.files {
        return false;
      }
      if env.outcome.Landed() {
        db.jobs := db.jobs[newId := data];
      }
      ok := env.outcome == Done;
    }

    method FindById(userId: Id, jobId: Id, env: Env) returns (ok: bool, job: Option<JobRow>)
      ensures ok <==> env.outcome == Done
      ensures job == FindJob(db.View(), userId, jobId)
      ensures job.Some? <==> jobId in db.jobs && db.jobs[jobId].userId == userId
      ensures job.Some? ==> job.value == db.jobs[jobId]
    {
      ok := env.outcome == Done;
      job := if jobId in db.jobs && db.jobs[jobId].userId == userId then Some(db.jobs[jobId]) else None;
    }

    /** Sets the status whatever it was; fails without effect when `outputFileId` names no file. */
    method UpdateStatus(jobId: Id, status: JobStatus, extra: Extra, env: Env) returns (ok: bool)
      modifies db
      ensures ok <==> env.outcome == Done && KeepsForeignKey(old(db.View()), jobId, extra)
      ensures db.View() == Apply(old(db.View()),
                                 if KeepsForeignKey(old(db.View()), jobId, extra)
                                 then IfLanded(env, Effect.UpdateStatus(jobId, status, extra, env.at)) else NoEffect)
      ensures db.View() == old(db.View()).(jobs := db.jobs) && db.jobs.Keys == old(db.jobs).Keys
      ensures var refused := env.outcome.Refused? || (extra.outputFileId.Some? && extra.outputFileId.value !in db.files);
              forall j | j in db.jobs ::
                var before, after := old(db.jobs)[j], db.jobs[j];
                if j != jobId || refused then after == before
                else && after == before.(status := status, updatedAt := env.at, progress := after.progress,
                                         outputPath := after.outputPath, outputFileId := after.outputFileId,
                                         errorMessage := after.errorMessage)
                     && after.progress == extra.progress.GetOr(before.progress)
                     && after.outputPath == (if extra.outputPath.Some? then extra.outputPath else before.outputPath)
                     && after.outputFileId == (if extra.outputFileId.Some? then extra.outputFileId else before.outputFileId)
                     && after.errorMessage == (if extra.errorMessage.Some? then extra.errorMessage else before.errorMessage)
    {
      if jobId in db.jobs {
        if extra.outputFileId.Some? && extra.outputFileId.value !in db.files {
          return false;
        }
        if env.outcome.Landed() {
          db.jobs := db.jobs[jobId := WithStatus(db.jobs[jobId], status, extra, env.at)];
        }
      }
      ok := env.outcome == Done;
    }

    method Cancel(userId: Id, jobId: Id, env: Env) returns (ok: bool)
      modifies db
      ensures ok <==> env.outcome == Done
      ensures db.View() == Apply(old(db.View()), IfLanded(env, CancelJob(userId, jobId, env.at)))
      ensures db.View() == old(db.View()).(jobs := db.jobs) && db.jobs.Keys == old(db.jobs).Keys
      ensures forall j | j in db.jobs ::
                var before := old(db.jobs)[j];
                db.jobs[j] == if j == jobId && before.userId == userId && before.status == JobStatus.Pending && !env.outcome.Refused?
                              then before.(status := Failed, updatedAt := env.at, errorMessage := Some("Cancelled by user"))
                              else before
    {
      if env.outcome.Landed() && jobId in db.jobs && db.jobs[jobId].userId == userId
         && db.jobs[jobId].status in {JobStatus.Pending} {
        db.jobs := db.jobs[jobId := db.jobs[jobId].(status := Failed, updatedAt := env.at, errorMessage := CANCELLED)];
      }
      ok := env.outcome == Done;
    }

    method UpdateProgress(jobId: Id, progress: int, env: Env) returns (ok: bool)
      modifies db
      ensures ok <==> env.outcome == Done
      ensures db.View() == Apply(old(db.View()), IfLanded(env, Effect.UpdateProgress(jobId, progress, env.at)))
      ensures db.View() == old(db.View()).(jobs := db.jobs) && db.jobs.Keys == old(db.jobs).Keys
      ensures forall j | j in db.jobs ::
                db.jobs[j] == if j == jobId && !env.outcome.Refused?
                              then old(db.jobs)[j].(progress := progress, updatedAt := env.at) else old(db.jobs)[j]
    {
      if env.outcome.Landed() && jobId in db.jobs {
        db.jobs := db.jobs[jobId := db.jobs[jobId].(progress := progress, updatedAt := env.at)];
      }
      ok := env.outcome == Done;
    }
  }

  class ObjectStorage {
    const backend: Backend

    constructor (backend: Backend)
      ensures this.backend == backend
    {
      this.backend := backend;
    }

    /** The size of the object, if there is one and the call succeeds. */
    method StatObject(key: string, env: Env) returns (size: Option<nat>)
      ensures size == if env.outcome == Done && key in backend.objects then Some(backend.objects[key]) else None
    {
      size := if env.outcome == Done && key in backend.objects then Some(backend.objects[key]) else None;
    }

    method GetObject(key: string, env: Env) returns (ok: bool)
      ensures ok <==> env.outcome == Done && key in backend.objects
    {
      ok := env.outcome == Done && key in backend.objects;
    }

    method PutObject(key: string, size: nat, env: Env) returns (ok: bool)
      modifies backend
      ensures ok <==> env.outcome == Done
      ensures backend.View() == Apply(old(backend.View()), IfLanded(env, Effect.PutObject(key, size)))
      ensures backend.View() == old(backend.View()).(
                objects := if env.outcome.Refused? then old(backend.objects) else old(backend.objects)[key := size])
    {
      if env.outcome.Landed() {
        backend.objects := backend.objects[key := size];
      }
      ok := env.outcome == Done;
    }

    method RemoveObject(key: string, env: Env) returns (ok: bool)
      modifies backend
      ensures ok <==> env.outcome == Done
      ensures backend.View() == Apply(old(backend.View()), IfLanded(env, Effect.RemoveObject(key)))
      ensures backend.View() == old(backend.View()).(
                objects := if env.outcome.Refused? then old(backend.objects) else old(backend.objects) - {key})
    {
      if env.outcome.Landed() {
        backend.objects := backend.objects - {key};
      }
      ok := env.outcome == Done;
    }
  }

  class Redis {
    const backend: Backend

    constructor (backend: Backend)
      ensures this.backend == backend
    {
      this.backend := backend;
    }

    method Publish(message: Message, env: Env) returns (ok: bool)
      modifies backend
      ensures ok <==> env.outcome == Done
      ensures backend.View() == Apply(old(backend.View()), IfLanded(env, Effect.Publish(message)))
      ensures backend.View() == old(backend.View()).(
                published := old(backend.published) + if env.outcome.Refused? then [] else [message])
    {
      if env.outcome.Landed() {
        backend.published := backend.published + [message];
      }
      ok := env.outcome == Done;
    }
  }
}
