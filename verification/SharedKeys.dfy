/**
 Two attempts of a job record two files under one key, so a guest sweep that deletes the
 file of the first takes the object of the second along.
 */
module SharedKeys {
  import opened Wrappers
  import opened Keys
  import opened Store
  import opened Environment
  import opened Attempt
  import opened Calls
  import opened Sweeps
  import opened Machine
  import opened ProcessInvariant
  import opened Guarantees
  import opened Races
  import opened Exceptions
  import opened ObjectKeeping
  import opened Overwriting

  /** The input and the outputs of the two attempts, the second of them last updated at 1. */
  predicate FilesOfBoth(s: Store, u: Id, f: Id, k: Id, j: Id, o: Id, o': Id) {
    && s.files.Keys == {f, o, o'} && f != o && f != o' && o != o'
    && s.files[f].userId == u && s.files[f].storagePath == UploadKey(u, k, "")
    && IsStoredOutput(s.files[o], u, j, 0) && IsStoredOutput(s.files[o'], u, j, 1)
    && s.users == {} && s.jobs.Keys == {j}
  }

  predicate IsStoredOutput(file: FileRow, u: Id, j: Id, at: int) {
    file.userId == u && file.storagePath == OutputKey(u, j, "a") && file.status == Ready && file.updatedAt == at
  }

  /** The first attempt's failure has been given up, and the second attempt is about to store its output. */
  lemma SecondPutReached(u: Id, f: Id, k: Id, j: Id, o: Id, size: nat, stored: nat) returns (w: World, mimeType: string)
    requires FourIds(u, f, k, j) && IsUuid(o) && o !in {u, f, k, j} && 0 < size <= MAX_FILE_SIZE_BYTES
    ensures Reachable(w) && u in w.base.principals && w.sweeps == [] && w.handlers == [Handler(j, "", HandlerDone)]
    ensures |w.queue| == 1 && w.queue[0].payload == CompressPayload(u, f, j) && AtPut(w, 0, "a", stored)
    ensures w.base.store.files == map[f := ReservedFile(u, k, size, Ready), o := StoredOutput(u, j, mimeType, stored, 0)]
    ensures w.base.issued == {u, f, k, j, o} && w.base.store.users == {} && w.base.store.jobs.Keys == {j}
  {
    var w1: World;
    w1, mimeType := FirstOutputReached(true, u, f, k, j, o, size, stored);
    var w2 := FailureIsLost(w1, 0);
    w := PutReached(w2, stored);
  }

  lemma SecondOutputReached(u: Id, f: Id, k: Id, j: Id, o: Id, o': Id, size: nat, stored: nat) returns (w: World)
    requires FourIds(u, f, k, j) && IsUuid(o) && o !in {u, f, k, j} && IsUuid(o') && o' !in {u, f, k, j, o}
    requires 0 < size <= MAX_FILE_SIZE_BYTES
    ensures Reachable(w) && u in w.base.principals && w.sweeps == [] && w.handlers == [Handler(j, "", HandlerDone)]
    ensures FilesOfBoth(w.base.store, u, f, k, j, o, o') && w.base.store.files[f].status == Ready
    ensures |w.queue| == 1 && w.queue[0].payload == CompressPayload(u, f, j) && w.queue[0].state == Running(CompleteImage(o'))
  {
    var w1, mimeType := SecondPutReached(u, f, k, j, o, size, stored);
    w, mimeType := OutputRecordedFrom(w1, o', 1, stored);
  }

  predicate CompletedWith(w: World, j: Id, f: Id, o: Id) {
    HasStatus(w, j, Completed) && w.base.store.jobs[j].outputFileId == Some(o) && w.base.store.jobs[j].fileId == f
  }

  lemma Completes(w: World, j: Id, o: Id) returns (w': World)
    requires Reachable(w) && |w.queue| == 1 && w.queue[0].state == Running(CompleteImage(o)) && JobOf(w, 0) == j
    requires j in w.base.store.jobs && o in w.base.store.files
    ensures Reachable(w') && CompletedWith(w', j, w.queue[0].payload.fileId, o)
    ensures w'.queue == [w.queue[0].(state := Running(Announce(o)))] && w' == w.(base := w'.base, queue := w'.queue)
    ensures w'.base.store == w.base.store.(jobs := w.base.store.jobs[j := w'.base.store.jobs[j]])
    ensures w'.base.principals == w.base.principals
  {
    var p := w.queue[0].payload;
    OwnJob(w, 0);
    CompletionWrites(w.base.store, p, o);
    w' := After(w, ContinueAttempt(0), WILLING);
    StepReaches(w, ContinueAttempt(0), WILLING);
  }

  lemma OwnJob(w: World, q: nat)
    requires Reachable(w) && q < |w.queue| && w.queue[q].payload.jobId in w.base.store.jobs
    ensures w.base.store.jobs[w.queue[q].payload.jobId].fileId == w.queue[q].payload.fileId
  {
    ReachableKeepsInvariant(w);
    assert EntryOk(w.base, w.queue[q]);
  }

  lemma CompletionWrites(s: Store, p: Payload, o: Id)
    requires p.jobId in s.jobs && o in s.files
    ensures var m := Attempt.Next(s, p, CompleteImage(o), WILLING);
            && m.pc == Announce(o) && Draws(m.effect) == {}
            && Apply(s, m.effect) == s.(jobs := s.jobs[p.jobId := Apply(s, m.effect).jobs[p.jobId]])
            && Apply(s, m.effect).jobs[p.jobId].status == Completed
            && Apply(s, m.effect).jobs[p.jobId].outputFileId == Some(o)
            && Apply(s, m.effect).jobs[p.jobId].fileId == s.jobs[p.jobId].fileId
  {}

  /** It is announced, and the payload is finished. */
  lemma Finishes(w: World, o: Id) returns (w': World)
    requires Reachable(w) && |w.queue| == 1 && w.queue[0].state == Running(Announce(o))
    ensures Reachable(w') && w'.queue == [w.queue[0].(state := Finished(true))] && w' == w.(base := w'.base, queue := w'.queue)
    ensures w'.base.store == w.base.store.(published := w'.base.store.published) && w'.base.principals == w.base.principals
  {
    var w1 := Announces(w, o);
    w' := After(w1, SettleAttempt(0), WILLING);
    StepReaches(w1, SettleAttempt(0), WILLING);
  }

  lemma Announces(w: World, o: Id) returns (w': World)
    requires Reachable(w) && |w.queue| == 1 && w.queue[0].state == Running(Announce(o))
    ensures Reachable(w') && w'.queue == [w.queue[0].(state := Running(Returned(o)))] && w' == w.(base := w'.base, queue := w'.queue)
    ensures w'.base.store == w.base.store.(published := w'.base.store.published) && w'.base.principals == w.base.principals
  {
    w' := After(w, ContinueAttempt(0), WILLING);
    StepReaches(w, ContinueAttempt(0), WILLING);
  }

  /** The guest deletes the input. */
  lemma InputDeleted(w: World, u: Id, f: Id) returns (w': World)
    requires Reachable(w) && u in w.base.principals && f in w.base.store.files
    requires w.base.store.files[f].userId == u && w.base.store.files[f].status == Ready
    ensures Reachable(w') && w' == w.(base := w'.base, calls := w'.calls)
    ensures w'.base.store == w.base.store.(files := w.base.store.files[f := w.base.store.files[f].(status := Deleted, updatedAt := 0)])
  {
    var w1 := After(w, StartDelete(u, f), WILLING);
    StepReaches(w, StartDelete(u, f), WILLING);
    w' := After(w1, ContinueCall(|w.calls|), WILLING);
    StepReaches(w1, ContinueCall(|w.calls|), WILLING);
  }

  lemma CompletedThenDeleted(w: World, u: Id, f: Id, k: Id, j: Id, o: Id, o': Id) returns (w': World)
    requires Reachable(w) && u in w.base.principals && FilesOfBoth(w.base.store, u, f, k, j, o, o')
    requires w.base.store.files[f].status == Ready
    requires |w.queue| == 1 && w.queue[0].payload == CompressPayload(u, f, j) && w.queue[0].state == Running(CompleteImage(o'))
    ensures Reachable(w') && FilesOfBoth(w'.base.store, u, f, k, j, o, o') && w'.base.store.files[f].status == Deleted
    ensures CompletedWith(w', j, f, o') && w'.sweeps == w.sweeps && w'.handlers == w.handlers
    ensures |w'.queue| == 1 && w'.queue[0].state.Finished?
  {
    var w1 := Completes(w, j, o');
    var w2 := Finishes(w1, o');
    w' := InputDeleted(w2, u, f);
  }

  /** A guest sweep finds the first output alone, and removes the object. */
  lemma FirstOutputCut(w: World, u: Id, f: Id, k: Id, j: Id, o: Id, o': Id) returns (w': World)
    requires Reachable(w) && w.sweeps == [] && FilesOfBoth(w.base.store, u, f, k, j, o, o')
    requires w.base.store.files[f].status == Deleted && CompletedWith(w, j, f, o')
    ensures Reachable(w') && w'.queue == w.queue && w'.handlers == w.handlers
    ensures w'.sweeps == [Sweep(true, [Target(o, w.base.store.files[o])], true)]
    ensures w'.base.store == w.base.store.(objects := w.base.store.objects - {OutputKey(u, j, "a")})
  {
    OnlyOlderExpired(w.base.store, u, f, k, j, o, o');
    var w1 := SweepOfOne(w, o);
    w' := CutOfOne(w1, Target(o, w.base.store.files[o]));
  }

  lemma CutOfOne(w: World, target: Target) returns (w': World)
    requires Reachable(w) && w.sweeps == [Sweep(true, [target], false)]
    ensures Reachable(w') && w'.queue == w.queue && w'.handlers == w.handlers && w'.sweeps == [Sweep(true, [target], true)]
    ensures w'.base.store == w.base.store.(objects := w.base.store.objects - {target.file.storagePath})
  {
    w' := After(w, ContinueSweep(0), WILLING);
    StepReaches(w, ContinueSweep(0), WILLING);
  }

  lemma OnlyOlderExpired(s: Store, u: Id, f: Id, k: Id, j: Id, o: Id, o': Id)
    requires FilesOfBoth(s, u, f, k, j, o, o') && s.files[f].status == Deleted && s.jobs[j].fileId == f
    ensures ExpiredGuestFiles(s, 1) == {o}
  {}

  /** It then deletes the row. */
  lemma FirstOutputSwept(w: World, u: Id, f: Id, k: Id, j: Id, o: Id, o': Id) returns (w': World)
    requires Reachable(w) && FilesOfBoth(w.base.store, u, f, k, j, o, o') && CompletedWith(w, j, f, o')
    requires w.sweeps == [Sweep(true, [Target(o, w.base.store.files[o])], true)]
    requires OutputKey(u, j, "a") !in w.base.store.objects
    ensures Reachable(w') && NoSweepAtWork(w') && w'.queue == w.queue && w'.handlers == w.handlers
    ensures CompletedWith(w', j, f, o') && IsReady(w', o')
    ensures w'.base.store.files[o'].storagePath !in w'.base.store.objects
  {
    w' := After(w, ContinueSweep(0), WILLING);
    StepReaches(w, ContinueSweep(0), WILLING);
  }

  lemma SweepOfOne(w: World, o: Id) returns (w': World)
    requires Reachable(w) && w.sweeps == [] && ExpiredGuestFiles(w.base.store, 1) == {o}
    ensures Reachable(w') && w' == w.(sweeps := [Sweep(true, [Target(o, w.base.store.files[o])], false)])
  {
    assert Snapshot(w.base.store, [o]) == [Target(o, w.base.store.files[o])];
    w' := After(w, StartGuestSweep([o], 1), WILLING);
    StepReaches(w, StartGuestSweep([o], 1), WILLING);
  }

  lemma FirstOutputDeleted(w: World, u: Id, f: Id, k: Id, j: Id, o: Id, o': Id) returns (w': World)
    requires Reachable(w) && w.sweeps == [] && FilesOfBoth(w.base.store, u, f, k, j, o, o')
    requires w.base.store.files[f].status == Deleted && CompletedWith(w, j, f, o')
    ensures Reachable(w') && NoSweepAtWork(w') && w'.queue == w.queue && w'.handlers == w.handlers
    ensures CompletedWith(w', j, f, o') && IsReady(w', o')
    ensures w'.base.store.files[o'].storagePath !in w'.base.store.objects
  {
    var w1 := FirstOutputCut(w, u, f, k, j, o, o');
    w' := FirstOutputSwept(w1, u, f, k, j, o, o');
  }

  /** All is at rest, and a guest's completed job names a ready output that has no object. */
  ghost predicate OutputGone(w: World, j: Id, o: Id) {
    && Reachable(w) && Quiescent(w) && NoSweepAtWork(w)
    && HasStatus(w, j, Completed) && w.base.store.jobs[j].outputFileId == Some(o)
    && IsReady(w, o) && w.base.store.files[o].storagePath !in w.base.store.objects
  }

  /**
   A guest's completed job can lose the object of its output while no sweep is to delete
   that output: its first attempt recorded an older file under the same key.
   */
  lemma OlderOutputTakesObjectAlong(u: Id, f: Id, k: Id, j: Id, o: Id, o': Id, size: nat, stored: nat)
    requires FourIds(u, f, k, j) && IsUuid(o) && o !in {u, f, k, j} && IsUuid(o') && o' !in {u, f, k, j, o}
    requires 0 < size <= MAX_FILE_SIZE_BYTES
    ensures exists w: World :: OutputGone(w, j, o')
  {
    var w1 := SecondOutputReached(u, f, k, j, o, o', size, stored);
    var w2 := CompletedThenDeleted(w1, u, f, k, j, o, o');
    var w := FirstOutputDeleted(w2, u, f, k, j, o, o');
    assert OutputGone(w, j, o');
  }
}
