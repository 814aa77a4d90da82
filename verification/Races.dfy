/** Runs showing that the exceptions to storage agreement do occur. */
module Races {
  import opened Keys
  import opened Store
  import opened Environment
  import opened Calls
  import opened Sweeps
  import opened Machine
  import opened StorageAgreement
  import opened Guarantees

  predicate ThreeIds(u: Id, f: Id, k: Id) {
    IsUuid(u) && IsUuid(f) && IsUuid(k) && u != f && u != k && f != k
  }

  function At(outcome: Outcome, id: Id, uuid: Id): Env {
    Env(0, id, uuid, outcome, "", BullProgress, 0, "")
  }

  /** Nothing was ever queued. */
  predicate WorkerIdle(w: World) {
    && w.queue == [] && w.handlers == [] && w.lost == {} && w.raced == {}
    && w.base.store.jobs == map[] && w.base.store.published == []
  }

  ghost predicate NoSweepAtWork(w: World) {
    forall s | 0 <= s < |w.sweeps| :: w.sweeps[s].remaining == []
  }

  function ReservedFile(u: Id, k: Id, size: nat, status: FileStatus): FileRow {
    FileRow(u, "a", "b", size, UploadKey(u, k, ""), status, 0, 0)
  }

  function Users(guest: bool, u: Id): set<Id> {
    if guest then {} else {u}
  }

  /** A guest or a registered user has reserved `f` and been given an upload form for it. */
  lemma ReservedFileReached(guest: bool, u: Id, f: Id, k: Id, size: nat) returns (w: World)
    requires ThreeIds(u, f, k) && 0 < size <= MAX_FILE_SIZE_BYTES
    ensures Reachable(w) && w.base.principals == {u} && w.base.store.users == Users(guest, u)
    ensures w.base.store.files == map[f := ReservedFile(u, k, size, FileStatus.Pending)]
    ensures w.base.store.objects == map[] && w.sweeps == [] && w.abandoned == {}
    ensures w.calls == [Presigning(f, UploadKey(u, k, ""), size)]
    ensures WorkerIdle(w)
    ensures w.policies == {} && w.base.issued == {u, f, k}
  {
    InitialIsReachable();
    UploadKeyParts(u, k, "");
    var env := At(Done, u, k);
    var join := if guest then OpenGuestSession else Register;
    var w1 := After(INITIAL, join, env);
    StepReaches(INITIAL, join, env);
    env := At(Done, f, k);
    var start := StartUpload(u, UploadInput("a", "b", size));
    assert Fresh(w1, {f, k});
    w := After(w1, start, env);
    StepReaches(w1, start, env);
  }

  lemma UploadFormReached(guest: bool, u: Id, f: Id, k: Id, size: nat) returns (w: World)
    requires ThreeIds(u, f, k) && 0 < size <= MAX_FILE_SIZE_BYTES
    ensures Reachable(w) && w.base.store.users == Users(guest, u)
    ensures w.base.store.files == map[f := ReservedFile(u, k, size, FileStatus.Pending)]
    ensures w.base.store.objects == map[] && w.sweeps == [] && |w.calls| == 1
    ensures w.policies == {Policy(UploadKey(u, k, ""), size)}
    ensures w.base.issued == {u, f, k} && u in w.base.principals
    ensures WorkerIdle(w)
  {
    var w1 := ReservedFileReached(guest, u, f, k, size);
    w := After(w1, ContinueCall(0), WILLING);
    StepReaches(w1, ContinueCall(0), WILLING);
  }

  /** The bytes have been uploaded. */
  lemma UploadReached(guest: bool, u: Id, f: Id, k: Id, size: nat) returns (w: World)
    requires ThreeIds(u, f, k) && 0 < size <= MAX_FILE_SIZE_BYTES
    ensures Reachable(w) && w.base.store.users == Users(guest, u)
    ensures w.base.store.files == map[f := ReservedFile(u, k, size, FileStatus.Pending)]
    ensures w.base.store.objects == map[UploadKey(u, k, "") := size] && w.sweeps == [] && |w.calls| == 1
    ensures w.policies == {Policy(UploadKey(u, k, ""), size)}
    ensures w.base.issued == {u, f, k} && u in w.base.principals
    ensures WorkerIdle(w)
  {
    var w1 := UploadFormReached(guest, u, f, k, size);
    var upload := BrowserUpload(Policy(UploadKey(u, k, ""), size));
    w := After(w1, upload, WILLING);
    StepReaches(w1, upload, WILLING);
  }

  /** The file is uploaded and its confirmation has checked the object. */
  lemma CheckedFileReached(guest: bool, u: Id, f: Id, k: Id, size: nat) returns (w: World)
    requires ThreeIds(u, f, k) && 0 < size <= MAX_FILE_SIZE_BYTES
    ensures Reachable(w) && w.base.store.users == Users(guest, u)
    ensures w.base.store.files == map[f := ReservedFile(u, k, size, FileStatus.Pending)]
    ensures w.base.store.objects == map[UploadKey(u, k, "") := size] && w.sweeps == []
    ensures |w.calls| == 2 && w.calls[1].Marking? && w.calls[1].userId == u && w.calls[1].fileId == f
    ensures w.policies == {Policy(UploadKey(u, k, ""), size)}
    ensures w.base.issued == {u, f, k} && u in w.base.principals
    ensures WorkerIdle(w)
  {
    var w1 := UploadReached(guest, u, f, k, size);
    var env := WILLING;
    var w2 := After(w1, StartConfirm(u, f), env);
    StepReaches(w1, StartConfirm(u, f), env);
    w := After(w2, ContinueCall(1), env);
    StepReaches(w2, ContinueCall(1), env);
  }

  /** A pending sweep has fetched the row. */
  lemma CheckedFileSwept(guest: bool, u: Id, f: Id, k: Id, size: nat) returns (w: World)
    requires ThreeIds(u, f, k) && 0 < size <= MAX_FILE_SIZE_BYTES
    ensures Reachable(w)
    ensures w.base.store.files == map[f := ReservedFile(u, k, size, FileStatus.Pending)]
    ensures w.base.store.objects == map[UploadKey(u, k, "") := size]
    ensures w.sweeps == [Sweep(false, [Target(f, ReservedFile(u, k, size, FileStatus.Pending))], false)]
    ensures |w.calls| == 2 && w.calls[1].Marking? && w.calls[1].userId == u && w.calls[1].fileId == f
  {
    var w1 := CheckedFileReached(guest, u, f, k, size);
    var sweep := StartPendingSweep([f], 1);
    assert ExpiredPending(w1.base.store, 1) == {f};
    assert Snapshot(w1.base.store, [f]) == [Target(f, ReservedFile(u, k, size, FileStatus.Pending))];
    w := After(w1, sweep, WILLING);
    StepReaches(w1, sweep, WILLING);
  }

  /** The sweep has removed the object. */
  lemma CheckedFileCut(guest: bool, u: Id, f: Id, k: Id, size: nat) returns (w: World)
    requires ThreeIds(u, f, k) && 0 < size <= MAX_FILE_SIZE_BYTES
    ensures Reachable(w)
    ensures w.base.store.files == map[f := ReservedFile(u, k, size, FileStatus.Pending)]
    ensures w.base.store.objects == map[]
    ensures w.sweeps == [Sweep(false, [Target(f, ReservedFile(u, k, size, FileStatus.Pending))], true)]
    ensures |w.calls| == 2 && w.calls[1].Marking? && w.calls[1].userId == u && w.calls[1].fileId == f
  {
    var w1 := CheckedFileSwept(guest, u, f, k, size);
    w := After(w1, ContinueSweep(0), WILLING);
    StepReaches(w1, ContinueSweep(0), WILLING);
  }

  /** The confirmation has marked the file ready all the same. */
  lemma CutFileConfirmed(guest: bool, u: Id, f: Id, k: Id, size: nat) returns (w: World)
    requires ThreeIds(u, f, k) && 0 < size <= MAX_FILE_SIZE_BYTES
    ensures Reachable(w)
    ensures w.base.store.files == map[f := ReservedFile(u, k, size, Ready)] && w.base.store.objects == map[]
    ensures w.sweeps == [Sweep(false, [Target(f, ReservedFile(u, k, size, FileStatus.Pending))], true)]
  {
    var w1 := CheckedFileCut(guest, u, f, k, size);
    w := After(w1, ContinueCall(1), WILLING);
    StepReaches(w1, ContinueCall(1), WILLING);
  }

  /**
   A pending sweep that overtakes a registered user's confirmation after its check, and then fails to
   write the row, leaves a ready file without its object and no sweep to delete it.
   */
  lemma ConfirmedFileCanLoseItsObject(u: Id, f: Id, k: Id, size: nat)
    requires ThreeIds(u, f, k) && 0 < size <= MAX_FILE_SIZE_BYTES
    ensures exists w: World :: Reachable(w) && NoSweepAtWork(w) && Disagrees(w.base.store, f, Ready)
  {
    var w1 := CutFileConfirmed(false, u, f, k, size);
    UploadKeyParts(u, k, "");
    var w := After(w1, ContinueSweep(0), REFUSING);
    StepReaches(w1, ContinueSweep(0), REFUSING);
    assert Disagrees(w.base.store, f, Ready) && NoSweepAtWork(w);
  }
}
