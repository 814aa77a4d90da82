/** The cleanup sweeps as loops over what they fetched, and what they leave behind. */
module Cleanup {
  import opened Wrappers
  import opened Keys
  import opened Store
  import opened Environment
  import opened Sweeps
  import opened Solo
  import opened Repositories

  class Sweeper {
    const backend: Backend
    const fileRepo: FileRepository
    const storage: ObjectStorage

    constructor (backend: Backend)
      ensures Valid() && this.backend == backend
    {
      this.backend := backend;
      var files := new FileRepository(backend);
      var objects := new ObjectStorage(backend);
      fileRepo, storage := files, objects;
    }

    ghost predicate Valid() {
      fileRepo.db == backend && storage.backend == backend
    }

    method Fetch(guest: bool, before: int) returns (targets: seq<Target>, ghost order: seq<Id>)
      requires Valid()
      ensures Lists(order, if guest then ExpiredGuestFiles(backend.View(), before) else ExpiredPending(backend.View(), before))
      ensures targets == Snapshot(backend.View(), order)
      ensures forall f :: f in order <==> if guest then GuestGoes(backend.View(), before, f) else PendingGoes(backend.View(), before, f)
    {
      var ids;
      if guest {
        ids := fileRepo.FindExpiredGuestFiles(before);
      } else {
        ids := fileRepo.FindExpiredPending(before);
      }
      order := ids;
      targets := Snapshot(backend.View(), ids);
    }

    /** For each target remove the object, whatever comes of that, then the row. */
    method RemoveGuestFiles(expired: seq<Target>, oracle: Oracle) returns (thrown: bool)
      requires Valid()
      modifies backend
      ensures RunSweep(old(backend.View()), Sweep(true, expired, false), oracle, 0) == SweepEnd(backend.View(), thrown)
    {
      ghost var goal := RunSweep(backend.View(), Sweep(true, expired, false), oracle, 0);
      for i := 0 to |expired|
        invariant goal == RunSweep(backend.View(), Sweep(true, expired[i..], false), oracle, 2 * i)
      {
        var target := expired[i];
        assert expired[i..][0] == target && expired[i..][1..] == expired[i + 1..];
        var _ := storage.RemoveObject(target.file.storagePath, oracle(2 * i));
        assert goal == RunSweep(backend.View(), Sweep(true, expired[i..], true), oracle, 2 * i + 1);
        var ok := fileRepo.HardDelete(target.file.userId, target.fileId, oracle(2 * i + 1));
        if !ok {
          return true;
        }
      }
      thrown := false;
    }

    /** `removed` is the number of rows the sweep reports; `order` is what its query returned. */
    method CleanupGuestResources(before: int, oracle: Oracle) returns (thrown: bool, removed: nat, ghost order: seq<Id>)
      requires Valid()
      modifies backend
      ensures Lists(order, ExpiredGuestFiles(old(backend.View()), before))
      ensures forall f :: f in order <==> GuestGoes(old(backend.View()), before, f)
      ensures RunSweep(old(backend.View()), Sweep(true, Snapshot(old(backend.View()), order), false), oracle, 0)
              == SweepEnd(backend.View(), thrown)
      ensures !thrown ==> removed == |order|
    {
      var expired;
      expired, order := Fetch(true, before);
      removed := |expired|;
      thrown := RemoveGuestFiles(expired, oracle);
    }

    /** The same with rows only marked deleted. */
    method RemovePendingFiles(expired: seq<Target>, oracle: Oracle) returns (thrown: bool)
      requires Valid()
      modifies backend
      ensures RunSweep(old(backend.View()), Sweep(false, expired, false), oracle, 0) == SweepEnd(backend.View(), thrown)
    {
      ghost var goal := RunSweep(backend.View(), Sweep(false, expired, false), oracle, 0);
      for i := 0 to |expired|
        invariant goal == RunSweep(backend.View(), Sweep(false, expired[i..], false), oracle, 2 * i)
      {
        var target := expired[i];
        assert expired[i..][0] == target && expired[i..][1..] == expired[i + 1..];
        var _ := storage.RemoveObject(target.file.storagePath, oracle(2 * i));
        assert goal == RunSweep(backend.View(), Sweep(false, expired[i..], true), oracle, 2 * i + 1);
        var ok := fileRepo.SoftDelete(target.file.userId, target.fileId, oracle(2 * i + 1));
        if !ok {
          return true;
        }
      }
      thrown := false;
    }

    method CleanupPendingUploads(before: int, oracle: Oracle) returns (thrown: bool, removed: nat, ghost order: seq<Id>)
      requires Valid()
      modifies backend
      ensures Lists(order, ExpiredPending(old(backend.View()), before))
      ensures forall f :: f in order <==> PendingGoes(old(backend.View()), before, f)
      ensures RunSweep(old(backend.View()), Sweep(false, Snapshot(old(backend.View()), order), false), oracle, 0)
              == SweepEnd(backend.View(), thrown)
      ensures !thrown ==> removed == |order|
    {
      var expired;
      expired, order := Fetch(false, before);
      removed := |expired|;
      thrown := RemovePendingFiles(expired, oracle);
    }
  }

  // ---- Accounting of an undisturbed guest sweep -------------------------------

  function TargetIds(targets: seq<Target>): set<Id> {
    set i | 0 <= i < |targets| :: targets[i].fileId
  }

  /** Every target is still in the table, owned by the user it was fetched with. */
  predicate Current(s: Store, targets: seq<Target>) {
    forall i | 0 <= i < |targets| ::
      targets[i].fileId in s.files && s.files[targets[i].fileId].userId == targets[i].file.userId
  }

  /** The jobs of `jobs` whose file is not among `gone`, without outputs among `gone`. */
  function Without(jobs: map<Id, JobRow>, gone: set<Id>): map<Id, JobRow> {
    map j | j in jobs && jobs[j].fileId !in gone ::
      if jobs[j].outputFileId.Some? && jobs[j].outputFileId.value in gone then jobs[j].(outputFileId := None) else jobs[j]
  }

  lemma CascadeThenWithout(jobs: map<Id, JobRow>, f: Id, rest: set<Id>)
    ensures Without(Cascade(jobs, f), rest) == Without(jobs, {f} + rest)
  {
    var a, b := Without(Cascade(jobs, f), rest), Without(jobs, {f} + rest);
    assert forall j :: j in a <==> j in b;
  }

  lemma FirstOfTargets(targets: seq<Target>)
    requires targets != [] && Distinct(targets)
    ensures TargetIds(targets) == {targets[0].fileId} + TargetIds(targets[1..])
    ensures targets[0].fileId !in TargetIds(targets[1..]) && Distinct(targets[1..])
  {
    var rest := targets[1..];
    assert forall i | 0 <= i < |rest| :: rest[i] == targets[i + 1];
    assert forall i | 0 < i < |targets| :: targets[i] == rest[i - 1];
  }

  lemma RestIsCurrent(s: Store, targets: seq<Target>)
    requires targets != [] && Distinct(targets) && Current(s, targets)
    ensures Current(s.(files := s.files - {targets[0].fileId}), targets[1..])
  {
    var rest := targets[1..];
    forall i | 0 <= i < |rest| ensures rest[i].fileId != targets[0].fileId && rest[i] == targets[i + 1] {}
  }

  /** The sweep removes its targets from the files, and from the jobs what hangs on them. */
  lemma {:induction false} GuestSweepRemoves(s: Store, targets: seq<Target>, oracle: Oracle, k: nat)
    requires Distinct(targets) && Current(s, targets)
    ensures var end := RunSweep(s, Sweep(true, targets, false), oracle, k);
            !end.thrown ==>
              && end.store.files == s.files - TargetIds(targets)
              && end.store.jobs == Without(s.jobs, TargetIds(targets))
              && end.store.users == s.users
    decreases |targets|
  {
    if targets == [] {
      assert Without(s.jobs, {}) == s.jobs;
      assert s.files - {} == s.files;
    } else {
      var first, rest := targets[0], targets[1..];
      var s1 := Apply(s, IfLanded(oracle(k), RemoveObject(first.file.storagePath)));
      var s2 := Apply(s1, IfLanded(oracle(k + 1), HardDelete(first.file.userId, first.fileId)));
      var end := RunSweep(s, Sweep(true, targets, false), oracle, k);
      assert end == RunSweep(s1, Sweep(true, targets, true), oracle, k + 1);
      if oracle(k + 1).outcome == Done {
        assert end == RunSweep(s2, Sweep(true, rest, false), oracle, k + 2);
        assert s2.files == s.files - {first.fileId};
        FirstOfTargets(targets);
        RestIsCurrent(s, targets);
        assert Current(s2, rest);
        GuestSweepRemoves(s2, rest, oracle, k + 2);
        CascadeThenWithout(s.jobs, first.fileId, TargetIds(rest));
        assert s.files - {first.fileId} - TargetIds(rest) == s.files - ({first.fileId} + TargetIds(rest));
      }
    }
  }

  lemma {:induction false} DistinctCount(order: seq<Id>, ids: set<Id>)
    requires Lists(order, ids)
    ensures |ids| == |order|
    decreases |order|
  {
    if order == [] {
      assert ids == {};
    } else {
      var front, last := order[..|order| - 1], order[|order| - 1];
      assert forall id | id in ids - {last} :: id in front by {
        forall id | id in ids - {last} ensures id in front {
          var i :| 0 <= i < |order| && order[i] == id;
          assert front[i] == id;
        }
      }
      DistinctCount(front, ids - {last});
    }
  }

  lemma SnapshotIds(s: Store, order: seq<Id>, ids: set<Id>)
    requires Lists(order, ids) && forall id | id in ids :: id in s.files
    ensures TargetIds(Snapshot(s, order)) == ids
    ensures Distinct(Snapshot(s, order)) && Current(s, Snapshot(s, order))
  {
    var targets := Snapshot(s, order);
    forall id | id in ids ensures id in TargetIds(targets) {
      var i :| 0 <= i < |order| && order[i] == id;
      assert targets[i].fileId == id;
    }
  }

  lemma FewerFiles(s: Store, s': Store, gone: set<Id>)
    requires s'.files == s.files - gone && gone <= s.files.Keys
    ensures |s.files| == |s'.files| + |gone|
  {
    assert s'.files.Keys == s.files.Keys - gone;
    assert |s.files| == |s.files.Keys| && |s'.files| == |s'.files.Keys|;
  }

  lemma OnlyFinishedJobsGo(s: Store, before: int, j: Id)
    requires j in s.jobs && s.jobs[j].fileId in ExpiredGuestFiles(s, before)
    ensures s.jobs[j].status in {Completed, Failed}
  {
    assert !InUse(s, s.jobs[j].fileId);
    match s.jobs[j].status
    case Pending =>
    case Active =>
    case Completed =>
    case Failed =>
  }

  // ---- Objects and errors of an undisturbed sweep -----------------------------

  /** The sweep is at a target stored under `key` whose removal takes effect; target `i` is handled from await `k + 2 * i` on. */
  ghost predicate RemovesKey(targets: seq<Target>, oracle: Oracle, k: nat, key: string) {
    exists i :: 0 <= i < |targets| && targets[i].file.storagePath == key && !oracle(k + 2 * i).outcome.Refused?
  }

  /** The write to the row of some target is not acknowledged. */
  ghost predicate RowFails(targets: seq<Target>, oracle: Oracle, k: nat) {
    exists i :: 0 <= i < |targets| && oracle(k + 2 * i + 1).outcome != Done
  }

  lemma RemovesKeyFrom(targets: seq<Target>, oracle: Oracle, k: nat, key: string)
    requires targets != []
    ensures RemovesKey(targets, oracle, k, key)
            <==> (targets[0].file.storagePath == key && !oracle(k).outcome.Refused?) || RemovesKey(targets[1..], oracle, k + 2, key)
  {
    var rest := targets[1..];
    assert oracle(k + 2 * 0) == oracle(k);
    if RemovesKey(rest, oracle, k + 2, key) {
      RestRemoves(targets, oracle, k, key);
    }
    if RemovesKey(targets, oracle, k, key) {
      var i :| 0 <= i < |targets| && targets[i].file.storagePath == key && !oracle(k + 2 * i).outcome.Refused?;
      if i > 0 {
        assert rest[i - 1] == targets[i] && oracle(k + 2 + 2 * (i - 1)) == oracle(k + 2 * i);
      }
    }
  }

  lemma RestRemoves(targets: seq<Target>, oracle: Oracle, k: nat, key: string)
    requires targets != [] && RemovesKey(targets[1..], oracle, k + 2, key)
    ensures RemovesKey(targets, oracle, k, key)
  {
    var rest := targets[1..];
    var i :| 0 <= i < |rest| && rest[i].file.storagePath == key && !oracle(k + 2 + 2 * i).outcome.Refused?;
    assert targets[i + 1] == rest[i] && oracle(k + 2 * (i + 1)) == oracle(k + 2 + 2 * i);
  }

  lemma RowFailsFrom(targets: seq<Target>, oracle: Oracle, k: nat)
    requires targets != []
    ensures RowFails(targets, oracle, k) <==> oracle(k + 1).outcome != Done || RowFails(targets[1..], oracle, k + 2)
  {
    var rest := targets[1..];
    assert oracle(k + 2 * 0 + 1) == oracle(k + 1);
    if RowFails(rest, oracle, k + 2) {
      var i :| 0 <= i < |rest| && oracle(k + 2 + 2 * i + 1).outcome != Done;
      assert oracle(k + 2 * (i + 1) + 1) == oracle(k + 2 + 2 * i + 1);
    }
    if RowFails(targets, oracle, k) {
      var i :| 0 <= i < |targets| && oracle(k + 2 * i + 1).outcome != Done;
      if i > 0 {
        assert oracle(k + 2 + 2 * (i - 1) + 1) == oracle(k + 2 * i + 1);
      }
    }
  }

  lemma FirstTarget(s: Store, sweep: Sweep, oracle: Oracle, k: nat) returns (s': Store)
    requires sweep.remaining != [] && !sweep.cut
    ensures var end := RunSweep(s, sweep, oracle, k);
            if oracle(k + 1).outcome == Done
            then end == RunSweep(s', Sweep(sweep.guest, sweep.remaining[1..], false), oracle, k + 2)
            else end == SweepEnd(s', true)
    ensures s'.objects == if oracle(k).outcome.Refused? then s.objects else s.objects - {sweep.remaining[0].file.storagePath}
  {
    var m := Sweeps.Next(sweep, oracle(k));
    var s1 := Apply(s, m.effect);
    assert RunSweep(s, sweep, oracle, k) == RunSweep(s1, m.sweep, oracle, k + 1);
    s' := Apply(s1, Sweeps.Next(m.sweep, oracle(k + 1)).effect);
  }

  /** A sweep is ended by a row write that is not acknowledged, and by nothing else. */
  lemma {:induction false} ThrowsExactly(s: Store, guest: bool, targets: seq<Target>, oracle: Oracle, k: nat)
    ensures RunSweep(s, Sweep(guest, targets, false), oracle, k).thrown <==> RowFails(targets, oracle, k)
    decreases |targets|
  {
    if targets != [] {
      var s' := FirstTarget(s, Sweep(guest, targets, false), oracle, k);
      RowFailsFrom(targets, oracle, k);
      if oracle(k + 1).outcome == Done {
        ThrowsExactly(s', guest, targets[1..], oracle, k + 2);
      }
    }
  }

  /** A sweep that gets through removes the objects of its targets, as far as the removals take effect, and no others. */
  lemma {:induction false} ObjectsRemovedExactly(s: Store, guest: bool, targets: seq<Target>, oracle: Oracle, k: nat, key: string)
    requires !RunSweep(s, Sweep(guest, targets, false), oracle, k).thrown
    ensures var s' := RunSweep(s, Sweep(guest, targets, false), oracle, k).store;
            if RemovesKey(targets, oracle, k, key) then key !in s'.objects else SameObject(s, s', key)
    decreases |targets|
  {
    if targets != [] {
      var s' := FirstTarget(s, Sweep(guest, targets, false), oracle, k);
      RemovesKeyFrom(targets, oracle, k, key);
      if oracle(k + 1).outcome == Done {
        ObjectsRemovedExactly(s', guest, targets[1..], oracle, k + 2, key);
      }
    }
  }

  /** A file that a guest sweep goes for: a guest's, ready, not written since `before`, and on which no job is to be worked. */
  ghost predicate GuestGoes(s: Store, before: int, f: Id) {
    && f in s.files && s.files[f].userId !in s.users && s.files[f].status == Ready && s.files[f].updatedAt < before
    && forall j | j in s.jobs :: s.jobs[j].fileId == f ==> s.jobs[j].status !in {JobStatus.Pending, Active}
  }

  /** A file that a pending sweep goes for: reserved before `before` and not confirmed. */
  predicate PendingGoes(s: Store, before: int, f: Id) {
    f in s.files && s.files[f].status == FileStatus.Pending && s.files[f].createdAt < before
  }

  lemma ExpiredGuestFilesGo(s: Store, before: int, f: Id)
    ensures f in ExpiredGuestFiles(s, before) <==> GuestGoes(s, before, f)
  {
    if f in s.files && InUse(s, f) {
      var j :| j in s.jobs && s.jobs[j].fileId == f && s.jobs[j].status in {JobStatus.Pending, Active};
      assert !GuestGoes(s, before, f);
    }
  }

  lemma NoTargetUnder(s: Store, order: seq<Id>, oracle: Oracle, key: string)
    requires forall f | f in order :: f in s.files && s.files[f].storagePath != key
    ensures !RemovesKey(Snapshot(s, order), oracle, 0, key)
  {
    var targets := Snapshot(s, order);
    forall i | 0 <= i < |targets| ensures targets[i].file.storagePath != key {
      assert order[i] in order;
    }
  }

  /**
   A guest sweep that nothing disturbs removes exactly the files it goes for, as many rows
   as it reports, with the jobs on them, none of which is pending or active; it touches no
   other job but to clear a reference to them, and no object under the key of none of them.
   */
  lemma GuestSweepAccounts(s: Store, before: int, order: seq<Id>, oracle: Oracle)
    requires Lists(order, ExpiredGuestFiles(s, before))
    requires !RunSweep(s, Sweep(true, Snapshot(s, order), false), oracle, 0).thrown
    ensures var s' := RunSweep(s, Sweep(true, Snapshot(s, order), false), oracle, 0).store;
            && (forall f :: f in s'.files <==> f in s.files && !GuestGoes(s, before, f))
            && (forall f | f in s'.files :: s'.files[f] == s.files[f])
            && |s.files| == |s'.files| + |order|
            && (forall j :: j in s'.jobs <==> j in s.jobs && !GuestGoes(s, before, s.jobs[j].fileId))
            && (forall j | j in s'.jobs ::
                  s'.jobs[j] == if s.jobs[j].outputFileId.Some? && GuestGoes(s, before, s.jobs[j].outputFileId.value)
                                then s.jobs[j].(outputFileId := None) else s.jobs[j])
            && (forall j | j in s.jobs && j !in s'.jobs :: s.jobs[j].status in {Completed, Failed})
            && (forall key | (forall f | GuestGoes(s, before, f) :: s.files[f].storagePath != key) :: SameObject(s, s', key))
  {
    var gone := ExpiredGuestFiles(s, before);
    var s' := RunSweep(s, Sweep(true, Snapshot(s, order), false), oracle, 0).store;
    forall f ensures f in gone <==> GuestGoes(s, before, f) {
      ExpiredGuestFilesGo(s, before, f);
    }
    GuestSweepRows(s, before, order, oracle);
    forall key | (forall f | GuestGoes(s, before, f) :: s.files[f].storagePath != key) ensures SameObject(s, s', key) {
      NoTargetUnder(s, order, oracle, key);
      ObjectsRemovedExactly(s, true, Snapshot(s, order), oracle, 0, key);
    }
  }

  lemma GuestSweepRows(s: Store, before: int, order: seq<Id>, oracle: Oracle)
    requires Lists(order, ExpiredGuestFiles(s, before))
    requires !RunSweep(s, Sweep(true, Snapshot(s, order), false), oracle, 0).thrown
    ensures var s' := RunSweep(s, Sweep(true, Snapshot(s, order), false), oracle, 0).store;
            && s'.files == s.files - ExpiredGuestFiles(s, before)
            && |s.files| == |s'.files| + |order|
            && s'.jobs == Without(s.jobs, ExpiredGuestFiles(s, before))
            && (forall j | j in s.jobs && j !in s'.jobs :: s.jobs[j].status in {Completed, Failed})
  {
    var gone := ExpiredGuestFiles(s, before);
    var s' := RunSweep(s, Sweep(true, Snapshot(s, order), false), oracle, 0).store;
    SnapshotIds(s, order, gone);
    GuestSweepRemoves(s, Snapshot(s, order), oracle, 0);
    DistinctCount(order, gone);
    FewerFiles(s, s', gone);
    forall j | j in s.jobs && j !in s'.jobs ensures s.jobs[j].status in {Completed, Failed} {
      OnlyFinishedJobsGo(s, before, j);
    }
  }

  // ---- Accounting of an undisturbed pending sweep ------------------------------

  /** The rows of `files` with those in `gone` marked deleted, whenever that was. */
  predicate DeletedExactly(files: map<Id, FileRow>, files': map<Id, FileRow>, gone: set<Id>) {
    && files'.Keys == files.Keys
    && forall f | f in files ::
         if f in gone then files'[f] == files[f].(status := Deleted, updatedAt := files'[f].updatedAt) else files'[f] == files[f]
  }

  lemma DeletedFirst(files: map<Id, FileRow>, mid: map<Id, FileRow>, end: map<Id, FileRow>, f: Id, rest: set<Id>)
    requires DeletedExactly(files, mid, {f}) && DeletedExactly(mid, end, rest) && f !in rest
    ensures DeletedExactly(files, end, {f} + rest)
  {}

  lemma {:induction false} PendingSweepDeletes(s: Store, targets: seq<Target>, oracle: Oracle, k: nat)
    requires Distinct(targets) && Current(s, targets)
    ensures var end := RunSweep(s, Sweep(false, targets, false), oracle, k);
            !end.thrown ==> DeletedExactly(s.files, end.store.files, TargetIds(targets)) && end.store.jobs == s.jobs
    decreases |targets|
  {
    if targets != [] {
      var first, rest := targets[0], targets[1..];
      var s1 := Apply(s, IfLanded(oracle(k), RemoveObject(first.file.storagePath)));
      var s2 := Apply(s1, IfLanded(oracle(k + 1), SoftDelete(first.file.userId, first.fileId, oracle(k + 1).at)));
      var end := RunSweep(s, Sweep(false, targets, false), oracle, k);
      assert end == RunSweep(s1, Sweep(false, targets, true), oracle, k + 1);
      if oracle(k + 1).outcome == Done {
        assert end == RunSweep(s2, Sweep(false, rest, false), oracle, k + 2);
        FirstOfTargets(targets);
        assert Current(s2, rest);
        PendingSweepDeletes(s2, rest, oracle, k + 2);
        if !end.thrown {
          DeletedFirst(s.files, s2.files, end.store.files, first.fileId, TargetIds(rest));
        }
      }
    }
  }

  /**
   A pending sweep that nothing disturbs marks exactly the reservations it goes for
   deleted, and leaves none; every other row stays, with its object unless one of those
   shares its key, so that a reservation made since `before` keeps both.
   */
  lemma PendingSweepAccounts(s: Store, before: int, order: seq<Id>, oracle: Oracle)
    requires Lists(order, ExpiredPending(s, before))
    requires !RunSweep(s, Sweep(false, Snapshot(s, order), false), oracle, 0).thrown
    ensures var s' := RunSweep(s, Sweep(false, Snapshot(s, order), false), oracle, 0).store;
            && s'.files.Keys == s.files.Keys && s'.jobs == s.jobs
            && (forall f | f in s.files ::
                  s'.files[f] == if PendingGoes(s, before, f)
                                 then s.files[f].(status := Deleted, updatedAt := s'.files[f].updatedAt) else s.files[f])
            && (forall f :: f in order <==> PendingGoes(s, before, f)) && |order| == |ExpiredPending(s, before)|
            && (forall f :: !PendingGoes(s', before, f))
            && (forall f | f in s.files && s.files[f].createdAt >= before ::
                  && s'.files[f] == s.files[f]
                  && ((forall g | PendingGoes(s, before, g) :: s.files[g].storagePath != s.files[f].storagePath)
                      ==> SameObject(s, s', s.files[f].storagePath)))
  {
    SnapshotIds(s, order, ExpiredPending(s, before));
    PendingSweepDeletes(s, Snapshot(s, order), oracle, 0);
    DistinctCount(order, ExpiredPending(s, before));
    var s' := RunSweep(s, Sweep(false, Snapshot(s, order), false), oracle, 0).store;
    assert forall f :: f in ExpiredPending(s, before) <==> PendingGoes(s, before, f);
    forall f | f in s.files && (forall g | PendingGoes(s, before, g) :: s.files[g].storagePath != s.files[f].storagePath)
      ensures SameObject(s, s', s.files[f].storagePath)
    {
      NoTargetUnder(s, order, oracle, s.files[f].storagePath);
      ObjectsRemovedExactly(s, false, Snapshot(s, order), oracle, 0, s.files[f].storagePath);
    }
  }
}
