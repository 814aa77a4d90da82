/**
 What holds of every process in every reachable state: what its stale reads still say
 about the tables, and how far its job can be.
 */
module ProcessInvariant {
  import opened Keys
  import opened Store
  import opened Attempt
  import opened Calls
  import opened Sweeps
  import opened Machine
  import opened TableInvariant

  // ---- Facts that no other process can make false ----------------------------

  /** `row` is an earlier version of file `f`, which may be gone by now. */
  ghost predicate Recalls(b: Base, f: Id, row: FileRow) {
    && f in b.issued
    && (f in b.store.files ==> SameFile(row, b.store.files[f]))
    && OwnsPath(b, f, row.storagePath)
  }

  ghost predicate OwnedIfPresent(b: Base, f: Id, userId: Id) {
    f in b.issued && (f in b.store.files ==> b.store.files[f].userId == userId)
  }

  ghost predicate PayloadOk(b: Base, p: Payload) {
    && p.userId in b.principals
    && OwnedIfPresent(b, p.fileId, p.userId)
    && p.jobId in b.issued
    && (p.jobId in b.store.jobs ==> b.store.jobs[p.jobId].userId == p.userId && b.store.jobs[p.jobId].fileId == p.fileId)
  }

  /** Whoever is stored under `key` reserved exactly `size` bytes. */
  ghost predicate PolicyOk(b: Base, key: string, size: nat) {
    && InUploadNamespace(key) && KeyUuid(key) in b.issued
    && forall f | f in b.store.files && b.store.files[f].storagePath == key :: b.store.files[f].size == size
  }

  ghost predicate CallOk(b: Base, call: Call) {
    match call
    case Presigning(_, key, size) => PolicyOk(b, key, size)
    case Stating(userId, f, row) => Recalls(b, f, row) && row.userId == userId
    case Marking(userId, f, row) => Recalls(b, f, row) && row.userId == userId
    case InsertingJob(userId, f, _) => userId in b.principals && OwnedIfPresent(b, f, userId)
    case Enqueuing(p) => PayloadOk(b, p)
    case _ => true
  }

  ghost predicate TargetOk(b: Base, guest: bool, t: Target) {
    && Recalls(b, t.fileId, t.file)
    && (guest ==> t.file.userId in b.principals && t.file.userId !in b.store.users)
  }

  ghost predicate SweepOk(b: Base, sweep: Sweep) {
    forall i | 0 <= i < |sweep.remaining| :: TargetOk(b, sweep.guest, sweep.remaining[i])
  }

  ghost predicate OutputOk(b: Base, p: Payload, output: Id) {
    && OwnedIfPresent(b, output, p.userId)
    && (output in b.store.files ==> b.store.files[output].status != FileStatus.Pending)
  }

  ghost predicate PcOk(b: Base, p: Payload, pc: Pc) {
    && WaitingNonempty(pc)
    && (pc.CompleteImage? ==> OutputOk(b, p, pc.output))
    && (pc.Work? ==> 1 <= pc.i <= STAGES)
    && (pc.Report? && pc.milestone.Stage? ==> 1 <= pc.milestone.i <= STAGES)
  }

  ghost predicate EntryOk(b: Base, entry: Entry) {
    && PayloadOk(b, entry.payload)
    && entry.attempts <= MAX_ATTEMPTS
    && (entry.state.Waiting? ==> entry.attempts < MAX_ATTEMPTS)
    && (entry.state.Running? ==> 1 <= entry.attempts && PcOk(b, entry.payload, entry.state.pc))
    && (entry.state.Finished? ==> 1 <= entry.attempts && (!entry.state.ok ==> entry.attempts == MAX_ATTEMPTS))
  }

  ghost predicate ProcessesOk(w: World) {
    && (forall p | p in w.policies :: PolicyOk(w.base, p.key, p.size))
    && (forall c | 0 <= c < |w.calls| :: CallOk(w.base, w.calls[c]))
    && (forall q | 0 <= q < |w.queue| :: EntryOk(w.base, w.queue[q]))
    && (forall s | 0 <= s < |w.sweeps| :: SweepOk(w.base, w.sweeps[s]))
  }

  lemma PolicyLasts(b: Base, b': Base, key: string, size: nat)
    requires Grows(b, b') && PolicyOk(b, key, size)
    ensures PolicyOk(b', key, size)
  {}

  lemma CallLasts(b: Base, b': Base, call: Call)
    requires Grows(b, b') && CallOk(b, call)
    ensures CallOk(b', call)
  {}

  lemma EntryLasts(b: Base, b': Base, entry: Entry)
    requires Grows(b, b') && EntryOk(b, entry)
    ensures EntryOk(b', entry)
  {}

  lemma SweepLasts(b: Base, b': Base, sweep: Sweep)
    requires Grows(b, b') && SweepOk(b, sweep)
    ensures SweepOk(b', sweep)
  {
    forall i | 0 <= i < |sweep.remaining| ensures TargetOk(b', sweep.guest, sweep.remaining[i]) {
      assert TargetOk(b, sweep.guest, sweep.remaining[i]);
    }
  }

  /** Growth of the tables leaves every process in order. */
  lemma ProcessesLast(w: World, w': World)
    requires ProcessesOk(w) && Grows(w.base, w'.base)
    requires w' == w.(base := w'.base)
    ensures ProcessesOk(w')
  {
    forall p | p in w.policies ensures PolicyOk(w'.base, p.key, p.size) { PolicyLasts(w.base, w'.base, p.key, p.size); }
    forall c | 0 <= c < |w.calls| ensures CallOk(w'.base, w.calls[c]) { CallLasts(w.base, w'.base, w.calls[c]); }
    forall q | 0 <= q < |w.queue| ensures EntryOk(w'.base, w.queue[q]) { EntryLasts(w.base, w'.base, w.queue[q]); }
    forall s | 0 <= s < |w.sweeps| ensures SweepOk(w'.base, w.sweeps[s]) { SweepLasts(w.base, w'.base, w.sweeps[s]); }
  }

  // ---- The job of a running attempt ------------------------------------------

  /** The job has been marked active in this attempt and not yet completed. */
  predicate Midway(pc: Pc) {
    !pc.MarkActive? && !pc.Announce? && !Ended(pc)
  }

  predicate PastCompletion(pc: Pc) {
    pc.Announce? || pc.Returned?
  }

  ghost predicate StatusOk(s: Store, p: Payload, pc: Pc) {
    p.jobId in s.jobs ==>
      && (Midway(pc) ==> s.jobs[p.jobId].status in {Active, Failed})
      && (PastCompletion(pc) ==> s.jobs[p.jobId].status in {Completed, Failed})
  }

  ghost predicate StatusesOk(w: World) {
    forall q | 0 <= q < |w.queue| && w.queue[q].state.Running? ::
      StatusOk(w.base.store, w.queue[q].payload, w.queue[q].state.pc)
  }

  /** A job is queued at most once, and not before its row exists. */
  ghost predicate QueuedOnce(w: World) {
    && (forall q, r | 0 <= q < r < |w.queue| :: w.queue[q].payload.jobId != w.queue[r].payload.jobId)
    && (forall c, q | 0 <= c < |w.calls| && w.calls[c].Enqueuing? && 0 <= q < |w.queue| ::
          w.calls[c].payload.jobId != w.queue[q].payload.jobId)
    && (forall c, d | 0 <= c < d < |w.calls| && w.calls[c].Enqueuing? && w.calls[d].Enqueuing? ::
          w.calls[c].payload.jobId != w.calls[d].payload.jobId)
  }

  ghost predicate ControlOk(w: World) {
    TablesOk(w.base) && ProcessesOk(w) && StatusesOk(w) && QueuedOnce(w)
  }
}
