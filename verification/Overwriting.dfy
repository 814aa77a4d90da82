/**
 When a stored output loses its agreement: a later attempt of the same job stores another
 size under the same key.
 */
module Overwriting {
  import opened Keys
  import opened Store
  import opened Environment
  import opened Attempt
  import opened Calls
  import opened Machine
  import opened ProcessInvariant
  import opened Guarantees
  import opened AttemptEvents
  import opened Races
  import opened Exceptions
  import opened Outputs
  import opened OutputAgreement
  import opened AttemptInputs
  import opened ObjectKeeping

  /** The name of an output; `stem` is the name of the input without its extension. */
  function OutputName(p: Payload, inputName: string, stem: string): string {
    match ConvertFormat(p.jobType)
    case None => inputName
    case Some(format) => stem + "." + format.ext
  }

  /** The input of the payload is there, with some object. */
  predicate InputThere(s: Store, p: Payload) {
    FindFile(s, p.userId, p.fileId).Some? && s.files[p.fileId].storagePath in s.objects
  }

  /** The attempt gives its output the name `name`, with `stem` for the stem of its input's. */
  predicate Names(p: Payload, input: FileRow, stem: string, name: string) {
    OutputName(p, input.originalName, stem) == name
  }

  /** With `env` all the way, the attempt is going to store `env.size` bytes under `name`. */
  predicate Heading(s: Store, p: Payload, pc: Pc, env: Env, name: string) {
    && IsImageJob(p) && WaitingNonempty(pc) && !Doomed(pc) && env.outcome == Done
    && match pc
       case MarkActive => InputThere(s, p) && Names(p, s.files[p.fileId], env.text, name)
       case AnnounceActive => InputThere(s, p) && Names(p, s.files[p.fileId], env.text, name)
       case ReadInput => InputThere(s, p) && Names(p, s.files[p.fileId], env.text, name)
       case FetchObject(input) => input.storagePath in s.objects && Names(p, input, env.text, name)
       case Report(Fetched(input), _, _) => Names(p, input, env.text, name)
       case Transform(input) => Names(p, input, env.text, name)
       case Report(Transformed(input, size), _, _) => Names(p, input, env.text, name) && size == env.size
       case PutOutput(n, _, size) => n == name && size == env.size
       case _ => false
  }

  predicate SameFilesAndObjects(s: Store, s': Store) {
    s'.files == s.files && s'.objects == s.objects && s'.users == s.users && s'.jobs.Keys == s.jobs.Keys
  }

  lemma HeadsOn(s: Store, p: Payload, pc: Pc, env: Env, name: string)
    requires Heading(s, p, pc, env, name) && !pc.PutOutput?
    ensures var m := Attempt.Next(s, p, pc, env);
            && Heading(Apply(s, m.effect), p, m.pc, env, name) && Rank(m.pc) < Rank(pc)
            && Draws(m.effect) == {} && SameFilesAndObjects(s, Apply(s, m.effect))
  {
    RankDecreases(s, p, pc, env);
    if pc.Report? {
      ReportHeadsOn(s, p, pc, env, name);
    }
  }

  lemma ReportHeadsOn(s: Store, p: Payload, pc: Pc, env: Env, name: string)
    requires Heading(s, p, pc, env, name) && pc.Report?
    ensures var m := Attempt.Next(s, p, pc, env);
            && Heading(Apply(s, m.effect), p, m.pc, env, name)
            && Draws(m.effect) == {} && SameFilesAndObjects(s, Apply(s, m.effect))
  {
    var part := Ending(pc.waiting, env.part);
    ReportWritesProgress(s, p, pc.milestone, part, env.at);
  }

  lemma ReportWritesProgress(s: Store, p: Payload, m: Milestone, part: Part, at: int)
    ensures var e := ReportEffect(p, m, part, at);
            Draws(e) == {} && SameFilesAndObjects(s, Apply(s, e))
  {}

  predicate AtPut(w: World, q: nat, name: string, size: nat) {
    q < |w.queue| && w.queue[q].state.Running?
    && w.queue[q].state.pc.PutOutput? && w.queue[q].state.pc.name == name && w.queue[q].state.pc.size == size
  }

  lemma AwaitHeadsOn(w: World, q: nat, env: Env, name: string)
    requires q < |w.queue| && w.queue[q].state.Running? && !w.queue[q].state.pc.PutOutput?
    requires Heading(w.base.store, w.queue[q].payload, w.queue[q].state.pc, env, name)
    ensures Enabled(w, ContinueAttempt(q), env)
    ensures var w' := After(w, ContinueAttempt(q), env);
            && Heading(w'.base.store, w.queue[q].payload, w'.queue[q].state.pc, env, name)
            && Rank(w'.queue[q].state.pc) < Rank(w.queue[q].state.pc)
            && SameFilesAndObjects(w.base.store, w'.base.store)
            && w'.base.issued == w.base.issued && w'.base.principals == w.base.principals
            && w' == w.(base := w'.base, queue := w'.queue)
            && w'.queue[q].state.Running? && w'.queue == w.queue[q := w.queue[q].(state := w'.queue[q].state)]
  {
    HeadsOn(w.base.store, w.queue[q].payload, w.queue[q].state.pc, env, name);
  }

  /** The attempt gets to storing its output, and nothing else has changed. */
  lemma {:induction false} GetsToPut(w: World, q: nat, env: Env, name: string) returns (run: Run)
    requires q < |w.queue| && w.queue[q].state.Running?
    requires Heading(w.base.store, w.queue[q].payload, w.queue[q].state.pc, env, name)
    ensures ValidRun(w, run)
    ensures var w' := End(w, run);
            && AtPut(w', q, name, env.size) && SameFilesAndObjects(w.base.store, w'.base.store)
            && w'.base.issued == w.base.issued && w'.base.principals == w.base.principals
            && w' == w.(base := w'.base, queue := w'.queue)
            && w'.queue == w.queue[q := w.queue[q].(state := w'.queue[q].state)]
    decreases Rank(w.queue[q].state.pc)
  {
    if w.queue[q].state.pc.PutOutput? {
      run := [];
    } else {
      AwaitHeadsOn(w, q, env, name);
      var rest := GetsToPut(After(w, ContinueAttempt(q), env), q, env, name);
      run := [(ContinueAttempt(q), env)] + rest;
      assert run[1..] == rest;
    }
  }

  lemma StartsHeading(w: World, q: nat, env: Env, name: string)
    requires CanStart(w, q) && IsImageJob(w.queue[q].payload) && env.outcome == Done
    requires InputThere(w.base.store, w.queue[q].payload)
    requires Names(w.queue[q].payload, w.base.store.files[w.queue[q].payload.fileId], env.text, name)
    ensures var w' := AfterStart(w, q);
            Heading(w'.base.store, w.queue[q].payload, w'.queue[q].state.pc, env, name)
  {}

  function OtherSize(size: int): (other: nat)
    ensures other != size
  {
    if size == 0 then 1 else 0
  }

  /** A stored output of a payload that waits for an attempt can be overwritten by that attempt. */
  lemma WaitingOverwrites(w: World, q: nat, o: Id, name: string, stem: string)
    requires CanStart(w, q) && IsImageJob(w.queue[q].payload) && InputThere(w.base.store, w.queue[q].payload)
    requires Names(w.queue[q].payload, w.base.store.files[w.queue[q].payload.fileId], stem, name)
    requires o in w.base.store.files
    requires w.base.store.files[o].storagePath == OutputKey(w.queue[q].payload.userId, w.queue[q].payload.jobId, name)
    ensures !KeepsOutput(w, o)
  {
    var env := WILLING.(text := stem, size := OtherSize(w.base.store.files[o].size));
    StartsHeading(w, q, env, name);
    var w1 := After(w, StartAttempt(q), WILLING);
    var middle := GetsToPut(w1, q, env, name);
    var run: Run := [(StartAttempt(q), WILLING)] + middle;
    assert run[1..] == middle;
    PutOverwrites(w, run, q, o, name, OtherSize(w.base.store.files[o].size));
  }

  lemma PutOverwrites(w: World, run: Run, q: nat, o: Id, name: string, size: nat)
    requires ValidRun(w, run) && AtPut(End(w, run), q, name, size)
    requires var s, p := End(w, run).base.store, End(w, run).queue[q].payload;
             o in s.files && s.files[o].storagePath == OutputKey(p.userId, p.jobId, name) && s.files[o].size != size
    ensures !KeepsOutput(w, o)
  {
    RunExtends(w, run, ContinueAttempt(q), WILLING);
    assert ValidRun(w, run + [(ContinueAttempt(q), WILLING)]);
  }

  /** A call that is refused brings the attempt nearer to throwing. */
  lemma RefusalNeverReturns(s: Store, p: Payload, pc: Pc)
    requires !Ended(pc) && WaitingNonempty(pc)
    ensures var m := Attempt.Next(s, p, pc, REFUSING);
            m.effect == NoEffect && !m.pc.Returned? && WaitingNonempty(m.pc) && Rank(m.pc) < Rank(pc)
  {
    RankDecreases(s, p, pc, REFUSING);
  }

  lemma ThrownIsRetried(w: World, q: nat) returns (run: Run)
    requires CanSettle(w, q) && w.queue[q].state.pc.Threw? && w.queue[q].attempts < MAX_ATTEMPTS
    ensures ValidRun(w, run) && End(w, run).base == w.base
    ensures End(w, run).queue == w.queue[q := w.queue[q].(state := Waiting)]
  {
    run := [(SettleAttempt(q), WILLING)];
    assert run[1..] == [];
  }

  /** An attempt that is not the last can throw, and leave its payload waiting for another. */
  lemma {:induction false} GetsToRetry(w: World, q: nat) returns (run: Run)
    requires q < |w.queue| && w.queue[q].state.Running? && WaitingNonempty(w.queue[q].state.pc)
    requires !w.queue[q].state.pc.Returned? && w.queue[q].attempts < MAX_ATTEMPTS
    ensures ValidRun(w, run) && End(w, run).base == w.base
    ensures End(w, run).queue == w.queue[q := w.queue[q].(state := Waiting)]
    decreases Rank(w.queue[q].state.pc)
  {
    if w.queue[q].state.pc.Threw? {
      run := ThrownIsRetried(w, q);
    } else {
      RefusalNeverReturns(w.base.store, w.queue[q].payload, w.queue[q].state.pc);
      var rest := GetsToRetry(After(w, ContinueAttempt(q), REFUSING), q);
      run := [(ContinueAttempt(q), REFUSING)] + rest;
      assert run[1..] == rest;
    }
  }

  lemma LostLater(w: World, run: Run, o: Id)
    requires ValidRun(w, run) && !KeepsOutput(End(w, run), o)
    ensures !KeepsOutput(w, o)
  {
    var more: Run :| ValidRun(End(w, run), more)
      && !(o in End(End(w, run), more).base.store.files
           && HasObject(End(End(w, run), more).base.store, End(End(w, run), more).base.store.files[o]));
    RunsConcatenate(w, run, more);
  }

  // ---- Exactly when -----------------------------------------------------------

  /** The attempt at `pc` can go on to store another size than `size` under `name`. */
  predicate MayStoreOther(pc: Pc, name: string, size: int) {
    && !Doomed(pc)
    && match pc
       case MarkActive => true
       case AnnounceActive => true
       case ReadInput => true
       case FetchObject(_) => true
       case Transform(_) => true
       case Report(Transformed(_, n), _, _) => n != size
       case Report(_, _, _) => true
       case PutOutput(n, _, k) => n == name && k != size
       case _ => false
  }

  /** Some attempt on the payload can: this one, or, as long as it can throw, one after it. */
  predicate CanOverwrite(entry: Entry, name: string, size: int) {
    match entry.state
    case Waiting => true
    case Running(pc) => !pc.Returned? && (entry.attempts < MAX_ATTEMPTS || MayStoreOther(pc, name, size))
    case Finished(_) => false
  }

  /** File `o` is a registered user's, stored under the name that an attempt on the payload can give its output. */
  predicate IsOutputOf(w: World, q: nat, o: Id, name: string, stem: string)
    requires q < |w.queue|
  {
    var p, s := w.queue[q].payload, w.base.store;
    && IsImageJob(p) && InputThere(s, p) && Names(p, s.files[p.fileId], stem, name)
    && p.userId in s.users && o in s.files && s.files[o].userId == p.userId
    && s.files[o].storagePath == OutputKey(p.userId, p.jobId, name) && HasObject(s, s.files[o])
  }

  function SizeToStore(pc: Pc, size: int): nat {
    match pc
    case Report(Transformed(_, n), _, _) => n
    case PutOutput(_, _, k) => k
    case _ => OtherSize(size)
  }

  lemma RunningIsHeading(w: World, q: nat, o: Id, name: string, stem: string)
    requires Reachable(w) && q < |w.queue| && w.queue[q].state.Running? && IsOutputOf(w, q, o, name, stem)
    requires MayStoreOther(w.queue[q].state.pc, name, w.base.store.files[o].size)
    ensures var pc, size := w.queue[q].state.pc, w.base.store.files[o].size;
            && SizeToStore(pc, size) != size
            && Heading(w.base.store, w.queue[q].payload, pc, WILLING.(text := stem, size := SizeToStore(pc, size)), name)
  {
    ReachableKeepsInvariant(w);
    ReachableKeepsOutputs(w);
    assert EntryOk(w.base, w.queue[q]) && Fits(w.queue[q].payload, w.queue[q].state.pc);
    InputIsTheFile(w, q);
  }

  lemma RunningOverwrites(w: World, q: nat, o: Id, name: string, stem: string)
    requires Reachable(w) && q < |w.queue| && w.queue[q].state.Running? && IsOutputOf(w, q, o, name, stem)
    requires MayStoreOther(w.queue[q].state.pc, name, w.base.store.files[o].size)
    ensures !KeepsOutput(w, o)
  {
    var size := SizeToStore(w.queue[q].state.pc, w.base.store.files[o].size);
    RunningIsHeading(w, q, o, name, stem);
    var run := GetsToPut(w, q, WILLING.(text := stem, size := size), name);
    PutOverwrites(w, run, q, o, name, size);
  }

  lemma RetryOverwrites(w: World, q: nat, o: Id, name: string, stem: string)
    requires Reachable(w) && q < |w.queue| && w.queue[q].state.Running? && IsOutputOf(w, q, o, name, stem)
    requires !w.queue[q].state.pc.Returned? && w.queue[q].attempts < MAX_ATTEMPTS
    ensures !KeepsOutput(w, o)
  {
    ReachableKeepsInvariant(w);
    assert EntryOk(w.base, w.queue[q]);
    var run := GetsToRetry(w, q);
    WaitingOverwrites(End(w, run), q, o, name, stem);
    LostLater(w, run, o);
  }

  /** The attempt at `pc`, of an image job, stores another size under the key, or none. */
  lemma StoresAlikeExactly(p: Payload, pc: Pc, name: string, size: int)
    requires IsImageJob(p) && Fits(p, pc) && IsUuid(p.userId) && IsUuid(p.jobId) && !pc.Returned?
    ensures StoresAlike(p, pc, OutputKey(p.userId, p.jobId, name), size) <==> !MayStoreOther(pc, name, size)
  {
    if pc.PutOutput? {
      OutputKeysNeverCollide(p.userId, p.jobId, name, p.userId, p.jobId, pc.name);
    }
  }

  lemma NoneOverwrites(w: World, q: nat, o: Id, name: string, stem: string)
    requires Reachable(w) && q < |w.queue| && IsOutputOf(w, q, o, name, stem)
    requires !CanOverwrite(w.queue[q], name, w.base.store.files[o].size)
    ensures KeepsOutput(w, o)
  {
    ReachableKeepsInvariant(w);
    ReachableKeepsOutputs(w);
    var entry, file := w.queue[q], w.base.store.files[o];
    var p := entry.payload;
    assert EntryOk(w.base, entry);
    assert IsOutputPath(p.userId, p.jobId, OutputKey(p.userId, p.jobId, name));
    if entry.state.Running? && !entry.state.pc.Returned? {
      StoresAlikeExactly(p, entry.state.pc, name, file.size);
    }
    forall r | 0 <= r < |w.queue| && w.queue[r].payload.jobId == p.jobId
      ensures StoresNoOther(w.queue[r], file.storagePath, file.size)
    {
      assert r == q;
    }
    OutputIsKept(w, p.userId, p.jobId, o);
  }

  /**
   Let the input of the payload be there, and let `o` be an output stored under a name that
   an attempt on the payload can give its own.  The output keeps its object in every run
   exactly if no attempt can still store another size there: not the one at work from
   where it is, nor another, which is to come if that one can throw and is not the last.
   */
  lemma OutputIsKeptExactly(w: World, q: nat, o: Id, name: string, stem: string)
    requires Reachable(w) && q < |w.queue| && IsOutputOf(w, q, o, name, stem)
    ensures KeepsOutput(w, o) <==> !CanOverwrite(w.queue[q], name, w.base.store.files[o].size)
  {
    if !CanOverwrite(w.queue[q], name, w.base.store.files[o].size) {
      NoneOverwrites(w, q, o, name, stem);
    } else if w.queue[q].state.Waiting? {
      WaitingOverwrites(w, q, o, name, stem);
    } else if w.queue[q].attempts < MAX_ATTEMPTS {
      RetryOverwrites(w, q, o, name, stem);
    } else {
      RunningOverwrites(w, q, o, name, stem);
    }
  }

  // ---- A run -----------------------------------------------------------------

  function CompressPayload(u: Id, f: Id, j: Id): Payload {
    Payload(j, f, u, "compress")
  }

  /** Besides what the step machine has for the input and the job, nothing is going on. */
  predicate OnlyJobQueued(w: World, guest: bool, u: Id, f: Id, k: Id, j: Id, size: nat) {
    && w.base.store.users == Users(guest, u) && u in w.base.principals && w.base.store.jobs.Keys == {j}
    && w.handlers == [] && w.sweeps == [] && |w.calls| == 3
    && w.policies == {Policy(UploadKey(u, k, ""), size)}
    && |w.queue| == 1 && w.queue[0].payload == CompressPayload(u, f, j)
  }

  /** A compress job waits for its first attempt. */
  lemma CompressJobReached(guest: bool, u: Id, f: Id, k: Id, j: Id, size: nat) returns (w: World)
    requires FourIds(u, f, k, j) && 0 < size <= MAX_FILE_SIZE_BYTES
    ensures Reachable(w) && OnlyJobQueued(w, guest, u, f, k, j, size) && w.queue[0].state == Waiting && w.queue[0].attempts == 0
    ensures w.base.store.files == map[f := ReservedFile(u, k, size, Ready)]
    ensures w.base.store.objects == map[UploadKey(u, k, "") := size] && w.base.issued == {u, f, k, j}
  {
    var w1 := ConfirmedFileReached(guest, u, f, k, size);
    var w2 := InsertingFrom(w1, u, f, "compress");
    var w3 := EnqueuingFrom(w2, u, f, j, "compress");
    w := QueuedFrom(w3, CompressPayload(u, f, j));
  }

  lemma QueuedFrom(w: World, p: Payload) returns (w': World)
    requires Reachable(w) && |w.calls| == 3 && w.calls[2] == Enqueuing(p)
    ensures Reachable(w') && w' == w.(calls := w'.calls, queue := w.queue + [Entry(p, 0, Waiting)]) && |w'.calls| == 3
  {
    w' := After(w, ContinueCall(2), WILLING);
    StepReaches(w, ContinueCall(2), WILLING);
    assert w'.base.issued == w.base.issued;
  }

  /** An attempt that is about to start gets to storing `stored` bytes. */
  lemma PutReached(w: World, stored: nat) returns (w': World)
    requires Reachable(w) && |w.queue| == 1 && CanStart(w, 0) && w.queue[0].payload.jobType == "compress"
    requires var p, s := w.queue[0].payload, w.base.store;
             InputThere(s, p) && s.files[p.fileId].originalName == "a"
    ensures Reachable(w') && AtPut(w', 0, "a", stored) && SameFilesAndObjects(w.base.store, w'.base.store)
    ensures w'.base.issued == w.base.issued && w'.base.principals == w.base.principals
    ensures w' == w.(base := w'.base, queue := w'.queue, raced := w'.raced)
    ensures w'.queue == [Entry(w.queue[0].payload, w.queue[0].attempts + 1, w'.queue[0].state)]
  {
    var env := WILLING.(size := stored);
    StartsHeading(w, 0, env, "a");
    var w1 := After(w, StartAttempt(0), WILLING);
    StepReaches(w, StartAttempt(0), WILLING);
    var run := GetsToPut(w1, 0, env, "a");
    RunReaches(w1, run);
    w' := End(w1, run);
  }

  function StoredOutput(u: Id, j: Id, mimeType: string, stored: nat, at: int): FileRow {
    FileRow(u, "a", mimeType, stored, OutputKey(u, j, "a"), Ready, at, at)
  }

  /** It stores them and records file `o`. */
  lemma OutputRecordedFrom(w: World, o: Id, at: int, stored: nat) returns (w': World, mimeType: string)
    requires Reachable(w) && |w.queue| == 1 && AtPut(w, 0, "a", stored) && IsUuid(o) && o !in w.base.issued
    ensures var p := w.queue[0].payload;
            && w'.base.store == w.base.store.(
                 objects := w.base.store.objects[OutputKey(p.userId, p.jobId, "a") := stored],
                 files := w.base.store.files[o := StoredOutput(p.userId, p.jobId, mimeType, stored, at)])
            && w'.queue == [w.queue[0].(state := Running(CompleteImage(o)))]
    ensures Reachable(w') && w'.base.principals == w.base.principals && w' == w.(base := w'.base, queue := w'.queue)
    ensures w'.base.issued == w.base.issued + {o}
  {
    mimeType := w.queue[0].state.pc.mimeType;
    var w1 := OutputPut(w);
    w' := RowRecorded(w1, o, at);
  }

  lemma OutputPut(w: World) returns (w': World)
    requires Reachable(w) && |w.queue| == 1 && w.queue[0].state.Running? && w.queue[0].state.pc.PutOutput?
    ensures var p, pc := w.queue[0].payload, w.queue[0].state.pc;
            && w'.queue == [w.queue[0].(state := Running(CreateOutput(pc.name, pc.mimeType, pc.size)))]
            && w'.base.store == w.base.store.(objects := w.base.store.objects[OutputKey(p.userId, p.jobId, pc.name) := pc.size])
    ensures Reachable(w') && w'.base.issued == w.base.issued && w'.base.principals == w.base.principals
    ensures w' == w.(base := w'.base, queue := w'.queue)
  {
    w' := After(w, ContinueAttempt(0), WILLING);
    StepReaches(w, ContinueAttempt(0), WILLING);
  }

  lemma RowRecorded(w: World, o: Id, at: int) returns (w': World)
    requires Reachable(w) && |w.queue| == 1 && w.queue[0].state.Running? && w.queue[0].state.pc.CreateOutput?
    requires IsUuid(o) && o !in w.base.issued
    ensures Reachable(w') && w'.queue == [w.queue[0].(state := Running(CompleteImage(o)))]
    ensures var p, pc := w.queue[0].payload, w.queue[0].state.pc;
            w'.base.store == w.base.store.(files := w.base.store.files[o := OutputRow(p, pc.name, pc.mimeType, pc.size, at)])
    ensures w'.base.issued == w.base.issued + {o} && w'.base.principals == w.base.principals
    ensures w' == w.(base := w'.base, queue := w'.queue)
  {
    var env := At(Done, o, "").(at := at);
    NoUploadDrawn(w, env);
    w' := After(w, ContinueAttempt(0), env);
    StepReaches(w, ContinueAttempt(0), env);
  }

  lemma NoUploadDrawn(w: World, env: Env)
    requires |w.queue| == 1 && w.queue[0].state.Running? && w.queue[0].state.pc.CreateOutput? && env.outcome == Done
    ensures Draws(Attempt.Next(w.base.store, w.queue[0].payload, w.queue[0].state.pc, env).effect) == {env.newId}
  {
    OutputKeysAreNotUploadKeys(w.queue[0].payload.userId, w.queue[0].payload.jobId, w.queue[0].state.pc.name);
  }

  /** Completing the job is refused, so the attempt throws and another is to come. */
  lemma RecordedAttemptFails(w: World, o: Id) returns (w': World)
    requires Reachable(w) && |w.queue| == 1 && w.queue[0].attempts == 1 && w.queue[0].state == Running(CompleteImage(o))
    ensures Reachable(w') && w'.queue == [w.queue[0].(state := Waiting)]
    ensures w'.handlers == w.handlers + [Handler(JobOf(w, 0), "", WritingFailed)]
    ensures w' == w.(queue := w'.queue, handlers := w'.handlers)
  {
    var w1 := CompletionRefused(w, o);
    w' := After(w1, SettleAttempt(0), WILLING);
    StepReaches(w1, SettleAttempt(0), WILLING);
  }

  lemma CompletionRefused(w: World, o: Id) returns (w': World)
    requires Reachable(w) && |w.queue| == 1 && w.queue[0].state == Running(CompleteImage(o))
    ensures Reachable(w') && w' == w.(queue := [w.queue[0].(state := Running(Threw("")))])
  {
    w' := After(w, ContinueAttempt(0), REFUSING);
    StepReaches(w, ContinueAttempt(0), REFUSING);
    assert w'.base.issued == w.base.issued;
  }

  /** The first attempt has stored `stored` bytes and recorded file `o`, but failed to complete the job. */
  lemma FirstOutputReached(guest: bool, u: Id, f: Id, k: Id, j: Id, o: Id, size: nat, stored: nat) returns (w: World, mimeType: string)
    requires FourIds(u, f, k, j) && IsUuid(o) && o !in {u, f, k, j} && 0 < size <= MAX_FILE_SIZE_BYTES
    ensures Reachable(w) && OnlyJobQueued(w.(handlers := []), guest, u, f, k, j, size)
    ensures w.queue[0].state == Waiting && w.queue[0].attempts == 1 && w.handlers == [Handler(j, "", WritingFailed)]
    ensures w.base.store.files == map[f := ReservedFile(u, k, size, Ready), o := StoredOutput(u, j, mimeType, stored, 0)]
    ensures w.base.store.objects == map[UploadKey(u, k, "") := size, OutputKey(u, j, "a") := stored]
    ensures UploadKey(u, k, "") != OutputKey(u, j, "a") && w.base.issued == {u, f, k, j, o}
  {
    UploadKeyParts(u, k, "");
    OutputKeysAreNotUploadKeys(u, j, "a");
    var w1 := CompressJobReached(guest, u, f, k, j, size);
    var w2 := PutReached(w1, stored);
    var w3: World;
    w3, mimeType := OutputRecordedFrom(w2, o, 0, stored);
    w := RecordedAttemptFails(w3, o);
  }

  /** The browser can still send other bytes under the input's key: its upload form has not gone. */
  predicate InputCanChange(w: World, p: Payload, upload: Policy) {
    && upload in w.policies && p.fileId in w.base.store.files
    && upload.key == w.base.store.files[p.fileId].storagePath && upload.size == w.base.store.files[p.fileId].size
  }

  /** Between two attempts the input is uploaded again, and `o` has its object as before and after. */
  ghost predicate ReuploadLosesOutput(w: World, o: Id, upload: Policy) {
    && Reachable(w) && CanStart(w, 0) && InputCanChange(w, w.queue[0].payload, upload)
    && IsReady(w, o) && w.base.store.files[o].userId in w.base.store.users
    && HasObject(w.base.store, w.base.store.files[o])
    && var w' := After(w, BrowserUpload(upload), WILLING);
       Reachable(w') && HasObject(w'.base.store, w.base.store.files[o]) && !KeepsOutput(w', o)
  }

  /** Objects are known by their size, which the form prescribes. */
  lemma SizesStayTheSame(w: World, upload: Policy)
    requires upload.key in w.base.store.objects && w.base.store.objects[upload.key] == upload.size
    ensures Perform(w, PutObject(upload.key, upload.size)) == w
  {
    assert w.base.store.objects[upload.key := upload.size] == w.base.store.objects;
    assert w.base.issued + {} == w.base.issued;
  }

  /**
   A registered user's output that has its object can lose it: its attempt failed to
   complete the job, other bytes of the same size have been uploaded for its input, and
   the next attempt stores what it makes of those under the same key.
   */
  lemma OutputCanBeOverwritten(u: Id, f: Id, k: Id, j: Id, o: Id, size: nat, stored: nat)
    requires FourIds(u, f, k, j) && IsUuid(o) && o !in {u, f, k, j} && 0 < size <= MAX_FILE_SIZE_BYTES
    ensures exists w, upload :: ReuploadLosesOutput(w, o, upload)
  {
    var w, mimeType := FirstOutputReached(false, u, f, k, j, o, size, stored);
    var upload := Policy(UploadKey(u, k, ""), size);
    SizesStayTheSame(w, upload);
    WaitingOverwrites(w, 0, o, "a", "");
    assert ReuploadLosesOutput(w, o, upload);
  }
}
