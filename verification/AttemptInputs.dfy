/** The input that an attempt holds stays an earlier version of its file's row. */
module AttemptInputs {
  import opened Wrappers
  import opened Store
  import opened Environment
  import opened Attempt
  import opened Machine
  import opened TableInvariant
  import opened ProcessInvariant
  import opened Guarantees

  function InputOf(pc: Pc): Option<FileRow> {
    match pc
    case FetchObject(input) => Some(input)
    case Transform(input) => Some(input)
    case Report(Fetched(input), _, _) => Some(input)
    case Report(Transformed(input, _), _, _) => Some(input)
    case _ => None
  }

  ghost predicate InputOk(b: Base, entry: Entry) {
    entry.state.Running? && InputOf(entry.state.pc).Some? ==> Recalls(b, entry.payload.fileId, InputOf(entry.state.pc).value)
  }

  ghost predicate InputsOk(w: World) {
    forall q | 0 <= q < |w.queue| :: InputOk(w.base, w.queue[q])
  }

  lemma InputLasts(b: Base, b': Base, entry: Entry)
    requires Grows(b, b') && InputOk(b, entry)
    ensures InputOk(b', entry)
  {}

  lemma AttemptKeepsInput(b: Base, p: Payload, attempts: nat, pc: Pc, env: Env)
    requires TablesOk(b) && PayloadOk(b, p) && !Ended(pc) && InputOk(b, Entry(p, attempts, Running(pc)))
    ensures InputOk(b, Entry(p, attempts, Running(Attempt.Next(b.store, p, pc, env).pc)))
  {
    if pc.ReadInput? && FindFile(b.store, p.userId, p.fileId).Some? {
      assert FileOk(b, b.store.files[p.fileId]) && OwnsPath(b, p.fileId, b.store.files[p.fileId].storagePath);
    }
  }

  lemma OtherStepsKeepInput(w: World, step: Step, env: Env, q: nat)
    requires Enabled(w, step, env) && step != ContinueAttempt(q) && q < |After(w, step, env).queue|
    ensures var entry := After(w, step, env).queue[q];
            (q < |w.queue| && entry == w.queue[q]) || (entry.state.Running? ==> InputOf(entry.state.pc).None?)
  {}

  lemma StepKeepsInputs(w: World, step: Step, env: Env)
    requires Invariant(w) && InputsOk(w) && Enabled(w, step, env)
    ensures InputsOk(After(w, step, env))
  {
    var w' := After(w, step, env);
    StepKeepsInvariant(w, step, env);
    forall q | 0 <= q < |w'.queue| ensures InputOk(w'.base, w'.queue[q]) {
      if step == ContinueAttempt(q) {
        var entry := w.queue[q];
        assert EntryOk(w.base, entry) && InputOk(w.base, entry);
        AttemptKeepsInput(w.base, entry.payload, entry.attempts, entry.state.pc, env);
        InputLasts(w.base, w'.base, w'.queue[q]);
      } else {
        OtherStepsKeepInput(w, step, env, q);
        if q < |w.queue| && w'.queue[q] == w.queue[q] {
          InputLasts(w.base, w'.base, w.queue[q]);
        }
      }
    }
  }

  lemma {:induction false} RunKeepsInputs(w: World, run: Run)
    requires Invariant(w) && InputsOk(w) && ValidRun(w, run)
    ensures InputsOk(End(w, run))
    decreases |run|
  {
    if run != [] {
      StepKeepsInvariant(w, run[0].0, run[0].1);
      StepKeepsInputs(w, run[0].0, run[0].1);
      RunKeepsInputs(After(w, run[0].0, run[0].1), run[1..]);
    }
  }

  /** In every reachable state what an attempt has read is its file, but for status and time of update. */
  lemma InputIsTheFile(w: World, q: nat)
    requires Reachable(w) && q < |w.queue| && w.queue[q].state.Running?
    ensures match InputOf(w.queue[q].state.pc)
            case None => true
            case Some(input) =>
              var f := w.queue[q].payload.fileId;
              f in w.base.store.files ==> SameFile(input, w.base.store.files[f])
  {
    var run: Run :| ValidRun(INITIAL, run) && End(INITIAL, run) == w;
    InitialInvariant();
    RunKeepsInputs(INITIAL, run);
    assert InputOk(w.base, w.queue[q]);
  }
}
