/** API keys: the limit per user when calls to create keys overlap. */
module ApiKeys {
  import opened Basics

  type UserId = string
  type KeyId = nat

  const MAX_KEYS_PER_USER := 5

  /** A `createKey` call before its count, between count and insert, or over. */
  datatype Phase = Counting | Inserting | Over

  datatype KeyCall = KeyCall(userId: UserId, phase: Phase)

  datatype Keys = Keys(owners: map<KeyId, UserId>, calls: seq<KeyCall>)

  datatype KeyStep =
    | StartCreate(userId: UserId)
    | Count(c: nat)
    | Insert(c: nat, keyId: KeyId)
    | Abort(c: nat)
    | Revoke(userId: UserId, keyId: KeyId)

  function OwnedBy(owners: map<KeyId, UserId>, u: UserId): set<KeyId> {
    set id | id in owners && owners[id] == u
  }

  function KeysOf(k: Keys, u: UserId): set<KeyId> {
    OwnedBy(k.owners, u)
  }

  function CallsIn(k: Keys, u: UserId, phases: set<Phase>): set<nat> {
    set c | 0 <= c < |k.calls| && k.calls[c].userId == u && k.calls[c].phase in phases
  }

  predicate CanStep(k: Keys, step: KeyStep) {
    match step
    case StartCreate(_) => true
    case Count(c) => c < |k.calls| && k.calls[c].phase == Counting
    case Insert(c, id) => c < |k.calls| && k.calls[c].phase == Inserting && id !in k.owners
    case Abort(c) => c < |k.calls| && k.calls[c].phase != Over
    case Revoke(_, _) => true
  }

  function WithPhase(k: Keys, c: nat, phase: Phase): Keys
    requires c < |k.calls|
  {
    k.(calls := k.calls[c := k.calls[c].(phase := phase)])
  }

  function StepKeys(k: Keys, step: KeyStep): Keys
    requires CanStep(k, step)
  {
    match step
    case StartCreate(u) => k.(calls := k.calls + [KeyCall(u, Counting)])
    case Count(c) =>
      WithPhase(k, c, if |KeysOf(k, k.calls[c].userId)| >= MAX_KEYS_PER_USER then Over else Inserting)
    case Insert(c, id) => WithPhase(k, c, Over).(owners := k.owners[id := k.calls[c].userId])
    case Abort(c) => WithPhase(k, c, Over)
    case Revoke(u, id) =>
      if id in k.owners && k.owners[id] == u then k.(owners := k.owners - {id}) else k
  }

  // ---- The service, one call at a time ---------------------------------------

  datatype CreateResult = Created(keyId: KeyId) | LimitReached

  class ApiKeyService {
    var owners: map<KeyId, UserId>

    method CreateKey(userId: UserId, keyId: KeyId) returns (result: CreateResult)
      requires keyId !in owners
      modifies this
      ensures result.Created? <==> |OwnedBy(old(owners), userId)| < 5
      ensures owners == if result.Created? then old(owners)[keyId := userId] else old(owners)
      ensures result.Created? ==> result.keyId == keyId
    {
      var count := |OwnedBy(owners, userId)|;
      if count >= MAX_KEYS_PER_USER {
        return LimitReached;
      }
      owners := owners[keyId := userId];
      result := Created(keyId);
    }

    /** `false` when the user has no such key. */
    method RevokeKey(userId: UserId, keyId: KeyId) returns (deleted: bool)
      modifies this
      ensures deleted <==> keyId in old(owners) && old(owners)[keyId] == userId
      ensures owners == if deleted then old(owners) - {keyId} else old(owners)
    {
      deleted := keyId in owners && owners[keyId] == userId;
      if deleted {
        owners := owners - {keyId};
      }
    }
  }

  /** In a step too, revoking takes a key from its owner only, and from no one else's. */
  lemma RevokeTakesOwnKey(k: Keys, u: UserId, id: KeyId, v: UserId)
    ensures KeysOf(StepKeys(k, Revoke(u, id)), v) == KeysOf(k, v) - if u == v then {id} else {}
  {}

  /** A call that is alone counts and inserts as the service does. */
  lemma LoneCallIsCreate(k: Keys, u: UserId, id: KeyId)
    requires id !in k.owners
    ensures var c := |k.calls|;
            var counted := StepKeys(StepKeys(k, StartCreate(u)), Count(c));
            if |KeysOf(k, u)| < 5
            then CanStep(counted, Insert(c, id)) && StepKeys(counted, Insert(c, id)).owners == k.owners[id := u]
            else counted.owners == k.owners && counted.calls[c].phase == Over
  {}

  // ---- The bound -------------------------------------------------------------

  const UNDERWAY := {Counting, Inserting}

  predicate AtMostInFlight(k: Keys, u: UserId, most: nat) {
    |CallsIn(k, u, UNDERWAY)| <= most
  }

  ghost predicate Bounded(k: Keys, u: UserId, most: nat) {
    |KeysOf(k, u)| + |CallsIn(k, u, {Inserting})| <= MAX_KEYS_PER_USER - 1 + most
  }

  /** A call that passes its count found at most four keys, and is itself in flight. */
  lemma CountKeepsBound(k: Keys, c: nat, u: UserId, most: nat)
    requires CanStep(k, Count(c)) && Bounded(k, u, most) && AtMostInFlight(StepKeys(k, Count(c)), u, most)
    ensures Bounded(StepKeys(k, Count(c)), u, most)
  {
    var k' := StepKeys(k, Count(c));
    if k.calls[c].userId == u && k'.calls[c].phase == Inserting {
      SubsetCount(CallsIn(k', u, {Inserting}), CallsIn(k', u, UNDERWAY));
    } else {
      assert CallsIn(k', u, {Inserting}) == CallsIn(k, u, {Inserting});
    }
  }

  lemma InsertKeepsBound(k: Keys, c: nat, id: KeyId, u: UserId, most: nat)
    requires CanStep(k, Insert(c, id)) && Bounded(k, u, most)
    ensures Bounded(StepKeys(k, Insert(c, id)), u, most)
  {
    InsertMovesCalls(k, c, id, u);
    InsertMovesKeys(k, c, id, u);
  }

  lemma InsertMovesCalls(k: Keys, c: nat, id: KeyId, u: UserId)
    requires CanStep(k, Insert(c, id))
    ensures var inserting := CallsIn(StepKeys(k, Insert(c, id)), u, {Inserting});
            if k.calls[c].userId == u
            then c in CallsIn(k, u, {Inserting}) && inserting == CallsIn(k, u, {Inserting}) - {c}
            else inserting == CallsIn(k, u, {Inserting})
  {}

  lemma InsertMovesKeys(k: Keys, c: nat, id: KeyId, u: UserId)
    requires CanStep(k, Insert(c, id))
    ensures KeysOf(StepKeys(k, Insert(c, id)), u) == KeysOf(k, u) + if k.calls[c].userId == u then {id} else {}
  {}

  /** Starting, aborting and revoking add neither a key nor a pending insert. */
  lemma OtherStepKeepsBound(k: Keys, step: KeyStep, u: UserId, most: nat)
    requires CanStep(k, step) && Bounded(k, u, most) && !step.Count? && !step.Insert?
    ensures Bounded(StepKeys(k, step), u, most)
  {
    var k' := StepKeys(k, step);
    assert CallsIn(k', u, {Inserting}) <= CallsIn(k, u, {Inserting});
    assert KeysOf(k', u) <= KeysOf(k, u);
    SubsetCount(CallsIn(k', u, {Inserting}), CallsIn(k, u, {Inserting}));
    SubsetCount(KeysOf(k', u), KeysOf(k, u));
  }

  lemma StepKeepsBound(k: Keys, step: KeyStep, u: UserId, most: nat)
    requires CanStep(k, step) && Bounded(k, u, most) && AtMostInFlight(StepKeys(k, step), u, most)
    ensures Bounded(StepKeys(k, step), u, most)
  {
    match step
    case Count(c) => CountKeepsBound(k, c, u, most);
    case Insert(c, id) => InsertKeepsBound(k, c, id, u, most);
    case _ => OtherStepKeepsBound(k, step, u, most);
  }

  type KeyRun = seq<KeyStep>

  predicate Possible(k: Keys, run: KeyRun)
    decreases |run|
  {
    run == [] || (CanStep(k, run[0]) && Possible(StepKeys(k, run[0]), run[1..]))
  }

  function After(k: Keys, run: KeyRun): Keys
    requires Possible(k, run)
    decreases |run|
  {
    if run == [] then k else After(StepKeys(k, run[0]), run[1..])
  }

  /** Never more than `most` calls of user `u` overlap during the run. */
  predicate Overlap(k: Keys, run: KeyRun, u: UserId, most: nat)
    requires Possible(k, run)
    decreases |run|
  {
    AtMostInFlight(k, u, most) && (run != [] ==> Overlap(StepKeys(k, run[0]), run[1..], u, most))
  }

  lemma {:induction false} RunKeepsBound(k: Keys, run: KeyRun, u: UserId, most: nat)
    requires Possible(k, run) && Overlap(k, run, u, most) && Bounded(k, u, most)
    ensures Bounded(After(k, run), u, most)
    decreases |run|
  {
    if run != [] {
      StepKeepsBound(k, run[0], u, most);
      RunKeepsBound(StepKeys(k, run[0]), run[1..], u, most);
    }
  }

  const NO_KEYS := Keys(map[], [])

  /**
   With at most `most` overlapping calls a user ends up with at most `4 + most` keys,
   counting the inserts still to come; so the limit of five holds for callers in turn.
   */
  lemma KeysAreBounded(run: KeyRun, u: UserId, most: nat)
    requires most >= 1 && Possible(NO_KEYS, run) && Overlap(NO_KEYS, run, u, most)
    ensures |KeysOf(After(NO_KEYS, run), u)| + |CallsIn(After(NO_KEYS, run), u, {Inserting})| <= 4 + most
    ensures most == 1 ==> |KeysOf(After(NO_KEYS, run), u)| <= 5
  {
    assert CallsIn(NO_KEYS, u, {Inserting}) == {};
    RunKeepsBound(NO_KEYS, run, u, most);
  }

  // ---- The bound is met ------------------------------------------------------

  /** `k` can be reached with at most `most` overlapping calls. */
  ghost predicate Reached(k: Keys, u: UserId, most: nat) {
    exists run: KeyRun :: Possible(NO_KEYS, run) && Overlap(NO_KEYS, run, u, most) && After(NO_KEYS, run) == k
  }

  lemma {:induction false} RunExtends(k: Keys, run: KeyRun, step: KeyStep, u: UserId, most: nat)
    requires Possible(k, run) && Overlap(k, run, u, most) && CanStep(After(k, run), step)
    requires AtMostInFlight(StepKeys(After(k, run), step), u, most)
    ensures Possible(k, run + [step]) && Overlap(k, run + [step], u, most)
    ensures After(k, run + [step]) == StepKeys(After(k, run), step)
    decreases |run|
  {
    var longer := run + [step];
    if run == [] {
      assert longer[1..] == [];
    } else {
      assert longer[0] == run[0] && longer[1..] == run[1..] + [step];
      RunExtends(StepKeys(k, run[0]), run[1..], step, u, most);
    }
  }

  lemma StepReached(k: Keys, step: KeyStep, u: UserId, most: nat)
    requires Reached(k, u, most) && CanStep(k, step) && AtMostInFlight(StepKeys(k, step), u, most)
    ensures Reached(StepKeys(k, step), u, most)
  {
    var run: KeyRun :| Possible(NO_KEYS, run) && Overlap(NO_KEYS, run, u, most) && After(NO_KEYS, run) == k;
    RunExtends(NO_KEYS, run, step, u, most);
  }

  function Calls(u: UserId, phase: Phase, n: nat): seq<KeyCall> {
    seq(n, _ => KeyCall(u, phase))
  }

  /** The keys `0` to `n - 1`, all of user `u`. */
  function FirstKeys(u: UserId, n: nat): (owners: map<KeyId, UserId>)
    ensures |OwnedBy(owners, u)| == n && forall id | id in owners :: id < n
  {
    if n == 0 then map[]
    else
      var fewer := FirstKeys(u, n - 1);
      assert OwnedBy(fewer[n - 1 := u], u) == OwnedBy(fewer, u) + {n - 1};
      fewer[n - 1 := u]
  }

  /** `over` calls finished, then `ready` calls past their count, then `counting` calls. */
  function Lineup(u: UserId, n: nat, over: nat, ready: nat, counting: nat): Keys {
    Keys(FirstKeys(u, n), Calls(u, Over, over) + Calls(u, Inserting, ready) + Calls(u, Counting, counting))
  }

  /** The calls of `u` that are under way are those between `a` and `b`. */
  lemma {:induction false} IntervalCount(s: set<nat>, a: nat, b: nat)
    requires a <= b && forall i :: i in s <==> a <= i < b
    ensures |s| == b - a
    decreases b
  {
    if a < b {
      assert b - 1 in s;
      IntervalCount(s - {b - 1}, a, b - 1);
    }
  }

  lemma LineupCounts(u: UserId, n: nat, over: nat, ready: nat, counting: nat)
    ensures |KeysOf(Lineup(u, n, over, ready, counting), u)| == n
    ensures |CallsIn(Lineup(u, n, over, ready, counting), u, UNDERWAY)| == ready + counting
  {
    var k := Lineup(u, n, over, ready, counting);
    IntervalCount(CallsIn(k, u, UNDERWAY), over, over + ready + counting);
  }

  lemma StartOne(u: UserId, n: nat, over: nat, counting: nat, most: nat)
    requires Reached(Lineup(u, n, over, 0, counting), u, most) && counting < most
    ensures Reached(Lineup(u, n, over, 0, counting + 1), u, most)
  {
    var k := Lineup(u, n, over, 0, counting);
    assert StepKeys(k, StartCreate(u)) == Lineup(u, n, over, 0, counting + 1);
    LineupCounts(u, n, over, 0, counting + 1);
    StepReached(k, StartCreate(u), u, most);
  }

  lemma CountOne(u: UserId, n: nat, over: nat, ready: nat, counting: nat, most: nat)
    requires Reached(Lineup(u, n, over, ready, counting), u, most)
    requires n < MAX_KEYS_PER_USER && counting > 0 && ready + counting <= most
    ensures Reached(Lineup(u, n, over, ready + 1, counting - 1), u, most)
  {
    var k := Lineup(u, n, over, ready, counting);
    LineupCounts(u, n, over, ready, counting);
    assert StepKeys(k, Count(over + ready)) == Lineup(u, n, over, ready + 1, counting - 1);
    LineupCounts(u, n, over, ready + 1, counting - 1);
    StepReached(k, Count(over + ready), u, most);
  }

  lemma InsertOne(u: UserId, n: nat, over: nat, ready: nat, most: nat)
    requires Reached(Lineup(u, n, over, ready, 0), u, most) && 0 < ready <= most
    ensures Reached(Lineup(u, n + 1, over + 1, ready - 1, 0), u, most)
  {
    var k := Lineup(u, n, over, ready, 0);
    assert StepKeys(k, Insert(over, n)) == Lineup(u, n + 1, over + 1, ready - 1, 0);
    LineupCounts(u, n + 1, over + 1, ready - 1, 0);
    StepReached(k, Insert(over, n), u, most);
  }

  lemma {:induction false} StartAll(u: UserId, n: nat, over: nat, counting: nat, most: nat)
    requires Reached(Lineup(u, n, over, 0, 0), u, most) && counting <= most
    ensures Reached(Lineup(u, n, over, 0, counting), u, most)
  {
    if counting > 0 {
      StartAll(u, n, over, counting - 1, most);
      StartOne(u, n, over, counting - 1, most);
    }
  }

  lemma {:induction false} CountAll(u: UserId, n: nat, over: nat, ready: nat, counting: nat, most: nat)
    requires Reached(Lineup(u, n, over, ready, counting), u, most) && n < MAX_KEYS_PER_USER && ready + counting <= most
    ensures Reached(Lineup(u, n, over, ready + counting, 0), u, most)
    decreases counting
  {
    if counting > 0 {
      CountOne(u, n, over, ready, counting, most);
      CountAll(u, n, over, ready + 1, counting - 1, most);
    }
  }

  lemma {:induction false} InsertAll(u: UserId, n: nat, over: nat, ready: nat, most: nat)
    requires Reached(Lineup(u, n, over, ready, 0), u, most) && ready <= most
    ensures Reached(Lineup(u, n + ready, over + ready, 0, 0), u, most)
    decreases ready
  {
    if ready > 0 {
      InsertOne(u, n, over, ready, most);
      InsertAll(u, n + 1, over + 1, ready - 1, most);
    }
  }

  /** `together` calls that all count before any of them inserts. */
  lemma Burst(u: UserId, n: nat, together: nat, most: nat)
    requires Reached(Lineup(u, n, n, 0, 0), u, most) && together <= most && n < MAX_KEYS_PER_USER
    ensures Reached(Lineup(u, n + together, n + together, 0, 0), u, most)
  {
    StartAll(u, n, n, together, most);
    CountAll(u, n, n, 0, together, most);
    InsertAll(u, n, n, together, most);
  }

  lemma NothingReached(u: UserId, most: nat)
    ensures Reached(Lineup(u, 0, 0, 0, 0), u, most)
  {
    var none: KeyRun := [];
    LineupCounts(u, 0, 0, 0, 0);
    assert Lineup(u, 0, 0, 0, 0) == NO_KEYS;
    assert Possible(NO_KEYS, none) && Overlap(NO_KEYS, none, u, most) && After(NO_KEYS, none) == NO_KEYS;
  }

  /** For every number of overlapping calls some run does reach the bound. */
  lemma BoundIsMet(u: UserId, most: nat)
    requires most >= 1
    ensures exists k: Keys :: Reached(k, u, most) && |KeysOf(k, u)| == 4 + most
  {
    NothingReached(u, most);
    Burst(u, 0, 1, most);
    Burst(u, 1, 1, most);
    Burst(u, 2, 1, most);
    Burst(u, 3, 1, most);
    Burst(u, 4, most, most);
    LineupCounts(u, 4 + most, 4 + most, 0, 0);
    assert Reached(Lineup(u, 4 + most, 4 + most, 0, 0), u, most);
  }
}
