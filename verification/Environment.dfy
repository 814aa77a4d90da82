/**
 What a process cannot decide itself: the clock, the random ids, the way a call to
 the database, the storage or Redis ends, and the results of library code.
 */
module Environment {
  import opened Keys
  import opened Store

  /**
   How an awaited call ends.  `Unacknowledged`: its effect took place but the caller
   sees an error.  `Refused`: no effect, and the caller sees an error.
   */
  datatype Outcome = Done | Unacknowledged | Refused {
    predicate Landed() {
      !Refused?
    }
  }

  /** The three calls joined by `Promise.all` when progress is reported. */
  datatype Part = BullProgress | RowProgress | PublishProgress

  /**
   One reading of the environment.  `newId` and `uuid` are new random ids, `part` says
   which joined call ends next, `size` is a byte count and `text` a string computed by
   library code (a file extension or the stem of a file name).
   */
  datatype Env = Env(
    at: int,
    newId: Id,
    uuid: Id,
    outcome: Outcome,
    error: string,
    part: Part,
    size: nat,
    text: string)

  /** Every call succeeds. */
  const WILLING := Env(0, "", "", Done, "", BullProgress, 0, "")

  /** No call has an effect, and none succeeds. */
  const REFUSING := WILLING.(outcome := Refused)

  /** The effect `e` of a call, given how the call ended. */
  function IfLanded(env: Env, e: Effect): Effect {
    if env.outcome.Landed() then e else NoEffect
  }
}
