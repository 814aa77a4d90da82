/**
 The two cleanup sweeps, await by await.

 A sweep holds the rows it fetched when it started.  For each of them it first removes
 the storage object, whatever comes of that, then deletes the row; an error of the
 latter ends the sweep.
 */
module Sweeps {
  import opened Keys
  import opened Store
  import opened Environment

  datatype Target = Target(fileId: Id, file: FileRow)

  /** `cut`: the object of the first remaining target has been removed, its row not yet. */
  datatype Sweep = Sweep(guest: bool, remaining: seq<Target>, cut: bool)

  datatype SweepMove = SweepMove(effect: Effect, sweep: Sweep)

  /** `order` lists the members of `ids`, each once: a query result without `order by`. */
  predicate Lists(order: seq<Id>, ids: set<Id>) {
    && (forall i | 0 <= i < |order| :: order[i] in ids)
    && (forall id | id in ids :: id in order)
    && (forall i, j | 0 <= i < j < |order| :: order[i] != order[j])
  }

  predicate Distinct(targets: seq<Target>) {
    forall i, j | 0 <= i < j < |targets| :: targets[i].fileId != targets[j].fileId
  }

  function Snapshot(s: Store, order: seq<Id>): seq<Target>
    requires forall i | 0 <= i < |order| :: order[i] in s.files
  {
    seq(|order|, i requires 0 <= i < |order| => Target(order[i], s.files[order[i]]))
  }

  function DeleteRow(guest: bool, target: Target, at: int): Effect {
    if guest then HardDelete(target.file.userId, target.fileId)
    else SoftDelete(target.file.userId, target.fileId, at)
  }

  function Next(sweep: Sweep, env: Env): SweepMove {
    if sweep.remaining == [] then SweepMove(NoEffect, sweep)
    else if !sweep.cut then
      SweepMove(IfLanded(env, RemoveObject(sweep.remaining[0].file.storagePath)), sweep.(cut := true))
    else
      SweepMove(IfLanded(env, DeleteRow(sweep.guest, sweep.remaining[0], env.at)),
                sweep.(cut := false, remaining := if env.outcome == Done then sweep.remaining[1..] else []))
  }
}
