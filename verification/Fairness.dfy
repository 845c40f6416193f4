/** The whole table: any number of instances, and claims that take the oldest due row. */
module Fairness {
  import opened Base
  import opened Json
  import opened Instance
  import opened Protocol

  type Table<S> = map<nat, Sys<S>>

  datatype TableStep =
    | Advance(to: Time)
    | Create(id: nat, variables: Fields, t: Time)
    | On(id: nat, step: Step)

  /** `ORDER BY runnable_at LIMIT 1` among the rows the claim could take at `t`. */
  predicate Oldest<S>(table: Table<S>, id: nat, t: Time)
    requires id in table && Claimable(table[id].db.row, t)
  {
    forall other :: other in table && Claimable(table[other].db.row, t) ==>
      table[id].db.row.runnableAt.value <= table[other].db.row.runnableAt.value
  }

  predicate TableEnabled<S>(w: World<S>, table: Table<S>, step: TableStep)
  {
    match step
    case Advance(to) => forall id :: id in table ==> table[id].now <= to
    case Create(id, _, _) => id !in table
    case On(id, step) =>
      id in table && !step.Tick? && Enabled(w, table[id], step) && (step.Claim? ==> Oldest(table, id, step.t))
  }

  function TableApply<S>(w: World<S>, table: Table<S>, step: TableStep): Table<S>
    requires TableEnabled(w, table, step)
  {
    match step
    case Advance(to) => map id | id in table :: table[id].(now := to)
    case Create(id, variables, t) => table[id := Start(variables, t)]
    case On(id, step) => table[id := Apply(w, table[id], step)]
  }

  ghost predicate IsTableTrace<S>(w: World<S>, tables: seq<Table<S>>, steps: seq<TableStep>)
  {
    && |tables| == |steps| + 1
    && forall i {:trigger steps[i]} :: 0 <= i < |steps| ==>
         TableEnabled(w, tables[i], steps[i]) && tables[i + 1] == TableApply(w, tables[i], steps[i])
  }

  predicate NotBefore(at: Option<Time>, t: Time) { at.Some? ==> t <= at.value }

  /** The step's own time stamp, and any wake-up it saves, is no earlier than `t`. */
  predicate StampedFrom<S>(s: Sys<S>, step: Step, t: Time)
  {
    match step
    case SendSignal(_, at) => t <= at
    case AskCancel(_, at) => t <= at
    case AskRetry(at) => t <= at
    case Claim(at) => t <= at
    case Release(o, at) =>
      t <= at && (o in s.runs && s.runs[o].phase.Closed? && s.runs[o].phase.outcome.Parks? ==>
                    NotBefore(s.runs[o].phase.outcome.wakeAt, t))
    case _ => true
  }

  lemma WakeStep<S>(w: World<S>, s: Sys<S>, step: Step, t: Time)
    requires Enabled(w, s, step) && StampedFrom(s, step, t)
    requires NotBefore(s.db.row.runnableAt, t) || (step.Release? && Holds(s.db, step.owner))
    ensures NotBefore(Apply(w, s, step).db.row.runnableAt, t)
  {
  }

  /** Once released, a row wakes no earlier than the claim before it. */
  lemma {:induction false} WakesNoEarlier<S>(
      w: World<S>, tables: seq<Table<S>>, steps: seq<TableStep>, x: nat, t: Time, k: nat, j: nat)
    requires IsTableTrace(w, tables, steps) && k < j < |tables|
    requires steps[k].On? && steps[k].id == x && steps[k].step.Release? && Holds(tables[k][x].db, steps[k].step.owner)
    requires forall m {:trigger steps[m]} :: k <= m < j && steps[m].On? && steps[m].id == x ==>
               StampedFrom(tables[m][x], steps[m].step, t)
    ensures x in tables[j] && NotBefore(tables[j][x].db.row.runnableAt, t)
    decreases j
  {
    var step := steps[j - 1];
    if k < j - 1 {
      WakesNoEarlier(w, tables, steps, x, t, k, j - 1);
    }
    if step.On? && step.id == x {
      WakeStep(w, tables[j - 1][x], step.step, t);
    }
  }

  /**
    A row claimed at `i`, released at `k` and claimed again at `j` is never
    ahead of a row `y` that was due at the first claim and stayed due and unheld:
    at the second claim it can at most be due at the very same time.
  */
  lemma {:induction false} NoOvertaking<S>(
      w: World<S>, tables: seq<Table<S>>, steps: seq<TableStep>, x: nat, y: nat, due: Time, i: nat, k: nat, j: nat)
    requires IsTableTrace(w, tables, steps) && i < k < j < |steps|
    requires steps[i].On? && steps[i].id == x && steps[i].step.Claim?
    requires steps[k].On? && steps[k].id == x && steps[k].step.Release? && Holds(tables[k][x].db, steps[k].step.owner)
    requires steps[j].On? && steps[j].id == x && steps[j].step.Claim?
    requires forall m {:trigger steps[m]} :: i <= m <= j && steps[m].On? && steps[m].id == x ==>
               StampedFrom(tables[m][x], steps[m].step, steps[i].step.t)
    requires forall m {:trigger tables[m]} :: i <= m <= j ==>
               y in tables[m] && tables[m][y].db.row.runnableAt == Some(due) && tables[m][y].db.row.lockedUntil.None?
    requires due <= steps[i].step.t
    ensures tables[j][x].db.row.runnableAt == Some(due)
  {
    var t := steps[i].step.t;
    WakesNoEarlier(w, tables, steps, x, t, k, j);
    assert StampedFrom(tables[j][x], steps[j].step, t);
    assert y in tables[j] && Claimable(tables[j][y].db.row, steps[j].step.t);
    assert Oldest(tables[j], x, steps[j].step.t);
  }
}
