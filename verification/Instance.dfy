/**
  One row of `process_instances` with its inbox and the part of its log that
  transactions write, and each transaction on them as one atomic step.
*/
module Instance {
  import opened Base
  import opened Json
  import opened Engine

  type Owner = nat

  datatype Status = Pending | Running | Completed | Failed | Canceled

  predicate Active(status: Status) { status == Pending || status == Running }

  datatype Row<S> = Row(
    status: Status,
    state: Option<S>,
    variables: Fields,
    runnableAt: Option<Time>,
    lockedBy: Option<Owner>,
    lockedUntil: Option<Time>,
    cancelRequestedAt: Option<Time>,
    cancelReason: Option<string>,
    completedAt: Option<Time>,
    error: Option<string>)

  datatype Entry = CancelEntry(reason: Option<string>) | RetryEntry(error: Option<string>)

  datatype Db<S> = Db(row: Row<S>, inbox: seq<Signal>, log: seq<Entry>)

  /** How a run ends. */
  datatype Outcome<S> =
    | Completes(variables: Fields)
    | Fails(error: string)
    | Cancels(reason: Option<string>)
    | Parks(state: S, variables: Fields, wakeAt: Option<Time>)

  datatype ApiError = NotActive(status: Status) | BeingCanceled | NotFailed(status: Status)

  function Ids(signals: seq<Signal>): (ids: seq<nat>)
    ensures |ids| == |signals|
    ensures forall i :: 0 <= i < |ids| ==> ids[i] == signals[i].id
  {
    seq(|signals|, i requires 0 <= i < |signals| => signals[i].id)
  }

  /** `deleteMany` on the inbox: what is left once the given ids are gone. */
  function Without(inbox: seq<Signal>, ids: seq<nat>): (rest: seq<Signal>)
  {
    if inbox == [] then []
    else (if inbox[0].id in ids then [] else [inbox[0]]) + Without(inbox[1..], ids)
  }

  predicate InIdOrder(signals: seq<Signal>)
  {
    forall i, j :: 0 <= i < j < |signals| ==> signals[i].id < signals[j].id
  }

  lemma {:induction false} WithoutKeeps(inbox: seq<Signal>, ids: seq<nat>)
    requires forall i :: 0 <= i < |inbox| ==> inbox[i].id !in ids
    ensures Without(inbox, ids) == inbox
  {
    if inbox != [] {
      WithoutKeeps(inbox[1..], ids);
    }
  }

  /** Deleting exactly the oldest signals of an inbox in id order leaves the others. */
  lemma {:induction false} WithoutPrefix(gone: seq<Signal>, kept: seq<Signal>, ids: seq<nat>)
    requires InIdOrder(gone + kept)
    requires forall i :: 0 <= i < |gone| ==> gone[i].id in ids
    requires forall i :: 0 <= i < |kept| ==> kept[i].id !in ids
    ensures Without(gone + kept, ids) == kept
  {
    if gone == [] {
      assert gone + kept == kept;
      WithoutKeeps(kept, ids);
    } else {
      var all := gone + kept;
      assert all[1..] == gone[1..] + kept;
      assert forall i, j :: 0 <= i < j < |all[1..]| ==> all[1..][i] == all[i + 1] && all[1..][j] == all[j + 1];
      WithoutPrefix(gone[1..], kept, ids);
    }
  }

  /** `start`: a pending row, due at once. */
  function StartTx<S>(variables: Fields, t: Time): Db<S>
  {
    Db(Row(Pending, None, variables, Some(t), None, None, None, None, None, None), [], [])
  }

  /** The claim statement's WHERE clause; note that it does not look at the status. */
  predicate Claimable<S>(row: Row<S>, t: Time)
  {
    && row.runnableAt.Some? && row.runnableAt.value <= t
    && (row.lockedUntil.None? || row.lockedUntil.value < t)
  }

  function ClaimTx<S>(db: Db<S>, owner: Owner, t: Time, lease: Time): Db<S>
    requires Claimable(db.row, t)
  {
    db.(row := db.row.(lockedBy := Some(owner), lockedUntil := Some(t + lease)))
  }

  predicate Holds<S>(db: Db<S>, owner: Owner) { db.row.lockedBy == Some(owner) }

  function HeartbeatTx<S>(db: Db<S>, owner: Owner, t: Time, lease: Time): Db<S>
  {
    if Holds(db, owner) then db.(row := db.row.(lockedUntil := Some(t + lease))) else db
  }

  /** None stands for `LeaseLost`: nothing is written. */
  function CheckpointTx<S>(db: Db<S>, owner: Owner, state: S, variables: Fields, consumed: seq<nat>): Option<Db<S>>
  {
    if !Holds(db, owner) then None
    else Some(db.(row := db.row.(status := Running, state := Some(state), variables := variables),
                  inbox := Without(db.inbox, consumed)))
  }

  /** The outcome's columns, and the lock dropped. */
  function Released<S>(row: Row<S>, outcome: Outcome<S>, t: Time): Row<S>
  {
    var unlocked := row.(lockedBy := None, lockedUntil := None);
    match outcome
    case Completes(variables) =>
      unlocked.(status := Completed, completedAt := Some(t), variables := variables, state := None, runnableAt := None)
    case Fails(error) => unlocked.(status := Failed, completedAt := Some(t), error := Some(error), runnableAt := None)
    case Cancels(_) => unlocked.(status := Canceled, completedAt := Some(t), runnableAt := None)
    case Parks(state, variables, wakeAt) =>
      unlocked.(status := Running, state := Some(state), variables := variables, runnableAt := wakeAt)
  }

  function ReleaseTx<S>(db: Db<S>, owner: Owner, t: Time, outcome: Outcome<S>, consumed: seq<nat>): Option<Db<S>>
  {
    if !Holds(db, owner) then None
    else
      var row := Released(db.row, outcome, t);
      Some(match outcome
           case Completes(_) => Db(row, [], db.log)
           case Fails(_) => Db(row, db.inbox, db.log)
           case Cancels(reason) => Db(row, [], db.log + [CancelEntry(reason)])
           case Parks(_, _, _) =>
             var canceling := row.cancelRequestedAt.Some?;
             var inbox := if canceling then db.inbox else Without(db.inbox, consumed);
             Db(if canceling || inbox != [] then row.(runnableAt := Some(t)) else row, inbox, db.log))
  }

  /** `signal`'s transaction alone, which does not look at the row. */
  function WriteSignal<S>(db: Db<S>, signal: Signal, t: Time): Db<S>
  {
    db.(row := db.row.(runnableAt := Some(t)), inbox := db.inbox + [signal])
  }

  /**
    `retry`'s transaction alone: the update asks for a failed row, the log entry
    does not, and both use what was read before.
  */
  function WriteRetry<S>(db: Db<S>, readState: Option<S>, readError: Option<string>, t: Time): Db<S>
  {
    var row :=
      if db.row.status != Failed then db.row
      else db.row.(status := if readState.None? then Pending else Running,
                   error := None, completedAt := None, runnableAt := Some(t));
    db.(row := row, log := db.log + [RetryEntry(readError)])
  }

  function SignalTx<S>(db: Db<S>, signal: Signal, t: Time): Result<Db<S>, ApiError>
  {
    if !Active(db.row.status) then Failure(NotActive(db.row.status))
    else if db.row.cancelRequestedAt.Some? then Failure(BeingCanceled)
    else Success(WriteSignal(db, signal, t))
  }

  function CancelTx<S>(db: Db<S>, reason: Option<string>, t: Time): Result<Db<S>, ApiError>
  {
    if !Active(db.row.status) then Failure(NotActive(db.row.status))
    else if db.row.cancelRequestedAt.Some? then Success(db)
    else Success(db.(row := db.row.(cancelRequestedAt := Some(t), cancelReason := reason, runnableAt := Some(t))))
  }

  function RetryTx<S>(db: Db<S>, t: Time): Result<Db<S>, ApiError>
  {
    if db.row.status != Failed then Failure(NotFailed(db.row.status))
    else Success(WriteRetry(db, db.row.state, db.row.error, t))
  }
}
