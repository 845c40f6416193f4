/**
  The database as the code uses it: one row, its inbox and its log, updated in
  place by the statements of each transaction, in the order they are issued.
  Every method is proved to do what the matching function of `Instance` says,
  and to keep the row coherent.
*/
module Store {
  import opened Base
  import opened Json
  import opened Engine
  import opened Instance
  import opened Invariant

  class InstanceStore<S> {
    var status: Status
    var state: Option<S>
    var variables: Fields
    var runnableAt: Option<Time>
    var lockedBy: Option<Owner>
    var lockedUntil: Option<Time>
    var cancelRequestedAt: Option<Time>
    var cancelReason: Option<string>
    var completedAt: Option<Time>
    var error: Option<string>
    var inbox: seq<Signal>
    var log: seq<Entry>

    ghost function Contents(): Db<S>
      reads this
    {
      Db(Row(status, state, variables, runnableAt, lockedBy, lockedUntil,
             cancelRequestedAt, cancelReason, completedAt, error),
         inbox, log)
    }

    /** Status, state, error, lock and wake-up agree. */
    ghost predicate Valid()
      reads this
    {
      RowOk(Contents())
    }

    constructor Start(variables: Fields, now: Time)
      ensures Valid() && Contents() == StartTx<S>(variables, now)
    {
      this.status := Pending;
      this.state := None;
      this.variables := variables;
      this.runnableAt := Some(now);
      this.lockedBy, this.lockedUntil := None, None;
      this.cancelRequestedAt, this.cancelReason := None, None;
      this.completedAt, this.error := None, None;
      this.inbox, this.log := [], [];
    }

    method TryClaim(owner: Owner, now: Time, lease: Time) returns (claimed: bool)
      modifies this
      ensures old(Valid()) ==> Valid()
      ensures claimed == old(Claimable(Contents().row, now))
      ensures claimed ==> Contents() == ClaimTx(old(Contents()), owner, now, lease)
      ensures !claimed ==> Contents() == old(Contents())
    {
      claimed := runnableAt.Some? && runnableAt.value <= now && (lockedUntil.None? || lockedUntil.value < now);
      if claimed {
        lockedBy := Some(owner);
        lockedUntil := Some(now + lease);
      }
    }

    method Heartbeat(owner: Owner, now: Time, lease: Time)
      modifies this
      ensures old(Valid()) ==> Valid()
      ensures Contents() == HeartbeatTx(old(Contents()), owner, now, lease)
    {
      if lockedBy == Some(owner) {
        lockedUntil := Some(now + lease);
      }
    }

    /** `deleteMany` by id, one row after the other. */
    method DeleteSignals(ids: seq<nat>)
      modifies this`inbox
      ensures inbox == Without(old(inbox), ids)
    {
      var kept: seq<Signal> := [];
      var i := 0;
      while i < |inbox|
        invariant 0 <= i <= |inbox| && inbox == old(inbox)
        invariant kept + Without(inbox[i..], ids) == Without(inbox, ids)
      {
        if inbox[i].id !in ids {
          kept := kept + [inbox[i]];
        }
        i := i + 1;
      }
      inbox := kept;
    }

    method Checkpoint(owner: Owner, newState: S, newVariables: Fields, consumed: seq<nat>) returns (held: bool)
      modifies this
      ensures old(Valid()) ==> Valid()
      ensures held == old(Holds(Contents(), owner))
      ensures match CheckpointTx(old(Contents()), owner, newState, newVariables, consumed)
              case None => Contents() == old(Contents())
              case Some(db) => Contents() == db
    {
      held := lockedBy == Some(owner);
      if !held {
        return;
      }
      status, state, variables := Running, Some(newState), newVariables;
      DeleteConsumed(consumed);
    }

    /** The row's own update: the outcome's columns, and the lock dropped. */
    method WriteOutcome(outcome: Outcome<S>, now: Time)
      modifies this
      ensures Contents() == old(Contents()).(row := Released(old(Contents()).row, outcome, now))
      ensures runnableAt == if outcome.Parks? then outcome.wakeAt else None
      ensures error == if outcome.Fails? then Some(outcome.error) else old(error)
    {
      lockedBy, lockedUntil := None, None;
      match outcome {
        case Completes(newVariables) =>
          status, completedAt, variables, state, runnableAt := Completed, Some(now), newVariables, None, None;
        case Fails(reason) =>
          status, completedAt, error, runnableAt := Failed, Some(now), Some(reason), None;
        case Cancels(_) =>
          status, completedAt, runnableAt := Canceled, Some(now), None;
        case Parks(newState, newVariables, wakeAt) =>
          status, state, variables, runnableAt := Running, Some(newState), newVariables, wakeAt;
      }
    }

    method DeleteConsumed(consumed: seq<nat>)
      modifies this`inbox
      ensures inbox == Without(old(inbox), consumed)
    {
      if |consumed| > 0 {
        DeleteSignals(consumed);
      } else {
        WithoutKeeps(inbox, consumed);
      }
    }

    method Release(owner: Owner, outcome: Outcome<S>, consumed: seq<nat>, now: Time) returns (held: bool)
      modifies this
      ensures old(Valid()) && (outcome.Cancels? ==> old(cancelRequestedAt).Some?) ==> Valid()
      ensures held == old(Holds(Contents(), owner))
      ensures match ReleaseTx(old(Contents()), owner, now, outcome, consumed)
              case None => Contents() == old(Contents())
              case Some(db) => Contents() == db
      ensures held && outcome.Parks? ==>
                runnableAt == if inbox != [] || cancelRequestedAt.Some? then Some(now) else outcome.wakeAt
    {
      held := lockedBy == Some(owner);
      if !held {
        return;
      }
      if old(Valid()) && (outcome.Cancels? ==> old(cancelRequestedAt).Some?) {
        ReleasedOk(old(Contents()), owner, now, outcome, consumed);
      }
      WriteOutcome(outcome, now);
      if outcome.Cancels? {
        log := log + [CancelEntry(outcome.reason)];
      }
      if outcome.Fails? {
        return;
      }
      if !outcome.Parks? {
        inbox := [];
        return;
      }
      if cancelRequestedAt.Some? {
        runnableAt := Some(now);
        return;
      }
      DeleteConsumed(consumed);
      if |inbox| > 0 {
        runnableAt := Some(now);
      }
    }

    method Signal(signal: Signal, now: Time) returns (answer: Result<(), ApiError>)
      modifies this
      ensures old(Valid()) ==> Valid()
      ensures match SignalTx(old(Contents()), signal, now)
              case Failure(e) => answer == Failure(e) && Contents() == old(Contents())
              case Success(db) => answer == Success(()) && Contents() == db
    {
      if !Active(status) {
        return Failure(NotActive(status));
      }
      if cancelRequestedAt.Some? {
        return Failure(BeingCanceled);
      }
      QueueSignal(signal, now);
      return Success(());
    }

    /** The transaction, which takes the checks before it for granted. */
    method QueueSignal(signal: Signal, now: Time)
      modifies this
      ensures Contents() == WriteSignal(old(Contents()), signal, now)
    {
      inbox := inbox + [signal];
      runnableAt := Some(now);
    }

    method Cancel(reason: Option<string>, now: Time) returns (answer: Result<(), ApiError>)
      modifies this
      ensures old(Valid()) ==> Valid()
      ensures match CancelTx(old(Contents()), reason, now)
              case Failure(e) => answer == Failure(e) && Contents() == old(Contents())
              case Success(db) => answer == Success(()) && Contents() == db
    {
      if !Active(status) {
        return Failure(NotActive(status));
      }
      if cancelRequestedAt.Some? {
        return Success(());
      }
      cancelRequestedAt := Some(now);
      cancelReason := reason;
      runnableAt := Some(now);
      return Success(());
    }

    method Retry(now: Time) returns (answer: Result<(), ApiError>)
      modifies this
      ensures old(Valid()) ==> Valid()
      ensures match RetryTx(old(Contents()), now)
              case Failure(e) => answer == Failure(e) && Contents() == old(Contents())
              case Success(db) => answer == Success(()) && Contents() == db
    {
      if status != Failed {
        return Failure(NotFailed(status));
      }
      PutBack(state, error, now);
      return Success(());
    }

    /** The transaction, given the state and error read before it. */
    method PutBack(readState: Option<S>, readError: Option<string>, now: Time)
      modifies this
      ensures Contents() == WriteRetry(old(Contents()), readState, readError, now)
    {
      if status == Failed {
        status := if readState.None? then Pending else Running;
        error, completedAt, runnableAt := None, None, Some(now);
      }
      log := log + [RetryEntry(readError)];
    }
  }
}
