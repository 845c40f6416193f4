/**
  One instance shared by any number of workers and API clients, as a state
  machine. Each step is one database transaction or one step of one run's
  memory, and the steps of different runs interleave freely; a run may crash,
  or outlive its lease, between any two of them.

  Every claim gets an owner number of its own (`Workers` has leases by worker
  id, and says when that comes to the same). Time stamps are read from the
  clock before the step commits, so a step may carry any `t` up to `now`.
*/
module Protocol {
  import opened Base
  import opened Json
  import opened Engine
  import opened Instance

  /** A checkpoint's snapshot, waiting to be written; `hist` is the history behind `state`. */
  datatype Snapshot<S> = Snapshot(state: S, variables: Fields, consumed: seq<nat>, hist: History)

  datatype Phase<S> =
    | Claimed
    | Stopping(reason: Option<string>)
    | Opened
    | Live
    | Closed(outcome: Outcome<S>)

  /**
    A run in some worker's memory. `hist`, `savedAtClaim` and `restarted` are
    history variables: what the engine has been through, what was saved when
    the row was claimed, and whether the row read was already completed.
  */
  datatype Run<S> = Run(
    phase: Phase<S>,
    base: Option<S>,
    variables: Fields,
    engine: Option<S>,
    pending: seq<Signal>,
    consumed: seq<nat>,
    saving: seq<Snapshot<S>>,
    finished: Option<Outcome<S>>,
    inflight: set<Call>,
    hist: History,
    savedAtClaim: History,
    restarted: bool)

  /**
    History variables: `origin` (the variables `start` got), `saved` (the
    history behind the row's state), `accepted` (every signal ever accepted),
    `renewedAt` (the holder's last renewal), `late` (releases other than a
    cancel since a cancel was requested).
  */
  datatype Sys<S> = Sys(
    now: Time,
    db: Db<S>,
    runs: map<Owner, Run<S>>,
    claims: nat,
    nextSignal: nat,
    origin: Fields,
    saved: History,
    accepted: seq<Signal>,
    renewedAt: Time,
    late: nat)

  datatype World<!S> = World(engine: Model<S>, lease: Time)

  datatype Step =
    | Tick(to: Time)
    // The API side.
    | SendSignal(signal: Signal, t: Time)
    | AskCancel(reason: Option<string>, t: Time)
    | AskRetry(t: Time)
    // A worker's database steps.
    | Claim(t: Time)
    | Heartbeat(owner: Owner, t: Time)
    | ReadRow(owner: Owner)
    | ReadInbox(owner: Owner, t: Time)
    | WriteSnapshot(owner: Owner)
    | Release(owner: Owner, t: Time)
    // A run's steps in memory.
    | Deliver(owner: Owner)
    | Issue(owner: Owner, call: Call)
    | Feed(owner: Owner, input: Input)
    | TakeSnapshot(owner: Owner)
    | End(owner: Owner)
    | Break(owner: Owner, error: string)
    | Close(owner: Owner, wakeAt: Option<Time>)
    | Abort(owner: Owner, error: string)
    | Crash(owner: Owner)

  function Start<S>(variables: Fields, t: Time): Sys<S>
  {
    Sys(t, StartTx(variables, t), map[], 0, 0, variables, [], [], 0, 0)
  }

  // ---------------------------------------------------------------- a run's own steps

  function FreshRun<S>(saved: History): Run<S>
  {
    Run(Claimed, None, map[], None, [], [], [], None, {}, [], saved, false)
  }

  /** The row as read: stop when a cancel is pending, else get ready to run. */
  function OpenRun<S>(run: Run<S>, row: Row<S>, saved: History): Run<S>
  {
    if row.cancelRequestedAt.Some? then run.(phase := Stopping(row.cancelReason))
    else run.(phase := Opened, base := row.state, variables := row.variables,
              hist := if row.status == Completed then [] else saved,
              restarted := row.status == Completed)
  }

  /** The inbox as read; the engine begins, or resumes from the row's state. */
  function StartEngine<S>(w: World<S>, run: Run<S>, inbox: seq<Signal>, t: Time): Run<S>
  {
    var r := run.(phase := Live, pending := inbox);
    match run.base
    case None => r.(engine := Some(w.engine.begin(run.variables)), hist := [Begin(run.variables)])
    case Some(state) => r.(engine := Some(w.engine.step(state, Resumed(t))), hist := run.hist + [Resumed(t)])
  }

  function FeedRun<S>(w: World<S>, run: Run<S>, input: Input): Run<S>
    requires run.engine.Some?
  {
    run.(engine := Some(w.engine.step(run.engine.value, input)), hist := run.hist + [input])
  }

  /** The next queued signal goes to the engine and counts as consumed, waiting element or not. */
  function DeliverNext<S>(w: World<S>, run: Run<S>): Run<S>
    requires run.engine.Some? && run.pending != []
  {
    FeedRun(w, run, Applied(run.pending[0])).(
      pending := run.pending[1..], consumed := run.consumed + [run.pending[0].id])
  }

  /** A checkpoint takes its snapshot, and with it the signals consumed so far. */
  function QueueSnapshot<S>(w: World<S>, run: Run<S>): Run<S>
    requires run.engine.Some?
  {
    var state := run.engine.value;
    run.(saving := run.saving + [Snapshot(state, w.engine.vars(state), run.consumed, run.hist)], consumed := [])
  }

  function CloseRun<S>(w: World<S>, run: Run<S>, wakeAt: Option<Time>): Run<S>
    requires run.engine.Some?
  {
    var state := run.engine.value;
    run.(phase := Closed(if run.finished.Some? then run.finished.value else Parks(state, w.engine.vars(state), wakeAt)))
  }

  // ---------------------------------------------------------------- steps

  function Actor(step: Step): Option<Owner>
  {
    match step
    case Tick(_) => None
    case SendSignal(_, _) => None
    case AskCancel(_, _) => None
    case AskRetry(_) => None
    case Claim(_) => None
    case Heartbeat(o, _) => Some(o)
    case ReadRow(o) => Some(o)
    case ReadInbox(o, _) => Some(o)
    case WriteSnapshot(o) => Some(o)
    case Release(o, _) => Some(o)
    case Deliver(o) => Some(o)
    case Issue(o, _) => Some(o)
    case Feed(o, _) => Some(o)
    case TakeSnapshot(o) => Some(o)
    case End(o) => Some(o)
    case Break(o, _) => Some(o)
    case Close(o, _) => Some(o)
    case Abort(o, _) => Some(o)
    case Crash(o) => Some(o)
  }

  /** The engine runs on, unless it has already ended. */
  predicate EngineRunning<S>(run: Run<S>)
  {
    run.phase == Live && run.engine.Some? && !(run.finished.Some? && run.finished.value.Completes?)
  }

  /** Nothing has decided the run's outcome yet. */
  predicate Undecided<S>(run: Run<S>)
  {
    run.phase == Live && run.engine.Some? && run.finished.None?
  }

  predicate Enabled<S>(w: World<S>, s: Sys<S>, step: Step)
  {
    match step
    case Tick(to) => s.now <= to
    case SendSignal(signal, t) => t <= s.now && s.nextSignal <= signal.id
    case AskCancel(_, t) => t <= s.now
    case AskRetry(t) => t <= s.now
    case Claim(t) => t <= s.now && Claimable(s.db.row, t)
    case Heartbeat(o, t) => o in s.runs && t <= s.now
    case ReadRow(o) => o in s.runs && s.runs[o].phase == Claimed
    case ReadInbox(o, t) => o in s.runs && s.runs[o].phase == Opened && t <= s.now
    case WriteSnapshot(o) => o in s.runs && s.runs[o].saving != []
    case Release(o, t) =>
      o in s.runs && t <= s.now && (s.runs[o].phase.Stopping? || (s.runs[o].phase.Closed? && s.runs[o].saving == []))
    case Deliver(o) => o in s.runs && Undecided(s.runs[o]) && s.runs[o].pending != []
    case Issue(o, call) =>
      o in s.runs && EngineRunning(s.runs[o]) && call in w.engine.wants(s.runs[o].engine.value) &&
        call !in s.runs[o].inflight
    case Feed(o, input) =>
      o in s.runs && EngineRunning(s.runs[o]) && (input.Moved? || (input.Answered? && input.call in s.runs[o].inflight))
    case TakeSnapshot(o) => o in s.runs && Undecided(s.runs[o])
    case End(o) => o in s.runs && Undecided(s.runs[o])
    case Break(o, _) => o in s.runs && Undecided(s.runs[o])
    case Close(o, _) => o in s.runs && s.runs[o].phase == Live && s.runs[o].engine.Some?
    case Abort(o, _) => o in s.runs && s.runs[o].phase == Live
    case Crash(o) => o in s.runs
  }

  function SetRun<S>(s: Sys<S>, o: Owner, run: Run<S>): Sys<S>
  {
    s.(runs := s.runs[o := run])
  }

  function Apply<S>(w: World<S>, s: Sys<S>, step: Step): Sys<S>
    requires Enabled(w, s, step)
  {
    match step
    case Tick(to) => s.(now := to)
    case SendSignal(signal, t) => ApplySignal(s, signal, t)
    case AskCancel(reason, t) =>
      (match CancelTx(s.db, reason, t)
       case Failure(_) => s
       case Success(db) => s.(db := db))
    case AskRetry(t) =>
      (match RetryTx(s.db, t)
       case Failure(_) => s
       case Success(db) => s.(db := db))
    case Claim(t) => ApplyClaim(w, s, s.claims, t)
    case Heartbeat(o, t) => ApplyHeartbeat(w, s, o, t)
    case ReadRow(o) => SetRun(s, o, OpenRun(s.runs[o], s.db.row, s.saved))
    case ReadInbox(o, t) => SetRun(s, o, StartEngine(w, s.runs[o], s.db.inbox, t))
    case WriteSnapshot(o) => ApplyWrite(s, o, o)
    case Release(o, t) => ApplyRelease(s, o, o, t)
    case Deliver(o) => SetRun(s, o, DeliverNext(w, s.runs[o]))
    case Issue(o, call) => SetRun(s, o, s.runs[o].(inflight := s.runs[o].inflight + {call}))
    case Feed(o, input) => SetRun(s, o, FeedRun(w, s.runs[o], input))
    case TakeSnapshot(o) => SetRun(s, o, QueueSnapshot(w, s.runs[o]))
    case End(o) =>
      SetRun(s, o, s.runs[o].(finished := Some(Completes(w.engine.vars(s.runs[o].engine.value)))))
    case Break(o, error) => SetRun(s, o, s.runs[o].(finished := Some(Fails(error))))
    case Close(o, wakeAt) => SetRun(s, o, CloseRun(w, s.runs[o], wakeAt))
    case Abort(o, error) => SetRun(s, o, s.runs[o].(phase := Closed(Fails(error))))
    case Crash(o) => s.(runs := s.runs - {o})
  }

  function ApplySignal<S>(s: Sys<S>, signal: Signal, t: Time): Sys<S>
  {
    match SignalTx(s.db, signal, t)
    case Failure(_) => s
    case Success(db) => s.(db := db, accepted := s.accepted + [signal], nextSignal := signal.id + 1)
  }

  // The four statements that name the lock's holder; `lock` is what a run writes there.

  function ApplyClaim<S>(w: World<S>, s: Sys<S>, lock: Owner, t: Time): Sys<S>
    requires Claimable(s.db.row, t)
  {
    s.(db := ClaimTx(s.db, lock, t, w.lease), runs := s.runs[s.claims := FreshRun(s.saved)],
       claims := s.claims + 1, renewedAt := t)
  }

  function ApplyHeartbeat<S>(w: World<S>, s: Sys<S>, lock: Owner, t: Time): Sys<S>
  {
    s.(db := HeartbeatTx(s.db, lock, t, w.lease), renewedAt := if Holds(s.db, lock) then t else s.renewedAt)
  }

  /** The oldest queued snapshot goes to the row; a lost lease drops it and fails the run. */
  function ApplyWrite<S>(s: Sys<S>, o: Owner, lock: Owner): Sys<S>
    requires o in s.runs && s.runs[o].saving != []
  {
    var run := s.runs[o];
    var snapshot := run.saving[0];
    var left := run.(saving := run.saving[1..]);
    match CheckpointTx(s.db, lock, snapshot.state, snapshot.variables, snapshot.consumed)
    case None =>
      SetRun(s, o, left.(finished := if run.finished.None? then Some(Fails("lease taken over")) else run.finished))
    case Some(db) => SetRun(s, o, left).(db := db, saved := snapshot.hist)
  }

  function OutcomeOf<S>(run: Run<S>): Outcome<S>
    requires run.phase.Stopping? || run.phase.Closed?
  {
    if run.phase.Stopping? then Cancels(run.phase.reason) else run.phase.outcome
  }

  /** What the row stands for once an outcome is saved. */
  function SavedBy<S>(saved: History, run: Run<S>): History
    requires run.phase.Stopping? || run.phase.Closed?
  {
    if OutcomeOf(run).Completes? || OutcomeOf(run).Parks? then run.hist else saved
  }

  function ApplyRelease<S>(s: Sys<S>, o: Owner, lock: Owner, t: Time): Sys<S>
    requires o in s.runs && (s.runs[o].phase.Stopping? || s.runs[o].phase.Closed?)
  {
    var run := s.runs[o];
    var gone := s.(runs := s.runs - {o});
    match ReleaseTx(s.db, lock, t, OutcomeOf(run), if run.phase.Stopping? then [] else run.consumed)
    case None => gone
    case Some(db) =>
      gone.(db := db, saved := SavedBy(s.saved, run),
            late := if s.db.row.cancelRequestedAt.Some? && !OutcomeOf(run).Cancels? then s.late + 1 else s.late)
  }

  // ---------------------------------------------------------------- whole runs of the system

  /** The i-th step can be taken, and leads to the next state. */
  ghost predicate Taken<S>(w: World<S>, states: seq<Sys<S>>, steps: seq<Step>, i: nat)
    requires i < |steps| < |states|
  {
    Enabled(w, states[i], steps[i]) && states[i + 1] == Apply(w, states[i], steps[i])
  }

  /** `states` is what one instance goes through as `steps` happen. */
  ghost predicate IsTrace<S>(w: World<S>, states: seq<Sys<S>>, steps: seq<Step>)
  {
    && |states| == |steps| + 1
    && (exists variables, t :: states[0] == Start<S>(variables, t))
    && forall i {:trigger Taken(w, states, steps, i)} :: 0 <= i < |steps| ==> Taken(w, states, steps, i)
  }
}
