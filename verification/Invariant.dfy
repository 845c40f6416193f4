/** What every step of the protocol keeps, whatever the interleaving. */
module Invariant {
  import opened Base
  import opened Json
  import opened Engine
  import opened Instance
  import opened Protocol

  // ---------------------------------------------------------------- the row alone

  predicate RowOk<S>(db: Db<S>)
  {
    var row := db.row;
    && (row.lockedBy.Some? <==> row.lockedUntil.Some?)
    && (row.status == Pending ==> row.state.None?)
    && (row.status == Running ==> row.state.Some?)
    && (Active(row.status) ==> row.error.None? && row.completedAt.None?)
    && (!Active(row.status) ==> row.lockedBy.None? && row.runnableAt.None? && row.completedAt.Some?)
    && (row.status == Failed <==> row.error.Some?)
    && (row.status == Completed ==> row.state.None?)
    && (row.status == Completed || row.status == Canceled ==> db.inbox == [])
    && (row.status == Canceled ==> row.cancelRequestedAt.Some?)
  }

  /** Anything left to do has a wake-up time, and it has come. */
  predicate DueOk<S>(s: Sys<S>)
  {
    var row := s.db.row;
    && Active(row.status)
    && (s.db.inbox != [] || row.cancelRequestedAt.Some? || row.lockedBy.Some? || row.status == Pending) ==>
      row.runnableAt.Some? && row.runnableAt.value <= s.now
  }

  // ---------------------------------------------------------------- saved state against history

  function VarsAfter<S>(w: World<S>, origin: Fields, h: History): Fields
  {
    if h == [] then origin else w.engine.vars(Replay(w.engine, h))
  }

  function StateAfter<S>(w: World<S>, h: History): Option<S>
  {
    if h == [] then None else Some(Replay(w.engine, h))
  }

  predicate Rooted(h: History, origin: Fields)
  {
    h != [] ==> h[0] == Begin(origin)
  }

  ghost predicate SavedOk<S>(w: World<S>, s: Sys<S>)
  {
    && Rooted(s.saved, s.origin)
    && s.db.row.variables == VarsAfter(w, s.origin, s.saved)
    && s.db.row.state == (if s.db.row.status == Completed then None else StateAfter(w, s.saved))
  }

  // ---------------------------------------------------------------- every run, holder or not

  ghost predicate OutcomeOk<S>(w: World<S>, outcome: Outcome<S>, h: History)
    requires h != []
  {
    match outcome
    case Completes(v) => v == w.engine.vars(Replay(w.engine, h))
    case Fails(_) => true
    case Cancels(_) => false
    case Parks(state, v, _) => state == Replay(w.engine, h) && v == w.engine.vars(state)
  }

  predicate Idle<S>(run: Run<S>)
  {
    run.saving == [] && run.consumed == [] && run.pending == [] && run.finished.None? && run.inflight == {}
  }

  ghost predicate RunOk<S>(w: World<S>, s: Sys<S>, run: Run<S>)
  {
    && run.savedAtClaim <= s.saved
    && match run.phase
       case Claimed => Idle(run) && !run.restarted
       case Stopping(reason) => Idle(run) && s.db.row.cancelRequestedAt.Some? && reason == s.db.row.cancelReason
       case Opened =>
         && Idle(run)
         && run.base == StateAfter(w, run.hist) && (run.hist != [] ==> run.hist[0].Begin?)
         && (run.restarted || (run.savedAtClaim <= run.hist && run.variables == VarsAfter(w, s.origin, run.hist)))
       case Live => Driven(w, run)
       case Closed(outcome) => Driven(w, run) && OutcomeOk(w, outcome, run.hist)
  }

  /** A started run's engine is the replay of its history, and so is any outcome already decided. */
  ghost predicate Driven<S>(w: World<S>, run: Run<S>)
  {
    && run.hist != [] && run.hist[0].Begin?
    && run.engine == Some(Replay(w.engine, run.hist))
    && (run.restarted || run.savedAtClaim <= run.hist)
    && (run.finished.Some? ==>
          (run.finished.value.Completes? || run.finished.value.Fails?) && OutcomeOk(w, run.finished.value, run.hist))
  }

  ghost predicate RunsOk<S>(w: World<S>, s: Sys<S>)
  {
    && (s.db.row.lockedBy.Some? ==> s.db.row.lockedBy.value < s.claims)
    && forall o :: o in s.runs ==> o < s.claims && RunOk(w, s, s.runs[o])
  }

  // ---------------------------------------------------------------- the run that holds the row

  /** Queued snapshots lead from what is saved to where the run is, each taking just the signals it adds. */
  ghost predicate QueueOk<S>(w: World<S>, from: History, saving: seq<Snapshot<S>>, to: History, consumed: seq<nat>)
    decreases |saving|
  {
    if saving == [] then from <= to && consumed == Ids(Delivered(to[|from|..]))
    else
      var first := saving[0];
      && from <= first.hist && first.hist != []
      && first.consumed == Ids(Delivered(first.hist[|from|..]))
      && first.state == Replay(w.engine, first.hist)
      && first.variables == w.engine.vars(first.state)
      && QueueOk(w, first.hist, saving[1..], to, consumed)
  }

  ghost predicate HolderRunOk<S>(w: World<S>, s: Sys<S>, run: Run<S>)
  {
    match run.phase
    case Claimed => true
    case Stopping(_) => true
    case Opened => !run.restarted && run.hist == s.saved && run.variables == VarsAfter(w, s.origin, s.saved)
    case Live => !run.restarted && Rooted(run.hist, s.origin) && QueueOk(w, s.saved, run.saving, run.hist, run.consumed)
    case Closed(_) =>
      !run.restarted && Rooted(run.hist, s.origin) && QueueOk(w, s.saved, run.saving, run.hist, run.consumed)
  }

  ghost predicate HolderOk<S>(w: World<S>, s: Sys<S>)
  {
    forall o :: o in s.runs && Holds(s.db, o) ==> HolderRunOk(w, s, s.runs[o])
  }

  // ---------------------------------------------------------------- signals

  predicate InboxOk<S>(s: Sys<S>)
  {
    && InIdOrder(s.db.inbox)
    && forall x :: x in s.db.inbox ==> x.id < s.nextSignal
  }

  predicate Started<S>(run: Run<S>) { run.phase.Live? || run.phase.Closed? }

  /** The holder has delivered, and is about to deliver, exactly the oldest signals of the inbox. */
  predicate InboxAhead<S>(s: Sys<S>, run: Run<S>)
  {
    Started(run) ==> s.saved <= run.hist && Delivered(run.hist[|s.saved|..]) + run.pending <= s.db.inbox
  }

  /** Not finished for good, and no run has been released since a cancel was requested. */
  predicate Open<S>(s: Sys<S>)
  {
    s.db.row.status != Completed && s.db.row.status != Canceled && s.late == 0
  }

  ghost predicate SignalsOk<S>(s: Sys<S>)
  {
    Open(s) ==>
      && s.accepted == Delivered(s.saved) + s.db.inbox
      && forall o :: o in s.runs && Holds(s.db, o) ==> InboxAhead(s, s.runs[o])
  }

  // ---------------------------------------------------------------- cancel

  function CancelEntries(log: seq<Entry>): seq<Entry>
  {
    if log == [] then []
    else CancelEntries(log[..|log| - 1]) + (if log[|log| - 1].CancelEntry? then [log[|log| - 1]] else [])
  }

  /** A run that read the row before the cancel and may still save something. */
  predicate InFlight<S>(s: Sys<S>)
  {
    && s.db.row.lockedBy.Some? && s.db.row.lockedBy.value in s.runs
    && (s.runs[s.db.row.lockedBy.value].phase.Opened? || Started(s.runs[s.db.row.lockedBy.value]))
  }

  ghost predicate CancelOk<S>(s: Sys<S>)
  {
    var row := s.db.row;
    && CancelEntries(s.db.log) == (if row.status == Canceled then [CancelEntry(row.cancelReason)] else [])
    && (row.cancelRequestedAt.None? ==> s.late == 0)
    && s.late + (if row.cancelRequestedAt.Some? && InFlight(s) then 1 else 0) <= 1
  }

  ghost predicate Inv<S>(w: World<S>, s: Sys<S>)
  {
    RowOk(s.db) && DueOk(s) && SavedOk(w, s) && RunsOk(w, s) && HolderOk(w, s) && InboxOk(s) && SignalsOk(s) &&
      CancelOk(s)
  }

  lemma StartOk<S>(w: World<S>, variables: Fields, t: Time)
    ensures Inv(w, Start<S>(variables, t))
  {
    var s := Start<S>(variables, t);
    assert RowOk(s.db) && DueOk(s) && InboxOk(s);
    assert SavedOk(w, s);
    assert CancelOk(s);
    assert SignalsOk(s);
  }

  // ---------------------------------------------------------------- the snapshot queue

  lemma {:induction false} QueueSpans<S>(
      w: World<S>, from: History, saving: seq<Snapshot<S>>, to: History, consumed: seq<nat>)
    requires QueueOk(w, from, saving, to, consumed)
    ensures from <= to
    decreases |saving|
  {
    if saving != [] {
      QueueSpans(w, saving[0].hist, saving[1..], to, consumed);
    }
  }

  /** One more input at the end of the run: a signal counts as consumed, anything else does not. */
  lemma {:induction false} QueueFeed<S>(
      w: World<S>, from: History, saving: seq<Snapshot<S>>, to: History, consumed: seq<nat>, x: Input)
    requires QueueOk(w, from, saving, to, consumed)
    ensures QueueOk(w, from, saving, to + [x], consumed + (if x.Applied? then [x.signal.id] else []))
    decreases |saving|
  {
    if saving == [] {
      var since := to[|from|..];
      assert (to + [x])[|from|..] == since + [x];
      DeliveredStep(since, x);
      assert Ids(Delivered(since + [x])) == Ids(Delivered(since)) + (if x.Applied? then [x.signal.id] else []);
    } else {
      QueueFeed(w, saving[0].hist, saving[1..], to, consumed, x);
    }
  }

  lemma {:induction false} QueueAppend<S>(
      w: World<S>, from: History, saving: seq<Snapshot<S>>, to: History, consumed: seq<nat>, last: Snapshot<S>)
    requires QueueOk(w, from, saving, to, consumed)
    requires to != [] && last == Snapshot(Replay(w.engine, to), w.engine.vars(Replay(w.engine, to)), consumed, to)
    ensures QueueOk(w, from, saving + [last], to, [])
    decreases |saving|
  {
    if saving == [] {
      assert to[|to|..] == [];
      assert (saving + [last])[1..] == [];
    } else {
      QueueAppend(w, saving[0].hist, saving[1..], to, consumed, last);
      assert (saving + [last])[1..] == saving[1..] + [last];
    }
  }

  // ---------------------------------------------------------------- what kinds of step there are

  /** Steps that touch nothing but the acting run's memory. */
  predicate InMemory(step: Step)
  {
    match step
    case ReadRow(_) => true
    case ReadInbox(_, _) => true
    case Deliver(_) => true
    case Issue(_, _) => true
    case Feed(_, _) => true
    case TakeSnapshot(_) => true
    case End(_) => true
    case Break(_, _) => true
    case Close(_, _) => true
    case Abort(_, _) => true
    case Crash(_) => true
    case _ => false
  }

  /** Steps that save progress. */
  predicate Saves(step: Step) { step.WriteSnapshot? || step.Release? }

  lemma MemoryFrame<S>(w: World<S>, s: Sys<S>, step: Step)
    requires Enabled(w, s, step) && InMemory(step)
    ensures Apply(w, s, step) == s.(runs := Apply(w, s, step).runs)
  {
  }

  /** Every other run stays as it is; only a claim adds one, and nobody else removes one. */
  lemma OtherRuns<S>(w: World<S>, s: Sys<S>, step: Step, o: Owner)
    requires Enabled(w, s, step) && Actor(step) != Some(o)
    requires !(step.Claim? && o == s.claims)
    ensures o in Apply(w, s, step).runs <==> o in s.runs
    ensures o in s.runs ==> Apply(w, s, step).runs[o] == s.runs[o]
  {
    if InMemory(step) {
      OthersInMemory(w, s, step, o);
    }
  }

  lemma OthersInMemory<S>(w: World<S>, s: Sys<S>, step: Step, o: Owner)
    requires Enabled(w, s, step) && Actor(step) != Some(o) && InMemory(step)
    ensures o in Apply(w, s, step).runs <==> o in s.runs
    ensures o in s.runs ==> Apply(w, s, step).runs[o] == s.runs[o]
  {
  }

  /** A cancel request and its first reason stay for good. */
  lemma CancelKept<S>(w: World<S>, s: Sys<S>, step: Step)
    requires Enabled(w, s, step) && s.db.row.cancelRequestedAt.Some?
    ensures Apply(w, s, step).db.row.cancelRequestedAt == s.db.row.cancelRequestedAt
    ensures Apply(w, s, step).db.row.cancelReason == s.db.row.cancelReason
  {
  }

  lemma OriginKept<S>(w: World<S>, s: Sys<S>, step: Step)
    requires Enabled(w, s, step)
    ensures Apply(w, s, step).origin == s.origin && s.claims <= Apply(w, s, step).claims
  {
  }

  // ---------------------------------------------------------------- each step keeps each part

  lemma RowStep<S>(w: World<S>, s: Sys<S>, step: Step)
    requires RowOk(s.db) && RunsOk(w, s) && Enabled(w, s, step)
    ensures RowOk(Apply(w, s, step).db)
  {
    if InMemory(step) {
      MemoryFrame(w, s, step);
    } else if step.Release? {
      assert RunOk(w, s, s.runs[step.owner]);
      RowReleased(s, step.owner, step.t);
    } else {
      RowFrame(w, s, step);
    }
  }

  lemma RowFrame<S>(w: World<S>, s: Sys<S>, step: Step)
    requires RowOk(s.db) && Enabled(w, s, step) && !InMemory(step) && !step.Release?
    ensures RowOk(Apply(w, s, step).db)
  {
  }

  lemma RowReleased<S>(s: Sys<S>, o: Owner, t: Time)
    requires RowOk(s.db) && o in s.runs && (s.runs[o].phase.Stopping? || s.runs[o].phase.Closed?)
    requires OutcomeOf(s.runs[o]).Cancels? ==> s.db.row.cancelRequestedAt.Some?
    ensures RowOk(ApplyRelease(s, o, o, t).db)
  {
    var run := s.runs[o];
    ReleasedOk(s.db, o, t, OutcomeOf(run), if run.phase.Stopping? then [] else run.consumed);
  }

  lemma ReleasedOk<S>(db: Db<S>, o: Owner, t: Time, outcome: Outcome<S>, consumed: seq<nat>)
    requires RowOk(db) && (outcome.Cancels? ==> db.row.cancelRequestedAt.Some?)
    ensures match ReleaseTx(db, o, t, outcome, consumed) case None => true case Some(after) => RowOk(after)
  {
  }

  lemma DueStep<S>(w: World<S>, s: Sys<S>, step: Step)
    requires RowOk(s.db) && DueOk(s) && Enabled(w, s, step)
    ensures DueOk(Apply(w, s, step))
  {
    if InMemory(step) {
      MemoryFrame(w, s, step);
    } else if step.Release? {
      DueReleased(w, s, step.owner, step.t);
    } else {
      DueFrame(w, s, step);
    }
  }

  lemma DueReleased<S>(w: World<S>, s: Sys<S>, o: Owner, t: Time)
    requires RowOk(s.db) && DueOk(s) && Enabled(w, s, Release(o, t))
    ensures DueOk(ApplyRelease(s, o, o, t))
  {
  }

  lemma DueFrame<S>(w: World<S>, s: Sys<S>, step: Step)
    requires RowOk(s.db) && DueOk(s) && Enabled(w, s, step) && !InMemory(step) && !step.Release?
    ensures DueOk(Apply(w, s, step))
  {
  }

  lemma SavedFrame<S>(w: World<S>, s: Sys<S>, step: Step)
    requires SavedOk(w, s) && Enabled(w, s, step) && !Saves(step)
    ensures Apply(w, s, step).saved == s.saved
    ensures SavedOk(w, Apply(w, s, step))
  {
    var s' := Apply(w, s, step);
    assert s'.saved == s.saved && s'.origin == s.origin;
    assert s'.db.row.variables == s.db.row.variables && s'.db.row.state == s.db.row.state;
    assert s'.db.row.status == Completed <==> s.db.row.status == Completed;
  }

  lemma SavedByWrite<S>(w: World<S>, s: Sys<S>, o: Owner)
    requires SavedOk(w, s) && RunsOk(w, s) && HolderOk(w, s) && Enabled(w, s, WriteSnapshot(o))
    ensures SavedOk(w, Apply(w, s, WriteSnapshot(o)))
    ensures s.saved <= Apply(w, s, WriteSnapshot(o)).saved
  {
    var run := s.runs[o];
    assert RunOk(w, s, run);
    if Holds(s.db, o) {
      assert HolderRunOk(w, s, run);
      var first := run.saving[0];
      assert QueueOk(w, s.saved, run.saving, run.hist, run.consumed);
      QueueSpans(w, first.hist, run.saving[1..], run.hist, run.consumed);
      assert Rooted(first.hist, s.origin);
    }
  }

  lemma SavedByRelease<S>(w: World<S>, s: Sys<S>, o: Owner, t: Time)
    requires RowOk(s.db) && SavedOk(w, s) && RunsOk(w, s) && HolderOk(w, s) && Enabled(w, s, Release(o, t))
    ensures SavedOk(w, Apply(w, s, Release(o, t)))
    ensures s.saved <= Apply(w, s, Release(o, t)).saved
  {
    var run := s.runs[o];
    assert RunOk(w, s, run);
    if Holds(s.db, o) && run.phase.Closed? {
      assert HolderRunOk(w, s, run);
      assert QueueOk(w, s.saved, run.saving, run.hist, run.consumed);
    }
  }

  lemma {:induction false} SavedStep<S>(w: World<S>, s: Sys<S>, step: Step)
    requires RowOk(s.db) && SavedOk(w, s) && RunsOk(w, s) && HolderOk(w, s) && Enabled(w, s, step)
    ensures SavedOk(w, Apply(w, s, step))
    ensures s.saved <= Apply(w, s, step).saved
  {
    if step.WriteSnapshot? {
      SavedByWrite(w, s, step.owner);
    } else if step.Release? {
      SavedByRelease(w, s, step.owner, step.t);
    } else {
      SavedFrame(w, s, step);
    }
  }

  /** A run is judged by what is saved, the origin and the cancel request, which only ever grow. */
  lemma RunFrame<S>(w: World<S>, s: Sys<S>, s': Sys<S>, run: Run<S>)
    requires RunOk(w, s, run)
    requires s.saved <= s'.saved && s.origin == s'.origin
    requires s.db.row.cancelRequestedAt.Some? ==>
      s'.db.row.cancelRequestedAt.Some? && s'.db.row.cancelReason == s.db.row.cancelReason
    ensures RunOk(w, s', run)
  {
  }

  lemma {:induction false} FedRunOk<S>(w: World<S>, s: Sys<S>, run: Run<S>, x: Input)
    requires RunOk(w, s, run) && run.phase.Live? && !(run.finished.Some? && run.finished.value.Completes?)
    ensures RunOk(w, s, FeedRun(w, run, x))
  {
    ReplayStep(w.engine, run.hist, x);
    assert run.hist <= run.hist + [x];
  }

  lemma {:induction false} StartedRunOk<S>(w: World<S>, s: Sys<S>, run: Run<S>, inbox: seq<Signal>, t: Time)
    requires RunOk(w, s, run) && run.phase.Opened?
    ensures RunOk(w, s, StartEngine(w, run, inbox, t))
  {
    if run.base.Some? {
      ReplayStep(w.engine, run.hist, Resumed(t));
      assert run.hist <= run.hist + [Resumed(t)];
    }
  }

  lemma OpenedRunOk<S>(w: World<S>, s: Sys<S>, run: Run<S>)
    requires RunOk(w, s, run) && run.phase.Claimed? && SavedOk(w, s)
    ensures RunOk(w, s, OpenRun(run, s.db.row, s.saved))
  {
  }

  lemma ClosedRunOk<S>(w: World<S>, s: Sys<S>, run: Run<S>, wakeAt: Option<Time>)
    requires RunOk(w, s, run) && run.phase.Live?
    ensures RunOk(w, s, CloseRun(w, run, wakeAt))
  {
  }

  /** A step in memory leaves a run whose engine is still the replay of its history. */
  lemma {:induction false} ActorRunOk<S>(w: World<S>, s: Sys<S>, step: Step, o: Owner)
    requires SavedOk(w, s) && Enabled(w, s, step) && Actor(step) == Some(o) && o in s.runs && RunOk(w, s, s.runs[o])
    requires InMemory(step) && !step.Crash?
    ensures o in Apply(w, s, step).runs
    ensures RunOk(w, s, Apply(w, s, step).runs[o])
  {
    var run := s.runs[o];
    match step
    case ReadRow(_) => OpenedRunOk(w, s, run);
    case ReadInbox(_, t) => StartedRunOk(w, s, run, s.db.inbox, t);
    case Deliver(_) => FedRunOk(w, s, run, Applied(run.pending[0]));
    case Feed(_, input) => FedRunOk(w, s, run, input);
    case Close(_, wakeAt) => ClosedRunOk(w, s, run, wakeAt);
    case _ =>
  }

  lemma {:induction false} WrittenRunOk<S>(w: World<S>, s: Sys<S>, o: Owner)
    requires Enabled(w, s, WriteSnapshot(o)) && RunOk(w, s, s.runs[o])
    ensures RunOk(w, s, ApplyWrite(s, o, o).runs[o])
  {
  }

  lemma {:induction false} RunStep<S>(w: World<S>, s: Sys<S>, step: Step, o: Owner)
    requires SavedOk(w, s) && RunsOk(w, s) && Enabled(w, s, step) && o in Apply(w, s, step).runs && o in s.runs
    ensures RunOk(w, s, Apply(w, s, step).runs[o])
  {
    assert RunOk(w, s, s.runs[o]);
    if Actor(step) != Some(o) {
      assert o < s.claims;
      OtherRuns(w, s, step, o);
    } else if InMemory(step) {
      assert !step.Crash?;
      ActorRunOk(w, s, step, o);
    } else if step.WriteSnapshot? {
      WrittenRunOk(w, s, o);
    } else {
      assert step.Heartbeat?;
    }
  }

  lemma ClaimedRunOk<S>(w: World<S>, s: Sys<S>)
    ensures RunOk(w, s, FreshRun(s.saved))
  {
  }

  lemma LockedByClaim<S>(w: World<S>, s: Sys<S>, step: Step)
    requires Enabled(w, s, step) && (s.db.row.lockedBy.Some? ==> s.db.row.lockedBy.value < s.claims)
    ensures var s' := Apply(w, s, step); s'.db.row.lockedBy.Some? ==> s'.db.row.lockedBy.value < s'.claims
  {
  }

  lemma NoNewRuns<S>(w: World<S>, s: Sys<S>, step: Step, o: Owner)
    requires Enabled(w, s, step) && o in Apply(w, s, step).runs && o !in s.runs
    ensures step.Claim? && o == s.claims && Apply(w, s, step).runs[o] == FreshRun<S>(s.saved)
    ensures Apply(w, s, step).claims == s.claims + 1
  {
  }

  lemma {:induction false} RunsStep<S>(w: World<S>, s: Sys<S>, step: Step)
    requires RowOk(s.db) && SavedOk(w, s) && RunsOk(w, s) && HolderOk(w, s) && Enabled(w, s, step)
    ensures RunsOk(w, Apply(w, s, step))
  {
    var s' := Apply(w, s, step);
    SavedStep(w, s, step);
    OriginKept(w, s, step);
    LockedByClaim(w, s, step);
    if s.db.row.cancelRequestedAt.Some? {
      CancelKept(w, s, step);
    }
    forall o | o in s'.runs ensures o < s'.claims && RunOk(w, s', s'.runs[o]) {
      if o in s.runs {
        RunStep(w, s, step, o);
      } else {
        NoNewRuns(w, s, step, o);
        ClaimedRunOk(w, s);
      }
      RunFrame(w, s, s', s'.runs[o]);
    }
  }

  // ---------------------------------------------------------------- the holder

  /** Holding starts only with a claim, and ends only with the holder's release or the next claim. */
  lemma HolderKept<S>(w: World<S>, s: Sys<S>, step: Step, o: Owner)
    requires Enabled(w, s, step) && o < s.claims && Holds(Apply(w, s, step).db, o)
    ensures Holds(s.db, o) && !step.Claim?
  {
  }

  lemma OthersSaveNothing<S>(w: World<S>, s: Sys<S>, step: Step, o: Owner)
    requires Enabled(w, s, step) && Holds(s.db, o) && Actor(step) != Some(o)
    ensures Apply(w, s, step).saved == s.saved
  {
  }

  lemma {:induction false} HolderStarts<S>(w: World<S>, s: Sys<S>, run: Run<S>, inbox: seq<Signal>, t: Time)
    requires RunOk(w, s, run) && HolderRunOk(w, s, run) && run.phase.Opened? && SavedOk(w, s)
    ensures HolderRunOk(w, s, StartEngine(w, run, inbox, t))
  {
    var next := StartEngine(w, run, inbox, t);
    if run.base.None? {
      assert s.saved == [];
      assert next.hist[0..] == [Begin(s.origin)];
    } else {
      assert next.hist[|s.saved|..] == [Resumed(t)];
      assert Delivered([Resumed(t)]) == Delivered([]);
    }
  }

  lemma {:induction false} HolderFed<S>(w: World<S>, s: Sys<S>, run: Run<S>, x: Input, ids: seq<nat>)
    requires RunOk(w, s, run) && HolderRunOk(w, s, run) && run.phase.Live?
    requires ids == run.consumed + (if x.Applied? then [x.signal.id] else [])
    ensures HolderRunOk(w, s, FeedRun(w, run, x).(consumed := ids))
  {
    QueueFeed(w, s.saved, run.saving, run.hist, run.consumed, x);
  }

  lemma {:induction false} HolderSnapshots<S>(w: World<S>, s: Sys<S>, run: Run<S>)
    requires RunOk(w, s, run) && HolderRunOk(w, s, run) && run.phase.Live?
    ensures HolderRunOk(w, s, QueueSnapshot(w, run))
  {
    var state := run.engine.value;
    QueueAppend(w, s.saved, run.saving, run.hist, run.consumed,
                Snapshot(state, w.engine.vars(state), run.consumed, run.hist));
  }

  lemma {:induction false} HolderActs<S>(w: World<S>, s: Sys<S>, step: Step, o: Owner)
    requires RowOk(s.db) && SavedOk(w, s) && Enabled(w, s, step) && Actor(step) == Some(o) && InMemory(step) &&
             !step.Crash?
    requires o in s.runs && Holds(s.db, o) && RunOk(w, s, s.runs[o]) && HolderRunOk(w, s, s.runs[o])
    ensures HolderRunOk(w, s, Apply(w, s, step).runs[o])
  {
    var run := s.runs[o];
    match step
    case ReadRow(_) =>
    case ReadInbox(_, t) => HolderStarts(w, s, run, s.db.inbox, t);
    case Deliver(_) => HolderFed(w, s, run, Applied(run.pending[0]), run.consumed + [run.pending[0].id]);
    case Feed(_, input) =>
      HolderFed(w, s, run, input, run.consumed);
      assert FeedRun(w, run, input).(consumed := run.consumed) == FeedRun(w, run, input);
    case TakeSnapshot(_) => HolderSnapshots(w, s, run);
    case _ =>
  }

  lemma HolderWrites<S>(w: World<S>, s: Sys<S>, o: Owner)
    requires Enabled(w, s, WriteSnapshot(o)) && Holds(s.db, o) && RunOk(w, s, s.runs[o]) && HolderRunOk(w, s, s.runs[o])
    ensures HolderRunOk(w, ApplyWrite(s, o, o), ApplyWrite(s, o, o).runs[o])
  {
    assert QueueOk(w, s.saved, s.runs[o].saving, s.runs[o].hist, s.runs[o].consumed);
  }

  lemma HolderFrame<S>(w: World<S>, s: Sys<S>, s': Sys<S>, run: Run<S>)
    requires HolderRunOk(w, s, run) && s.saved == s'.saved && s.origin == s'.origin
    ensures HolderRunOk(w, s', run)
  {
  }

  lemma {:induction false} HolderStep<S>(w: World<S>, s: Sys<S>, step: Step)
    requires RowOk(s.db) && SavedOk(w, s) && RunsOk(w, s) && HolderOk(w, s) && Enabled(w, s, step)
    ensures HolderOk(w, Apply(w, s, step))
  {
    var s' := Apply(w, s, step);
    OriginKept(w, s, step);
    forall o | o in s'.runs && Holds(s'.db, o) ensures HolderRunOk(w, s', s'.runs[o]) {
      if o !in s.runs {
        NoNewRuns(w, s, step, o);
      } else {
        HolderKept(w, s, step, o);
        HolderOfStep(w, s, step, o);
      }
    }
  }

  lemma {:induction false} HolderOfStep<S>(w: World<S>, s: Sys<S>, step: Step, o: Owner)
    requires RowOk(s.db) && SavedOk(w, s) && RunsOk(w, s) && HolderOk(w, s) && Enabled(w, s, step) && !step.Claim?
    requires o in s.runs && o in Apply(w, s, step).runs && Holds(s.db, o)
    ensures HolderRunOk(w, Apply(w, s, step), Apply(w, s, step).runs[o])
  {
    var s' := Apply(w, s, step);
    assert RunOk(w, s, s.runs[o]) && HolderRunOk(w, s, s.runs[o]);
    OriginKept(w, s, step);
    if Actor(step) != Some(o) {
      OtherRuns(w, s, step, o);
      OthersSaveNothing(w, s, step, o);
      HolderFrame(w, s, s', s.runs[o]);
    } else if InMemory(step) {
      assert !step.Crash?;
      HolderActs(w, s, step, o);
      MemoryFrame(w, s, step);
      HolderFrame(w, s, s', s'.runs[o]);
    } else if step.WriteSnapshot? {
      HolderWrites(w, s, o);
    } else {
      assert step.Heartbeat?;
      HolderFrame(w, s, s', s.runs[o]);
    }
  }

  // ---------------------------------------------------------------- signals

  lemma {:induction false} WithoutOrdered(inbox: seq<Signal>, ids: seq<nat>)
    requires InIdOrder(inbox)
    ensures InIdOrder(Without(inbox, ids))
    ensures forall x :: x in Without(inbox, ids) ==> x in inbox
  {
    if inbox != [] {
      var first, rest := inbox[0], inbox[1..];
      assert inbox == [first] + rest;
      WithoutOrdered(rest, ids);
      OrderedCons(first, Without(rest, ids));
    }
  }

  lemma OrderedCons(first: Signal, rest: seq<Signal>)
    requires InIdOrder(rest) && forall x :: x in rest ==> first.id < x.id
    ensures InIdOrder([first] + rest)
  {
  }

  lemma {:induction false} InboxStep<S>(w: World<S>, s: Sys<S>, step: Step)
    requires InboxOk(s) && Enabled(w, s, step)
    ensures InboxOk(Apply(w, s, step))
  {
    if step.WriteSnapshot? {
      WithoutOrdered(s.db.inbox, s.runs[step.owner].saving[0].consumed);
    } else if step.Release? {
      WithoutOrdered(s.db.inbox, s.runs[step.owner].consumed);
    } else {
      InboxFrame(w, s, step);
    }
  }

  lemma InboxFrame<S>(w: World<S>, s: Sys<S>, step: Step)
    requires InboxOk(s) && Enabled(w, s, step) && !Saves(step)
    ensures InboxOk(Apply(w, s, step))
  {
  }

  lemma {:induction false} SplitDelivered(a: History, b: History, c: History)
    requires a <= b <= c
    ensures Delivered(c[|a|..]) == Delivered(b[|a|..]) + Delivered(c[|b|..])
  {
    assert c[|a|..] == b[|a|..] + c[|b|..];
    DeliveredConcat(b[|a|..], c[|b|..]);
  }

  lemma DeliveredSince(a: History, b: History)
    requires a <= b
    ensures Delivered(b) == Delivered(a) + Delivered(b[|a|..])
  {
    assert b == a + b[|a|..];
    DeliveredConcat(a, b[|a|..]);
  }

  /** Deleting by id the signals that head the inbox drops exactly those. */
  lemma DropHead(inbox: seq<Signal>, head: seq<Signal>)
    requires InIdOrder(inbox) && head <= inbox
    ensures Without(inbox, Ids(head)) == inbox[|head|..]
  {
    var kept := inbox[|head|..];
    assert inbox == head + kept;
    forall i | 0 <= i < |head| ensures head[i].id in Ids(head) {
      assert Ids(head)[i] == head[i].id;
    }
    forall i | 0 <= i < |kept| ensures kept[i].id !in Ids(head) {
      assert kept[i] == inbox[|head| + i];
      assert forall j :: 0 <= j < |head| ==> head[j] == inbox[j];
    }
    WithoutPrefix(head, kept, Ids(head));
  }

  lemma StaysOpen<S>(w: World<S>, s: Sys<S>, step: Step)
    requires RowOk(s.db) && Enabled(w, s, step) && Open(Apply(w, s, step))
    ensures Open(s)
  {
  }

  /** Moving the mark from `saved` to `mid` takes exactly the signals in between off the inbox. */
  lemma {:induction false} Rebase(saved: History, mid: History, hist: History, pending: seq<Signal>, inbox: seq<Signal>)
    requires saved <= mid <= hist && InIdOrder(inbox)
    requires Delivered(hist[|saved|..]) + pending <= inbox
    ensures var left := Without(inbox, Ids(Delivered(mid[|saved|..])));
            && Delivered(saved) + inbox == Delivered(mid) + left
            && Delivered(hist[|mid|..]) + pending <= left
  {
    SplitDelivered(saved, mid, hist);
    DeliveredSince(saved, mid);
    TakeHead(Delivered(saved), Delivered(mid[|saved|..]), Delivered(hist[|mid|..]), pending, inbox);
  }

  lemma TakeHead(before: seq<Signal>, head: seq<Signal>, after: seq<Signal>, pending: seq<Signal>, inbox: seq<Signal>)
    requires InIdOrder(inbox) && head + after + pending <= inbox
    ensures before + inbox == before + head + Without(inbox, Ids(head))
    ensures after + pending <= Without(inbox, Ids(head))
  {
    Regroup(head, after, pending);
    CutHead(head, after + pending, inbox);
    DropHead(inbox, head);
    Regroup(before, head, inbox[|head|..]);
  }

  lemma Regroup<T>(a: seq<T>, b: seq<T>, c: seq<T>)
    ensures a + b + c == a + (b + c)
  {
  }

  lemma CutHead<T>(head: seq<T>, rest: seq<T>, all: seq<T>)
    requires head + rest <= all
    ensures head <= all && rest <= all[|head|..] && all == head + all[|head|..]
  {
    assert forall i :: 0 <= i < |head| ==> head[i] == (head + rest)[i];
    assert forall i :: 0 <= i < |rest| ==> rest[i] == (head + rest)[|head| + i];
  }

  /** Saving a snapshot moves its signals from the inbox to the saved history. */
  lemma {:induction false} SignalsWritten<S>(w: World<S>, s: Sys<S>, o: Owner)
    requires RunsOk(w, s) && HolderOk(w, s) && InboxOk(s) && SignalsOk(s) && Open(s)
    requires Enabled(w, s, WriteSnapshot(o)) && Holds(s.db, o)
    ensures SignalsOk(ApplyWrite(s, o, o))
  {
    var run := s.runs[o];
    assert RunOk(w, s, run) && HolderRunOk(w, s, run) && InboxAhead(s, run);
    WriteRebases(w, s, run, o);
  }

  lemma {:induction false} WriteRebases<S>(w: World<S>, s: Sys<S>, run: Run<S>, o: Owner)
    requires InboxOk(s) && SignalsOk(s) && Open(s) && Enabled(w, s, WriteSnapshot(o)) && Holds(s.db, o) &&
             run == s.runs[o]
    requires RunOk(w, s, run) && HolderRunOk(w, s, run) && InboxAhead(s, run)
    ensures SignalsOk(ApplyWrite(s, o, o))
  {
    var first := run.saving[0];
    assert QueueOk(w, s.saved, run.saving, run.hist, run.consumed);
    QueueSpans(w, first.hist, run.saving[1..], run.hist, run.consumed);
    Rebase(s.saved, first.hist, run.hist, run.pending, s.db.inbox);
    var s' := ApplyWrite(s, o, o);
    assert s'.saved == first.hist && s'.runs[o].hist == run.hist && s'.runs[o].pending == run.pending;
    assert s'.db.inbox == Without(s.db.inbox, first.consumed);
    assert InboxAhead(s', s'.runs[o]);
    assert forall p :: Holds(s'.db, p) ==> p == o;
  }

  lemma {:induction false} SignalsParked<S>(w: World<S>, s: Sys<S>, o: Owner, t: Time)
    requires RowOk(s.db) && RunsOk(w, s) && HolderOk(w, s) && InboxOk(s) && SignalsOk(s) && Open(s)
    requires Enabled(w, s, Release(o, t)) && Holds(s.db, o)
    ensures SignalsOk(ApplyRelease(s, o, o, t))
  {
    var run, s' := s.runs[o], ApplyRelease(s, o, o, t);
    assert RunOk(w, s, run);
    if Open(s') {
      assert run.phase.Closed? && s.db.row.cancelRequestedAt.None?;
      if run.phase.outcome.Parks? {
        assert HolderRunOk(w, s, run) && InboxAhead(s, run);
        ParkRebases(w, s, run, o, t);
      }
    }
  }

  lemma {:induction false} ParkRebases<S>(w: World<S>, s: Sys<S>, run: Run<S>, o: Owner, t: Time)
    requires InboxOk(s) && SignalsOk(s) && Open(s) && Enabled(w, s, Release(o, t)) && Holds(s.db, o) && run == s.runs[o]
    requires run.phase.Closed? && run.phase.outcome.Parks? && s.db.row.cancelRequestedAt.None?
    requires HolderRunOk(w, s, run) && InboxAhead(s, run)
    ensures SignalsOk(ApplyRelease(s, o, o, t))
  {
    var s' := ApplyRelease(s, o, o, t);
    assert QueueOk(w, s.saved, run.saving, run.hist, run.consumed);
    CutHead(Delivered(run.hist[|s.saved|..]), run.pending, s.db.inbox);
    assert Delivered(run.hist[|s.saved|..]) + [] == Delivered(run.hist[|s.saved|..]);
    Rebase(s.saved, run.hist, run.hist, [], s.db.inbox);
    assert s'.db.inbox == Without(s.db.inbox, run.consumed);
    assert s'.saved == run.hist && s'.accepted == s.accepted && s'.db.row.lockedBy.None?;
  }

  /** No inbox, saved history or acceptance changes, and the holder's view is what it was. */
  lemma SignalsFrame<S>(w: World<S>, s: Sys<S>, step: Step)
    requires RowOk(s.db) && RunsOk(w, s) && SignalsOk(s) && Open(s) && Enabled(w, s, step)
    requires step.Tick? || step.AskCancel? || step.AskRetry? || step.Heartbeat? || step.Claim?
    ensures SignalsOk(Apply(w, s, step))
  {
  }

  lemma {:induction false} SignalsSent<S>(w: World<S>, s: Sys<S>, signal: Signal, t: Time)
    requires SignalsOk(s) && Open(s)
    ensures SignalsOk(ApplySignal(s, signal, t))
  {
    var s' := ApplySignal(s, signal, t);
    if s' != s {
      assert Delivered(s.saved) + (s.db.inbox + [signal]) == Delivered(s.saved) + s.db.inbox + [signal];
    }
  }

  /** Delivering takes the head of `pending` into the history; any other input leaves the signals alone. */
  lemma {:induction false} AheadActs<S>(w: World<S>, s: Sys<S>, step: Step, o: Owner)
    requires SavedOk(w, s) && Enabled(w, s, step) && Actor(step) == Some(o) && InMemory(step) && !step.Crash?
    requires o in s.runs && RunOk(w, s, s.runs[o]) && HolderRunOk(w, s, s.runs[o]) && InboxAhead(s, s.runs[o])
    ensures InboxAhead(s, Apply(w, s, step).runs[o])
  {
    var run := s.runs[o];
    match step
    case ReadInbox(_, t) => AheadStarts(w, s, run, t);
    case Deliver(_) => AheadDelivers(w, s, run);
    case Feed(_, input) => AheadFeeds(w, s, run, input);
    case _ =>
  }

  lemma {:induction false} AheadDelivers<S>(w: World<S>, s: Sys<S>, run: Run<S>)
    requires InboxAhead(s, run) && run.phase.Live? && run.engine.Some? && run.pending != []
    ensures InboxAhead(s, DeliverNext(w, run))
  {
    var x := Applied(run.pending[0]);
    var since := run.hist[|s.saved|..];
    assert (run.hist + [x])[|s.saved|..] == since + [x];
    DeliveredStep(since, x);
    Regroup(Delivered(since), [run.pending[0]], run.pending[1..]);
    assert [run.pending[0]] + run.pending[1..] == run.pending;
  }

  lemma {:induction false} AheadFeeds<S>(w: World<S>, s: Sys<S>, run: Run<S>, x: Input)
    requires InboxAhead(s, run) && run.phase.Live? && run.engine.Some? && !x.Applied?
    ensures InboxAhead(s, FeedRun(w, run, x))
  {
    var since := run.hist[|s.saved|..];
    assert (run.hist + [x])[|s.saved|..] == since + [x];
    DeliveredStep(since, x);
  }

  lemma {:induction false} AheadStarts<S>(w: World<S>, s: Sys<S>, run: Run<S>, t: Time)
    requires SavedOk(w, s) && RunOk(w, s, run) && HolderRunOk(w, s, run) && run.phase.Opened?
    ensures InboxAhead(s, StartEngine(w, run, s.db.inbox, t))
  {
    var next := StartEngine(w, run, s.db.inbox, t);
    var last := next.hist[|next.hist| - 1];
    assert next.hist == s.saved + [last] && !last.Applied?;
    NoneDelivered(s.saved, last, s.db.inbox);
  }

  lemma NoneDelivered(h: History, x: Input, pending: seq<Signal>)
    requires !x.Applied?
    ensures Delivered((h + [x])[|h|..]) + pending == pending
  {
    assert (h + [x])[|h|..] == [] + [x];
    DeliveredStep([], x);
  }

  lemma {:induction false} SignalsInMemory<S>(w: World<S>, s: Sys<S>, step: Step)
    requires SavedOk(w, s) && RunsOk(w, s) && HolderOk(w, s) && SignalsOk(s) && Open(s) && Enabled(w, s, step) &&
             InMemory(step)
    ensures SignalsOk(Apply(w, s, step))
  {
    var s' := Apply(w, s, step);
    MemoryFrame(w, s, step);
    forall o | o in s'.runs && Holds(s'.db, o) ensures InboxAhead(s', s'.runs[o]) {
      if o in s.runs {
        assert RunOk(w, s, s.runs[o]) && HolderRunOk(w, s, s.runs[o]) && InboxAhead(s, s.runs[o]);
        if Actor(step) == Some(o) {
          AheadActs(w, s, step, o);
        } else {
          OtherRuns(w, s, step, o);
        }
      } else {
        NoNewRuns(w, s, step, o);
      }
    }
  }

  lemma SignalsUnheld<S>(w: World<S>, s: Sys<S>, step: Step)
    requires SignalsOk(s) && Enabled(w, s, step) && Saves(step) && !Holds(s.db, Actor(step).value)
    ensures SignalsOk(Apply(w, s, step))
  {
    var o := Actor(step).value;
    var s' := Apply(w, s, step);
    assert s'.db == s.db && s'.saved == s.saved && s'.accepted == s.accepted;
    assert forall p :: p in s'.runs && p != o ==> p in s.runs && s'.runs[p] == s.runs[p];
  }

  lemma {:induction false} SignalsStep<S>(w: World<S>, s: Sys<S>, step: Step)
    requires Inv(w, s) && Enabled(w, s, step)
    ensures SignalsOk(Apply(w, s, step))
  {
    if Open(Apply(w, s, step)) {
      StaysOpen(w, s, step);
      if InMemory(step) {
        SignalsInMemory(w, s, step);
      } else if Saves(step) {
        if !Holds(s.db, Actor(step).value) {
          SignalsUnheld(w, s, step);
        } else if step.WriteSnapshot? {
          SignalsWritten(w, s, step.owner);
        } else {
          SignalsParked(w, s, step.owner, step.t);
        }
      } else if step.SendSignal? {
        SignalsSent(w, s, step.signal, step.t);
      } else {
        SignalsFrame(w, s, step);
      }
    }
  }

  // ---------------------------------------------------------------- cancel

  lemma CancelEntriesStep(log: seq<Entry>, x: Entry)
    ensures CancelEntries(log + [x]) == CancelEntries(log) + (if x.CancelEntry? then [x] else [])
  {
    assert (log + [x])[..|log|] == log;
  }

  lemma {:induction false} CancelStep<S>(w: World<S>, s: Sys<S>, step: Step)
    requires RowOk(s.db) && RunsOk(w, s) && CancelOk(s) && Enabled(w, s, step)
    ensures CancelOk(Apply(w, s, step))
  {
    if InMemory(step) {
      CancelInMemory(w, s, step);
    } else if step.Release? {
      CancelReleased(w, s, step.owner, step.t);
    } else if step.AskRetry? {
      CancelEntriesStep(s.db.log, RetryEntry(s.db.row.error));
    } else {
      CancelFrame(w, s, step);
    }
  }

  lemma CancelFrame<S>(w: World<S>, s: Sys<S>, step: Step)
    requires RowOk(s.db) && RunsOk(w, s) && CancelOk(s) && Enabled(w, s, step)
    requires !InMemory(step) && !step.Release? && !step.AskRetry?
    ensures CancelOk(Apply(w, s, step))
  {
    CancelRowFrame(w, s, step);
    NoNewFlight(w, s, step);
  }

  /** The cancel's own columns change only with the first request, which counts nothing. */
  lemma CancelRowFrame<S>(w: World<S>, s: Sys<S>, step: Step)
    requires RowOk(s.db) && Enabled(w, s, step) && !InMemory(step) && !step.Release? && !step.AskRetry?
    ensures var s' := Apply(w, s, step);
            && s'.db.log == s.db.log && s'.late == s.late
            && (s.db.row.cancelRequestedAt.Some? || s.db.row.status == Canceled ==>
                  s'.db.row.cancelRequestedAt == s.db.row.cancelRequestedAt
                  && s'.db.row.cancelReason == s.db.row.cancelReason)
            && (s'.db.row.status == Canceled <==> s.db.row.status == Canceled)
  {
  }

  lemma NoNewFlight<S>(w: World<S>, s: Sys<S>, step: Step)
    requires Enabled(w, s, step) && !InMemory(step) && !step.Release?
    ensures InFlight(Apply(w, s, step)) ==> InFlight(s)
  {
    if step.Claim? {
      ClaimOpensNothing(w, s, step.t);
    }
  }

  lemma ClaimOpensNothing<S>(w: World<S>, s: Sys<S>, t: Time)
    requires Enabled(w, s, Claim(t))
    ensures !InFlight(Apply(w, s, Claim(t)))
  {
  }

  lemma CancelInMemory<S>(w: World<S>, s: Sys<S>, step: Step)
    requires CancelOk(s) && Enabled(w, s, step) && InMemory(step)
    ensures CancelOk(Apply(w, s, step))
  {
    MemoryFrame(w, s, step);
    var s' := Apply(w, s, step);
    if s.db.row.cancelRequestedAt.Some? && InFlight(s') {
      assert InFlight(s) by {
        var o := s.db.row.lockedBy.value;
        if Actor(step) != Some(o) {
          OtherRuns(w, s, step, o);
        }
      }
    }
  }

  lemma CancelReleased<S>(w: World<S>, s: Sys<S>, o: Owner, t: Time)
    requires RowOk(s.db) && RunsOk(w, s) && CancelOk(s) && Enabled(w, s, Release(o, t))
    ensures CancelOk(ApplyRelease(s, o, o, t))
  {
    assert RunOk(w, s, s.runs[o]);
    if Holds(s.db, o) {
      if s.runs[o].phase.Stopping? {
        StopReleased(w, s, o, t);
      } else {
        RunReleased(w, s, o, t);
      }
    }
  }

  lemma StopReleased<S>(w: World<S>, s: Sys<S>, o: Owner, t: Time)
    requires RowOk(s.db) && CancelOk(s) && Enabled(w, s, Release(o, t)) && RunOk(w, s, s.runs[o])
    requires Holds(s.db, o) && s.runs[o].phase.Stopping?
    ensures CancelOk(ApplyRelease(s, o, o, t))
  {
    CancelEntriesStep(s.db.log, CancelEntry(s.runs[o].phase.reason));
  }

  lemma RunReleased<S>(w: World<S>, s: Sys<S>, o: Owner, t: Time)
    requires RowOk(s.db) && CancelOk(s) && Enabled(w, s, Release(o, t)) && RunOk(w, s, s.runs[o])
    requires Holds(s.db, o) && !s.runs[o].phase.Stopping?
    ensures CancelOk(ApplyRelease(s, o, o, t))
  {
  }

  // ---------------------------------------------------------------- all of it

  /** Every step of every interleaving keeps the invariant. */
  lemma {:induction false} InvStep<S>(w: World<S>, s: Sys<S>, step: Step)
    requires Inv(w, s) && Enabled(w, s, step)
    ensures Inv(w, Apply(w, s, step))
  {
    RowStep(w, s, step);
    DueStep(w, s, step);
    SavedStep(w, s, step);
    RunsStep(w, s, step);
    HolderStep(w, s, step);
    InboxStep(w, s, step);
    SignalsStep(w, s, step);
    CancelStep(w, s, step);
  }

  lemma {:induction false} InvAlong<S>(w: World<S>, states: seq<Sys<S>>, steps: seq<Step>, i: nat)
    requires IsTrace(w, states, steps) && i < |states|
    ensures Inv(w, states[i])
  {
    if i == 0 {
      var variables, t :| states[0] == Start<S>(variables, t);
      StartOk(w, variables, t);
    } else {
      InvAlong(w, states, steps, i - 1);
      assert Taken(w, states, steps, i - 1);
      InvStep(w, states[i - 1], steps[i - 1]);
    }
  }
}
