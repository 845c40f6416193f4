/**
  One run from its inbox to its release: what it delivers and answers, what
  decides it, how it ends, and how long its row then sleeps.
*/
module Lifecycle {
  import opened Base
  import opened Json
  import opened Engine
  import opened Instance
  import opened Protocol
  import opened Invariant
  import opened Theorems

  // ---------------------------------------------------------------- a run in memory

  /** A run in memory now has been there ever since its claim. */
  lemma {:induction false} StaysInMemory<S>(
      w: World<S>, states: seq<Sys<S>>, steps: seq<Step>, i: nat, k: nat, j: nat, o: Owner)
    requires IsTrace(w, states, steps) && i <= k <= j < |states| && o in states[j].runs && o < states[i].claims
    ensures o in states[k].runs
    decreases j - k
  {
    if k < j {
      StaysInMemory(w, states, steps, i, k + 1, j, o);
      SavedGrows(w, states, steps, i, k);
      assert Taken(w, states, steps, k);
      if o !in states[k].runs {
        NoNewRuns(w, states[k], steps[k], o);
      }
    }
  }

  /** The acting run of a step, if it is in memory after it or later, was claimed before. */
  lemma {:induction false} ActorStays<S>(
      w: World<S>, states: seq<Sys<S>>, steps: seq<Step>, i: nat, k: nat, j: nat, o: Owner)
    requires IsTrace(w, states, steps) && i <= k <= j < |states| && i < |steps|
    requires Actor(steps[i]) == Some(o) && o in states[j].runs
    ensures o in states[i].runs && o in states[k].runs
  {
    assert Taken(w, states, steps, i);
    ActorIsInMemory(w, states[i], steps[i], o);
    InvAlong(w, states, steps, i);
    StaysInMemory(w, states, steps, i, k, j, o);
  }

  lemma ActorIsInMemory<S>(w: World<S>, s: Sys<S>, step: Step, o: Owner)
    requires Enabled(w, s, step) && Actor(step) == Some(o)
    ensures o in s.runs
  {
  }

  // ---------------------------------------------------------------- what decides a run

  /** The engine ended, something broke, or a checkpoint found the row taken over. */
  ghost predicate Decides<S>(s: Sys<S>, step: Step, o: Owner)
  {
    step == End(o) || (step.Break? && step.owner == o) || (step == WriteSnapshot(o) && !Holds(s.db, o))
  }

  lemma DecidedStep<S>(w: World<S>, s: Sys<S>, step: Step, o: Owner)
    requires Enabled(w, s, step) && o in s.runs && o in Apply(w, s, step).runs && o < s.claims
    ensures s.runs[o].finished.Some? ==> Apply(w, s, step).runs[o].finished == s.runs[o].finished
    ensures s.runs[o].finished.None? ==> (Apply(w, s, step).runs[o].finished.Some? <==> Decides(s, step, o))
    ensures s.runs[o].finished.None? && step == End(o) && s.runs[o].engine.Some? ==>
              Apply(w, s, step).runs[o].finished == Some(Completes(w.engine.vars(s.runs[o].engine.value)))
    ensures s.runs[o].finished.None? && step.Break? && step.owner == o ==>
              Apply(w, s, step).runs[o].finished == Some(Fails(step.error))
  {
    if Actor(step) != Some(o) {
      OtherRuns(w, s, step, o);
    } else {
      OwnDecision(w, s, step, o);
    }
  }

  lemma OwnDecision<S>(w: World<S>, s: Sys<S>, step: Step, o: Owner)
    requires Enabled(w, s, step) && Actor(step) == Some(o) && o in s.runs && o in Apply(w, s, step).runs
    ensures s.runs[o].finished.Some? ==> Apply(w, s, step).runs[o].finished == s.runs[o].finished
    ensures s.runs[o].finished.None? ==> (Apply(w, s, step).runs[o].finished.Some? <==> Decides(s, step, o))
    ensures s.runs[o].finished.None? && step == End(o) && s.runs[o].engine.Some? ==>
              Apply(w, s, step).runs[o].finished == Some(Completes(w.engine.vars(s.runs[o].engine.value)))
    ensures s.runs[o].finished.None? && step.Break? ==>
              Apply(w, s, step).runs[o].finished == Some(Fails(step.error))
  {
  }

  lemma {:induction false} DecidedAlong<S>(w: World<S>, states: seq<Sys<S>>, steps: seq<Step>, j: nat, o: Owner)
    requires IsTrace(w, states, steps) && j < |states| && o in states[j].runs
    ensures states[j].runs[o].finished.Some? <==> exists i :: 0 <= i < j && Decides(states[i], steps[i], o)
    decreases j
  {
    if j > 0 {
      assert Taken(w, states, steps, j - 1);
      if o in states[j - 1].runs {
        DecidedAlong(w, states, steps, j - 1, o);
        ClaimedBefore(w, states, steps, j - 1, o);
        DecidedStep(w, states[j - 1], steps[j - 1], o);
      } else {
        NoNewRuns(w, states[j - 1], steps[j - 1], o);
        NothingBeforeClaim(w, states, steps, j, o);
      }
    }
  }

  lemma {:induction false} ClaimedBefore<S>(w: World<S>, states: seq<Sys<S>>, steps: seq<Step>, j: nat, o: Owner)
    requires IsTrace(w, states, steps) && j < |states| && o in states[j].runs
    ensures o < states[j].claims
  {
    InvAlong(w, states, steps, j);
  }

  lemma DecidingEnabled<S>(w: World<S>, s: Sys<S>, step: Step, o: Owner)
    requires Enabled(w, s, step) && (step == End(o) || (step.Break? && step.owner == o))
    ensures o in s.runs && s.runs[o].finished.None? && s.runs[o].phase.Live? && s.runs[o].engine.Some?
  {
  }

  lemma {:induction false} NothingBeforeClaim<S>(
      w: World<S>, states: seq<Sys<S>>, steps: seq<Step>, j: nat, o: Owner)
    requires IsTrace(w, states, steps) && 0 < j < |states| && steps[j - 1].Claim? && o == states[j - 1].claims
    ensures forall i :: 0 <= i < j ==> Actor(steps[i]) != Some(o)
  {
    forall i | 0 <= i < j ensures Actor(steps[i]) != Some(o) {
      if Actor(steps[i]) == Some(o) {
        assert Taken(w, states, steps, i);
        ActorIsInMemory(w, states[i], steps[i], o);
        ClaimedBefore(w, states, steps, i, o);
        SavedGrows(w, states, steps, i, j - 1);
      }
    }
  }

  /** The engine's end or a break decides a run for good, unless the run is aborted. */
  lemma {:induction false} DecisionStays<S>(
      w: World<S>, states: seq<Sys<S>>, steps: seq<Step>, i: nat, j: nat, o: Owner)
    requires IsTrace(w, states, steps) && i < j < |states| && o in states[j].runs
    requires steps[i] == End(o) || (steps[i].Break? && steps[i].owner == o)
    ensures o in states[i].runs && states[i].runs[o].engine.Some?
    ensures states[j].runs[o].finished ==
            if steps[i].Break? then Some(Fails(steps[i].error))
            else Some(Completes(w.engine.vars(states[i].runs[o].engine.value)))
    decreases j
  {
    assert Taken(w, states, steps, i) && Taken(w, states, steps, j - 1);
    ActorStays(w, states, steps, i, j - 1, j, o);
    ClaimedBefore(w, states, steps, j - 1, o);
    if i == j - 1 {
      DecidingEnabled(w, states[i], steps[i], o);
    } else {
      DecisionStays(w, states, steps, i, j - 1, o);
    }
    DecidedStep(w, states[j - 1], steps[j - 1], o);
  }

  // ---------------------------------------------------------------- how a run closes

  predicate Closes(step: Step, o: Owner)
  {
    (step.Close? && step.owner == o) || (step.Abort? && step.owner == o)
  }

  lemma ClosedStep<S>(w: World<S>, s: Sys<S>, step: Step, o: Owner)
    requires RunsOk(w, s) && Enabled(w, s, step) && o in s.runs && o in Apply(w, s, step).runs
    ensures s.runs[o].phase.Closed? ==>
              Apply(w, s, step).runs[o].phase == s.runs[o].phase && Apply(w, s, step).runs[o].hist == s.runs[o].hist
    ensures !s.runs[o].phase.Closed? ==> (Apply(w, s, step).runs[o].phase.Closed? <==> Closes(step, o))
    ensures Closes(step, o) ==> s.runs[o].phase.Live? && Apply(w, s, step).runs[o].hist == s.runs[o].hist
    ensures step.Abort? && step.owner == o ==> Apply(w, s, step).runs[o].phase == Closed(Fails(step.error))
    ensures step.Close? && step.owner == o ==>
              s.runs[o].hist != [] && Apply(w, s, step).runs[o].phase == Closed(Ending(w, s.runs[o], step.wakeAt))
  {
    assert RunOk(w, s, s.runs[o]);
    if Actor(step) != Some(o) {
      OtherRuns(w, s, step, o);
    } else if Closes(step, o) {
      ClosingStep(w, s, step, o);
    } else {
      NotClosing(w, s, step, o);
    }
  }

  /** What a run that closes by itself ends with: what was decided, or a park where it stands. */
  ghost function Ending<S>(w: World<S>, run: Run<S>, wakeAt: Option<Time>): Outcome<S>
    requires run.hist != []
  {
    if run.finished.Some? then run.finished.value
    else Parks(Replay(w.engine, run.hist), w.engine.vars(Replay(w.engine, run.hist)), wakeAt)
  }

  lemma ClosingStep<S>(w: World<S>, s: Sys<S>, step: Step, o: Owner)
    requires Enabled(w, s, step) && Closes(step, o) && o in s.runs && RunOk(w, s, s.runs[o])
    ensures s.runs[o].phase.Live? && Apply(w, s, step).runs[o].hist == s.runs[o].hist
    ensures step.Abort? ==> Apply(w, s, step).runs[o].phase == Closed(Fails(step.error))
    ensures step.Close? ==>
              s.runs[o].hist != [] && Apply(w, s, step).runs[o].phase == Closed(Ending(w, s.runs[o], step.wakeAt))
  {
  }

  lemma NotClosing<S>(w: World<S>, s: Sys<S>, step: Step, o: Owner)
    requires Enabled(w, s, step) && Actor(step) == Some(o) && !Closes(step, o) && o in s.runs &&
             o in Apply(w, s, step).runs
    ensures s.runs[o].phase.Closed? ==>
              Apply(w, s, step).runs[o].phase == s.runs[o].phase && Apply(w, s, step).runs[o].hist == s.runs[o].hist
    ensures !s.runs[o].phase.Closed? ==> !Apply(w, s, step).runs[o].phase.Closed?
  {
  }

  lemma {:induction false} ClosedTaken<S>(w: World<S>, states: seq<Sys<S>>, steps: seq<Step>, j: nat, o: Owner)
    requires IsTrace(w, states, steps) && j < |steps| && o in states[j].runs && o in states[j + 1].runs
    ensures states[j].runs[o].phase.Closed? ==>
              states[j + 1].runs[o].phase == states[j].runs[o].phase &&
                states[j + 1].runs[o].hist == states[j].runs[o].hist
    ensures !states[j].runs[o].phase.Closed? ==> (states[j + 1].runs[o].phase.Closed? <==> Closes(steps[j], o))
    ensures Closes(steps[j], o) ==>
            states[j].runs[o].phase.Live? && states[j + 1].runs[o].hist == states[j].runs[o].hist
  {
    assert Taken(w, states, steps, j);
    InvAlong(w, states, steps, j);
    ClosedStep(w, states[j], steps[j], o);
  }

  lemma {:induction false} ClosingStays<S>(
      w: World<S>, states: seq<Sys<S>>, steps: seq<Step>, c: nat, j: nat, o: Owner)
    requires IsTrace(w, states, steps) && c < j < |states| && o in states[j].runs && Closes(steps[c], o)
    ensures o in states[c].runs && o in states[c + 1].runs && states[c + 1].runs[o].phase.Closed?
    ensures states[j].runs[o].phase == states[c + 1].runs[o].phase
    ensures states[j].runs[o].hist == states[c].runs[o].hist
    decreases j
  {
    ActorStays(w, states, steps, c, c + 1, j, o);
    ActorStays(w, states, steps, c, j - 1, j, o);
    ClosedTaken(w, states, steps, j - 1, o);
    if c < j - 1 {
      ClosingStays(w, states, steps, c, j - 1, o);
    }
  }

  /** A closed run was closed at one step. */
  lemma {:induction false} ClosedAt<S>(w: World<S>, states: seq<Sys<S>>, steps: seq<Step>, j: nat, o: Owner)
    returns (c: nat)
    requires IsTrace(w, states, steps) && j < |states| && o in states[j].runs && states[j].runs[o].phase.Closed?
    ensures c < j && Closes(steps[c], o)
    decreases j
  {
    assert j > 0;
    NotBornClosed(w, states, steps, j - 1, o);
    ClosedTaken(w, states, steps, j - 1, o);
    if states[j - 1].runs[o].phase.Closed? {
      c := ClosedAt(w, states, steps, j - 1, o);
    } else {
      c := j - 1;
    }
  }

  lemma {:induction false} NotBornClosed<S>(w: World<S>, states: seq<Sys<S>>, steps: seq<Step>, j: nat, o: Owner)
    requires IsTrace(w, states, steps) && j < |steps| && o in states[j + 1].runs && states[j + 1].runs[o].phase.Closed?
    ensures o in states[j].runs
  {
    assert Taken(w, states, steps, j);
    if o !in states[j].runs {
      NoNewRuns(w, states[j], steps[j], o);
    }
  }

  // ---------------------------------------------------------------- how a run is released

  lemma HeldRelease<S>(w: World<S>, s: Sys<S>, o: Owner, t: Time)
    requires Enabled(w, s, Release(o, t)) && Holds(s.db, o) && s.runs[o].phase.Closed?
    ensures var row := Apply(w, s, Release(o, t)).db.row;
            match s.runs[o].phase.outcome
            case Completes(v) => row.status == Completed && row.variables == v && row.completedAt == Some(t)
            case Fails(error) => row.status == Failed && row.error == Some(error) && row.completedAt == Some(t)
            case Cancels(_) => row.status == Canceled && row.completedAt == Some(t)
            case Parks(state, v, wakeAt) => row.status == Running && row.state == Some(state) && row.variables == v
  {
  }

  /**
    A run the engine's end decided, and that nothing aborted, completes its
    instance when it releases the row it holds; one that broke fails it with
    just that error.
  */
  lemma {:induction false} DecidedRunReleases<S>(
      w: World<S>, states: seq<Sys<S>>, steps: seq<Step>, i: nat, j: nat, o: Owner)
    requires IsTrace(w, states, steps) && i < j < |steps| && Decides(states[i], steps[i], o)
    requires forall k :: i < k < j ==> !(steps[k].Abort? && steps[k].owner == o)
    requires steps[j].Release? && steps[j].owner == o && Holds(states[j].db, o)
    requires forall k :: 0 <= k < i ==> !Decides(states[k], steps[k], o)
    ensures steps[i] == End(o) || steps[i].Break?
    ensures steps[i] == End(o) ==>
              && states[j + 1].db.row.status == Completed && states[j + 1].db.row.completedAt == Some(steps[j].t)
              && o in states[i].runs && states[i].runs[o].hist != []
              && states[j + 1].db.row.variables == w.engine.vars(Replay(w.engine, states[i].runs[o].hist))
    ensures steps[i].Break? ==>
              && states[j + 1].db.row.status == Failed && states[j + 1].db.row.error == Some(steps[i].error)
              && states[j + 1].db.row.completedAt == Some(steps[j].t)
  {
    assert Taken(w, states, steps, j) && Taken(w, states, steps, i);
    assert o in states[j].runs;
    if steps[i] == WriteSnapshot(o) {
      ActorStays(w, states, steps, i, i, j, o);
      ClaimedBefore(w, states, steps, i, o);
      LostForGood(w, states, steps, o, i, j);
      assert false;
    } else {
      DecidedRunClosed(w, states, steps, i, j, o);
      HeldRelease(w, states[j], o, steps[j].t);
    }
  }

  lemma {:induction false} DecidedRunClosed<S>(
      w: World<S>, states: seq<Sys<S>>, steps: seq<Step>, i: nat, j: nat, o: Owner)
    requires IsTrace(w, states, steps) && i < j < |steps| && steps[j].Release? && steps[j].owner == o
    requires steps[i] == End(o) || (steps[i].Break? && steps[i].owner == o)
    requires forall k :: i < k < j ==> !(steps[k].Abort? && steps[k].owner == o)
    ensures o in states[i].runs && o in states[j].runs && states[i].runs[o].hist != []
    ensures states[j].runs[o].phase ==
            Closed(if steps[i].Break? then Fails(steps[i].error)
                   else Completes(w.engine.vars(Replay(w.engine, states[i].runs[o].hist))))
  {
    assert Taken(w, states, steps, i) && Taken(w, states, steps, j);
    ActorStays(w, states, steps, i, i, j, o);
    DecidingEnabled(w, states[i], steps[i], o);
    LiveRunDriven(w, states, steps, i, o);
    StartedStays(w, states, steps, i, j, o);
    var c := ClosedAt(w, states, steps, j, o);
    ClosingStays(w, states, steps, c, j, o);
    if c < i {
      ClosingStays(w, states, steps, c, i, o);
      assert false;
    } else {
      assert c != i && i < c;
      InvAlong(w, states, steps, c);
      assert Taken(w, states, steps, c);
      DecisionStays(w, states, steps, i, c, o);
      ClosedStep(w, states[c], steps[c], o);
    }
  }

  lemma {:induction false} LiveRunDriven<S>(w: World<S>, states: seq<Sys<S>>, steps: seq<Step>, i: nat, o: Owner)
    requires IsTrace(w, states, steps) && i < |states| && o in states[i].runs && Started(states[i].runs[o])
    ensures states[i].runs[o].hist != [] && states[i].runs[o].engine == Some(Replay(w.engine, states[i].runs[o].hist))
  {
    InvAlong(w, states, steps, i);
    assert RunOk(w, states[i], states[i].runs[o]);
  }

  lemma {:induction false} StartedStays<S>(
      w: World<S>, states: seq<Sys<S>>, steps: seq<Step>, i: nat, j: nat, o: Owner)
    requires IsTrace(w, states, steps) && i <= j < |states| && o in states[j].runs && o in states[i].runs
    requires Started(states[i].runs[o])
    ensures Started(states[j].runs[o])
    decreases j
  {
    if i < j {
      ClaimedBefore(w, states, steps, i, o);
      StaysInMemory(w, states, steps, i, j - 1, j, o);
      StartedStays(w, states, steps, i, j - 1, o);
      assert Taken(w, states, steps, j - 1);
      ClaimedBefore(w, states, steps, j - 1, o);
      StartedNext(w, states[j - 1], steps[j - 1], o);
    }
  }

  lemma StartedNext<S>(w: World<S>, s: Sys<S>, step: Step, o: Owner)
    requires Enabled(w, s, step) && o in s.runs && o in Apply(w, s, step).runs && o < s.claims && Started(s.runs[o])
    ensures Started(Apply(w, s, step).runs[o])
  {
    if Actor(step) != Some(o) {
      OtherRuns(w, s, step, o);
    }
  }

  // ---------------------------------------------------------------- parks

  lemma {:induction false} ClosedOnce<S>(
      w: World<S>, states: seq<Sys<S>>, steps: seq<Step>, c: nat, i: nat, j: nat, o: Owner)
    requires IsTrace(w, states, steps) && c < j < |states| && i < j && o in states[j].runs && Closes(steps[c], o)
    requires Closes(steps[i], o) || steps[i] == End(o) || (steps[i].Break? && steps[i].owner == o)
    ensures i <= c && (Closes(steps[i], o) ==> i == c)
  {
    assert Taken(w, states, steps, i) && Taken(w, states, steps, c);
    ActorStays(w, states, steps, c, c, j, o);
    ActorStays(w, states, steps, i, i, j, o);
    if c < i {
      ClosingStays(w, states, steps, c, i, o);
      NeedsLive(w, states[i], steps[i], o);
    } else if i < c && Closes(steps[i], o) {
      ClosingStays(w, states, steps, i, c, o);
      NeedsLive(w, states[c], steps[c], o);
    }
  }

  lemma NeedsLive<S>(w: World<S>, s: Sys<S>, step: Step, o: Owner)
    requires Enabled(w, s, step) && (Closes(step, o) || step == End(o) || (step.Break? && step.owner == o))
    ensures o in s.runs && s.runs[o].phase.Live?
  {
  }

  /** A started run that still holds the row lets it go as running if and only if nothing decided or aborted it. */
  lemma {:induction false} ParksIffUndecided<S>(w: World<S>, states: seq<Sys<S>>, steps: seq<Step>, j: nat, o: Owner)
    requires IsTrace(w, states, steps) && j < |steps| && steps[j].Release? && steps[j].owner == o
    requires Holds(states[j].db, o) && o in states[j].runs && Started(states[j].runs[o])
    ensures states[j + 1].db.row.status == Running <==>
            forall i :: 0 <= i < j ==> !Decides(states[i], steps[i], o) && !(steps[i].Abort? && steps[i].owner == o)
  {
    assert Taken(w, states, steps, j);
    HeldRelease(w, states[j], o, steps[j].t);
    var c := ClosedAt(w, states, steps, j, o);
    ClosingStays(w, states, steps, c, j, o);
    InvAlong(w, states, steps, c);
    assert Taken(w, states, steps, c);
    ClosedStep(w, states[c], steps[c], o);
    DecidedAlong(w, states, steps, c, o);
    if steps[c].Close? {
      assert RunOk(w, states[c], states[c].runs[o]);
      if states[c].runs[o].finished.None? {
        forall i | 0 <= i < j
          ensures !Decides(states[i], steps[i], o) && !(steps[i].Abort? && steps[i].owner == o)
        {
          UndecidedThroughout(w, states, steps, c, i, j, o);
        }
      }
    }
  }

  lemma {:induction false} UndecidedThroughout<S>(
      w: World<S>, states: seq<Sys<S>>, steps: seq<Step>, c: nat, i: nat, j: nat, o: Owner)
    requires IsTrace(w, states, steps) && c < j < |steps| && i < j && o in states[j].runs && Holds(states[j].db, o)
    requires steps[c].Close? && steps[c].owner == o
    requires forall k :: 0 <= k < c ==> !Decides(states[k], steps[k], o)
    ensures !Decides(states[i], steps[i], o) && !(steps[i].Abort? && steps[i].owner == o)
  {
    if steps[i] == WriteSnapshot(o) && !Holds(states[i].db, o) {
      ActorStays(w, states, steps, i, i, j, o);
      ClaimedBefore(w, states, steps, i, o);
      LostForGood(w, states, steps, o, i, j);
    } else if Decides(states[i], steps[i], o) || Closes(steps[i], o) {
      ClosedOnce(w, states, steps, c, i, j, o);
    }
  }

  /** The run's own abort fails its instance with that error, if it still holds the row. */
  lemma {:induction false} AbortedRunFails<S>(
      w: World<S>, states: seq<Sys<S>>, steps: seq<Step>, c: nat, j: nat, o: Owner)
    requires IsTrace(w, states, steps) && c < j < |steps| && steps[c].Abort? && steps[c].owner == o
    requires steps[j].Release? && steps[j].owner == o && Holds(states[j].db, o)
    ensures states[j + 1].db.row.status == Failed && states[j + 1].db.row.error == Some(steps[c].error)
  {
    assert Taken(w, states, steps, j) && Taken(w, states, steps, c);
    ClosingStays(w, states, steps, c, j, o);
    InvAlong(w, states, steps, c);
    ClosedStep(w, states[c], steps[c], o);
    HeldRelease(w, states[j], o, steps[j].t);
  }

  /** Nobody holds the row and nobody has asked for anything: it wakes when it was told to, or not at all. */
  predicate Asleep<S>(s: Sys<S>, wakeAt: Option<Time>)
  {
    && s.db.row.status == Running && s.db.row.lockedBy.None? && s.db.row.lockedUntil.None?
    && s.db.row.cancelRequestedAt.None? && s.db.row.runnableAt == wakeAt
  }

  lemma StaysAsleep<S>(w: World<S>, s: Sys<S>, step: Step, wakeAt: Option<Time>)
    requires Asleep(s, wakeAt) && Enabled(w, s, step) && !step.Claim? && !step.AskCancel?
    requires Apply(w, s, step).accepted == s.accepted
    ensures Asleep(Apply(w, s, step), wakeAt)
  {
  }

  /** The step lets go of a row as running that holds nothing more to do. */
  predicate ParksIdle<S>(s: Sys<S>, step: Step, after: Sys<S>, o: Owner)
  {
    && step.Release? && step.owner == o && Holds(s.db, o) && s.db.row.cancelRequestedAt.None?
    && after.db.row.status == Running && after.db.inbox == []
  }

  lemma IdleParkSleeps<S>(w: World<S>, s: Sys<S>, o: Owner, t: Time, wakeAt: Option<Time>)
    requires RowOk(s.db) && Enabled(w, s, Release(o, t)) && ParksIdle(s, Release(o, t), Apply(w, s, Release(o, t)), o)
    requires s.runs[o].phase.Closed? && (s.runs[o].phase.outcome.Parks? ==> s.runs[o].phase.outcome.wakeAt == wakeAt)
    ensures Asleep(Apply(w, s, Release(o, t)), wakeAt)
  {
    HeldRelease(w, s, o, t);
  }

  lemma {:induction false} AsleepAfterPark<S>(
      w: World<S>, states: seq<Sys<S>>, steps: seq<Step>, c: nat, i: nat, o: Owner)
    requires IsTrace(w, states, steps) && c < i < |steps| && steps[c].Close? && steps[c].owner == o
    requires ParksIdle(states[i], steps[i], states[i + 1], o)
    ensures Asleep(states[i + 1], steps[c].wakeAt)
  {
    assert Taken(w, states, steps, i) && Taken(w, states, steps, c);
    ClosingStays(w, states, steps, c, i, o);
    InvAlong(w, states, steps, c);
    ClosedStep(w, states[c], steps[c], o);
    assert RunOk(w, states[c], states[c].runs[o]);
    RowOkAlong(w, states, steps, i);
    IdleParkSleeps(w, states[i], o, steps[i].t, steps[c].wakeAt);
  }

  lemma {:induction false} AsleepAlong<S>(
      w: World<S>, states: seq<Sys<S>>, steps: seq<Step>, i: nat, j: nat, wakeAt: Option<Time>)
    requires IsTrace(w, states, steps) && i <= j < |states| && Asleep(states[i], wakeAt)
    requires forall k :: i <= k < j ==>
             !steps[k].Claim? && !steps[k].AskCancel? && states[k + 1].accepted == states[k].accepted
    ensures Asleep(states[j], wakeAt)
    decreases j
  {
    if i < j {
      AsleepAlong(w, states, steps, i, j - 1, wakeAt);
      assert Taken(w, states, steps, j - 1);
      StaysAsleep(w, states[j - 1], steps[j - 1], wakeAt);
    }
  }

  /**
    A run that closed to wake at a given time, and parks with nothing left in
    the inbox and no cancel pending: until it is claimed, signalled or asked to
    cancel, the row can be claimed from that time on and no earlier, and without
    such a time not at all.
  */
  lemma {:induction false} ParkedRowSleeps<S>(
      w: World<S>, states: seq<Sys<S>>, steps: seq<Step>, c: nat, i: nat, j: nat, o: Owner, t: Time)
    requires IsTrace(w, states, steps) && c < i < j < |states| && steps[c].Close? && steps[c].owner == o
    requires ParksIdle(states[i], steps[i], states[i + 1], o)
    requires forall k :: i < k < j ==>
             !steps[k].Claim? && !steps[k].AskCancel? && states[k + 1].accepted == states[k].accepted
    ensures Enabled(w, states[j], Claim(t)) <==>
            steps[c].wakeAt.Some? && steps[c].wakeAt.value <= t <= states[j].now
  {
    AsleepAfterPark(w, states, steps, c, i, o);
    AsleepAlong(w, states, steps, i + 1, j, steps[c].wakeAt);
  }

  /** With a signal left or a cancel pending, a park wakes the row at once, whatever time it was to wake. */
  lemma {:induction false} BusyParkWakesAtOnce<S>(w: World<S>, states: seq<Sys<S>>, steps: seq<Step>, i: nat)
    requires IsTrace(w, states, steps) && i < |steps| && steps[i].Release? && Holds(states[i].db, steps[i].owner)
    requires states[i + 1].db.row.status == Running
    requires states[i + 1].db.inbox != [] || states[i].db.row.cancelRequestedAt.Some?
    ensures states[i + 1].db.row.runnableAt == Some(steps[i].t)
    ensures states[i].db.row.cancelRequestedAt.Some? ==> states[i + 1].db.inbox == states[i].db.inbox
  {
    assert Taken(w, states, steps, i);
    InvAlong(w, states, steps, i);
    assert RunOk(w, states[i], states[i].runs[steps[i].owner]);
  }

  // ---------------------------------------------------------------- the client's side

  /** A new row is pending, with the variables given, nothing queued, and due at once. */
  lemma StartsDue<S>(w: World<S>, variables: Fields, t: Time)
    ensures var s := Start<S>(variables, t);
            && s.db.row.status == Pending && s.db.row.state.None? && s.db.row.variables == variables
            && s.db.inbox == [] && s.db.log == [] && Enabled(w, s, Claim(t))
            && (forall u: nat :: u < t ==> !Enabled(w, s, Claim(u)))
  {
  }

  /**
    A signal is taken in, last, and due at once, if and only if the instance is
    active and no cancel is pending; else nothing changes.
  */
  lemma SignalTakenIff<S>(w: World<S>, s: Sys<S>, signal: Signal, t: Time)
    requires Enabled(w, s, SendSignal(signal, t))
    ensures var s' := Apply(w, s, SendSignal(signal, t));
            if Active(s.db.row.status) && s.db.row.cancelRequestedAt.None? then
              && s'.accepted == s.accepted + [signal] && s'.db.inbox == s.db.inbox + [signal]
              && s'.db.row == s.db.row.(runnableAt := Some(t)) && s'.db.log == s.db.log
            else s' == s
  {
  }

  /** The first cancel request of an active instance makes it due at once; any other request changes nothing. */
  lemma CancelTakenIff<S>(w: World<S>, s: Sys<S>, reason: Option<string>, t: Time)
    requires Enabled(w, s, AskCancel(reason, t))
    ensures var s' := Apply(w, s, AskCancel(reason, t));
            if Active(s.db.row.status) && s.db.row.cancelRequestedAt.None? then
              && s'.db.row == s.db.row.(cancelRequestedAt := Some(t), cancelReason := reason, runnableAt := Some(t))
              && s' == s.(db := s.db.(row := s'.db.row))
            else s' == s
  {
  }

  /** Only a failed instance is retried. */
  lemma RetryTakenIff<S>(w: World<S>, s: Sys<S>, t: Time)
    requires RowOk(s.db) && Enabled(w, s, AskRetry(t))
    ensures Apply(w, s, AskRetry(t)) != s <==> s.db.row.status == Failed
    ensures s.db.row.status == Failed ==> Enabled(w, Apply(w, s, AskRetry(t)), Claim(t))
  {
  }

  // ---------------------------------------------------------------- what a run takes in

  /** The signals a run has delivered since it read the inbox, and those it still has to, are those it read. */
  lemma {:induction false} RunTakesWholeInbox<S>(
      w: World<S>, states: seq<Sys<S>>, steps: seq<Step>, k: nat, j: nat, o: Owner)
    requires IsTrace(w, states, steps) && k < j < |states| && o in states[j].runs
    requires steps[k].ReadInbox? && steps[k].owner == o
    ensures o in states[k + 1].runs && |states[k + 1].runs[o].hist| <= |states[j].runs[o].hist|
    ensures Delivered(states[j].runs[o].hist[|states[k + 1].runs[o].hist|..]) +
            states[j].runs[o].pending == states[k].db.inbox
    decreases j
  {
    ActorStays(w, states, steps, k, k + 1, j, o);
    ActorStays(w, states, steps, k, j - 1, j, o);
    assert Taken(w, states, steps, j - 1) && Taken(w, states, steps, k);
    if k == j - 1 {
      var hist := states[j].runs[o].hist;
      assert hist[|hist|..] == [];
    } else {
      RunTakesWholeInbox(w, states, steps, k, j - 1, o);
      InboxRead(w, states, steps, k, j - 1, o);
      TakesStep(w, states[j - 1], steps[j - 1], o, |states[k + 1].runs[o].hist|);
    }
  }

  lemma {:induction false} InboxRead<S>(
      w: World<S>, states: seq<Sys<S>>, steps: seq<Step>, k: nat, j: nat, o: Owner)
    requires IsTrace(w, states, steps) && k < j < |states| && o in states[j].runs
    requires steps[k].ReadInbox? && steps[k].owner == o
    ensures Started(states[j].runs[o]) && o < states[j].claims
  {
    ActorStays(w, states, steps, k, k + 1, j, o);
    assert Taken(w, states, steps, k);
    StartedStays(w, states, steps, k + 1, j, o);
    ClaimedBefore(w, states, steps, j, o);
  }

  lemma TakesStep<S>(w: World<S>, s: Sys<S>, step: Step, o: Owner, from: nat)
    requires Enabled(w, s, step) && o in s.runs && o in Apply(w, s, step).runs && o < s.claims
    requires Started(s.runs[o]) && from <= |s.runs[o].hist|
    ensures var run, next := s.runs[o], Apply(w, s, step).runs[o];
            && |run.hist| <= |next.hist|
            && Delivered(next.hist[from..]) + next.pending == Delivered(run.hist[from..]) + run.pending
  {
    var run := s.runs[o];
    if Actor(step) != Some(o) {
      OtherRuns(w, s, step, o);
    } else if step.Deliver? {
      TakesInput(run.hist, from, Applied(run.pending[0]));
      assert [run.pending[0]] + run.pending[1..] == run.pending;
      Regroup(Delivered(run.hist[from..]), [run.pending[0]], run.pending[1..]);
    } else if step.Feed? {
      TakesInput(run.hist, from, step.input);
    } else {
      LeavesHistory(w, s, step, o);
    }
  }

  lemma TakesInput(hist: History, from: nat, x: Input)
    requires from <= |hist|
    ensures Delivered((hist + [x])[from..]) == Delivered(hist[from..]) + (if x.Applied? then [x.signal] else [])
  {
    assert (hist + [x])[from..] == hist[from..] + [x];
    DeliveredStep(hist[from..], x);
  }

  lemma LeavesHistory<S>(w: World<S>, s: Sys<S>, step: Step, o: Owner)
    requires Enabled(w, s, step) && Actor(step) == Some(o) && !step.Deliver? && !step.Feed?
    requires o in s.runs && o in Apply(w, s, step).runs && Started(s.runs[o])
    ensures Apply(w, s, step).runs[o].hist == s.runs[o].hist && Apply(w, s, step).runs[o].pending == s.runs[o].pending
  {
  }

  /**
    A call is in flight in a run exactly when that run issued it, so a run
    issues no call twice and is answered no other.
  */
  lemma {:induction false} InFlightIffIssued<S>(
      w: World<S>, states: seq<Sys<S>>, steps: seq<Step>, j: nat, o: Owner, call: Call)
    requires IsTrace(w, states, steps) && j < |states| && o in states[j].runs
    ensures call in states[j].runs[o].inflight <==> exists i :: 0 <= i < j && steps[i] == Issue(o, call)
    ensures j < |steps| && steps[j] == Issue(o, call) ==> forall i :: 0 <= i < j ==> steps[i] != Issue(o, call)
    ensures j < |steps| && steps[j].Feed? && steps[j].owner == o && steps[j].input.Answered? &&
            steps[j].input.call == call ==>
              exists i :: 0 <= i < j && steps[i] == Issue(o, call)
    decreases j
  {
    InFlightAlong(w, states, steps, j, o, call);
    assert j < |steps| ==> Taken(w, states, steps, j);
  }

  lemma {:induction false} InFlightAlong<S>(
      w: World<S>, states: seq<Sys<S>>, steps: seq<Step>, j: nat, o: Owner, call: Call)
    requires IsTrace(w, states, steps) && j < |states| && o in states[j].runs
    ensures call in states[j].runs[o].inflight <==> exists i :: 0 <= i < j && steps[i] == Issue(o, call)
    decreases j
  {
    if j > 0 {
      assert Taken(w, states, steps, j - 1);
      if o in states[j - 1].runs {
        InFlightAlong(w, states, steps, j - 1, o, call);
        InFlightTaken(w, states, steps, j - 1, o, call);
      } else {
        NoNewRuns(w, states[j - 1], steps[j - 1], o);
        NothingBeforeClaim(w, states, steps, j, o);
      }
    }
  }

  lemma {:induction false} InFlightTaken<S>(
      w: World<S>, states: seq<Sys<S>>, steps: seq<Step>, j: nat, o: Owner, call: Call)
    requires IsTrace(w, states, steps) && j < |steps| && o in states[j].runs && o in states[j + 1].runs
    ensures call in states[j + 1].runs[o].inflight <==> call in states[j].runs[o].inflight || steps[j] == Issue(o, call)
  {
    assert Taken(w, states, steps, j);
    InvAlong(w, states, steps, j);
    InFlightStep(w, states[j], steps[j], o, call);
  }

  lemma InFlightStep<S>(w: World<S>, s: Sys<S>, step: Step, o: Owner, call: Call)
    requires RunsOk(w, s) && Enabled(w, s, step) && o in s.runs && o in Apply(w, s, step).runs && o < s.claims
    ensures call in Apply(w, s, step).runs[o].inflight <==> call in s.runs[o].inflight || step == Issue(o, call)
  {
    if Actor(step) != Some(o) {
      OtherRuns(w, s, step, o);
    } else {
      OwnFlight(w, s, step, o, call);
    }
  }

  lemma OwnFlight<S>(w: World<S>, s: Sys<S>, step: Step, o: Owner, call: Call)
    requires Enabled(w, s, step) && Actor(step) == Some(o) && o in s.runs && o in Apply(w, s, step).runs
    ensures call in Apply(w, s, step).runs[o].inflight <==> call in s.runs[o].inflight || step == Issue(o, call)
  {
  }
}
