/** What the protocol promises, over every trace of every interleaving. */
module Theorems {
  import opened Base
  import opened Engine
  import opened Instance
  import opened Protocol
  import opened Invariant

  // ---------------------------------------------------------------- one history

  lemma {:induction false} SavedGrows<S>(w: World<S>, states: seq<Sys<S>>, steps: seq<Step>, i: nat, j: nat)
    requires IsTrace(w, states, steps) && i <= j < |states|
    ensures states[i].saved <= states[j].saved && states[i].origin == states[j].origin
    ensures states[i].claims <= states[j].claims
    decreases j
  {
    if i < j {
      SavedGrows(w, states, steps, i, j - 1);
      InvAlong(w, states, steps, j - 1);
      assert Taken(w, states, steps, j - 1);
      GrowthStep(w, states[j - 1], steps[j - 1]);
    }
  }

  lemma {:induction false} GrowthStep<S>(w: World<S>, s: Sys<S>, step: Step)
    requires Inv(w, s) && Enabled(w, s, step)
    ensures s.saved <= Apply(w, s, step).saved && s.origin == Apply(w, s, step).origin &&
            s.claims <= Apply(w, s, step).claims
  {
    SavedStep(w, s, step);
    OriginKept(w, s, step);
  }

  /**
    The saved state is always the replay of one history that starts with the
    start variables and only ever gets longer. So are the saved variables.
  */
  lemma {:induction false} HistoryNeverForks<S>(w: World<S>, states: seq<Sys<S>>, steps: seq<Step>, i: nat, j: nat)
    requires IsTrace(w, states, steps) && i <= j < |states|
    ensures states[i].saved <= states[j].saved
    ensures states[j].saved != [] ==> states[j].saved[0] == Begin(states[0].origin)
    ensures states[j].db.row.variables ==
            if states[j].saved == [] then states[0].origin else w.engine.vars(Replay(w.engine, states[j].saved))
    ensures states[j].db.row.status != Completed ==>
              states[j].db.row.state == if states[j].saved == [] then None else Some(Replay(w.engine, states[j].saved))
  {
    SavedGrows(w, states, steps, i, j);
    SavedGrows(w, states, steps, 0, j);
    InvAlong(w, states, steps, j);
  }

  lemma StaysLost<S>(w: World<S>, s: Sys<S>, step: Step, o: Owner)
    requires Enabled(w, s, step) && o < s.claims && !Holds(s.db, o)
    ensures !Holds(Apply(w, s, step).db, o)
  {
  }

  /** A run that does not hold the row never gets to hold it again. */
  lemma {:induction false} LostForGood<S>(w: World<S>, states: seq<Sys<S>>, steps: seq<Step>, o: Owner, i: nat, j: nat)
    requires IsTrace(w, states, steps) && i <= j < |states|
    requires o < states[i].claims && !Holds(states[i].db, o)
    ensures !Holds(states[j].db, o) && o < states[j].claims
    decreases j
  {
    if i < j {
      LostForGood(w, states, steps, o, i, j - 1);
      assert Taken(w, states, steps, j - 1);
      OriginKept(w, states[j - 1], steps[j - 1]);
      StaysLost(w, states[j - 1], steps[j - 1], o);
    }
  }

  /** A run whose row was reclaimed or released commits nothing: no state, no deleted signal, no outcome. */
  lemma {:induction false} StaleRunCommitsNothing<S>(
      w: World<S>, states: seq<Sys<S>>, steps: seq<Step>, o: Owner, i: nat, j: nat)
    requires IsTrace(w, states, steps) && i <= j < |steps|
    requires o < states[i].claims && !Holds(states[i].db, o) && Actor(steps[j]) == Some(o)
    ensures states[j + 1].db == states[j].db
    ensures states[j + 1].saved == states[j].saved
  {
    LostForGood(w, states, steps, o, i, j);
    assert Taken(w, states, steps, j);
  }

  /** A release is written exactly when the run still holds the row; it then lets go of it. */
  lemma ReleaseCommitsIffHeld<S>(w: World<S>, s: Sys<S>, o: Owner, t: Time)
    requires Inv(w, s) && Enabled(w, s, Release(o, t))
    ensures Apply(w, s, Release(o, t)).db != s.db <==> Holds(s.db, o)
    ensures !Holds(Apply(w, s, Release(o, t)).db, o)
    ensures Holds(s.db, o) && s.runs[o].phase.Closed? && s.runs[o].phase.outcome.Parks? ==>
              Apply(w, s, Release(o, t)).saved == s.runs[o].hist
  {
    if Holds(s.db, o) {
      assert Apply(w, s, Release(o, t)).db.row.lockedBy.None?;
    }
  }

  // ---------------------------------------------------------------- signals

  ghost predicate AcceptedOk<S>(s: Sys<S>)
  {
    && InIdOrder(s.accepted)
    && (forall x :: x in s.accepted ==> x.id < s.nextSignal)
    && Delivered(s.saved) <= s.accepted
    && forall o :: o in s.runs && Holds(s.db, o) && Started(s.runs[o]) ==>
         Delivered(s.runs[o].hist) + s.runs[o].pending <= s.accepted
  }

  lemma HolderAhead<S>(w: World<S>, s: Sys<S>, o: Owner)
    requires Inv(w, s) && Open(s) && o in s.runs && Holds(s.db, o) && Started(s.runs[o])
    ensures Delivered(s.runs[o].hist) + s.runs[o].pending <= s.accepted
  {
    var run := s.runs[o];
    assert InboxAhead(s, run);
    DeliveredSince(s.saved, run.hist);
    var d, since := Delivered(s.saved), Delivered(run.hist[|s.saved|..]);
    CutHead(since, run.pending, s.db.inbox);
    assert s.accepted == d + s.db.inbox;
    assert d + (since + run.pending) <= d + s.db.inbox;
    Regroup(d, since, run.pending);
  }

  lemma {:induction false} AcceptedStep<S>(w: World<S>, s: Sys<S>, step: Step)
    requires Inv(w, s) && AcceptedOk(s) && Enabled(w, s, step)
    ensures AcceptedOk(Apply(w, s, step))
  {
    var s' := Apply(w, s, step);
    InvStep(w, s, step);
    AcceptedIds(w, s, step);
    SavedPrefix(w, s, step);
    forall o | o in s'.runs && Holds(s'.db, o) && Started(s'.runs[o])
      ensures Delivered(s'.runs[o].hist) + s'.runs[o].pending <= s'.accepted
    {
      if Open(s') {
        HolderAhead(w, s', o);
      } else {
        assert RowOk(s'.db) && CancelOk(s') && InFlight(s');
        assert false;
      }
    }
  }

  lemma AcceptedIds<S>(w: World<S>, s: Sys<S>, step: Step)
    requires AcceptedOk(s) && Enabled(w, s, step)
    ensures InIdOrder(Apply(w, s, step).accepted)
    ensures forall x :: x in Apply(w, s, step).accepted ==> x.id < Apply(w, s, step).nextSignal
    ensures s.accepted <= Apply(w, s, step).accepted
  {
  }

  lemma {:induction false} SavedPrefix<S>(w: World<S>, s: Sys<S>, step: Step)
    requires Inv(w, s) && AcceptedOk(s) && Enabled(w, s, step) && s.accepted <= Apply(w, s, step).accepted
    ensures Delivered(Apply(w, s, step).saved) <= Apply(w, s, step).accepted
  {
    var saved := Apply(w, s, step).saved;
    if saved != s.saved {
      WhoSaved(w, s, step);
      var run := s.runs[step.owner];
      assert Delivered(run.hist) + run.pending <= s.accepted;
      CutHead(Delivered(run.hist), run.pending, s.accepted);
      if step.WriteSnapshot? {
        FirstSnapshotPrefix(w, s.saved, run);
      }
    }
  }

  /** What is saved changes only by a write of the holder, to its oldest snapshot or to where it stands. */
  lemma WhoSaved<S>(w: World<S>, s: Sys<S>, step: Step)
    requires RunsOk(w, s) && HolderOk(w, s) && Enabled(w, s, step) && Apply(w, s, step).saved != s.saved
    ensures Saves(step) && Holds(s.db, step.owner) && step.owner in s.runs && Started(s.runs[step.owner])
    ensures var run := s.runs[step.owner];
            && QueueOk(w, s.saved, run.saving, run.hist, run.consumed)
            && (step.WriteSnapshot? ==> run.saving != [] && Apply(w, s, step).saved == run.saving[0].hist)
            && (step.Release? ==> Apply(w, s, step).saved == run.hist)
  {
    assert step.WriteSnapshot? || step.Release?;
    var run := s.runs[step.owner];
    assert Holds(s.db, step.owner);
    assert RunOk(w, s, run) && HolderRunOk(w, s, run);
  }

  lemma {:induction false} FirstSnapshotPrefix<S>(w: World<S>, saved: History, run: Run<S>)
    requires run.saving != [] && QueueOk(w, saved, run.saving, run.hist, run.consumed)
    ensures Delivered(run.saving[0].hist) <= Delivered(run.hist)
  {
    var first := run.saving[0];
    QueueSpans(w, first.hist, run.saving[1..], run.hist, run.consumed);
    DeliveredSince(first.hist, run.hist);
  }

  lemma {:induction false} AcceptedAlong<S>(w: World<S>, states: seq<Sys<S>>, steps: seq<Step>, i: nat)
    requires IsTrace(w, states, steps) && i < |states|
    ensures AcceptedOk(states[i])
  {
    if i > 0 {
      AcceptedAlong(w, states, steps, i - 1);
      InvAlong(w, states, steps, i - 1);
      assert Taken(w, states, steps, i - 1);
      AcceptedStep(w, states[i - 1], steps[i - 1]);
    }
  }

  /**
    No signal is ever folded into saved state twice or out of order, and until
    the instance is finished for good (or let go with a cancel pending) none is
    missing: accepted signals are those saved, then those in the inbox.
  */
  lemma {:induction false} SignalsExactlyOnceInOrder<S>(w: World<S>, states: seq<Sys<S>>, steps: seq<Step>, i: nat)
    requires IsTrace(w, states, steps) && i < |states|
    ensures InIdOrder(states[i].accepted) && Delivered(states[i].saved) <= states[i].accepted
    ensures states[i].db.row.cancelRequestedAt.None? && states[i].db.row.status != Completed ==>
              states[i].accepted == Delivered(states[i].saved) + states[i].db.inbox
    ensures Open(states[i]) ==> states[i].accepted == Delivered(states[i].saved) + states[i].db.inbox
  {
    InvAlong(w, states, steps, i);
    AcceptedAlong(w, states, steps, i);
  }

  // ---------------------------------------------------------------- service calls

  lemma ClaimRemembered<S>(w: World<S>, s: Sys<S>, step: Step, o: Owner)
    requires Enabled(w, s, step) && o in s.runs && o in Apply(w, s, step).runs && o < s.claims
    ensures Apply(w, s, step).runs[o].savedAtClaim == s.runs[o].savedAtClaim
  {
    if Actor(step) != Some(o) {
      OtherRuns(w, s, step, o);
    }
  }

  /** A run claimed after state `i` starts from at least what was saved there. */
  lemma {:induction false} ClaimedLater<S>(w: World<S>, states: seq<Sys<S>>, steps: seq<Step>, i: nat, j: nat, o: Owner)
    requires IsTrace(w, states, steps) && i <= j < |states|
    requires o in states[j].runs && states[i].claims <= o
    ensures states[i].saved <= states[j].runs[o].savedAtClaim
    decreases j
  {
    if i == j {
      InvAlong(w, states, steps, i);
    } else {
      ClaimAlong(w, states, steps, j, o);
      if o in states[j - 1].runs {
        ClaimedLater(w, states, steps, i, j - 1, o);
      } else {
        SavedGrows(w, states, steps, i, j - 1);
      }
    }
  }

  lemma {:induction false} ClaimAlong<S>(w: World<S>, states: seq<Sys<S>>, steps: seq<Step>, j: nat, o: Owner)
    requires IsTrace(w, states, steps) && 0 < j < |states| && o in states[j].runs
    ensures states[j].runs[o].savedAtClaim ==
            if o in states[j - 1].runs then states[j - 1].runs[o].savedAtClaim else states[j - 1].saved
  {
    assert Taken(w, states, steps, j - 1);
    if o in states[j - 1].runs {
      InvAlong(w, states, steps, j - 1);
      ClaimRemembered(w, states[j - 1], steps[j - 1], o);
    } else {
      NoNewRuns(w, states[j - 1], steps[j - 1], o);
    }
  }

  /** At step `k` the run reads a row it has already lost, and which another run has completed. */
  predicate ReadsCompleted<S>(states: seq<Sys<S>>, steps: seq<Step>, k: nat, o: Owner)
    requires k < |steps| < |states|
  {
    && steps[k] == ReadRow(o) && !Holds(states[k].db, o)
    && states[k].db.row.status == Completed && states[k].db.row.cancelRequestedAt.None?
  }

  /**
    Once a call's result is saved, the run holding the row never issues that
    call. No run claimed later does either, unless it has read the row only
    once it had lost it and another run had completed it: then it starts from
    scratch (`RestartedRunIssues`), although nothing it does is saved.
  */
  lemma {:induction false} SavedCallsNeverRepeat<S>(
      w: World<S>, states: seq<Sys<S>>, steps: seq<Step>, i: nat, j: nat, o: Owner, call: Call)
    requires IsTrace(w, states, steps) && i <= j < |steps| && Remembers(w.engine)
    requires steps[j] == Issue(o, call) && call in Answers(states[i].saved)
    ensures !Holds(states[j].db, o)
    ensures states[i].claims <= o ==>
              && o in states[j].runs && states[j].runs[o].restarted
              && exists k :: 0 <= k < j && ReadsCompleted(states, steps, k, o)
  {
    assert Taken(w, states, steps, j);
    RestartedIffReadCompleted(w, states, steps, j, o);
    var s := states[j];
    var run := s.runs[o];
    InvAlong(w, states, steps, j);
    assert RunOk(w, s, run) && Driven(w, run);
    SavedGrows(w, states, steps, i, j);
    AnswersGrow(states[i].saved, run.hist);
    if Holds(s.db, o) {
      assert HolderRunOk(w, s, run);
      QueueSpans(w, s.saved, run.saving, run.hist, run.consumed);
    }
    if states[i].claims <= o {
      ClaimedLater(w, states, steps, i, j, o);
    }
  }

  lemma RestartStep<S>(w: World<S>, s: Sys<S>, step: Step, o: Owner)
    requires RunsOk(w, s) && Enabled(w, s, step) && o in s.runs && o in Apply(w, s, step).runs
    ensures Apply(w, s, step).runs[o].restarted <==>
              || s.runs[o].restarted
              || (step == ReadRow(o) && s.db.row.status == Completed && s.db.row.cancelRequestedAt.None?)
  {
    assert RunOk(w, s, s.runs[o]);
    if Actor(step) != Some(o) {
      OtherRuns(w, s, step, o);
    } else if step != ReadRow(o) {
      OnlyReadingRestarts(w, s, step, o);
    }
  }

  lemma OnlyReadingRestarts<S>(w: World<S>, s: Sys<S>, step: Step, o: Owner)
    requires Enabled(w, s, step) && Actor(step) == Some(o) && step != ReadRow(o) && o in s.runs &&
             o in Apply(w, s, step).runs
    ensures Apply(w, s, step).runs[o].restarted == s.runs[o].restarted
  {
  }

  lemma {:induction false} ReadBeforeClaimed<S>(
      w: World<S>, states: seq<Sys<S>>, steps: seq<Step>, k: nat, j: nat, o: Owner)
    requires IsTrace(w, states, steps) && k <= j < |states| && k < |steps| && steps[k] == ReadRow(o)
    ensures o < states[j].claims
  {
    InvAlong(w, states, steps, k);
    assert Taken(w, states, steps, k);
    SavedGrows(w, states, steps, k, j);
  }

  /** A run starts from scratch if and only if it once read the row lost and completed. */
  lemma {:induction false} RestartedIffReadCompleted<S>(
      w: World<S>, states: seq<Sys<S>>, steps: seq<Step>, j: nat, o: Owner)
    requires IsTrace(w, states, steps) && j < |states| && o in states[j].runs
    ensures states[j].runs[o].restarted <==> exists k :: 0 <= k < j && ReadsCompleted(states, steps, k, o)
    decreases j
  {
    if j > 0 {
      RestartedAlong(w, states, steps, j, o);
      if o in states[j - 1].runs {
        RestartedIffReadCompleted(w, states, steps, j - 1, o);
      } else {
        NotReadBeforeClaim(w, states, steps, j, o);
      }
    }
  }

  lemma {:induction false} RestartedAlong<S>(w: World<S>, states: seq<Sys<S>>, steps: seq<Step>, j: nat, o: Owner)
    requires IsTrace(w, states, steps) && 0 < j < |states| && o in states[j].runs
    ensures o in states[j - 1].runs ==>
              (states[j].runs[o].restarted <==>
                 states[j - 1].runs[o].restarted || ReadsCompleted(states, steps, j - 1, o))
    ensures o !in states[j - 1].runs ==>
              !states[j].runs[o].restarted && steps[j - 1].Claim? && o == states[j - 1].claims
  {
    assert Taken(w, states, steps, j - 1);
    if o in states[j - 1].runs {
      InvAlong(w, states, steps, j - 1);
      RestartStep(w, states[j - 1], steps[j - 1], o);
      CompletedIsUnheld(w, states, steps, j - 1, o);
    } else {
      NoNewRuns(w, states[j - 1], steps[j - 1], o);
    }
  }

  lemma {:induction false} NotReadBeforeClaim<S>(
      w: World<S>, states: seq<Sys<S>>, steps: seq<Step>, j: nat, o: Owner)
    requires IsTrace(w, states, steps) && 0 < j < |states| && steps[j - 1].Claim? && o == states[j - 1].claims
    ensures forall k :: 0 <= k < j ==> !ReadsCompleted(states, steps, k, o)
  {
    forall k | 0 <= k < j ensures !ReadsCompleted(states, steps, k, o) {
      if steps[k] == ReadRow(o) {
        ReadBeforeClaimed(w, states, steps, k, j - 1, o);
      }
    }
  }

  lemma {:induction false} CompletedIsUnheld<S>(w: World<S>, states: seq<Sys<S>>, steps: seq<Step>, k: nat, o: Owner)
    requires IsTrace(w, states, steps) && k < |steps|
    ensures ReadsCompleted(states, steps, k, o) <==>
              steps[k] == ReadRow(o) && states[k].db.row.status == Completed && states[k].db.row.cancelRequestedAt.None?
  {
    InvAlong(w, states, steps, k);
    assert RowOk(states[k].db);
  }

  /** A run that has read the row and not yet the inbox holds what the row said then, and no cancel was pending. */
  lemma {:induction false} OpenedByRead<S>(w: World<S>, states: seq<Sys<S>>, steps: seq<Step>, j: nat, o: Owner)
    returns (k: nat)
    requires IsTrace(w, states, steps) && j < |states| && o in states[j].runs && states[j].runs[o].phase.Opened?
    ensures k < j && steps[k] == ReadRow(o) && states[k].db.row.cancelRequestedAt.None?
    ensures states[j].runs[o].base == states[k].db.row.state &&
            states[j].runs[o].variables == states[k].db.row.variables
    ensures states[j].runs[o].restarted == (states[k].db.row.status == Completed)
    decreases j
  {
    var s, step := states[j - 1], steps[j - 1];
    InvAlong(w, states, steps, j - 1);
    assert Taken(w, states, steps, j - 1);
    OpenedStep(w, s, step, o);
    if o in s.runs && s.runs[o].phase.Opened? {
      k := OpenedByRead(w, states, steps, j - 1, o);
    } else {
      k := j - 1;
    }
  }

  lemma OpenedStep<S>(w: World<S>, s: Sys<S>, step: Step, o: Owner)
    requires RunsOk(w, s) && Enabled(w, s, step) && o in Apply(w, s, step).runs &&
             Apply(w, s, step).runs[o].phase.Opened?
    ensures o in s.runs
    ensures s.runs[o].phase.Opened? ==> Apply(w, s, step).runs[o] == s.runs[o]
    ensures !s.runs[o].phase.Opened? ==>
              && step == ReadRow(o) && s.db.row.cancelRequestedAt.None?
              && Apply(w, s, step).runs[o] == OpenRun(s.runs[o], s.db.row, s.saved)
  {
    assert o in s.runs by {
      if o !in s.runs {
        NoNewRuns(w, s, step, o);
      }
    }
    assert RunOk(w, s, s.runs[o]);
    if Actor(step) != Some(o) {
      OtherRuns(w, s, step, o);
    }
  }

  /**
    What a run started from scratch asks for: once it reads the inbox, it can
    issue exactly the calls of a fresh engine given the completed row's
    variables, whatever answers were saved before.
  */
  lemma {:induction false} RestartedRunIssues<S>(
      w: World<S>, states: seq<Sys<S>>, steps: seq<Step>, j: nat, o: Owner, t: Time, call: Call) returns (k: nat)
    requires IsTrace(w, states, steps) && j < |steps| && steps[j] == ReadInbox(o, t)
    requires o in states[j].runs && states[j].runs[o].restarted
    ensures k < j && ReadsCompleted(states, steps, k, o)
    ensures Enabled(w, states[j + 1], Issue(o, call)) <==>
            call in w.engine.wants(w.engine.begin(states[k].db.row.variables))
  {
    InvAlong(w, states, steps, j);
    assert Taken(w, states, steps, j) && RunOk(w, states[j], states[j].runs[o]);
    k := OpenedByRead(w, states, steps, j, o);
    CompletedIsUnheld(w, states, steps, k, o);
    InvAlong(w, states, steps, k);
    assert RowOk(states[k].db);
    StartedIssues(w, states[j], o, t, call);
  }

  lemma StartedIssues<S>(w: World<S>, s: Sys<S>, o: Owner, t: Time, call: Call)
    requires Enabled(w, s, ReadInbox(o, t)) && Idle(s.runs[o])
    ensures var run := s.runs[o];
            Enabled(w, Apply(w, s, ReadInbox(o, t)), Issue(o, call)) <==>
            call in w.engine.wants(match run.base
                                   case None => w.engine.begin(run.variables)
                                   case Some(state) => w.engine.step(state, Resumed(t)))
  {
  }

  /**
    While a run's engine goes on, it can issue exactly the calls the engine asks
    for after all the run has been through, except those in flight. That is at
    least what was saved: for the holder all of it, for any run that was not
    started from scratch what was saved when it was claimed.
  */
  lemma {:induction false} RunIssues<S>(w: World<S>, s: Sys<S>, o: Owner, call: Call)
    requires RunsOk(w, s) && HolderOk(w, s) && o in s.runs && EngineRunning(s.runs[o])
    ensures var run := s.runs[o];
            && run.hist != [] && run.hist[0].Begin?
            && (Enabled(w, s, Issue(o, call)) <==>
                  call in w.engine.wants(Replay(w.engine, run.hist)) && call !in run.inflight)
    ensures !s.runs[o].restarted ==> s.runs[o].savedAtClaim <= s.runs[o].hist
    ensures Holds(s.db, o) ==> s.saved <= s.runs[o].hist && s.runs[o].hist[0] == Begin(s.origin)
  {
    var run := s.runs[o];
    assert RunOk(w, s, run) && Driven(w, run);
    if Holds(s.db, o) {
      assert HolderRunOk(w, s, run);
      QueueSpans(w, s.saved, run.saving, run.hist, run.consumed);
    }
  }

  /** What a run started from scratch has been through begins with the completed row's variables, however far it got. */
  lemma {:induction false} RestartedRunBegins<S>(w: World<S>, states: seq<Sys<S>>, steps: seq<Step>, j: nat, o: Owner)
    returns (k: nat)
    requires IsTrace(w, states, steps) && j < |states| && o in states[j].runs
    requires Started(states[j].runs[o]) && states[j].runs[o].restarted
    ensures k < j && ReadsCompleted(states, steps, k, o)
    ensures states[j].runs[o].hist != [] && states[j].runs[o].hist[0] == Begin(states[k].db.row.variables)
    decreases j
  {
    StartedAlong(w, states, steps, j, o);
    if Started(states[j - 1].runs[o]) {
      k := RestartedRunBegins(w, states, steps, j - 1, o);
    } else {
      k := OpenedByRead(w, states, steps, j - 1, o);
      CompletedIsUnheld(w, states, steps, k, o);
      RowOkAlong(w, states, steps, k);
    }
  }

  lemma {:induction false} StartedAlong<S>(w: World<S>, states: seq<Sys<S>>, steps: seq<Step>, j: nat, o: Owner)
    requires IsTrace(w, states, steps) && j < |states| && o in states[j].runs && Started(states[j].runs[o])
    ensures j > 0 && o in states[j - 1].runs && states[j - 1].runs[o].restarted == states[j].runs[o].restarted
    ensures Started(states[j - 1].runs[o]) ==>
              && states[j - 1].runs[o].hist != [] && states[j].runs[o].hist != []
              && states[j].runs[o].hist[0] == states[j - 1].runs[o].hist[0]
    ensures !Started(states[j - 1].runs[o]) ==>
              && states[j - 1].runs[o].phase.Opened?
              && (states[j - 1].runs[o].base.None? ==>
                    states[j].runs[o].hist == [Begin(states[j - 1].runs[o].variables)])
  {
    assert j > 0;
    assert Taken(w, states, steps, j - 1);
    InvAlong(w, states, steps, j - 1);
    StartedStep(w, states[j - 1], steps[j - 1], o);
  }

  lemma StartedStep<S>(w: World<S>, s: Sys<S>, step: Step, o: Owner)
    requires RunsOk(w, s) && Enabled(w, s, step) && o in Apply(w, s, step).runs && Started(Apply(w, s, step).runs[o])
    ensures o in s.runs && s.runs[o].restarted == Apply(w, s, step).runs[o].restarted
    ensures Started(s.runs[o]) ==> s.runs[o].hist != [] && s.runs[o].hist <= Apply(w, s, step).runs[o].hist
    ensures !Started(s.runs[o]) ==>
              && s.runs[o].phase.Opened?
              && (s.runs[o].base.None? ==> Apply(w, s, step).runs[o].hist == [Begin(s.runs[o].variables)])
  {
    assert o in s.runs by {
      if o !in s.runs {
        NoNewRuns(w, s, step, o);
      }
    }
    assert RunOk(w, s, s.runs[o]);
    if Actor(step) != Some(o) {
      OtherRuns(w, s, step, o);
    }
  }

  /**
    Which calls a claim repeats: once the new run has read row and inbox, it can
    issue exactly the calls its engine asks for when resumed from the last save,
    issued before or not.
  */
  lemma {:induction false} ClaimedRunIssues<S>(w: World<S>, s: Sys<S>, t: Time, call: Call)
    requires Inv(w, s) && Active(s.db.row.status) && s.db.row.cancelRequestedAt.None? && Enabled(w, s, Claim(t))
    ensures var claimed := Apply(w, s, Claim(t));
            && Enabled(w, claimed, ReadRow(s.claims))
            && var ready := Apply(w, claimed, ReadRow(s.claims));
            && Enabled(w, ready, ReadInbox(s.claims, t))
            && (Enabled(w, Apply(w, ready, ReadInbox(s.claims, t)), Issue(s.claims, call)) <==>
                  call in w.engine.wants(if s.saved == [] then w.engine.begin(s.origin)
                                         else w.engine.step(Replay(w.engine, s.saved), Resumed(t))))
  {
    ClaimedRunOpens(w, s, t);
    StartedIssues(w, Apply(w, Apply(w, s, Claim(t)), ReadRow(s.claims)), s.claims, t, call);
  }

  lemma ClaimedRunOpens<S>(w: World<S>, s: Sys<S>, t: Time)
    requires SavedOk(w, s) && Active(s.db.row.status) && s.db.row.cancelRequestedAt.None? && Enabled(w, s, Claim(t))
    ensures var claimed := Apply(w, s, Claim(t));
            && Enabled(w, claimed, ReadRow(s.claims))
            && var ready := Apply(w, claimed, ReadRow(s.claims));
            && Enabled(w, ready, ReadInbox(s.claims, t)) && Idle(ready.runs[s.claims])
            && ready.runs[s.claims].base == StateAfter(w, s.saved)
            && ready.runs[s.claims].variables == VarsAfter(w, s.origin, s.saved)
  {
  }

  // ---------------------------------------------------------------- nobody is stranded

  /** Work left to do always has a wake-up time that has come. */
  lemma {:induction false} NobodyStranded<S>(w: World<S>, states: seq<Sys<S>>, steps: seq<Step>, i: nat)
    requires IsTrace(w, states, steps) && i < |states| && Active(states[i].db.row.status)
    requires || states[i].db.inbox != [] || states[i].db.row.cancelRequestedAt.Some? || states[i].db.row.lockedBy.Some?
             || states[i].db.row.status == Pending
    ensures states[i].db.row.runnableAt.Some? && states[i].db.row.runnableAt.value <= states[i].now
  {
    InvAlong(w, states, steps, i);
  }

  /** So wherever a run crashes, the next worker can claim the row as soon as the lease has lapsed. */
  lemma {:induction false} CrashedRunIsReclaimed<S>(
      w: World<S>, states: seq<Sys<S>>, steps: seq<Step>, i: nat, o: Owner, t: Time)
    requires IsTrace(w, states, steps) && i < |states| && Holds(states[i].db, o) && o in states[i].runs
    requires states[i].now <= t && (states[i].db.row.lockedUntil.Some? ==> states[i].db.row.lockedUntil.value < t)
    ensures Enabled(w, states[i], Crash(o))
    ensures var crashed := Apply(w, states[i], Crash(o));
            Enabled(w, crashed, Tick(t)) && Enabled(w, Apply(w, crashed, Tick(t)), Claim(t))
  {
    InvAlong(w, states, steps, i);
  }

  /** Nobody holds the row, and it is due by the timer at the latest. */
  predicate Parked<S>(s: Sys<S>, due: Time)
  {
    && s.db.row.status == Running && s.db.row.lockedBy.None? && s.db.row.lockedUntil.None?
    && s.db.row.runnableAt.Some? && (s.db.row.runnableAt.value <= due || s.db.row.runnableAt.value <= s.now)
  }

  lemma ParkedByRelease<S>(w: World<S>, s: Sys<S>, o: Owner, t: Time, due: Time)
    requires Enabled(w, s, Release(o, t)) && Holds(s.db, o) && s.runs[o].phase.Closed?
    requires s.runs[o].phase.outcome.Parks? && s.runs[o].phase.outcome.wakeAt == Some(due)
    ensures Parked(Apply(w, s, Release(o, t)), due)
  {
  }

  lemma StaysParked<S>(w: World<S>, s: Sys<S>, step: Step, due: Time)
    requires Enabled(w, s, step) && Parked(s, due) && !step.Claim?
    ensures Parked(Apply(w, s, step), due)
  {
  }

  /** The step is a park of the holder, to be woken at `due`. */
  predicate ParksUntil<S>(s: Sys<S>, step: Step, due: Time)
  {
    && step.Release? && step.owner in s.runs && Holds(s.db, step.owner) && s.runs[step.owner].phase.Closed?
    && s.runs[step.owner].phase.outcome.Parks? && s.runs[step.owner].phase.outcome.wakeAt == Some(due)
  }

  /**
    A run that parks on a timer is picked up: whatever happens before the next
    claim, one can be made once the timer is due.
  */
  lemma {:induction false} TimerWakes<S>(
      w: World<S>, states: seq<Sys<S>>, steps: seq<Step>, i: nat, j: nat, due: Time, t: Time)
    requires IsTrace(w, states, steps) && i < j < |states|
    requires ParksUntil(states[i], steps[i], due) && forall k :: i < k < j ==> !steps[k].Claim?
    requires states[j].now <= t && due <= t
    ensures Enabled(w, states[j], Tick(t)) && Enabled(w, Apply(w, states[j], Tick(t)), Claim(t))
  {
    ParkedAlong(w, states, steps, i, j, due);
  }

  lemma {:induction false} ParkedAlong<S>(w: World<S>, states: seq<Sys<S>>, steps: seq<Step>, i: nat, j: nat, due: Time)
    requires IsTrace(w, states, steps) && i < j < |states|
    requires ParksUntil(states[i], steps[i], due) && forall k :: i < k < j ==> !steps[k].Claim?
    ensures Parked(states[j], due)
    decreases j
  {
    assert Taken(w, states, steps, j - 1);
    if i == j - 1 {
      ParkedByRelease(w, states[i], steps[i].owner, steps[i].t, due);
    } else {
      ParkedAlong(w, states, steps, i, j - 1, due);
      StaysParked(w, states[j - 1], steps[j - 1], due);
    }
  }

  // ---------------------------------------------------------------- cancel

  /** Releases among steps i..j that were written and were not the cancel itself. */
  function LateCommits<S>(states: seq<Sys<S>>, steps: seq<Step>, i: nat, j: nat): (n: nat)
    requires |states| == |steps| + 1 && i <= j < |states|
    decreases j
  {
    if i == j then 0
    else
      LateCommits(states, steps, i, j - 1) + (if LateCommit(states[j - 1], steps[j - 1]) then 1 else 0)
  }

  lemma {:induction false} LateCounts<S>(w: World<S>, states: seq<Sys<S>>, steps: seq<Step>, i: nat, j: nat)
    requires IsTrace(w, states, steps) && i <= j < |states| && states[i].db.row.cancelRequestedAt.Some?
    ensures states[j].late == states[i].late + LateCommits(states, steps, i, j)
    ensures states[j].db.row.cancelRequestedAt == states[i].db.row.cancelRequestedAt
    ensures states[j].db.row.cancelReason == states[i].db.row.cancelReason
    ensures states[j].accepted == states[i].accepted
    decreases j
  {
    if i < j {
      LateCounts(w, states, steps, i, j - 1);
      InvAlong(w, states, steps, j - 1);
      assert Taken(w, states, steps, j - 1);
      CancelKept(w, states[j - 1], steps[j - 1]);
      NoneAccepted(w, states[j - 1], steps[j - 1]);
      LateStep(w, states[j - 1], steps[j - 1]);
    }
  }

  predicate LateCommit<S>(s: Sys<S>, step: Step)
  {
    step.Release? && Holds(s.db, step.owner) && step.owner in s.runs && s.runs[step.owner].phase.Closed?
  }

  lemma LateStep<S>(w: World<S>, s: Sys<S>, step: Step)
    requires RunsOk(w, s) && Enabled(w, s, step) && s.db.row.cancelRequestedAt.Some?
    ensures Apply(w, s, step).late == s.late + (if LateCommit(s, step) then 1 else 0)
  {
    if step.Release? {
      assert RunOk(w, s, s.runs[step.owner]);
    } else {
      OnlyReleasesAreLate(w, s, step);
    }
  }

  lemma OnlyReleasesAreLate<S>(w: World<S>, s: Sys<S>, step: Step)
    requires Enabled(w, s, step) && !step.Release?
    ensures Apply(w, s, step).late == s.late
  {
  }

  lemma NoneAccepted<S>(w: World<S>, s: Sys<S>, step: Step)
    requires Enabled(w, s, step) && s.db.row.cancelRequestedAt.Some?
    ensures Apply(w, s, step).accepted == s.accepted
  {
  }

  /**
    After a cancel request: no signal is accepted any more, no run that reads
    the row from then on starts an engine, and at most one other release (the
    run that had read the row before) is still written.
  */
  lemma {:induction false} CancelIsDecisive<S>(w: World<S>, states: seq<Sys<S>>, steps: seq<Step>, i: nat, j: nat)
    requires IsTrace(w, states, steps) && i <= j < |states| && states[i].db.row.cancelRequestedAt.Some?
    ensures states[j].accepted == states[i].accepted
    ensures LateCommits(states, steps, i, j) <= 1
    ensures j < |steps| && steps[j].ReadRow? ==>
              && steps[j].owner in states[j + 1].runs
              && states[j + 1].runs[steps[j].owner].phase == Stopping(states[i].db.row.cancelReason)
  {
    LateCounts(w, states, steps, i, j);
    InvAlong(w, states, steps, j);
    assert j < |steps| ==> Taken(w, states, steps, j);
  }

  /**
    An engine may still start after the request, but only in a run that had read
    the row before it.
  */
  lemma {:induction false} StartersReadBefore<S>(w: World<S>, states: seq<Sys<S>>, steps: seq<Step>, i: nat, j: nat)
    returns (k: nat)
    requires IsTrace(w, states, steps) && i <= j < |steps| && states[i].db.row.cancelRequestedAt.Some? &&
             steps[j].ReadInbox?
    ensures k < i && steps[k] == ReadRow(steps[j].owner)
  {
    assert Taken(w, states, steps, j);
    k := OpenedByRead(w, states, steps, j, steps[j].owner);
    if i <= k {
      LateCounts(w, states, steps, i, k);
      assert false;
    }
  }

  /**
    The first request stands: its time and reason stay whatever is asked later,
    and the cancel that is logged has that reason.
  */
  lemma {:induction false} FirstReasonStands<S>(w: World<S>, states: seq<Sys<S>>, steps: seq<Step>, i: nat, j: nat)
    requires IsTrace(w, states, steps) && i < j < |states| && steps[i].AskCancel?
    requires Active(states[i].db.row.status) && states[i].db.row.cancelRequestedAt.None?
    ensures states[j].db.row.cancelRequestedAt == Some(steps[i].t) && states[j].db.row.cancelReason == steps[i].reason
    ensures states[j].db.row.status == Canceled ==> CancelEntries(states[j].db.log) == [CancelEntry(steps[i].reason)]
  {
    assert Taken(w, states, steps, i);
    Requested(w, states[i], steps[i].reason, steps[i].t);
    LateCounts(w, states, steps, i + 1, j);
    CanceledExactlyOnce(w, states, steps, j);
  }

  lemma Requested<S>(w: World<S>, s: Sys<S>, reason: Option<string>, t: Time)
    requires Enabled(w, s, AskCancel(reason, t)) && Active(s.db.row.status) && s.db.row.cancelRequestedAt.None?
    ensures var row := Apply(w, s, AskCancel(reason, t)).db.row;
            row.cancelRequestedAt == Some(t) && row.cancelReason == reason
  {
  }

  /** The log has exactly one cancel entry, with the row's reason, once the instance is canceled, and none before. */
  lemma {:induction false} CanceledExactlyOnce<S>(w: World<S>, states: seq<Sys<S>>, steps: seq<Step>, i: nat)
    requires IsTrace(w, states, steps) && i < |states|
    ensures CancelEntries(states[i].db.log) ==
            if states[i].db.row.status == Canceled then [CancelEntry(states[i].db.row.cancelReason)] else []
  {
    InvAlong(w, states, steps, i);
  }

  // ---------------------------------------------------------------- the row through its life

  lemma {:induction false} RowsCohere<S>(w: World<S>, states: seq<Sys<S>>, steps: seq<Step>, i: nat)
    requires IsTrace(w, states, steps) && i < |states|
    ensures var row := states[i].db.row;
            && (row.status == Pending ==> row.state.None?) && (row.status == Running ==> row.state.Some?)
            && (Active(row.status) ==> row.error.None? && row.completedAt.None?)
            && (!Active(row.status) ==> row.lockedBy.None? && row.lockedUntil.None? && row.runnableAt.None?)
            && (row.status == Failed <==> row.error.Some?)
  {
    InvAlong(w, states, steps, i);
  }

  lemma FinishedStep<S>(w: World<S>, s: Sys<S>, step: Step)
    requires RowOk(s.db) && (s.db.row.status == Completed || s.db.row.status == Canceled) && Enabled(w, s, step)
    ensures Apply(w, s, step).db == s.db && Apply(w, s, step).saved == s.saved
  {
  }

  /** A completed or canceled instance never changes again: unheld, unrunnable, its inbox empty. */
  lemma {:induction false} FinishedForGood<S>(w: World<S>, states: seq<Sys<S>>, steps: seq<Step>, i: nat, j: nat)
    requires IsTrace(w, states, steps) && i <= j < |states|
    requires states[i].db.row.status == Completed || states[i].db.row.status == Canceled
    ensures states[j].db == states[i].db && states[j].saved == states[i].saved
    ensures states[j].db.row.lockedBy.None? && states[j].db.row.runnableAt.None? && states[j].db.inbox == []
    decreases j
  {
    InvAlong(w, states, steps, i);
    if i < j {
      FinishedForGood(w, states, steps, i, j - 1);
      assert Taken(w, states, steps, j - 1);
      FinishedStep(w, states[j - 1], steps[j - 1]);
    }
  }

  lemma FailedStep<S>(w: World<S>, s: Sys<S>, step: Step)
    requires RowOk(s.db) && s.db.row.status == Failed && Enabled(w, s, step) && !step.AskRetry?
    ensures var s' := Apply(w, s, step); s'.db == s.db && s'.saved == s.saved && s'.accepted == s.accepted
  {
  }

  lemma {:induction false} FailedStays<S>(w: World<S>, states: seq<Sys<S>>, steps: seq<Step>, i: nat, j: nat)
    requires IsTrace(w, states, steps) && i <= j < |states|
    requires forall k :: i <= k <= j ==> states[k].db.row.status == Failed
    ensures states[j].db == states[i].db && states[j].saved == states[i].saved &&
            states[j].accepted == states[i].accepted
    decreases j
  {
    if i < j {
      FailedStays(w, states, steps, i, j - 1);
      RowOkAlong(w, states, steps, j - 1);
      assert Taken(w, states, steps, j - 1);
      assert states[j - 1].db.row.status == Failed && states[j].db.row.status == Failed;
      assert !steps[j - 1].AskRetry?;
      FailedStep(w, states[j - 1], steps[j - 1]);
    }
  }

  /**
    A run fails at step `i` and the instance is retried at step `j`: status,
    state, variables and inbox are those of the last save, with every signal
    accepted and not saved queued again, and the failure is logged.
  */
  lemma {:induction false} RetryRollsBack<S>(w: World<S>, states: seq<Sys<S>>, steps: seq<Step>, i: nat, j: nat)
    requires IsTrace(w, states, steps) && i < j < |steps|
    requires steps[i].Release? && Active(states[i].db.row.status) && steps[j].AskRetry?
    requires forall k :: i < k <= j ==> states[k].db.row.status == Failed
    ensures var before, after := states[i].db, states[j + 1].db;
            && after.row.status == before.row.status && after.row.state == before.row.state
            && after.row.variables == before.row.variables && after.inbox == before.inbox
            && after.row.error.None? && after.row.completedAt.None? && after.row.runnableAt == Some(steps[j].t)
            && steps[i].owner in states[i].runs
            && states[i].runs[steps[i].owner].phase.Closed? && states[i].runs[steps[i].owner].phase.outcome.Fails?
            && after.log == before.log + [RetryEntry(Some(states[i].runs[steps[i].owner].phase.outcome.error))]
    ensures Open(states[j + 1]) ==>
              states[j + 1].accepted == Delivered(states[j + 1].saved) + states[j + 1].db.inbox
  {
    RowOkAlong(w, states, steps, i);
    SignalsExactlyOnceInOrder(w, states, steps, j + 1);
    assert states[i + 1].db.row.status == Failed && states[j].db.row.status == Failed;
    assert Taken(w, states, steps, i) && Taken(w, states, steps, j);
    FailedRelease(w, states[i], steps[i].owner, steps[i].t);
    FailedStays(w, states, steps, i + 1, j);
    RetriedRow(w, states[j], steps[j].t);
  }

  lemma {:induction false} RowOkAlong<S>(w: World<S>, states: seq<Sys<S>>, steps: seq<Step>, i: nat)
    requires IsTrace(w, states, steps) && i < |states|
    ensures RowOk(states[i].db)
  {
    InvAlong(w, states, steps, i);
  }

  lemma FailedRelease<S>(w: World<S>, s: Sys<S>, o: Owner, t: Time)
    requires RowOk(s.db) && Enabled(w, s, Release(o, t)) && Active(s.db.row.status)
    requires Apply(w, s, Release(o, t)).db.row.status == Failed
    ensures var db := Apply(w, s, Release(o, t)).db;
            && db.row.state == s.db.row.state && db.row.variables == s.db.row.variables && db.inbox == s.db.inbox
            && s.runs[o].phase.Closed? && s.runs[o].phase.outcome.Fails?
            && db.row.error == Some(s.runs[o].phase.outcome.error) && db.log == s.db.log
    ensures s.db.row.status == if s.db.row.state.None? then Pending else Running
  {
  }

  lemma RetriedRow<S>(w: World<S>, s: Sys<S>, t: Time)
    requires Enabled(w, s, AskRetry(t)) && s.db.row.status == Failed
    ensures var after := Apply(w, s, AskRetry(t)).db;
            && after.row.status == (if s.db.row.state.None? then Pending else Running)
            && after.row.state == s.db.row.state && after.row.variables == s.db.row.variables &&
               after.inbox == s.db.inbox
            && after.row.error.None? && after.row.completedAt.None? && after.row.runnableAt == Some(t)
            && after.log == s.db.log + [RetryEntry(s.db.row.error)]
  {
  }

  // ---------------------------------------------------------------- leases in time

  /** The lease always runs `lease` from the holder's last renewal. */
  lemma {:induction false} LeaseFromRenewal<S>(w: World<S>, states: seq<Sys<S>>, steps: seq<Step>, i: nat)
    requires IsTrace(w, states, steps) && i < |states| && states[i].db.row.lockedBy.Some?
    ensures states[i].db.row.lockedUntil == Some(states[i].renewedAt + w.lease)
  {
    if i > 0 {
      if states[i - 1].db.row.lockedBy.Some? {
        LeaseFromRenewal(w, states, steps, i - 1);
      }
      RowOkAlong(w, states, steps, i - 1);
      assert Taken(w, states, steps, i - 1);
      LeaseStep(w, states[i - 1], steps[i - 1]);
    }
  }

  predicate LeaseOk<S>(w: World<S>, s: Sys<S>)
  {
    s.db.row.lockedBy.Some? ==> s.db.row.lockedUntil == Some(s.renewedAt + w.lease)
  }

  lemma LeaseStep<S>(w: World<S>, s: Sys<S>, step: Step)
    requires RowOk(s.db) && LeaseOk(w, s) && Enabled(w, s, step)
    ensures LeaseOk(w, Apply(w, s, step))
  {
  }

  /**
    While the holder never goes longer than the lease without renewing, nobody
    else claims the row before it is released.
  */
  lemma {:induction false} LeaseExcludesOthers<S>(
      w: World<S>, states: seq<Sys<S>>, steps: seq<Step>, o: Owner, i: nat, j: nat)
    requires IsTrace(w, states, steps) && i <= j < |states| && Holds(states[i].db, o)
    requires forall k :: i <= k < j && Holds(states[k].db, o) ==> states[k].now <= states[k].renewedAt + w.lease
    requires forall k :: i <= k < j ==> !(steps[k].Release? && steps[k].owner == o)
    ensures Holds(states[j].db, o)
    ensures forall k :: i <= k < j ==> !steps[k].Claim?
    decreases j
  {
    if i < j {
      LeaseExcludesOthers(w, states, steps, o, i, j - 1);
      LeaseFromRenewal(w, states, steps, j - 1);
      assert Taken(w, states, steps, j - 1);
      HeldStep(w, states[j - 1], steps[j - 1], o);
    }
  }

  lemma HeldStep<S>(w: World<S>, s: Sys<S>, step: Step, o: Owner)
    requires Enabled(w, s, step) && LeaseOk(w, s) && Holds(s.db, o)
    requires s.now <= s.renewedAt + w.lease && !(step.Release? && step.owner == o)
    ensures Holds(Apply(w, s, step).db, o) && !step.Claim?
  {
  }
}
