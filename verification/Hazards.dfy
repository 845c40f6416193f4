/**
  Where the protocol's promises stop: traces and states in which a natural
  stronger reading fails, and the exact condition under which it holds.
*/
module Hazards {
  import opened Base
  import opened Json
  import opened Engine
  import opened Instance
  import opened Protocol
  import opened Invariant
  import opened Theorems

  // ---------------------------------------------------------------- lost checkpoints

  /** The oldest `m` queued snapshots fail to be written although the row is still held. */
  function DropSnapshots<S>(s: Sys<S>, o: Owner, m: nat): Sys<S>
    requires o in s.runs && m <= |s.runs[o].saving|
  {
    var run := s.runs[o];
    var lost := m > 0 && run.finished.None?;
    SetRun(s, o, run.(saving := run.saving[m..],
                      finished := if lost then Some(Fails("write failed")) else run.finished))
  }

  ghost predicate ConsumedNone<S>(saving: seq<Snapshot<S>>)
  {
    forall i :: 0 <= i < |saving| ==> saving[i].consumed == []
  }

  /**
    Checkpoints that fail to be written while the one behind them succeeds
    leave their signals both saved and queued: signals stay exactly-once if and
    only if the lost ones had consumed none.
  */
  lemma {:induction false} LostSavesHarmlessIff<S>(w: World<S>, s: Sys<S>, o: Owner, m: nat)
    requires InboxOk(s) && SignalsOk(s) && Open(s) && o in s.runs && Holds(s.db, o)
    requires Started(s.runs[o]) && HolderRunOk(w, s, s.runs[o]) && m < |s.runs[o].saving|
    ensures var after := ApplyWrite(DropSnapshots(s, o, m), o, o);
            after.accepted == Delivered(after.saved) + after.db.inbox <==> ConsumedNone(s.runs[o].saving[..m])
  {
    var run := s.runs[o];
    assert InboxAhead(s, run);
    var mid := SkippedQueue(w, s.saved, run.saving, run.hist, run.consumed, m);
    var next := run.saving[m];
    NextInQueue(w, mid, run.saving[m..], run.hist, run.consumed);
    SkipsFirst(s.saved, mid, next.hist, run.hist, run.pending, s.db.inbox);
    DroppedThenWritten(s, o, m);
  }

  lemma DroppedThenWritten<S>(s: Sys<S>, o: Owner, m: nat)
    requires o in s.runs && Holds(s.db, o) && m < |s.runs[o].saving|
    ensures var next, after := s.runs[o].saving[m], ApplyWrite(DropSnapshots(s, o, m), o, o);
            && after.saved == next.hist && after.accepted == s.accepted
            && after.db.inbox == Without(s.db.inbox, next.consumed)
  {
  }

  /**
    A park decided before the checkpoints still queued have failed is released
    all the same, and leaves their signals both saved and queued: again signals
    stay exactly-once if and only if they had consumed none.
  */
  lemma {:induction false} LostLastSavesHarmlessIff<S>(w: World<S>, s: Sys<S>, o: Owner, t: Time)
    requires InboxOk(s) && SignalsOk(s) && Open(s) && s.db.row.cancelRequestedAt.None? && o in s.runs && Holds(s.db, o)
    requires HolderRunOk(w, s, s.runs[o]) && s.runs[o].phase.Closed? && s.runs[o].phase.outcome.Parks?
    ensures var after := ApplyRelease(DropSnapshots(s, o, |s.runs[o].saving|), o, o, t);
            after.accepted == Delivered(after.saved) + after.db.inbox <==> ConsumedNone(s.runs[o].saving)
  {
    var run := s.runs[o];
    var m := |run.saving|;
    assert InboxAhead(s, run);
    var mid := SkippedQueue(w, s.saved, run.saving, run.hist, run.consumed, m);
    assert run.saving[..m] == run.saving && run.saving[m..] == [];
    CutHead(Delivered(run.hist[|s.saved|..]), run.pending, s.db.inbox);
    assert Delivered(run.hist[|s.saved|..]) + [] == Delivered(run.hist[|s.saved|..]);
    SkipsFirst(s.saved, mid, run.hist, run.hist, [], s.db.inbox);
    DroppedThenParked(s, o, t);
  }

  lemma DroppedThenParked<S>(s: Sys<S>, o: Owner, t: Time)
    requires s.db.row.cancelRequestedAt.None? && o in s.runs && Holds(s.db, o)
    requires s.runs[o].phase.Closed? && s.runs[o].phase.outcome.Parks?
    ensures var run, after := s.runs[o], ApplyRelease(DropSnapshots(s, o, |s.runs[o].saving|), o, o, t);
            && after.saved == run.hist && after.accepted == s.accepted
            && after.db.inbox == Without(s.db.inbox, run.consumed)
  {
  }

  /** Where the queue stands after its first `m` snapshots, and what those consumed. */
  lemma {:induction false} SkippedQueue<S>(
      w: World<S>, from: History, saving: seq<Snapshot<S>>, to: History, consumed: seq<nat>, m: nat)
    returns (mid: History)
    requires QueueOk(w, from, saving, to, consumed) && m <= |saving|
    ensures from <= mid <= to && QueueOk(w, mid, saving[m..], to, consumed)
    ensures Delivered(mid[|from|..]) == [] <==> ConsumedNone(saving[..m])
    decreases m
  {
    QueueSpans(w, from, saving, to, consumed);
    if m == 0 {
      mid := from;
      assert mid[|from|..] == [] && saving[0..] == saving;
    } else {
      var first, rest := saving[0], saving[1..];
      mid := SkippedQueue(w, first.hist, rest, to, consumed, m - 1);
      assert rest[m - 1..] == saving[m..];
      SplitDelivered(from, first.hist, mid);
      NoneInEither(saving, m);
    }
  }

  lemma NoneInEither<S>(saving: seq<Snapshot<S>>, m: nat)
    requires 0 < m <= |saving|
    ensures ConsumedNone(saving[..m]) <==> saving[0].consumed == [] && ConsumedNone(saving[1..][..m - 1])
  {
    var rest := saving[1..][..m - 1];
    assert forall i :: 0 <= i < m - 1 ==> rest[i] == saving[..m][i + 1];
    if saving[0].consumed == [] && ConsumedNone(rest) {
      forall i | 0 <= i < m ensures saving[..m][i].consumed == [] {
        assert i > 0 ==> saving[..m][i] == rest[i - 1];
      }
    }
  }

  lemma {:induction false} NextInQueue<S>(
      w: World<S>, from: History, saving: seq<Snapshot<S>>, to: History, consumed: seq<nat>)
    requires saving != [] && QueueOk(w, from, saving, to, consumed)
    ensures from <= saving[0].hist <= to && saving[0].consumed == Ids(Delivered(saving[0].hist[|from|..]))
  {
    QueueSpans(w, saving[0].hist, saving[1..], to, consumed);
  }

  lemma {:induction false} SkipsFirst(
      saved: History, first: History, second: History, hist: History, pending: seq<Signal>, inbox: seq<Signal>)
    requires saved <= first <= second <= hist && InIdOrder(inbox)
    requires Delivered(hist[|saved|..]) + pending <= inbox
    ensures Delivered(saved) + inbox == Delivered(second) + Without(inbox, Ids(Delivered(second[|first|..])))
            <==> Delivered(first[|saved|..]) == []
  {
    SplitDelivered(saved, first, second);
    SplitDelivered(saved, second, hist);
    DeliveredSince(saved, second);
    var a, b := Delivered(first[|saved|..]), Delivered(second[|first|..]);
    var c := Delivered(hist[|second|..]) + pending;
    Regroup(a + b, Delivered(hist[|second|..]), pending);
    DropMiddle(a, b, c, inbox);
    CountedTwice(Delivered(saved), a, b, inbox[|a + b|..]);
  }

  /** Deleting by id a run of signals in the middle of the inbox keeps those before it. */
  lemma {:induction false} DropMiddle(a: seq<Signal>, b: seq<Signal>, c: seq<Signal>, inbox: seq<Signal>)
    requires InIdOrder(inbox) && a + b + c <= inbox
    ensures inbox == a + b + inbox[|a + b|..]
    ensures Without(inbox, Ids(b)) == a + inbox[|a + b|..]
  {
    CutHead(a + b, c, inbox);
    var rest := inbox[|a + b|..];
    Regroup(a, b, rest);
    WithoutConcat(a, b + rest, Ids(b));
    assert forall i :: 0 <= i < |b + rest| ==> (b + rest)[i] == inbox[|a| + i];
    DropHead(b + rest, b);
    assert (b + rest)[|b|..] == rest;
    forall i | 0 <= i < |a| ensures a[i].id !in Ids(b) {
      assert a[i] == inbox[i];
      assert forall j :: 0 <= j < |b| ==> b[j] == inbox[|a| + j];
    }
    WithoutKeeps(a, Ids(b));
  }

  lemma CountedTwice<T>(before: seq<T>, a: seq<T>, b: seq<T>, rest: seq<T>)
    ensures before + (a + b + rest) == before + (a + b) + (a + rest) <==> a == []
  {
    assert |before + (a + b + rest)| + |a| == |before + (a + b) + (a + rest)|;
  }

  lemma {:induction false} WithoutConcat(x: seq<Signal>, y: seq<Signal>, ids: seq<nat>)
    ensures Without(x + y, ids) == Without(x, ids) + Without(y, ids)
  {
    if x == [] {
      assert x + y == y;
    } else {
      assert (x + y)[1..] == x[1..] + y;
      WithoutConcat(x[1..], y, ids);
    }
  }

  // ---------------------------------------------------------------- writes without their checks

  /**
    `signal` checks the row before its transaction, which does not look again.
    What it then writes is what one atomic step would have written if and only
    if the row is still active and no cancel has been requested meanwhile.
  */
  lemma UncheckedSignalAtomicIff<S>(db: Db<S>, signal: Signal, t: Time)
    ensures SignalTx(db, signal, t) == Success(WriteSignal(db, signal, t)) <==>
            Active(db.row.status) && db.row.cancelRequestedAt.None?
  {
  }

  /**
    It keeps the row coherent exactly when the row is still active: one that
    finished or failed in between becomes claimable.
  */
  lemma UncheckedSignalCoherentIff<S>(db: Db<S>, signal: Signal, t: Time)
    requires RowOk(db)
    ensures RowOk(WriteSignal(db, signal, t)) <==> Active(db.row.status)
    ensures !Active(db.row.status) ==> Claimable(WriteSignal(db, signal, t).row, t)
  {
    assert db.inbox + [signal] != [];
  }

  /**
    What that does to a completed instance: the next claim holds the row, finds
    no state, and starts the process over from the final variables, as the
    holder, so that what it does is saved.
  */
  lemma {:induction false} SignalRevivesCompleted<S>(w: World<S>, s: Sys<S>, signal: Signal, t: Time, call: Call)
    requires RowOk(s.db) && s.db.row.status == Completed && s.db.row.cancelRequestedAt.None? && t <= s.now
    ensures var revived := s.(db := WriteSignal(s.db, signal, t));
            && Enabled(w, revived, Claim(t))
            && var claimed := Apply(w, revived, Claim(t));
            && Enabled(w, claimed, ReadRow(s.claims))
            && var ready := Apply(w, claimed, ReadRow(s.claims));
            && Enabled(w, ready, ReadInbox(s.claims, t))
            && var started := Apply(w, ready, ReadInbox(s.claims, t));
            && Holds(started.db, s.claims)
            && (Enabled(w, started, Issue(s.claims, call)) <==>
                  call in w.engine.wants(w.engine.begin(s.db.row.variables)))
  {
    var revived := s.(db := WriteSignal(s.db, signal, t));
    RevivedRunOpens(w, s, revived, t);
    StartedIssues(w, Apply(w, Apply(w, revived, Claim(t)), ReadRow(s.claims)), s.claims, t, call);
  }

  lemma RevivedRunOpens<S>(w: World<S>, s: Sys<S>, revived: Sys<S>, t: Time)
    requires RowOk(s.db) && s.db.row.status == Completed && s.db.row.cancelRequestedAt.None? && t <= s.now
    requires revived == s.(db := revived.db) && revived.db.row == s.db.row.(runnableAt := Some(t))
    ensures Enabled(w, revived, Claim(t))
    ensures var claimed := Apply(w, revived, Claim(t));
            && Enabled(w, claimed, ReadRow(s.claims))
            && var ready := Apply(w, claimed, ReadRow(s.claims));
            && Enabled(w, ready, ReadInbox(s.claims, t)) && Holds(ready.db, s.claims) && Idle(ready.runs[s.claims])
            && ready.runs[s.claims].base.None? && ready.runs[s.claims].variables == s.db.row.variables
  {
  }

  /**
    `retry` writes a status made from the state it read before its transaction.
    The row stays coherent if and only if, should it be failed again by then, it
    has a state now exactly if it had one then.
  */
  lemma UncheckedRetryCoherentIff<S>(db: Db<S>, readState: Option<S>, readError: Option<string>, t: Time)
    requires RowOk(db)
    ensures RowOk(WriteRetry(db, readState, readError, t)) <==>
            (db.row.status == Failed ==> (readState.None? <==> db.row.state.None?))
  {
  }

  /** And it is what one atomic step would have written if and only if it also logs the error the row has now. */
  lemma UncheckedRetryAtomicIff<S>(db: Db<S>, readState: Option<S>, readError: Option<string>, t: Time)
    requires RowOk(db)
    ensures RetryTx(db, t) == Success(WriteRetry(db, readState, readError, t)) <==>
            db.row.status == Failed && (readState.None? <==> db.row.state.None?) && readError == db.row.error
  {
    var one, other := db.log + [RetryEntry(db.row.error)], db.log + [RetryEntry(readError)];
    assert one[|db.log|] == RetryEntry(db.row.error) && other[|db.log|] == RetryEntry(readError);
  }

  // ---------------------------------------------------------------- concrete traces

  /** An engine that records its inputs and wants a fixed set of calls until each is answered. */
  function Recorder(calls: set<Call>): Model<History>
  {
    Model((v: Fields) => [Begin(v)], (h: History, x: Input) => h + [x], (h: History) => map[],
      (h: History) => calls - Answers(h))
  }

  lemma {:induction false} RecorderRemembers(calls: set<Call>)
    ensures Remembers(Recorder(calls))
  {
    forall h: History, c: Call | h != [] && h[0].Begin? && c in Answers(h)
      ensures c !in Recorder(calls).wants(Replay(Recorder(calls), h))
    {
      RecorderReplays(calls, h);
    }
  }

  lemma {:induction false} RecorderReplays(calls: set<Call>, h: History)
    requires h != [] && h[0].Begin?
    ensures Replay(Recorder(calls), h) == h
  {
    if |h| > 1 {
      RecorderReplays(calls, h[..|h| - 1]);
      assert h == h[..|h| - 1] + [h[|h| - 1]];
    } else {
      assert h == [h[0]];
    }
  }

  /** `IsTrace`, built up step by step. */
  ghost predicate Path<S>(w: World<S>, states: seq<Sys<S>>, steps: seq<Step>)
    decreases |steps|
  {
    var n := |steps|;
    && |states| == n + 1
    && if n == 0 then exists variables, t :: states[0] == Start<S>(variables, t)
       else
         && Path(w, states[..n], steps[..n - 1])
         && Enabled(w, states[n - 1], steps[n - 1]) && states[n] == Apply(w, states[n - 1], steps[n - 1])
  }

  lemma {:induction false} PathIsTrace<S>(w: World<S>, states: seq<Sys<S>>, steps: seq<Step>)
    requires Path(w, states, steps)
    ensures IsTrace(w, states, steps)
    decreases |steps|
  {
    var n := |steps|;
    if n > 0 {
      PathIsTrace(w, states[..n], steps[..n - 1]);
      forall i | 0 <= i < n ensures Taken(w, states, steps, i) {
        assert i < n - 1 ==> Taken(w, states[..n], steps[..n - 1], i) && steps[..n - 1][i] == steps[i];
      }
    }
  }

  lemma Then<S>(w: World<S>, states: seq<Sys<S>>, steps: seq<Step>, step: Step)
    returns (states': seq<Sys<S>>, steps': seq<Step>)
    requires Path(w, states, steps) && Enabled(w, states[|steps|], step)
    ensures Path(w, states', steps') && states' == states + [Apply(w, states[|steps|], step)] &&
            steps' == steps + [step]
  {
    states', steps' := states + [Apply(w, states[|steps|], step)], steps + [step];
    assert states'[..|steps'|] == states && steps'[..|steps|] == steps;
  }

  const DEMO := World(Recorder({0, 1}), 10)
  const BEGUN: History := [Begin(map[])]
  const SAVED: History := [Begin(map[]), Answered(0, Null)]

  function Underway(hist: History, inflight: set<Call>): Run<History>
  {
    Run(Live, None, map[], Some(hist), [], [], [], None, inflight, hist, [], false)
  }

  /** How the first run holds the row after its claim. */
  function Held(run: Run<History>): Sys<History>
  {
    Sys(0, ClaimTx(StartTx(map[], 0), 0, 0, 10), map[0 := run], 1, 0, map[], [], [], 0, 0)
  }

  lemma {:induction false} FirstRunClaims() returns (states: seq<Sys<History>>, steps: seq<Step>)
    ensures Path(DEMO, states, steps) && |steps| == 1 && states[1] == Held(FreshRun([]))
  {
    states, steps := [Start<History>(map[], 0)], [];
    states, steps := Then(DEMO, states, steps, Claim(0));
  }

  lemma {:induction false} FirstRunStarts() returns (states: seq<Sys<History>>, steps: seq<Step>)
    ensures Path(DEMO, states, steps) && |steps| == 3
    ensures states[3] == Held(Underway(BEGUN, {}))
  {
    var w := DEMO;
    states, steps := FirstRunClaims();
    states, steps := Then(w, states, steps, ReadRow(0));
    states, steps := Then(w, states, steps, ReadInbox(0, 0));
  }

  lemma {:induction false} FirstRunIssues() returns (states: seq<Sys<History>>, steps: seq<Step>)
    ensures Path(DEMO, states, steps) && |steps| == 5 && steps[4] == Issue(0, 1)
    ensures states[5] == Held(Underway(BEGUN, {0, 1}))
  {
    states, steps := FirstRunStarts();
    states, steps := Then(DEMO, states, steps, Issue(0, 0));
    states, steps := Then(DEMO, states, steps, Issue(0, 1));
    assert {} + {0} + {1} == {0, 1};
  }

  lemma {:induction false} FirstRunAnswered() returns (states: seq<Sys<History>>, steps: seq<Step>)
    ensures Path(DEMO, states, steps) && |steps| == 6 && steps[4] == Issue(0, 1)
    ensures states[6] == Held(Underway(SAVED, {0, 1}))
  {
    states, steps := FirstRunIssues();
    states, steps := Then(DEMO, states, steps, Feed(0, Answered(0, Null)));
    assert BEGUN + [Answered(0, Null)] == SAVED;
  }

  /** Calls 0 and 1 are issued, and the answer to 0 is saved. */
  lemma {:induction false} FirstRunSaves() returns (states: seq<Sys<History>>, steps: seq<Step>)
    ensures Path(DEMO, states, steps) && |steps| == 8
    ensures steps[4] == Issue(0, 1) && steps[7] == WriteSnapshot(0)
    ensures states[7].saved == [] && states[8] == FirstSave()
  {
    states, steps := FirstRunAnswered();
    states, steps := Then(DEMO, states, steps, TakeSnapshot(0));
    assert [] + [Snapshot(SAVED, map[], [], SAVED)] == [Snapshot(SAVED, map[], [], SAVED)];
    states, steps := Then(DEMO, states, steps, WriteSnapshot(0));
    assert [Snapshot(SAVED, map[], [], SAVED)][1..] == [];
  }

  function FirstSave(): Sys<History>
  {
    Sys(0, Db(Row(Running, Some(SAVED), map[], Some(0), Some(0), Some(10), None, None, None, None), [], []),
        map[0 := Underway(SAVED, {0, 1})], 1, 0, map[], SAVED, [], 0, 0)
  }

  /** The row as the second claim finds it, with the first save in it. */
  function Reclaimed(run: Run<History>): Sys<History>
  {
    Sys(11, Db(Row(Running, Some(SAVED), map[], Some(0), Some(1), Some(21), None, None, None, None), [], []),
        map[1 := run], 2, 0, map[], SAVED, [], 11, 0)
  }

  lemma {:induction false} SecondRunClaims() returns (states: seq<Sys<History>>, steps: seq<Step>)
    ensures Path(DEMO, states, steps) && |steps| == 11
    ensures steps[4] == Issue(0, 1) && steps[7] == WriteSnapshot(0)
    ensures states[7].saved == [] && states[8].saved == SAVED && states[8].claims == 1 &&
            states[11] == Reclaimed(FreshRun(SAVED))
  {
    states, steps := FirstRunSaves();
    states, steps := Then(DEMO, states, steps, Crash(0));
    states, steps := Then(DEMO, states, steps, Tick(11));
    states, steps := Then(DEMO, states, steps, Claim(11));
  }

  function Resuming(base: Option<History>, hist: History, inflight: set<Call>): Run<History>
  {
    Run(Live, base, map[], Some(hist), [], [], [], None, inflight, hist, SAVED, base.None?)
  }

  lemma {:induction false} SecondRunStarts() returns (states: seq<Sys<History>>, steps: seq<Step>)
    ensures Path(DEMO, states, steps) && |steps| == 13
    ensures steps[4] == Issue(0, 1) && steps[7] == WriteSnapshot(0)
    ensures states[7].saved == [] && states[8].saved == SAVED
    ensures states[13] == Reclaimed(Resuming(Some(SAVED), SAVED + [Resumed(11)], {}))
  {
    states, steps := SecondRunClaims();
    states, steps := Then(DEMO, states, steps, ReadRow(1));
    states, steps := Then(DEMO, states, steps, ReadInbox(1, 11));
  }

  lemma {:induction false} SecondRunRepeats() returns (states: seq<Sys<History>>, steps: seq<Step>)
    ensures Path(DEMO, states, steps) && |steps| == 14 && steps[13] == Issue(1, 1) && Holds(states[13].db, 1)
    ensures steps[4] == Issue(0, 1) && steps[7] == WriteSnapshot(0)
    ensures states[7].saved == [] && states[8].saved == SAVED
  {
    states, steps := SecondRunStarts();
    assert 1 !in Answers(SAVED + [Resumed(11)]);
    states, steps := Then(DEMO, states, steps, Issue(1, 1));
  }

  /**
    A call in flight when its run crashed is issued again by the run that takes
    over, although progress was saved after it was first issued: only a saved
    answer, not a later save, keeps a call from repeating.
  */
  lemma {:induction false} InFlightCallRepeats()
    returns (states: seq<Sys<History>>, steps: seq<Step>, first: nat, save: nat, again: nat)
    ensures IsTrace(DEMO, states, steps) && Remembers(DEMO.engine)
    ensures first < save < again < |steps|
    ensures steps[first] == Issue(0, 1) && steps[again] == Issue(1, 1) && Holds(states[again].db, 1)
    ensures steps[save] == WriteSnapshot(0) && states[save].saved < states[save + 1].saved
  {
    RecorderRemembers({0, 1});
    first, save, again := 4, 7, 13;
    states, steps := SecondRunRepeats();
    PathIsTrace(DEMO, states, steps);
  }

  /** A third claim takes the row over while the second run has yet to read it. */
  function TakenOver(row: Row<History>, saved: History, runs: map<Owner, Run<History>>): Sys<History>
  {
    Sys(22, Db(row, [], []), runs, 3, 0, map[], saved, [], 22, 0)
  }

  const HELD_ROW := Row(Running, Some(SAVED), map[], Some(0), Some(2), Some(32), None, None, None, None)
  const DONE_ROW: Row<History> := Row(Completed, None, map[], None, None, None, None, None, Some(22), None)

  lemma {:induction false} ThirdRunClaims() returns (states: seq<Sys<History>>, steps: seq<Step>)
    ensures Path(DEMO, states, steps) && |steps| == 13 && states[8].saved == SAVED && states[8].claims == 1
    ensures states[13] == TakenOver(HELD_ROW, SAVED, map[1 := FreshRun(SAVED), 2 := FreshRun(SAVED)])
  {
    states, steps := SecondRunClaims();
    states, steps := Then(DEMO, states, steps, Tick(22));
    states, steps := Then(DEMO, states, steps, Claim(22));
  }

  lemma {:induction false} ThirdRunStarts() returns (states: seq<Sys<History>>, steps: seq<Step>)
    ensures Path(DEMO, states, steps) && |steps| == 15 && states[8].saved == SAVED && states[8].claims == 1
    ensures states[15] == TakenOver(HELD_ROW, SAVED,
                                    map[1 := FreshRun(SAVED), 2 := Resuming(Some(SAVED), SAVED + [Resumed(22)], {})])
  {
    states, steps := ThirdRunClaims();
    states, steps := Then(DEMO, states, steps, ReadRow(2));
    states, steps := Then(DEMO, states, steps, ReadInbox(2, 22));
  }

  lemma {:induction false} ThirdRunCompletes() returns (states: seq<Sys<History>>, steps: seq<Step>)
    ensures Path(DEMO, states, steps) && |steps| == 18 && states[8].saved == SAVED && states[8].claims == 1
    ensures states[18] == TakenOver(DONE_ROW, SAVED + [Resumed(22)], map[1 := FreshRun(SAVED)])
  {
    states, steps := ThirdRunStarts();
    states, steps := Then(DEMO, states, steps, End(2));
    states, steps := Then(DEMO, states, steps, Close(2, None));
    states, steps := Then(DEMO, states, steps, Release(2, 22));
  }

  lemma {:induction false} SecondRunRestarts() returns (states: seq<Sys<History>>, steps: seq<Step>)
    ensures Path(DEMO, states, steps) && |steps| == 21 && steps[20] == Issue(1, 0) && states[8].saved == SAVED &&
            states[8].claims == 1
  {
    states, steps := ThirdRunCompletes();
    states, steps := Then(DEMO, states, steps, ReadRow(1));
    states, steps := Then(DEMO, states, steps, ReadInbox(1, 22));
    assert 0 !in Answers(BEGUN);
    states, steps := Then(DEMO, states, steps, Issue(1, 0));
  }

  /**
    A run that lost the row before reading it, and reads it only once another
    run has completed it, finds no state and starts from scratch: it issues a
    call whose answer was saved before the run was even claimed.
  */
  lemma {:induction false} CompletedRowRestarts() returns (states: seq<Sys<History>>, steps: seq<Step>, i: nat, j: nat)
    ensures IsTrace(DEMO, states, steps) && Remembers(DEMO.engine) && i <= j < |steps|
    ensures 0 in Answers(states[i].saved) && states[i].claims <= 1 && steps[j] == Issue(1, 0)
  {
    RecorderRemembers({0, 1});
    i, j := 8, 20;
    states, steps := SecondRunRestarts();
    PathIsTrace(DEMO, states, steps);
    assert SAVED[1] == Answered(0, Null);
  }

  // ---------------------------------------------------------------- a trace to a lost last checkpoint

  const SENT := Signal(0, "wait", Null)
  const TOLD: History := [Begin(map[]), Applied(SENT)]
  const TOLD_SAVED := Snapshot(TOLD, map[], [0], TOLD)

  /** The first run holds the row, and one signal is queued. */
  function Queued(run: Run<History>): Sys<History>
  {
    var db := ClaimTx(StartTx(map[], 0), 0, 0, 10);
    Sys(0, db.(inbox := [SENT]), map[0 := run], 1, 1, map[], [], [SENT], 0, 0)
  }

  lemma {:induction false} QueuedClaims() returns (states: seq<Sys<History>>, steps: seq<Step>)
    ensures Path(DEMO, states, steps) && |steps| == 2 && states[2] == Queued(FreshRun([]))
  {
    states, steps := [Start<History>(map[], 0)], [];
    states, steps := Then(DEMO, states, steps, SendSignal(SENT, 0));
    assert [] + [SENT] == [SENT];
    states, steps := Then(DEMO, states, steps, Claim(0));
  }

  lemma {:induction false} QueuedStarts() returns (states: seq<Sys<History>>, steps: seq<Step>)
    ensures Path(DEMO, states, steps) && |steps| == 4 && states[4] == Queued(Underway(BEGUN, {}).(pending := [SENT]))
  {
    states, steps := QueuedClaims();
    states, steps := Then(DEMO, states, steps, ReadRow(0));
    states, steps := Then(DEMO, states, steps, ReadInbox(0, 0));
  }

  lemma {:induction false} QueuedDelivered() returns (states: seq<Sys<History>>, steps: seq<Step>)
    ensures Path(DEMO, states, steps) && |steps| == 5 && states[5] == Queued(Underway(TOLD, {}).(consumed := [0]))
  {
    states, steps := QueuedStarts();
    states, steps := Then(DEMO, states, steps, Deliver(0));
    assert [SENT][1..] == [] && BEGUN + [Applied(SENT)] == TOLD && [] + [0] == [0];
  }

  lemma {:induction false} QueuedParks() returns (states: seq<Sys<History>>, steps: seq<Step>)
    ensures Path(DEMO, states, steps) && |steps| == 7
    ensures states[7] == Queued(Underway(TOLD, {}).(saving := [TOLD_SAVED], phase := Closed(Parks(TOLD, map[], None))))
  {
    states, steps := QueuedDelivered();
    states, steps := Then(DEMO, states, steps, TakeSnapshot(0));
    assert [] + [TOLD_SAVED] == [TOLD_SAVED];
    states, steps := Then(DEMO, states, steps, Close(0, None));
  }

  /**
    A trace to a run that has parked with its one checkpoint not yet written:
    if that write fails, the park is released all the same, and the signal is
    both saved and queued.
  */
  lemma {:induction false} LostLastSaveRepeats() returns (states: seq<Sys<History>>, steps: seq<Step>)
    ensures IsTrace(DEMO, states, steps)
    ensures var s := states[|steps|];
            && 0 in s.runs && |s.runs[0].saving| == 1 && s.runs[0].phase.Closed? && s.runs[0].phase.outcome.Parks?
            && var after := ApplyRelease(DropSnapshots(s, 0, 1), 0, 0, 0);
               after.accepted == [SENT] && Delivered(after.saved) == [SENT] && after.db.inbox == [SENT]
  {
    states, steps := QueuedParks();
    PathIsTrace(DEMO, states, steps);
    assert TOLD == [] + [Begin(map[])] + [Applied(SENT)];
    DeliveredStep([], Begin(map[]));
    DeliveredStep([] + [Begin(map[])], Applied(SENT));
    WithoutKeeps([SENT], []);
  }
}
