/**
  Leases by worker id. The row's `locked_by` names the worker, not the claim,
  and one worker may claim a row again while an earlier run of its own is still
  in memory. Here runs are numbered by claim, the lock holds the worker's id,
  and the fence compares worker ids. `Protocol` is the case in which that fence
  tells any two runs apart.
*/
module Workers {
  import opened Base
  import opened Json
  import opened Engine
  import opened Instance
  import opened Protocol
  import opened Hazards

  type Worker = nat

  /** `worker` says who made each claim; the row's `lockedBy` in `sys` is a worker. */
  datatype Pool<S> = Pool(sys: Sys<S>, worker: map<Owner, Worker>)

  datatype PoolStep = ClaimAs(worker: Worker, t: Time) | Do(step: Step)

  function WorkerOf<S>(p: Pool<S>, o: Owner): Worker
  {
    if o in p.worker then p.worker[o] else 0
  }

  predicate Ready<S>(w: World<S>, p: Pool<S>, step: PoolStep)
  {
    match step
    case ClaimAs(_, t) => Enabled(w, p.sys, Claim(t))
    case Do(step) => Enabled(w, p.sys, step) && !step.Claim?
  }

  function Next<S>(w: World<S>, p: Pool<S>, step: PoolStep): Pool<S>
    requires Ready(w, p, step)
  {
    match step
    case ClaimAs(worker, t) => Pool(ApplyClaim(w, p.sys, worker, t), p.worker[p.sys.claims := worker])
    case Do(Heartbeat(o, t)) => p.(sys := ApplyHeartbeat(w, p.sys, WorkerOf(p, o), t))
    case Do(WriteSnapshot(o)) => p.(sys := ApplyWrite(p.sys, o, WorkerOf(p, o)))
    case Do(Release(o, t)) => p.(sys := ApplyRelease(p.sys, o, WorkerOf(p, o), t))
    case Do(step) => p.(sys := Apply(w, p.sys, step))
  }

  ghost predicate Done<S>(w: World<S>, pools: seq<Pool<S>>, steps: seq<PoolStep>, i: nat)
    requires i < |steps| < |pools|
  {
    Ready(w, pools[i], steps[i]) && pools[i + 1] == Next(w, pools[i], steps[i])
  }

  ghost predicate IsPoolTrace<S>(w: World<S>, pools: seq<Pool<S>>, steps: seq<PoolStep>)
  {
    && |pools| == |steps| + 1
    && (exists variables, t :: pools[0] == Pool(Start<S>(variables, t), map[]))
    && forall i {:trigger Done(w, pools, steps, i)} :: 0 <= i < |steps| ==> Done(w, pools, steps, i)
  }

  // ---------------------------------------------------------------- when the fence holds

  /** Only the run of the latest claim gets past the fence. */
  predicate Fenced<S>(p: Pool<S>)
  {
    forall o :: o in p.sys.runs && Holds(p.sys.db, WorkerOf(p, o)) ==> o + 1 == p.sys.claims
  }

  /** No two runs of the instance in memory were claimed by the same worker. */
  predicate Distinct<S>(p: Pool<S>)
  {
    forall a, b :: a in p.sys.runs && b in p.sys.runs && a != b ==> WorkerOf(p, a) != WorkerOf(p, b)
  }

  /** The worker has no run of the instance in memory. */
  predicate Away<S>(p: Pool<S>, worker: Worker)
  {
    forall o :: o in p.sys.runs ==> WorkerOf(p, o) != worker
  }

  predicate ClaimsWhenAway<S>(p: Pool<S>, step: PoolStep)
  {
    step.ClaimAs? ==> Away(p, step.worker)
  }

  predicate PoolOk<S>(p: Pool<S>)
  {
    && (forall o :: o in p.sys.runs ==> o < p.sys.claims)
    && (p.sys.db.row.lockedBy.Some? ==>
       p.sys.claims > 0 && p.sys.db.row.lockedBy.value == WorkerOf(p, p.sys.claims - 1))
  }

  lemma NextMemory<S>(w: World<S>, p: Pool<S>, step: PoolStep)
    requires Ready(w, p, step) && step.Do?
    ensures var p' := Next(w, p, step);
            && p'.worker == p.worker && p'.sys.claims == p.sys.claims && p'.sys.runs.Keys <= p.sys.runs.Keys
            && (p'.sys.db.row.lockedBy == p.sys.db.row.lockedBy || p'.sys.db.row.lockedBy.None?)
  {
    if !step.step.Heartbeat? && !step.step.WriteSnapshot? && !step.step.Release? {
      NextOther(w, p, step.step);
    }
  }

  lemma NextOther<S>(w: World<S>, p: Pool<S>, step: Step)
    requires Enabled(w, p.sys, step) && !step.Claim? && !step.Heartbeat? && !step.WriteSnapshot? && !step.Release?
    ensures var p' := Next(w, p, Do(step));
            && p'.worker == p.worker && p'.sys.claims == p.sys.claims && p'.sys.runs.Keys <= p.sys.runs.Keys
            && p'.sys.db.row.lockedBy == p.sys.db.row.lockedBy
  {
  }

  lemma PoolStepOk<S>(w: World<S>, p: Pool<S>, step: PoolStep)
    requires PoolOk(p) && Ready(w, p, step)
    ensures PoolOk(Next(w, p, step))
  {
    if step.Do? {
      NextMemory(w, p, step);
      assert forall o :: o in Next(w, p, step).sys.runs ==> o in Next(w, p, step).sys.runs.Keys && o in p.sys.runs;
    }
  }

  lemma {:induction false} PoolOkAlong<S>(w: World<S>, pools: seq<Pool<S>>, steps: seq<PoolStep>, i: nat)
    requires IsPoolTrace(w, pools, steps) && i < |pools|
    ensures PoolOk(pools[i])
  {
    if i > 0 {
      PoolOkAlong(w, pools, steps, i - 1);
      assert Done(w, pools, steps, i - 1);
      PoolStepOk(w, pools[i - 1], steps[i - 1]);
    }
  }

  /**
    One step keeps the fence, and runs apart, if and only if it is not a claim
    by a worker that still runs the instance.
  */
  lemma FenceStep<S>(w: World<S>, p: Pool<S>, step: PoolStep)
    requires PoolOk(p) && Fenced(p) && Distinct(p) && Ready(w, p, step)
    ensures Fenced(Next(w, p, step)) <==> ClaimsWhenAway(p, step)
    ensures Distinct(Next(w, p, step)) <==> ClaimsWhenAway(p, step)
  {
    var p' := Next(w, p, step);
    if step.Do? {
      NextMemory(w, p, step);
      assert forall o :: o in p'.sys.runs ==> o in p'.sys.runs.Keys && o in p.sys.runs;
    } else if o :| o in p.sys.runs && WorkerOf(p, o) == step.worker {
      assert o in p'.sys.runs && p.sys.claims in p'.sys.runs && WorkerOf(p', o) == WorkerOf(p', p.sys.claims);
    }
  }

  /**
    In every state only the latest claim's run gets past the fence, if and only
    if no two runs of the instance ever carry the same worker id, if and only if
    a worker only ever claims an instance it has no run of.
  */
  lemma {:induction false} FenceHoldsIff<S>(w: World<S>, pools: seq<Pool<S>>, steps: seq<PoolStep>)
    requires IsPoolTrace(w, pools, steps)
    ensures (forall i :: 0 <= i < |pools| ==> Fenced(pools[i])) <==>
            (forall i :: 0 <= i < |steps| ==> ClaimsWhenAway(pools[i], steps[i]))
    ensures (forall i :: 0 <= i < |pools| ==> Distinct(pools[i])) <==>
            (forall i :: 0 <= i < |steps| ==> ClaimsWhenAway(pools[i], steps[i]))
  {
    if forall i :: 0 <= i < |steps| ==> ClaimsWhenAway(pools[i], steps[i]) {
      forall i | 0 <= i < |pools| ensures Fenced(pools[i]) && Distinct(pools[i]) {
        FencedUpTo(w, pools, steps, i);
      }
    } else {
      var i := FirstClash(pools, steps, 0);
      FencedUpTo(w, pools, steps, i);
      PoolOkAlong(w, pools, steps, i);
      assert Done(w, pools, steps, i);
      FenceStep(w, pools[i], steps[i]);
      assert !Fenced(pools[i + 1]) && !Distinct(pools[i + 1]);
    }
  }

  lemma {:induction false} FencedUpTo<S>(w: World<S>, pools: seq<Pool<S>>, steps: seq<PoolStep>, i: nat)
    requires IsPoolTrace(w, pools, steps) && i < |pools|
    requires forall k :: 0 <= k < i ==> ClaimsWhenAway(pools[k], steps[k])
    ensures Fenced(pools[i]) && Distinct(pools[i])
  {
    if i > 0 {
      FencedUpTo(w, pools, steps, i - 1);
      PoolOkAlong(w, pools, steps, i - 1);
      assert Done(w, pools, steps, i - 1);
      FenceStep(w, pools[i - 1], steps[i - 1]);
    }
  }

  lemma {:induction false} FirstClash<S>(pools: seq<Pool<S>>, steps: seq<PoolStep>, k: nat) returns (i: nat)
    requires |pools| == |steps| + 1 && k <= |steps|
    requires (forall j :: 0 <= j < k ==> ClaimsWhenAway(pools[j], steps[j]))
    requires exists j :: 0 <= j < |steps| && !ClaimsWhenAway(pools[j], steps[j])
    ensures i < |steps| && !ClaimsWhenAway(pools[i], steps[i])
    ensures forall j :: 0 <= j < i ==> ClaimsWhenAway(pools[j], steps[j])
    decreases |steps| - k
  {
    if ClaimsWhenAway(pools[k], steps[k]) {
      i := FirstClash(pools, steps, k + 1);
    } else {
      i := k;
    }
  }

  // ---------------------------------------------------------------- then it is the protocol

  function Plain(step: PoolStep): Step
  {
    match step
    case ClaimAs(_, t) => Claim(t)
    case Do(step) => step
  }

  /** The same state with the lock in the name of the latest claim. */
  function Renamed<S>(p: Pool<S>): Sys<S>
  {
    var lock := if p.sys.db.row.lockedBy.Some? && p.sys.claims > 0 then Some(p.sys.claims - 1) else None;
    p.sys.(db := p.sys.db.(row := p.sys.db.row.(lockedBy := lock)))
  }

  lemma {:induction false} StepIsPlain<S>(w: World<S>, p: Pool<S>, step: PoolStep)
    requires PoolOk(p) && Fenced(p) && Ready(w, p, step)
    ensures Enabled(w, Renamed(p), Plain(step))
    ensures Renamed(Next(w, p, step)) == Apply(w, Renamed(p), Plain(step))
  {
    EnabledIsPlain(w, p, step);
    match step
    case ClaimAs(worker, t) => ClaimIsPlain(w, p, worker, t);
    case Do(Heartbeat(o, t)) => HeartbeatIsPlain(w, p, o, t);
    case Do(WriteSnapshot(o)) => WriteIsPlain(w, p, o);
    case Do(Release(o, t)) => ReleaseIsPlain(w, p, o, t);
    case Do(step) => OtherIsPlain(w, p, step);
  }

  lemma EnabledIsPlain<S>(w: World<S>, p: Pool<S>, step: PoolStep)
    requires Ready(w, p, step)
    ensures Enabled(w, Renamed(p), Plain(step))
  {
  }

  lemma ClaimIsPlain<S>(w: World<S>, p: Pool<S>, worker: Worker, t: Time)
    requires PoolOk(p) && Enabled(w, p.sys, Claim(t))
    ensures Renamed(Next(w, p, ClaimAs(worker, t))) == Apply(w, Renamed(p), Claim(t))
  {
  }

  lemma HeartbeatIsPlain<S>(w: World<S>, p: Pool<S>, o: Owner, t: Time)
    requires PoolOk(p) && Fenced(p) && Enabled(w, p.sys, Heartbeat(o, t))
    ensures Renamed(Next(w, p, Do(Heartbeat(o, t)))) == Apply(w, Renamed(p), Heartbeat(o, t))
  {
    SameHolder(p, o);
  }

  lemma WriteIsPlain<S>(w: World<S>, p: Pool<S>, o: Owner)
    requires PoolOk(p) && Fenced(p) && Enabled(w, p.sys, WriteSnapshot(o))
    ensures Renamed(Next(w, p, Do(WriteSnapshot(o)))) == Apply(w, Renamed(p), WriteSnapshot(o))
  {
    SameHolder(p, o);
  }

  lemma ReleaseIsPlain<S>(w: World<S>, p: Pool<S>, o: Owner, t: Time)
    requires PoolOk(p) && Fenced(p) && Enabled(w, p.sys, Release(o, t))
    ensures Renamed(Next(w, p, Do(Release(o, t)))) == Apply(w, Renamed(p), Release(o, t))
  {
    SameHolder(p, o);
  }

  lemma OtherIsPlain<S>(w: World<S>, p: Pool<S>, step: Step)
    requires Enabled(w, p.sys, step) && !step.Claim? && !step.Heartbeat? && !step.WriteSnapshot? && !step.Release?
    ensures Renamed(Next(w, p, Do(step))) == Apply(w, Renamed(p), step)
  {
    EnabledIsPlain(w, p, Do(step));
    OtherKeepsLock(w, p, step);
  }

  lemma OtherKeepsLock<S>(w: World<S>, p: Pool<S>, step: Step)
    requires Enabled(w, p.sys, step) && !step.Claim? && !step.Heartbeat? && !step.WriteSnapshot? && !step.Release?
    requires Enabled(w, Renamed(p), step)
    ensures Renamed(p.(sys := Apply(w, p.sys, step))) == Apply(w, Renamed(p), step)
  {
  }

  lemma SameHolder<S>(p: Pool<S>, o: Owner)
    requires PoolOk(p) && Fenced(p) && o in p.sys.runs
    ensures Holds(p.sys.db, WorkerOf(p, o)) <==> Holds(Renamed(p).db, o)
  {
  }

  /**
    While workers only claim instances they have no run of, the system goes
    through a trace of `Protocol`, so all that is proved of those holds of it.
  */
  lemma {:induction false} AwayIsPlain<S>(w: World<S>, pools: seq<Pool<S>>, steps: seq<PoolStep>)
    returns (states: seq<Sys<S>>, plain: seq<Step>)
    requires IsPoolTrace(w, pools, steps) && forall i :: 0 <= i < |steps| ==> ClaimsWhenAway(pools[i], steps[i])
    ensures IsTrace(w, states, plain) && |states| == |pools|
    ensures forall i :: 0 <= i < |pools| ==> states[i] == Renamed(pools[i])
    ensures forall i :: 0 <= i < |steps| ==> plain[i] == Plain(steps[i])
  {
    states := seq(|pools|, i requires 0 <= i < |pools| => Renamed(pools[i]));
    plain := seq(|steps|, i requires 0 <= i < |steps| => Plain(steps[i]));
    var variables, t :| pools[0] == Pool(Start<S>(variables, t), map[]);
    assert states[0] == Start<S>(variables, t);
    forall i | 0 <= i < |plain| ensures Taken(w, states, plain, i) {
      PoolOkAlong(w, pools, steps, i);
      FencedUpTo(w, pools, steps, i);
      assert Done(w, pools, steps, i);
      StepIsPlain(w, pools[i], steps[i]);
    }
  }

  // ---------------------------------------------------------------- a trace without it

  /** `IsPoolTrace`, built up step by step. */
  ghost predicate PoolPath<S>(w: World<S>, pools: seq<Pool<S>>, steps: seq<PoolStep>)
    decreases |steps|
  {
    var n := |steps|;
    && |pools| == n + 1
    && if n == 0 then exists variables, t :: pools[0] == Pool(Start<S>(variables, t), map[])
       else
         && PoolPath(w, pools[..n], steps[..n - 1])
         && Ready(w, pools[n - 1], steps[n - 1]) && pools[n] == Next(w, pools[n - 1], steps[n - 1])
  }

  lemma {:induction false} PathIsPoolTrace<S>(w: World<S>, pools: seq<Pool<S>>, steps: seq<PoolStep>)
    requires PoolPath(w, pools, steps)
    ensures IsPoolTrace(w, pools, steps)
    decreases |steps|
  {
    var n := |steps|;
    if n > 0 {
      PathIsPoolTrace(w, pools[..n], steps[..n - 1]);
      forall i | 0 <= i < n ensures Done(w, pools, steps, i) {
        assert i < n - 1 ==> Done(w, pools[..n], steps[..n - 1], i) && steps[..n - 1][i] == steps[i];
      }
    }
  }

  lemma Then<S>(w: World<S>, pools: seq<Pool<S>>, steps: seq<PoolStep>, step: PoolStep)
    returns (pools': seq<Pool<S>>, steps': seq<PoolStep>)
    requires PoolPath(w, pools, steps) && Ready(w, pools[|steps|], step)
    ensures PoolPath(w, pools', steps') && pools' == pools + [Next(w, pools[|steps|], step)] && steps' == steps + [step]
  {
    pools', steps' := pools + [Next(w, pools[|steps|], step)], steps + [step];
    assert pools'[..|steps'|] == pools && steps'[..|steps|] == steps;
  }

  /** Worker 7 has claimed the instance once, and then again after its own lease lapsed. */
  function Once(run: Run<History>): Pool<History>
  {
    Pool(Sys(0, ClaimTx(StartTx(map[], 0), 7, 0, 10), map[0 := run], 1, 0, map[], [], [], 0, 0), map[0 := 7])
  }

  function Twice(run: Run<History>): Pool<History>
  {
    var runs := map[0 := Underway(BEGUN, {}), 1 := run];
    Pool(Sys(11, ClaimTx(StartTx(map[], 0), 7, 11, 10), runs, 2, 0, map[], [], [], 11, 0),
         map[0 := 7, 1 := 7])
  }

  lemma SecondActs(run: Run<History>, acted: Run<History>)
    ensures Twice(run).(sys := SetRun(Twice(run).sys, 1, acted)) == Twice(acted)
  {
  }

  lemma BegunAnswered()
    ensures FeedRun(DEMO, Underway(BEGUN, {0}), Answered(0, Null)) == Underway(SAVED, {0})
  {
    assert BEGUN + [Answered(0, Null)] == SAVED;
  }

  lemma {:induction false} FirstClaimed() returns (pools: seq<Pool<History>>, steps: seq<PoolStep>)
    ensures PoolPath(DEMO, pools, steps) && |steps| == 1 && pools[1] == Once(FreshRun([]))
  {
    pools, steps := [Pool(Start<History>(map[], 0), map[])], [];
    pools, steps := Then(DEMO, pools, steps, ClaimAs(7, 0));
  }

  lemma {:induction false} FirstStarted() returns (pools: seq<Pool<History>>, steps: seq<PoolStep>)
    ensures PoolPath(DEMO, pools, steps) && |steps| == 3 && pools[3] == Once(Underway(BEGUN, {}))
  {
    pools, steps := FirstClaimed();
    pools, steps := Then(DEMO, pools, steps, Do(ReadRow(0)));
    pools, steps := Then(DEMO, pools, steps, Do(ReadInbox(0, 0)));
  }

  lemma {:induction false} SecondClaimed() returns (pools: seq<Pool<History>>, steps: seq<PoolStep>)
    ensures PoolPath(DEMO, pools, steps) && |steps| == 5 && pools[5] == Twice(FreshRun([]))
  {
    pools, steps := FirstStarted();
    pools, steps := Then(DEMO, pools, steps, Do(Tick(11)));
    pools, steps := Then(DEMO, pools, steps, ClaimAs(7, 11));
  }

  lemma {:induction false} SecondStarted() returns (pools: seq<Pool<History>>, steps: seq<PoolStep>)
    ensures PoolPath(DEMO, pools, steps) && |steps| == 7 && pools[7] == Twice(Underway(BEGUN, {}))
  {
    pools, steps := SecondClaimed();
    pools, steps := Then(DEMO, pools, steps, Do(ReadRow(1)));
    pools, steps := Then(DEMO, pools, steps, Do(ReadInbox(1, 11)));
  }

  lemma {:induction false} SecondIssued() returns (pools: seq<Pool<History>>, steps: seq<PoolStep>)
    ensures PoolPath(DEMO, pools, steps) && |steps| == 8 && pools[8] == Twice(Underway(BEGUN, {0}))
  {
    pools, steps := SecondStarted();
    pools, steps := Then(DEMO, pools, steps, Do(Issue(1, 0)));
    assert {} + {0} == {0};
  }

  lemma AnswerReady(p: Pool<History>)
    requires p == Twice(Underway(BEGUN, {0}))
    ensures Ready(DEMO, p, Do(Feed(1, Answered(0, Null))))
    ensures Next(DEMO, p, Do(Feed(1, Answered(0, Null)))) == Twice(Underway(SAVED, {0}))
  {
    BegunAnswered();
    SecondActs(Underway(BEGUN, {0}), Underway(SAVED, {0}));
  }

  lemma {:induction false} SecondAnswered() returns (pools: seq<Pool<History>>, steps: seq<PoolStep>)
    ensures PoolPath(DEMO, pools, steps) && |steps| == 9 && pools[9] == Twice(Underway(SAVED, {0}))
  {
    pools, steps := SecondIssued();
    AnswerReady(pools[8]);
    pools, steps := Then(DEMO, pools, steps, Do(Feed(1, Answered(0, Null))));
  }

  const SNAPSHOT := Snapshot(SAVED, map[], [], SAVED)

  lemma {:induction false} SecondSnapped() returns (pools: seq<Pool<History>>, steps: seq<PoolStep>)
    ensures PoolPath(DEMO, pools, steps) && |steps| == 10 &&
            pools[10] == Twice(Underway(SAVED, {0}).(saving := [SNAPSHOT]))
  {
    pools, steps := SecondAnswered();
    pools, steps := Then(DEMO, pools, steps, Do(TakeSnapshot(1)));
    assert QueueSnapshot(DEMO, Underway(SAVED, {0})) == Underway(SAVED, {0}).(saving := [SNAPSHOT]) by {
      assert [] + [SNAPSHOT] == [SNAPSHOT];
    }
    SecondActs(Underway(SAVED, {0}), Underway(SAVED, {0}).(saving := [SNAPSHOT]));
  }

  /** The first run may still act, on a row that a second run of its worker has saved to. */
  predicate Exposed(p: Pool<History>)
  {
    && p.sys.saved == SAVED && p.sys.now == 11 && p.sys.claims == 2
    && p.sys.db.row.lockedBy == Some(7) && WorkerOf(p, 0) == 7 && 0 in p.sys.runs
  }

  lemma {:induction false} SecondSaved() returns (pools: seq<Pool<History>>, steps: seq<PoolStep>)
    ensures PoolPath(DEMO, pools, steps) && |steps| == 11
    ensures Exposed(pools[11]) && pools[11].sys.runs[0] == Underway(BEGUN, {})
  {
    pools, steps := SecondSnapped();
    pools, steps := Then(DEMO, pools, steps, Do(WriteSnapshot(1)));
  }

  lemma {:induction false} FirstClosed() returns (pools: seq<Pool<History>>, steps: seq<PoolStep>)
    ensures PoolPath(DEMO, pools, steps) && |steps| == 12
    ensures Exposed(pools[12]) && pools[12].sys.runs[0] ==
            Underway(BEGUN, {}).(phase := Closed(Parks(BEGUN, map[], None)))
  {
    pools, steps := SecondSaved();
    pools, steps := Then(DEMO, pools, steps, Do(Close(0, None)));
  }

  lemma {:induction false} FirstReleased() returns (pools: seq<Pool<History>>, steps: seq<PoolStep>)
    ensures PoolPath(DEMO, pools, steps) && |steps| == 13 && steps[12] == Do(Release(0, 11))
    ensures Exposed(pools[12]) && pools[13].sys.saved == BEGUN
  {
    pools, steps := FirstClosed();
    pools, steps := Then(DEMO, pools, steps, Do(Release(0, 11)));
  }

  /**
    A worker claims an instance again while its first run of it is still in
    memory. The first run's park is written although the second has saved an
    answer since: the saved history forks, and the answer is lost.
  */
  lemma {:induction false} SharedWorkerForks() returns (pools: seq<Pool<History>>, steps: seq<PoolStep>, i: nat)
    ensures IsPoolTrace(DEMO, pools, steps) && i < |steps|
    ensures steps[i] == Do(Release(0, 11)) && pools[i].sys.claims == 2
    ensures 0 in Answers(pools[i].sys.saved) && 0 !in Answers(pools[i + 1].sys.saved)
    ensures !(pools[i].sys.saved <= pools[i + 1].sys.saved)
  {
    i := 12;
    pools, steps := FirstReleased();
    PathIsPoolTrace(DEMO, pools, steps);
    assert SAVED[1] == Answered(0, Null) && BEGUN[0] == Begin(map[]);
  }
}
