/**
  One claimed instance in a worker's memory, updated in place: the signal loop,
  the checkpoint queue and the choice of the next wake-up. Each method is
  proved against the steps of `Protocol` it stands for.
*/
module InstanceRun {
  import opened Base
  import opened Engine
  import opened Instance
  import opened Protocol
  import opened Invariant

  /** What a wait for the engine to settle can end with: `Ended` and `Broke` decide the run. */
  datatype Settled = AtRest | OutOfTime | Ended | Broke(error: string)

  /** The outcome a settling decides, if any, for an engine in the given state. */
  function Decided<S>(w: World<S>, engine: S, settled: Settled): Option<Outcome<S>>
  {
    match settled
    case AtRest => None
    case OutOfTime => None
    case Ended => Some(Completes(w.engine.vars(engine)))
    case Broke(error) => Some(Fails(error))
  }

  /** What else happens while the engine settles: calls go out, it moves on, and checkpoints fire. */
  datatype Act = Issued(call: Call) | Fed(input: Input) | Saved

  datatype Settling = Settling(acts: seq<Act>, end: Settled)

  function ActOn<S>(w: World<S>, run: Run<S>, act: Act): Run<S>
    requires run.engine.Some?
  {
    match act
    case Issued(call) => run.(inflight := run.inflight + {call})
    case Fed(input) => FeedRun(w, run, input)
    case Saved => QueueSnapshot(w, run)
  }

  function ActAll<S>(w: World<S>, run: Run<S>, acts: seq<Act>): (after: Run<S>)
    requires run.engine.Some?
    ensures after.engine.Some? && after.pending == run.pending && after.finished == run.finished
  {
    if acts == [] then run else ActOn(w, ActAll(w, run, acts[..|acts| - 1]), acts[|acts| - 1])
  }

  /** `n` signals delivered, as steps of `Protocol`; the start and each delivery settle before the next. */
  function DeliverMany<S>(w: World<S>, run: Run<S>, settlings: seq<Settling>, n: nat): (after: Run<S>)
    requires run.engine.Some? && n <= |run.pending| && n < |settlings|
    ensures after.engine.Some? && after.pending == run.pending[n..] && after.finished == run.finished
  {
    ActAll(w, if n == 0 then run else DeliverNext(w, DeliverMany(w, run, settlings, n - 1)), settlings[n].acts)
  }

  /** A whole settling, with the outcome it decides. */
  function SettleRun<S>(w: World<S>, run: Run<S>, settling: Settling): Run<S>
    requires run.engine.Some?
  {
    var after := ActAll(w, run, settling.acts);
    after.(finished := Decided(w, after.engine.value, settling.end))
  }

  function DeliverAll<S>(w: World<S>, run: Run<S>, settlings: seq<Settling>, n: nat): Run<S>
    requires run.engine.Some? && n <= |run.pending| && n < |settlings|
  {
    var after := DeliverMany(w, run, settlings, n);
    after.(finished := Decided(w, after.engine.value, settlings[n].end))
  }

  lemma DeliverOneMore<S>(w: World<S>, run: Run<S>, settlings: seq<Settling>, n: nat)
    requires run.engine.Some? && run.finished.None? && n < |run.pending| && n + 1 < |settlings|
    requires DeliverAll(w, run, settlings, n).finished.None?
    ensures settlings[n].end.AtRest? || settlings[n].end.OutOfTime?
    ensures DeliverAll(w, run, settlings, n) == DeliverMany(w, run, settlings, n)
    ensures DeliverAll(w, run, settlings, n + 1) ==
            SettleRun(w, DeliverNext(w, DeliverMany(w, run, settlings, n)), settlings[n + 1])
  {
  }

  /** Only the signal loop itself applies signals. */
  predicate NoSignals(acts: seq<Act>)
  {
    forall i :: 0 <= i < |acts| && acts[i].Fed? ==> !acts[i].input.Applied?
  }

  function SnapshotIds<S>(saving: seq<Snapshot<S>>): seq<nat>
  {
    if saving == [] then [] else SnapshotIds(saving[..|saving| - 1]) + saving[|saving| - 1].consumed
  }

  /** The ids the queued snapshots took, then those consumed since. */
  function AllConsumed<S>(run: Run<S>): seq<nat>
  {
    SnapshotIds(run.saving) + run.consumed
  }

  lemma {:induction false} ActsConsumeNothing<S>(w: World<S>, run: Run<S>, acts: seq<Act>)
    requires run.engine.Some? && NoSignals(acts)
    ensures AllConsumed(ActAll(w, run, acts)) == AllConsumed(run)
    ensures Delivered(ActAll(w, run, acts).hist) == Delivered(run.hist)
  {
    if acts != [] {
      var before := ActAll(w, run, acts[..|acts| - 1]);
      ActsConsumeNothing(w, run, acts[..|acts| - 1]);
      match acts[|acts| - 1]
      case Issued(_) =>
      case Fed(input) => DeliveredStep(before.hist, input);
      case Saved => SnapshotTakesIds(w, before);
    }
  }

  lemma SnapshotTakesIds<S>(w: World<S>, run: Run<S>)
    requires run.engine.Some?
    ensures AllConsumed(QueueSnapshot(w, run)) == AllConsumed(run)
  {
    var saving := QueueSnapshot(w, run).saving;
    assert saving[..|saving| - 1] == run.saving;
  }

  /**
    The history gains just those signals, in order, and exactly their ids are
    in the queued snapshots or consumed since, whatever else happens meanwhile.
  */
  lemma {:induction false} DeliverManyConsumes<S>(w: World<S>, run: Run<S>, settlings: seq<Settling>, n: nat)
    requires run.engine.Some? && n <= |run.pending| && n < |settlings|
    requires forall k :: 0 <= k <= n ==> NoSignals(settlings[k].acts)
    ensures AllConsumed(DeliverMany(w, run, settlings, n)) == AllConsumed(run) + Ids(run.pending[..n])
    ensures Delivered(DeliverMany(w, run, settlings, n).hist) == Delivered(run.hist) + run.pending[..n]
  {
    if n == 0 {
      ActsConsumeNothing(w, run, settlings[0].acts);
    } else {
      var before := DeliverMany(w, run, settlings, n - 1);
      DeliverManyConsumes(w, run, settlings, n - 1);
      DeliverNextConsumes(w, before);
      ActsConsumeNothing(w, DeliverNext(w, before), settlings[n].acts);
      OneMore(run.pending, n, before.pending[0]);
      Regroup(AllConsumed(run), Ids(run.pending[..n - 1]), [before.pending[0].id]);
      Regroup(Delivered(run.hist), run.pending[..n - 1], [before.pending[0]]);
    }
  }

  lemma OneMore(signals: seq<Signal>, n: nat, next: Signal)
    requires 0 < n <= |signals| && next == signals[n - 1..][0]
    ensures signals[..n] == signals[..n - 1] + [next]
    ensures Ids(signals[..n]) == Ids(signals[..n - 1]) + [next.id]
  {
  }

  lemma DeliverNextConsumes<S>(w: World<S>, run: Run<S>)
    requires run.engine.Some? && run.pending != []
    ensures AllConsumed(DeliverNext(w, run)) == AllConsumed(run) + [run.pending[0].id]
    ensures Delivered(DeliverNext(w, run).hist) == Delivered(run.hist) + [run.pending[0]]
  {
    DeliveredStep(run.hist, Applied(run.pending[0]));
    Regroup(SnapshotIds(run.saving), run.consumed, [run.pending[0].id]);
  }

  datatype Timer = Timer(bpmn: bool, due: Time)

  /** The due time of the first BPMN timer to fire, or None without one. */
  ghost predicate IsEarliest(earliest: Option<Time>, timers: seq<Timer>)
  {
    match earliest
    case None => forall i :: 0 <= i < |timers| ==> !timers[i].bpmn
    case Some(due) =>
      && (exists i :: 0 <= i < |timers| && timers[i].bpmn && timers[i].due == due)
      && forall i :: 0 <= i < |timers| && timers[i].bpmn ==> due <= timers[i].due
  }

  /** What the loop does are the run's own steps in `Protocol`. */
  lemma LoopTakesSteps<S>(w: World<S>, s: Sys<S>, o: Owner, act: Act)
    requires o in s.runs && Undecided(s.runs[o])
    ensures act.Issued? && Enabled(w, s, Issue(o, act.call)) ==>
              Apply(w, s, Issue(o, act.call)).runs[o] == ActOn(w, s.runs[o], act)
    ensures act.Fed? && Enabled(w, s, Feed(o, act.input)) ==>
              Apply(w, s, Feed(o, act.input)).runs[o] == ActOn(w, s.runs[o], act)
    ensures act.Saved? ==> Apply(w, s, TakeSnapshot(o)).runs[o] == ActOn(w, s.runs[o], act)
    ensures s.runs[o].pending != [] ==> Apply(w, s, Deliver(o)).runs[o] == DeliverNext(w, s.runs[o])
  {
  }

  /** And what a settling decides is what the engine's end or a break decides there, and nothing else does. */
  lemma SettlingDecides<S>(w: World<S>, s: Sys<S>, o: Owner, settled: Settled)
    requires o in s.runs && Undecided(s.runs[o])
    ensures var decided := s.runs[o].(finished := Decided(w, s.runs[o].engine.value, settled));
            match settled
            case AtRest => decided == s.runs[o]
            case OutOfTime => decided == s.runs[o]
            case Ended => decided == Apply(w, s, End(o)).runs[o]
            case Broke(error) => decided == Apply(w, s, Break(o, error)).runs[o]
  {
  }

  /** What the run then returns is what it closes with there. */
  lemma FinishCloses<S>(w: World<S>, s: Sys<S>, o: Owner, wakeAt: Option<Time>)
    requires o in s.runs && s.runs[o].phase.Live? && s.runs[o].engine.Some?
    ensures var run := s.runs[o];
            Apply(w, s, Close(o, wakeAt)).runs[o].phase ==
            Closed(if run.finished.Some? then run.finished.value
                   else Parks(run.engine.value, w.engine.vars(run.engine.value), wakeAt))
  {
  }

  class InstanceRunner<S> {
    var engine: S
    var pending: seq<Signal>
    var consumed: seq<nat>
    var saving: seq<Snapshot<S>>
    var finished: Option<Outcome<S>>
    var inflight: set<Call>
    var hist: History

    ghost function AsRun(): Run<S>
      reads this
    {
      Run(Live, None, map[], Some(engine), pending, consumed, saving, finished, inflight, hist, [], false)
    }

    constructor (engine: S, signals: seq<Signal>, hist: History)
      ensures AsRun() == Run(Live, None, map[], Some(engine), signals, [], [], None, {}, hist, [], false)
    {
      this.engine, this.pending, this.hist := engine, signals, hist;
      this.consumed, this.saving, this.finished, this.inflight := [], [], None, {};
    }

    method DeliverOne(w: World<S>)
      requires pending != []
      modifies this
      ensures AsRun() == DeliverNext(w, old(AsRun()))
    {
      var signal := pending[0];
      engine := w.engine.step(engine, Applied(signal));
      hist := hist + [Applied(signal)];
      consumed := consumed + [signal.id];
      pending := pending[1..];
    }

    /** The first outcome stands: nothing sets `finished` a second time. */
    method Decide(w: World<S>, settled: Settled)
      modifies this`finished
      ensures finished == if old(finished).Some? then old(finished) else Decided(w, engine, settled)
    {
      if finished.None? {
        match settled {
          case AtRest =>
          case OutOfTime =>
          case Ended => finished := Some(Completes(w.engine.vars(engine)));
          case Broke(error) => finished := Some(Fails(error));
        }
      }
    }

    /** A checkpoint's snapshot: `consumed.splice(0)` moves the ids into it. */
    method TakeSnapshot(w: World<S>)
      modifies this
      ensures AsRun() == QueueSnapshot(w, old(AsRun()))
    {
      var taken := consumed;
      consumed := [];
      saving := saving + [Snapshot(engine, w.engine.vars(engine), taken, hist)];
    }

    /** One thing that happens while the engine settles. */
    method Act(w: World<S>, act: Act)
      modifies this
      ensures AsRun() == ActOn(w, old(AsRun()), act)
    {
      match act {
        case Issued(call) => inflight := inflight + {call};
        case Fed(input) =>
          engine := w.engine.step(engine, input);
          hist := hist + [input];
        case Saved => TakeSnapshot(w);
      }
    }

    /** Wait until the engine is at rest, out of time, or done. */
    method Settle(w: World<S>, settling: Settling)
      requires finished.None?
      modifies this
      ensures AsRun() == SettleRun(w, old(AsRun()), settling)
    {
      ghost var start := AsRun();
      for i := 0 to |settling.acts|
        invariant AsRun() == ActAll(w, start, settling.acts[..i])
      {
        assert settling.acts[..i + 1][..i] == settling.acts[..i];
        Act(w, settling.acts[i]);
      }
      assert settling.acts[..|settling.acts|] == settling.acts;
      Decide(w, settling.end);
    }

    method DeliverAndSettle(w: World<S>, settling: Settling)
      requires pending != [] && finished.None?
      modifies this
      ensures AsRun() == SettleRun(w, DeliverNext(w, old(AsRun())), settling)
    {
      DeliverOne(w);
      Settle(w, settling);
    }

    /**
      The signal loop: deliver while the engine is at rest and undecided.
      `settlings[0]` is how the start settles, `settlings[k]` how the k-th
      delivery does.
    */
    method DeliverSignals(w: World<S>, settlings: seq<Settling>) returns (n: nat, atRest: bool)
      requires |settlings| == |pending| + 1 && finished.None?
      modifies this
      ensures n <= |old(pending)|
      ensures forall k :: 0 <= k < n ==> settlings[k].end.AtRest?
      ensures n < |old(pending)| ==> !settlings[n].end.AtRest?
      ensures atRest == !settlings[n].end.OutOfTime?
      ensures AsRun() == DeliverAll(w, old(AsRun()), settlings, n)
      ensures finished == match settlings[n].end
                          case AtRest => None
                          case OutOfTime => None
                          case Ended => Some(Completes(w.engine.vars(engine)))
                          case Broke(error) => Some(Fails(error))
    {
      n := 0;
      ghost var start := AsRun();
      Settle(w, settlings[0]);
      atRest := !settlings[0].end.OutOfTime?;
      while pending != [] && atRest && finished.None?
        invariant n <= |start.pending| && pending == start.pending[n..]
        invariant forall k :: 0 <= k < n ==> settlings[k].end.AtRest?
        invariant atRest == !settlings[n].end.OutOfTime?
        invariant AsRun() == DeliverAll(w, start, settlings, n)
        decreases |pending|
      {
        DeliverOneMore(w, start, settlings, n);
        assert settlings[n].end.AtRest?;
        n := n + 1;
        DeliverAndSettle(w, settlings[n]);
        atRest := !settlings[n].end.OutOfTime?;
      }
    }

    /**
      What the run returns: the outcome decided, if any; else a park, to be woken
      by the next timer when the engine is at rest, and at once when time ran out.
    */
    method Finish(w: World<S>, atRest: bool, timers: seq<Timer>, now: Time) returns (outcome: Outcome<S>)
      ensures finished.Some? ==> outcome == finished.value
      ensures finished.None? ==>
                && outcome.Parks? && outcome.state == engine && outcome.variables == w.engine.vars(engine)
                && (!atRest ==> outcome.wakeAt == Some(now))
                && (atRest ==> IsEarliest(outcome.wakeAt, timers))
    {
      if finished.Some? {
        return finished.value;
      }
      var wakeAt := Some(now);
      if atRest {
        wakeAt := NextTimer(timers);
      }
      return Parks(engine, w.engine.vars(engine), wakeAt);
    }

    /** The next BPMN timer to fire; a script's own timers do not wake the instance. */
    method NextTimer(timers: seq<Timer>) returns (earliest: Option<Time>)
      ensures IsEarliest(earliest, timers)
    {
      earliest := None;
      for k := 0 to |timers|
        invariant IsEarliest(earliest, timers[..k])
      {
        assert timers[..k + 1] == timers[..k] + [timers[k]];
        if timers[k].bpmn && (earliest.None? || timers[k].due < earliest.value) {
          earliest := Some(timers[k].due);
          assert timers[..k + 1][k].due == timers[k].due;
        } else if earliest.Some? {
          var i :| 0 <= i < k && timers[..k][i].bpmn && timers[..k][i].due == earliest.value;
          assert timers[..k + 1][i] == timers[..k][i];
        }
      }
      assert timers[..|timers|] == timers;
    }
  }
}
