/** One element's part of an instance's log, grouped into one entry per time it ran. */
module ElementRuns {
  import opened Base
  import opened Json
  import VariableChanges

  type Row = Json

  datatype Body =
    | Started
    | Waited
    | Signalled(payload: Json)
    | TookInputs(rows: seq<Row>)
    | GaveOutputs(rows: seq<Row>)
    | Ended(output: Option<Json>)
    | Errored
    | Discarded

  datatype Event = Event(id: nat, at: Time, body: Body)

  datatype Draft = Draft(
    startedAt: Option<Time>,
    endedAt: Option<Time>,
    waitedAt: Option<Time>,
    failed: bool,
    interrupted: bool,
    signals: seq<(Time, Json)>,
    inputs: seq<Row>,
    outputs: seq<Row>,
    output: Option<Json>,
    startId: Option<nat>,
    endId: Option<nat>)

  const EMPTY := Draft(None, None, None, false, false, [], [], [], None, None, None)

  predicate InIdOrder(log: seq<Event>)
  {
    forall i, j :: 0 <= i < j < |log| ==> log[i].id < log[j].id
  }

  // ---------------------------------------------------------------- what the grouping means

  /** The log cut before every start. */
  function Segments(log: seq<Event>): (segments: seq<seq<Event>>)
    ensures log != [] ==> segments != []
  {
    if log == [] then []
    else
      var before, last := Segments(log[..|log| - 1]), log[|log| - 1];
      if last.body.Started? || before == [] then before + [[last]]
      else before[..|before| - 1] + [before[|before| - 1] + [last]]
  }

  function SignalsOf(log: seq<Event>): seq<(Time, Json)>
  {
    if log == [] then []
    else
      var last := log[|log| - 1];
      SignalsOf(log[..|log| - 1]) + (if last.body.Signalled? then [(last.at, last.body.payload)] else [])
  }

  function InputsOf(log: seq<Event>): seq<Row>
  {
    if log == [] then []
    else
      var last := log[|log| - 1];
      InputsOf(log[..|log| - 1]) + (if last.body.TookInputs? then last.body.rows else [])
  }

  function OutputsOf(log: seq<Event>): seq<Row>
  {
    if log == [] then []
    else
      var last := log[|log| - 1];
      OutputsOf(log[..|log| - 1]) + (if last.body.GaveOutputs? then last.body.rows else [])
  }

  datatype Sort = Wait | End | Close | Error | Discard

  predicate Is(e: Event, sort: Sort)
  {
    match sort
    case Wait => e.body.Waited?
    case End => e.body.Ended?
    case Close => e.body.Ended? || e.body.Discarded?
    case Error => e.body.Errored?
    case Discard => e.body.Discarded?
  }

  /** The latest event of a sort. */
  function Latest(log: seq<Event>, sort: Sort): Option<Event>
  {
    if log == [] then None
    else if Is(log[|log| - 1], sort) then Some(log[|log| - 1])
    else Latest(log[..|log| - 1], sort)
  }

  /** What one run's entry says about its events. */
  ghost predicate Describes(d: Draft, log: seq<Event>)
  {
    && log != []
    && d.signals == SignalsOf(log) && d.inputs == InputsOf(log) && d.outputs == OutputsOf(log)
    && d.startId == (if log[0].body.Started? then Some(log[0].id) else None)
    && d.startedAt == (if log[0].body.Started? then Some(log[0].at) else None)
    && (d.failed <==> Latest(log, Error).Some?)
    && (d.interrupted <==> Latest(log, Discard).Some?)
    && d.waitedAt == (match Latest(log, Wait) case None => None case Some(e) => Some(e.at))
    && d.endedAt == (match Latest(log, Close) case None => None case Some(e) => Some(e.at))
    && (match Latest(log, End)
        case None => d.endId.None? && d.output.None?
        case Some(e) => d.endId == Some(e.id) && e.body.Ended? && d.output == e.body.output)
  }

  /** The event's effect on the entry of the run it belongs to. */
  function Extend(d: Draft, e: Event): Draft
  {
    match e.body
    case Started => d
    case Waited => d.(waitedAt := Some(e.at))
    case Signalled(payload) => d.(signals := d.signals + [(e.at, payload)])
    case TookInputs(rows) => d.(inputs := d.inputs + rows)
    case GaveOutputs(rows) => d.(outputs := d.outputs + rows)
    case Ended(output) => d.(endedAt := Some(e.at), endId := Some(e.id), output := output)
    case Errored => d.(failed := true)
    case Discarded => d.(interrupted := true, endedAt := Some(e.at))
  }

  function Opened(e: Event): Draft
  {
    if e.body.Started? then EMPTY.(startedAt := Some(e.at), startId := Some(e.id)) else Extend(EMPTY, e)
  }

  lemma OpenDescribes(e: Event)
    ensures Describes(Opened(e), [e])
  {
    assert [e][..0] == [];
  }

  lemma LatestStep(log: seq<Event>, e: Event, sort: Sort)
    ensures Latest(log + [e], sort) == if Is(e, sort) then Some(e) else Latest(log, sort)
  {
    assert (log + [e])[..|log|] == log;
  }

  lemma RowsStep(log: seq<Event>, e: Event)
    ensures SignalsOf(log + [e]) == SignalsOf(log) + (if e.body.Signalled? then [(e.at, e.body.payload)] else [])
    ensures InputsOf(log + [e]) == InputsOf(log) + (if e.body.TookInputs? then e.body.rows else [])
    ensures OutputsOf(log + [e]) == OutputsOf(log) + (if e.body.GaveOutputs? then e.body.rows else [])
  {
    assert (log + [e])[..|log|] == log;
  }

  lemma ExtendDescribes(d: Draft, log: seq<Event>, e: Event)
    requires Describes(d, log) && !e.body.Started?
    ensures Describes(Extend(d, e), log + [e])
  {
    RowsStep(log, e);
    LatestStep(log, e, Wait);
    LatestStep(log, e, End);
    LatestStep(log, e, Close);
    LatestStep(log, e, Error);
    LatestStep(log, e, Discard);
    assert (log + [e])[0] == log[0];
  }

  ghost predicate AllDescribe(runs: seq<Draft>, segments: seq<seq<Event>>)
  {
    |runs| == |segments| && forall i {:trigger Describes(runs[i], segments[i])} :: 0 <= i < |runs| ==>
      Describes(runs[i], segments[i])
  }

  function Flatten(segments: seq<seq<Event>>): seq<Event>
  {
    if segments == [] then [] else Flatten(segments[..|segments| - 1]) + segments[|segments| - 1]
  }

  lemma SegmentsStep(log: seq<Event>, e: Event)
    ensures var before := Segments(log);
            Segments(log + [e]) ==
            if e.body.Started? || before == [] then before + [[e]]
            else before[..|before| - 1] + [before[|before| - 1] + [e]]
  {
    assert (log + [e])[..|log|] == log;
  }

  lemma AllDescribeFront(runs: seq<Draft>, segments: seq<seq<Event>>)
    requires AllDescribe(runs, segments) && runs != []
    ensures var n := |runs| - 1; AllDescribe(runs[..n], segments[..n]) && Describes(runs[n], segments[n])
  {
    var n := |runs| - 1;
    forall k | 0 <= k < n ensures Describes(runs[..n][k], segments[..n][k]) {
      assert Describes(runs[k], segments[k]);
    }
    assert Describes(runs[n], segments[n]);
  }

  lemma AllDescribeStep(runs: seq<Draft>, segments: seq<seq<Event>>, d: Draft, log: seq<Event>)
    requires AllDescribe(runs, segments) && Describes(d, log)
    ensures AllDescribe(runs + [d], segments + [log])
  {
    forall k | 0 <= k <= |runs| ensures Describes((runs + [d])[k], (segments + [log])[k]) {
      assert k < |runs| ==> Describes(runs[k], segments[k]);
    }
  }

  function Grouped(runs: seq<Draft>, e: Event): seq<Draft>
  {
    if e.body.Started? || runs == [] then runs + [Opened(e)]
    else runs[..|runs| - 1] + [Extend(runs[|runs| - 1], e)]
  }

  lemma GroupedDescribes(runs: seq<Draft>, log: seq<Event>, e: Event)
    requires AllDescribe(runs, Segments(log))
    ensures AllDescribe(Grouped(runs, e), Segments(log + [e]))
  {
    var before, n := Segments(log), |runs| - 1;
    SegmentsStep(log, e);
    if e.body.Started? || runs == [] {
      OpenDescribes(e);
      AllDescribeStep(runs, before, Opened(e), [e]);
    } else {
      AllDescribeFront(runs, before);
      ExtendDescribes(runs[n], before[n], e);
      AllDescribeStep(runs[..n], before[..n], Extend(runs[n], e), before[n] + [e]);
    }
  }

  /** The grouping loop; `current()` opens an entry when the log begins without a start. */
  method GroupRuns(log: seq<Event>) returns (runs: seq<Draft>)
    ensures AllDescribe(runs, Segments(log))
  {
    runs := [];
    for i := 0 to |log|
      invariant AllDescribe(runs, Segments(log[..i]))
    {
      var e := log[i];
      ghost var before := runs;
      GroupedDescribes(before, log[..i], e);
      assert log[..i + 1] == log[..i] + [e];
      if e.body.Started? {
        runs := runs + [Opened(e)];
      } else {
        if runs == [] {
          runs := [EMPTY];
          assert runs[..0] == before;
        }
        var current := runs[|runs| - 1];
        runs := runs[..|runs| - 1] + [Extend(current, e)];
      }
    }
    assert log[..|log|] == log;
  }

  /**
    What a run's entry says, event by event: every time and output is that of
    the last such event, a failure or an interruption is one that happened
    anywhere in the run, and the beginning is only known from a start.
  */
  lemma {:induction false} RunMeans(runs: seq<Draft>, log: seq<Event>, i: nat, k: nat)
    requires AllDescribe(runs, Segments(log)) && i < |runs| && k < |Segments(log)[i]|
    requires forall l :: k < l < |Segments(log)[i]| ==> !SameColumn(Segments(log)[i][l].body, Segments(log)[i][k].body)
    ensures var d, first, e := runs[i], Segments(log)[i][0], Segments(log)[i][k];
            match e.body
            case Started => k == 0 ==> d.startedAt == Some(e.at) && d.startId == Some(e.id)
            case Waited => d.waitedAt == Some(e.at)
            case Ended(output) =>
              && d.endId == Some(e.id) && d.output == output
              && (LastToClose(Segments(log)[i], k) ==> d.endedAt == Some(e.at))
            case Errored => d.failed
            case Discarded => d.interrupted && (LastToClose(Segments(log)[i], k) ==> d.endedAt == Some(e.at))
            case _ => true
  {
    var segment := Segments(log)[i];
    assert Describes(runs[i], segment);
    match segment[k].body
    case Waited => LatestIs(segment, Wait, k);
    case Ended(output) =>
      LatestIs(segment, End, k);
      if LastToClose(segment, k) { LatestIs(segment, Close, k); }
    case Errored => LatestIs(segment, Error, k);
    case Discarded =>
      LatestIs(segment, Discard, k);
      if LastToClose(segment, k) { LatestIs(segment, Close, k); }
    case _ =>
  }

  /** And nothing else: what no event of the run says is left open. */
  lemma {:induction false} RunMeansNoMore(runs: seq<Draft>, log: seq<Event>, i: nat)
    requires AllDescribe(runs, Segments(log)) && i < |runs|
    ensures var d, segment := runs[i], Segments(log)[i];
            && segment != []
            && (!segment[0].body.Started? ==> d.startedAt.None? && d.startId.None?)
            && (d.waitedAt.Some? ==> exists k :: 0 <= k < |segment| && segment[k].body.Waited?)
            && (d.failed ==> exists k :: 0 <= k < |segment| && segment[k].body.Errored?)
            && (d.interrupted ==> exists k :: 0 <= k < |segment| && segment[k].body.Discarded?)
            && (d.endId.Some? || d.output.Some? ==> exists k :: 0 <= k < |segment| && segment[k].body.Ended?)
            && (d.endedAt.Some? ==>
                  exists k :: 0 <= k < |segment| && (segment[k].body.Ended? || segment[k].body.Discarded?))
  {
    var segment := Segments(log)[i];
    assert Describes(runs[i], segment);
    forall sort: Sort | Latest(segment, sort).Some?
      ensures exists k :: 0 <= k < |segment| && Is(segment[k], sort)
    {
      LatestIsIn(segment, sort);
    }
    if Latest(segment, Error).Some? { var k :| 0 <= k < |segment| && Is(segment[k], Error); }
  }

  /** Whether what an event of kind `a` says replaces what one of kind `b` said. */
  predicate SameColumn(a: Body, b: Body)
  {
    match b
    case Waited => a.Waited?
    case Ended(_) => a.Ended?
    case _ => false
  }

  ghost predicate LastToClose(segment: seq<Event>, k: nat)
    requires k < |segment|
  {
    forall l :: k < l < |segment| ==> !segment[l].body.Ended? && !segment[l].body.Discarded?
  }

  lemma {:induction false} LatestIs(log: seq<Event>, sort: Sort, k: nat)
    requires k < |log| && Is(log[k], sort)
    ensures Latest(log, sort).Some?
    ensures (forall l :: k < l < |log| ==> !Is(log[l], sort)) ==> Latest(log, sort) == Some(log[k])
  {
    var init := log[..|log| - 1];
    if k < |init| {
      LatestIs(init, sort, k);
      if !Is(log[|log| - 1], sort) {
        assert forall l :: k < l < |init| ==> init[l] == log[l];
      }
    }
  }

  /** `where` points at the log's signal events, all of them and in order, and `signals` is what they say. */
  ghost predicate Picks(log: seq<Event>, signals: seq<(Time, Json)>, where: seq<nat>)
  {
    && |where| == |signals|
    && (forall i, j :: 0 <= i < j < |where| ==> where[i] < where[j])
    && (forall i :: 0 <= i < |where| ==>
          where[i] < |log| && log[where[i]].at == signals[i].0 && log[where[i]].body == Signalled(signals[i].1))
    && (forall k :: 0 <= k < |log| && log[k].body.Signalled? ==> k in where)
  }

  lemma PicksMore(log: seq<Event>, e: Event, signals: seq<(Time, Json)>, where: seq<nat>)
    requires Picks(log, signals, where)
    ensures e.body.Signalled? ==> Picks(log + [e], signals + [(e.at, e.body.payload)], where + [|log|])
    ensures !e.body.Signalled? ==> Picks(log + [e], signals, where)
  {
    var more := log + [e];
    forall k | 0 <= k < |more| && more[k].body.Signalled? ensures k in where + [|log|] {
      assert k < |log| ==> more[k] == log[k];
    }
  }

  /** The signals listed are the log's signals, each with its time and payload, in log order. */
  lemma {:induction false} SignalsAreTheLogs(log: seq<Event>) returns (where: seq<nat>)
    ensures Picks(log, SignalsOf(log), where)
  {
    if log == [] {
      where := [];
    } else {
      var n := |log| - 1;
      where := SignalsAreTheLogs(log[..n]);
      PicksMore(log[..n], log[n], SignalsOf(log[..n]), where);
      assert log == log[..n] + [log[n]];
      if log[n].body.Signalled? {
        where := where + [n];
      }
    }
  }

  /** A mapping row is listed as often as the log's events of its kind hold it, and in their order. */
  lemma RowsAreTheLogs(before: seq<Event>, e: Event, after: seq<Event>)
    ensures InputsOf(before + [e] + after) ==
              InputsOf(before) + (match e.body case TookInputs(rows) => rows case _ => []) + InputsOf(after)
    ensures OutputsOf(before + [e] + after) ==
              OutputsOf(before) + (match e.body case GaveOutputs(rows) => rows case _ => []) + OutputsOf(after)
    ensures InputsOf([]) == [] && OutputsOf([]) == []
  {
    InputsConcat(before + [e], after);
    OutputsConcat(before + [e], after);
    RowsStep(before, e);
  }

  // ---------------------------------------------------------------- the grouping loses nothing

  lemma FlattenStep(segments: seq<seq<Event>>, last: seq<Event>)
    ensures Flatten(segments + [last]) == Flatten(segments) + last
  {
    assert (segments + [last])[..|segments|] == segments;
  }

  lemma GrowLast(segments: seq<seq<Event>>, e: Event)
    requires segments != []
    ensures Flatten(segments[..|segments| - 1] + [segments[|segments| - 1] + [e]]) == Flatten(segments) + [e]
  {
    var front, last := segments[..|segments| - 1], segments[|segments| - 1];
    FlattenStep(front, last + [e]);
    assert Flatten(front) + (last + [e]) == Flatten(front) + last + [e];
  }

  /** Put back together, the segments are the log. */
  lemma {:induction false} SegmentsCover(log: seq<Event>)
    ensures Flatten(Segments(log)) == log
  {
    if log != [] {
      var init, last := log[..|log| - 1], log[|log| - 1];
      SegmentsCover(init);
      var before := Segments(init);
      if last.body.Started? || before == [] {
        FlattenStep(before, [last]);
      } else {
        GrowLast(before, last);
      }
      assert log == init + [last];
    }
  }

  /** Each segment but the first begins with a start, and none has a start further in. */
  lemma {:induction false} SegmentsBeginWithStarts(log: seq<Event>)
    ensures forall k :: 0 <= k < |Segments(log)| ==>
            OneRun(Segments(log)[k]) && (k > 0 ==> Segments(log)[k][0].body.Started?)
  {
    if log != [] {
      var init, e := log[..|log| - 1], log[|log| - 1];
      SegmentsBeginWithStarts(init);
      SegmentsStep(init, e);
      assert log == init + [e];
      var before := Segments(init);
      if !e.body.Started? && before != [] {
        var last := before[|before| - 1];
        assert OneRun(last + [e]) && (last + [e])[0] == last[0];
      }
    }
  }

  ghost predicate OneRun(segment: seq<Event>)
  {
    segment != [] && forall i :: 0 < i < |segment| ==> !segment[i].body.Started?
  }

  function Starts(log: seq<Event>): nat
  {
    if log == [] then 0 else Starts(log[..|log| - 1]) + (if log[|log| - 1].body.Started? then 1 else 0)
  }

  /** One run per start, plus one when the log opens without a start. */
  lemma {:induction false} RunsCountStarts(log: seq<Event>)
    ensures |Segments(log)| == Starts(log) + (if log != [] && !log[0].body.Started? then 1 else 0)
  {
    if log != [] {
      RunsCountStarts(log[..|log| - 1]);
    }
  }

  lemma {:induction false} SignalsConcat(a: seq<Event>, b: seq<Event>)
    ensures SignalsOf(a + b) == SignalsOf(a) + SignalsOf(b)
  {
    if b == [] {
      assert a + b == a;
    } else {
      var init, last := b[..|b| - 1], b[|b| - 1];
      SignalsConcat(a, init);
      assert a + b == a + init + [last] && b == init + [last];
      RowsStep(a + init, last);
      RowsStep(init, last);
    }
  }

  lemma {:induction false} InputsConcat(a: seq<Event>, b: seq<Event>)
    ensures InputsOf(a + b) == InputsOf(a) + InputsOf(b)
  {
    if b == [] {
      assert a + b == a;
    } else {
      var init, last := b[..|b| - 1], b[|b| - 1];
      InputsConcat(a, init);
      assert a + b == a + init + [last] && b == init + [last];
      RowsStep(a + init, last);
      RowsStep(init, last);
    }
  }

  lemma {:induction false} OutputsConcat(a: seq<Event>, b: seq<Event>)
    ensures OutputsOf(a + b) == OutputsOf(a) + OutputsOf(b)
  {
    if b == [] {
      assert a + b == a;
    } else {
      var init, last := b[..|b| - 1], b[|b| - 1];
      OutputsConcat(a, init);
      assert a + b == a + init + [last] && b == init + [last];
      RowsStep(a + init, last);
      RowsStep(init, last);
    }
  }

  function AllSignals(runs: seq<Draft>): seq<(Time, Json)>
  {
    if runs == [] then [] else AllSignals(runs[..|runs| - 1]) + runs[|runs| - 1].signals
  }

  function AllInputs(runs: seq<Draft>): seq<Row>
  {
    if runs == [] then [] else AllInputs(runs[..|runs| - 1]) + runs[|runs| - 1].inputs
  }

  function AllOutputs(runs: seq<Draft>): seq<Row>
  {
    if runs == [] then [] else AllOutputs(runs[..|runs| - 1]) + runs[|runs| - 1].outputs
  }

  lemma {:induction false} RunsFlatten(runs: seq<Draft>, segments: seq<seq<Event>>)
    requires AllDescribe(runs, segments)
    ensures AllSignals(runs) == SignalsOf(Flatten(segments))
    ensures AllInputs(runs) == InputsOf(Flatten(segments))
    ensures AllOutputs(runs) == OutputsOf(Flatten(segments))
  {
    if runs != [] {
      var n := |runs| - 1;
      AllDescribeFront(runs, segments);
      RunsFlatten(runs[..n], segments[..n]);
      SignalsConcat(Flatten(segments[..n]), segments[n]);
      InputsConcat(Flatten(segments[..n]), segments[n]);
      OutputsConcat(Flatten(segments[..n]), segments[n]);
    }
  }

  /** Every signal, input row and output row of the log is in exactly one run, in log order. */
  lemma {:induction false} RunsConserveRows(runs: seq<Draft>, log: seq<Event>)
    requires AllDescribe(runs, Segments(log))
    ensures AllSignals(runs) == SignalsOf(log) && AllInputs(runs) == InputsOf(log) && AllOutputs(runs) == OutputsOf(log)
  {
    SegmentsCover(log);
    RunsFlatten(runs, Segments(log));
  }

  // ---------------------------------------------------------------- whose snapshot is whose

  /** A `variables` event of the instance; `own` says whether it names this element. */
  datatype Snapshot = Snapshot(id: nat, own: bool, payload: Json)

  predicate SnapshotsInOrder(snapshots: seq<Snapshot>)
  {
    forall i, j :: 0 <= i < j < |snapshots| ==> snapshots[i].id < snapshots[j].id
  }

  /** What the element wrote when it finished, before it started again. */
  predicate Owned(s: Snapshot, endId: nat, nextStart: Option<nat>)
  {
    s.own && endId < s.id && (nextStart.Some? ==> s.id < nextStart.value)
  }

  method FindOwn(snapshots: seq<Snapshot>, endId: nat, nextStart: Option<nat>) returns (found: Option<nat>)
    ensures found.None? <==> forall i :: 0 <= i < |snapshots| ==> !Owned(snapshots[i], endId, nextStart)
    ensures found.Some? ==> found.value < |snapshots| && Owned(snapshots[found.value], endId, nextStart) &&
                            forall i :: 0 <= i < found.value ==> !Owned(snapshots[i], endId, nextStart)
  {
    for i := 0 to |snapshots|
      invariant forall k :: 0 <= k < i ==> !Owned(snapshots[k], endId, nextStart)
    {
      if Owned(snapshots[i], endId, nextStart) {
        return Some(i);
      }
    }
    return None;
  }

  /** The latest snapshot before an id. */
  method LastBefore(snapshots: seq<Snapshot>, id: nat) returns (payload: Option<Json>)
    ensures payload == Before(snapshots, id)
  {
    payload := None;
    for i := 0 to |snapshots|
      invariant payload == Before(snapshots[..i], id)
    {
      assert snapshots[..i + 1][..i] == snapshots[..i];
      if snapshots[i].id < id {
        payload := Some(snapshots[i].payload);
      }
    }
    assert snapshots[..|snapshots|] == snapshots;
  }

  function Before(snapshots: seq<Snapshot>, id: nat): Option<Json>
  {
    if snapshots == [] then None
    else if snapshots[|snapshots| - 1].id < id then Some(snapshots[|snapshots| - 1].payload)
    else Before(snapshots[..|snapshots| - 1], id)
  }

  /** The payload before an id is that of the snapshot with the greatest smaller id, if there is one. */
  lemma {:induction false} BeforeIsLatest(snapshots: seq<Snapshot>, id: nat)
    requires SnapshotsInOrder(snapshots)
    ensures Before(snapshots, id).None? <==> forall k :: 0 <= k < |snapshots| ==> id <= snapshots[k].id
    ensures forall k ::
              0 <= k < |snapshots| && snapshots[k].id < id &&
              (forall l :: 0 <= l < |snapshots| && snapshots[l].id < id ==> snapshots[l].id <= snapshots[k].id) ==>
                Before(snapshots, id) == Some(snapshots[k].payload)
  {
    if snapshots != [] {
      var n := |snapshots| - 1;
      BeforeIsLatest(snapshots[..n], id);
      forall k | 0 <= k < n ensures snapshots[..n][k] == snapshots[k] && snapshots[k].id < snapshots[n].id {
      }
    }
  }

  function NextStart(runs: seq<Draft>, i: nat): Option<nat>
  {
    if i + 1 < |runs| then runs[i + 1].startId else None
  }

  /** After the run ended, and before the next one started. */
  predicate WrittenBetween(runs: seq<Draft>, i: nat, id: nat)
    requires i < |runs| && runs[i].endId.Some?
  {
    && runs[i].endId.value < id
    && (i + 1 < |runs| && runs[i + 1].startId.Some? ==> id < runs[i + 1].startId.value)
  }

  datatype View = View(variables: Option<Json>, own: Option<nat>, changes: Option<seq<VariableChanges.Change>>)

  /** The variables shown with a run, and what that run itself changed. */
  method ViewOf(runs: seq<Draft>, i: nat, snapshots: seq<Snapshot>, current: Json, names: Fields -> seq<string>)
    returns (view: View)
    requires i < |runs| && forall m :: Lists(names(m), m)
    ensures runs[i].interrupted ==> view == View(None, None, None)
    ensures !runs[i].interrupted && runs[i].endId.None? ==> view == View(Some(current), None, None)
    ensures view.own.Some? ==>
              && view.own.value < |snapshots| && runs[i].endId.Some?
              && (forall k :: 0 <= k <= view.own.value ==>
                    (k == view.own.value <==> snapshots[k].own && WrittenBetween(runs, i, snapshots[k].id)))
              && view.variables == Some(snapshots[view.own.value].payload)
              && view.changes.Some?
              && VariableChanges.IsDiff(view.changes.value,
                   VariableChanges.SnapshotVariables(Before(snapshots, snapshots[view.own.value].id)),
                   VariableChanges.SnapshotVariables(Some(snapshots[view.own.value].payload)))
    ensures !runs[i].interrupted && runs[i].endId.Some? && view.own.None? ==>
              && (forall k :: 0 <= k < |snapshots| ==>
                    !(snapshots[k].own && WrittenBetween(runs, i, snapshots[k].id)))
              && view.variables == Before(snapshots, runs[i].endId.value) && view.changes == Some([])
  {
    if runs[i].interrupted {
      return View(None, None, None);
    }
    if runs[i].endId.None? {
      return View(Some(current), None, None);
    }
    var own := FindOwn(snapshots, runs[i].endId.value, NextStart(runs, i));
    if own.None? {
      var earlier := LastBefore(snapshots, runs[i].endId.value);
      return View(earlier, None, Some([]));
    }
    var written := snapshots[own.value];
    var before := LastBefore(snapshots, written.id);
    var was, now := VariableChanges.SnapshotVariables(before), VariableChanges.SnapshotVariables(Some(written.payload));
    var changes := VariableChanges.Diff(before, Some(written.payload), names(was), names(now));
    return View(Some(written.payload), own, Some(changes));
  }

  lemma {:induction false} LatestIsIn(log: seq<Event>, sort: Sort)
    requires Latest(log, sort).Some?
    ensures Latest(log, sort).value in log && Is(Latest(log, sort).value, sort)
  {
    if !Is(log[|log| - 1], sort) {
      LatestIsIn(log[..|log| - 1], sort);
    }
  }

  lemma {:induction false} FlattenOrder(segments: seq<seq<Event>>, i: nat, j: nat, a: nat, b: nat)
    requires i < j < |segments| && a < |segments[i]| && b < |segments[j]| && InIdOrder(Flatten(segments))
    ensures segments[i][a].id < segments[j][b].id
    decreases |segments|
  {
    var n := |segments| - 1;
    var front := Flatten(segments[..n]);
    assert Flatten(segments) == front + segments[n];
    assert InIdOrder(front) by {
      assert forall k :: 0 <= k < |front| ==> front[k] == Flatten(segments)[k];
    }
    if j == n {
      InFlatten(segments[..n], i, a);
      var k :| 0 <= k < |front| && front[k] == segments[i][a];
      assert Flatten(segments)[k] == segments[i][a] && Flatten(segments)[|front| + b] == segments[j][b];
    } else {
      FlattenOrder(segments[..n], i, j, a, b);
    }
  }

  lemma {:induction false} InFlatten(segments: seq<seq<Event>>, i: nat, a: nat)
    requires i < |segments| && a < |segments[i]|
    ensures segments[i][a] in Flatten(segments)
    decreases |segments|
  {
    if i < |segments| - 1 {
      InFlatten(segments[..|segments| - 1], i, a);
    }
  }

  /** No snapshot is owned by two runs, and later runs own later snapshots. */
  lemma {:induction false} SnapshotsHaveOneOwner(
      runs: seq<Draft>, log: seq<Event>, snapshots: seq<Snapshot>, i: nat, j: nat, a: nat, b: nat)
    requires InIdOrder(log) && SnapshotsInOrder(snapshots) && AllDescribe(runs, Segments(log))
    requires i < j < |runs| && runs[i].endId.Some? && runs[j].endId.Some? && a < |snapshots| && b < |snapshots|
    requires Owned(snapshots[a], runs[i].endId.value, NextStart(runs, i))
    requires Owned(snapshots[b], runs[j].endId.value, NextStart(runs, j))
    ensures a < b
  {
    NextStartsFirst(runs, log, i, j);
  }

  lemma {:induction false} NextStartsFirst(runs: seq<Draft>, log: seq<Event>, i: nat, j: nat)
    requires InIdOrder(log) && AllDescribe(runs, Segments(log)) && i < j < |runs| && runs[j].endId.Some?
    ensures NextStart(runs, i).Some? && NextStart(runs, i).value <= runs[j].endId.value
  {
    StartOf(runs, log, i + 1);
    var end := EndOf(runs, log, j);
    FirstBeforeLaterOf(log, i + 1, j, end);
  }

  lemma {:induction false} FirstBeforeLaterOf(log: seq<Event>, i: nat, j: nat, e: nat)
    requires InIdOrder(log) && i <= j < |Segments(log)| && Segments(log)[i] != [] && e < |Segments(log)[j]|
    ensures Segments(log)[i][0].id <= Segments(log)[j][e].id
  {
    SegmentsCover(log);
    FirstBeforeLater(Segments(log), i, j, e);
  }

  lemma {:induction false} FirstBeforeLater(segments: seq<seq<Event>>, i: nat, j: nat, e: nat)
    requires i <= j < |segments| && segments[i] != [] && e < |segments[j]| && InIdOrder(Flatten(segments))
    ensures segments[i][0].id <= segments[j][e].id
  {
    if i < j {
      FlattenOrder(segments, i, j, 0, e);
    } else {
      FirstIsLeast(segments, j, e);
    }
  }

  lemma EndOf(runs: seq<Draft>, log: seq<Event>, j: nat) returns (e: nat)
    requires AllDescribe(runs, Segments(log)) && j < |runs| && runs[j].endId.Some?
    ensures e < |Segments(log)[j]| && runs[j].endId == Some(Segments(log)[j][e].id)
  {
    var segment := Segments(log)[j];
    assert Describes(runs[j], segment);
    LatestIsIn(segment, End);
    e :| 0 <= e < |segment| && segment[e] == Latest(segment, End).value;
  }

  lemma StartOf(runs: seq<Draft>, log: seq<Event>, i: nat)
    requires AllDescribe(runs, Segments(log)) && 0 < i < |runs|
    ensures Segments(log)[i] != [] && runs[i].startId == Some(Segments(log)[i][0].id)
  {
    SegmentsBeginWithStarts(log);
    assert OneRun(Segments(log)[i]) && Describes(runs[i], Segments(log)[i]);
  }

  lemma {:induction false} FirstIsLeast(segments: seq<seq<Event>>, j: nat, e: nat)
    requires j < |segments| && e < |segments[j]| && InIdOrder(Flatten(segments))
    ensures segments[j][0].id <= segments[j][e].id
    decreases |segments|
  {
    var n := |segments| - 1;
    var front := Flatten(segments[..n]);
    assert Flatten(segments) == front + segments[n];
    if j == n {
      assert Flatten(segments)[|front|] == segments[j][0] && Flatten(segments)[|front| + e] == segments[j][e];
    } else {
      assert forall k :: 0 <= k < |front| ==> front[k] == Flatten(segments)[k];
      FirstIsLeast(segments[..n], j, e);
    }
  }
}
