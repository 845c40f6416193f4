/**
  Which elements an instance waits on: what the engine says, and what the event
  log says, across runs that park, fail, crash or are taken over. A run's
  entries are written without its lease, and a write that fails is let go.
*/
module WaitingLog {
  import opened Base

  type Element = string

  /** The log's entry types; only some of them bear on waiting. */
  datatype Type = AStart | AWait | AnEnd | AnError | ADiscard | ACancel

  datatype Logged = Logged(kind: Type, element: Option<Element>)

  // ---------------------------------------------------------------- waitingActivities

  function After(waiting: set<Element>, x: Logged): set<Element>
  {
    var left := if x.kind == ACancel then {} else waiting;
    if x.element.None? || x.kind == AStart then left
    else if x.kind == AWait then left + {x.element.value}
    else left - {x.element.value}
  }

  function Waiting(log: seq<Logged>): set<Element>
  {
    if log == [] then {} else After(Waiting(log[..|log| - 1]), log[|log| - 1])
  }

  method WaitingActivities(log: seq<Logged>) returns (waiting: set<Element>)
    ensures waiting == Waiting(log)
  {
    waiting := {};
    for i := 0 to |log|
      invariant waiting == Waiting(log[..i])
    {
      var x := log[i];
      assert log[..i + 1][..i] == log[..i];
      if x.kind == ACancel {
        waiting := {};
      }
      if x.element.None? || x.kind == AStart {
        continue;
      }
      if x.kind == AWait {
        waiting := waiting + {x.element.value};
      } else {
        waiting := waiting - {x.element.value};
      }
    }
    assert log[..|log|] == log;
  }

  predicate EndsWaitOf(x: Logged, e: Element)
  {
    x.kind == ACancel || (x.element == Some(e) && (x.kind == AnEnd || x.kind == AnError || x.kind == ADiscard))
  }

  /** The wait at `i` still stands. */
  ghost predicate Stands(log: seq<Logged>, e: Element, i: nat)
  {
    i < |log| && log[i] == Logged(AWait, Some(e)) && forall j :: i < j < |log| ==> !EndsWaitOf(log[j], e)
  }

  /** An element is waiting exactly when some wait of it was followed by no end, error, discard or cancel. */
  lemma {:induction false} WaitingMeans(log: seq<Logged>, e: Element)
    ensures e in Waiting(log) <==> exists i :: Stands(log, e, i)
  {
    if log != [] {
      var init, n := log[..|log| - 1], |log| - 1;
      WaitingMeans(init, e);
      assert forall i :: 0 <= i < n ==> init[i] == log[i];
      if log[n] == Logged(AWait, Some(e)) {
        assert Stands(log, e, n);
      } else {
        forall i: nat ensures Stands(log, e, i) <==> Stands(init, e, i) && !EndsWaitOf(log[n], e) {
        }
      }
    }
  }

  // ---------------------------------------------------------------- the listener

  /** What the engine announces; `Settled` is when a run first comes to rest. */
  datatype Event =
    | Start(e: Element)
    | Wait(e: Element)
    | End(e: Element)
    | Error(e: Element)
    | Leave(e: Element)
    | Settled

  datatype Listener = Listener(replayed: set<Element>, finished: set<Element>, log: seq<Logged>)

  function Hear(l: Listener, x: Event): Listener
  {
    match x
    case Start(e) => l.(finished := l.finished - {e}, log := l.log + [Logged(AStart, Some(e))])
    case Wait(e) =>
      if e in l.replayed then l.(replayed := l.replayed - {e}) else l.(log := l.log + [Logged(AWait, Some(e))])
    case End(e) => l.(finished := l.finished + {e}, log := l.log + [Logged(AnEnd, Some(e))])
    case Error(e) => l.(finished := l.finished + {e}, log := l.log + [Logged(AnError, Some(e))])
    case Leave(e) =>
      if e in l.finished then l.(finished := l.finished - {e}) else l.(log := l.log + [Logged(ADiscard, Some(e))])
    case Settled => l.(replayed := {})
  }

  /** A resumed run's listener: it expects again what the log says is waiting. */
  function Listening(log: seq<Logged>): Listener
  {
    Listener(Waiting(log), {}, log)
  }

  class RunListener {
    var replayed: set<Element>
    var finished: set<Element>
    var log: seq<Logged>

    ghost function AsListener(): Listener
      reads this
    {
      Listener(replayed, finished, log)
    }

    /** A resumed run reads from the log what its engine will announce again. */
    constructor (log: seq<Logged>, resumed: bool)
      ensures AsListener() == if resumed then Listening(log) else Listener({}, {}, log)
    {
      this.log, this.finished, this.replayed := log, {}, {};
      new;
      if resumed {
        replayed := WaitingActivities(log);
      }
    }

    method On(x: Event)
      modifies this
      ensures AsListener() == Hear(old(AsListener()), x)
    {
      if x.Settled? {
        replayed := {};
        return;
      }
      if x.Wait? && x.e in replayed {
        replayed := replayed - {x.e};
        return;
      }
      if x.Leave? {
        if x.e in finished {
          finished := finished - {x.e};
          return;
        }
        log := log + [Logged(ADiscard, Some(x.e))];
        return;
      }
      if x.Start? {
        finished := finished - {x.e};
      }
      if x.End? || x.Error? {
        finished := finished + {x.e};
      }
      var kind := if x.Start? then AStart else if x.Wait? then AWait else if x.End? then AnEnd else AnError;
      log := log + [Logged(kind, Some(x.e))];
    }
  }

  function HearAll(l: Listener, events: seq<Event>): Listener
  {
    if events == [] then l else Hear(HearAll(l, events[..|events| - 1]), events[|events| - 1])
  }

  // ---------------------------------------------------------------- the engine

  /** The elements the engine really waits on. */
  function WaitsAfter(waits: set<Element>, x: Event): set<Element>
  {
    match x
    case Start(_) => waits
    case Wait(e) => waits + {e}
    case End(e) => waits - {e}
    case Error(e) => waits - {e}
    case Leave(e) => waits - {e}
    case Settled => waits
  }

  /** What the engine waits on once a run that restored the given waits has got this far. */
  function EngineWaits(restored: set<Element>, events: seq<Event>): set<Element>
  {
    if events == [] then restored
    else WaitsAfter(EngineWaits(restored, events[..|events| - 1]), events[|events| - 1])
  }

  /** A restored wait the engine has not announced again, in a run that has not come to rest yet. */
  ghost predicate Unannounced(restored: set<Element>, events: seq<Event>, e: Element)
  {
    e in restored && forall i :: 0 <= i < |events| ==> events[i] != Wait(e) && events[i] != Settled
  }

  /** The element ended or failed at `i`, and has neither left nor started again since. */
  ghost predicate EndedAt(events: seq<Event>, e: Element, i: nat)
  {
    && i < |events| && (events[i] == End(e) || events[i] == Error(e))
    && forall j :: i < j < |events| ==> events[j] != Start(e) && events[j] != Leave(e)
  }

  ghost predicate Ended(events: seq<Event>, e: Element)
  {
    exists i :: EndedAt(events, e, i)
  }

  lemma {:induction false} ReplayedMeans(l: Listener, events: seq<Event>, e: Element)
    ensures e in HearAll(l, events).replayed <==> Unannounced(l.replayed, events, e)
  {
    if events != [] {
      var n := |events| - 1;
      ReplayedMeans(l, events[..n], e);
      assert forall i :: 0 <= i < n ==> events[..n][i] == events[i];
      assert Unannounced(l.replayed, events, e) <==>
             Unannounced(l.replayed, events[..n], e) && events[n] != Wait(e) && events[n] != Settled;
    }
  }

  lemma {:induction false} FinishedMeans(l: Listener, events: seq<Event>, e: Element)
    requires l.finished == {}
    ensures e in HearAll(l, events).finished <==> Ended(events, e)
  {
    if events != [] {
      var n := |events| - 1;
      FinishedMeans(l, events[..n], e);
      EndedStep(events, e);
    }
  }

  lemma EndedStep(events: seq<Event>, e: Element)
    requires events != []
    ensures var n := |events| - 1;
            Ended(events, e) <==>
            events[n] == End(e) || events[n] == Error(e)
            || (Ended(events[..n], e) && events[n] != Start(e) && events[n] != Leave(e))
  {
    var n := |events| - 1;
    if events[n] == End(e) || events[n] == Error(e) {
      assert EndedAt(events, e, n);
    } else {
      assert forall i :: 0 <= i < n ==> events[..n][i] == events[i];
      forall i: nat
        ensures EndedAt(events, e, i) <==> EndedAt(events[..n], e, i) && events[n] != Start(e) && events[n] != Leave(e)
      {
      }
    }
  }

  /** The listener's two sets: restored waits still to be announced, and elements that ended without having left. */
  lemma {:induction false} ListenerSetsMean(l: Listener, events: seq<Event>)
    requires l.finished == {}
    ensures forall e :: e in HearAll(l, events).replayed <==> Unannounced(l.replayed, events, e)
    ensures forall e :: e in HearAll(l, events).finished <==> Ended(events, e)
  {
    forall e ensures e in HearAll(l, events).replayed <==> Unannounced(l.replayed, events, e) {
      ReplayedMeans(l, events, e);
    }
    forall e ensures e in HearAll(l, events).finished <==> Ended(events, e) {
      FinishedMeans(l, events, e);
    }
  }

  // ---------------------------------------------------------------- when log and engine agree

  lemma LogStep(log: seq<Logged>, x: Logged)
    ensures Waiting(log + [x]) == After(Waiting(log), x)
  {
    assert (log + [x])[..|log|] == log;
  }

  /**
    One announcement keeps a log and an engine in agreement exactly when it is
    not one of the two the listener gets wrong: a new wait taken for a restored
    one, and a leave of a waiting element taken for that of one that ended.
  */
  lemma HearingAgreesIff(l: Listener, x: Event)
    ensures Waiting(Hear(l, x).log) == WaitsAfter(Waiting(l.log), x) <==>
            && !(x.Wait? && x.e in l.replayed && x.e !in Waiting(l.log))
            && !(x.Leave? && x.e in l.finished && x.e in Waiting(l.log))
  {
    match x
    case Start(e) => LogStep(l.log, Logged(AStart, Some(e)));
    case Wait(e) => WaitAgreesIff(l, e);
    case End(e) => EndAgrees(l, e, AnEnd);
    case Error(e) => EndAgrees(l, e, AnError);
    case Leave(e) => LeaveAgreesIff(l, e);
    case Settled =>
  }

  lemma EndAgrees(l: Listener, e: Element, kind: Type)
    requires kind == AnEnd || kind == AnError
    ensures Waiting(l.log + [Logged(kind, Some(e))]) == Waiting(l.log) - {e}
  {
    LogStep(l.log, Logged(kind, Some(e)));
  }

  lemma WaitAgreesIff(l: Listener, e: Element)
    ensures Waiting(Hear(l, Wait(e)).log) == WaitsAfter(Waiting(l.log), Wait(e)) <==>
            !(e in l.replayed && e !in Waiting(l.log))
  {
    LogStep(l.log, Logged(AWait, Some(e)));
    if e in l.replayed {
      assert e in Waiting(l.log) + {e};
    }
  }

  lemma LeaveAgreesIff(l: Listener, e: Element)
    ensures Waiting(Hear(l, Leave(e)).log) == WaitsAfter(Waiting(l.log), Leave(e)) <==>
            !(e in l.finished && e in Waiting(l.log))
  {
    LogStep(l.log, Logged(ADiscard, Some(e)));
    if e in l.finished {
      assert e !in Waiting(l.log) - {e};
    }
  }

  /**
    An announcement after the given ones, of a run that restored the given
    waits: a new wait of an element whose restored wait is over but was never
    announced again, or a leave of an element that waits although it ended.
  */
  ghost predicate OutOfTurn(restored: set<Element>, before: seq<Event>, x: Event)
  {
    match x
    case Wait(e) => Unannounced(restored, before, e) && e !in EngineWaits(restored, before)
    case Leave(e) => Ended(before, e) && e in EngineWaits(restored, before)
    case _ => false
  }

  /**
    What happens in a run, as its log sees it: an announcement of its own, whose
    entry is written or lost, or an entry of another run, which no lease keeps
    from being written after that run has lost the row.
  */
  datatype Item = Own(x: Event, written: bool) | Other(entry: Logged)

  function Take(l: Listener, item: Item): Listener
  {
    match item
    case Own(x, written) => if written then Hear(l, x) else Hear(l, x).(log := l.log)
    case Other(entry) => l.(log := l.log + [entry])
  }

  function TakeAll(l: Listener, items: seq<Item>): Listener
  {
    if items == [] then l else Take(TakeAll(l, items[..|items| - 1]), items[|items| - 1])
  }

  /** The run's own announcements. */
  function Events(items: seq<Item>): seq<Event>
  {
    if items == [] then []
    else if items[|items| - 1].Own? then Events(items[..|items| - 1]) + [items[|items| - 1].x]
    else Events(items[..|items| - 1])
  }

  lemma HearOneMore(l: Listener, events: seq<Event>, x: Event)
    ensures HearAll(l, events + [x]) == Hear(HearAll(l, events), x)
  {
    assert (events + [x])[..|events|] == events;
  }

  lemma WaitsOneMore(restored: set<Element>, events: seq<Event>, x: Event)
    ensures EngineWaits(restored, events + [x]) == WaitsAfter(EngineWaits(restored, events), x)
  {
    assert (events + [x])[..|events|] == events;
  }

  /** What a run's listener expects and remembers depends on its own announcements alone. */
  lemma {:induction false} SetsOfItems(l: Listener, items: seq<Item>)
    ensures TakeAll(l, items).replayed == HearAll(l, Events(items)).replayed
    ensures TakeAll(l, items).finished == HearAll(l, Events(items)).finished
  {
    if items != [] {
      var n := |items| - 1;
      SetsOfItems(l, items[..n]);
      if items[n].Own? {
        HearOneMore(l, Events(items[..n]), items[n].x);
        SameSets(TakeAll(l, items[..n]), HearAll(l, Events(items[..n])), items[n].x);
      }
    }
  }

  lemma SameSets(l: Listener, k: Listener, x: Event)
    requires l.replayed == k.replayed && l.finished == k.finished
    ensures Hear(l, x).replayed == Hear(k, x).replayed && Hear(l, x).finished == Hear(k, x).finished
  {
  }

  /** What the engine waits on after the first `i` items. */
  function WaitsAt(restored: set<Element>, items: seq<Item>, i: nat): set<Element>
    requires i <= |items|
  {
    EngineWaits(restored, Events(items[..i]))
  }

  /**
    The item at `i` does no harm: an announcement in turn; or one whose entry
    was lost, and which changed nothing the engine waits on; or another run's
    entry, which changes nothing either.
  */
  ghost predicate Fits(restored: set<Element>, items: seq<Item>, i: nat)
    requires i < |items|
  {
    match items[i]
    case Own(x, written) =>
      if written then !OutOfTurn(restored, Events(items[..i]), x)
      else WaitsAfter(WaitsAt(restored, items, i), x) == WaitsAt(restored, items, i)
    case Other(entry) => After(WaitsAt(restored, items, i), entry) == WaitsAt(restored, items, i)
  }

  ghost predicate AllFit(restored: set<Element>, items: seq<Item>)
  {
    forall i :: 0 <= i < |items| ==> Fits(restored, items, i)
  }

  predicate AgreeAt(log: seq<Logged>, restored: set<Element>, items: seq<Item>, i: nat)
    requires i <= |items|
  {
    Waiting(TakeAll(Listening(log), items[..i]).log) == WaitsAt(restored, items, i)
  }

  /** Log and engine agree at the start of a run and after each thing that happens in it. */
  ghost predicate AgreeThroughout(log: seq<Logged>, restored: set<Element>, items: seq<Item>)
  {
    forall i :: 0 <= i <= |items| ==> AgreeAt(log, restored, items, i)
  }

  lemma AgreeInit(log: seq<Logged>, restored: set<Element>, items: seq<Item>)
    requires items != []
    ensures var n := |items| - 1;
            AgreeThroughout(log, restored, items) <==>
            AgreeThroughout(log, restored, items[..n]) && AgreeAt(log, restored, items, n + 1)
  {
    var n := |items| - 1;
    forall i | 0 <= i <= n ensures AgreeAt(log, restored, items, i) <==> AgreeAt(log, restored, items[..n], i) {
      assert items[..n][..i] == items[..i];
    }
  }

  lemma FitInit(restored: set<Element>, items: seq<Item>)
    requires items != []
    ensures var n := |items| - 1;
            AllFit(restored, items) <==> AllFit(restored, items[..n]) && Fits(restored, items, n)
  {
    var n := |items| - 1;
    forall i | 0 <= i < n ensures Fits(restored, items, i) <==> Fits(restored, items[..n], i) {
      assert items[..n][..i] == items[..i];
    }
  }

  lemma WaitsStep(restored: set<Element>, items: seq<Item>)
    requires items != []
    ensures var n := |items| - 1;
            WaitsAt(restored, items, n + 1) ==
            if items[n].Own? then WaitsAfter(WaitsAt(restored, items, n), items[n].x) else WaitsAt(restored, items, n)
  {
    var n := |items| - 1;
    assert items[..n + 1] == items;
    if items[n].Own? {
      WaitsOneMore(restored, Events(items[..n]), items[n].x);
    }
  }

  lemma NextAgreesIff(log: seq<Logged>, items: seq<Item>)
    requires items != [] && AgreeAt(log, Waiting(log), items, |items| - 1)
    ensures AgreeAt(log, Waiting(log), items, |items|) <==> Fits(Waiting(log), items, |items| - 1)
  {
    var n := |items| - 1;
    var l := TakeAll(Listening(log), items[..n]);
    WaitsStep(Waiting(log), items);
    assert items[..n + 1] == items;
    match items[n]
    case Own(x, written) => MisheardIff(log, items[..n], x);
    case Other(entry) => LogStep(l.log, entry);
  }

  lemma MisheardIff(log: seq<Logged>, before: seq<Item>, x: Event)
    requires Waiting(TakeAll(Listening(log), before).log) == EngineWaits(Waiting(log), Events(before))
    ensures var l, waits := TakeAll(Listening(log), before), EngineWaits(Waiting(log), Events(before));
            Waiting(Hear(l, x).log) == WaitsAfter(waits, x) <==> !OutOfTurn(Waiting(log), Events(before), x)
  {
    SetsOfItems(Listening(log), before);
    ListenerSetsMean(Listening(log), Events(before));
    HearingAgreesIff(TakeAll(Listening(log), before), x);
  }

  /** Within one run, log and engine always agree if and only if everything that happens fits. */
  lemma {:induction false} RunAgreesIff(log: seq<Logged>, items: seq<Item>)
    ensures AgreeThroughout(log, Waiting(log), items) <==> AllFit(Waiting(log), items)
  {
    if items == [] {
      assert AgreeAt(log, Waiting(log), items, 0);
    } else {
      RunAgreesIff(log, items[..|items| - 1]);
      AgreeInit(log, Waiting(log), items);
      FitInit(Waiting(log), items);
      if AgreeThroughout(log, Waiting(log), items[..|items| - 1]) {
        AgreeAtLast(log, Waiting(log), items);
        NextAgreesIff(log, items);
      }
    }
  }

  lemma AgreeAtLast(log: seq<Logged>, restored: set<Element>, items: seq<Item>)
    requires items != [] && AgreeThroughout(log, restored, items[..|items| - 1])
    ensures AgreeAt(log, restored, items, |items| - 1)
  {
    var n := |items| - 1;
    assert AgreeAt(log, restored, items[..n], n) && items[..n][..n] == items[..n];
  }

  // ---------------------------------------------------------------- one run after another

  /**
    A run up to when the next one reads the log. `saved` says how many of its
    items are behind the state the next one restores: all for a park, fewer for
    a run that failed, crashed or was taken over.
  */
  datatype Run = Run(items: seq<Item>, saved: nat)

  function SavedItems(r: Run): seq<Item>
  {
    if r.saved <= |r.items| then r.items[..r.saved] else r.items
  }

  /** The waits the run after these restores. */
  function WaitsOf(runs: seq<Run>): set<Element>
  {
    if runs == [] then {}
    else EngineWaits(WaitsOf(runs[..|runs| - 1]), Events(SavedItems(runs[|runs| - 1])))
  }

  function LogOf(runs: seq<Run>): seq<Logged>
  {
    if runs == [] then [] else TakeAll(Listening(LogOf(runs[..|runs| - 1])), runs[|runs| - 1].items).log
  }

  ghost predicate AgreesInRun(runs: seq<Run>, k: nat)
    requires k < |runs|
  {
    AgreeThroughout(LogOf(runs[..k]), WaitsOf(runs[..k]), runs[k].items)
  }

  /** At every point of every run, and for the run that comes next. */
  ghost predicate AlwaysAgree(runs: seq<Run>)
  {
    AgreesInAll(runs) && Waiting(LogOf(runs)) == WaitsOf(runs)
  }

  ghost predicate AgreesInAll(runs: seq<Run>)
  {
    forall k :: 0 <= k < |runs| ==> AgreesInRun(runs, k)
  }

  /** All that happens in the run fits, and what was not saved of it changed nothing the engine waits on. */
  ghost predicate Sound(restored: set<Element>, r: Run)
  {
    AllFit(restored, r.items) && EngineWaits(restored, Events(r.items)) == EngineWaits(restored, Events(SavedItems(r)))
  }

  ghost predicate SoundRun(runs: seq<Run>, k: nat)
    requires k < |runs|
  {
    Sound(WaitsOf(runs[..k]), runs[k])
  }

  ghost predicate AllSound(runs: seq<Run>)
  {
    forall k :: 0 <= k < |runs| ==> SoundRun(runs, k)
  }

  /**
    Across any number of runs, parked, failed, crashed or taken over, the log
    says exactly what the engine waits on, all the time, if and only if in each
    run everything fits and nothing it waited on since its last save is lost.
  */
  lemma {:induction false} LogAgreesWithEngine(runs: seq<Run>)
    ensures AlwaysAgree(runs) <==> AllSound(runs)
  {
    if runs == [] {
      NoRunsAgree();
    } else {
      LogAgreesWithEngine(runs[..|runs| - 1]);
      OneMoreRun(runs);
    }
  }

  lemma NoRunsAgree()
    ensures AlwaysAgree([]) && AllSound([])
  {
  }

  lemma OneMoreRun(runs: seq<Run>)
    requires runs != [] && (AlwaysAgree(runs[..|runs| - 1]) <==> AllSound(runs[..|runs| - 1]))
    ensures AlwaysAgree(runs) <==> AllSound(runs)
  {
    LastRunSound(runs);
    LastRunAgrees(runs);
    if AlwaysAgree(runs[..|runs| - 1]) {
      LastHandsOver(runs);
    }
  }

  lemma LastHandsOver(runs: seq<Run>)
    requires runs != [] && Waiting(LogOf(runs[..|runs| - 1])) == WaitsOf(runs[..|runs| - 1])
    ensures AgreesInRun(runs, |runs| - 1) && Waiting(LogOf(runs)) == WaitsOf(runs) <==> SoundRun(runs, |runs| - 1)
  {
    var n := |runs| - 1;
    var log, items := LogOf(runs[..n]), runs[n].items;
    RunAgreesIff(log, items);
    assert items[..|items|] == items;
    if AgreesInRun(runs, n) {
      assert AgreeAt(log, Waiting(log), items, |items|);
    }
  }

  lemma LastRunAgrees(runs: seq<Run>)
    requires runs != []
    ensures var n := |runs| - 1;
            AlwaysAgree(runs) <==>
            AlwaysAgree(runs[..n]) && AgreesInRun(runs, n) && Waiting(LogOf(runs)) == WaitsOf(runs)
  {
    var n := |runs| - 1;
    LastAgreesInAll(runs);
    if AgreesInRun(runs, n) {
      AgreesFromStart(LogOf(runs[..n]), WaitsOf(runs[..n]), runs[n].items);
    }
  }

  lemma LastAgreesInAll(runs: seq<Run>)
    requires runs != []
    ensures AgreesInAll(runs) <==> AgreesInAll(runs[..|runs| - 1]) && AgreesInRun(runs, |runs| - 1)
  {
    var n := |runs| - 1;
    forall k | 0 <= k < n ensures AgreesInRun(runs, k) <==> AgreesInRun(runs[..n], k) {
      AgreesInPrefix(runs, k);
    }
  }

  lemma AgreesFromStart(log: seq<Logged>, restored: set<Element>, items: seq<Item>)
    requires AgreeThroughout(log, restored, items)
    ensures Waiting(log) == restored
  {
    assert AgreeAt(log, restored, items, 0);
    assert items[..0] == [];
  }

  lemma LastRunSound(runs: seq<Run>)
    requires runs != []
    ensures AllSound(runs) <==> AllSound(runs[..|runs| - 1]) && SoundRun(runs, |runs| - 1)
  {
    var n := |runs| - 1;
    forall k | 0 <= k < n ensures SoundRun(runs, k) <==> SoundRun(runs[..n], k) {
      SoundInPrefix(runs, k);
    }
  }

  lemma AgreesInPrefix(runs: seq<Run>, k: nat)
    requires k + 1 < |runs|
    ensures AgreesInRun(runs, k) <==> AgreesInRun(runs[..|runs| - 1], k)
  {
    assert runs[..|runs| - 1][..k] == runs[..k];
  }

  lemma SoundInPrefix(runs: seq<Run>, k: nat)
    requires k + 1 < |runs|
    ensures SoundRun(runs, k) <==> SoundRun(runs[..|runs| - 1], k)
  {
    assert runs[..|runs| - 1][..k] == runs[..k];
  }

  /** A run that parked, with every entry written and nobody else writing. */
  predicate Undisturbed(r: Run)
  {
    r.saved == |r.items| && forall i :: 0 <= i < |r.items| ==> r.items[i].Own? && r.items[i].written
  }

  ghost predicate InTurn(restored: set<Element>, items: seq<Item>)
  {
    forall i :: 0 <= i < |items| && items[i].Own? ==> !OutOfTurn(restored, Events(items[..i]), items[i].x)
  }

  /** Parked runs alone: then only the two kinds of announcement out of turn part log and engine. */
  lemma {:induction false} ParkedRunsAgreeIff(runs: seq<Run>)
    requires forall k :: 0 <= k < |runs| ==> Undisturbed(runs[k])
    ensures AlwaysAgree(runs) <==> forall k :: 0 <= k < |runs| ==> InTurn(WaitsOf(runs[..k]), runs[k].items)
  {
    LogAgreesWithEngine(runs);
    forall k | 0 <= k < |runs| ensures SoundRun(runs, k) <==> InTurn(WaitsOf(runs[..k]), runs[k].items) {
      UndisturbedSound(WaitsOf(runs[..k]), runs[k]);
    }
  }

  lemma UndisturbedSound(restored: set<Element>, r: Run)
    requires Undisturbed(r)
    ensures Sound(restored, r) <==> InTurn(restored, r.items)
  {
    assert SavedItems(r) == r.items;
    forall i | 0 <= i < |r.items|
      ensures Fits(restored, r.items, i) <==> !OutOfTurn(restored, Events(r.items[..i]), r.items[i].x)
    {
      assert r.items[i].Own?;
    }
  }

  // ---------------------------------------------------------------- what is logged, and how often

  function Entries(log: seq<Logged>, x: Logged): nat
  {
    if log == [] then 0 else Entries(log[..|log| - 1], x) + (if log[|log| - 1] == x then 1 else 0)
  }

  lemma EntriesStep(log: seq<Logged>, x: Logged, y: Logged)
    ensures Entries(log + [y], x) == Entries(log, x) + (if y == x then 1 else 0)
  {
    assert (log + [y])[..|log|] == log;
  }

  /** How often the element came to wait in the run, without having waited before. */
  ghost function NewWaits(restored: set<Element>, items: seq<Item>, e: Element): nat
  {
    if items == [] then 0
    else
      var n := |items| - 1;
      NewWaits(restored, items[..n], e) +
      (if items[n].Own? && items[n].x == Wait(e) && e !in WaitsAt(restored, items, n) then 1 else 0)
  }

  /** How often a wait already announced in this run was announced, and logged, again. */
  ghost function Repeats(restored: set<Element>, items: seq<Item>, e: Element): nat
  {
    if items == [] then 0
    else
      var n := |items| - 1;
      Repeats(restored, items[..n], e) +
      (if items[n] == Own(Wait(e), true) && e in WaitsAt(restored, items, n)
          && !Unannounced(restored, Events(items[..n]), e) then 1 else 0)
  }

  /** How often the element left without having ended, as far as that was logged. */
  ghost function Cuts(items: seq<Item>, e: Element): nat
  {
    if items == [] then 0
    else
      var n := |items| - 1;
      Cuts(items[..n], e) + (if items[n] == Own(Leave(e), true) && !Ended(Events(items[..n]), e) then 1 else 0)
  }

  /** The entries other runs wrote meanwhile. */
  function Others(items: seq<Item>): seq<Logged>
  {
    if items == [] then []
    else if items[|items| - 1].Other? then Others(items[..|items| - 1]) + [items[|items| - 1].entry]
    else Others(items[..|items| - 1])
  }

  /**
    A run adds one wait entry for each new wait, and none for a restored wait
    announced again for the first time; and one discard for each leave without
    an end. All else is other runs'.
  */
  lemma {:induction false} WhatIsLogged(log: seq<Logged>, items: seq<Item>, e: Element)
    requires AllFit(Waiting(log), items)
    ensures var after, wait := TakeAll(Listening(log), items).log, Logged(AWait, Some(e));
            Entries(after, wait) ==
            Entries(log, wait) + Entries(Others(items), wait)
            + NewWaits(Waiting(log), items, e) + Repeats(Waiting(log), items, e)
    ensures var after, cut := TakeAll(Listening(log), items).log, Logged(ADiscard, Some(e));
            Entries(after, cut) == Entries(log, cut) + Entries(Others(items), cut) + Cuts(items, e)
  {
    if items != [] {
      var n := |items| - 1;
      FitInit(Waiting(log), items);
      WhatIsLogged(log, items[..n], e);
      if items[n].Own? {
        OwnLogged(log, items, e);
      } else {
        OtherLogged(log, items, e);
      }
    }
  }

  /** What the last item adds to the counts of a run. */
  ghost predicate Adds(log: seq<Logged>, items: seq<Item>, e: Element, waits: nat, cuts: nat)
    requires items != []
  {
    var n := |items| - 1;
    var was, now := TakeAll(Listening(log), items[..n]).log, TakeAll(Listening(log), items).log;
    && Entries(now, Logged(AWait, Some(e))) == Entries(was, Logged(AWait, Some(e))) + waits
    && Entries(now, Logged(ADiscard, Some(e))) == Entries(was, Logged(ADiscard, Some(e))) + cuts
  }

  lemma OtherLogged(log: seq<Logged>, items: seq<Item>, e: Element)
    requires items != [] && items[|items| - 1].Other?
    ensures var n := |items| - 1;
            && NewWaits(Waiting(log), items, e) == NewWaits(Waiting(log), items[..n], e)
            && Repeats(Waiting(log), items, e) == Repeats(Waiting(log), items[..n], e)
            && Cuts(items, e) == Cuts(items[..n], e)
            && var wait, cut := Logged(AWait, Some(e)), Logged(ADiscard, Some(e));
               var waits := Entries(Others(items), wait) - Entries(Others(items[..n]), wait);
               var cuts := Entries(Others(items), cut) - Entries(Others(items[..n]), cut);
               waits >= 0 && cuts >= 0 && Adds(log, items, e, waits, cuts)
  {
    var n := |items| - 1;
    EntriesBoth(TakeAll(Listening(log), items[..n]).log, e, items[n].entry);
    EntriesBoth(Others(items[..n]), e, items[n].entry);
  }

  lemma OwnLogged(log: seq<Logged>, items: seq<Item>, e: Element)
    requires items != [] && items[|items| - 1].Own? && Fits(Waiting(log), items, |items| - 1)
    ensures var n := |items| - 1;
            && Others(items) == Others(items[..n])
            && var waits := NewWaits(Waiting(log), items, e) - NewWaits(Waiting(log), items[..n], e)
                            + Repeats(Waiting(log), items, e) - Repeats(Waiting(log), items[..n], e);
               var cuts := Cuts(items, e) - Cuts(items[..n], e);
               waits >= 0 && cuts >= 0 && Adds(log, items, e, waits, cuts)
  {
    var n := |items| - 1;
    SetsOfItems(Listening(log), items[..n]);
    ListenerSetsMean(Listening(log), Events(items[..n]));
    EntriesAfter(TakeAll(Listening(log), items[..n]), items[n].x, e);
  }

  lemma EntriesAfter(l: Listener, x: Event, e: Element)
    ensures Entries(Hear(l, x).log, Logged(AWait, Some(e))) ==
            Entries(l.log, Logged(AWait, Some(e))) + (if x == Wait(e) && e !in l.replayed then 1 else 0)
    ensures Entries(Hear(l, x).log, Logged(ADiscard, Some(e))) ==
            Entries(l.log, Logged(ADiscard, Some(e))) + (if x == Leave(e) && e !in l.finished then 1 else 0)
  {
    match x
    case Start(f) => EntriesBoth(l.log, e, Logged(AStart, Some(f)));
    case Wait(f) => EntriesBoth(l.log, e, Logged(AWait, Some(f)));
    case End(f) => EntriesBoth(l.log, e, Logged(AnEnd, Some(f)));
    case Error(f) => EntriesBoth(l.log, e, Logged(AnError, Some(f)));
    case Leave(f) => EntriesBoth(l.log, e, Logged(ADiscard, Some(f)));
    case Settled =>
  }

  lemma EntriesBoth(log: seq<Logged>, e: Element, y: Logged)
    ensures Entries(log + [y], Logged(AWait, Some(e))) == Entries(log, Logged(AWait, Some(e))) +
            (if y == Logged(AWait, Some(e)) then 1 else 0)
    ensures Entries(log + [y], Logged(ADiscard, Some(e))) == Entries(log, Logged(ADiscard, Some(e))) +
            (if y == Logged(ADiscard, Some(e)) then 1 else 0)
  {
    EntriesStep(log, Logged(AWait, Some(e)), y);
    EntriesStep(log, Logged(ADiscard, Some(e)), y);
  }

  function Count(items: seq<Item>, item: Item): nat
  {
    if items == [] then 0 else Count(items[..|items| - 1], item) + (if items[|items| - 1] == item then 1 else 0)
  }

  /** Starts, ends and errors are each logged as what they are, once for each announcement whose entry was written. */
  lemma {:induction false} StartsEndsAndErrorsAreLogged(log: seq<Logged>, items: seq<Item>, e: Element)
    ensures var after, x := TakeAll(Listening(log), items).log, Logged(AStart, Some(e));
            Entries(after, x) == Entries(log, x) + Entries(Others(items), x) + Count(items, Own(Start(e), true))
    ensures var after, x := TakeAll(Listening(log), items).log, Logged(AnEnd, Some(e));
            Entries(after, x) == Entries(log, x) + Entries(Others(items), x) + Count(items, Own(End(e), true))
    ensures var after, x := TakeAll(Listening(log), items).log, Logged(AnError, Some(e));
            Entries(after, x) == Entries(log, x) + Entries(Others(items), x) + Count(items, Own(Error(e), true))
  {
    if items != [] {
      var n := |items| - 1;
      StartsEndsAndErrorsAreLogged(log, items[..n], e);
      OneMoreLogged(TakeAll(Listening(log), items[..n]), items, Start(e), Logged(AStart, Some(e)));
      OneMoreLogged(TakeAll(Listening(log), items[..n]), items, End(e), Logged(AnEnd, Some(e)));
      OneMoreLogged(TakeAll(Listening(log), items[..n]), items, Error(e), Logged(AnError, Some(e)));
    }
  }

  lemma OneMoreLogged(l: Listener, items: seq<Item>, x: Event, y: Logged)
    requires items != []
    requires (x.Start? && y == Logged(AStart, Some(x.e))) || (x.End? && y == Logged(AnEnd, Some(x.e)))
             || (x.Error? && y == Logged(AnError, Some(x.e)))
    ensures var n := |items| - 1;
            Entries(Take(l, items[n]).log, y) - Entries(l.log, y) ==
            (Entries(Others(items), y) - Entries(Others(items[..n]), y)) +
            (Count(items, Own(x, true)) - Count(items[..n], Own(x, true)))
  {
    var n := |items| - 1;
    match items[n]
    case Other(entry) =>
      EntriesStep(l.log, y, entry);
      EntriesStep(Others(items[..n]), y, entry);
    case Own(z, written) =>
      if written {
        HeardOnce(l, x, y, z);
      }
  }

  lemma HeardOnce(l: Listener, x: Event, y: Logged, z: Event)
    requires (x.Start? && y == Logged(AStart, Some(x.e))) || (x.End? && y == Logged(AnEnd, Some(x.e)))
             || (x.Error? && y == Logged(AnError, Some(x.e)))
    ensures Entries(Hear(l, z).log, y) == Entries(l.log, y) + (if z == x then 1 else 0)
  {
    match z
    case Start(f) => EntriesStep(l.log, y, Logged(AStart, Some(f)));
    case Wait(f) => EntriesStep(l.log, y, Logged(AWait, Some(f)));
    case End(f) => EntriesStep(l.log, y, Logged(AnEnd, Some(f)));
    case Error(f) => EntriesStep(l.log, y, Logged(AnError, Some(f)));
    case Leave(f) => EntriesStep(l.log, y, Logged(ADiscard, Some(f)));
    case Settled =>
  }

  /**
    The entries a run adds, in order: each written announcement under its own
    name, but for a restored wait announced again and a leave after an end; and
    other runs' entries where they came in.
  */
  ghost function Transcript(restored: set<Element>, items: seq<Item>): seq<Logged>
  {
    if items == [] then []
    else
      var n := |items| - 1;
      Transcript(restored, items[..n]) + EntryOf(restored, Events(items[..n]), items[n])
  }

  ghost function EntryOf(restored: set<Element>, before: seq<Event>, item: Item): seq<Logged>
  {
    match item
    case Other(entry) => [entry]
    case Own(x, written) =>
      if !written || x.Settled? || (x.Wait? && Unannounced(restored, before, x.e)) ||
        (x.Leave? && Ended(before, x.e)) then []
      else [Logged(if x.Start? then AStart else if x.Wait? then AWait else if x.End? then AnEnd
                   else if x.Error? then AnError else ADiscard, Some(x.e))]
  }

  lemma {:induction false} LogIsTranscript(log: seq<Logged>, items: seq<Item>)
    ensures TakeAll(Listening(log), items).log == log + Transcript(Waiting(log), items)
  {
    if items != [] {
      var n := |items| - 1;
      LogIsTranscript(log, items[..n]);
      SetsOfItems(Listening(log), items[..n]);
      ListenerSetsMean(Listening(log), Events(items[..n]));
      TakesEntry(TakeAll(Listening(log), items[..n]), Waiting(log), Events(items[..n]), items[n]);
      var so := Transcript(Waiting(log), items[..n]);
      var entry := EntryOf(Waiting(log), Events(items[..n]), items[n]);
      assert log + so + entry == log + (so + entry);
    }
  }

  lemma TakesEntry(l: Listener, restored: set<Element>, before: seq<Event>, item: Item)
    requires forall e :: e in l.replayed <==> Unannounced(restored, before, e)
    requires forall e :: e in l.finished <==> Ended(before, e)
    ensures Take(l, item).log == l.log + EntryOf(restored, before, item)
  {
  }

  /** What all runs together add. */
  ghost function AllWaits(runs: seq<Run>, e: Element): nat
  {
    if runs == [] then 0
    else
      var n := |runs| - 1;
      AllWaits(runs[..n], e) + Entries(Others(runs[n].items), Logged(AWait, Some(e)))
      + NewWaits(WaitsOf(runs[..n]), runs[n].items, e) + Repeats(WaitsOf(runs[..n]), runs[n].items, e)
  }

  /** However often an instance is resumed in between, a wait is logged once. */
  lemma {:induction false} EachWaitIsLoggedOnce(runs: seq<Run>, e: Element)
    requires AllSound(runs)
    ensures Entries(LogOf(runs), Logged(AWait, Some(e))) == AllWaits(runs, e)
  {
    if runs != [] {
      var n := |runs| - 1;
      LastRunSound(runs);
      EachWaitIsLoggedOnce(runs[..n], e);
      LogAgreesWithEngine(runs[..n]);
      WhatIsLogged(LogOf(runs[..n]), runs[n].items, e);
    }
  }

  // ---------------------------------------------------------------- how they part

  /**
    Out of turn, the log misses a wait: after any resume, a restored element
    that leaves before it is announced again and then waits anew is waited on
    by the engine, and by the log it is not.
  */
  lemma {:induction false} UnannouncedLeaveLosesTheWait(log: seq<Logged>, e: Element)
    requires e in Waiting(log)
    ensures var events := [Leave(e), Start(e), Wait(e)];
            && e in EngineWaits(Waiting(log), events) && e !in Waiting(HearAll(Listening(log), events).log)
    ensures OutOfTurn(Waiting(log), [Leave(e), Start(e)], Wait(e))
  {
    var l, restored := Listening(log), Waiting(log);
    HeardThree(l, Leave(e), Start(e), Wait(e));
    LogStep(log, Logged(ADiscard, Some(e)));
    LogStep(log + [Logged(ADiscard, Some(e))], Logged(AStart, Some(e)));
    WaitsOneMore(restored, [], Leave(e));
    WaitsOneMore(restored, [Leave(e)], Start(e));
    WaitsOneMore(restored, [Leave(e), Start(e)], Wait(e));
    assert [] + [Leave(e)] == [Leave(e)] && [Leave(e)] + [Start(e)] == [Leave(e), Start(e)];
    assert [Leave(e), Start(e)] + [Wait(e)] == [Leave(e), Start(e), Wait(e)];
  }

  lemma HeardThree(l: Listener, x: Event, y: Event, z: Event)
    ensures HearAll(l, [x, y, z]) == Hear(Hear(Hear(l, x), y), z)
  {
    HearOneMore(l, [], x);
    HearOneMore(l, [x], y);
    HearOneMore(l, [x, y], z);
    assert [] + [x] == [x] && [x] + [y] == [x, y] && [x, y] + [z] == [x, y, z];
  }

  /** A run that finds its restored wait again, moves on from it, and loses the row before any of that is saved. */
  function TakenOver(e: Element, f: Element): seq<Item>
  {
    [ Own(Wait(e), true), Own(Settled, true), Own(End(e), true), Own(Leave(e), true),
      Own(Start(f), true), Own(Wait(f), true) ]
  }

  /**
    With every announcement in turn and every entry written, what a run logged
    and did not save is enough: once the run was taken over, the log has a wait
    that the engine, restored from before, does not.
  */
  lemma {:induction false} TakenOverRunIsMisread(log: seq<Logged>, e: Element, f: Element)
    requires Waiting(log) == {e} && e != f
    ensures InTurn({e}, TakenOver(e, f)) && InTurn({e}, [Own(Wait(e), true)])
    ensures var between := TakeAll(Listening(log), TakenOver(e, f)).log;
            var after := TakeAll(Listening(between), [Own(Wait(e), true)]).log;
            Waiting(after) == {e, f} && EngineWaits({e}, [Wait(e)]) == {e}
  {
    TakenOverInTurn(e, f);
    TakenOverLogs(log, e, f);
    var between := log + [Logged(AnEnd, Some(e)), Logged(AStart, Some(f)), Logged(AWait, Some(f))];
    TakenOverWaits(log, e, f);
    TakeOneMore(Listening(between), [], Wait(e));
    assert [] + [Own(Wait(e), true)] == [Own(Wait(e), true)];
    LogStep(between, Logged(AWait, Some(e)));
    WaitsOneMore({e}, [], Wait(e));
    assert [] + [Wait(e)] == [Wait(e)];
  }

  lemma TakeOneMore(l: Listener, items: seq<Item>, x: Event)
    ensures TakeAll(l, items + [Own(x, true)]) == Hear(TakeAll(l, items), x)
    ensures Events(items + [Own(x, true)]) == Events(items) + [x]
  {
    assert (items + [Own(x, true)])[..|items|] == items;
  }

  lemma TakenOverLogs(log: seq<Logged>, e: Element, f: Element)
    requires Waiting(log) == {e} && e != f
    ensures TakeAll(Listening(log), TakenOver(e, f)).log ==
            log + [Logged(AnEnd, Some(e)), Logged(AStart, Some(f)), Logged(AWait, Some(f))]
  {
    var items := TakenOver(e, f);
    var l := Listening(log);
    TakeOneMore(l, items[..0], Wait(e));
    TakeOneMore(l, items[..1], Settled);
    TakeOneMore(l, items[..2], End(e));
    TakeOneMore(l, items[..3], Leave(e));
    TakeOneMore(l, items[..4], Start(f));
    TakeOneMore(l, items[..5], Wait(f));
    assert forall i :: 0 <= i < 6 ==> items[..i + 1] == items[..i] + [items[i]];
    assert items[..6] == items;
    assert TakeAll(l, items[..4]) == Listener({}, {}, log + [Logged(AnEnd, Some(e))]);
  }

  lemma TakenOverWaits(log: seq<Logged>, e: Element, f: Element)
    requires Waiting(log) == {e} && e != f
    ensures Waiting(log + [Logged(AnEnd, Some(e)), Logged(AStart, Some(f)), Logged(AWait, Some(f))]) == {f}
  {
    var end, start, wait := Logged(AnEnd, Some(e)), Logged(AStart, Some(f)), Logged(AWait, Some(f));
    LogStep(log, end);
    LogStep(log + [end], start);
    LogStep(log + [end] + [start], wait);
    assert log + [end, start, wait] == log + [end] + [start] + [wait];
  }

  lemma TakenOverInTurn(e: Element, f: Element)
    requires e != f
    ensures InTurn({e}, TakenOver(e, f)) && InTurn({e}, [Own(Wait(e), true)])
  {
    var items := TakenOver(e, f);
    var l := Listener({}, {}, []);
    TakeOneMore(l, items[..0], Wait(e));
    TakeOneMore(l, items[..1], Settled);
    TakeOneMore(l, items[..2], End(e));
    assert forall i :: 0 <= i < 3 ==> items[..i + 1] == items[..i] + [items[i]];
    WaitsOneMore({e}, Events(items[..2]), End(e));
    assert e !in EngineWaits({e}, Events(items[..3]));
    assert [Own(Wait(e), true)][..0] == [] && items[..0] == [];
  }
}
