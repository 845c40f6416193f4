/**
  The BPMN engine as its callers see it: a state, and a function that moves it.
  Everything that ever happened to one engine, in order, is a history; replaying
  the history gives the state back.
*/
module Engine {
  import opened Base
  import opened Json

  datatype Signal = Signal(id: nat, element: string, payload: Json)

  /** One execution of one service task. */
  type Call = nat

  datatype Input =
    | Begin(variables: Fields)
    | Resumed(at: Time)
    | Applied(signal: Signal)
    | Answered(call: Call, output: Json)
    | Moved(event: nat)

  /** `vars` reads the process data out of a state, `wants` the calls it is ready to make. */
  datatype Model<!S> = Model(begin: Fields -> S, step: (S, Input) -> S, vars: S -> Fields, wants: S -> set<Call>)

  type History = seq<Input>

  function Replay<S>(m: Model<S>, h: History): S
    requires h != []
  {
    if |h| == 1 then m.begin(if h[0].Begin? then h[0].variables else map[])
    else m.step(Replay(m, h[..|h| - 1]), h[|h| - 1])
  }

  lemma ReplayStep<S>(m: Model<S>, h: History, x: Input)
    requires h != []
    ensures Replay(m, h + [x]) == m.step(Replay(m, h), x)
  {
    assert (h + [x])[..|h|] == h;
  }

  /** The signals a history folded in, oldest first. */
  function Delivered(h: History): seq<Signal>
  {
    if h == [] then []
    else Delivered(h[..|h| - 1]) + (if h[|h| - 1].Applied? then [h[|h| - 1].signal] else [])
  }

  /** The calls whose results a history folded in. */
  function Answers(h: History): set<Call>
  {
    set i | 0 <= i < |h| && h[i].Answered? :: h[i].call
  }

  lemma DeliveredStep(h: History, x: Input)
    ensures Delivered(h + [x]) == Delivered(h) + (if x.Applied? then [x.signal] else [])
  {
    assert (h + [x])[..|h|] == h;
  }

  lemma {:induction false} DeliveredConcat(a: History, b: History)
    ensures Delivered(a + b) == Delivered(a) + Delivered(b)
  {
    if b == [] {
      assert a + b == a;
    } else {
      var c := b[..|b| - 1];
      DeliveredConcat(a, c);
      assert a + b == (a + c) + [b[|b| - 1]];
      DeliveredStep(a + c, b[|b| - 1]);
    }
  }

  lemma AnswersGrow(a: History, b: History)
    ensures a <= b ==> Answers(a) <= Answers(b)
  {
    if a <= b {
      forall c | c in Answers(a) ensures c in Answers(b) {
        var i :| 0 <= i < |a| && a[i].Answered? && a[i].call == c;
        assert b[i] == a[i];
      }
    }
  }

  /** An engine that has a call's result never asks for that call again. */
  ghost predicate Remembers<S>(m: Model<S>)
  {
    forall h: History, c: Call :: h != [] && h[0].Begin? && c in Answers(h) ==> c !in m.wants(Replay(m, h))
  }
}
