/** How a task's result reaches the process variables: Zeebe's propagation rule. */
module Propagation {
  import opened Base
  import opened Json
  import opened Paths

  datatype Mapping = Mapping(source: string, target: string)

  datatype Unmapped = Merge | Discard

  datatype Rules = Rules(
    outputs: seq<Mapping>,
    resultVariable: Option<string>,
    resultExpression: Option<string>,
    locals: Fields,
    unmapped: Unmapped)

  datatype Kind = ByMapping | ByExpression | Merged | Whole | Local

  datatype MappedValue = MappedValue(target: string, kind: Kind, source: string, value: Json)

  /** What a FEEL evaluation answers; a missing variable is a null value with a warning. */
  datatype Evaluation = Evaluated(value: Option<Json>, warnings: seq<string>) | Thrown(message: string)

  /**
    What the rules leave to others: the FEEL evaluator, and the order in which
    an object's entries are read.
  */
  datatype Reader = Reader(feel: (string, Fields) -> Evaluation, names: Fields -> seq<string>)

  function InputValue(reader: Reader, source: string, scope: Fields, strict: bool): Result<Json, string>
  {
    if source == "" || source[0] != '=' then Success(Text(source))
    else
      match reader.feel(source[1..], scope)
      case Thrown(message) => Failure(message)
      case Evaluated(value, warnings) =>
        if strict && (value.None? || value.value.Null?) && warnings != [] then Failure(warnings[0])
        else Success(if value.Some? then value.value else Null)
  }

  function FieldsOf(value: Json): Fields
  {
    if value.Object? then value.fields else map[]
  }

  /** An object's entries as values of one kind, in the reader's order. */
  function Entries(names: seq<string>, fields: Fields, kind: Kind, source: string): seq<MappedValue>
  {
    if names == [] then []
    else
      var name := names[|names| - 1];
      Entries(names[..|names| - 1], fields, kind, source) +
      (if name in fields then [MappedValue(name, kind, source, fields[name])] else [])
  }

  function EntriesOf(reader: Reader, value: Json, kind: Kind, source: string): seq<MappedValue>
  {
    Entries(reader.names(FieldsOf(value)), FieldsOf(value), kind, source)
  }

  /** What resultVariable and resultExpression produce: variables of the step. */
  function Produced(reader: Reader, variables: Fields, result: Json, rules: Rules): Result<seq<MappedValue>, string>
  {
    var whole := if rules.resultVariable.Some? then [MappedValue(rules.resultVariable.value, Whole, "", result)]
      else [];
    if rules.resultExpression.None? then Success(whole)
    else
      match InputValue(reader, rules.resultExpression.value, variables["response" := result], false)
      case Failure(message) => Failure(message)
      case Success(shaped) => Success(whole + EntriesOf(reader, shaped, ByExpression, rules.resultExpression.value))
  }

  function WriteAll(variables: Fields, rows: seq<MappedValue>): Fields
  {
    if rows == [] then variables
    else SetPath(WriteAll(variables, rows[..|rows| - 1]), Split(rows[|rows| - 1].target), rows[|rows| - 1].value)
  }

  /** What an output mapping sees: the process, the step's inputs, then the step's own variables. */
  function Scope(variables: Fields, result: Json, rules: Rules, produced: seq<MappedValue>): Fields
  {
    variables + rules.locals + WriteAll(FieldsOf(result), produced)
  }

  /** Output mappings evaluate one after the other, up to the first that throws. */
  function Mapped(reader: Reader, outputs: seq<Mapping>, scope: Fields): (seq<MappedValue>, Option<string>)
  {
    if outputs == [] then ([], None)
    else
      var (rows, failure) := Mapped(reader, outputs[..|outputs| - 1], scope);
      var last := outputs[|outputs| - 1];
      if failure.Some? then (rows, failure)
      else
        match InputValue(reader, last.source, scope, false)
        case Failure(message) => (rows, Some(message))
        case Success(value) => (rows + [MappedValue(last.target, ByMapping, last.source, value)], None)
  }

  function AsLocal(rows: seq<MappedValue>): (locals: seq<MappedValue>)
    ensures |locals| == |rows| && forall i :: 0 <= i < |rows| ==> locals[i] == rows[i].(kind := Local)
  {
    seq(|rows|, i requires 0 <= i < |rows| => rows[i].(kind := Local))
  }

  /** The rows a result writes, those that stay inside the step, and what went wrong, if anything. */
  datatype Plan = Plan(written: seq<MappedValue>, kept: seq<MappedValue>, failure: Option<string>)

  function PlanOf(reader: Reader, variables: Fields, result: Json, rules: Rules): Plan
  {
    match Produced(reader, variables, result, rules)
    case Failure(message) => Plan([], [], Some(message))
    case Success(produced) =>
      if rules.outputs != [] then
        var (rows, failure) := Mapped(reader, rules.outputs, Scope(variables, result, rules, produced));
        Plan(rows, if failure.None? then AsLocal(produced) else [], failure)
      else if produced != [] then Plan(produced, [], None)
      else if rules.unmapped == Merge then Plan(EntriesOf(reader, result, Merged, ""), [], None)
      else Plan([], [], None)
  }

  function NotLocal(rows: seq<MappedValue>): seq<MappedValue>
  {
    if rows == [] then []
    else NotLocal(rows[..|rows| - 1]) + (if rows[|rows| - 1].kind == Local then [] else [rows[|rows| - 1]])
  }

  class Variables {
    var variables: Fields

    constructor (variables: Fields)
      ensures this.variables == variables
    {
      this.variables := variables;
    }

    method Write(row: MappedValue)
      modifies this
      ensures variables == SetPath(old(variables), Split(row.target), row.value)
    {
      variables := SetPath(variables, Split(row.target), row.value);
    }

    method WriteRows(rows: seq<MappedValue>)
      modifies this
      ensures variables == WriteAll(old(variables), rows)
    {
      for i := 0 to |rows|
        invariant variables == WriteAll(old(variables), rows[..i])
      {
        assert rows[..i + 1][..i] == rows[..i];
        Write(rows[i]);
      }
      assert rows[..|rows|] == rows;
    }

    /** Evaluate and write the output mappings in order, up to the first that throws. */
    method WriteOutputs(reader: Reader, outputs: seq<Mapping>, scope: Fields)
      returns (written: seq<MappedValue>, failure: Option<string>)
      modifies this
      ensures (written, failure) == Mapped(reader, outputs, scope)
      ensures variables == WriteAll(old(variables), written)
    {
      written, failure := [], None;
      for i := 0 to |outputs|
        invariant Mapped(reader, outputs[..i], scope) == (written, None)
        invariant variables == WriteAll(old(variables), written)
      {
        var output := outputs[i];
        assert outputs[..i + 1][..i] == outputs[..i];
        match InputValue(reader, output.source, scope, false) {
          case Failure(message) =>
            MappedFails(reader, outputs, i, scope, message);
            return written, Some(message);
          case Success(value) =>
            var row := MappedValue(output.target, ByMapping, output.source, value);
            assert (written + [row])[..|written|] == written;
            Write(row);
            written := written + [row];
        }
      }
      assert outputs[..|outputs|] == outputs;
      return written, None;
    }

    /**
      `applyResult`: the rows returned, those that stayed in the step left out,
      replay to exactly what happened to the variables.
    */
    method ApplyResult(reader: Reader, result: Json, rules: Rules) returns (answer: Result<seq<MappedValue>, string>)
      modifies this
      ensures var plan := PlanOf(reader, old(variables), result, rules);
              && variables == WriteAll(old(variables), plan.written)
              && answer == (if plan.failure.Some? then Failure(plan.failure.value)
                 else Success(plan.written + plan.kept))
      ensures answer.Success? ==> variables == WriteAll(old(variables), NotLocal(answer.value))
      ensures answer.Success? && rules.outputs != [] ==>
                OutputsWritten(reader, old(variables), result, rules, NotLocal(answer.value))
    {
      PlanKinds(reader, variables, result, rules);
      PlanWritesOutputs(reader, variables, result, rules);
      match Produced(reader, variables, result, rules) {
        case Failure(message) => return Failure(message);
        case Success(produced) =>
          if rules.outputs != [] {
            var scope := variables + rules.locals + WriteAll(FieldsOf(result), produced);
            var written, failure := WriteOutputs(reader, rules.outputs, scope);
            return if failure.Some? then Failure(failure.value) else Success(written + AsLocal(produced));
          }
          var rows := produced;
          if produced == [] && rules.unmapped == Merge {
            rows := EntriesOf(reader, result, Merged, "");
          }
          WriteRows(rows);
          assert rows + [] == rows;
          return Success(rows);
      }
    }
  }

  /**
    The variables `seen` are the step's own where it has the name, else its
    inputs, else the process's, and no others.
  */
  ghost predicate SeenFrom(seen: Fields, step: Fields, locals: Fields, process: Fields)
  {
    forall name ::
      Get(seen, name) ==
      if Get(step, name).Some? then Get(step, name)
      else if Get(locals, name).Some? then Get(locals, name)
      else Get(process, name)
  }

  /** The step's own variables: the result's fields, with what was produced written in. */
  function StepVariables(result: Json, produced: seq<MappedValue>): Fields
  {
    WriteAll(FieldsOf(result), produced)
  }

  /**
    One row for each output mapping, in order, valued in one view of step,
    inputs and process from before any was written.
  */
  ghost predicate OutputsWritten(
      reader: Reader, process: Fields, result: Json, rules: Rules, rows: seq<MappedValue>)
  {
    && Produced(reader, process, result, rules).Success?
    && |rows| == |rules.outputs|
    && exists seen ::
         && SeenFrom(seen, StepVariables(result, Produced(reader, process, result, rules).value), rules.locals, process)
         && forall i :: 0 <= i < |rows| ==> ValuedIn(reader, seen, rules.outputs[i], rows[i])
  }

  predicate ValuedIn(reader: Reader, seen: Fields, output: Mapping, row: MappedValue)
  {
    && row.kind == ByMapping && row.target == output.target && row.source == output.source
    && InputValue(reader, output.source, seen, false) == Success(row.value)
  }

  lemma ScopeSees(variables: Fields, result: Json, rules: Rules, produced: seq<MappedValue>)
    ensures SeenFrom(Scope(variables, result, rules, produced), StepVariables(result, produced), rules.locals,
            variables)
  {
  }

  lemma {:induction false} PlanWritesOutputs(reader: Reader, variables: Fields, result: Json, rules: Rules)
    ensures var plan := PlanOf(reader, variables, result, rules);
            plan.failure.None? && rules.outputs != [] ==> OutputsWritten(reader, variables, result, rules, plan.written)
  {
    var plan := PlanOf(reader, variables, result, rules);
    if plan.failure.None? && rules.outputs != [] {
      var produced := Produced(reader, variables, result, rules).value;
      var seen := Scope(variables, result, rules, produced);
      ScopeSees(variables, result, rules, produced);
      MappedKinds(reader, rules.outputs, seen);
      forall i | 0 <= i < |plan.written| ensures ValuedIn(reader, seen, rules.outputs[i], plan.written[i]) {
      }
    }
  }

  /** A reader that evaluates a name to what the variables hold under it. */
  ghost predicate LooksUp(reader: Reader, name: string)
  {
    forall seen: Fields :: reader.feel(name, seen) == Evaluated(Get(seen, name), [])
  }

  /**
    An output that names a field of the result writes that field, even where the
    process or the inputs have a variable of that name, unless something was
    produced under it.
  */
  lemma {:induction false} OutputReadsResult(
      reader: Reader, process: Fields, result: Json, rules: Rules, rows: seq<MappedValue>, i: nat, name: string)
    requires OutputsWritten(reader, process, result, rules, rows) && i < |rows|
    requires rules.outputs[i].source == "=" + name && LooksUp(reader, name) && GetIn(result, [name]).Some?
    requires forall row :: row in Produced(reader, process, result, rules).value ==> Split(row.target)[0] != name
    ensures GetIn(result, [name]) == Some(rows[i].value) && rows[i].target == rules.outputs[i].target
  {
    var produced := Produced(reader, process, result, rules).value;
    var seen :|
      && SeenFrom(seen, StepVariables(result, produced), rules.locals, process)
      && forall k :: 0 <= k < |rows| ==> ValuedIn(reader, seen, rules.outputs[k], rows[k]);
    assert ValuedIn(reader, seen, rules.outputs[i], rows[i]);
    WritesOnlyRoots(FieldsOf(result), produced, name);
    assert Get(seen, name) == Get(FieldsOf(result), name) == GetIn(result, [name]);
    assert ("=" + name)[0] == '=' && ("=" + name)[1..] == name;
  }

  /** Without such a field, an input of the step; without that, the process variable; without any, null. */
  lemma {:induction false} OutputReadsOuter(
      reader: Reader, process: Fields, result: Json, rules: Rules, rows: seq<MappedValue>, i: nat, name: string)
    requires OutputsWritten(reader, process, result, rules, rows) && i < |rows|
    requires rules.outputs[i].source == "=" + name && LooksUp(reader, name) && GetIn(result, [name]).None?
    requires forall row :: row in Produced(reader, process, result, rules).value ==> Split(row.target)[0] != name
    ensures rows[i].value ==
            if name in rules.locals then rules.locals[name] else if name in process then process[name] else Null
  {
    var produced := Produced(reader, process, result, rules).value;
    var seen :|
      && SeenFrom(seen, StepVariables(result, produced), rules.locals, process)
      && forall k :: 0 <= k < |rows| ==> ValuedIn(reader, seen, rules.outputs[k], rows[k]);
    assert ValuedIn(reader, seen, rules.outputs[i], rows[i]);
    WritesOnlyRoots(FieldsOf(result), produced, name);
    assert Get(StepVariables(result, produced), name) == Get(FieldsOf(result), name) == GetIn(result, [name]);
    assert Get(seen, name) == if name in rules.locals then Some(rules.locals[name]) else Get(process, name);
    assert ("=" + name)[0] == '=' && ("=" + name)[1..] == name;
  }

  /** And one that names something produced writes what was produced last under that plain name. */
  lemma {:induction false} OutputReadsProduced(
      reader: Reader, process: Fields, result: Json, rules: Rules, rows: seq<MappedValue>, i: nat, name: string)
    requires OutputsWritten(reader, process, result, rules, rows) && i < |rows|
    requires rules.outputs[i].source == "=" + name && LooksUp(reader, name) && '.' !in name
    requires var produced := Produced(reader, process, result, rules).value;
             produced != [] && produced[|produced| - 1].target == name
    ensures var produced := Produced(reader, process, result, rules).value;
            rows[i].value == produced[|produced| - 1].value
  {
    var produced := Produced(reader, process, result, rules).value;
    var seen :|
      && SeenFrom(seen, StepVariables(result, produced), rules.locals, process)
      && forall k :: 0 <= k < |rows| ==> ValuedIn(reader, seen, rules.outputs[k], rows[k]);
    assert ValuedIn(reader, seen, rules.outputs[i], rows[i]);
    SplitPlain(name);
    assert Get(StepVariables(result, produced), name) == Some(produced[|produced| - 1].value);
    assert Get(seen, name) == Some(produced[|produced| - 1].value);
    assert ("=" + name)[0] == '=' && ("=" + name)[1..] == name;
  }

  /** A source is FEEL exactly when it begins with "="; anything else stands for itself. */
  lemma LiteralOrFeel(reader: Reader, source: string, seen: Fields, strict: bool)
    ensures !("=" <= source) ==> InputValue(reader, source, seen, strict) == Success(Text(source))
  {
  }

  /** A null with a warning is an error for requests, and null for outputs; a FEEL value is passed on as it is. */
  lemma FeelValue(
      reader: Reader, expression: string, seen: Fields, strict: bool, value: Option<Json>, warnings: seq<string>)
    requires reader.feel(expression, seen) == Evaluated(value, warnings)
    ensures var answer := InputValue(reader, "=" + expression, seen, strict);
            && (answer.Failure? <==> strict && warnings != [] && (value == None || value == Some(Null)))
            && (answer.Success? ==> answer.value == if value.None? then Null else value.value)
  {
    assert ("=" + expression)[0] == '=' && ("=" + expression)[1..] == expression;
  }

  /**
    What throws stops the rest: rows are written up to the first mapping that
    fails, and the failure is that mapping's.
  */
  lemma {:induction false} FirstFailureStops(reader: Reader, outputs: seq<Mapping>, scope: Fields)
    ensures var (rows, failure) := Mapped(reader, outputs, scope);
            failure.Some? ==>
              |rows| < |outputs| && InputValue(reader, outputs[|rows|].source, scope, false) == Failure(failure.value)
  {
    if outputs != [] {
      FirstFailureStops(reader, outputs[..|outputs| - 1], scope);
      MappedKinds(reader, outputs[..|outputs| - 1], scope);
    }
  }

  /** A result expression sees the process variables, and the result under "response". */
  lemma {:induction false} ExpressionReadsResponse(reader: Reader, variables: Fields, result: Json, rules: Rules)
    requires rules.resultExpression == Some("=response") && LooksUp(reader, "response")
    requires rules.resultVariable.None? && Lists(reader.names(FieldsOf(result)), FieldsOf(result))
    ensures Produced(reader, variables, result, rules).Success?
    ensures OneRowEach(Produced(reader, variables, result, rules).value, FieldsOf(result), ByExpression, "=response")
  {
    var seen := variables["response" := result];
    assert "=response"[1..] == "response";
    assert reader.feel("response", seen) == Evaluated(Get(seen, "response"), []);
    EntriesOnce(reader.names(FieldsOf(result)), FieldsOf(result), ByExpression, "=response");
    assert [] + Entries(reader.names(FieldsOf(result)), FieldsOf(result), ByExpression, "=response") ==
           Entries(reader.names(FieldsOf(result)), FieldsOf(result), ByExpression, "=response");
  }

  /** When the result expression throws nothing at all is written. */
  lemma FailedExpressionWritesNothing(reader: Reader, variables: Fields, result: Json, rules: Rules, message: string)
    requires rules.resultExpression.Some?
    requires InputValue(reader, rules.resultExpression.value, variables["response" := result], false) ==
             Failure(message)
    ensures PlanOf(reader, variables, result, rules) == Plan([], [], Some(message))
  {
  }

  /** Once a mapping throws, later ones are not evaluated. */
  lemma {:induction false} MappedFails(reader: Reader, outputs: seq<Mapping>, i: nat, scope: Fields, message: string)
    requires i < |outputs| && Mapped(reader, outputs[..i], scope).1.None?
    requires InputValue(reader, outputs[i].source, scope, false) == Failure(message)
    ensures Mapped(reader, outputs, scope) == (Mapped(reader, outputs[..i], scope).0, Some(message))
    decreases |outputs|
  {
    if i == |outputs| - 1 {
    } else {
      var init := outputs[..|outputs| - 1];
      assert init[..i] == outputs[..i];
      MappedFails(reader, init, i, scope, message);
    }
  }

  lemma {:induction false} EntryKinds(names: seq<string>, fields: Fields, kind: Kind, source: string)
    ensures forall row :: row in Entries(names, fields, kind, source) ==> row.kind == kind && row.target in names
  {
    if names != [] {
      EntryKinds(names[..|names| - 1], fields, kind, source);
    }
  }

  lemma {:induction false} MappedKinds(reader: Reader, outputs: seq<Mapping>, scope: Fields)
    ensures var (rows, failure) := Mapped(reader, outputs, scope);
            && |rows| <= |outputs| && (failure.None? ==> |rows| == |outputs|)
            && forall i :: 0 <= i < |rows| ==>
                 rows[i].kind == ByMapping && rows[i].target == outputs[i].target &&
                   rows[i].source == outputs[i].source &&
                 InputValue(reader, outputs[i].source, scope, false) == Success(rows[i].value)
  {
    if outputs != [] {
      MappedKinds(reader, outputs[..|outputs| - 1], scope);
    }
  }

  lemma {:induction false} NoneLocal(rows: seq<MappedValue>)
    requires forall row :: row in rows ==> row.kind != Local
    ensures NotLocal(rows) == rows
  {
    if rows != [] {
      NoneLocal(rows[..|rows| - 1]);
    }
  }

  lemma {:induction false} LocalsDrop(rows: seq<MappedValue>, kept: seq<MappedValue>)
    requires forall row :: row in kept ==> row.kind == Local
    ensures NotLocal(rows + kept) == NotLocal(rows)
  {
    if kept == [] {
      assert rows + kept == rows;
    } else {
      assert (rows + kept)[..|rows + kept| - 1] == rows + kept[..|kept| - 1];
      LocalsDrop(rows, kept[..|kept| - 1]);
    }
  }

  /** What is written is never local, what is kept always is: `NotLocal` tells them apart. */
  lemma {:induction false} PlanKinds(reader: Reader, variables: Fields, result: Json, rules: Rules)
    ensures var plan := PlanOf(reader, variables, result, rules); NotLocal(plan.written + plan.kept) == plan.written
  {
    var plan := PlanOf(reader, variables, result, rules);
    match Produced(reader, variables, result, rules)
    case Failure(_) =>
    case Success(produced) =>
      ProducedKinds(reader, variables, result, rules);
      MappedKinds(reader, rules.outputs, Scope(variables, result, rules, produced));
      EntryKinds(reader.names(FieldsOf(result)), FieldsOf(result), Merged, "");
      assert forall row :: row in plan.written ==> row.kind != Local;
      LocalsDrop(plan.written, plan.kept);
      NoneLocal(plan.written);
  }

  lemma ProducedKinds(reader: Reader, variables: Fields, result: Json, rules: Rules)
    requires Produced(reader, variables, result, rules).Success?
    ensures forall row :: row in Produced(reader, variables, result, rules).value ==>
            row.kind == Whole || row.kind == ByExpression
  {
    if rules.resultExpression.Some? {
      var shaped := InputValue(reader, rules.resultExpression.value, variables["response" := result], false).value;
      EntryKinds(reader.names(FieldsOf(shaped)), FieldsOf(shaped), ByExpression, rules.resultExpression.value);
    }
  }

  // ---------------------------------------------------------------- what the rule means

  lemma {:induction false} WritesOnlyRoots(variables: Fields, rows: seq<MappedValue>, name: string)
    requires forall row :: row in rows ==> Split(row.target)[0] != name
    ensures name in WriteAll(variables, rows) <==> name in variables
    ensures name in variables ==> WriteAll(variables, rows)[name] == variables[name]
  {
    if rows != [] {
      WritesOnlyRoots(variables, rows[..|rows| - 1], name);
      assert rows[|rows| - 1] in rows;
    }
  }

  /**
    With output mappings only their targets can change, each to what its
    mapping makes of the variables before any of them was written; whatever
    resultVariable and resultExpression produced stays in the step.
  */
  lemma {:induction false} OutputsDecide(reader: Reader, variables: Fields, result: Json, rules: Rules)
    requires rules.outputs != [] && PlanOf(reader, variables, result, rules).failure.None?
    ensures var plan := PlanOf(reader, variables, result, rules);
            var produced := Produced(reader, variables, result, rules);
            && produced.Success? && plan.kept == AsLocal(produced.value)
            && |plan.written| == |rules.outputs|
            && (forall i :: 0 <= i < |rules.outputs| ==>
                  plan.written[i].target == rules.outputs[i].target &&
                  InputValue(reader, rules.outputs[i].source, Scope(variables, result, rules, produced.value), false)
                  == Success(plan.written[i].value))
            && forall name :: (forall i :: 0 <= i < |rules.outputs| ==> Split(rules.outputs[i].target)[0] != name) ==>
                 (name in WriteAll(variables, plan.written) <==> name in variables) &&
                 (name in variables ==> WriteAll(variables, plan.written)[name] == variables[name])
  {
    var plan := PlanOf(reader, variables, result, rules);
    var produced := Produced(reader, variables, result, rules).value;
    MappedKinds(reader, rules.outputs, Scope(variables, result, rules, produced));
    forall name | forall i :: 0 <= i < |rules.outputs| ==> Split(rules.outputs[i].target)[0] != name
      ensures name in WriteAll(variables, plan.written) <==> name in variables
      ensures name in variables ==> WriteAll(variables, plan.written)[name] == variables[name]
    {
      WritesOnlyRoots(variables, plan.written, name);
    }
  }

  ghost predicate TargetsOnce(rows: seq<MappedValue>)
  {
    forall i, j :: 0 <= i < j < |rows| ==> rows[i].target != rows[j].target
  }

  /** Exactly one row of the kind for each field, with its name and value. */
  ghost predicate OneRowEach(rows: seq<MappedValue>, fields: Fields, kind: Kind, source: string)
  {
    && (forall row :: row in rows <==>
          row.kind == kind && row.source == source && row.target in fields && row.value == fields[row.target])
    && TargetsOnce(rows)
  }

  /** No field's name leads through another's: names without dots never do. */
  ghost predicate NamesApart(fields: Fields)
  {
    forall a, b :: a in fields && b in fields && a != b ==> Apart(Split(a), Split(b))
  }

  /**
    Nothing mapped and nothing produced: a connector writes nothing, any other
    task one row for each field of its result.
  */
  lemma {:induction false} UnmappedResult(reader: Reader, variables: Fields, result: Json, rules: Rules)
    requires rules.outputs == [] && rules.resultVariable.None? && rules.resultExpression.None?
    requires Lists(reader.names(FieldsOf(result)), FieldsOf(result))
    ensures rules.unmapped == Discard ==> PlanOf(reader, variables, result, rules) == Plan([], [], None)
    ensures rules.unmapped == Merge ==>
              var plan := PlanOf(reader, variables, result, rules);
              plan.kept == [] && plan.failure.None? && OneRowEach(plan.written, FieldsOf(result), Merged, "")
  {
    EntriesOnce(reader.names(FieldsOf(result)), FieldsOf(result), Merged, "");
  }

  /** The rows come in the order in which the reader lists the result's fields. */
  lemma {:induction false} MergedInOrder(reader: Reader, variables: Fields, result: Json, rules: Rules)
    returns (at: seq<nat>)
    requires rules.outputs == [] && rules.resultVariable.None? && rules.resultExpression.None? &&
             rules.unmapped == Merge
    ensures FollowsNames(PlanOf(reader, variables, result, rules).written, reader.names(FieldsOf(result)), at)
    ensures forall name :: Get(FieldsOf(result), name) == GetIn(result, [name])
  {
    at := EntriesFollow(reader.names(FieldsOf(result)), FieldsOf(result), Merged, "");
  }

  ghost predicate FollowsNames(rows: seq<MappedValue>, names: seq<string>, at: seq<nat>)
  {
    && |at| == |rows|
    && (forall i, j :: 0 <= i < j < |at| ==> at[i] < at[j])
    && (forall i :: 0 <= i < |at| ==> at[i] < |names| && names[at[i]] == rows[i].target)
  }

  lemma {:induction false} EntriesFollow(names: seq<string>, fields: Fields, kind: Kind, source: string)
    returns (at: seq<nat>)
    ensures FollowsNames(Entries(names, fields, kind, source), names, at)
  {
    if names == [] {
      at := [];
    } else {
      var n := |names| - 1;
      at := EntriesFollow(names[..n], fields, kind, source);
      if names[n] in fields {
        at := at + [n];
      }
    }
  }

  /** So each merged field can be read back under its own name, all the way down. */
  lemma {:induction false} MergedFieldsRead(
      reader: Reader, variables: Fields, result: Json, rules: Rules, name: string, below: Path)
    requires rules.outputs == [] && rules.resultVariable.None? && rules.resultExpression.None? &&
             rules.unmapped == Merge
    requires Lists(reader.names(FieldsOf(result)), FieldsOf(result)) && NamesApart(FieldsOf(result)) &&
             name in FieldsOf(result)
    ensures var after := WriteAll(variables, PlanOf(reader, variables, result, rules).written);
            GetPath(after, Split(name) + below) == GetIn(FieldsOf(result)[name], below)
  {
    UnmappedResult(reader, variables, result, rules);
    EachRowReads(variables, PlanOf(reader, variables, result, rules).written, FieldsOf(result), Merged, "", name,
      below);
  }

  /** The entries of what a result expression evaluates to; none if it is no object. */
  function Shaped(reader: Reader, variables: Fields, result: Json, rules: Rules): Result<Fields, string>
  {
    if rules.resultExpression.None? then Success(map[])
    else
      match InputValue(reader, rules.resultExpression.value, variables["response" := result], false)
      case Failure(message) => Failure(message)
      case Success(shaped) => Success(FieldsOf(shaped))
  }

  /**
    Without output mappings whatever is produced propagates: the whole result
    under the result variable, then one row for each entry of the result
    expression. The result's own fields are then not merged.
  */
  lemma {:induction false} ProducedPropagates(reader: Reader, variables: Fields, result: Json, rules: Rules)
    requires rules.outputs == [] && Shaped(reader, variables, result, rules).Success?
    requires var fields := Shaped(reader, variables, result, rules).value; Lists(reader.names(fields), fields)
    requires rules.resultVariable.Some? || Shaped(reader, variables, result, rules).value != map[]
    ensures var plan := PlanOf(reader, variables, result, rules);
            var whole := if rules.resultVariable.Some?
              then [MappedValue(rules.resultVariable.value, Whole, "", result)] else [];
            && plan.kept == [] && plan.failure.None? && whole <= plan.written
            && OneRowEach(plan.written[|whole|..], Shaped(reader, variables, result, rules).value, ByExpression,
                          if rules.resultExpression.Some? then rules.resultExpression.value else "")
  {
    var fields := Shaped(reader, variables, result, rules).value;
    var whole := if rules.resultVariable.Some? then [MappedValue(rules.resultVariable.value, Whole, "", result)]
      else [];
    if rules.resultExpression.Some? {
      var rows := Entries(reader.names(fields), fields, ByExpression, rules.resultExpression.value);
      EntriesOnce(reader.names(fields), fields, ByExpression, rules.resultExpression.value);
      assert (whole + rows)[|whole|..] == rows;
      if name :| name in fields {
        assert MappedValue(name, ByExpression, rules.resultExpression.value, fields[name]) in rows;
      }
    }
  }

  /** Each entry of the result expression can then be read back, and so can the whole result. */
  lemma {:induction false} ProducedReads(
      reader: Reader, variables: Fields, result: Json, rules: Rules, name: string, below: Path)
    requires rules.outputs == [] && Shaped(reader, variables, result, rules).Success?
    requires var fields := Shaped(reader, variables, result, rules).value;
             && Lists(reader.names(fields), fields) && NamesApart(fields)
             && (rules.resultVariable.Some? ==> forall n :: n in fields ==>
                Apart(Split(n), Split(rules.resultVariable.value)))
    requires name in Shaped(reader, variables, result, rules).value || rules.resultVariable == Some(name)
    ensures var after := WriteAll(variables, PlanOf(reader, variables, result, rules).written);
            GetPath(after, Split(name) + below) ==
            GetIn(if rules.resultVariable == Some(name) then result
              else Shaped(reader, variables, result, rules).value[name], below)
  {
    var fields := Shaped(reader, variables, result, rules).value;
    ProducedPropagates(reader, variables, result, rules);
    var rows := PlanOf(reader, variables, result, rules).written;
    var source := if rules.resultExpression.Some? then rules.resultExpression.value else "";
    var n := if rules.resultVariable.Some? then 1 else 0;
    assert rows == rows[..n] + rows[n..];
    WriteConcat(variables, rows[..n], rows[n..]);
    var middle := WriteAll(variables, rows[..n]);
    if rules.resultVariable == Some(name) {
      assert rows[..1] == [MappedValue(name, Whole, "", result)] && rows[..1][..0] == [];
      RowsLeaveOthers(middle, rows[n..], Split(name), below);
      GetAfterSet(variables, Split(name), below, result);
    } else {
      EachRowReads(middle, rows[n..], fields, ByExpression, source, name, below);
    }
  }

  lemma {:induction false} EntriesOnce(names: seq<string>, fields: Fields, kind: Kind, source: string)
    requires Lists(names, fields)
    ensures OneRowEach(Entries(names, fields, kind, source), fields, kind, source)
  {
    EntryValues(names, fields, kind, source);
  }

  lemma {:induction false} EntryValues(names: seq<string>, fields: Fields, kind: Kind, source: string)
    requires forall i, j :: 0 <= i < j < |names| ==> names[i] != names[j]
    ensures forall row :: row in Entries(names, fields, kind, source) <==>
              row.kind == kind && row.source == source && row.target in names && row.target in fields &&
                row.value == fields[row.target]
    ensures TargetsOnce(Entries(names, fields, kind, source))
  {
    if names != [] {
      var init, last := names[..|names| - 1], names[|names| - 1];
      assert names == init + [last];
      EntryValues(init, fields, kind, source);
      var rows := Entries(init, fields, kind, source);
      forall i | 0 <= i < |rows| ensures rows[i].target != last {
        assert rows[i] in rows;
        var k :| 0 <= k < |init| && init[k] == rows[i].target;
        assert names[k] != names[|names| - 1];
      }
    }
  }

  lemma {:induction false} WriteConcat(variables: Fields, a: seq<MappedValue>, b: seq<MappedValue>)
    ensures WriteAll(variables, a + b) == WriteAll(WriteAll(variables, a), b)
  {
    if b == [] {
      assert a + b == a;
    } else {
      assert (a + b)[..|a + b| - 1] == a + b[..|b| - 1];
      WriteConcat(variables, a, b[..|b| - 1]);
    }
  }

  lemma {:induction false} RowsLeaveOthers(variables: Fields, rows: seq<MappedValue>, path: Path, below: Path)
    requires path != [] && forall row :: row in rows ==> Apart(Split(row.target), path)
    ensures GetPath(WriteAll(variables, rows), path + below) == GetPath(variables, path + below)
  {
    if rows != [] {
      var init, last := rows[..|rows| - 1], rows[|rows| - 1];
      RowsLeaveOthers(variables, init, path, below);
      assert last in rows;
      ApartBelow(Split(last.target), path, below);
      SetLeavesOthers(WriteAll(variables, init), Split(last.target), path + below, last.value);
    }
  }

  lemma {:induction false} EachRowReads(
      variables: Fields, rows: seq<MappedValue>, fields: Fields, kind: Kind, source: string, name: string, below: Path)
    requires OneRowEach(rows, fields, kind, source) && NamesApart(fields) && name in fields
    ensures GetPath(WriteAll(variables, rows), Split(name) + below) == GetIn(fields[name], below)
  {
    var row := MappedValue(name, kind, source, fields[name]);
    assert row in rows;
    var k :| 0 <= k < |rows| && rows[k] == row;
    LaterRowsApart(rows, fields, kind, source, k);
    assert rows == rows[..k] + [row] + rows[k + 1..];
    RowReads(variables, rows[..k], row, rows[k + 1..], below);
  }

  lemma LaterRowsApart(rows: seq<MappedValue>, fields: Fields, kind: Kind, source: string, k: nat)
    requires OneRowEach(rows, fields, kind, source) && NamesApart(fields) && k < |rows|
    ensures forall other :: other in rows[k + 1..] ==> Apart(Split(other.target), Split(rows[k].target))
  {
    forall other | other in rows[k + 1..] ensures Apart(Split(other.target), Split(rows[k].target)) {
      var i :| 0 <= i < |rows[k + 1..]| && rows[k + 1..][i] == other;
      assert rows[k + 1 + i] in rows && rows[k] in rows && rows[k].target != rows[k + 1 + i].target;
    }
  }

  lemma RowReads(variables: Fields, before: seq<MappedValue>, row: MappedValue, after: seq<MappedValue>, below: Path)
    requires forall other :: other in after ==> Apart(Split(other.target), Split(row.target))
    ensures GetPath(WriteAll(variables, before + [row] + after), Split(row.target) + below) == GetIn(row.value, below)
  {
    WriteConcat(variables, before + [row], after);
    RowsLeaveOthers(WriteAll(variables, before + [row]), after, Split(row.target), below);
    assert (before + [row])[..|before|] == before;
    GetAfterSet(WriteAll(variables, before), Split(row.target), below, row.value);
  }

  /** Rows whose targets keep apart can be replayed with any two neighbours swapped. */
  lemma {:induction false} RowsCommute(variables: Fields, rows: seq<MappedValue>, a: MappedValue, b: MappedValue)
    requires Apart(Split(a.target), Split(b.target))
    ensures WriteAll(variables, rows + [a, b]) == WriteAll(variables, rows + [b, a])
  {
    assert (rows + [a, b])[..|rows| + 1] == rows + [a] && (rows + [a])[..|rows|] == rows;
    assert (rows + [b, a])[..|rows| + 1] == rows + [b] && (rows + [b])[..|rows|] == rows;
    SetsCommute(WriteAll(variables, rows), Split(a.target), a.value, Split(b.target), b.value);
  }
}
