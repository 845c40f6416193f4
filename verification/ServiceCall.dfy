/** The request a service task sends, built from its input parameters. */
module ServiceCall {
  import opened Base
  import opened Json
  import opened Paths
  import opened Registry
  import Templates

  /** One input parameter: a dotted name, and a value unless it is undefined. */
  datatype Param = Param(name: string, value: Option<Json>)

  /** `JSON.parse`, None when the text is not JSON. */
  type Parser = string -> Option<Json>

  /** Editors write an input for every field; a blank one leaves the field at its default. */
  predicate Blank(p: Param) { p.value.None? || p.value.value == Text("") }

  /** The field a path ends at, if the message types know it. */
  function FieldAt(schema: Schema, input: string, path: Path): Option<Field>
    requires path != []
  {
    match Walk(schema, Some(input), path)
    case None => None
    case Some(chain) => if chain == [] then None else Some(chain[|chain| - 1])
  }

  /** Text stays text for text and enum fields and for unknown ones; otherwise it is read as JSON when it is JSON. */
  function Coerce(parse: Parser, field: Option<Field>, value: Json): Json
  {
    if !value.Text? || field.None? || field.value.kind.Enum? ||
      (field.value.kind.Scalar? && field.value.kind.text) then value
    else
      match parse(value.text)
      case None => value
      case Some(json) => json
  }

  function Value(schema: Schema, input: string, parse: Parser, p: Param): Json
    requires !Blank(p)
  {
    Coerce(parse, FieldAt(schema, input, Split(p.name)), p.value.value)
  }

  /**
    Nested assignment with `??=`: a missing or null step becomes an object, and
    None stands for the error of assigning into a value that is not one.
  */
  function Place(target: Fields, path: Path, value: Json): Option<Fields>
    requires path != []
    decreases |path|
  {
    if |path| == 1 then Some(target[path[0] := value])
    else
      var next := if path[0] in target then target[path[0]] else Null;
      if !next.Null? && !next.Object? then None
      else
        match Place(if next.Object? then next.fields else map[], path[1..], value)
        case None => None
        case Some(inner) => Some(target[path[0] := Object(inner)])
  }

  /** The request after all parameters, or None where an assignment fails. */
  function Built(schema: Schema, input: string, parse: Parser, params: seq<Param>): Option<Fields>
  {
    if params == [] then Some(map[])
    else
      var last := params[|params| - 1];
      match Built(schema, input, parse, params[..|params| - 1])
      case None => None
      case Some(request) => if Blank(last) then Some(request)
        else Place(request, Split(last.name), Value(schema, input, parse, last))
  }

  lemma {:induction false} BuiltFails(schema: Schema, input: string, parse: Parser, params: seq<Param>, i: nat)
    requires i <= |params| && Built(schema, input, parse, params[..i]).None?
    ensures Built(schema, input, parse, params).None?
    decreases |params| - i
  {
    if i < |params| {
      assert params[..i + 1][..i] == params[..i];
      BuiltFails(schema, input, parse, params, i + 1);
    } else {
      assert params[..i] == params;
    }
  }

  /** `buildRequest`. */
  method BuildRequest(schema: Schema, input: string, parse: Parser, params: seq<Param>)
    returns (request: Option<Fields>)
    ensures request == Built(schema, input, parse, params)
  {
    var built: Fields := map[];
    for i := 0 to |params|
      invariant Built(schema, input, parse, params[..i]) == Some(built)
    {
      assert params[..i + 1][..i] == params[..i];
      if Blank(params[i]) {
        continue;
      }
      var placed := Place(built, Split(params[i].name), Value(schema, input, parse, params[i]));
      if placed.None? {
        BuiltFails(schema, input, parse, params, i + 1);
        return None;
      }
      built := placed.value;
    }
    assert params[..|params|] == params;
    return Some(built);
  }

  // ---------------------------------------------------------------- parameters that keep apart

  ghost predicate Clear(p: Param, q: Param)
  {
    Blank(p) || Blank(q) || Apart(Split(p.name), Split(q.name))
  }

  /** Filled-in parameters name paths none of which leads through another. */
  ghost predicate KeepApart(params: seq<Param>)
  {
    forall i, j :: 0 <= i < j < |params| ==> Clear(params[i], params[j]) && Clear(params[j], params[i])
  }

  /** The request as plain writes, one per filled-in parameter. */
  function Put(schema: Schema, input: string, parse: Parser, request: Fields, p: Param): Fields
  {
    if Blank(p) then request else SetPath(request, Split(p.name), Value(schema, input, parse, p))
  }

  function PutAll(schema: Schema, input: string, parse: Parser, request: Fields, params: seq<Param>): Fields
  {
    if params == [] then request
    else Put(schema, input, parse, PutAll(schema, input, parse, request, params[..|params| - 1]), params[|params| - 1])
  }

  /** On the way to a path there is nothing but objects and nulls. */
  ghost predicate OpenWay(target: Fields, path: Path)
  {
    forall k :: 0 < k < |path| ==>
      match GetPath(target, path[..k])
      case None => true
      case Some(v) => v.Null? || v.Object?
  }

  lemma {:induction false} PlaceIsSet(target: Fields, path: Path, value: Json)
    requires path != [] && OpenWay(target, path)
    ensures Place(target, path, value) == Some(SetPath(target, path, value))
    decreases |path|
  {
    if |path| > 1 {
      assert path[..1] == [path[0]];
      assert GetPath(target, path[..1]) == if path[0] in target then Some(target[path[0]]) else None;
      var under := ObjectAt(target, path[0]);
      forall k | 0 < k < |path[1..]|
        ensures GetPath(under, path[1..][..k]).Some? ==>
                  GetPath(under, path[1..][..k]).value.Null? || GetPath(under, path[1..][..k]).value.Object?
      {
        var longer := path[..k + 1];
        assert longer[0] == path[0] && longer[1..] == path[1..][..k];
        assert 0 < k + 1 < |path|;
        if GetPath(under, path[1..][..k]).Some? {
          assert GetPath(target, longer) == GetPath(under, path[1..][..k]);
        }
      }
      PlaceIsSet(under, path[1..], value);
    }
  }

  lemma {:induction false} PlaceNeedsOpenWay(target: Fields, path: Path, value: Json)
    requires path != [] && Place(target, path, value).Some?
    ensures OpenWay(target, path)
    decreases |path|
  {
    if |path| > 1 {
      var under := ObjectAt(target, path[0]);
      PlaceNeedsOpenWay(under, path[1..], value);
      forall k | 0 < k < |path| && GetPath(target, path[..k]).Some?
        ensures GetPath(target, path[..k]).value.Null? || GetPath(target, path[..k]).value.Object?
      {
        if k > 1 {
          assert path[..k][1..] == path[1..][..k - 1];
          assert GetPath(target, path[..k]) == GetPath(under, path[1..][..k - 1]);
        }
      }
    }
  }

  /**
    One more parameter: a blank one changes nothing, a filled-in one is written
    at its path when nothing but objects and nulls is on the way, and else there
    is no request, whatever follows.
  */
  lemma {:induction false} OneMoreParam(schema: Schema, input: string, parse: Parser, params: seq<Param>, i: nat)
    requires i < |params|
    ensures Built(schema, input, parse, params[..i]).None? ==> Built(schema, input, parse, params).None?
    ensures Built(schema, input, parse, params[..i]).Some? ==>
              var request, p := Built(schema, input, parse, params[..i]).value, params[i];
              if p.value.None? || p.value.value == Text("") then
                Built(schema, input, parse, params[..i + 1]) == Some(request)
              else if OpenWay(request, Split(p.name)) then
                Built(schema, input, parse, params[..i + 1]) ==
                  Some(SetPath(request, Split(p.name), Value(schema, input, parse, p)))
              else Built(schema, input, parse, params).None?
  {
    assert params[..i + 1][..i] == params[..i];
    if Built(schema, input, parse, params[..i]).None? {
      BuiltFails(schema, input, parse, params, i);
    } else if !Blank(params[i]) {
      var request, path := Built(schema, input, parse, params[..i]).value, Split(params[i].name);
      var value := Value(schema, input, parse, params[i]);
      if OpenWay(request, path) {
        PlaceIsSet(request, path, value);
      } else if Place(request, path, value).Some? {
        PlaceNeedsOpenWay(request, path, value);
      } else {
        BuiltFails(schema, input, parse, params, i + 1);
      }
    }
  }

  /** Everything above something is an object. */
  lemma {:induction false} ObjectsAbove(target: Fields, path: Path, below: Path)
    requires path != [] && below != [] && GetPath(target, path + below).Some?
    ensures GetPath(target, path).Some? && GetPath(target, path).value.Object?
    decreases |path|
  {
    assert (path + below)[0] == path[0] && (path + below)[1..] == path[1..] + below;
    if |path| > 1 {
      ObjectsAbove(target[path[0]].fields, path[1..], below);
    }
  }

  ghost predicate Related(p: Path, q: Path) { p <= q || q <= p }

  /** What a request holds: each filled-in parameter's value at its own path, and nothing unrelated to one. */
  ghost predicate Holds(schema: Schema, input: string, parse: Parser, params: seq<Param>, request: Fields)
  {
    && (forall i, below: Path :: 0 <= i < |params| && !Blank(params[i]) ==>
          GetPath(request, Split(params[i].name) + below) == GetIn(Value(schema, input, parse, params[i]), below))
    && (forall q: Path :: q != [] && GetPath(request, q).Some? ==>
          exists i :: 0 <= i < |params| && !Blank(params[i]) && Related(q, Split(params[i].name)))
  }

  lemma InitKeepsApart(params: seq<Param>)
    requires params != [] && KeepApart(params)
    ensures KeepApart(params[..|params| - 1])
    ensures forall i :: 0 <= i < |params| - 1 ==>
            Clear(params[i], params[|params| - 1]) && Clear(params[|params| - 1], params[i])
  {
  }

  lemma {:induction false} PutHolds(
      schema: Schema, input: string, parse: Parser, params: seq<Param>, request: Fields, p: Param)
    requires Holds(schema, input, parse, params, request)
    requires forall i :: 0 <= i < |params| ==> Clear(params[i], p) && Clear(p, params[i])
    ensures Holds(schema, input, parse, params + [p], Put(schema, input, parse, request, p))
  {
    var all, put := params + [p], Put(schema, input, parse, request, p);
    if Blank(p) {
      forall q: Path | q != [] && GetPath(put, q).Some?
        ensures exists i :: 0 <= i < |all| && !Blank(all[i]) && Related(q, Split(all[i].name))
      {
        var i :| 0 <= i < |params| && !Blank(params[i]) && Related(q, Split(params[i].name));
        assert all[i] == params[i];
      }
    } else {
      var path, value := Split(p.name), Value(schema, input, parse, p);
      forall i, below: Path | 0 <= i < |all| && !Blank(all[i])
        ensures GetPath(put, Split(all[i].name) + below) == GetIn(Value(schema, input, parse, all[i]), below)
      {
        if i < |params| {
          ApartBelow(path, Split(params[i].name), below);
          SetLeavesOthers(request, path, Split(params[i].name) + below, value);
        } else {
          GetAfterSet(request, path, below, value);
        }
      }
      forall q: Path | q != [] && GetPath(put, q).Some?
        ensures exists i :: 0 <= i < |all| && !Blank(all[i]) && Related(q, Split(all[i].name))
      {
        if Related(q, path) {
          assert all[|params|] == p;
        } else {
          SetLeavesOthers(request, path, q, value);
          var i :| 0 <= i < |params| && !Blank(params[i]) && Related(q, Split(params[i].name));
          assert all[i] == params[i];
        }
      }
    }
  }

  lemma LongerThan(path: Path, k: nat, other: Path)
    requires k <= |path| && Related(path[..k], other) && Apart(other, path)
    ensures k < |other| && other == path[..k] + other[k..]
  {
    assert other <= path[..k] ==> other <= path;
  }

  lemma {:induction false} WayIsOpen(
      schema: Schema, input: string, parse: Parser, params: seq<Param>, request: Fields, path: Path)
    requires path != [] && Holds(schema, input, parse, params, request)
    requires forall i :: 0 <= i < |params| && !Blank(params[i]) ==> Apart(Split(params[i].name), path)
    ensures OpenWay(request, path)
  {
    forall k | 0 < k < |path| && GetPath(request, path[..k]).Some?
      ensures GetPath(request, path[..k]).value.Object?
    {
      var q := path[..k];
      var i :| 0 <= i < |params| && !Blank(params[i]) && Related(q, Split(params[i].name));
      var other := Split(params[i].name);
      LongerThan(path, k, other);
      assert other + [] == other;
      assert GetPath(request, other + []) == GetIn(Value(schema, input, parse, params[i]), []);
      ObjectsAbove(request, q, other[k..]);
    }
  }

  /**
    Filled-in parameters on paths that keep apart: the request is built, it is
    the plain writes, and it holds each coerced value at its own path and
    nothing else.
  */
  lemma {:induction false} RequestHoldsItsParams(schema: Schema, input: string, parse: Parser, params: seq<Param>)
    requires KeepApart(params)
    ensures Built(schema, input, parse, params) == Some(PutAll(schema, input, parse, map[], params))
    ensures Holds(schema, input, parse, params, PutAll(schema, input, parse, map[], params))
  {
    if params != [] {
      var init, last := params[..|params| - 1], params[|params| - 1];
      InitKeepsApart(params);
      RequestHoldsItsParams(schema, input, parse, init);
      var request := PutAll(schema, input, parse, map[], init);
      PutHolds(schema, input, parse, init, request, last);
      assert params == init + [last];
      if !Blank(last) {
        forall i | 0 <= i < |init| && !Blank(init[i]) ensures Apart(Split(init[i].name), Split(last.name)) {
          assert Clear(params[i], params[|params| - 1]);
        }
        WayIsOpen(schema, input, parse, init, request, Split(last.name));
        PlaceIsSet(request, Split(last.name), Value(schema, input, parse, last));
      }
    }
  }

  /**
    What is sent for a parameter: a text becomes the JSON it is when its path
    leads to a field that is neither text nor a choice; anything else goes as it
    is, and a blank leaves its field out.
  */
  lemma {:induction false} SentValue(schema: Schema, input: string, parse: Parser, params: seq<Param>, i: nat)
    requires KeepApart(params) && i < |params|
    ensures var request, given, path := Built(schema, input, parse, params), params[i].value, Split(params[i].name);
            var fields := Walk(schema, Some(input), path);
            && request.Some?
            && (given.Some? && given.value != Text("") ==>
                  && (!given.value.Text? || fields.None? ==> GetPath(request.value, path) == given)
                  && (given.value.Text? && fields.Some? ==>
                        && fields.value != []
                        && GetPath(request.value, path) ==
                           match fields.value[|fields.value| - 1].kind
                           case Enum(_) => given
                           case Scalar(true) => given
                           case _ => if parse(given.value.text).Some? then parse(given.value.text) else given))
  {
    RequestHoldsItsParams(schema, input, parse, params);
    var path := Split(params[i].name);
    WalkIsAsLong(schema, Some(input), path);
    if !Blank(params[i]) {
      assert path + [] == path;
      assert GetPath(Built(schema, input, parse, params).value, path + []) ==
             GetIn(Value(schema, input, parse, params[i]), []);
    }
  }

  lemma {:induction false} WalkIsAsLong(schema: Schema, message: Option<string>, path: Path)
    requires path != []
    ensures Walk(schema, message, path).Some? ==> |Walk(schema, message, path).value| == |path|
    decreases |path|
  {
    if message.Some? && message.value in schema && |path| > 1 && FindField(schema[message.value], path[0]).Some? {
      var field := FindField(schema[message.value], path[0]).value;
      WalkIsAsLong(schema, if field.kind.Message? then Some(field.kind.typeName) else None, path[1..]);
    }
  }

  /** Nothing is sent at a path that no filled-in parameter's path is above or below. */
  lemma {:induction false} NothingElseIsSent(
      schema: Schema, input: string, parse: Parser, params: seq<Param>, path: Path)
    requires KeepApart(params) && path != []
    requires forall i :: 0 <= i < |params| && params[i].value.Some? && params[i].value.value != Text("") ==>
               Apart(path, Split(params[i].name))
    ensures Built(schema, input, parse, params).Some?
    ensures GetPath(Built(schema, input, parse, params).value, path).None?
  {
    RequestHoldsItsParams(schema, input, parse, params);
  }

  // ---------------------------------------------------------------- any order of parameters

  lemma PutsCommute(schema: Schema, input: string, parse: Parser, request: Fields, p: Param, q: Param)
    requires Clear(p, q)
    ensures Put(schema, input, parse, Put(schema, input, parse, request, p), q) ==
            Put(schema, input, parse, Put(schema, input, parse, request, q), p)
  {
    if !Blank(p) && !Blank(q) {
      SetsCommute(request, Split(p.name), Value(schema, input, parse, p), Split(q.name),
        Value(schema, input, parse, q));
    }
  }

  lemma PutOneMore(schema: Schema, input: string, parse: Parser, request: Fields, params: seq<Param>, p: Param)
    ensures PutAll(schema, input, parse, request, params + [p]) ==
            Put(schema, input, parse, PutAll(schema, input, parse, request, params), p)
  {
    assert (params + [p])[..|params|] == params;
  }

  /** A parameter may be moved to the end, past any others it keeps apart from. */
  lemma {:induction false} MoveToEnd(
      schema: Schema, input: string, parse: Parser, request: Fields, a: seq<Param>, p: Param, b: seq<Param>)
    requires forall i :: 0 <= i < |b| ==> Clear(p, b[i])
    ensures PutAll(schema, input, parse, request, a + [p] + b) == PutAll(schema, input, parse, request, a + b + [p])
    decreases |b|
  {
    if b == [] {
      assert a + [p] + b == a + b + [p];
    } else {
      var init, last := b[..|b| - 1], b[|b| - 1];
      MoveToEnd(schema, input, parse, request, a, p, init);
      assert a + [p] + b == (a + [p] + init) + [last] && a + b + [p] == (a + init + [last]) + [p];
      PutOneMore(schema, input, parse, request, a + [p] + init, last);
      PutOneMore(schema, input, parse, request, a + init + [last], p);
      PutOneMore(schema, input, parse, request, a + init, last);
      PutOneMore(schema, input, parse, request, a + init, p);
      PutsCommute(schema, input, parse, PutAll(schema, input, parse, request, a + init), p, last);
    }
  }

  /** The order of the parameters does not matter. */
  lemma {:induction false} OrderDoesNotMatter(
      schema: Schema, input: string, parse: Parser, params: seq<Param>, other: seq<Param>)
    requires KeepApart(params) && KeepApart(other) && multiset(params) == multiset(other)
    ensures Built(schema, input, parse, params) == Built(schema, input, parse, other)
  {
    RequestHoldsItsParams(schema, input, parse, params);
    RequestHoldsItsParams(schema, input, parse, other);
    PutsInAnyOrder(schema, input, parse, map[], params, other);
  }

  lemma {:induction false} PutsInAnyOrder(
      schema: Schema, input: string, parse: Parser, request: Fields, params: seq<Param>, other: seq<Param>)
    requires KeepApart(params) && multiset(params) == multiset(other)
    ensures PutAll(schema, input, parse, request, params) == PutAll(schema, input, parse, request, other)
    decreases |other|
  {
    if other == [] {
      assert |multiset(params)| == |params| == 0;
    } else {
      var init, last := other[..|other| - 1], other[|other| - 1];
      var k := FindParam(params, other);
      var a, b := params[..k], params[k + 1..];
      assert params == a + [last] + b;
      forall i | 0 <= i < |b| ensures Clear(last, b[i]) {
        assert Clear(params[k], params[k + 1 + i]);
      }
      MoveToEnd(schema, input, parse, request, a, last, b);
      RestKeepsApart(params, k);
      PutsInAnyOrder(schema, input, parse, request, a + b, init);
      PutOneMore(schema, input, parse, request, a + b, last);
    }
  }

  lemma FindParam(params: seq<Param>, other: seq<Param>) returns (k: nat)
    requires other != [] && multiset(params) == multiset(other)
    ensures k < |params| && params[k] == other[|other| - 1]
    ensures multiset(params[..k] + params[k + 1..]) == multiset(other[..|other| - 1])
  {
    var init, last := other[..|other| - 1], other[|other| - 1];
    assert other == init + [last];
    assert last in multiset(other);
    k :| 0 <= k < |params| && params[k] == last;
    assert params == params[..k] + [last] + params[k + 1..];
    assert multiset(params) == multiset(params[..k] + params[k + 1..]) + multiset{last};
    assert multiset(other) == multiset(init) + multiset{last};
    assert multiset(init) == multiset(other) - multiset{last};
  }

  lemma RestKeepsApart(params: seq<Param>, k: nat)
    requires KeepApart(params) && k < |params|
    ensures KeepApart(params[..k] + params[k + 1..])
  {
    var rest := params[..k] + params[k + 1..];
    forall i, j | 0 <= i < j < |rest| ensures Clear(rest[i], rest[j]) && Clear(rest[j], rest[i]) {
      var x := if i < k then i else i + 1;
      var y := if j < k then j else j + 1;
      assert rest[i] == params[x] && rest[j] == params[y];
    }
  }

  // ---------------------------------------------------------------- a template, filled in

  /** Each parameter fills in a different target of the request's template. */
  ghost predicate FillsIn(schema: Schema, input: string, params: seq<Param>, which: seq<nat>)
    requires input in schema
  {
    var chains := Templates.Chains(schema, schema[input], 0);
    && |which| == |params|
    && (forall i :: 0 <= i < |params| ==>
          which[i] < |chains| && chains[which[i]] != [] && params[i].name == Templates.Target("", chains[which[i]]))
    && (forall i, j :: 0 <= i < j < |params| ==> which[i] != which[j])
  }

  lemma {:induction false} NamesHaveNoDots(schema: Schema, fields: seq<Field>, depth: nat, i: nat)
    requires Valid(schema) && ValidMessage(schema, fields) && depth <= Templates.MAX_DEPTH &&
             i < |Templates.Chains(schema, fields, depth)|
    ensures forall s :: s in Templates.Names(Templates.Chains(schema, fields, depth)[i]) ==> '.' !in s
    decreases Templates.MAX_DEPTH - depth
  {
    var chain := Templates.Chains(schema, fields, depth)[i];
    var k, n := Templates.ChainAt(schema, fields, depth, i);
    if Templates.Nests(fields[k], depth) {
      NamesHaveNoDots(schema, schema[fields[k].kind.typeName], depth + 1, n);
      var inner := Templates.Chains(schema, schema[fields[k].kind.typeName], depth + 1)[n];
      assert Templates.Names(chain) == [fields[k].name] + Templates.Names(inner);
    } else {
      assert Templates.Names(chain) == [fields[k].name];
    }
  }

  lemma {:induction false} TargetPath(schema: Schema, input: string, i: nat)
    requires Valid(schema) && input in schema && i < |Templates.Chains(schema, schema[input], 0)|
    ensures var chain := Templates.Chains(schema, schema[input], 0)[i];
            chain != [] && Split(Templates.Target("", chain)) == Templates.Names(chain)
  {
    var chain := Templates.Chains(schema, schema[input], 0)[i];
    Templates.ChainsAreNotEmpty(schema, schema[input], 0);
    NamesHaveNoDots(schema, schema[input], 0, i);
    SplitJoin(Templates.Names(chain));
    assert "" + Join(Templates.Names(chain)) == Join(Templates.Names(chain));
  }

  /** Filling in any of a template's fields, in any order, gives parameters that keep apart. */
  lemma {:induction false} TemplateParamsKeepApart(schema: Schema, input: string, params: seq<Param>, which: seq<nat>)
    requires Valid(schema) && input in schema && FillsIn(schema, input, params, which)
    ensures KeepApart(params)
  {
    forall i, j | 0 <= i < j < |params| ensures Clear(params[i], params[j]) && Clear(params[j], params[i]) {
      TargetPath(schema, input, which[i]);
      TargetPath(schema, input, which[j]);
      assert which[i] != which[j];
      if which[i] < which[j] {
        Templates.TargetsKeepApart(schema, schema[input], 0, which[i], which[j]);
      } else {
        Templates.TargetsKeepApart(schema, schema[input], 0, which[j], which[i]);
      }
    }
  }

  /** The fields behind the template target a parameter fills in. */
  function FilledChain(schema: Schema, input: string, n: nat): Templates.Chain
    requires input in schema && n < |Templates.Chains(schema, schema[input], 0)|
  {
    Templates.Chains(schema, schema[input], 0)[n]
  }

  /**
    A template filled in anyhow: the request is built and holds each value at
    its own path and nothing else. An input is rejected by the deploy check
    exactly when its target is stuck, and coerced by its own field when no name
    on the way is shadowed.
  */
  lemma {:induction false} FilledInTemplateIsSent(
      schema: Schema, input: string, parse: Parser, params: seq<Param>, which: seq<nat>)
    requires Valid(schema) && input in schema && FillsIn(schema, input, params, which)
    ensures Built(schema, input, parse, params).Some?
    ensures Holds(schema, input, parse, params, Built(schema, input, parse, params).value)
    ensures forall i :: 0 <= i < |params| ==>
              Checked(schema, input, params[i].name, FilledChain(schema, input, which[i]))
  {
    TemplateParamsKeepApart(schema, input, params, which);
    RequestHoldsItsParams(schema, input, parse, params);
    forall i | 0 <= i < |params|
      ensures Checked(schema, input, params[i].name, FilledChain(schema, input, which[i]))
    {
      TargetPath(schema, input, which[i]);
      Templates.TargetWalksBackIff(schema, input, 0, which[i]);
      Templates.TargetRejectedIff(schema, input, 0, which[i]);
    }
  }

  /** What the deploy check and the request builder make of a target flattened from the chain. */
  ghost predicate Checked(schema: Schema, input: string, target: string, chain: Templates.Chain)
    requires input in schema
  {
    && chain != []
    && (Walk(schema, Some(input), Split(target)).None? <==> Templates.Stuck(schema, schema[input], chain))
    && (Templates.Unclashed(schema, schema[input], chain) ==>
          FieldAt(schema, input, Split(target)) == Some(chain[|chain| - 1]))
  }

  /**
    What a filled-in template sends for one of its fields, when no name on the
    way to it is shadowed: text for text and choices, the JSON a text is for any
    other field, and nothing at all for a blank.
  */
  lemma {:induction false} TemplateFieldIsSent(
      schema: Schema, input: string, parse: Parser, params: seq<Param>, which: seq<nat>, i: nat)
    requires Valid(schema) && input in schema && FillsIn(schema, input, params, which) && i < |params|
    ensures var chain, given := FilledChain(schema, input, which[i]), params[i].value;
            var request := Built(schema, input, parse, params);
            && chain != [] && request.Some?
            && var sent := GetPath(request.value, Templates.Names(chain));
               && (given.None? || given.value == Text("") ==> sent.None?)
               && (given.Some? && given.value != Text("") && Templates.Unclashed(schema, schema[input], chain) ==>
                     sent == match chain[|chain| - 1].kind
                             case Enum(_) => given
                             case Scalar(true) => given
                             case _ => if given.value.Text? && parse(given.value.text).Some?
                                       then parse(given.value.text) else given)
  {
    TemplateParamsKeepApart(schema, input, params, which);
    FilledInTemplateIsSent(schema, input, parse, params, which);
    TargetPath(schema, input, which[i]);
    var chain := FilledChain(schema, input, which[i]);
    assert Checked(schema, input, params[i].name, chain);
    if Blank(params[i]) {
      forall j | 0 <= j < |params| && params[j].value.Some? && params[j].value.value != Text("")
        ensures Apart(Templates.Names(chain), Split(params[j].name))
      {
        TargetPath(schema, input, which[j]);
        assert i < j ==> which[i] != which[j];
        assert j < i ==> which[j] != which[i];
        if which[i] < which[j] {
          Templates.TargetsKeepApart(schema, schema[input], 0, which[i], which[j]);
        } else {
          Templates.TargetsKeepApart(schema, schema[input], 0, which[j], which[i]);
        }
      }
      NothingElseIsSent(schema, input, parse, params, Templates.Names(chain));
    } else {
      SentValue(schema, input, parse, params, i);
      WalkIsAsLong(schema, Some(input), Split(params[i].name));
    }
  }
}
