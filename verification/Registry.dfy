/** Message types as a graph, possibly cyclic, and looking up a field by name. */
module Registry {
  import opened Base
  import opened Paths

  datatype Kind =
    | Scalar(text: bool)
    | Enum(values: seq<string>)
    | Message(typeName: string)
    | Repeated
    | MapOf

  datatype Field = Field(name: string, jsonName: string, kind: Kind)

  type Schema = map<string, seq<Field>>

  /** What protobuf guarantees: known types, and field names that are distinct within a message and free of dots. */
  ghost predicate Valid(schema: Schema)
  {
    forall t :: t in schema ==> ValidMessage(schema, schema[t])
  }

  ghost predicate ValidMessage(schema: Schema, fields: seq<Field>)
  {
    && (forall i :: 0 <= i < |fields| ==>
       '.' !in fields[i].name && (fields[i].kind.Message? ==> fields[i].kind.typeName in schema))
    && (forall i, j :: 0 <= i < j < |fields| ==> fields[i].name != fields[j].name)
  }

  /** The first field with that proto name or JSON name. */
  function FindField(fields: seq<Field>, name: string): Option<Field>
  {
    if fields == [] then None
    else if fields[0].name == name || fields[0].jsonName == name then Some(fields[0])
    else FindField(fields[1..], name)
  }

  /** The field found is the first to have the name as its own or as its JSON name; none is found if none has. */
  lemma {:induction false} FindsFirst(fields: seq<Field>, name: string)
    ensures FindField(fields, name).None? <==>
            forall i :: 0 <= i < |fields| ==> fields[i].name != name && fields[i].jsonName != name
    ensures forall k :: 0 <= k < |fields| && (fields[k].name == name || fields[k].jsonName == name) ==>
            (forall i :: 0 <= i < k ==> fields[i].name != name && fields[i].jsonName != name) ==>
            FindField(fields, name) == Some(fields[k])
  {
    if fields != [] {
      FindsFirst(fields[1..], name);
      forall i | 0 < i < |fields| ensures fields[i] == fields[1..][i - 1] {
      }
    }
  }

  /** No earlier field of the message answers to this field's name with its JSON name. */
  ghost predicate Unshadowed(fields: seq<Field>, k: nat)
    requires k < |fields|
  {
    forall i :: 0 <= i < k ==> fields[i].jsonName != fields[k].name
  }

  /** Looking a field up by its own name finds it exactly when no earlier field's JSON name shadows it. */
  lemma {:induction false} FindsItselfIffUnshadowed(schema: Schema, fields: seq<Field>, k: nat)
    requires ValidMessage(schema, fields) && k < |fields|
    ensures FindField(fields, fields[k].name) == Some(fields[k]) <==> Unshadowed(fields, k)
  {
    if k > 0 {
      var rest := fields[1..];
      assert fields[0].name != fields[k].name;
      assert ValidMessage(schema, rest);
      FindsItselfIffUnshadowed(schema, rest, k - 1);
      assert Unshadowed(fields, k) <==> fields[0].jsonName != fields[k].name && Unshadowed(rest, k - 1) by {
        assert forall i :: 0 < i < k ==> fields[i] == rest[i - 1];
      }
    }
  }

  /** Some earlier field of the message answers to the field's name with its JSON name. */
  ghost predicate Shadowed(fields: seq<Field>, name: string)
  {
    exists k :: 0 <= k < |fields| && fields[k].name == name && !Unshadowed(fields, k)
  }

  lemma {:induction false} FindsByName(fields: seq<Field>, k: nat)
    requires k < |fields|
    ensures FindField(fields, fields[k].name).Some?
  {
    if k > 0 {
      FindsByName(fields[1..], k - 1);
    }
  }

  /** The fields a dotted target leads through, or None where it leads nowhere. */
  function Walk(schema: Schema, message: Option<string>, path: Path): Option<seq<Field>>
    requires path != []
    decreases |path|
  {
    if message.None? || message.value !in schema then None
    else
      match FindField(schema[message.value], path[0])
      case None => None
      case Some(field) =>
        if |path| == 1 then Some([field])
        else
          match Walk(schema, if field.kind.Message? then Some(field.kind.typeName) else None, path[1..])
          case None => None
          case Some(rest) => Some([field] + rest)
  }

  /** The deploy check of one input's target, segment by segment. */
  method CheckTarget(schema: Schema, input: string, target: string) returns (ok: bool)
    ensures ok <==> Walk(schema, Some(input), Split(target)).Some?
  {
    var path := Split(target);
    var message := Some(input);
    for i := 0 to |path|
      invariant i < |path| ==> (Walk(schema, message, path[i..]).Some? <==> Walk(schema, Some(input), path).Some?)
      invariant i == |path| ==> Walk(schema, Some(input), path).Some?
    {
      assert path[i..][0] == path[i] && path[i..][1..] == path[i + 1..];
      var field :=
        if message.None? || message.value !in schema then None else FindField(schema[message.value], path[i]);
      if field.None? {
        return false;
      }
      message := if field.value.kind.Message? then Some(field.value.kind.typeName) else None;
    }
    return true;
  }
}
