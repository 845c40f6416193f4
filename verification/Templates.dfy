/** Request messages flattened into dotted fields, for the element templates and for the deploy check. */
module Templates {
  import opened Base
  import opened Paths
  import opened Registry

  const MAX_DEPTH := 3
  const WELL_KNOWN := "google.protobuf."
  const JSON_STRINGS := {"google.protobuf.Timestamp", "google.protobuf.Duration", "google.protobuf.FieldMask"}

  /** A nested message whose fields take its place. */
  predicate Nests(field: Field, depth: nat)
  {
    field.kind.Message? && !(WELL_KNOWN <= field.kind.typeName) && depth < MAX_DEPTH
  }

  /** The fields from the request down to one that is filled in. */
  type Chain = seq<Field>

  function Names(chain: Chain): Path
  {
    seq(|chain|, i requires 0 <= i < |chain| => chain[i].name)
  }

  function Under(field: Field, chains: seq<Chain>): (under: seq<Chain>)
    ensures |under| == |chains| && forall i :: 0 <= i < |chains| ==> under[i] == [field] + chains[i]
  {
    seq(|chains|, i requires 0 <= i < |chains| => [field] + chains[i])
  }

  /** Every chain of a message's fields, depth first; the depth bound makes cyclic messages end. */
  function Chains(schema: Schema, fields: seq<Field>, depth: nat): seq<Chain>
    requires depth <= MAX_DEPTH
    decreases MAX_DEPTH - depth, |fields|
  {
    if fields == [] then []
    else Chains(schema, fields[..|fields| - 1], depth) + ChainsOf(schema, fields[|fields| - 1], depth)
  }

  function ChainsOf(schema: Schema, field: Field, depth: nat): seq<Chain>
    requires depth <= MAX_DEPTH
    decreases MAX_DEPTH - depth, 0
  {
    if !Nests(field, depth) then [[field]]
    else if field.kind.typeName in schema then Under(field, Chains(schema, schema[field.kind.typeName], depth + 1))
    else []
  }

  predicate NeedsJson(kind: Kind)
  {
    kind.Repeated? || kind.MapOf? || (kind.Message? && kind.typeName !in JSON_STRINGS)
  }

  datatype FieldInfo = FieldInfo(target: string, json: bool, choices: Option<seq<string>>)

  datatype Control = Dropdown | TextArea | Line

  datatype Property = Property(target: string, control: Control, choices: Option<seq<string>>, optional: bool)

  function Target(prefix: string, chain: Chain): string
    requires chain != []
  {
    prefix + Join(Names(chain))
  }

  function ChoicesOf(field: Field): Option<seq<string>>
  {
    if field.kind.Enum? then Some(field.kind.values) else None
  }

  function InfoOf(prefix: string, chain: Chain): FieldInfo
    requires chain != []
  {
    var field := chain[|chain| - 1];
    FieldInfo(Target(prefix, chain), NeedsJson(field.kind), ChoicesOf(field))
  }

  function PropertyOf(prefix: string, chain: Chain): Property
    requires chain != []
  {
    var field := chain[|chain| - 1];
    if field.kind.Enum? then Property(Target(prefix, chain), Dropdown, Some(field.kind.values), false)
    else Property(Target(prefix, chain), if NeedsJson(field.kind) then TextArea else Line, None, true)
  }

  lemma {:induction false} ChainsAreNotEmpty(schema: Schema, fields: seq<Field>, depth: nat)
    requires depth <= MAX_DEPTH
    ensures forall i :: 0 <= i < |Chains(schema, fields, depth)| ==> Chains(schema, fields, depth)[i] != []
  {
    if fields != [] {
      ChainsAreNotEmpty(schema, fields[..|fields| - 1], depth);
    }
  }

  ghost predicate Describes(infos: seq<FieldInfo>, prefix: string, chains: seq<Chain>)
  {
    |infos| == |chains| && forall i :: 0 <= i < |infos| ==> chains[i] != [] && infos[i] == InfoOf(prefix, chains[i])
  }

  ghost predicate Offers(properties: seq<Property>, prefix: string, chains: seq<Chain>)
  {
    |properties| == |chains| && forall i :: 0 <= i < |properties| ==>
      chains[i] != [] && properties[i] == PropertyOf(prefix, chains[i])
  }

  lemma NestedTarget(prefix: string, field: Field, chain: Chain)
    requires chain != []
    ensures Target(prefix + field.name + ".", chain) == Target(prefix, [field] + chain)
  {
    assert Names([field] + chain) == [field.name] + Names(chain);
    assert prefix + (field.name + "." + Join(Names(chain))) == prefix + field.name + "." + Join(Names(chain));
  }

  /** `describeFields`. */
  method DescribeFields(schema: Schema, fields: seq<Field>, prefix: string, depth: nat) returns (out: seq<FieldInfo>)
    requires Valid(schema) && ValidMessage(schema, fields) && depth <= MAX_DEPTH
    ensures Describes(out, prefix, Chains(schema, fields, depth))
    decreases MAX_DEPTH - depth
  {
    out := [];
    for i := 0 to |fields|
      invariant Describes(out, prefix, Chains(schema, fields[..i], depth))
    {
      var field := fields[i];
      var infos: seq<FieldInfo>;
      if Nests(field, depth) {
        infos := DescribeFields(schema, schema[field.kind.typeName], prefix + field.name + ".", depth + 1);
        NestedInfos(infos, prefix, field, Chains(schema, schema[field.kind.typeName], depth + 1));
      } else {
        assert Names([field]) == [field.name];
        infos := [FieldInfo(prefix + field.name, NeedsJson(field.kind), ChoicesOf(field))];
      }
      assert fields[..i + 1][..i] == fields[..i];
      MoreInfos(out, infos, prefix, Chains(schema, fields[..i], depth), ChainsOf(schema, field, depth));
      out := out + infos;
    }
    assert fields[..|fields|] == fields;
  }

  lemma NestedInfos(inner: seq<FieldInfo>, prefix: string, field: Field, chains: seq<Chain>)
    requires Describes(inner, prefix + field.name + ".", chains)
    ensures Describes(inner, prefix, Under(field, chains))
  {
    forall k | 0 <= k < |inner| ensures inner[k] == InfoOf(prefix, [field] + chains[k]) {
      NestedTarget(prefix, field, chains[k]);
    }
  }

  lemma NestedProperties(inner: seq<Property>, prefix: string, field: Field, chains: seq<Chain>)
    requires Offers(inner, prefix + field.name + ".", chains)
    ensures Offers(inner, prefix, Under(field, chains))
  {
    forall k | 0 <= k < |inner| ensures inner[k] == PropertyOf(prefix, [field] + chains[k]) {
      NestedTarget(prefix, field, chains[k]);
    }
  }

  lemma MoreInfos(a: seq<FieldInfo>, b: seq<FieldInfo>, prefix: string, chains: seq<Chain>, more: seq<Chain>)
    requires Describes(a, prefix, chains) && Describes(b, prefix, more)
    ensures Describes(a + b, prefix, chains + more)
  {
  }

  lemma MoreProperties(a: seq<Property>, b: seq<Property>, prefix: string, chains: seq<Chain>, more: seq<Chain>)
    requires Offers(a, prefix, chains) && Offers(b, prefix, more)
    ensures Offers(a + b, prefix, chains + more)
  {
  }

  /** One template property: a dropdown for an enum, else a text field, larger for JSON. */
  method LeafProperty(field: Field, prefix: string) returns (property: Property)
    ensures property == PropertyOf(prefix, [field])
  {
    assert Names([field]) == [field.name];
    var target := prefix + field.name;
    if field.kind.Enum? {
      return Property(target, Dropdown, Some(field.kind.values), false);
    }
    var multiline := field.kind.Repeated? || field.kind.MapOf? ||
      (field.kind.Message? && field.kind.typeName !in JSON_STRINGS);
    return Property(target, if multiline then TextArea else Line, None, true);
  }

  /** `requestFields`, the same walk written a second time for the templates. */
  method RequestFields(schema: Schema, fields: seq<Field>, prefix: string, depth: nat) returns (out: seq<Property>)
    requires Valid(schema) && ValidMessage(schema, fields) && depth <= MAX_DEPTH
    ensures Offers(out, prefix, Chains(schema, fields, depth))
    decreases MAX_DEPTH - depth
  {
    out := [];
    for i := 0 to |fields|
      invariant Offers(out, prefix, Chains(schema, fields[..i], depth))
    {
      var field := fields[i];
      var properties: seq<Property>;
      if Nests(field, depth) {
        properties := RequestFields(schema, schema[field.kind.typeName], prefix + field.name + ".", depth + 1);
        NestedProperties(properties, prefix, field, Chains(schema, schema[field.kind.typeName], depth + 1));
      } else {
        var property := LeafProperty(field, prefix);
        properties := [property];
      }
      assert fields[..i + 1][..i] == fields[..i];
      MoreProperties(out, properties, prefix, Chains(schema, fields[..i], depth), ChainsOf(schema, field, depth));
      out := out + properties;
    }
    assert fields[..|fields|] == fields;
  }

  /**
    Templates and descriptions list the same targets in the same order, and
    agree on what is JSON and what is a choice.
  */
  lemma TemplatesAgree(schema: Schema, fields: seq<Field>, infos: seq<FieldInfo>, properties: seq<Property>)
    requires Describes(infos, "", Chains(schema, fields, 0)) && Offers(properties, "", Chains(schema, fields, 0))
    ensures |infos| == |properties|
    ensures forall i :: 0 <= i < |infos| ==>
              && infos[i].target == properties[i].target && infos[i].choices == properties[i].choices
              && (infos[i].json <==> properties[i].control == TextArea)
              && (infos[i].choices.Some? <==> properties[i].control == Dropdown)
  {
  }

  // ---------------------------------------------------------------- which targets there are

  /** The first field is a message whose fields take its place, and the second is one of those. */
  predicate LeadsTo(schema: Schema, a: Field, b: Field)
  {
    && a.kind.Message? && !("google.protobuf." <= a.kind.typeName)
    && a.kind.typeName in schema && b in schema[a.kind.typeName]
  }

  /**
    A way down from the fields through nested messages to a field to fill in:
    at most `room` fields long, and shorter only if it ends at what has no
    fields of its own to offer.
  */
  ghost predicate LeafPath(schema: Schema, fields: seq<Field>, chain: Chain, room: int)
  {
    && 0 < |chain| <= room && chain[0] in fields
    && (forall j, k :: 0 <= j && k == j + 1 < |chain| ==> LeadsTo(schema, chain[j], chain[k]))
    && (chain[|chain| - 1].kind.Message? && !("google.protobuf." <= chain[|chain| - 1].kind.typeName) ==>
          |chain| == room)
  }

  lemma LeafPathInto(schema: Schema, field: Field, chain: Chain, room: int)
    requires field.kind.Message? && !("google.protobuf." <= field.kind.typeName) && room > 1
    requires LeafPath(schema, [field], [field] + chain, room)
    ensures field.kind.typeName in schema && LeafPath(schema, schema[field.kind.typeName], chain, room - 1)
  {
    var longer := [field] + chain;
    assert longer[0] == field && forall k :: 0 <= k < |chain| ==> longer[k + 1] == chain[k];
    assert longer[|longer| - 1] == if chain == [] then field else chain[|chain| - 1];
    assert chain != [] && LeadsTo(schema, longer[0], longer[1]);
    forall j, k | 0 <= j && k == j + 1 < |chain| ensures LeadsTo(schema, chain[j], chain[k]) {
      assert LeadsTo(schema, longer[j + 1], longer[k + 1]);
    }
  }

  lemma LeafPathOutOf(schema: Schema, field: Field, chain: Chain, room: int)
    requires field.kind.Message? && !("google.protobuf." <= field.kind.typeName) && field.kind.typeName in schema
    requires LeafPath(schema, schema[field.kind.typeName], chain, room - 1)
    ensures LeafPath(schema, [field], [field] + chain, room)
  {
    var longer := [field] + chain;
    forall j, k | 0 <= j && k == j + 1 < |longer| ensures LeadsTo(schema, longer[j], longer[k]) {
      assert longer[k] == chain[j];
      if j > 0 {
        assert longer[j] == chain[j - 1] && LeadsTo(schema, chain[j - 1], chain[j]);
      }
    }
  }

  lemma {:induction false} ChainsOfAre(schema: Schema, field: Field, depth: nat, chain: Chain)
    requires depth <= 3
    ensures chain in ChainsOf(schema, field, depth) <==> LeafPath(schema, [field], chain, 4 - depth)
    decreases 3 - depth, 0
  {
    if chain == [] || chain[0] != field {
      ChainsOfStart(schema, field, depth);
    } else if Nests(field, depth) {
      var below := chain[1..];
      assert chain == [field] + below;
      if field.kind.typeName in schema {
        ChainsAre(schema, schema[field.kind.typeName], depth + 1, below);
        UnderHas(field, Chains(schema, schema[field.kind.typeName], depth + 1), below);
        if LeafPath(schema, schema[field.kind.typeName], below, 3 - depth) {
          LeafPathOutOf(schema, field, below, 4 - depth);
        }
      }
      if LeafPath(schema, [field], chain, 4 - depth) {
        LeafPathInto(schema, field, below, 4 - depth);
      }
    } else {
      NothingBelow(schema, field, chain, 4 - depth);
    }
  }

  lemma ChainsOfStart(schema: Schema, field: Field, depth: nat)
    requires depth <= 3
    ensures forall chain :: chain in ChainsOf(schema, field, depth) ==> chain != [] && chain[0] == field
  {
  }

  lemma NothingBelow(schema: Schema, field: Field, chain: Chain, room: int)
    requires !field.kind.Message? || "google.protobuf." <= field.kind.typeName || room == 1
    requires room > 0 && chain != [] && chain[0] == field
    ensures LeafPath(schema, [field], chain, room) <==> chain == [field]
  {
    if |chain| > 1 {
      assert LeadsTo(schema, chain[0], chain[1]) ==> room == 1;
    }
  }

  lemma UnderHas(field: Field, chains: seq<Chain>, chain: Chain)
    ensures [field] + chain in Under(field, chains) <==> chain in chains
  {
    var under := Under(field, chains);
    if [field] + chain in under {
      var i :| 0 <= i < |under| && under[i] == [field] + chain;
      assert chains[i] == ([field] + chains[i])[1..] == ([field] + chain)[1..] == chain;
    }
    if chain in chains {
      var i :| 0 <= i < |chains| && chains[i] == chain;
      assert under[i] == [field] + chain;
    }
  }

  /** The chains flattened are exactly the ways down to a field to fill in, up to four fields long. */
  lemma {:induction false} ChainsAre(schema: Schema, fields: seq<Field>, depth: nat, chain: Chain)
    requires depth <= 3
    ensures chain in Chains(schema, fields, depth) <==> LeafPath(schema, fields, chain, 4 - depth)
    decreases 3 - depth, 1, |fields|
  {
    if fields != [] {
      var init, last := fields[..|fields| - 1], fields[|fields| - 1];
      ChainsAre(schema, init, depth, chain);
      ChainsOfAre(schema, last, depth, chain);
      assert fields == init + [last];
      assert chain in Chains(schema, fields, depth) <==>
             chain in Chains(schema, init, depth) || chain in ChainsOf(schema, last, depth);
    }
  }

  /** Depth first: two chains part at fields of one message, the earlier chain at the earlier field. */
  lemma {:induction false} ChainsInOrder(schema: Schema, fields: seq<Field>, depth: nat, i: nat, j: nat)
    returns (k: nat, p: nat, q: nat)
    requires Valid(schema) && ValidMessage(schema, fields) && depth <= 3 && i < j < |Chains(schema, fields, depth)|
    ensures PartAt(schema, fields, Chains(schema, fields, depth)[i], Chains(schema, fields, depth)[j], k, p, q)
    decreases 3 - depth, 1, |fields|
  {
    var init, last := fields[..|fields| - 1], fields[|fields| - 1];
    var before, own := Chains(schema, init, depth), ChainsOf(schema, last, depth);
    assert ValidMessage(schema, init) && fields == init + [last];
    assert Chains(schema, fields, depth) == before + own;
    if j < |before| {
      k, p, q := ChainsInOrder(schema, init, depth, i, j);
      PartAmongMore(schema, init, last, before[i], before[j], k, p, q);
    } else if i < |before| {
      ChainsStartWithFields(schema, init, depth);
      ChainsOfStart(schema, last, depth);
      assert own[j - |before|] in own;
      p := PartAtFirst(schema, init, last, before[i], own[j - |before|]);
      k, q := 0, |init|;
    } else {
      assert Nests(last, depth) && last.kind.typeName in schema;
      k, p, q := NestedInOrder(schema, fields, last, depth, i - |before|, j - |before|);
    }
  }

  lemma {:induction false} NestedInOrder(
      schema: Schema, fields: seq<Field>, field: Field, depth: nat, i: nat, j: nat)
    returns (k: nat, p: nat, q: nat)
    requires Valid(schema) && depth <= 3 && i < j < |ChainsOf(schema, field, depth)|
    requires depth < 3 && field.kind.Message? && field.kind.typeName in schema
    requires ChainsOf(schema, field, depth) == Under(field, Chains(schema, schema[field.kind.typeName], depth + 1))
    ensures PartAt(schema, fields, ChainsOf(schema, field, depth)[i], ChainsOf(schema, field, depth)[j], k, p, q)
    decreases 3 - depth, 0
  {
    var name := field.kind.typeName;
    var inner := Chains(schema, schema[name], depth + 1);
    assert ValidMessage(schema, schema[name]);
    var above;
    above, p, q := ChainsInOrder(schema, schema[name], depth + 1, i, j);
    PartBelow(schema, fields, field, inner[i], inner[j], above, p, q);
    k := above + 1;
  }

  ghost predicate PartAt(schema: Schema, fields: seq<Field>, a: Chain, b: Chain, k: nat, p: nat, q: nat)
  {
    && k < |a| && k < |b| && a[..k] == b[..k]
    && (k > 0 ==> a[k - 1].kind.Message? && a[k - 1].kind.typeName in schema)
    && var level := if k == 0 then fields else schema[a[k - 1].kind.typeName];
       p < q < |level| && level[p] == a[k] && level[q] == b[k]
  }

  lemma PartAtFirst(schema: Schema, init: seq<Field>, last: Field, a: Chain, b: Chain) returns (p: nat)
    requires a != [] && b != [] && a[0] in init && b[0] == last
    ensures PartAt(schema, init + [last], a, b, 0, p, |init|)
  {
    p :| 0 <= p < |init| && init[p] == a[0];
    assert a[..0] == b[..0] && (init + [last])[p] == a[0];
  }

  lemma PartAmongMore(
      schema: Schema, init: seq<Field>, last: Field, a: Chain, b: Chain, k: nat, p: nat, q: nat)
    requires PartAt(schema, init, a, b, k, p, q)
    ensures PartAt(schema, init + [last], a, b, k, p, q)
  {
  }

  lemma PartBelow(
      schema: Schema, fields: seq<Field>, field: Field, a: Chain, b: Chain, k: nat, p: nat, q: nat)
    requires field.kind.Message? && field.kind.typeName in schema
    requires PartAt(schema, schema[field.kind.typeName], a, b, k, p, q)
    ensures PartAt(schema, fields, [field] + a, [field] + b, k + 1, p, q)
  {
    assert ([field] + a)[..k + 1] == [field] + a[..k] && ([field] + b)[..k + 1] == [field] + b[..k];
    assert ([field] + a)[k] == if k == 0 then field else a[k - 1];
  }

  /** What the editor and the description make of a way down to a field. */
  ghost predicate Shown(chain: Chain, info: FieldInfo, property: Property)
    requires chain != []
  {
    var kind := chain[|chain| - 1].kind;
    var json := kind.Repeated? || kind.MapOf? ||
      (kind.Message? && kind.typeName != "google.protobuf.Timestamp" &&
        kind.typeName != "google.protobuf.Duration" && kind.typeName != "google.protobuf.FieldMask");
    && info.target == property.target == Join(Names(chain)) && (info.json <==> json)
    && (match kind
        case Enum(values) =>
          info.choices == property.choices == Some(values) && property.control == Dropdown && !property.optional
        case _ =>
          && info.choices.None? && property.choices.None? && property.optional
          && property.control == (if json then TextArea else Line))
  }

  /** Every way down to a field has a place in both lists, and every place shows one. */
  lemma {:induction false} PathIsOffered(
      schema: Schema, fields: seq<Field>, infos: seq<FieldInfo>, properties: seq<Property>, chain: Chain)
    requires Describes(infos, "", Chains(schema, fields, 0)) && Offers(properties, "", Chains(schema, fields, 0))
    ensures |infos| == |properties|
    ensures LeafPath(schema, fields, chain, 4) ==>
            exists i :: 0 <= i < |infos| && Shown(chain, infos[i], properties[i])
  {
    var chains := Chains(schema, fields, 0);
    ChainsAre(schema, fields, 0, chain);
    if LeafPath(schema, fields, chain, 4) {
      var i :| 0 <= i < |chains| && chains[i] == chain;
      assert "" + Join(Names(chain)) == Join(Names(chain));
      assert Shown(chain, infos[i], properties[i]);
    }
  }

  lemma {:induction false} OfferIsPath(
      schema: Schema, fields: seq<Field>, infos: seq<FieldInfo>, properties: seq<Property>, i: nat)
    returns (chain: Chain)
    requires Describes(infos, "", Chains(schema, fields, 0)) && Offers(properties, "", Chains(schema, fields, 0))
    requires i < |infos|
    ensures |infos| == |properties| && LeafPath(schema, fields, chain, 4) && Shown(chain, infos[i], properties[i])
  {
    chain := Chains(schema, fields, 0)[i];
    ChainsAre(schema, fields, 0, chain);
    assert "" + Join(Names(chain)) == Join(Names(chain));
  }

  // ---------------------------------------------------------------- targets keep apart

  lemma {:induction false} ChainsStartWithFields(schema: Schema, fields: seq<Field>, depth: nat)
    requires depth <= MAX_DEPTH
    ensures forall i :: 0 <= i < |Chains(schema, fields, depth)| ==>
              Chains(schema, fields, depth)[i] != [] && Chains(schema, fields, depth)[i][0] in fields
  {
    if fields != [] {
      ChainsStartWithFields(schema, fields[..|fields| - 1], depth);
      assert fields == fields[..|fields| - 1] + [fields[|fields| - 1]];
    }
  }

  lemma ApartHeads(a: Chain, b: Chain)
    requires a != [] && b != [] && a[0].name != b[0].name
    ensures Apart(Names(a), Names(b))
  {
    assert Names(a)[0] == a[0].name && Names(b)[0] == b[0].name;
  }

  lemma ApartUnder(field: Field, a: Chain, b: Chain)
    requires Apart(Names(a), Names(b))
    ensures Apart(Names([field] + a), Names([field] + b))
  {
    assert Names([field] + a) == [field.name] + Names(a) && Names([field] + b) == [field.name] + Names(b);
    assert forall p: Path, q: Path :: [field.name] + p <= [field.name] + q ==> p <= q by {
      forall p: Path, q: Path | [field.name] + p <= [field.name] + q ensures p <= q {
        assert forall i :: 0 <= i < |p| ==> p[i] == ([field.name] + p)[i + 1] == ([field.name] + q)[i + 1];
      }
    }
  }

  /** No target is another's prefix, so in particular no two are the same. */
  lemma {:induction false} TargetsKeepApart(schema: Schema, fields: seq<Field>, depth: nat, i: nat, j: nat)
    requires Valid(schema) && ValidMessage(schema, fields) && depth <= MAX_DEPTH
    requires i < j < |Chains(schema, fields, depth)|
    ensures Apart(Names(Chains(schema, fields, depth)[i]), Names(Chains(schema, fields, depth)[j]))
    decreases MAX_DEPTH - depth, |fields|
  {
    var init, last := fields[..|fields| - 1], fields[|fields| - 1];
    var before, own := Chains(schema, init, depth), ChainsOf(schema, last, depth);
    assert ValidMessage(schema, init);
    if j < |before| {
      TargetsKeepApart(schema, init, depth, i, j);
    } else if i < |before| {
      ChainsStartWithFields(schema, init, depth);
      assert before[i][0] in init;
      ApartHeads(before[i], own[j - |before|]);
    } else {
      assert Nests(last, depth);
      var inner := Chains(schema, schema[last.kind.typeName], depth + 1);
      TargetsKeepApart(schema, schema[last.kind.typeName], depth + 1, i - |before|, j - |before|);
      ApartUnder(last, inner[i - |before|], inner[j - |before|]);
    }
  }

  // ---------------------------------------------------------------- targets pass the deploy walk

  /** No field on the chain is shadowed in its message by an earlier field's JSON name. */
  ghost predicate Unclashed(schema: Schema, fields: seq<Field>, chain: Chain)
    decreases |chain|
  {
    chain != [] ==>
      && !Shadowed(fields, chain[0].name)
      && (|chain| > 1 && chain[0].kind.Message? && chain[0].kind.typeName in schema ==>
            Unclashed(schema, schema[chain[0].kind.typeName], chain[1..]))
  }

  /**
    The deploy walk of a flattened target goes through the very fields it was
    flattened from exactly when none is shadowed.
  */
  lemma {:induction false} TargetWalksBackIff(schema: Schema, message: string, depth: nat, i: nat)
    requires Valid(schema) && message in schema && depth <= MAX_DEPTH && i < |Chains(schema, schema[message], depth)|
    ensures var chain := Chains(schema, schema[message], depth)[i];
            && chain != []
            && (Walk(schema, Some(message), Names(chain)) == Some(chain) <==> Unclashed(schema, schema[message], chain))
    decreases MAX_DEPTH - depth
  {
    var fields := schema[message];
    var chain := Chains(schema, fields, depth)[i];
    var k, n := ChainAt(schema, fields, depth, i);
    assert ValidMessage(schema, fields);
    FindsItselfIffUnshadowed(schema, fields, k);
    var field := fields[k];
    if Nests(field, depth) {
      var inner := Chains(schema, schema[field.kind.typeName], depth + 1)[n];
      TargetWalksBackIff(schema, field.kind.typeName, depth + 1, n);
      NestedWalk(schema, message, field, inner);
      assert chain[1..] == inner;
    } else {
      assert Names(chain) == [field.name];
    }
    ShadowedIff(schema, fields, k);
    assert Unclashed(schema, fields, chain) <==>
           Unshadowed(fields, k) && (Nests(field, depth) ==>
             Unclashed(schema, schema[field.kind.typeName], chain[1..]));
  }

  lemma ShadowedIff(schema: Schema, fields: seq<Field>, k: nat)
    requires ValidMessage(schema, fields) && k < |fields|
    ensures Shadowed(fields, fields[k].name) <==> !Unshadowed(fields, k)
  {
    assert forall m :: 0 <= m < |fields| && fields[m].name == fields[k].name ==> m == k;
  }

  /** At the first shadowed segment but the last, what shadows it is no message, or one that does not lead on. */
  ghost predicate Stuck(schema: Schema, fields: seq<Field>, chain: Chain)
    decreases |chain|
  {
    && |chain| > 1 && chain[0].kind.Message? && chain[0].kind.typeName in schema
    && if Shadowed(fields, chain[0].name) then
         var shadow := FindField(fields, chain[0].name);
         !(shadow.Some? && shadow.value.kind.Message? &&
           Walk(schema, Some(shadow.value.kind.typeName), Names(chain[1..])).Some?)
       else Stuck(schema, schema[chain[0].kind.typeName], chain[1..])
  }

  /** Exactly when the deploy check rejects a target the templates offer. */
  lemma {:induction false} TargetRejectedIff(schema: Schema, message: string, depth: nat, i: nat)
    requires Valid(schema) && message in schema && depth <= MAX_DEPTH && i < |Chains(schema, schema[message], depth)|
    ensures var chain := Chains(schema, schema[message], depth)[i];
            && chain != []
            && (Walk(schema, Some(message), Names(chain)).None? <==> Stuck(schema, schema[message], chain))
    decreases MAX_DEPTH - depth
  {
    var fields := schema[message];
    var k, n := ChainAt(schema, fields, depth, i);
    assert ValidMessage(schema, fields);
    FindsItselfIffUnshadowed(schema, fields, k);
    FindsByName(fields, k);
    ShadowedIff(schema, fields, k);
    var field := fields[k];
    if Nests(field, depth) {
      var inner := Chains(schema, schema[field.kind.typeName], depth + 1)[n];
      TargetRejectedIff(schema, field.kind.typeName, depth + 1, n);
      NestedStop(schema, message, field, inner);
      assert ([field] + inner)[1..] == inner;
    }
  }

  lemma NestedStop(schema: Schema, message: string, field: Field, inner: Chain)
    requires message in schema && inner != [] && FindField(schema[message], field.name).Some?
    ensures var found := FindField(schema[message], field.name).value;
            Walk(schema, Some(message), Names([field] + inner)).Some? <==>
            Walk(schema, if found.kind.Message? then Some(found.kind.typeName) else None, Names(inner)).Some?
  {
    var path := Names([field] + inner);
    assert path[0] == field.name && path[1..] == Names(inner) && |path| > 1;
  }

  /** A shadowed last segment is always accepted. */
  lemma {:induction false} LastShadowIsAccepted(schema: Schema, message: string, depth: nat, i: nat)
    requires Valid(schema) && message in schema && depth <= MAX_DEPTH && i < |Chains(schema, schema[message], depth)|
    requires var chain := Chains(schema, schema[message], depth)[i];
             chain == [] || Unclashed(schema, schema[message], chain[..|chain| - 1])
    ensures var chain := Chains(schema, schema[message], depth)[i];
            chain != [] && Walk(schema, Some(message), Names(chain)).Some?
  {
    TargetRejectedIff(schema, message, depth, i);
    StuckNeedsShadow(schema, schema[message], Chains(schema, schema[message], depth)[i]);
  }

  lemma {:induction false} StuckNeedsShadow(schema: Schema, fields: seq<Field>, chain: Chain)
    requires chain != [] && Unclashed(schema, fields, chain[..|chain| - 1])
    ensures !Stuck(schema, fields, chain)
    decreases |chain|
  {
    if |chain| > 1 && chain[0].kind.Message? && chain[0].kind.typeName in schema {
      assert chain[..|chain| - 1][1..] == chain[1..][..|chain| - 2];
      StuckNeedsShadow(schema, schema[chain[0].kind.typeName], chain[1..]);
    }
  }

  /** The fields among which the chain's k-th segment is looked up. */
  function FieldsAt(schema: Schema, fields: seq<Field>, chain: Chain, k: nat): seq<Field>
    requires k < |chain|
    decreases k
  {
    if k == 0 then fields
    else if chain[0].kind.Message? && chain[0].kind.typeName in schema then
      FieldsAt(schema, schema[chain[0].kind.typeName], chain[1..], k - 1)
    else []
  }

  /** A segment with more to come that is shadowed by a field that is no message is always rejected. */
  lemma {:induction false} PlainShadowIsRejected(schema: Schema, message: string, depth: nat, i: nat, k: nat)
    requires Valid(schema) && message in schema && depth <= MAX_DEPTH && i < |Chains(schema, schema[message], depth)|
    requires var chain := Chains(schema, schema[message], depth)[i];
             && k + 1 < |chain| && Unclashed(schema, schema[message], chain[..k])
             && var shadow := FindField(FieldsAt(schema, schema[message], chain, k), chain[k].name);
                shadow.Some? && !shadow.value.kind.Message?
    ensures Walk(schema, Some(message), Names(Chains(schema, schema[message], depth)[i])).None?
  {
    TargetRejectedIff(schema, message, depth, i);
    StuckAt(schema, message, depth, i, k);
  }

  lemma {:induction false} StuckAt(schema: Schema, message: string, depth: nat, i: nat, k: nat)
    requires Valid(schema) && message in schema && depth <= MAX_DEPTH && i < |Chains(schema, schema[message], depth)|
    requires var chain := Chains(schema, schema[message], depth)[i];
             && k + 1 < |chain| && Unclashed(schema, schema[message], chain[..k])
             && var shadow := FindField(FieldsAt(schema, schema[message], chain, k), chain[k].name);
                shadow.Some? && !shadow.value.kind.Message?
    ensures Stuck(schema, schema[message], Chains(schema, schema[message], depth)[i])
    decreases k
  {
    var fields := schema[message];
    var chain := Chains(schema, fields, depth)[i];
    var f, n := ChainAt(schema, fields, depth, i);
    var inner := Chains(schema, schema[fields[f].kind.typeName], depth + 1)[n];
    assert chain[1..] == inner && fields[f].kind.Message?;
    assert ValidMessage(schema, fields);
    FindsItselfIffUnshadowed(schema, fields, f);
    ShadowedIff(schema, fields, f);
    if k > 0 {
      assert chain[..k][1..] == inner[..k - 1] && chain[k] == inner[k - 1];
      StuckAt(schema, fields[f].kind.typeName, depth + 1, n, k - 1);
    }
  }

  /** The field a chain starts with, and which of its own chains it continues with. */
  lemma {:induction false} ChainAt(schema: Schema, fields: seq<Field>, depth: nat, i: nat) returns (k: nat, n: nat)
    requires depth <= MAX_DEPTH && i < |Chains(schema, fields, depth)|
    ensures k < |fields|
    ensures var chain := Chains(schema, fields, depth)[i];
            if Nests(fields[k], depth) then
              && fields[k].kind.typeName in schema
              && n < |Chains(schema, schema[fields[k].kind.typeName], depth + 1)|
              && chain == [fields[k]] + Chains(schema, schema[fields[k].kind.typeName], depth + 1)[n]
            else chain == [fields[k]]
  {
    var init := fields[..|fields| - 1];
    var before := Chains(schema, init, depth);
    if i < |before| {
      k, n := ChainAt(schema, init, depth, i);
    } else {
      k, n := |fields| - 1, i - |before|;
    }
  }

  lemma NestedWalk(schema: Schema, message: string, field: Field, inner: Chain)
    requires message in schema && inner != [] && field.kind.Message?
    ensures var found := FindField(schema[message], field.name);
            Walk(schema, Some(message), Names([field] + inner)) == Some([field] + inner) <==>
            found == Some(field) && Walk(schema, Some(field.kind.typeName), Names(inner)) == Some(inner)
  {
    var path := Names([field] + inner);
    assert path[0] == field.name && path[1..] == Names(inner) && |path| > 1;
    var found := FindField(schema[message], field.name);
    if found.Some? {
      var below := Walk(schema, if found.value.kind.Message? then Some(found.value.kind.typeName) else None, path[1..]);
      if below.Some? {
        assert ([found.value] + below.value)[0] == found.value && ([found.value] + below.value)[1..] == below.value;
        assert ([field] + inner)[0] == field && ([field] + inner)[1..] == inner;
      }
    }
  }

  /** A valid schema whose own flattened target "b.x" the deploy check rejects: an earlier field's JSON name is "b". */
  lemma ShadowedTargetIsRejected() returns (schema: Schema)
    ensures Valid(schema) && "Request" in schema
    ensures exists i :: 0 <= i < |Chains(schema, schema["Request"], 0)| &&
              Names(Chains(schema, schema["Request"], 0)[i]) == ["b", "x"]
    ensures Walk(schema, Some("Request"), ["b", "x"]).None?
  {
    var x := Field("x", "x", Scalar(true));
    var a := Field("a", "b", Scalar(true));
    var b := Field("b", "bee", Message("Inner"));
    schema := map["Inner" := [x], "Request" := [a, b]];
    assert [x][..0] == [] && [a, b][..1] == [a] && [a][..0] == [];
    assert !(WELL_KNOWN <= "Inner") by { assert "Inner"[0] != WELL_KNOWN[0]; }
    assert Chains(schema, [x], 1) == [[x]];
    assert ChainsOf(schema, b, 0) == Under(b, [[x]]);
    assert Chains(schema, [a], 0) == [[a]];
    var chains := Chains(schema, [a, b], 0);
    assert chains == [[a]] + Under(b, [[x]]);
    assert chains[1] == [b] + [x];
    assert Names(chains[1]) == ["b", "x"];
    assert FindField([a, b], "b") == Some(a);
    assert Walk(schema, None, ["b", "x"][1..]).None?;
  }
}
