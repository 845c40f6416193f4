/** Dotted names, and reading and writing nested fields by path. */
module Paths {
  import opened Base
  import opened Json

  type Path = seq<string>

  /** `text.split(".")`; there is always at least one segment. */
  function Split(text: string): (segments: Path)
    ensures segments != []
  {
    if text == "" then [""]
    else
      var rest := Split(text[1..]);
      if text[0] == '.' then [""] + rest else [[text[0]] + rest[0]] + rest[1..]
  }

  function Join(segments: Path): string
    requires segments != []
  {
    if |segments| == 1 then segments[0] else segments[0] + "." + Join(segments[1..])
  }

  lemma {:induction false} JoinSplit(text: string)
    ensures Join(Split(text)) == text
  {
    if text != "" {
      JoinSplit(text[1..]);
      var rest := Split(text[1..]);
      if text[0] == '.' {
        assert Split(text)[1..] == rest;
      } else {
        assert Split(text)[1..] == rest[1..];
      }
    }
  }

  lemma {:induction false} SplitPlain(text: string)
    requires '.' !in text
    ensures Split(text) == [text]
  {
    if text != "" {
      SplitPlain(text[1..]);
      assert [text[0]] + text[1..] == text;
    }
  }

  lemma {:induction false} SplitAtDot(head: string, tail: string)
    requires '.' !in head
    ensures Split(head + "." + tail) == [head] + Split(tail)
  {
    var text := head + "." + tail;
    if head == "" {
      assert text[1..] == tail;
    } else {
      SplitAtDot(head[1..], tail);
      assert text[1..] == head[1..] + "." + tail;
      assert Split(text[1..])[1..] == Split(tail);
      assert [text[0]] + head[1..] == head;
    }
  }

  /** Segments without dots survive being joined and split again. */
  lemma {:induction false} SplitJoin(segments: Path)
    requires segments != [] && forall s :: s in segments ==> '.' !in s
    ensures Split(Join(segments)) == segments
  {
    if |segments| == 1 {
      SplitPlain(segments[0]);
    } else {
      SplitJoin(segments[1..]);
      SplitAtDot(segments[0], Join(segments[1..]));
    }
  }

  /** The object under a key, or an empty one when there is none. */
  function ObjectAt(target: Fields, key: string): Fields
  {
    if key in target && target[key].Object? then target[key].fields else map[]
  }

  /** `setPath`: objects are created on the way, over anything that is not one. */
  function SetPath(target: Fields, path: Path, value: Json): Fields
    requires path != []
    decreases |path|
  {
    if |path| == 1 then target[path[0] := value]
    else target[path[0] := Object(SetPath(ObjectAt(target, path[0]), path[1..], value))]
  }

  function GetPath(target: Fields, path: Path): Option<Json>
    requires path != []
    decreases |path|
  {
    if path[0] !in target then None
    else if |path| == 1 then Some(target[path[0]])
    else if target[path[0]].Object? then GetPath(target[path[0]].fields, path[1..])
    else None
  }

  /** What a value holds below it; the empty path is the value itself. */
  function GetIn(value: Json, path: Path): Option<Json>
  {
    if path == [] then Some(value)
    else if value.Object? then GetPath(value.fields, path)
    else None
  }

  /** Neither path leads through the other. */
  predicate Apart(p: Path, q: Path) { !(p <= q) && !(q <= p) }

  lemma {:induction false} GetAfterSet(target: Fields, path: Path, below: Path, value: Json)
    requires path != []
    ensures GetPath(SetPath(target, path, value), path + below) == GetIn(value, below)
    decreases |path|
  {
    assert (path + below)[0] == path[0] && (path + below)[1..] == path[1..] + below;
    if |path| > 1 {
      GetAfterSet(ObjectAt(target, path[0]), path[1..], below, value);
    }
  }

  lemma ApartBelow(p: Path, q: Path, below: Path)
    requires Apart(p, q)
    ensures Apart(p, q + below)
  {
    assert forall i :: 0 <= i < |q| ==> (q + below)[i] == q[i];
  }

  lemma ApartTails(p: Path, q: Path)
    requires Apart(p, q) && p != [] && q != [] && p[0] == q[0]
    ensures |p| > 1 && |q| > 1 && Apart(p[1..], q[1..])
  {
    assert p == [p[0]] + p[1..] && q == [q[0]] + q[1..];
  }

  lemma {:induction false} SetLeavesOthers(target: Fields, path: Path, other: Path, value: Json)
    requires path != [] && other != [] && Apart(path, other)
    ensures GetPath(SetPath(target, path, value), other) == GetPath(target, other)
    decreases |path|
  {
    if path[0] == other[0] {
      ApartTails(path, other);
      SetLeavesOthers(ObjectAt(target, path[0]), path[1..], other[1..], value);
    }
  }

  /** Only the root entry changes, and only what was under it matters. */
  function NewRoot(under: Fields, path: Path, value: Json): Json
    requires path != []
  {
    if |path| == 1 then value else Object(SetPath(under, path[1..], value))
  }

  lemma SetRoot(target: Fields, path: Path, value: Json)
    requires path != []
    ensures SetPath(target, path, value) == target[path[0] := NewRoot(ObjectAt(target, path[0]), path, value)]
  {
  }

  lemma SetsCommuteApartRoots(target: Fields, p: Path, u: Json, q: Path, v: Json)
    requires p != [] && q != [] && p[0] != q[0]
    ensures SetPath(SetPath(target, p, u), q, v) == SetPath(SetPath(target, q, v), p, u)
  {
    SetRoot(target, p, u);
    SetRoot(target, q, v);
    SetRoot(SetPath(target, p, u), q, v);
    SetRoot(SetPath(target, q, v), p, u);
  }

  lemma SetTwiceUnderRoot(target: Fields, p: Path, u: Json, q: Path, v: Json)
    requires |p| > 1 && |q| > 1 && p[0] == q[0]
    ensures SetPath(SetPath(target, p, u), q, v) ==
            target[p[0] := Object(SetPath(SetPath(ObjectAt(target, p[0]), p[1..], u), q[1..], v))]
  {
  }

  /** Writes to paths apart from each other may be swapped. */
  lemma {:induction false} SetsCommute(target: Fields, p: Path, u: Json, q: Path, v: Json)
    requires p != [] && q != [] && Apart(p, q)
    ensures SetPath(SetPath(target, p, u), q, v) == SetPath(SetPath(target, q, v), p, u)
    decreases |p|
  {
    if p[0] == q[0] {
      ApartTails(p, q);
      SetsCommute(ObjectAt(target, p[0]), p[1..], u, q[1..], v);
      SetTwiceUnderRoot(target, p, u, q, v);
      SetTwiceUnderRoot(target, q, v, p, u);
    } else {
      SetsCommuteApartRoots(target, p, u, q, v);
    }
  }

  lemma {:induction false} LastSetWins(target: Fields, path: Path, u: Json, v: Json)
    requires path != []
    ensures SetPath(SetPath(target, path, u), path, v) == SetPath(target, path, v)
    decreases |path|
  {
    if |path| > 1 {
      LastSetWins(ObjectAt(target, path[0]), path[1..], u, v);
    }
  }
}
