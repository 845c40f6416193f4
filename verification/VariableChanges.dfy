/** What changed between two snapshots of an instance's variables, variable by variable. */
module VariableChanges {
  import opened Base
  import opened Json
  import opened Paths

  datatype Change =
    | Added(name: string, after: Json)
    | Changed(name: string, before: Json, after: Json)
    | Removed(name: string, before: Json)

  /** A snapshot's variables; anything malformed counts as none. */
  function SnapshotVariables(snapshot: Option<Json>): Fields
  {
    if snapshot.Some? && snapshot.value.Object? && "variables" in snapshot.value.fields &&
      snapshot.value.fields["variables"].Object?
    then snapshot.value.fields["variables"].fields
    else map[]
  }

  /** The one change, if any, between a variable's old and new value. */
  function ChangeOf(was: Fields, now: Fields, name: string): Option<Change>
  {
    match (Get(was, name), Get(now, name))
    case (None, None) => None
    case (None, Some(after)) => Some(Added(name, after))
    case (Some(before), None) => Some(Removed(name, before))
    case (Some(before), Some(after)) => if before == after then None else Some(Changed(name, before, after))
  }

  /** The changes among the given names, in their order: the removed ones, or all the others. */
  function Listed(names: seq<string>, was: Fields, now: Fields, removed: bool): seq<Change>
  {
    if names == [] then []
    else
      var change := ChangeOf(was, now, names[|names| - 1]);
      Listed(names[..|names| - 1], was, now, removed) +
      (if change.Some? && change.value.Removed? == removed then [change.value] else [])
  }

  /** Added and changed variables in the order of the new snapshot, then those removed in the order of the old. */
  method Diff(before: Option<Json>, after: Option<Json>, wasNames: seq<string>, nowNames: seq<string>)
    returns (changes: seq<Change>)
    requires Lists(wasNames, SnapshotVariables(before)) && Lists(nowNames, SnapshotVariables(after))
    ensures changes == Listed(nowNames, SnapshotVariables(before), SnapshotVariables(after), false) +
                       Listed(wasNames, SnapshotVariables(before), SnapshotVariables(after), true)
    ensures IsDiff(changes, SnapshotVariables(before), SnapshotVariables(after))
  {
    var was, now := SnapshotVariables(before), SnapshotVariables(after);
    changes := Kept(was, now, nowNames);
    var gone := Gone(was, now, wasNames);
    changes := changes + gone;
    ListedIsDiff(wasNames, nowNames, was, now);
  }

  /** The first loop: variables of the new snapshot that are new or differ. */
  method Kept(was: Fields, now: Fields, names: seq<string>) returns (changes: seq<Change>)
    requires Lists(names, now)
    ensures changes == Listed(names, was, now, false)
  {
    changes := [];
    for i := 0 to |names|
      invariant changes == Listed(names[..i], was, now, false)
    {
      var name := names[i];
      NowStep(names, i, was, now);
      if name !in was {
        changes := changes + [Added(name, now[name])];
      } else if was[name] != now[name] {
        changes := changes + [Changed(name, was[name], now[name])];
      }
    }
    assert names[..|names|] == names;
  }

  /** The second loop: variables of the old snapshot that are gone. */
  method Gone(was: Fields, now: Fields, names: seq<string>) returns (changes: seq<Change>)
    requires Lists(names, was)
    ensures changes == Listed(names, was, now, true)
  {
    changes := [];
    for i := 0 to |names|
      invariant changes == Listed(names[..i], was, now, true)
    {
      var name := names[i];
      WasStep(names, i, was, now);
      if name !in now {
        changes := changes + [Removed(name, was[name])];
      }
    }
    assert names[..|names|] == names;
  }

  lemma ListedStep(names: seq<string>, i: nat, was: Fields, now: Fields, removed: bool)
    requires i < |names|
    ensures var change := ChangeOf(was, now, names[i]);
            Listed(names[..i + 1], was, now, removed) ==
            Listed(names[..i], was, now, removed) +
              (if change.Some? && change.value.Removed? == removed then [change.value] else [])
  {
    assert names[..i + 1][..i] == names[..i];
  }

  lemma NowStep(names: seq<string>, i: nat, was: Fields, now: Fields)
    requires i < |names| && Lists(names, now)
    ensures names[i] in now
    ensures Listed(names[..i + 1], was, now, false) ==
            Listed(names[..i], was, now, false) +
            if names[i] !in was then [Added(names[i], now[names[i]])]
            else if was[names[i]] != now[names[i]] then [Changed(names[i], was[names[i]], now[names[i]])]
            else []
  {
    assert names[i] in names;
    ListedStep(names, i, was, now, false);
  }

  lemma WasStep(names: seq<string>, i: nat, was: Fields, now: Fields)
    requires i < |names| && Lists(names, was)
    ensures names[i] in was
    ensures Listed(names[..i + 1], was, now, true) ==
            Listed(names[..i], was, now, true) + if names[i] !in now then [Removed(names[i], was[names[i]])] else []
  {
    assert names[i] in names;
    ListedStep(names, i, was, now, true);
  }

  lemma {:induction false} ListedMembers(names: seq<string>, was: Fields, now: Fields, removed: bool)
    requires forall i, j :: 0 <= i < j < |names| ==> names[i] != names[j]
    ensures var l := Listed(names, was, now, removed);
            && (forall c :: c in l <==>
                  c.name in names && ChangeOf(was, now, c.name) == Some(c) && c.Removed? == removed)
            && (forall i, j :: 0 <= i < j < |l| ==> l[i].name != l[j].name)
  {
    if names != [] {
      var init, last := names[..|names| - 1], names[|names| - 1];
      assert names == init + [last];
      ListedMembers(init, was, now, removed);
      var l := Listed(init, was, now, removed);
      forall i | 0 <= i < |l| ensures l[i].name != last {
        assert l[i] in l;
      }
    }
  }

  lemma {:induction false} ListedIsDiff(wasNames: seq<string>, nowNames: seq<string>, was: Fields, now: Fields)
    requires Lists(wasNames, was) && Lists(nowNames, now)
    ensures IsDiff(Listed(nowNames, was, now, false) + Listed(wasNames, was, now, true), was, now)
  {
    ListedMembers(nowNames, was, now, false);
    ListedMembers(wasNames, was, now, true);
    var a, b := Listed(nowNames, was, now, false), Listed(wasNames, was, now, true);
    forall c: Change ensures c in a + b <==> ChangeOf(was, now, c.name) == Some(c) {
      assert c in a + b <==> c in a || c in b;
    }
    forall i, j | 0 <= i < j < |a + b| ensures (a + b)[i].name != (a + b)[j].name {
      if i < |a| <= j {
        assert a[i] in a && b[j - |a|] in b;
      }
    }
  }

  /** Exactly the changed variables, each once. */
  ghost predicate IsDiff(changes: seq<Change>, was: Fields, now: Fields)
  {
    && (forall c :: c in changes <==> ChangeOf(was, now, c.name) == Some(c))
    && (forall i, j :: 0 <= i < j < |changes| ==> changes[i].name != changes[j].name)
  }

  /** What a snapshot says under `variables`, name by name. */
  ghost function VariableIn(snapshot: Option<Json>, name: string): Option<Json>
  {
    if snapshot.None? then None else GetIn(snapshot.value, ["variables", name])
  }

  lemma ReadsVariables(snapshot: Option<Json>, name: string)
    ensures Get(SnapshotVariables(snapshot), name) == VariableIn(snapshot, name)
  {
    var path := ["variables", name];
    assert path[1..] == [name];
    if snapshot.Some? && snapshot.value.Object? && "variables" in snapshot.value.fields {
      var under := snapshot.value.fields["variables"];
      assert GetPath(snapshot.value.fields, path) == if under.Object? then GetPath(under.fields, [name]) else None;
    }
  }

  /** A variable is listed as added, changed or removed exactly when the two snapshots say so under `variables`. */
  lemma DiffMeans(
      changes: seq<Change>, before: Option<Json>, after: Option<Json>, name: string, was: Json, now: Json)
    requires IsDiff(changes, SnapshotVariables(before), SnapshotVariables(after))
    ensures Added(name, now) in changes <==> VariableIn(before, name).None? && VariableIn(after, name) == Some(now)
    ensures Removed(name, was) in changes <==> VariableIn(before, name) == Some(was) && VariableIn(after, name).None?
    ensures Changed(name, was, now) in changes <==>
              VariableIn(before, name) == Some(was) && VariableIn(after, name) == Some(now) && was != now
  {
    ReadsVariables(before, name);
    ReadsVariables(after, name);
    assert Added(name, now).name == Removed(name, was).name == Changed(name, was, now).name == name;
  }

  /** Where in the names each listed change comes from. */
  ghost predicate FollowsNames(changes: seq<Change>, names: seq<string>, at: seq<nat>)
  {
    && |at| == |changes|
    && (forall i, j :: 0 <= i < j < |at| ==> at[i] < at[j])
    && (forall i :: 0 <= i < |at| ==> at[i] < |names| && names[at[i]] == changes[i].name)
  }

  lemma {:induction false} ListedFollows(names: seq<string>, was: Fields, now: Fields, removed: bool)
    returns (at: seq<nat>)
    ensures FollowsNames(Listed(names, was, now, removed), names, at)
    ensures forall c :: c in Listed(names, was, now, removed) ==> c.Removed? == removed
  {
    if names == [] {
      at := [];
    } else {
      var n := |names| - 1;
      at := ListedFollows(names[..n], was, now, removed);
      var change := ChangeOf(was, now, names[n]);
      if change.Some? && change.value.Removed? == removed {
        at := at + [n];
      }
    }
  }

  /** Added and changed variables come first, in the new snapshot's order, then the removed ones in the old one's. */
  lemma {:induction false} DiffInOrder(
      changes: seq<Change>, before: Option<Json>, after: Option<Json>,
      wasNames: seq<string>, nowNames: seq<string>)
    returns (kept: nat, nowAt: seq<nat>, wasAt: seq<nat>)
    requires changes == Listed(nowNames, SnapshotVariables(before), SnapshotVariables(after), false) +
                        Listed(wasNames, SnapshotVariables(before), SnapshotVariables(after), true)
    ensures kept <= |changes| && forall i :: 0 <= i < |changes| ==> (changes[i].Removed? <==> kept <= i)
    ensures FollowsNames(changes[..kept], nowNames, nowAt) && FollowsNames(changes[kept..], wasNames, wasAt)
  {
    var was, now := SnapshotVariables(before), SnapshotVariables(after);
    nowAt := ListedFollows(nowNames, was, now, false);
    wasAt := ListedFollows(wasNames, was, now, true);
    var stay, gone := Listed(nowNames, was, now, false), Listed(wasNames, was, now, true);
    kept := |stay|;
    assert changes[..kept] == stay && changes[kept..] == gone;
    forall i | 0 <= i < |changes| ensures changes[i].Removed? <==> kept <= i {
      assert if i < kept then changes[i] == stay[i] && stay[i] in stay
             else changes[i] == gone[i - kept] && gone[i - kept] in gone;
    }
  }

  function Redo(m: Fields, c: Change): Fields
  {
    match c
    case Added(name, after) => m[name := after]
    case Changed(name, _, after) => m[name := after]
    case Removed(name, _) => m - {name}
  }

  function Undo(m: Fields, c: Change): Fields
  {
    match c
    case Added(name, _) => m - {name}
    case Changed(name, before, _) => m[name := before]
    case Removed(name, before) => m[name := before]
  }

  function Patch(m: Fields, changes: seq<Change>): Fields
  {
    if changes == [] then m else Redo(Patch(m, changes[..|changes| - 1]), changes[|changes| - 1])
  }

  function Unpatch(m: Fields, changes: seq<Change>): Fields
  {
    if changes == [] then m else Undo(Unpatch(m, changes[..|changes| - 1]), changes[|changes| - 1])
  }

  ghost predicate Touches(changes: seq<Change>, name: string)
  {
    exists i :: 0 <= i < |changes| && changes[i].name == name
  }

  /** A patch that names each variable once sets just those, whatever its order. */
  lemma {:induction false} PatchAt(m: Fields, changes: seq<Change>, name: string)
    requires forall i, j :: 0 <= i < j < |changes| ==> changes[i].name != changes[j].name
    ensures !Touches(changes, name) ==> Get(Patch(m, changes), name) == Get(m, name) == Get(Unpatch(m, changes), name)
    ensures forall i :: 0 <= i < |changes| && changes[i].name == name ==>
              && Get(Patch(m, changes), name) == (if changes[i].Removed? then None else Some(changes[i].after))
              && Get(Unpatch(m, changes), name) == (if changes[i].Added? then None else Some(changes[i].before))
  {
    if changes != [] {
      var init, last := changes[..|changes| - 1], changes[|changes| - 1];
      PatchAt(m, init, name);
      forall i | 0 <= i < |init| && init[i].name == name ensures last.name != name {
        assert changes[i].name != changes[|changes| - 1].name;
      }
      if !Touches(changes, name) {
        assert changes[|changes| - 1].name != name;
        assert forall i :: 0 <= i < |init| ==> changes[i].name == init[i].name;
      }
    }
  }

  /** The diff is a patch from the old variables to the new ones, and back. */
  lemma {:induction false} DiffPatches(changes: seq<Change>, was: Fields, now: Fields)
    requires IsDiff(changes, was, now)
    ensures Patch(was, changes) == now && Unpatch(now, changes) == was
  {
    forall name
      ensures Get(Patch(was, changes), name) == Get(now, name) && Get(Unpatch(now, changes), name) == Get(was, name)
    {
      PatchAt(was, changes, name);
      PatchAt(now, changes, name);
      assert ChangeOf(was, now, name).Some? ==> ChangeOf(was, now, name).value in changes;
      if Touches(changes, name) {
        var i :| 0 <= i < |changes| && changes[i].name == name;
        assert changes[i] in changes;
      }
    }
    SameGets(Patch(was, changes), now);
    SameGets(Unpatch(now, changes), was);
  }

  lemma SameGets(a: Fields, b: Fields)
    requires forall name :: Get(a, name) == Get(b, name)
    ensures a == b
  {
    forall name ensures name in a <==> name in b {
      assert Get(a, name) == Get(b, name);
    }
    forall name | name in a ensures a[name] == b[name] {
      assert Get(a, name) == Get(b, name);
    }
  }

  /** Nothing is listed exactly when nothing changed. */
  lemma EmptyIffSame(changes: seq<Change>, was: Fields, now: Fields)
    requires IsDiff(changes, was, now)
    ensures changes == [] <==> was == now
  {
    if changes == [] {
      DiffPatches(changes, was, now);
    } else {
      assert changes[0] in changes;
    }
  }

  function Joined(diffs: seq<seq<Change>>): seq<Change>
  {
    if diffs == [] then [] else Joined(diffs[..|diffs| - 1]) + diffs[|diffs| - 1]
  }

  lemma {:induction false} PatchConcat(m: Fields, a: seq<Change>, b: seq<Change>)
    ensures Patch(m, a + b) == Patch(Patch(m, a), b)
  {
    if b == [] {
      assert a + b == a;
    } else {
      assert (a + b)[..|a + b| - 1] == a + b[..|b| - 1];
      PatchConcat(m, a, b[..|b| - 1]);
    }
  }

  /** The diffs of consecutive snapshots, one after the other, lead from the first to the last. */
  lemma {:induction false} DiffsTelescope(snapshots: seq<Fields>, diffs: seq<seq<Change>>)
    requires |snapshots| == |diffs| + 1
    requires forall i :: 0 <= i < |diffs| ==> IsDiff(diffs[i], snapshots[i], snapshots[i + 1])
    ensures Patch(snapshots[0], Joined(diffs)) == snapshots[|diffs|]
  {
    if diffs != [] {
      var n := |diffs| - 1;
      DiffsTelescope(snapshots[..n + 1], diffs[..n]);
      PatchConcat(snapshots[0], Joined(diffs[..n]), diffs[n]);
      DiffPatches(diffs[n], snapshots[n], snapshots[n + 1]);
    }
  }
}
