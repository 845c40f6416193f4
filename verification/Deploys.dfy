/** Concurrent deploys of one name, racing for its next version. */
module Deploys {
  import opened Base

  const DEPLOY_ATTEMPTS := 5

  /** The table's rows for one name: version to the deploy that created it. */
  type Versions = map<nat, nat>

  datatype Phase = Reading | Creating(latest: nat) | Won(version: nat) | GaveUp

  /** `lost` lists the versions this deploy tried and found taken; `since` is how many there were when it began. */
  datatype Deploy = Deploy(phase: Phase, attempt: nat, lost: seq<nat>, since: nat)

  datatype Race = Race(versions: Versions, deploys: map<nat, Deploy>, count: nat)

  datatype Step = Begin(id: nat) | Read(id: nat, latest: nat) | Create(id: nat)

  predicate IsLatest(versions: Versions, v: nat)
  {
    (versions == map[] && v == 0) || (v in versions && forall k :: k in versions ==> k <= v)
  }

  ghost predicate UpTo(versions: Versions, n: nat)
  {
    forall v :: v in versions <==> 1 <= v <= n
  }

  predicate Enabled(r: Race, step: Step)
  {
    match step
    case Begin(id) => id !in r.deploys
    case Read(id, latest) => id in r.deploys && r.deploys[id].phase == Reading && IsLatest(r.versions, latest)
    case Create(id) => id in r.deploys && r.deploys[id].phase.Creating?
  }

  function Apply(r: Race, step: Step): Race
    requires Enabled(r, step)
  {
    match step
    case Begin(id) => r.(deploys := r.deploys[id := Deploy(Reading, 1, [], r.count)])
    case Read(id, latest) => r.(deploys := r.deploys[id := r.deploys[id].(phase := Creating(latest))])
    case Create(id) => TryCreate(r, id)
  }

  function TryCreate(r: Race, id: nat): Race
    requires id in r.deploys && r.deploys[id].phase.Creating?
  {
    var d := r.deploys[id];
    var version := d.phase.latest + 1;
    if version !in r.versions then
      Race(r.versions[version := id], r.deploys[id := d.(phase := Won(version))], r.count + 1)
    else
      r.(deploys := r.deploys[id := d.(phase := if d.attempt >= DEPLOY_ATTEMPTS then GaveUp else Reading,
                                       attempt := d.attempt + 1, lost := d.lost + [version])])
  }

  ghost predicate IsTrace(races: seq<Race>, steps: seq<Step>)
  {
    && |races| == |steps| + 1 && races[0] == Race(map[], map[], 0)
    && forall i {:trigger steps[i]} :: 0 <= i < |steps| ==>
         Enabled(races[i], steps[i]) && races[i + 1] == Apply(races[i], steps[i])
  }

  ghost predicate DeployOk(r: Race, id: nat)
    requires id in r.deploys
  {
    var d := r.deploys[id];
    && |d.lost| + 1 == d.attempt
    && d.since <= r.count
    && (d.phase.GaveUp? <==> |d.lost| == DEPLOY_ATTEMPTS)
    && |d.lost| <= DEPLOY_ATTEMPTS
    && (forall a, b :: 0 <= a < b < |d.lost| ==> d.lost[a] < d.lost[b])
    && (forall a :: 0 <= a < |d.lost| ==> d.lost[a] in r.versions && r.versions[d.lost[a]] != id && d.since < d.lost[a])
    && (d.phase.Creating? ==>
          d.since <= d.phase.latest <= r.count && forall a :: 0 <= a < |d.lost| ==> d.lost[a] <= d.phase.latest)
    && (d.phase.Won? ==> d.phase.version in r.versions && r.versions[d.phase.version] == id)
  }

  ghost predicate Inv(r: Race)
  {
    && UpTo(r.versions, r.count)
    && (forall id :: id in r.deploys ==> DeployOk(r, id))
    && (forall v :: v in r.versions ==> r.versions[v] in r.deploys && r.deploys[r.versions[v]].phase == Won(v))
  }

  lemma LatestIsCount(versions: Versions, n: nat, latest: nat)
    requires UpTo(versions, n) && IsLatest(versions, latest)
    ensures latest == n
  {
    assert n == 0 || n in versions;
  }

  lemma {:induction false} LostStep(r: Race, id: nat)
    requires Inv(r) && Enabled(r, Create(id)) && r.deploys[id].phase.latest + 1 in r.versions
    ensures Inv(TryCreate(r, id))
  {
    var d, r' := r.deploys[id], TryCreate(r, id);
    assert DeployOk(r, id);
    assert r.versions[d.phase.latest + 1] != id;
    forall other | other in r'.deploys && other != id ensures DeployOk(r', other) {
      assert DeployOk(r, other);
    }
    LoserOk(r, id);
  }

  lemma LoserOk(r: Race, id: nat)
    requires id in r.deploys && DeployOk(r, id) && r.deploys[id].phase.Creating?
    requires var version := r.deploys[id].phase.latest + 1; version in r.versions && r.versions[version] != id
    ensures DeployOk(TryCreate(r, id), id)
  {
  }

  lemma {:induction false} WonStep(r: Race, id: nat)
    requires Inv(r) && Enabled(r, Create(id)) && r.deploys[id].phase.latest + 1 !in r.versions
    ensures Inv(TryCreate(r, id))
  {
    var d, r' := r.deploys[id], TryCreate(r, id);
    assert DeployOk(r, id);
    assert d.phase.latest == r.count by {
      assert r.count < d.phase.latest + 1;
    }
    forall other | other in r'.deploys ensures DeployOk(r', other) {
      assert DeployOk(r, other);
      WinnerFrame(r, id, other);
    }
  }

  lemma WinnerFrame(r: Race, id: nat, other: nat)
    requires id in r.deploys && r.deploys[id].phase.Creating? && r.deploys[id].phase.latest + 1 !in r.versions
    requires other in r.deploys && DeployOk(r, other)
    ensures DeployOk(TryCreate(r, id), other)
  {
  }

  lemma {:induction false} ReadStep(r: Race, id: nat, latest: nat)
    requires Inv(r) && Enabled(r, Read(id, latest))
    ensures Inv(Apply(r, Read(id, latest)))
  {
    LatestIsCount(r.versions, r.count, latest);
    var r' := Apply(r, Read(id, latest));
    forall other | other in r'.deploys ensures DeployOk(r', other) {
      assert DeployOk(r, other);
    }
  }

  lemma {:induction false} InvStep(r: Race, step: Step)
    requires Inv(r) && Enabled(r, step)
    ensures Inv(Apply(r, step))
  {
    match step
    case Begin(id) =>
      forall other | other in r.deploys ensures DeployOk(Apply(r, step), other) {
        assert DeployOk(r, other);
      }
    case Read(id, latest) => ReadStep(r, id, latest);
    case Create(id) =>
      if r.deploys[id].phase.latest + 1 in r.versions {
        LostStep(r, id);
      } else {
        WonStep(r, id);
      }
  }

  lemma {:induction false} InvAlong(races: seq<Race>, steps: seq<Step>, i: nat)
    requires IsTrace(races, steps) && i < |races|
    ensures Inv(races[i])
  {
    if i > 0 {
      InvAlong(races, steps, i - 1);
      InvStep(races[i - 1], steps[i - 1]);
    }
  }

  /** The versions of a name are always exactly 1..n, each won by a deploy of its own. */
  lemma {:induction false} VersionsAreConsecutive(races: seq<Race>, steps: seq<Step>, i: nat)
    requires IsTrace(races, steps) && i < |races|
    ensures UpTo(races[i].versions, races[i].count)
    ensures forall v, u :: v in races[i].versions && u in races[i].versions && v != u ==>
              races[i].versions[v] != races[i].versions[u]
  {
    InvAlong(races, steps, i);
  }

  /** Each attempt a deploy loses is charged to a different deploy, which won after this one began. */
  lemma {:induction false} LossesAreOthersWins(races: seq<Race>, steps: seq<Step>, i: nat, id: nat)
    returns (winners: seq<nat>)
    requires IsTrace(races, steps) && i < |races| && id in races[i].deploys
    ensures var r := races[i];
            && |winners| == r.deploys[id].attempt - 1
            && |winners| <= 5 && (r.deploys[id].phase.GaveUp? <==> |winners| == 5)
            && forall a :: 0 <= a < |winners| ==>
                 && winners[a] != id && winners[a] in r.deploys && r.deploys[winners[a]].phase.Won?
                 && r.deploys[id].since < r.deploys[winners[a]].phase.version
    ensures forall a, b :: 0 <= a < b < |winners| ==> winners[a] != winners[b]
  {
    InvAlong(races, steps, i);
    var r := races[i];
    var lost := r.deploys[id].lost;
    assert DeployOk(r, id);
    winners := seq(|lost|, a requires 0 <= a < |lost| && lost[a] in r.versions => r.versions[lost[a]]);
    forall a, b | 0 <= a < b < |winners| ensures winners[a] != winners[b] {
      assert lost[a] < lost[b];
    }
  }

  // ---------------------------------------------------------------- the retry loop itself

  function Sum(s: seq<nat>): nat
  {
    if s == [] then 0 else Sum(s[..|s| - 1]) + s[|s| - 1]
  }

  lemma SumStep(s: seq<nat>, x: nat)
    ensures Sum(s + [x]) == Sum(s) + x
  {
    assert (s + [x])[..|s|] == s;
  }

  class DefinitionTable {
    var versions: Versions
    ghost var count: nat

    ghost predicate Valid()
      reads this
    {
      UpTo(versions, count)
    }

    constructor ()
      ensures Valid() && count == 0
    {
      versions, count := map[], 0;
    }

    method Latest() returns (latest: nat)
      requires Valid()
      ensures latest == count && IsLatest(versions, latest)
    {
      if versions == map[] {
        assert count == 0 || count in versions;
        return 0;
      }
      assert count in versions.Keys;
      latest :| latest in versions.Keys && forall k :: k in versions.Keys ==> k <= latest;
      assert count <= latest && latest <= count;
    }

    /** Other deploys commit the next `n` versions. */
    method Rivals(n: nat, rival: nat)
      requires Valid()
      modifies this
      ensures Valid() && count == old(count) + n
      ensures forall v :: v in old(versions) ==> v in versions && versions[v] == old(versions)[v]
    {
      for k := 0 to n
        invariant Valid() && count == old(count) + k
        invariant forall v :: v in old(versions) ==> v in versions && versions[v] == old(versions)[v]
      {
        var latest := Latest();
        versions := versions[latest + 1 := rival];
        count := count + 1;
      }
    }

    /**
      Read the latest version, claim the next one, and try again when it is
      taken. `rivals[k]` is how many other deploys commit between the (k+1)-th
      read and the write after it: the deploy succeeds at the first attempt
      nobody raced, and gives up only when all five were raced.
    */
    method Deploy(id: nat, rivals: seq<nat>, rival: nat) returns (version: Option<nat>, attempts: nat)
      requires Valid() && |rivals| == 5
      modifies this
      ensures Valid() && 1 <= attempts <= 5
      ensures forall k :: 0 <= k < attempts - 1 ==> rivals[k] > 0
      ensures version.Some? <==> rivals[attempts - 1] == 0
      ensures version.None? ==> attempts == 5 && count == old(count) + Sum(rivals)
      ensures version.Some? ==>
                && version.value == old(count) + Sum(rivals[..attempts - 1]) + 1
                && version.value in versions && versions[version.value] == id && count == version.value
      ensures forall v :: v in old(versions) ==> v in versions && versions[v] == old(versions)[v]
    {
      attempts := 1;
      while true
        invariant 1 <= attempts <= DEPLOY_ATTEMPTS && Valid()
        invariant forall k :: 0 <= k < attempts - 1 ==> rivals[k] > 0
        invariant count == old(count) + Sum(rivals[..attempts - 1])
        invariant forall v :: v in old(versions) ==> v in versions && versions[v] == old(versions)[v]
        decreases DEPLOY_ATTEMPTS - attempts
      {
        var latest := Latest();
        Rivals(rivals[attempts - 1], rival);
        assert rivals[..attempts] == rivals[..attempts - 1] + [rivals[attempts - 1]];
        SumStep(rivals[..attempts - 1], rivals[attempts - 1]);
        if latest + 1 !in versions {
          versions := versions[latest + 1 := id];
          count := count + 1;
          return Some(latest + 1), attempts;
        }
        if attempts >= DEPLOY_ATTEMPTS {
          assert rivals[..attempts] == rivals;
          return None, attempts;
        }
        attempts := attempts + 1;
      }
    }
  }
}
