/** Picking the arm a struggling session moves to (internal/proxy/struggle_roster.go). */
module StruggleRoster {
  import opened Wrappers

  // Clusters cheapest to strongest, peers on one rung.  The members below take the ladder
  // as a parameter; this is the one the router runs with.
  const LADDER: seq<seq<string>> := [["fast", "explore", "low"], ["balanced", "medium"], ["high"], ["maximum"]]

  // Everything that decides whether an arm can be dispatched.
  datatype Roster = Roster(
    clusters: map<string, seq<string>>,
    catalogId: string -> string,
    current: string,
    excluded: set<string>,
    allowed: string -> bool)

  function Flatten(ladder: seq<seq<string>>): seq<string> {
    if ladder == [] then [] else ladder[0] + Flatten(ladder[1..])
  }

  lemma {:induction false} FlattenGrows(ladder: seq<seq<string>>, peers: seq<string>)
    ensures Flatten(ladder + [peers]) == Flatten(ladder) + peers
  {
    if ladder == [] {
      assert Flatten([peers]) == peers + Flatten([peers][1..]);
    } else {
      assert (ladder + [peers])[1..] == ladder[1..] + [peers];
      FlattenGrows(ladder[1..], peers);
    }
  }

  lemma {:induction false} FlattenHolds(ladder: seq<seq<string>>, c: string)
    ensures c in Flatten(ladder) <==> exists i :: 0 <= i < |ladder| && c in ladder[i]
  {
    if ladder != [] {
      FlattenHolds(ladder[1..], c);
      assert forall i | 1 <= i < |ladder| :: ladder[i] == ladder[1..][i - 1];
      if c in Flatten(ladder[1..]) {
        var i :| 0 <= i < |ladder[1..]| && c in ladder[1..][i];
        assert c in ladder[i + 1];
      }
    }
  }

  // No cluster is on two rungs.
  predicate RungsApart(ladder: seq<seq<string>>) {
    forall i, j, c | 0 <= i < j < |ladder| && c in ladder[i] :: c !in ladder[j]
  }

  lemma LadderRungsAreApart()
    ensures RungsApart(LADDER)
  { }

  // The last rung that holds the group, or -1.
  function LastRung(ladder: seq<seq<string>>, group: string): (rung: int)
    ensures -1 <= rung < |ladder|
    ensures rung >= 0 ==> group in ladder[rung]
    ensures forall i | rung < i < |ladder| :: group !in ladder[i]
  {
    if ladder == [] then -1
    else if group in ladder[|ladder| - 1] then |ladder| - 1
    else LastRung(ladder[..|ladder| - 1], group)
  }

  // The clusters on the rungs past the group's own.
  function Above(ladder: seq<seq<string>>, group: string): seq<string> {
    if LastRung(ladder, group) < 0 then [] else Flatten(ladder[LastRung(ladder, group) + 1..])
  }

  /** On a ladder with no cluster on two rungs, what stands above a group is exactly the
      clusters of the higher rungs, cheapest rung first, the group not among them; above an
      unknown group stands nothing. */
  lemma AboveIsTheHigherRungs(ladder: seq<seq<string>>, group: string, r: nat)
    requires RungsApart(ladder)
    ensures r < |ladder| && group in ladder[r] ==> Above(ladder, group) == Flatten(ladder[r + 1..])
    ensures group !in Above(ladder, group)
    ensures (forall i | 0 <= i < |ladder| :: group !in ladder[i]) ==> Above(ladder, group) == []
  {
    var rung := LastRung(ladder, group);
    if rung >= 0 {
      var higher := ladder[rung + 1..];
      FlattenHolds(higher, group);
      assert forall i | 0 <= i < |higher| :: higher[i] == ladder[rung + 1 + i];
    }
  }

  // The scan for the group's rung.
  method RungOf(ladder: seq<seq<string>>, group: string) returns (rung: int)
    ensures rung == LastRung(ladder, group)
  {
    rung := -1;
    for i := 0 to |ladder|
      invariant rung == LastRung(ladder[..i], group)
    {
      var peers := ladder[i];
      assert ladder[..i + 1][..i] == ladder[..i];
      for j := 0 to |peers|
        invariant rung == if group in peers[..j] then i else LastRung(ladder[..i], group)
      {
        assert peers[..j + 1] == peers[..j] + [peers[j]];
        if peers[j] == group {
          rung := i;
        }
      }
      assert peers[..|peers|] == peers;
    }
    assert ladder[..|ladder|] == ladder;
  }

  /** clustersAbove, for a group already trimmed and lower-cased. */
  method ClustersAbove(ladder: seq<seq<string>>, group: string) returns (above: seq<string>)
    ensures above == Above(ladder, group)
  {
    var rung := RungOf(ladder, group);
    if rung < 0 {
      return [];
    }
    var higher := ladder[rung + 1..];
    above := [];
    for i := 0 to |higher|
      invariant above == Flatten(higher[..i])
    {
      assert higher[..i + 1] == higher[..i] + [higher[i]];
      FlattenGrows(higher[..i], higher[i]);
      above := above + higher[i];
    }
    assert higher[..|higher|] == higher;
  }

  predicate CanServe(r: Roster, arm: string) {
    var model := r.catalogId(arm);
    model != "" && model != r.current && model !in r.excluded && r.allowed(model)
  }

  predicate Idle(r: Roster, arms: seq<string>) { forall a | a in arms :: !CanServe(r, a) }

  // The arms the snapshot lists for a cluster.
  function Arms(r: Roster, cluster: string): seq<string> {
    if cluster in r.clusters then r.clusters[cluster] else []
  }

  /** firstDispatchableArm: the model of the first arm that can serve. */
  method FirstDispatchableArm(r: Roster, arms: seq<string>) returns (model: string)
    ensures model == "" <==> Idle(r, arms)
    ensures model != "" ==>
              exists i :: 0 <= i < |arms| && CanServe(r, arms[i]) && r.catalogId(arms[i]) == model && Idle(r, arms[..i])
  {
    for i := 0 to |arms|
      invariant Idle(r, arms[..i])
    {
      var id := r.catalogId(arms[i]);
      if !(id == "" || id == r.current) && id !in r.excluded && r.allowed(id) {
        assert CanServe(r, arms[i]);
        return id;
      }
      assert arms[..i + 1] == arms[..i] + [arms[i]];
    }
    assert arms[..|arms|] == arms;
    return "";
  }

  // The target came from the first cluster of the list that can serve at all.
  predicate FirstServing(r: Roster, groups: seq<string>, target: string, cluster: string) {
    exists g :: 0 <= g < |groups| && groups[g] == cluster
      && (exists i :: 0 <= i < |Arms(r, cluster)| && CanServe(r, Arms(r, cluster)[i])
            && r.catalogId(Arms(r, cluster)[i]) == target && Idle(r, Arms(r, cluster)[..i]))
      && forall h | 0 <= h < g :: Idle(r, Arms(r, groups[h]))
  }

  // Where the roster looks, in order; group is policyGroup trimmed and lower-cased.
  function Searched(ladder: seq<seq<string>>, policyGroup: string, group: string): seq<string> {
    Above(ladder, group) + [policyGroup]
  }

  /** EscalationTarget: the first arm that can serve, of the first cluster that has one. */
  method EscalationTarget(r: Roster, ladder: seq<seq<string>>, policyGroup: string, group: string)
    returns (target: string, cluster: string)
    ensures target == "" <==> forall c | c in Searched(ladder, policyGroup, group) :: Idle(r, Arms(r, c))
    ensures target != "" ==> FirstServing(r, Searched(ladder, policyGroup, group), target, cluster)
  {
    var groups := ClustersAbove(ladder, group);
    groups := groups + [policyGroup];
    for g := 0 to |groups|
      invariant forall h | 0 <= h < g :: Idle(r, Arms(r, groups[h]))
    {
      var model := FirstDispatchableArm(r, Arms(r, groups[g]));
      if model != "" {
        assert groups[g] in groups;
        return model, groups[g];
      }
    }
    return "", "";
  }

  /** What a target is: a known model other than the session's own, not excluded and allowed,
      listed for its cluster, with no such arm before it there; and no target means there is
      no such arm in any cluster searched. */
  lemma TargetIsEligible(r: Roster, groups: seq<string>, target: string, cluster: string)
    ensures FirstServing(r, groups, target, cluster) ==>
              && target != "" && target != r.current && target !in r.excluded && r.allowed(target)
              && cluster in groups && cluster in r.clusters
              && exists i :: 0 <= i < |r.clusters[cluster]| && r.catalogId(r.clusters[cluster][i]) == target
                             && forall j | 0 <= j < i :: Passed(r, r.clusters[cluster][j])
    ensures (forall c | c in groups :: Idle(r, Arms(r, c))) <==>
            (forall c | c in groups && c in r.clusters :: forall a | a in r.clusters[c] :: Passed(r, a))
  {
    if FirstServing(r, groups, target, cluster) {
      var arms := Arms(r, cluster);
      var i :| 0 <= i < |arms| && CanServe(r, arms[i]) && r.catalogId(arms[i]) == target && Idle(r, arms[..i]);
      assert forall j | 0 <= j < i :: arms[..i][j] == arms[j] && arms[j] in arms[..i];
    }
  }

  // The arm's model is unknown, the session's own, excluded, or not allowed.
  predicate Passed(r: Roster, arm: string) {
    var id := r.catalogId(arm);
    id == "" || id == r.current || id in r.excluded || !r.allowed(id)
  }

  /** A sideways move is the last resort: the target stays in the session's own cluster
      only when no cluster above it can serve. */
  lemma SidewaysOnlyWhenNothingAboveServes(r: Roster, above: seq<string>, policyGroup: string, target: string,
                                           cluster: string)
    requires FirstServing(r, above + [policyGroup], target, cluster)
    requires policyGroup !in above
    ensures cluster == policyGroup <==> forall c | c in above :: Idle(r, Arms(r, c))
  {
    var groups := above + [policyGroup];
    var g :| 0 <= g < |groups| && groups[g] == cluster
      && (exists i :: 0 <= i < |Arms(r, cluster)| && CanServe(r, Arms(r, cluster)[i])
            && r.catalogId(Arms(r, cluster)[i]) == target && Idle(r, Arms(r, cluster)[..i]))
      && forall h | 0 <= h < g :: Idle(r, Arms(r, groups[h]));
    if g == |above| {
      forall c | c in above ensures Idle(r, Arms(r, c)) {
        var h :| 0 <= h < |above| && above[h] == c;
        assert groups[h] == c;
      }
    } else {
      assert above[g] == cluster && cluster in above;
    }
  }
}
