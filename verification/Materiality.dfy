/** When a regenerated plan is different enough to become a new version. */
module Materiality {
  import opened Domain
  import MoveGraph

  /** The title normalisation is a parameter: a move without a key is identified by its normalised title. */
  type Slug = string -> string

  function MoveKey(slug: Slug, m: RankedMove): string {
    if m.key != "" then m.key else slug(m.title)
  }

  datatype Reason =
    | NoPriorPlan | NoMoves | TopMoveChanged | RankingChanged | ConfidenceShifted
    | DependenciesChanged | GroupingChanged | Nothing

  const DEFAULT_CONFIDENCE_DELTA: real := 0.10

  function Threshold(configured: real): (t: real)
    ensures t > 0.0
  {
    if configured <= 0.0 then DEFAULT_CONFIDENCE_DELTA else configured
  }

  function Abs(x: real): real { if x < 0.0 then -x else x }

  ghost predicate SameElements(a: seq<string>, b: seq<string>) {
    forall s :: s in a <==> s in b
  }

  /** MAIN: the comparison is set equality only when the second list has no duplicates. */
  method SameStringSet(a: seq<string>, b: seq<string>) returns (same: bool)
    ensures same <==> SameElements(a, b) && NoDuplicates(b)
  {
    if |a| == 0 && |b| == 0 {
      return true;
    }
    var unmatched: set<string> := {};
    for i := 0 to |a|
      invariant forall s :: s in unmatched <==> s in a[..i]
    {
      unmatched := unmatched + {a[i]};
    }
    for i := 0 to |b|
      invariant forall s :: s in unmatched <==> s in a && s !in b[..i]
      invariant forall j :: 0 <= j < i ==> b[j] in a
      invariant NoDuplicates(b[..i])
    {
      if b[i] !in unmatched {
        assert b[i] in b && (b[i] in a ==> b[i] in b[..i]);
        return false;
      }
      unmatched := unmatched - {b[i]};
      assert b[..i + 1] == b[..i] + [b[i]];
    }
    assert b[..|b|] == b;
    assert forall s :: s in b ==> s in a;
    return unmatched == {};
  }

  ghost predicate SameKeys(slug: Slug, a: seq<RankedMove>, b: seq<RankedMove>) {
    |a| == |b| && forall i :: 0 <= i < |a| ==> MoveKey(slug, a[i]) == MoveKey(slug, b[i])
  }

  method SameOrder(slug: Slug, a: seq<RankedMove>, b: seq<RankedMove>) returns (same: bool)
    ensures same <==> SameKeys(slug, a, b)
  {
    if |a| != |b| {
      return false;
    }
    for i := 0 to |a|
      invariant forall j :: 0 <= j < i ==> MoveKey(slug, a[j]) == MoveKey(slug, b[j])
    {
      if MoveKey(slug, a[i]) != MoveKey(slug, b[i]) {
        return false;
      }
    }
    return true;
  }

  /** The last move of ms with the key of m. */
  ghost predicate IsLast(slug: Slug, ms: seq<RankedMove>, key: string, k: nat) {
    k < |ms| && MoveKey(slug, ms[k]) == key && forall j :: k < j < |ms| ==> MoveKey(slug, ms[j]) != key
  }

  ghost predicate SameStructure(c: RankedMove, n: RankedMove) {
    SameElements(c.dependsOn, n.dependsOn) && NoDuplicates(n.dependsOn) && c.parallelGroup == n.parallelGroup
  }

  /** The current move agrees with the last candidate of the same key, if there is one. */
  ghost predicate Agrees(slug: Slug, c: RankedMove, candidate: seq<RankedMove>) {
    forall k: nat :: IsLast(slug, candidate, MoveKey(slug, c), k) ==> SameStructure(c, candidate[k])
  }

  ghost predicate StructureAgrees(slug: Slug, current: seq<RankedMove>, candidate: seq<RankedMove>) {
    forall i :: 0 <= i < |current| ==> Agrees(slug, current[i], candidate)
  }

  /** The map filled by ranging over the candidate: later moves of the same key win. */
  method IndexByKey(slug: Slug, candidate: seq<RankedMove>) returns (last: map<string, nat>)
    ensures forall key :: key in last ==> IsLast(slug, candidate, key, last[key])
    ensures forall i :: 0 <= i < |candidate| ==> MoveKey(slug, candidate[i]) in last
  {
    last := map[];
    for i := 0 to |candidate|
      invariant forall k :: 0 <= k < i ==> MoveKey(slug, candidate[k]) in last
      invariant forall key :: key in last ==> last[key] < i && MoveKey(slug, candidate[last[key]]) == key
      invariant forall key, j :: key in last && last[key] < j < i ==> MoveKey(slug, candidate[j]) != key
    {
      last := last[MoveKey(slug, candidate[i]) := i];
    }
  }

  lemma AgreesAt(slug: Slug, c: RankedMove, candidate: seq<RankedMove>, k: nat)
    requires IsLast(slug, candidate, MoveKey(slug, c), k)
    ensures Agrees(slug, c, candidate) <==> SameStructure(c, candidate[k])
  {
    forall k': nat | IsLast(slug, candidate, MoveKey(slug, c), k') ensures k' == k {}
  }

  /** Some current move and the last candidate of its key have different dependencies. */
  ghost predicate DependenciesDiffer(slug: Slug, current: seq<RankedMove>, candidate: seq<RankedMove>) {
    exists i, k: nat :: 0 <= i < |current| && IsLast(slug, candidate, MoveKey(slug, current[i]), k)
      && !(SameElements(current[i].dependsOn, candidate[k].dependsOn) && NoDuplicates(candidate[k].dependsOn))
  }

  /** Some current move and the last candidate of its key have the same dependencies in different parallel groups. */
  ghost predicate GroupsDiffer(slug: Slug, current: seq<RankedMove>, candidate: seq<RankedMove>) {
    exists i, k: nat :: 0 <= i < |current| && IsLast(slug, candidate, MoveKey(slug, current[i]), k)
      && SameElements(current[i].dependsOn, candidate[k].dependsOn)
      && current[i].parallelGroup != candidate[k].parallelGroup
  }

  method StructureChange(slug: Slug, current: seq<RankedMove>, candidate: seq<RankedMove>) returns (reason: Reason)
    ensures reason == Nothing <==> StructureAgrees(slug, current, candidate)
    ensures reason.Nothing? || reason.DependenciesChanged? || reason.GroupingChanged?
    ensures reason.DependenciesChanged? ==> DependenciesDiffer(slug, current, candidate)
    ensures reason.GroupingChanged? ==> GroupsDiffer(slug, current, candidate)
  {
    var last := IndexByKey(slug, candidate);
    for i := 0 to |current|
      invariant forall j :: 0 <= j < i ==> Agrees(slug, current[j], candidate)
    {
      var c := current[i];
      if MoveKey(slug, c) !in last {
        continue;
      }
      AgreesAt(slug, c, candidate, last[MoveKey(slug, c)]);
      hide Agrees, IsLast;
      var n := candidate[last[MoveKey(slug, c)]];
      var same := SameStringSet(c.dependsOn, n.dependsOn);
      if !same {
        return DependenciesChanged;
      }
      if c.parallelGroup != n.parallelGroup {
        return GroupingChanged;
      }
    }
    return Nothing;
  }

  ghost predicate Immaterial(slug: Slug, threshold: real, current: seq<RankedMove>, candidate: seq<RankedMove>) {
    && current != [] && candidate != []
    && SameKeys(slug, current, candidate)
    && Abs(current[0].confidence - candidate[0].confidence) < threshold
    && StructureAgrees(slug, current, candidate)
  }

  method IsMaterial(slug: Slug, configuredDelta: real, current: seq<RankedMove>, candidate: seq<RankedMove>)
    returns (material: bool, reason: Reason)
    ensures !material <==> Immaterial(slug, Threshold(configuredDelta), current, candidate)
    ensures material <==> reason != Nothing
    ensures reason == NoPriorPlan <==> current == []
    ensures reason == NoMoves <==> current != [] && candidate == []
    ensures reason == TopMoveChanged <==>
              current != [] && candidate != [] && MoveKey(slug, current[0]) != MoveKey(slug, candidate[0])
    ensures reason == RankingChanged <==>
              current != [] && candidate != [] && MoveKey(slug, current[0]) == MoveKey(slug, candidate[0])
              && !SameKeys(slug, current, candidate)
    ensures reason == ConfidenceShifted <==>
              current != [] && candidate != [] && SameKeys(slug, current, candidate)
              && Abs(current[0].confidence - candidate[0].confidence) >= Threshold(configuredDelta)
    ensures reason == DependenciesChanged ==> DependenciesDiffer(slug, current, candidate)
    ensures reason == GroupingChanged ==> GroupsDiffer(slug, current, candidate)
  {
    if |current| == 0 {
      return true, NoPriorPlan;
    }
    if |candidate| == 0 {
      return true, NoMoves;
    }
    if MoveKey(slug, current[0]) != MoveKey(slug, candidate[0]) {
      return true, TopMoveChanged;
    }
    var same := SameOrder(slug, current, candidate);
    if !same {
      return true, RankingChanged;
    }
    var delta := Abs(current[0].confidence - candidate[0].confidence);
    if delta >= Threshold(configuredDelta) {
      return true, ConfidenceShifted;
    }
    reason := StructureChange(slug, current, candidate);
    material := reason != Nothing;
  }

  // ---------------------------------------------------------------- what materiality means

  ghost predicate DistinctKeys(slug: Slug, ms: seq<RankedMove>) {
    forall i, j :: 0 <= i < j < |ms| ==> MoveKey(slug, ms[i]) != MoveKey(slug, ms[j])
  }

  /** MAIN: on sanitised lists with distinct move keys nothing is material exactly when key order, dependency sets and
      parallel groups agree move by move and the top confidence moved by less than the threshold. */
  lemma ImmaterialIff(slug: Slug, threshold: real, current: seq<RankedMove>, candidate: seq<RankedMove>)
    requires MoveGraph.WellFormedReferences(candidate) && DistinctKeys(slug, candidate)
    ensures Immaterial(slug, threshold, current, candidate) <==>
              && current != [] && |candidate| == |current|
              && Abs(current[0].confidence - candidate[0].confidence) < threshold
              && forall i :: 0 <= i < |current| ==>
                   && MoveKey(slug, current[i]) == MoveKey(slug, candidate[i])
                   && SameElements(current[i].dependsOn, candidate[i].dependsOn)
                   && current[i].parallelGroup == candidate[i].parallelGroup
  {
    if SameKeys(slug, current, candidate) {
      forall i | 0 <= i < |current|
        ensures Agrees(slug, current[i], candidate) <==> SameStructure(current[i], candidate[i])
      {
        assert IsLast(slug, candidate, MoveKey(slug, current[i]), i);
        AgreesAt(slug, current[i], candidate, i);
      }
    }
  }

  /** The confidence test: only the distance of the two first confidences counts, in either direction, and the threshold
      is the configured one when it is positive and 0.1 otherwise. */
  lemma ConfidenceTest(slug: Slug, configured: real, current: seq<RankedMove>, candidate: seq<RankedMove>)
    requires current != [] && candidate != [] && SameKeys(slug, current, candidate)
    requires StructureAgrees(slug, current, candidate)
    ensures var moved := candidate[0].confidence - current[0].confidence;
            && (configured > 0.0 ==>
                  (Immaterial(slug, Threshold(configured), current, candidate) <==> -configured < moved < configured))
            && (configured <= 0.0 ==>
                  (Immaterial(slug, Threshold(configured), current, candidate) <==> -0.1 < moved < 0.1))
  {}

  /** Two moves are the same action exactly if they have the same non-empty key, or neither has one and their titles
      normalise alike, or one's key is the other's normalised title. */
  lemma SameMoveIff(slug: Slug, a: RankedMove, b: RankedMove)
    ensures a.key != "" && b.key != "" ==> (MoveKey(slug, a) == MoveKey(slug, b) <==> a.key == b.key)
    ensures a.key == "" && b.key == "" ==> (MoveKey(slug, a) == MoveKey(slug, b) <==> slug(a.title) == slug(b.title))
    ensures a.key != "" && b.key == "" ==> (MoveKey(slug, a) == MoveKey(slug, b) <==> a.key == slug(b.title))
  {}

  /** Whether a new plan is material does not depend on which of two lists of distinct keys is the old one. */
  lemma ImmaterialSymmetric(slug: Slug, threshold: real, a: seq<RankedMove>, b: seq<RankedMove>)
    requires MoveGraph.WellFormedReferences(a) && DistinctKeys(slug, a)
    requires MoveGraph.WellFormedReferences(b) && DistinctKeys(slug, b)
    ensures Immaterial(slug, threshold, a, b) <==> Immaterial(slug, threshold, b, a)
  {
    ImmaterialIff(slug, threshold, a, b);
    ImmaterialIff(slug, threshold, b, a);
    hide Immaterial;
  }

  /** Moves sharing a key have the same execution structure as the last of them. */
  ghost predicate SelfConsistent(slug: Slug, ms: seq<RankedMove>) {
    forall i, k: nat :: 0 <= i < |ms| && IsLast(slug, ms, MoveKey(slug, ms[i]), k) ==>
      SameElements(ms[i].dependsOn, ms[k].dependsOn) && ms[i].parallelGroup == ms[k].parallelGroup
  }

  /** MAIN: re-running a job whose version is already current, with a planner that proposes the same moves again,
      creates no version exactly if the plan has moves and moves sharing a key agree in their execution structure. */
  lemma RerunCreatesNoVersionIff(slug: Slug, threshold: real, ms: seq<RankedMove>)
    requires MoveGraph.WellFormedReferences(ms) && threshold > 0.0
    ensures Immaterial(slug, threshold, ms, ms) <==> ms != [] && SelfConsistent(slug, ms)
  {
    assert SameKeys(slug, ms, ms);
  }

  /** Distinct keys are enough. */
  lemma DistinctKeysSelfConsistent(slug: Slug, ms: seq<RankedMove>)
    requires DistinctKeys(slug, ms)
    ensures SelfConsistent(slug, ms)
  {
    forall i, k: nat | 0 <= i < |ms| && IsLast(slug, ms, MoveKey(slug, ms[i]), k) ensures k == i {
      assert i <= k;
    }
  }

  /** Two moves sharing a key in different parallel groups make the plan differ from itself. */
  lemma RerunNotIdempotent(slug: Slug)
    ensures var ms := [RankedMove("a", "", 0.5, 0.0, [], "core"), RankedMove("a", "", 0.5, 0.0, [], "validate")];
            MoveGraph.ValidDag(ms) && !Immaterial(slug, Threshold(0.0), ms, ms)
  {
    var ms := [RankedMove("a", "", 0.5, 0.0, [], "core"), RankedMove("a", "", 0.5, 0.0, [], "validate")];
    assert IsLast(slug, ms, MoveKey(slug, ms[0]), 1);
    MoveGraph.NoEdgesAcyclic(ms);
  }
}
