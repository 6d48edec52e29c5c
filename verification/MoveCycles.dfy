/** The search for one dependency cycle, and exactly which one it describes. */
module MoveCycles {
  import opened Domain
  import opened MoveGraph

  // ---------------------------------------------------------------- findCycle

  function Join(t: seq<string>): string {
    if t == [] then "" else if |t| == 1 then t[0] else t[0] + " -> " + Join(t[1..])
  }

  /** A walk that ends at a move it has already passed. */
  ghost predicate Revisits(p: seq<nat>) {
    |p| >= 2 && p[|p| - 1] in p[..|p| - 1]
  }

  /** A cycle can be reached from move x. */
  ghost predicate LeadsToCycle(ms: seq<RankedMove>, x: nat) {
    exists p: seq<nat> :: Revisits(p) && p[0] == x && Walk(ms, p)
  }

  ghost predicate FirstCyclic(ms: seq<RankedMove>, r: nat) {
    r < |ms| && LeadsToCycle(ms, r) && forall i: nat :: i < r ==> !LeadsToCycle(ms, i)
  }

  /** y is the first move that x refers to, by the order of the references and then of the moves, from which a cycle can
      be reached. */
  ghost predicate Chooses(ms: seq<RankedMove>, x: nat, y: nat) {
    Edge(ms, x, y) && LeadsToCycle(ms, y) && exists k :: ChoosesAt(ms, x, y, k)
  }

  ghost predicate ChoosesAt(ms: seq<RankedMove>, x: nat, y: nat, k: int)
    requires x < |ms| && y < |ms|
  {
    && 0 <= k < |ms[x].dependsOn| && ms[x].dependsOn[k] == ms[y].key
    && (forall u, j: nat :: 0 <= u < k && Edge(ms, x, j) && ms[j].key == ms[x].dependsOn[u] ==> !LeadsToCycle(ms, j))
    && (forall j: nat :: j < y && ms[j].key == ms[y].key ==> !LeadsToCycle(ms, j))
  }

  /** From the first move that leads to a cycle, always to the first reference that does, up to the first repetition. */
  ghost predicate Lasso(ms: seq<RankedMove>, p: seq<nat>) {
    && Revisits(p) && FirstCyclic(ms, p[0]) && NoDuplicates(p[..|p| - 1])
    && forall k :: 0 <= k < |p| - 1 ==> Chooses(ms, p[k], p[k + 1])
  }

  ghost function KeysAlong(ms: seq<RankedMove>, p: seq<nat>): (t: seq<string>)
    ensures |t| == |p|
  {
    seq(|p|, k requires 0 <= k < |p| => if p[k] < |ms| then ms[p[k]].key else "")
  }

  lemma ChoosesOne(ms: seq<RankedMove>, x: nat, y: nat, y': nat)
    requires Chooses(ms, x, y) && Chooses(ms, x, y')
    ensures y == y'
  {
    hide LeadsToCycle;
    var k :| ChoosesAt(ms, x, y, k);
    var k' :| ChoosesAt(ms, x, y', k');
    assert k == k';
  }

  /** The lasso is determined by the moves. */
  lemma LassoUnique(ms: seq<RankedMove>, p: seq<nat>, q: seq<nat>)
    requires Lasso(ms, p) && Lasso(ms, q)
    ensures p == q
  {
    hide LeadsToCycle, Chooses;
    var n := if |p| < |q| then |p| else |q|;
    var k := 0;
    while k < n - 1
      invariant k < n && p[..k + 1] == q[..k + 1]
    {
      ChoosesOne(ms, p[k], p[k + 1], q[k + 1]);
      k := k + 1;
      assert p[..k + 1] == p[..k] + [p[k]] && q[..k + 1] == q[..k] + [q[k]];
    }
    SamePrefixEnds(p, q);
  }

  lemma SamePrefixEnds(p: seq<nat>, q: seq<nat>)
    requires Revisits(p) && Revisits(q) && NoDuplicates(p[..|p| - 1]) && NoDuplicates(q[..|q| - 1])
    requires p <= q || q <= p
    ensures p == q
  {
    if |p| < |q| {
      RevisitRepeats(p, q);
    } else if |q| < |p| {
      RevisitRepeats(q, p);
    }
  }

  lemma RevisitRepeats(p: seq<nat>, q: seq<nat>)
    requires Revisits(p) && |p| < |q| && p <= q
    ensures !NoDuplicates(q[..|q| - 1])
  {
    var m :| 0 <= m < |p| - 1 && p[..|p| - 1][m] == p[|p| - 1];
    assert q[..|q| - 1][m] == q[..|q| - 1][|p| - 1];
  }

  lemma LeadsBack(ms: seq<RankedMove>, x: nat, y: nat)
    requires Edge(ms, x, y) && LeadsToCycle(ms, y)
    ensures LeadsToCycle(ms, x)
  {
    var p: seq<nat> :| Revisits(p) && p[0] == y && Walk(ms, p);
    var q := [x] + p;
    forall k | 0 <= k < |q| - 1 ensures Edge(ms, q[k], q[k + 1]) {
      assert k > 0 ==> Edge(ms, p[k - 1], p[k]);
    }
    var m :| 0 <= m < |p| - 1 && p[..|p| - 1][m] == p[|p| - 1];
    assert q[..|q| - 1][m + 1] == q[|q| - 1];
    assert Revisits(q) && q[0] == x && Walk(ms, q);
  }

  /** The part of a revisiting walk from the revisited move on is a closed walk. */
  lemma LassoCloses(ms: seq<RankedMove>, p: seq<nat>) returns (m: nat)
    requires Revisits(p) && Walk(ms, p)
    ensures m < |p| - 1 && p[m] == p[|p| - 1] && ClosedWalk(ms, p[m..])
  {
    m :| 0 <= m < |p| - 1 && p[..|p| - 1][m] == p[|p| - 1];
    var c := p[m..];
    forall k | 0 <= k < |c| - 1 ensures Edge(ms, c[k], c[k + 1]) {
      assert Edge(ms, p[m + k], p[m + k + 1]);
    }
  }

  lemma LassoIsCycle(ms: seq<RankedMove>, p: seq<nat>)
    requires Lasso(ms, p)
    ensures Cyclic(ms)
  {
    assert Walk(ms, p);
    var m := LassoCloses(ms, p);
  }

  /** From a finished move no cycle can be reached. */
  lemma FinishedLeadsNowhere(ms: seq<RankedMove>, order: seq<nat>, x: nat)
    requires Descending(ms, order) && x in order
    ensures !LeadsToCycle(ms, x)
  {
    forall p: seq<nat> | Revisits(p) && p[0] == x && Walk(ms, p) ensures false {
      var m := LassoCloses(ms, p);
      if m > 0 {
        WalkDescends(ms, order, p[..m + 1]);
      }
      WalkDescends(ms, order, p[m..]);
    }
  }

  /** The recursion stack: the keys of the gray moves, along a walk. */
  ghost predicate OnPath(ms: seq<RankedMove>, color: seq<Color>, stack: seq<string>, path: seq<nat>) {
    && |color| == |ms| && |stack| == |path|
    && (forall k :: 0 <= k < |path| ==> path[k] < |ms| && stack[k] == ms[path[k]].key && color[path[k]] == Gray)
    && (forall x :: 0 <= x < |ms| && color[x] == Gray ==> x in path)
    && NoDuplicates(path)
  }

  /** The black moves, in an order in which every edge leads to an earlier one. */
  ghost predicate Ordered(ms: seq<RankedMove>, color: seq<Color>, finished: seq<nat>) {
    && |color| == |ms|
    && (forall x :: 0 <= x < |ms| ==> (color[x] == Black <==> x in finished))
    && Descending(ms, finished)
  }

  ghost predicate BlackBelow(color: seq<Color>, r: nat) {
    r <= |color| && forall i :: 0 <= i < r ==> color[i] == Black
  }

  /** y is the k-th reference of x, and everything x refers to before it is finished. */
  ghost predicate TriedAt(ms: seq<RankedMove>, color: seq<Color>, x: nat, y: nat, k: int) {
    && |color| == |ms| && Edge(ms, x, y)
    && 0 <= k < |ms[x].dependsOn| && ms[x].dependsOn[k] == ms[y].key
    && (forall u, j: nat :: 0 <= u < k && Edge(ms, x, j) && ms[j].key == ms[x].dependsOn[u] ==> color[j] == Black)
    && (forall j: nat :: j < y && ms[j].key == ms[y].key ==> color[j] == Black)
  }

  ghost predicate Tried(ms: seq<RankedMove>, color: seq<Color>, x: nat, y: nat) {
    exists k :: TriedAt(ms, color, x, y, k)
  }

  /** The stack was reached by trying moves and references in order. */
  ghost predicate Orderly(ms: seq<RankedMove>, color: seq<Color>, path: seq<nat>) {
    && (path != [] ==> BlackBelow(color, path[0]))
    && forall k :: 0 <= k < |path| - 1 ==> Tried(ms, color, path[k], path[k + 1])
  }

  /** What it takes to go on to move i. */
  ghost predicate NextInOrder(ms: seq<RankedMove>, color: seq<Color>, path: seq<nat>, i: nat) {
    if path == [] then BlackBelow(color, i) else Tried(ms, color, path[|path| - 1], i)
  }

  /** Black moves stay black. */
  ghost predicate Keeps(color: seq<Color>, color': seq<Color>) {
    |color| == |color'| && forall x :: 0 <= x < |color| && color[x] != White ==> color'[x] == color[x]
  }

  lemma OrderlyKept(ms: seq<RankedMove>, color: seq<Color>, color': seq<Color>, path: seq<nat>)
    requires Orderly(ms, color, path) && |color| == |color'|
    requires forall x :: 0 <= x < |color| && color[x] == Black ==> color'[x] == Black
    ensures Orderly(ms, color', path)
  {
    forall k | 0 <= k < |path| - 1 ensures Tried(ms, color', path[k], path[k + 1]) {
      var u :| TriedAt(ms, color, path[k], path[k + 1], u);
      assert TriedAt(ms, color', path[k], path[k + 1], u);
    }
  }

  lemma OrderlyPush(ms: seq<RankedMove>, color: seq<Color>, path: seq<nat>, i: nat)
    requires Orderly(ms, color, path) && NextInOrder(ms, color, path, i)
    ensures Orderly(ms, color, path + [i])
  {
    forall k | 0 <= k < |path| ensures Tried(ms, color, (path + [i])[k], (path + [i])[k + 1]) {
      assert k < |path| - 1 ==> Tried(ms, color, path[k], path[k + 1]);
    }
  }

  lemma OrderlyPop(ms: seq<RankedMove>, color: seq<Color>, path: seq<nat>, i: nat)
    requires Orderly(ms, color, path + [i])
    ensures Orderly(ms, color, path)
  {
    forall k | 0 <= k < |path| - 1 ensures Tried(ms, color, path[k], path[k + 1]) {
      assert Tried(ms, color, (path + [i])[k], (path + [i])[k + 1]);
    }
  }

  lemma PushPath(ms: seq<RankedMove>, color: seq<Color>, stack: seq<string>, path: seq<nat>, i: nat)
    requires OnPath(ms, color, stack, path) && i < |ms| && color[i] == White
    ensures OnPath(ms, color[i := Gray], stack + [ms[i].key], path + [i])
  {}

  lemma PopPath(ms: seq<RankedMove>, color: seq<Color>, stack: seq<string>, path: seq<nat>, i: nat)
    requires OnPath(ms, color, stack, path + [i])
    ensures |stack| == |path| + 1 && i < |color| && OnPath(ms, color[i := Black], stack[..|path|], path)
  {
    var p, color' := path + [i], color[i := Black];
    assert p[|path|] == i;
    forall k | 0 <= k < |path|
      ensures path[k] < |ms| && stack[..|path|][k] == ms[path[k]].key && color'[path[k]] == Gray
    {
      assert p[k] == path[k] && p[k] != p[|path|];
    }
    forall x | 0 <= x < |ms| && color'[x] == Gray ensures x in path {
      assert x in p && x != i;
    }
    forall a, b | 0 <= a < b < |path| ensures path[a] != path[b] {
      assert p[a] != p[b];
    }
  }

  lemma OrderFinish(ms: seq<RankedMove>, color: seq<Color>, finished: seq<nat>, i: nat)
    requires Ordered(ms, color, finished) && i < |ms| && color[i] == Gray
    requires forall j: nat :: Edge(ms, i, j) ==> color[j] == Black
    ensures Ordered(ms, color[i := Black], finished + [i])
  {
    var f := finished + [i];
    forall q, j: nat | 0 <= q < |f| && Edge(ms, f[q], j) ensures j in f[..q] {
      assert q < |finished| ==> f[q] == finished[q] && f[..q] == finished[..q];
      assert q == |finished| ==> f[..q] == finished;
    }
  }

  lemma TriedChooses(ms: seq<RankedMove>, color: seq<Color>, finished: seq<nat>, x: nat, y: nat)
    requires Ordered(ms, color, finished) && Tried(ms, color, x, y) && LeadsToCycle(ms, y)
    ensures Chooses(ms, x, y)
  {
    hide LeadsToCycle;
    forall j: nat | j < |ms| && color[j] == Black ensures !LeadsToCycle(ms, j) {
      FinishedLeadsNowhere(ms, finished, j);
    }
    var k :| TriedAt(ms, color, x, y, k);
    assert ChoosesAt(ms, x, y, k);
  }

  /** Everything on a path that ends where a cycle can be reached leads to that cycle, so the path follows first
      choices. */
  lemma {:induction false} PathChooses(ms: seq<RankedMove>, color: seq<Color>, finished: seq<nat>, p: seq<nat>)
    requires Ordered(ms, color, finished) && p != [] && LeadsToCycle(ms, p[|p| - 1])
    requires forall k :: 0 <= k < |p| - 1 ==> Tried(ms, color, p[k], p[k + 1])
    ensures LeadsToCycle(ms, p[0]) && forall k :: 0 <= k < |p| - 1 ==> Chooses(ms, p[k], p[k + 1])
  {
    hide LeadsToCycle, Ordered, Chooses;
    var n := |p|;
    if n > 1 {
      assert Tried(ms, color, p[n - 2], p[n - 1]);
      TriedChooses(ms, color, finished, p[n - 2], p[n - 1]);
      TriedEdge(ms, color, p[n - 2], p[n - 1]);
      LeadsBack(ms, p[n - 2], p[n - 1]);
      PathChooses(ms, color, finished, p[..n - 1]);
    }
  }

  lemma TriedEdge(ms: seq<RankedMove>, color: seq<Color>, x: nat, y: nat)
    requires Tried(ms, color, x, y)
    ensures Edge(ms, x, y)
  {}

  /** A reference from the top of the stack to a move on the stack completes the lasso. */
  lemma BackEdgeLasso(ms: seq<RankedMove>, color: seq<Color>, stack: seq<string>, path: seq<nat>, finished: seq<nat>,
                      j: nat)
    requires OnPath(ms, color, stack, path) && Ordered(ms, color, finished) && Orderly(ms, color, path)
    requires path != [] && Tried(ms, color, path[|path| - 1], j) && j < |ms| && color[j] == Gray
    ensures Lasso(ms, path + [j]) && stack + [ms[j].key] == KeysAlong(ms, path + [j])
  {
    hide LeadsToCycle, Chooses, Tried, BlackBelow;
    var p := path + [j];
    assert p[..|p| - 1] == path;
    forall k | 0 <= k < |p| - 1 ensures Tried(ms, color, p[k], p[k + 1]) {
      assert k < |path| - 1 ==> Tried(ms, color, path[k], path[k + 1]);
    }
    assert LeadsToCycle(ms, j) by {
      var m :| 0 <= m < |path| && path[m] == j;
      LoopLeads(ms, color, p, m);
    }
    PathChooses(ms, color, finished, p);
    RootIsFirst(ms, color, finished, path[0]);
  }

  lemma LoopLeads(ms: seq<RankedMove>, color: seq<Color>, p: seq<nat>, m: nat)
    requires m < |p| - 1 && p[m] == p[|p| - 1]
    requires forall k :: 0 <= k < |p| - 1 ==> Tried(ms, color, p[k], p[k + 1])
    ensures LeadsToCycle(ms, p[m])
  {
    var c := p[m..];
    forall k | 0 <= k < |c| - 1 ensures Edge(ms, c[k], c[k + 1]) {
      TriedEdge(ms, color, p[m + k], p[m + k + 1]);
    }
    assert c[..|c| - 1][0] == c[|c| - 1];
    assert Revisits(c) && c[0] == p[m] && Walk(ms, c);
  }

  lemma RootIsFirst(ms: seq<RankedMove>, color: seq<Color>, finished: seq<nat>, r: nat)
    requires Ordered(ms, color, finished) && BlackBelow(color, r) && r < |ms| && LeadsToCycle(ms, r)
    ensures FirstCyclic(ms, r)
  {
    hide LeadsToCycle;
    forall i: nat | i < r ensures !LeadsToCycle(ms, i) {
      FinishedLeadsNowhere(ms, finished, i);
    }
  }

  /** Search for one cycle; `path` lists the moves on the recursion stack. */
  class CycleFinder {
    const ms: seq<RankedMove>
    const index: map<string, seq<nat>>
    var color: seq<Color>
    var stack: seq<string>
    ghost var path: seq<nat>
    ghost var finished: seq<nat>

    ghost predicate Valid()
      reads this
    {
      && IsIndex(ms, index) && |color| == |ms|
      && OnPath(ms, color, stack, path) && Ordered(ms, color, finished) && Orderly(ms, color, path)
    }

    constructor (ms: seq<RankedMove>, index: map<string, seq<nat>>)
      requires IsIndex(ms, index)
      ensures Valid() && this.ms == ms && path == []
    {
      this.ms := ms;
      this.index := index;
      color := seq(|ms|, _ => White);
      stack, path, finished := [], [], [];
    }

    method Dfs(i: nat) returns (c: string, ghost p: seq<nat>)
      requires Valid() && i < |ms| && color[i] == White && NextInOrder(ms, color, path, i)
      modifies this
      decreases Whites(color), 0
      ensures c == "" ==> Valid() && path == old(path) && color[i] == Black && Keeps(old(color), color)
      ensures c != "" ==> Lasso(ms, p) && c == Join(KeysAlong(ms, p))
    {
      hide Whites, IsIndex, OnPath, Ordered, Orderly, NextInOrder, Lasso, KeysAlong, Join;
      p := [];
      ghost var color0, path0 := color, path;
      OrderlyPush(ms, color, path, i);
      PushPath(ms, color, stack, path, i);
      OrderGray(ms, color, finished, i);
      OrderlyKept(ms, color, color[i := Gray], path + [i]);
      WhitesDrop(color0, i);
      color := color[i := Gray];
      stack := stack + [ms[i].key];
      path := path + [i];
      ghost var entered := color;
      var deps := ms[i].dependsOn;
      for k := 0 to |deps|
        invariant Valid() && path == path0 + [i] && Keeps(entered, color)
        invariant TriedBefore(ms, color, i, k)
      {
        var dep := deps[k];
        if dep == "" || dep == ms[i].key {
          continue;
        }
        WhitesProgress(entered, color);
        c, p := Follow(i, k, dep);
        if c != "" {
          return;
        }
      }
      AllTried(ms, color, i);
      OrderFinish(ms, color, finished, i);
      PopPath(ms, color, stack, path0, i);
      OrderlyPop(ms, color, path0, i);
      OrderlyKept(ms, color, color[i := Black], path0);
      color := color[i := Black];
      stack := stack[..|stack| - 1];
      path := path[..|path| - 1];
      finished := finished + [i];
      assert path == path0;
      c := "";
    }

    /** The inner loop over the moves carrying the k-th reference of move i. */
    method Follow(i: nat, k: nat, dep: string) returns (c: string, ghost p: seq<nat>)
      requires Valid() && i < |ms| && path != [] && path[|path| - 1] == i && k < |ms[i].dependsOn|
               && dep == ms[i].dependsOn[k]
      requires dep != "" && dep != ms[i].key && TriedBefore(ms, color, i, k)
      modifies this
      decreases Whites(color), 1
      ensures c == "" ==> Valid() && path == old(path) && Keeps(old(color), color) && TriedBefore(ms, color, i, k + 1)
      ensures c != "" ==> Lasso(ms, p) && c == Join(KeysAlong(ms, p))
    {
      hide Whites, Holders, IsIndex, OnPath, Ordered, Orderly, Lasso, KeysAlong, Join, Targets, Tried, TriedBefore,
           Edge, Keeps, Done;
      p := [];
      c := "";
      ghost var color0, path0 := color, path;
      var targets := if dep in index then index[dep] else [];
      MaybeTargets(ms, index, dep);
      KeepsSelf(color);
      DoneNone(ms, color, targets);
      for t := 0 to |targets|
        invariant Valid() && path == path0 && Keeps(color0, color) && c == "" && TriedBefore(ms, color, i, k)
        invariant Done(ms, color, targets, t)
      {
        var j := targets[t];
        TargetInRange(ms, dep, targets, t);
        NextTried(ms, color, i, k, targets, t);
        if color[j] == Gray {
          BackEdgeLasso(ms, color, stack, path, finished, j);
          p := path + [j];
          c := Join(stack + [dep]);
          JoinNonEmpty(stack, dep);
          return;
        }
        ghost var color1 := color;
        if color[j] == White {
          WhitesProgress(color0, color);
          c, p := Dfs(j);
          if c != "" {
            return;
          }
          TriedBeforeKept(ms, color1, color, i, k);
        } else {
          KeepsSelf(color);
        }
        DoneMore(ms, color0, color1, color, targets, t);
      }
      TargetsBlack(ms, dep, targets, color);
      TriedOneMore(ms, color, i, k);
    }
  }

  /** Everything that the first k references of move i name is finished. */
  ghost predicate TriedBefore(ms: seq<RankedMove>, color: seq<Color>, i: nat, k: nat) {
    && |color| == |ms| && i < |ms| && k <= |ms[i].dependsOn|
    && forall j: nat, u :: 0 <= u < k && Edge(ms, i, j) && ms[j].key == ms[i].dependsOn[u] ==> color[j] == Black
  }

  lemma TriedBeforeKept(ms: seq<RankedMove>, color: seq<Color>, color': seq<Color>, i: nat, k: nat)
    requires TriedBefore(ms, color, i, k) && Keeps(color, color')
    ensures TriedBefore(ms, color', i, k)
  {}

  lemma TriedOneMore(ms: seq<RankedMove>, color: seq<Color>, i: nat, k: nat)
    requires TriedBefore(ms, color, i, k) && k < |ms[i].dependsOn|
    requires forall j :: 0 <= j < |ms| && ms[j].key == ms[i].dependsOn[k] ==> color[j] == Black
    ensures TriedBefore(ms, color, i, k + 1)
  {}

  lemma AllTried(ms: seq<RankedMove>, color: seq<Color>, i: nat)
    requires i < |ms| && TriedBefore(ms, color, i, |ms[i].dependsOn|)
    ensures forall j: nat :: Edge(ms, i, j) ==> color[j] == Black
  {
    forall j: nat | Edge(ms, i, j) ensures color[j] == Black {
      var u :| 0 <= u < |ms[i].dependsOn| && ms[i].dependsOn[u] == ms[j].key;
    }
  }

  lemma NextTried(ms: seq<RankedMove>, color: seq<Color>, i: nat, k: nat, targets: seq<nat>, t: nat)
    requires TriedBefore(ms, color, i, k) && k < |ms[i].dependsOn| && t < |targets|
    requires ms[i].dependsOn[k] != "" && ms[i].dependsOn[k] != ms[i].key
    requires Targets(ms, ms[i].dependsOn[k], targets)
    requires Done(ms, color, targets, t)
    ensures Tried(ms, color, i, targets[t])
  {
    var j := targets[t];
    TargetInRange(ms, ms[i].dependsOn[k], targets, t);
    assert ms[i].dependsOn[k] in ms[i].dependsOn;
    forall j': nat | j' < j && ms[j'].key == ms[j].key ensures color[j'] == Black {
      assert j' in targets;
      var u :| 0 <= u < |targets| && targets[u] == j';
      assert u < t;
    }
    assert TriedAt(ms, color, i, j, k);
  }

  /** The first t targets are finished. */
  ghost predicate Done(ms: seq<RankedMove>, color: seq<Color>, targets: seq<nat>, t: nat) {
    |color| == |ms| && t <= |targets| && forall u :: 0 <= u < t ==> targets[u] < |ms| && color[targets[u]] == Black
  }

  lemma KeepsSelf(color: seq<Color>)
    ensures Keeps(color, color)
  {}

  lemma DoneNone(ms: seq<RankedMove>, color: seq<Color>, targets: seq<nat>)
    requires |color| == |ms|
    ensures Done(ms, color, targets, 0)
  {}

  lemma DoneMore(ms: seq<RankedMove>, color0: seq<Color>, color: seq<Color>, color': seq<Color>, targets: seq<nat>,
                 t: nat)
    requires Done(ms, color, targets, t) && Keeps(color0, color) && Keeps(color, color')
    requires t < |targets| && targets[t] < |ms| && |color'| == |ms| && color'[targets[t]] == Black
    ensures Done(ms, color', targets, t + 1) && Keeps(color0, color')
  {}

  lemma JoinNonEmpty(stack: seq<string>, dep: string)
    requires stack != []
    ensures Join(stack + [dep]) != ""
  {}

  lemma MaybeTargets(ms: seq<RankedMove>, index: map<string, seq<nat>>, dep: string)
    requires IsIndex(ms, index) && dep != ""
    ensures Targets(ms, dep, if dep in index then index[dep] else [])
  {
    HoldersProperties(ms, dep);
    assert Targets(ms, dep, Holders(ms, dep));
  }

  lemma TargetsBlack(ms: seq<RankedMove>, dep: string, targets: seq<nat>, color: seq<Color>)
    requires Targets(ms, dep, targets) && |color| == |ms|
    requires Done(ms, color, targets, |targets|)
    ensures forall j :: 0 <= j < |ms| && ms[j].key == dep ==> color[j] == Black
  {
    forall j | 0 <= j < |ms| && ms[j].key == dep ensures color[j] == Black {
      assert j in targets;
    }
  }

  lemma OrderGray(ms: seq<RankedMove>, color: seq<Color>, finished: seq<nat>, i: nat)
    requires Ordered(ms, color, finished) && i < |ms| && color[i] == White
    ensures Ordered(ms, color[i := Gray], finished)
  {}

  lemma WhitesProgress(color: seq<Color>, color': seq<Color>)
    requires Keeps(color, color')
    ensures Whites(color') <= Whites(color)
  {}

  /** MAIN: findCycle is exact, and it reports the keys along the lasso that the moves determine. */
  method FindCycle(ms: seq<RankedMove>) returns (c: string, ghost p: seq<nat>)
    ensures c == "" <==> !Cyclic(ms)
    ensures c != "" ==> Lasso(ms, p) && c == Join(KeysAlong(ms, p))
  {
    hide Lasso, KeysAlong, Join;
    var index := BuildIndex(ms);
    var finder := new CycleFinder(ms, index);
    for i := 0 to |ms|
      invariant finder.Valid() && finder.ms == ms && finder.path == []
      invariant BlackBelow(finder.color, i)
    {
      if finder.color[i] == White {
        c, p := finder.Dfs(i);
        if c != "" {
          LassoIsCycle(ms, p);
          return;
        }
      }
    }
    FinishingOrderAcyclic(ms, finder.finished);
    c, p := "", [];
  }

  // When the description reads "a -> b -> a".

  /** Following first choices from r comes back to r. */
  ghost predicate OnChosenCycle(ms: seq<RankedMove>, r: nat) {
    exists q: seq<nat> :: ChosenLoop(ms, q) && q[0] == r
  }

  ghost predicate ChosenLoop(ms: seq<RankedMove>, q: seq<nat>) {
    |q| >= 2 && q[0] == q[|q| - 1] && forall k :: 0 <= k < |q| - 1 ==> Chooses(ms, q[k], q[k + 1])
  }

  /** A move on the lasso that carries the key of its start is its start. */
  lemma KeyNamesStart(ms: seq<RankedMove>, p: seq<nat>, m: nat)
    requires Lasso(ms, p) && m < |p| && ms[p[0]].key == KeysAlong(ms, p)[m]
    ensures p[m] == p[0]
  {
    hide LeadsToCycle;
    if m > 0 {
      assert Chooses(ms, p[m - 1], p[m]);
    }
  }

  /** Following first choices never leaves the lasso. */
  lemma {:induction false} ChoicesStay(ms: seq<RankedMove>, p: seq<nat>, q: seq<nat>, k: nat)
    requires Lasso(ms, p) && p[0] != p[|p| - 1]
    requires 0 < k < |q| && q[0] == p[0] && forall u :: 0 <= u < k ==> Chooses(ms, q[u], q[u + 1])
    ensures q[k] in p[1..]
  {
    hide LeadsToCycle, Chooses;
    var x := q[k - 1];
    if k > 1 {
      ChoicesStay(ms, p, q, k - 1);
    }
    var m := 0;
    if k > 1 {
      m := PositionIn(ms, p, x);
    }
    ChoosesOne(ms, x, p[m + 1], q[k]);
    assert p[1..][m] == p[m + 1];
  }

  /** A later move of the lasso stands before its end. */
  lemma PositionIn(ms: seq<RankedMove>, p: seq<nat>, x: nat) returns (m: nat)
    requires Lasso(ms, p) && p[0] != p[|p| - 1] && x in p[1..]
    ensures m < |p| - 1 && p[m] == x
  {
    hide LeadsToCycle, Chooses;
    var u :| 0 <= u < |p| - 1 && p[1..][u] == x;
    if u + 1 < |p| - 1 {
      m := u + 1;
    } else {
      m :| 0 <= m < |p| - 1 && p[..|p| - 1][m] == p[|p| - 1];
    }
  }

  /** MAIN: the description starts and ends with the same key exactly if the first move that leads to a cycle lies on
      the cycle of first choices itself. */
  lemma DescriptionClosesIff(ms: seq<RankedMove>, p: seq<nat>)
    requires Lasso(ms, p)
    ensures KeysAlong(ms, p)[0] == KeysAlong(ms, p)[|p| - 1] <==> OnChosenCycle(ms, p[0])
  {
    hide LeadsToCycle, Chooses, FirstCyclic;
    assert p[0] < |ms| by { ChoosesInRange(ms, p[0], p[1]); }
    if KeysAlong(ms, p)[0] == KeysAlong(ms, p)[|p| - 1] {
      KeyNamesStart(ms, p, |p| - 1);
      assert ChosenLoop(ms, p);
    }
    if OnChosenCycle(ms, p[0]) && p[0] != p[|p| - 1] {
      var q: seq<nat> :| ChosenLoop(ms, q) && q[0] == p[0];
      ChoicesStay(ms, p, q, |q| - 1);
      StartsOnce(p);
      assert false;
    }
  }

  lemma ChoosesInRange(ms: seq<RankedMove>, x: nat, y: nat)
    requires Chooses(ms, x, y)
    ensures x < |ms| && y < |ms| && Edge(ms, x, y)
  {}

  lemma StartRevisited(p: seq<nat>, t: nat)
    requires Revisits(p) && NoDuplicates(p[..|p| - 1]) && 0 < t < |p| && p[t] == p[0]
    ensures p[0] == p[|p| - 1]
  {}

  lemma StartsOnce(p: seq<nat>)
    requires Revisits(p) && NoDuplicates(p[..|p| - 1]) && p[0] != p[|p| - 1]
    ensures p[0] !in p[1..]
  {
    forall u | 0 <= u < |p| - 1 ensures p[1..][u] != p[0] {
      assert u + 1 < |p| - 1 ==> p[..|p| - 1][0] != p[..|p| - 1][u + 1];
    }
  }

  /** The cycle at the end of the lasso can be reached from its start. */
  lemma LassoCycle(ms: seq<RankedMove>, p: seq<nat>) returns (m: nat)
    requires Lasso(ms, p)
    ensures m < |p| - 1 && p[m] == p[|p| - 1] && ClosedWalk(ms, p[m..]) && Leads(ms, p[0], p[m..][0])
  {
    forall k | 0 <= k < |p| - 1 ensures Edge(ms, p[k], p[k + 1]) {
      assert Chooses(ms, p[k], p[k + 1]);
    }
    assert Walk(ms, p);
    m := LassoCloses(ms, p);
    var lead := p[..m + 1];
    assert lead != [] && lead[0] == p[0] && lead[|lead| - 1] == p[m] && Walk(ms, lead);
  }

  ghost predicate Passes(ms: seq<RankedMove>, c: seq<nat>, key: string) {
    exists k :: 0 <= k < |c| && c[k] < |ms| && ms[c[k]].key == key
  }

  /** Every cycle that can be reached from r passes through its key. */
  ghost predicate Unavoidable(ms: seq<RankedMove>, r: nat)
    requires r < |ms|
  {
    forall c: seq<nat> :: ClosedWalk(ms, c) && Leads(ms, r, c[0]) ==> Passes(ms, c, ms[r].key)
  }

  /** In particular it does when the first move that leads to a cycle is unavoidable. */
  lemma DescriptionClosesWhenUnavoidable(ms: seq<RankedMove>, p: seq<nat>)
    requires Lasso(ms, p) && p[0] < |ms| && Unavoidable(ms, p[0])
    ensures KeysAlong(ms, p)[0] == KeysAlong(ms, p)[|p| - 1]
  {
    hide LeadsToCycle, Chooses, FirstCyclic, Leads, ClosedWalk, Passes;
    var m := LassoCycle(ms, p);
    assert Passes(ms, p[m..], ms[p[0]].key);
    PassedAtStart(ms, p, m);
  }

  lemma PassedAtStart(ms: seq<RankedMove>, p: seq<nat>, m: nat)
    requires Lasso(ms, p) && m < |p| - 1 && p[m] == p[|p| - 1]
    requires p[0] < |ms| && Passes(ms, p[m..], ms[p[0]].key)
    ensures p[0] == p[|p| - 1]
  {
    hide LeadsToCycle, Chooses, FirstCyclic;
    var k :| 0 <= k < |p[m..]| && p[m..][k] < |ms| && ms[p[m..][k]].key == ms[p[0]].key;
    assert p[m..][k] == p[m + k];
    KeyNamesStart(ms, p, m + k);
    if m + k > 0 {
      StartRevisited(p, m + k);
    }
  }

  /** A move outside the cycle that refers to it first is reported as a lead-in. */
  lemma LeadInReported(ms: seq<RankedMove>)
    requires ms == [RankedMove("x", "", 0.5, 0.0, ["a"], ""), RankedMove("a", "", 0.5, 0.0, ["b"], ""),
                    RankedMove("b", "", 0.5, 0.0, ["a"], "")]
    ensures Lasso(ms, [0, 1, 2, 1]) && Join(KeysAlong(ms, [0, 1, 2, 1])) == "x -> a -> b -> a"
  {
    hide Lasso, Join;
    assert KeysAlong(ms, [0, 1, 2, 1]) == ["x", "a", "b", "a"];
    JoinLeadIn();
    DistinctNames();
    assert Edge(ms, 0, 1) && Edge(ms, 1, 2) && Edge(ms, 2, 1);
    hide Edge;
    LeadInLasso(ms);
  }

  lemma DistinctNames()
    ensures "x" != "a" && "x" != "b" && "a" != "b"
  {
    assert "x"[0] == 'x' && "a"[0] == 'a' && "b"[0] == 'b';
  }

  lemma JoinLeadIn()
    ensures Join(["x", "a", "b", "a"]) == "x -> a -> b -> a"
  {
    JoinFour(["x", "a", "b", "a"]);
  }

  lemma LeadInLasso(ms: seq<RankedMove>)
    requires |ms| == 3 && Edge(ms, 0, 1) && Edge(ms, 1, 2) && Edge(ms, 2, 1)
    requires ms[0].dependsOn == [ms[1].key] && ms[1].dependsOn == [ms[2].key] && ms[2].dependsOn == [ms[1].key]
    requires ms[1].key != ms[0].key && ms[2].key != ms[1].key && ms[2].key != ms[0].key
    ensures Lasso(ms, [0, 1, 2, 1])
  {
    hide Edge, LeadsToCycle, Chooses;
    LoopOfTwo(ms, 1, 2);
    LeadsBack(ms, 0, 1);
    LeadsBack(ms, 2, 1);
    OnlyChoice(ms, 0, 1);
    OnlyChoice(ms, 1, 2);
    OnlyChoice(ms, 2, 1);
    var p: seq<nat> := [0, 1, 2, 1];
    assert p[..3] == [0, 1, 2] && p[..3][1] == p[3];
  }

  lemma OnlyChoice(ms: seq<RankedMove>, x: nat, y: nat)
    requires Edge(ms, x, y) && ms[x].dependsOn == [ms[y].key] && LeadsToCycle(ms, y)
    requires forall j :: 0 <= j < y ==> ms[j].key != ms[y].key
    ensures Chooses(ms, x, y)
  {
    hide LeadsToCycle;
    assert ChoosesAt(ms, x, y, 0);
  }

  lemma LoopOfTwo(ms: seq<RankedMove>, x: nat, y: nat)
    requires Edge(ms, x, y) && Edge(ms, y, x)
    ensures LeadsToCycle(ms, x)
  {
    var c: seq<nat> := [x, y, x];
    assert c[..2][0] == c[2];
    assert Revisits(c) && c[0] == x && Walk(ms, c);
  }

  lemma JoinFour(t: seq<string>)
    requires |t| == 4
    ensures Join(t) == t[0] + " -> " + (t[1] + " -> " + (t[2] + " -> " + t[3]))
  {
    var u := t[1..];
    var v := u[1..];
    assert Join(t) == t[0] + " -> " + Join(u) && Join(u) == u[0] + " -> " + Join(v)
           && Join(v) == v[0] + " -> " + Join(v[1..]);
    assert v[1..] == [t[3]] && u[0] == t[1] && v[0] == t[2];
  }
}
