/** The move dependency graph: a move depends, by key, on other moves of the same plan version.
    One key may name several moves, and a move may have no key. */
module MoveGraph {
  import opened Domain

  // ---------------------------------------------------------------- the graph, independently of any search

  /** Move i must wait for move j. */
  predicate Edge(ms: seq<RankedMove>, i: nat, j: nat) {
    && i < |ms| && j < |ms|
    && ms[j].key != ""
    && ms[j].key != ms[i].key
    && ms[j].key in ms[i].dependsOn
  }

  ghost predicate Walk(ms: seq<RankedMove>, p: seq<nat>) {
    forall k :: 0 <= k < |p| - 1 ==> Edge(ms, p[k], p[k + 1])
  }

  ghost predicate ClosedWalk(ms: seq<RankedMove>, p: seq<nat>) {
    |p| >= 2 && p[0] == p[|p| - 1] && Walk(ms, p)
  }

  ghost predicate Cyclic(ms: seq<RankedMove>) {
    exists p: seq<nat> :: ClosedWalk(ms, p)
  }

  /** There is a (possibly empty) walk from x to y. */
  ghost predicate Leads(ms: seq<RankedMove>, x: nat, y: nat) {
    exists p: seq<nat> :: p != [] && p[0] == x && p[|p| - 1] == y && Walk(ms, p)
  }

  /** Some move with key a depends on the key b of another move. */
  ghost predicate KeyEdge(ms: seq<RankedMove>, a: string, b: string) {
    exists i: nat, j: nat :: Edge(ms, i, j) && ms[i].key == a && ms[j].key == b
  }

  ghost predicate KeyWalk(ms: seq<RankedMove>, t: seq<string>) {
    forall k :: 0 <= k < |t| - 1 ==> KeyEdge(ms, t[k], t[k + 1])
  }

  ghost predicate ClosedKeyWalk(ms: seq<RankedMove>, t: seq<string>) {
    |t| >= 2 && t[0] == t[|t| - 1] && KeyWalk(ms, t)
  }

  ghost predicate KeyCyclic(ms: seq<RankedMove>) {
    exists t: seq<string> :: ClosedKeyWalk(ms, t)
  }

  /** Extends a key walk to a move walk: every move on it has the key, and the last key may be any move carrying it. */
  lemma {:induction false} KeyWalkToWalk(ms: seq<RankedMove>, t: seq<string>, last: nat) returns (p: seq<nat>)
    requires |t| >= 2 && KeyWalk(ms, t) && last < |ms| && ms[last].key == t[|t| - 1]
    ensures |p| == |t| && Walk(ms, p) && p[|p| - 1] == last && p[0] < |ms| && ms[p[0]].key == t[0]
  {
    var n := |t|;
    assert KeyEdge(ms, t[n - 2], t[n - 1]);
    var i: nat, j: nat :| Edge(ms, i, j) && ms[i].key == t[n - 2] && ms[j].key == t[n - 1];
    assert Edge(ms, i, last);
    if n == 2 {
      p := [i, last];
    } else {
      var q := KeyWalkToWalk(ms, t[..n - 1], i);
      p := q + [last];
    }
  }

  /** Cycles of moves and cycles of keys are the same thing, also when several moves share a key. */
  lemma CyclicIffKeyCyclic(ms: seq<RankedMove>)
    ensures Cyclic(ms) <==> KeyCyclic(ms)
  {
    if Cyclic(ms) {
      var p :| ClosedWalk(ms, p);
      forall k | 0 <= k < |p| ensures p[k] < |ms| {
        if k > 0 { assert Edge(ms, p[k - 1], p[k]); } else { assert Edge(ms, p[0], p[1]); }
      }
      var t := seq(|p|, k requires 0 <= k < |p| => ms[p[k]].key);
      forall k | 0 <= k < |t| - 1 ensures KeyEdge(ms, t[k], t[k + 1]) {
        assert Edge(ms, p[k], p[k + 1]);
      }
      assert ClosedKeyWalk(ms, t);
    }
    if KeyCyclic(ms) {
      var t :| ClosedKeyWalk(ms, t);
      assert KeyEdge(ms, t[0], t[1]);
      var i: nat, j: nat :| Edge(ms, i, j) && ms[i].key == t[0] && ms[j].key == t[1];
      var q := KeyWalkToWalk(ms, t, i);
      // q[0] carries the same key as i = q's last move, so the walk also closes at i itself.
      var n := |t|;
      assert Edge(ms, q[n - 2], q[n - 1]);
      assert Edge(ms, q[n - 2], q[0]);
      var p := q[..n - 1] + [q[0]];
      assert ClosedWalk(ms, p);
    }
  }

  // ---------------------------------------------------------------- pass 1: cleaning references

  ghost function Keys(ms: seq<RankedMove>): set<string> {
    set i | 0 <= i < |ms| && ms[i].key != "" :: ms[i].key
  }

  /** The moves carrying key k, in move order. */
  ghost function Holders(ms: seq<RankedMove>, k: string): seq<nat> {
    if ms == [] then []
    else
      var n := |ms| - 1;
      Holders(ms[..n], k) + (if ms[n].key == k then [n] else [])
  }

  lemma {:induction false} HoldersProperties(ms: seq<RankedMove>, k: string)
    ensures forall i: nat :: i in Holders(ms, k) <==> i < |ms| && ms[i].key == k
    ensures forall t, u :: 0 <= t < u < |Holders(ms, k)| ==> Holders(ms, k)[t] < Holders(ms, k)[u]
  {
    if ms != [] {
      HoldersProperties(ms[..|ms| - 1], k);
      var h := Holders(ms[..|ms| - 1], k);
      assert forall t :: 0 <= t < |h| ==> h[t] in h;
    }
  }

  /** Where each non-empty key lives. */
  ghost predicate IsIndex(ms: seq<RankedMove>, index: map<string, seq<nat>>) {
    && (forall k :: k in index <==> k != "" && Holders(ms, k) != [])
    && (forall k :: k in index ==> index[k] == Holders(ms, k))
  }

  lemma IndexKeys(ms: seq<RankedMove>, index: map<string, seq<nat>>)
    requires IsIndex(ms, index)
    ensures index.Keys == Keys(ms)
  {
    forall k ensures k in index <==> k in Keys(ms) {
      HoldersProperties(ms, k);
      if k in index {
        assert Holders(ms, k)[0] in Holders(ms, k);
      }
    }
  }

  method BuildIndex(ms: seq<RankedMove>) returns (index: map<string, seq<nat>>)
    ensures IsIndex(ms, index)
  {
    index := map[];
    for i := 0 to |ms|
      invariant IsIndex(ms[..i], index)
    {
      assert ms[..i + 1][..i] == ms[..i];
      var k := ms[i].key;
      if k != "" {
        index := index[k := (if k in index then index[k] else []) + [i]];
      }
    }
    assert ms[..|ms|] == ms;
  }

  /** A reference worth keeping: not empty, not the move itself, and carried by some move. */
  predicate Resolves(own: string, keys: set<string>, dep: string) {
    dep != "" && dep != own && dep in keys
  }

  /** First occurrences of the resolving references, in order. */
  ghost function Clean(own: string, src: seq<string>, keys: set<string>): seq<string> {
    if src == [] then []
    else
      var r := Clean(own, src[..|src| - 1], keys);
      var dep := src[|src| - 1];
      if Resolves(own, keys, dep) && dep !in r then r + [dep] else r
  }

  lemma {:induction false} CleanProperties(own: string, src: seq<string>, keys: set<string>)
    ensures NoDuplicates(Clean(own, src, keys))
    ensures forall d :: d in Clean(own, src, keys) <==> d in src && Resolves(own, keys, d)
  {
    if src != [] {
      CleanProperties(own, src[..|src| - 1], keys);
      assert src == src[..|src| - 1] + [src[|src| - 1]];
    }
  }

  /** In src, a stands before the first b. */
  ghost predicate Before(src: seq<string>, a: string, b: string) {
    exists p :: 0 <= p < |src| && src[p] == a && b !in src[..p + 1]
  }

  /** The kept references stand in the order of their first occurrences. */
  lemma {:induction false} CleanOrder(own: string, src: seq<string>, keys: set<string>, i: nat, j: nat)
    requires i < j < |Clean(own, src, keys)|
    ensures Before(src, Clean(own, src, keys)[i], Clean(own, src, keys)[j])
  {
    var n := |src| - 1;
    var r, all := Clean(own, src[..n], keys), Clean(own, src, keys);
    CleanProperties(own, src[..n], keys);
    var p: int;
    if j < |r| {
      CleanOrder(own, src[..n], keys, i, j);
      p :| 0 <= p < n && src[..n][p] == r[i] && r[j] !in src[..n][..p + 1];
    } else {
      assert all[i] in r && all[j] == src[n] && all[j] !in src[..n];
      p :| 0 <= p < n && src[..n][p] == all[i];
    }
    assert src[..n][..p + 1] == src[..p + 1];
  }

  lemma {:induction false} CleanFixed(own: string, src: seq<string>, keys: set<string>)
    requires NoDuplicates(src) && forall d :: d in src ==> Resolves(own, keys, d)
    ensures Clean(own, src, keys) == src
  {
    if src != [] {
      CleanFixed(own, src[..|src| - 1], keys);
    }
  }

  ghost function Cleaned(ms: seq<RankedMove>): (r: seq<RankedMove>)
    ensures |r| == |ms|
  {
    seq(|ms|, i requires 0 <= i < |ms| => ms[i].(dependsOn := Clean(ms[i].key, ms[i].dependsOn, Keys(ms))))
  }

  method CleanReferences(own: string, src: seq<string>, index: map<string, seq<nat>>) returns (kept: seq<string>)
    ensures kept == Clean(own, src, index.Keys)
  {
    var seen: set<string> := {};
    kept := [];
    for k := 0 to |src|
      invariant kept == Clean(own, src[..k], index.Keys)
      invariant seen == set d | d in kept
    {
      assert src[..k + 1][..k] == src[..k];
      var dep := src[k];
      if dep == "" || dep == own || dep in seen {
        continue;
      }
      if dep !in index {
        continue;
      }
      seen := seen + {dep};
      kept := kept + [dep];
    }
    assert src[..|src|] == src;
  }

  /** References that form a graph the rest of the engine can rely on. */
  ghost predicate WellFormedReferences(ms: seq<RankedMove>) {
    forall i :: 0 <= i < |ms| ==>
      && NoDuplicates(ms[i].dependsOn)
      && forall d :: d in ms[i].dependsOn ==> Resolves(ms[i].key, Keys(ms), d)
  }

  ghost predicate ValidDag(ms: seq<RankedMove>) {
    WellFormedReferences(ms) && !Cyclic(ms)
  }

  // ---------------------------------------------------------------- pass 2: depth-first search

  datatype Color = White | Gray | Black

  /** Search state. `kept` records the references processed and found not to close a cycle;
      `finished` lists the black moves in the order they turned black. */
  datatype Search = Search(color: seq<Color>, remove: seq<set<string>>, kept: seq<set<string>>, finished: seq<nat>)

  ghost predicate Sized(ms: seq<RankedMove>, s: Search) {
    |s.color| == |s.remove| == |s.kept| == |ms|
  }

  /** Every kept reference of a finished move leads to moves finished earlier. */
  ghost predicate Topological(ms: seq<RankedMove>, s: Search)
    requires Sized(ms, s)
  {
    forall q, j :: 0 <= q < |s.finished| && 0 <= j < |ms| && s.finished[q] < |ms| ==>
      (ms[j].key in s.kept[s.finished[q]] ==> j in s.finished[..q])
  }

  ghost predicate Inv(ms: seq<RankedMove>, s: Search) {
    Sized(ms, s) && Consistent(ms, s)
  }

  ghost predicate Consistent(ms: seq<RankedMove>, s: Search)
    requires Sized(ms, s)
  {
    && (forall x :: 0 <= x < |ms| ==> (s.color[x] == Black <==> x in s.finished))
    && (forall x :: x in s.finished ==> x < |ms|)
    && Topological(ms, s)
    && (forall x :: 0 <= x < |ms| && s.color[x] == White ==> s.kept[x] == {} && s.remove[x] == {})
    && (forall x :: 0 <= x < |ms| ==> s.kept[x] !! s.remove[x])
    && (forall x, d :: 0 <= x < |ms| && d in s.kept[x] + s.remove[x] ==> d in ms[x].dependsOn)
    && (forall x, d :: 0 <= x < |ms| && s.color[x] == Black && d in ms[x].dependsOn ==> d in s.kept[x] + s.remove[x])
    && LowerFirst(ms, s)
  }

  /** Of the moves sharing a key, the first is always discovered first. */
  ghost predicate LowerFirst(ms: seq<RankedMove>, s: Search)
    requires Sized(ms, s)
  {
    forall a, b :: 0 <= a < b < |ms| && ms[a].key == ms[b].key && s.color[b] != White ==> s.color[a] != White
  }

  /** Discovered moves keep their colour, no move stays gray, and kept references only grow. */
  ghost predicate Grew(s: Search, s': Search) {
    && |s.color| == |s'.color| == |s.kept| == |s'.kept|
    && (forall x :: 0 <= x < |s.color| ==> s.kept[x] <= s'.kept[x])
    && (forall x :: 0 <= x < |s.color| && s.color[x] != White ==> s'.color[x] == s.color[x])
    && (forall x :: 0 <= x < |s.color| && s.color[x] == White ==> s'.color[x] != Gray)
  }

  ghost predicate Untouched(s: Search, s': Search)
    requires |s.color| == |s.remove| == |s'.remove| == |s.kept| == |s'.kept|
  {
    forall x :: 0 <= x < |s.color| && s.color[x] != White ==> s'.remove[x] == s.remove[x] && s'.kept[x] == s.kept[x]
  }

  // Reachability through kept references.

  ghost predicate KeptWalk(ms: seq<RankedMove>, kept: seq<set<string>>, p: seq<nat>) {
    && (forall k :: 0 <= k < |p| ==> p[k] < |ms| && p[k] < |kept|)
    && (forall k :: 0 <= k < |p| - 1 ==> ms[p[k + 1]].key in kept[p[k]])
  }

  ghost predicate Reach(ms: seq<RankedMove>, kept: seq<set<string>>, x: nat, y: nat) {
    exists p: seq<nat> :: p != [] && p[0] == x && p[|p| - 1] == y && KeptWalk(ms, kept, p)
  }

  lemma ReachSelf(ms: seq<RankedMove>, kept: seq<set<string>>, x: nat)
    requires x < |ms| && x < |kept|
    ensures Reach(ms, kept, x, x)
  {
    var p: seq<nat> := [x];
    assert p != [] && p[0] == x && p[|p| - 1] == x && KeptWalk(ms, kept, p);
  }

  lemma ReachMono(ms: seq<RankedMove>, kept: seq<set<string>>, kept': seq<set<string>>, x: nat, y: nat)
    requires |kept| == |kept'| && forall a :: 0 <= a < |kept| ==> kept[a] <= kept'[a]
    requires Reach(ms, kept, x, y)
    ensures Reach(ms, kept', x, y)
  {
    var p: seq<nat> :| p != [] && p[0] == x && p[|p| - 1] == y && KeptWalk(ms, kept, p);
    assert KeptWalk(ms, kept', p);
  }

  lemma ReachStep(ms: seq<RankedMove>, kept: seq<set<string>>, x: nat, y: nat, z: nat)
    requires x < |ms| && x < |kept| && y < |ms| && ms[y].key in kept[x] && Reach(ms, kept, y, z)
    ensures Reach(ms, kept, x, z)
  {
    var p: seq<nat> :| p != [] && p[0] == y && p[|p| - 1] == z && KeptWalk(ms, kept, p);
    var q := [x] + p;
    assert q != [] && q[0] == x && q[|q| - 1] == z && KeptWalk(ms, kept, q);
  }

  /** A removed reference d of x is justified: a move with key d is on the recursion stack or leads back to x. */
  ghost predicate Justified(ms: seq<RankedMove>, s: Search, s': Search, x: nat, d: string) {
    exists j: nat :: Blames(ms, s, s', x, d, j)
  }

  ghost predicate Blames(ms: seq<RankedMove>, s: Search, s': Search, x: nat, d: string, j: nat) {
    j < |ms| && j < |s.color| && ms[j].key == d && (s.color[j] == Gray || Reach(ms, s'.kept, j, x))
  }

  /** Every move that turned black between s and s' is reachable from one of `via`, and its removals are justified. */
  ghost predicate Explains(ms: seq<RankedMove>, s: Search, s': Search, via: set<nat>)
    requires Sized(ms, s) && Sized(ms, s')
  {
    forall x: nat :: x < |ms| && s.color[x] == White && s'.color[x] == Black ==>
      && (exists v :: v in via && Reach(ms, s'.kept, v, x))
      && (forall d :: d in s'.remove[x] ==> Justified(ms, s, s', x, d))
  }

  lemma ExplainsCompose(ms: seq<RankedMove>, s: Search, s': Search, s'': Search, via: set<nat>, via': set<nat>)
    requires Sized(ms, s) && Sized(ms, s') && Sized(ms, s'')
    requires Explains(ms, s, s', via) && Explains(ms, s', s'', via')
    requires Grew(s, s') && Grew(s', s'') && Untouched(s', s'')
    ensures Explains(ms, s, s'', via + via')
  {
    forall x: nat | x < |ms| && s.color[x] == White && s''.color[x] == Black
      ensures exists v :: v in via + via' && Reach(ms, s''.kept, v, x)
      ensures forall d :: d in s''.remove[x] ==> Justified(ms, s, s'', x, d)
    {
      if s'.color[x] == Black {
        var v :| v in via && Reach(ms, s'.kept, v, x);
        ReachMono(ms, s'.kept, s''.kept, v, x);
        forall d | d in s''.remove[x] ensures Justified(ms, s, s'', x, d) {
          assert Justified(ms, s, s', x, d);
          var j: nat :| Blames(ms, s, s', x, d, j);
          if s.color[j] != Gray { ReachMono(ms, s'.kept, s''.kept, j, x); }
          assert Blames(ms, s, s'', x, d, j);
        }
      } else {
        var v :| v in via' && Reach(ms, s''.kept, v, x);
        forall d | d in s''.remove[x] ensures Justified(ms, s, s'', x, d) {
          assert Justified(ms, s', s'', x, d);
          var j: nat :| Blames(ms, s', s'', x, d, j);
          assert Blames(ms, s, s'', x, d, j);
        }
      }
    }
  }

  /** Keeping the reference `dep` of move i attaches everything reached through its targets to i. */
  lemma ExplainsKeep(ms: seq<RankedMove>, s: Search, s': Search, s'': Search, i: nat, dep: string, via: set<nat>)
    requires Sized(ms, s) && Sized(ms, s') && i < |ms| && Explains(ms, s, s', via + {i})
    requires s'' == s'.(kept := s'.kept[i := s'.kept[i] + {dep}])
    requires forall v :: v in via ==> v < |ms| && ms[v].key == dep
    ensures Sized(ms, s'') && Explains(ms, s, s'', {i})
  {
    forall x: nat | x < |ms| && s.color[x] == White && s''.color[x] == Black
      ensures exists v :: v in {i} && Reach(ms, s''.kept, v, x)
      ensures forall d :: d in s''.remove[x] ==> Justified(ms, s, s'', x, d)
    {
      var v :| v in via + {i} && Reach(ms, s'.kept, v, x);
      ReachMono(ms, s'.kept, s''.kept, v, x);
      if v != i { ReachStep(ms, s''.kept, i, v, x); }
      assert i in {i};
      forall d | d in s''.remove[x] ensures Justified(ms, s, s'', x, d) {
        assert Justified(ms, s, s', x, d);
        var j: nat :| Blames(ms, s, s', x, d, j);
        if s.color[j] != Gray { ReachMono(ms, s'.kept, s''.kept, j, x); }
        assert Blames(ms, s, s'', x, d, j);
      }
    }
  }

  /** Finishing move i: whatever blamed i for being on the stack is now blamed on a walk from i. */
  lemma ExplainsFinish(ms: seq<RankedMove>, s: Search, g: Search, s': Search, s'': Search, i: nat)
    requires Sized(ms, s) && Sized(ms, s') && Sized(ms, s'') && i < |ms|
    requires s.color[i] == White && g == s.(color := s.color[i := Gray])
    requires Explains(ms, g, s', {i}) && s''.kept == s'.kept && s''.remove == s'.remove
    requires s'.color[i] == Gray && s''.color == s'.color[i := Black]
    requires forall d :: d in s'.remove[i] ==>
               d != ms[i].key && exists j: nat :: j < |ms| && ms[j].key == d && g.color[j] == Gray
    ensures Explains(ms, s, s'', {i})
  {
    forall x: nat | x < |ms| && s.color[x] == White && s''.color[x] == Black
      ensures exists v :: v in {i} && Reach(ms, s''.kept, v, x)
      ensures forall d :: d in s''.remove[x] ==> Justified(ms, s, s'', x, d)
    {
      assert i in {i};
      if x == i {
        ReachSelf(ms, s''.kept, i);
        forall d | d in s''.remove[x] ensures Justified(ms, s, s'', x, d) {
          var j: nat :| j < |ms| && ms[j].key == d && g.color[j] == Gray;
          assert Blames(ms, s, s'', x, d, j);
        }
      } else {
        assert g.color[x] == White && s'.color[x] == Black;
        var v :| v in {i} && Reach(ms, s'.kept, v, x);
        forall d | d in s''.remove[x] ensures Justified(ms, s, s'', x, d) {
          assert Justified(ms, g, s', x, d);
          var j: nat :| Blames(ms, g, s', x, d, j);
          assert Blames(ms, s, s'', x, d, j);
        }
      }
    }
  }

  ghost function Whites(color: seq<Color>): set<nat> {
    set x | 0 <= x < |color| && color[x] == White
  }

  ghost function Elements<T>(s: seq<T>): set<T> {
    set x | x in s
  }

  ghost predicate Resolved(ms: seq<RankedMove>) {
    forall i, d :: 0 <= i < |ms| && d in ms[i].dependsOn ==> Resolves(ms[i].key, Keys(ms), d)
  }

  /** Some move carrying the key is on the recursion stack. */
  ghost predicate OnStack(ms: seq<RankedMove>, s: Search, d: string) {
    exists j: nat :: j < |ms| && j < |s.color| && ms[j].key == d && s.color[j] == Gray
  }

  ghost predicate AllBlack(ms: seq<RankedMove>, s: Search, d: string)
    requires Sized(ms, s)
  {
    forall j :: 0 <= j < |ms| && ms[j].key == d ==> s.color[j] == Black
  }

  /** Progress of visiting move i, entered in state g (i already gray), after its first k references. */
  ghost predicate Visiting(ms: seq<RankedMove>, g: Search, s: Search, i: nat, k: nat) {
    && Inv(ms, s) && Sized(ms, g) && i < |ms| && k <= |ms[i].dependsOn|
    && s.color[i] == Gray
    && Grew(g, s)
    && (forall x :: 0 <= x < |ms| && x != i && g.color[x] != White ==>
          s.remove[x] == g.remove[x] && s.kept[x] == g.kept[x])
    && s.kept[i] + s.remove[i] == Elements(ms[i].dependsOn[..k])
    && (forall d :: d in s.kept[i] ==> AllBlack(ms, s, d))
    && (forall d :: d in s.remove[i] ==> OnStack(ms, g, d))
    && Explains(ms, g, s, {i})
  }

  lemma VisitStart(ms: seq<RankedMove>, s: Search, g: Search, i: nat)
    requires Inv(ms, s) && i < |ms| && s.color[i] == White
    requires forall a :: 0 <= a < i && ms[a].key == ms[i].key ==> s.color[a] != White
    requires g == s.(color := s.color[i := Gray])
    ensures Visiting(ms, g, g, i, 0) && Inv(ms, g) && Grew(g, g)
    ensures Whites(g.color) < Whites(s.color)
  {
    assert i in Whites(s.color) && i !in Whites(g.color);
  }

  lemma SetOfPrefix(deps: seq<string>, k: nat)
    requires k < |deps|
    ensures Elements(deps[..k + 1]) == Elements(deps[..k]) + {deps[k]}
  {
    assert deps[..k + 1] == deps[..k] + [deps[k]];
  }

  lemma ReferenceIndexed(ms: seq<RankedMove>, index: map<string, seq<nat>>, i: nat, k: nat)
    requires IsIndex(ms, index) && Resolved(ms) && i < |ms| && k < |ms[i].dependsOn|
    ensures ms[i].dependsOn[k] in index
  {
    IndexKeys(ms, index);
    assert ms[i].dependsOn[k] in ms[i].dependsOn;
  }

  lemma VisitSkip(ms: seq<RankedMove>, g: Search, s: Search, i: nat, k: nat)
    requires Visiting(ms, g, s, i, k) && k < |ms[i].dependsOn| && ms[i].dependsOn[k] in s.remove[i]
    ensures Visiting(ms, g, s, i, k + 1)
  {
    SetOfPrefix(ms[i].dependsOn, k);
  }

  lemma InvRemove(ms: seq<RankedMove>, s: Search, i: nat, dep: string, s': Search)
    requires Inv(ms, s) && i < |ms| && s.color[i] == Gray && dep in ms[i].dependsOn && dep !in s.kept[i]
    requires s' == s.(remove := s.remove[i := s.remove[i] + {dep}])
    ensures Inv(ms, s')
  {}

  lemma VisitRemove(ms: seq<RankedMove>, g: Search, s: Search, i: nat, k: nat, s': Search)
    requires Visiting(ms, g, s, i, k) && k < |ms[i].dependsOn|
    requires OnStack(ms, s, ms[i].dependsOn[k])
    requires s' == s.(remove := s.remove[i := s.remove[i] + {ms[i].dependsOn[k]}])
    ensures Visiting(ms, g, s', i, k + 1) && Inv(ms, s') && Grew(g, s')
  {
    hide Consistent, Explains;
    var dep := ms[i].dependsOn[k];
    SetOfPrefix(ms[i].dependsOn, k);
    var j: nat :| j < |ms| && ms[j].key == dep && s.color[j] == Gray;
    assert g.color[j] == Gray;
    assert OnStack(ms, g, dep);
    assert !AllBlack(ms, s, dep);
    InvRemove(ms, s, i, dep, s');
    ExplainsSameKept(ms, g, s, s', i);
  }

  lemma ExplainsSameKept(ms: seq<RankedMove>, g: Search, s: Search, s': Search, i: nat)
    requires Sized(ms, g) && Sized(ms, s) && Sized(ms, s') && Explains(ms, g, s, {i})
    requires i < |ms| && s.color[i] == Gray && s'.color == s.color && s'.kept == s.kept
    requires forall x :: 0 <= x < |ms| && x != i ==> s'.remove[x] == s.remove[x]
    ensures Explains(ms, g, s', {i})
  {
    forall x: nat, d | x < |ms| && g.color[x] == White && s'.color[x] == Black && d in s'.remove[x]
      ensures Justified(ms, g, s', x, d)
    {
      assert Justified(ms, g, s, x, d);
      var j: nat :| Blames(ms, g, s, x, d, j);
      assert Blames(ms, g, s', x, d, j);
    }
  }

  lemma InvKeep(ms: seq<RankedMove>, s: Search, i: nat, dep: string, s': Search)
    requires Inv(ms, s) && i < |ms| && s.color[i] == Gray && dep in ms[i].dependsOn && dep !in s.remove[i]
    requires s' == s.(kept := s.kept[i := s.kept[i] + {dep}])
    ensures Inv(ms, s')
  {
    assert i !in s.finished;
  }

  /** s is the state before the targets of reference k were scanned, t the state after. */
  lemma VisitKeep(ms: seq<RankedMove>, g: Search, s: Search, t: Search, i: nat, k: nat, via: set<nat>, s': Search)
    requires Visiting(ms, g, s, i, k) && k < |ms[i].dependsOn|
    requires Inv(ms, t) && Grew(s, t) && Untouched(s, t) && Explains(ms, s, t, via)
    requires forall v :: v in via ==> v < |ms| && ms[v].key == ms[i].dependsOn[k]
    requires ms[i].dependsOn[k] !in t.remove[i] && AllBlack(ms, t, ms[i].dependsOn[k])
    requires s' == t.(kept := t.kept[i := t.kept[i] + {ms[i].dependsOn[k]}])
    ensures Visiting(ms, g, s', i, k + 1) && Inv(ms, s') && Grew(g, s')
  {
    hide Consistent, Explains;
    var dep := ms[i].dependsOn[k];
    SetOfPrefix(ms[i].dependsOn, k);
    assert Explains(ms, g, s', {i}) by {
      ExplainsCompose(ms, g, s, t, {i}, via);
      assert {i} + via == via + {i};
      ExplainsKeep(ms, g, t, s', i, dep, via);
    }
    InvKeep(ms, t, i, dep, s');
    forall d | d in s'.kept[i] ensures AllBlack(ms, s', d) {
      if d != dep { assert AllBlack(ms, s, d); }
    }
    hide AllBlack, Explains;
    assert s'.kept[i] + s'.remove[i] == Elements(ms[i].dependsOn[..k + 1]);
  }

  lemma InvFinish(ms: seq<RankedMove>, s: Search, i: nat, s': Search)
    requires Inv(ms, s) && i < |ms| && s.color[i] == Gray
    requires s.kept[i] + s.remove[i] == Elements(ms[i].dependsOn)
    requires forall d :: d in s.kept[i] ==> AllBlack(ms, s, d)
    requires s' == s.(color := s.color[i := Black], finished := s.finished + [i])
    ensures Inv(ms, s')
  {
    forall q, j | 0 <= q < |s'.finished| && 0 <= j < |ms| && s'.finished[q] < |ms|
      && ms[j].key in s'.kept[s'.finished[q]]
      ensures j in s'.finished[..q]
    {
      if q < |s.finished| {
        assert s'.finished[q] == s.finished[q] && s'.finished[..q] == s.finished[..q];
      } else {
        assert AllBlack(ms, s, ms[j].key);
        assert s'.finished[..q] == s.finished;
      }
    }
    assert Topological(ms, s');
    hide Topological;
    assert forall x :: x in s'.finished <==> x in s.finished || x == i;
  }

  lemma VisitFinish(ms: seq<RankedMove>, s0: Search, g: Search, s: Search, i: nat, s': Search)
    requires Resolved(ms) && Inv(ms, s0) && i < |ms| && s0.color[i] == White
    requires g == s0.(color := s0.color[i := Gray])
    requires Visiting(ms, g, s, i, |ms[i].dependsOn|)
    requires s' == s.(color := s.color[i := Black], finished := s.finished + [i])
    ensures Inv(ms, s') && s'.color[i] == Black
    ensures Grew(s0, s') && Untouched(s0, s') && Explains(ms, s0, s', {i})
    ensures forall d :: d in s'.remove[i] ==> OnStack(ms, s0, d)
  {
    hide Consistent, Explains;
    var deps := ms[i].dependsOn;
    assert deps[..|deps|] == deps;
    InvFinish(ms, s, i, s');
    forall d | d in s.remove[i]
      ensures d != ms[i].key && exists j: nat :: j < |ms| && ms[j].key == d && g.color[j] == Gray
      ensures OnStack(ms, s0, d)
    {
      assert d in Elements(deps) && OnStack(ms, g, d);
    }
    ExplainsFinish(ms, s0, g, s, s', i);
  }

  // The search as a function of its state.

  ghost function Begun(s: Search, i: nat): Search
    requires i < |s.color|
  {
    s.(color := s.color[i := Gray])
  }

  ghost function Ended(s: Search, i: nat): Search
    requires i < |s.color|
  {
    s.(color := s.color[i := Black], finished := s.finished + [i])
  }

  /** Reference dep of move i was found to close a cycle, or not. */
  ghost function Noted(s: Search, i: nat, dep: string, backEdge: bool): Search
    requires i < |s.remove| && i < |s.kept|
  {
    if backEdge then s.(remove := s.remove[i := s.remove[i] + {dep}])
    else s.(kept := s.kept[i := s.kept[i] + {dep}])
  }

  /** Depth-first search from move i. */
  ghost function VisitMove(ms: seq<RankedMove>, s: Search, i: nat): (r: Search)
    requires Sized(ms, s) && i < |ms| && s.color[i] == White
    ensures Sized(ms, r) && Whites(r.color) <= Whites(s.color)
    decreases Whites(s.color), 0, 0
  {
    WhitesDrop(s.color, i);
    Ended(VisitReferences(ms, Begun(s, i), i, 0), i)
  }

  /** The references of move i from the k-th on. */
  ghost function VisitReferences(ms: seq<RankedMove>, s: Search, i: nat, k: nat): (r: Search)
    requires Sized(ms, s) && i < |ms| && k <= |ms[i].dependsOn|
    ensures Sized(ms, r) && Whites(r.color) <= Whites(s.color)
    decreases Whites(s.color), 2, |ms[i].dependsOn| - k
  {
    if k == |ms[i].dependsOn| then s
    else if ms[i].dependsOn[k] in s.remove[i] then VisitReferences(ms, s, i, k + 1)
    else
      var dep := ms[i].dependsOn[k];
      HoldersInRange(ms, dep);
      var (backEdge, t) := VisitTargets(ms, s, Holders(ms, dep), 0);
      VisitReferences(ms, Noted(t, i, dep, backEdge), i, k + 1)
  }

  /** The moves carrying one key from the t-th on: stops at the first that is on the stack. */
  ghost function VisitTargets(ms: seq<RankedMove>, s: Search, targets: seq<nat>, t: nat): (r: (bool, Search))
    requires Sized(ms, s) && t <= |targets| && forall u :: 0 <= u < |targets| ==> targets[u] < |ms|
    ensures Sized(ms, r.1) && Whites(r.1.color) <= Whites(s.color)
    decreases Whites(s.color), 1, |targets| - t
  {
    if t == |targets| then (false, s)
    else if s.color[targets[t]] == Gray then (true, s)
    else if s.color[targets[t]] == White then VisitTargets(ms, VisitMove(ms, s, targets[t]), targets, t + 1)
    else VisitTargets(ms, s, targets, t + 1)
  }

  /** The search from every move not yet discovered, from the i-th on. */
  ghost function VisitAll(ms: seq<RankedMove>, s: Search, i: nat): (r: Search)
    requires Sized(ms, s) && i <= |ms|
    ensures Sized(ms, r)
    decreases |ms| - i
  {
    if i == |ms| then s
    else VisitAll(ms, if s.color[i] == White then VisitMove(ms, s, i) else s, i + 1)
  }

  ghost function NewSearch(n: nat): (s: Search)
    ensures |s.color| == |s.remove| == |s.kept| == n
  {
    Search(seq(n, _ => White), seq(n, _ => {}), seq(n, _ => {}), [])
  }

  lemma HoldersInRange(ms: seq<RankedMove>, k: string)
    ensures forall u :: 0 <= u < |Holders(ms, k)| ==> Holders(ms, k)[u] < |ms|
  {
    HoldersProperties(ms, k);
    assert forall u :: 0 <= u < |Holders(ms, k)| ==> Holders(ms, k)[u] in Holders(ms, k);
  }

  // What the search establishes.

  lemma VisitFacts(ms: seq<RankedMove>, s: Search, i: nat)
    requires Resolved(ms) && Inv(ms, s) && i < |ms| && s.color[i] == White
    requires forall a :: 0 <= a < i && ms[a].key == ms[i].key ==> s.color[a] != White
    ensures var r := VisitMove(ms, s, i);
            Inv(ms, r) && r.color[i] == Black && Grew(s, r) && Untouched(s, r) && Explains(ms, s, r, {i})
    ensures forall d :: d in VisitMove(ms, s, i).remove[i] ==> OnStack(ms, s, d)
    decreases Whites(s.color), 0, 0
  {
    hide Consistent, Explains, Whites, Visiting, Resolved, AllBlack, OnStack, VisitReferences;
    var g := Begun(s, i);
    VisitStart(ms, s, g, i);
    ReferencesFacts(ms, g, g, i, 0);
    VisitFinish(ms, s, g, VisitReferences(ms, g, i, 0), i, VisitMove(ms, s, i));
  }

  lemma ReferencesFacts(ms: seq<RankedMove>, g: Search, s: Search, i: nat, k: nat)
    requires Resolved(ms) && Inv(ms, s) && i < |ms| && k <= |ms[i].dependsOn| && Visiting(ms, g, s, i, k)
    ensures Visiting(ms, g, VisitReferences(ms, s, i, k), i, |ms[i].dependsOn|)
    decreases Whites(s.color), 2, |ms[i].dependsOn| - k
  {
    if k < |ms[i].dependsOn| {
      var dep := ms[i].dependsOn[k];
      if dep in s.remove[i] {
        VisitSkip(ms, g, s, i, k);
        ReferencesFacts(ms, g, s, i, k + 1);
      } else {
        HoldersInRange(ms, dep);
        var targets := Holders(ms, dep);
        var (backEdge, t) := VisitTargets(ms, s, targets, 0);
        hide Consistent, Explains, Whites, Visiting, AllBlack, OnStack, VisitTargets, Holders;
        HoldersTargets(ms, dep);
        ScanStart(ms, s, dep, targets);
        TargetsFacts(ms, s, s, dep, targets, 0);
        ReferenceNoted(ms, g, s, t, i, k, targets, backEdge);
        WhitesShrink(s, t);
        ReferencesFacts(ms, g, Noted(t, i, dep, backEdge), i, k + 1);
      }
    }
  }

  lemma ReferenceNoted(ms: seq<RankedMove>, g: Search, s: Search, t: Search, i: nat, k: nat, targets: seq<nat>,
                       backEdge: bool)
    requires Visiting(ms, g, s, i, k) && k < |ms[i].dependsOn| && ms[i].dependsOn[k] !in s.remove[i]
    requires Targets(ms, ms[i].dependsOn[k], targets)
    requires Scanned(ms, s, t, ms[i].dependsOn[k], targets, backEdge)
    ensures Visiting(ms, g, Noted(t, i, ms[i].dependsOn[k], backEdge), i, k + 1)
    ensures Inv(ms, Noted(t, i, ms[i].dependsOn[k], backEdge))
  {
    hide Consistent, Explains, AllBlack, OnStack;
    if backEdge {
      VisitRemove(ms, g, s, i, k, Noted(t, i, ms[i].dependsOn[k], backEdge));
    } else {
      assert forall v :: v in Elements(targets) ==> v < |ms| && ms[v].key == ms[i].dependsOn[k];
      VisitKeep(ms, g, s, t, i, k, Elements<nat>(targets), Noted(t, i, ms[i].dependsOn[k], backEdge));
    }
  }

  /** The outcome of scanning the targets of one key. */
  ghost predicate Scanned(ms: seq<RankedMove>, s0: Search, r: Search, dep: string, targets: seq<nat>, backEdge: bool) {
    && Inv(ms, s0) && Inv(ms, r)
    && Grew(s0, r) && Untouched(s0, r) && Explains(ms, s0, r, Elements(targets))
    && (if backEdge then r == s0 && OnStack(ms, r, dep) else AllBlack(ms, r, dep))
  }

  lemma ScanningFacts(ms: seq<RankedMove>, s0: Search, s: Search, targets: seq<nat>, t: nat)
    requires Scanning(ms, s0, s, targets, t)
    ensures Sized(ms, s) && Inv(ms, s) && t <= |targets| && forall u :: 0 <= u < |targets| ==> targets[u] < |ms|
  {}

  lemma TargetsFacts(ms: seq<RankedMove>, s0: Search, s: Search, dep: string, targets: seq<nat>, t: nat)
    requires Resolved(ms) && Targets(ms, dep, targets) && Scanning(ms, s0, s, targets, t)
    ensures t <= |targets| && Sized(ms, s) && forall u :: 0 <= u < |targets| ==> targets[u] < |ms|
    ensures var r := VisitTargets(ms, s, targets, t); Scanned(ms, s0, r.1, dep, targets, r.0)
    decreases Whites(s.color), 1, |targets| - t
  {
    hide Scanning, Scanned, Inv, Consistent, Explains, Whites, Targets, Grew, Untouched, AllBlack, OnStack, Resolved,
         VisitMove;
    ScanningFacts(ms, s0, s, targets, t);
    if t == |targets| {
      ScanEnds(ms, s0, s, dep, targets);
    } else {
      var j := targets[t];
      TargetInRange(ms, dep, targets, t);
      if s.color[j] == Gray {
        ScanStops(ms, s0, s, dep, targets, t);
      } else if s.color[j] == White {
        ScanBeforeVisit(ms, s0, s, dep, targets, t);
        VisitFacts(ms, s, j);
        ScanAfterVisit(ms, s0, s, VisitMove(ms, s, j), dep, targets, t);
        TargetsFacts(ms, s0, VisitMove(ms, s, j), dep, targets, t + 1);
      } else {
        ScanBlack(ms, s0, s, dep, targets, t);
        TargetsFacts(ms, s0, s, dep, targets, t + 1);
      }
    }
  }

  lemma ScanEnds(ms: seq<RankedMove>, s0: Search, s: Search, dep: string, targets: seq<nat>)
    requires Targets(ms, dep, targets) && Scanning(ms, s0, s, targets, |targets|)
    ensures Scanned(ms, s0, s, dep, targets, false)
  {
    hide Explains, Consistent, Grew, Untouched, AllBlack;
    ScanDone(ms, s0, s, dep, targets);
  }

  lemma ScanStops(ms: seq<RankedMove>, s0: Search, s: Search, dep: string, targets: seq<nat>, t: nat)
    requires Targets(ms, dep, targets) && Scanning(ms, s0, s, targets, t) && t < |targets|
    requires s.color[targets[t]] == Gray
    ensures Scanned(ms, s0, s, dep, targets, true)
  {
    hide Explains, Consistent, Grew, Untouched;
    ScanGray(ms, s0, s, dep, targets, t);
  }

  /** Progress of the outer loop. */
  ghost predicate Sweeping(ms: seq<RankedMove>, s0: Search, s: Search, i: nat) {
    && Inv(ms, s) && Sized(ms, s0) && i <= |ms| && Grew(s0, s)
    && (forall x :: 0 <= x < |ms| ==> s0.color[x] == White)
    && (forall x :: 0 <= x < i ==> s.color[x] == Black)
    && Explains(ms, s0, s, Whites(s0.color))
  }

  lemma SweepVisit(ms: seq<RankedMove>, s0: Search, s: Search, i: nat)
    requires Resolved(ms) && Sweeping(ms, s0, s, i) && i < |ms| && s.color[i] == White
    ensures Sweeping(ms, s0, VisitMove(ms, s, i), i + 1)
  {
    hide Consistent, Explains, Resolved, Untouched;
    VisitFacts(ms, s, i);
    ExplainsCompose(ms, s0, s, VisitMove(ms, s, i), Whites(s0.color), {i});
    assert Whites(s0.color) + {i} == Whites(s0.color);
  }

  lemma SweepSkip(ms: seq<RankedMove>, s0: Search, s: Search, i: nat)
    requires Sweeping(ms, s0, s, i) && i < |ms| && s.color[i] != White
    ensures Sweeping(ms, s0, s, i + 1)
  {
    hide Consistent, Explains;
  }

  lemma SweepingFacts(ms: seq<RankedMove>, s0: Search, s: Search, i: nat)
    requires Sweeping(ms, s0, s, i)
    ensures Sized(ms, s) && i <= |ms|
  {}

  lemma {:induction false} AllFacts(ms: seq<RankedMove>, s0: Search, s: Search, i: nat)
    requires Resolved(ms) && Sweeping(ms, s0, s, i)
    ensures Sized(ms, s) && i <= |ms| && Sweeping(ms, s0, VisitAll(ms, s, i), |ms|)
    decreases |ms| - i
  {
    hide Sweeping, VisitMove, Resolved;
    SweepingFacts(ms, s0, s, i);
    if i < |ms| {
      if s.color[i] == White {
        SweepVisit(ms, s0, s, i);
        AllFacts(ms, s0, VisitMove(ms, s, i), i + 1);
      } else {
        SweepSkip(ms, s0, s, i);
        AllFacts(ms, s0, s, i + 1);
      }
    }
  }

  /** An earlier move reaches x through kept references. */
  ghost predicate ReachedEarlier(ms: seq<RankedMove>, kept: seq<set<string>>, x: nat) {
    exists y: nat :: y < x && Reach(ms, kept, y, x)
  }

  /** Only moves that an earlier move leads to have lost references: a move the outer loop starts from loses none. */
  ghost predicate Rooted(ms: seq<RankedMove>, s: Search)
    requires Sized(ms, s)
  {
    forall x: nat :: x < |ms| && s.remove[x] != {} ==> ReachedEarlier(ms, s.kept, x)
  }

  lemma RootKeepsAll(ms: seq<RankedMove>, s0: Search, s: Search, i: nat)
    requires Resolved(ms) && Sweeping(ms, s0, s, i) && i < |ms| && s.color[i] == White
    ensures VisitMove(ms, s, i).remove[i] == {}
  {
    hide Consistent, Explains, Resolved, Untouched, VisitMove;
    VisitFacts(ms, s, i);
  }

  lemma WhiteLostNothing(ms: seq<RankedMove>, s: Search, x: nat)
    requires Inv(ms, s) && x < |ms| && s.color[x] == White
    ensures s.remove[x] == {}
  {}

  lemma RootedMove(ms: seq<RankedMove>, s: Search, r: Search, i: nat, x: nat)
    requires Sized(ms, s) && Inv(ms, r) && Rooted(ms, s) && i < |ms| && x < |ms|
    requires Grew(s, r) && Untouched(s, r) && Explains(ms, s, r, {i})
    requires r.remove[i] == {} && forall a :: 0 <= a < i ==> s.color[a] == Black
    ensures r.remove[x] != {} ==> ReachedEarlier(ms, r.kept, x)
  {
    hide Consistent, Reach;
    if r.remove[x] != {} {
      if s.color[x] != White {
        var y: nat :| y < x && Reach(ms, s.kept, y, x);
        ReachMono(ms, s.kept, r.kept, y, x);
      } else if r.color[x] == White {
        WhiteLostNothing(ms, r, x);
      } else {
        assert Reach(ms, r.kept, i, x);
      }
    }
  }

  lemma RootedStep(ms: seq<RankedMove>, s0: Search, s: Search, i: nat)
    requires Resolved(ms) && Sweeping(ms, s0, s, i) && i < |ms| && s.color[i] == White && Rooted(ms, s)
    ensures Rooted(ms, VisitMove(ms, s, i))
  {
    hide Resolved, VisitMove, Consistent, Explains, ReachedEarlier, Grew, Untouched;
    var r := VisitMove(ms, s, i);
    SweepingFacts(ms, s0, s, i);
    SweptBlack(ms, s0, s, i);
    RootKeepsAll(ms, s0, s, i);
    VisitFacts(ms, s, i);
    forall x: nat | x < |ms| && r.remove[x] != {} ensures ReachedEarlier(ms, r.kept, x) {
      RootedMove(ms, s, r, i, x);
    }
  }

  lemma SweptBlack(ms: seq<RankedMove>, s0: Search, s: Search, i: nat)
    requires Sweeping(ms, s0, s, i)
    ensures Inv(ms, s) && forall a :: 0 <= a < i ==> s.color[a] == Black
  {}

  lemma {:induction false} RootedAll(ms: seq<RankedMove>, s0: Search, s: Search, i: nat)
    requires Resolved(ms) && Sweeping(ms, s0, s, i) && Sized(ms, s) && i <= |ms| && Rooted(ms, s)
    ensures Rooted(ms, VisitAll(ms, s, i))
    decreases |ms| - i
  {
    hide Sweeping, VisitMove, Resolved, Rooted;
    if i < |ms| {
      if s.color[i] == White {
        RootedStep(ms, s0, s, i);
        SweepVisit(ms, s0, s, i);
        RootedAll(ms, s0, VisitMove(ms, s, i), i + 1);
      } else {
        SweepSkip(ms, s0, s, i);
        RootedAll(ms, s0, s, i + 1);
      }
    }
  }

  // The references of a move are searched in their order.

  lemma {:induction false} ReferencesUntouched(ms: seq<RankedMove>, g: Search, s: Search, i: nat, k: nat, x: nat)
    requires Resolved(ms) && Inv(ms, s) && i < |ms| && k <= |ms[i].dependsOn| && Visiting(ms, g, s, i, k)
    requires x < |ms| && x != i && s.color[x] != White
    ensures VisitReferences(ms, s, i, k).remove[x] == s.remove[x] && VisitReferences(ms, s, i, k).color[x] == s.color[x]
    decreases |ms[i].dependsOn| - k
  {
    if k < |ms[i].dependsOn| {
      var dep := ms[i].dependsOn[k];
      if dep in s.remove[i] {
        VisitSkip(ms, g, s, i, k);
        ReferencesUntouched(ms, g, s, i, k + 1, x);
      } else {
        HoldersInRange(ms, dep);
        var targets := Holders(ms, dep);
        var (backEdge, t) := VisitTargets(ms, s, targets, 0);
        hide Consistent, Explains, Whites, Visiting, AllBlack, OnStack, VisitTargets, Holders, Resolved;
        HoldersTargets(ms, dep);
        ScanStart(ms, s, dep, targets);
        TargetsFacts(ms, s, s, dep, targets, 0);
        ReferenceNoted(ms, g, s, t, i, k, targets, backEdge);
        ReferencesUntouched(ms, g, Noted(t, i, dep, backEdge), i, k + 1, x);
      }
    }
  }

  lemma {:induction false} AllUntouched(ms: seq<RankedMove>, s0: Search, s: Search, i: nat, x: nat)
    requires Resolved(ms) && Sweeping(ms, s0, s, i) && Sized(ms, s) && i <= |ms| && x < |ms| && s.color[x] != White
    ensures VisitAll(ms, s, i).remove[x] == s.remove[x]
    decreases |ms| - i
  {
    hide VisitMove, Resolved, Consistent, Explains;
    if i < |ms| {
      if s.color[i] == White {
        SweepVisit(ms, s0, s, i);
        VisitFacts(ms, s, i);
        AllUntouched(ms, s0, VisitMove(ms, s, i), i + 1, x);
      } else {
        SweepSkip(ms, s0, s, i);
        AllUntouched(ms, s0, s, i + 1, x);
      }
    }
  }

  /** The first reference of the first move, and the one move that carries it. */
  ghost predicate FirstTarget(ms: seq<RankedMove>, h: nat) {
    Resolved(ms) && ms != [] && ms[0].dependsOn != [] && Holders(ms, ms[0].dependsOn[0]) == [h]
  }

  lemma {:induction false} FirstTargetIsWhite(ms: seq<RankedMove>, g: Search, h: nat)
    requires FirstTarget(ms, h) && Sized(ms, g) && g == Begun(NewSearch(|ms|), 0)
    ensures 0 < h < |ms| && g.color[h] == White
    ensures forall a :: 0 <= a < h && ms[a].key == ms[h].key ==> g.color[a] != White
  {
    HoldersProperties(ms, ms[0].dependsOn[0]);
    assert h in [h] && ms[0].dependsOn[0] in ms[0].dependsOn;
  }

  /** The search goes to the first reference first, with nothing but the first move on the stack. */
  lemma {:induction false} FirstTargetVisited(ms: seq<RankedMove>, g: Search, h: nat)
    requires FirstTarget(ms, h) && Sized(ms, g) && g == Begun(NewSearch(|ms|), 0)
    requires Inv(ms, g) && Visiting(ms, g, g, 0, 0)
    ensures h < |ms| && h != 0
    ensures forall d :: d in VisitReferences(ms, g, 0, 0).remove[h] ==> d == ms[0].key
    ensures VisitReferences(ms, g, 0, 0).color[h] != White
  {
    hide Consistent, Explains, Whites, Visiting, VisitMove, Resolved, AllBlack;
    FirstTargetIsWhite(ms, g, h);
    var dep := ms[0].dependsOn[0];
    HoldersTargets(ms, dep);
    ScanStart(ms, g, dep, [h]);
    TargetsFacts(ms, g, g, dep, [h], 0);
    VisitFacts(ms, g, h);
    var t := VisitMove(ms, g, h);
    assert VisitTargets(ms, g, [h], 0) == (false, t);
    ReferenceNoted(ms, g, g, t, 0, 0, [h], false);
    var noted := Noted(t, 0, dep, false);
    VisitingInv(ms, g, noted, 0, 1);
    ReferencesUntouched(ms, g, noted, 0, 1, h);
  }

  lemma VisitingInv(ms: seq<RankedMove>, g: Search, s: Search, i: nat, k: nat)
    requires Visiting(ms, g, s, i, k)
    ensures Inv(ms, s) && Grew(g, s)
  {}

  lemma {:induction false} FirstTargetKept(ms: seq<RankedMove>, h: nat)
    requires FirstTarget(ms, h)
    ensures h < |ms| && forall d :: d in VisitAll(ms, NewSearch(|ms|), 0).remove[h] ==> d == ms[0].key
  {
    hide Consistent, Explains, Whites, Visiting, VisitReferences, Resolved;
    var s := NewSearch(|ms|);
    var g := Begun(s, 0);
    SearchStart(ms);
    VisitStart(ms, s, g, 0);
    FirstTargetVisited(ms, g, h);
    SweepVisit(ms, s, s, 0);
    AllUntouched(ms, s, VisitMove(ms, s, 0), 1, h);
  }

  /** The cycle-breaking search over the cleaned moves. */
  class CycleBreaker {
    const ms: seq<RankedMove>
    const index: map<string, seq<nat>>
    var color: seq<Color>
    var remove: seq<set<string>>
    ghost var kept: seq<set<string>>
    ghost var finished: seq<nat>

    ghost function State(): Search
      reads this
    {
      Search(color, remove, kept, finished)
    }

    ghost predicate Valid()
      reads this
    {
      IsIndex(ms, index) && Resolved(ms) && Sized(ms, State())
    }

    constructor (ms: seq<RankedMove>, index: map<string, seq<nat>>)
      requires IsIndex(ms, index) && Resolved(ms)
      ensures Valid() && this.ms == ms && this.index == index && State() == NewSearch(|ms|)
    {
      this.ms := ms;
      this.index := index;
      color := seq(|ms|, _ => White);
      remove := seq(|ms|, _ => {});
      kept := seq(|ms|, _ => {});
      finished := [];
    }

    method Visit(i: nat)
      requires Valid() && i < |ms| && color[i] == White
      modifies this
      decreases Whites(color), 0
      ensures Valid() && State() == VisitMove(ms, old(State()), i)
    {
      hide IsIndex, Resolved, Whites, VisitTargets, Holders;
      WhitesDrop(color, i);
      color := color[i := Gray];
      ghost var g := State();
      var deps := ms[i].dependsOn;
      for k := 0 to |deps|
        invariant Valid() && Whites(color) <= Whites(g.color)
        invariant VisitReferences(ms, State(), i, k) == VisitReferences(ms, g, i, 0)
      {
        var dep := deps[k];
        if dep in remove[i] {
          continue;
        }
        ReferenceIndexed(ms, index, i, k);
        var backEdge := ScanTargets(dep);
        if backEdge {
          remove := remove[i := remove[i] + {dep}];
        } else {
          kept := kept[i := kept[i] + {dep}];
        }
      }
      color := color[i := Black];
      finished := finished + [i];
    }

    /** The inner loop over the moves carrying one key; stops at the first that is on the stack. */
    method ScanTargets(dep: string) returns (backEdge: bool)
      requires Valid() && dep in index
      modifies this
      decreases Whites(color), 1
      ensures Valid() && Whites(color) <= Whites(old(color))
      ensures forall u :: 0 <= u < |Holders(ms, dep)| ==> Holders(ms, dep)[u] < |ms|
      ensures (backEdge, State()) == VisitTargets(ms, old(State()), Holders(ms, dep), 0)
    {
      hide Whites, Holders, VisitMove, Resolved;
      ghost var s0 := State();
      var targets := index[dep];
      HoldersInRange(ms, dep);
      var t := 0;
      while t < |targets|
        invariant t <= |targets| && Valid() && Whites(color) <= Whites(s0.color)
        invariant VisitTargets(ms, State(), targets, t) == VisitTargets(ms, s0, targets, 0)
      {
        var j := targets[t];
        if color[j] == Gray {
          return true;
        }
        if color[j] == White {
          Visit(j);
        }
        t := t + 1;
      }
      return false;
    }
  }

  /** The moves carrying `dep`, in ascending order. */
  ghost predicate Targets(ms: seq<RankedMove>, dep: string, targets: seq<nat>) {
    && (forall j: nat :: j in targets <==> j < |ms| && ms[j].key == dep)
    && (forall t, u :: 0 <= t < u < |targets| ==> targets[t] < targets[u])
  }

  /** Progress of scanning: the first t targets are finished, and unless nothing was visited no later one is on the
      stack. */
  ghost predicate Scanning(ms: seq<RankedMove>, s0: Search, s: Search, targets: seq<nat>, t: nat) {
    && Inv(ms, s0) && Inv(ms, s) && t <= |targets|
    && (forall u :: 0 <= u < |targets| ==> targets[u] < |ms|)
    && Grew(s0, s) && Untouched(s0, s)
    && (forall u :: 0 <= u < t ==> s.color[targets[u]] == Black)
    && (s == s0 || forall u :: t <= u < |targets| ==> s.color[targets[u]] != Gray)
    && Explains(ms, s0, s, Elements(targets))
  }

  lemma HoldersTargets(ms: seq<RankedMove>, dep: string)
    ensures Targets(ms, dep, Holders(ms, dep))
  {
    HoldersProperties(ms, dep);
  }

  lemma TargetInRange(ms: seq<RankedMove>, dep: string, targets: seq<nat>, t: nat)
    requires Targets(ms, dep, targets) && t < |targets|
    ensures targets[t] < |ms| && ms[targets[t]].key == dep
  {
    assert targets[t] in targets;
  }

  lemma ScanStart(ms: seq<RankedMove>, s: Search, dep: string, targets: seq<nat>)
    requires Inv(ms, s) && Targets(ms, dep, targets)
    ensures Scanning(ms, s, s, targets, 0)
  {
    forall u | 0 <= u < |targets| ensures targets[u] < |ms| { TargetInRange(ms, dep, targets, u); }
  }

  /** A target on the stack is found before anything was visited. */
  lemma ScanGray(ms: seq<RankedMove>, s0: Search, s: Search, dep: string, targets: seq<nat>, t: nat)
    requires Targets(ms, dep, targets) && Scanning(ms, s0, s, targets, t) && t < |targets|
    requires s.color[targets[t]] == Gray
    ensures s == s0 && OnStack(ms, s, dep)
    ensures Grew(s0, s) && Untouched(s0, s) && Explains(ms, s0, s, Elements(targets))
  {
    hide Explains, Consistent;
    TargetInRange(ms, dep, targets, t);
  }

  lemma ScanBlack(ms: seq<RankedMove>, s0: Search, s: Search, dep: string, targets: seq<nat>, t: nat)
    requires Targets(ms, dep, targets) && Scanning(ms, s0, s, targets, t) && t < |targets|
    requires s.color[targets[t]] == Black
    ensures Scanning(ms, s0, s, targets, t + 1)
  {
    hide Explains, Consistent;
  }

  lemma ScanBeforeVisit(ms: seq<RankedMove>, s0: Search, s: Search, dep: string, targets: seq<nat>, t: nat)
    requires Targets(ms, dep, targets) && Scanning(ms, s0, s, targets, t) && t < |targets|
    requires s.color[targets[t]] == White
    ensures forall a :: 0 <= a < targets[t] && ms[a].key == ms[targets[t]].key ==> s.color[a] != White
    ensures Whites(s.color) <= Whites(s0.color)
  {
    hide Explains, Consistent;
    TargetInRange(ms, dep, targets, t);
    WhitesShrink(s0, s);
    forall a | 0 <= a < targets[t] && ms[a].key == ms[targets[t]].key ensures s.color[a] != White {
      assert a in targets;
      var u :| 0 <= u < |targets| && targets[u] == a;
      assert u < t;
    }
  }

  lemma ScanAfterVisit(ms: seq<RankedMove>, s0: Search, s: Search, s': Search, dep: string, targets: seq<nat>, t: nat)
    requires Targets(ms, dep, targets) && Scanning(ms, s0, s, targets, t) && t < |targets|
    requires s.color[targets[t]] == White && Inv(ms, s') && s'.color[targets[t]] == Black
    requires Grew(s, s') && Untouched(s, s') && Explains(ms, s, s', {targets[t]})
    ensures Scanning(ms, s0, s', targets, t + 1)
  {
    hide Explains, Consistent;
    var j := targets[t];
    TargetInRange(ms, dep, targets, t);
    forall u | t < u < |targets| ensures s'.color[targets[u]] != Gray {
      TargetInRange(ms, dep, targets, u);
      LaterAreWhite(ms, s, j, targets[u]);
    }
    ExplainsCompose(ms, s0, s, s', Elements(targets), {j});
    assert Elements(targets) + {j} == Elements(targets);
  }

  lemma ScanDone(ms: seq<RankedMove>, s0: Search, s: Search, dep: string, targets: seq<nat>)
    requires Targets(ms, dep, targets) && Scanning(ms, s0, s, targets, |targets|)
    ensures AllBlack(ms, s, dep)
    ensures Grew(s0, s) && Untouched(s0, s) && Explains(ms, s0, s, Elements(targets))
  {
    hide Explains, Consistent;
    forall j | 0 <= j < |ms| && ms[j].key == dep ensures s.color[j] == Black {
      assert j in targets;
    }
  }

  lemma LaterAreWhite(ms: seq<RankedMove>, s: Search, a: nat, b: nat)
    requires Inv(ms, s) && a < b < |ms| && ms[a].key == ms[b].key && s.color[a] == White
    ensures s.color[b] == White
  {}

  lemma WhitesDrop(color: seq<Color>, i: nat)
    requires i < |color| && color[i] == White
    ensures Whites(color[i := Gray]) < Whites(color)
  {
    assert i in Whites(color) && i !in Whites(color[i := Gray]);
  }

  lemma WhitesShrink(s: Search, s': Search)
    requires Grew(s, s')
    ensures Whites(s'.color) <= Whites(s.color)
  {}

  // ---------------------------------------------------------------- acyclicity from a finishing order

  ghost function First(order: seq<nat>, x: nat): (q: nat)
    requires x in order
    ensures q < |order| && order[q] == x && x !in order[..q]
  {
    if order[0] == x then 0
    else
      assert x in order[1..];
      assert forall q :: 0 < q <= |order| ==> order[..q] == [order[0]] + order[1..][..q - 1];
      1 + First(order[1..], x)
  }

  lemma {:induction false} FirstAtMost(order: seq<nat>, r: nat)
    requires r < |order|
    ensures First(order, order[r]) <= r
  {
    if order[0] != order[r] {
      FirstAtMost(order[1..], r - 1);
    }
  }

  /** Each listed move's edges lead to moves listed earlier. */
  ghost predicate Descending(ms: seq<RankedMove>, order: seq<nat>) {
    forall q, j: nat :: 0 <= q < |order| && Edge(ms, order[q], j) ==> j in order[..q]
  }

  lemma {:induction false} WalkDescends(ms: seq<RankedMove>, order: seq<nat>, p: seq<nat>)
    requires Descending(ms, order) && |p| >= 2 && Walk(ms, p) && p[0] in order
    ensures p[|p| - 1] in order && First(order, p[|p| - 1]) < First(order, p[0])
  {
    var n := |p|;
    if n > 2 {
      WalkDescends(ms, order, p[..n - 1]);
    }
    assert Edge(ms, p[n - 2], p[n - 1]);
    var q := First(order, p[n - 2]);
    assert p[n - 1] in order[..q];
    var r :| 0 <= r < q && order[..q][r] == p[n - 1];
    FirstAtMost(order, r);
  }

  lemma FinishingOrderAcyclic(ms: seq<RankedMove>, order: seq<nat>)
    requires Descending(ms, order) && forall x: nat :: x < |ms| ==> x in order
    ensures !Cyclic(ms)
  {
    forall p | ClosedWalk(ms, p) ensures false {
      assert Edge(ms, p[0], p[1]);
      WalkDescends(ms, order, p);
    }
  }

  lemma NoEdgesAcyclic(ms: seq<RankedMove>)
    requires forall i: nat, j: nat :: !Edge(ms, i, j)
    ensures !Cyclic(ms)
  {
    var order: seq<nat> := seq(|ms|, i => i);
    forall x: nat | x < |ms| ensures x in order {
      assert order[x] == x;
    }
    FinishingOrderAcyclic(ms, order);
  }

  // ---------------------------------------------------------------- SanitizeMoveGraph

  /** The references of deps that are in `keep`, in order. */
  ghost function Only(deps: seq<string>, keep: set<string>): seq<string> {
    if deps == [] then []
    else Only(deps[..|deps| - 1], keep) + (if deps[|deps| - 1] in keep then [deps[|deps| - 1]] else [])
  }

  lemma {:induction false} OnlyMembers(deps: seq<string>, keep: set<string>, d: string)
    ensures d in Only(deps, keep) <==> d in deps && d in keep
  {
    if deps != [] {
      OnlyMembers(deps[..|deps| - 1], keep, d);
      assert deps == deps[..|deps| - 1] + [deps[|deps| - 1]];
    }
  }

  lemma {:induction false} OnlyDistinct(deps: seq<string>, keep: set<string>)
    requires NoDuplicates(deps)
    ensures NoDuplicates(Only(deps, keep))
  {
    if deps != [] {
      var last := deps[|deps| - 1];
      OnlyDistinct(deps[..|deps| - 1], keep);
      OnlyMembers(deps[..|deps| - 1], keep, last);
    }
  }

  lemma {:induction false} OnlyEverything(deps: seq<string>, keep: set<string>)
    requires forall d :: d in deps ==> d in keep
    ensures Only(deps, keep) == deps
  {
    if deps != [] {
      OnlyEverything(deps[..|deps| - 1], keep);
    }
  }

  lemma {:induction false} OnlySame(deps: seq<string>, keep: set<string>, keep': set<string>)
    requires forall d :: d in deps ==> (d in keep <==> d in keep')
    ensures Only(deps, keep) == Only(deps, keep')
  {
    if deps != [] {
      OnlySame(deps[..|deps| - 1], keep, keep');
    }
  }

  /** The same moves in the same order, each with some of its cleaned references in their original order. */
  ghost predicate Thins(moves: seq<RankedMove>, out: seq<RankedMove>) {
    && |out| == |moves|
    && forall i :: 0 <= i < |out| ==>
         && out[i] == moves[i].(dependsOn := out[i].dependsOn)
         && out[i].dependsOn == Only(Cleaned(moves)[i].dependsOn, Elements(out[i].dependsOn))
  }

  ghost function WithReference(ms: seq<RankedMove>, i: nat, d: string): seq<RankedMove>
    requires i < |ms|
  {
    ms[i := ms[i].(dependsOn := ms[i].dependsOn + [d])]
  }

  /** Every cleaned reference that was dropped would close a cycle of surviving references if put back. */
  ghost predicate Maximal(moves: seq<RankedMove>, out: seq<RankedMove>)
    requires |out| == |moves|
  {
    forall i, d :: 0 <= i < |out| && d in Cleaned(moves)[i].dependsOn && d !in out[i].dependsOn ==>
      Cyclic(WithReference(out, i, d))
  }

  ghost predicate Sanitized(moves: seq<RankedMove>, out: seq<RankedMove>) {
    Thins(moves, out) && ValidDag(out) && Maximal(moves, out)
  }

  lemma CleanedFacts(moves: seq<RankedMove>)
    ensures Keys(Cleaned(moves)) == Keys(moves) && Resolved(Cleaned(moves))
    ensures forall i :: 0 <= i < |moves| ==> NoDuplicates(Cleaned(moves)[i].dependsOn)
  {
    var clean := Cleaned(moves);
    KeysSame(moves, clean);
    forall i | 0 <= i < |moves|
      ensures NoDuplicates(clean[i].dependsOn)
      ensures forall d :: d in clean[i].dependsOn ==> Resolves(clean[i].key, Keys(clean), d)
    {
      CleanProperties(moves[i].key, moves[i].dependsOn, Keys(moves));
    }
  }

  lemma KeysSame(ms: seq<RankedMove>, ms': seq<RankedMove>)
    requires |ms| == |ms'| && forall i :: 0 <= i < |ms| ==> ms[i].key == ms'[i].key
    ensures Keys(ms) == Keys(ms')
  {
    forall k ensures k in Keys(ms) <==> k in Keys(ms') {
      if k in Keys(ms) {
        var i :| 0 <= i < |ms| && ms[i].key != "" && ms[i].key == k;
        assert ms'[i].key == k;
      }
      if k in Keys(ms') {
        var i :| 0 <= i < |ms'| && ms'[i].key != "" && ms'[i].key == k;
        assert ms[i].key == k;
      }
    }
  }

  lemma {:induction false} HoldersSame(ms: seq<RankedMove>, ms': seq<RankedMove>, k: string)
    requires |ms| == |ms'| && forall i :: 0 <= i < |ms| ==> ms[i].key == ms'[i].key
    ensures Holders(ms, k) == Holders(ms', k)
  {
    if ms != [] {
      HoldersSame(ms[..|ms| - 1], ms'[..|ms'| - 1], k);
    }
  }

  lemma CleanedIndex(moves: seq<RankedMove>, index: map<string, seq<nat>>)
    requires IsIndex(moves, index)
    ensures IsIndex(Cleaned(moves), index)
  {
    forall k ensures Holders(Cleaned(moves), k) == Holders(moves, k) {
      HoldersSame(moves, Cleaned(moves), k);
    }
  }

  method RemoveReferences(deps: seq<string>, drop: set<string>) returns (kept: seq<string>)
    ensures kept == Only(deps, Elements(deps) - drop)
  {
    kept := [];
    for k := 0 to |deps|
      invariant kept == Only(deps[..k], Elements(deps) - drop)
    {
      assert deps[..k + 1][..k] == deps[..k];
      assert deps[k] in Elements(deps);
      if deps[k] !in drop {
        kept := kept + [deps[k]];
      }
    }
    assert deps[..|deps|] == deps;
  }

  ghost function Stripped(ms: seq<RankedMove>, remove: seq<set<string>>, x: nat): RankedMove
    requires x < |ms| && x < |remove|
  {
    ms[x].(dependsOn := Only(ms[x].dependsOn, Elements(ms[x].dependsOn) - remove[x]))
  }

  /** What the finished search established about the stripped moves. */
  ghost predicate Outcome(clean: seq<RankedMove>, s: Search, out: seq<RankedMove>) {
    && Inv(clean, s) && |out| == |clean| && Resolved(clean)
    && (forall x :: 0 <= x < |clean| ==> s.color[x] == Black)
    && (forall x :: 0 <= x < |clean| ==> NoDuplicates(clean[x].dependsOn))
    && (forall x :: 0 <= x < |clean| ==> out[x] == Stripped(clean, s.remove, x))
  }

  lemma OutcomeReferences(clean: seq<RankedMove>, s: Search, out: seq<RankedMove>, x: nat)
    requires Outcome(clean, s, out) && x < |clean|
    ensures Elements(out[x].dependsOn) == s.kept[x] && NoDuplicates(out[x].dependsOn)
    ensures Elements(clean[x].dependsOn) == s.kept[x] + s.remove[x] && out[x].key == clean[x].key
    ensures out[x].dependsOn == Only(clean[x].dependsOn, Elements(out[x].dependsOn))
  {
    var deps := clean[x].dependsOn;
    OnlyDistinct(deps, Elements(deps) - s.remove[x]);
    assert s.color[x] == Black;
    forall d ensures d in out[x].dependsOn <==> d in s.kept[x] {
      OnlyMembers(deps, Elements(deps) - s.remove[x], d);
    }
    assert Elements(out[x].dependsOn) == s.kept[x];
    OnlySame(deps, Elements(deps) - s.remove[x], s.kept[x]);
  }

  lemma OutcomeEdge(clean: seq<RankedMove>, s: Search, out: seq<RankedMove>, a: nat, b: nat)
    requires Outcome(clean, s, out) && a < |clean| && b < |clean|
    ensures Edge(out, a, b) <==> clean[b].key in s.kept[a]
  {
    OutcomeReferences(clean, s, out, a);
    OutcomeReferences(clean, s, out, b);
    assert clean[b].key in s.kept[a] ==> clean[b].key in Elements(clean[a].dependsOn);
    assert clean[b].key in Elements(out[a].dependsOn) <==> clean[b].key in out[a].dependsOn;
  }

  lemma OutcomeValid(clean: seq<RankedMove>, s: Search, out: seq<RankedMove>)
    requires Outcome(clean, s, out)
    ensures ValidDag(out)
  {
    forall x | 0 <= x < |clean|
      ensures out[x].key == clean[x].key && NoDuplicates(out[x].dependsOn)
      ensures forall d :: d in out[x].dependsOn ==> d in clean[x].dependsOn
    {
      OutcomeReferences(clean, s, out, x);
      assert forall d :: d in out[x].dependsOn ==> d in Elements(out[x].dependsOn) && d in Elements(clean[x].dependsOn);
    }
    KeysSame(clean, out);
    forall q, j: nat | 0 <= q < |s.finished| && Edge(out, s.finished[q], j) ensures j in s.finished[..q] {
      OutcomeEdge(clean, s, out, s.finished[q], j);
    }
    forall x: nat | x < |out| ensures x in s.finished {
      assert s.color[x] == Black;
    }
    FinishingOrderAcyclic(out, s.finished);
  }

  lemma OutcomeMaximal(clean: seq<RankedMove>, s0: Search, s: Search, out: seq<RankedMove>, i: nat, d: string)
    requires Outcome(clean, s, out) && Sized(clean, s0) && Explains(clean, s0, s, Whites(s0.color))
    requires forall x :: 0 <= x < |clean| ==> s0.color[x] == White
    requires i < |clean| && d in clean[i].dependsOn && d !in out[i].dependsOn
    ensures Cyclic(WithReference(out, i, d))
  {
    hide Consistent, Explains;
    OutcomeReferences(clean, s, out, i);
    assert d in Elements(clean[i].dependsOn) && d !in Elements(out[i].dependsOn);
    assert d in s.remove[i];
    ExplainedRemoval(clean, s0, s, i, d);
    var j: nat :| j < |clean| && clean[j].key == d && Reach(clean, s.kept, j, i);
    var p: seq<nat> :| p != [] && p[0] == j && p[|p| - 1] == i && KeptWalk(clean, s.kept, p);
    assert d in Elements(clean[i].dependsOn) && Resolves(clean[i].key, Keys(clean), d);
    OutcomeReferences(clean, s, out, j);
    KeptWalkSurvives(clean, s, out, p);
    PutBackCloses(out, i, d, j, p);
  }

  lemma KeptWalkSurvives(clean: seq<RankedMove>, s: Search, out: seq<RankedMove>, p: seq<nat>)
    requires Outcome(clean, s, out) && KeptWalk(clean, s.kept, p)
    ensures Walk(out, p)
  {
    hide Consistent;
    forall k | 0 <= k < |p| - 1 ensures Edge(out, p[k], p[k + 1]) {
      OutcomeEdge(clean, s, out, p[k], p[k + 1]);
    }
  }

  lemma PutBackCloses(out: seq<RankedMove>, i: nat, d: string, j: nat, p: seq<nat>)
    requires i < |out| && j < |out| && out[j].key == d && d != "" && d != out[i].key
    requires p != [] && p[0] == j && p[|p| - 1] == i && Walk(out, p)
    ensures Cyclic(WithReference(out, i, d))
  {
    var back, c := WithReference(out, i, d), [i] + p;
    assert d in back[i].dependsOn && back[j].key == d;
    forall k | 0 <= k < |c| - 1 ensures Edge(back, c[k], c[k + 1]) {
      if k > 0 {
        assert Edge(out, p[k - 1], p[k]);
      }
    }
    assert ClosedWalk(back, c);
  }

  lemma ExplainedRemoval(ms: seq<RankedMove>, s0: Search, s: Search, i: nat, d: string)
    requires Sized(ms, s0) && Sized(ms, s) && Explains(ms, s0, s, Whites(s0.color)) && i < |ms|
    requires forall x :: 0 <= x < |ms| ==> s0.color[x] == White
    requires s.color[i] == Black && d in s.remove[i]
    ensures exists j: nat :: j < |ms| && ms[j].key == d && Reach(ms, s.kept, j, i)
  {
    assert Justified(ms, s0, s, i, d);
    var j: nat :| Blames(ms, s0, s, i, d, j);
  }

  method CleanAll(moves: seq<RankedMove>, index: map<string, seq<nat>>) returns (clean: seq<RankedMove>)
    requires IsIndex(moves, index)
    ensures clean == Cleaned(moves)
  {
    IndexKeys(moves, index);
    clean := [];
    for i := 0 to |moves|
      invariant clean == Cleaned(moves)[..i]
    {
      var kept := CleanReferences(moves[i].key, moves[i].dependsOn, index);
      clean := clean + [moves[i].(dependsOn := kept)];
    }
  }

  method BreakCycles(clean: seq<RankedMove>, index: map<string, seq<nat>>) returns (remove: seq<set<string>>)
    requires IsIndex(clean, index) && Resolved(clean)
    ensures remove == VisitAll(clean, NewSearch(|clean|), 0).remove
  {
    hide IsIndex, Resolved, VisitMove;
    var search := new CycleBreaker(clean, index);
    for i := 0 to |clean|
      invariant search.Valid() && search.ms == clean && search.index == index
      invariant VisitAll(clean, search.State(), i) == VisitAll(clean, NewSearch(|clean|), 0)
    {
      if search.color[i] == White {
        search.Visit(i);
      }
    }
    remove := search.remove;
  }

  lemma SearchStart(ms: seq<RankedMove>)
    ensures var s := NewSearch(|ms|);
            Sweeping(ms, s, s, 0)
  {}

  method StripAll(clean: seq<RankedMove>, remove: seq<set<string>>) returns (out: seq<RankedMove>)
    requires |remove| == |clean|
    ensures |out| == |clean| && forall x :: 0 <= x < |clean| ==> out[x] == Stripped(clean, remove, x)
  {
    hide Only;
    out := clean;
    for i := 0 to |clean|
      invariant |out| == |clean|
      invariant forall x :: 0 <= x < i ==> out[x] == Stripped(clean, remove, x)
      invariant forall x :: i <= x < |clean| ==> out[x] == clean[x]
    {
      if remove[i] == {} {
        OnlyEverything(clean[i].dependsOn, Elements(clean[i].dependsOn) - remove[i]);
        continue;
      }
      var kept := RemoveReferences(out[i].dependsOn, remove[i]);
      out := out[i := out[i].(dependsOn := kept)];
    }
  }

  /** What the sanitiser computes: the cleaned moves without the references that the search found to close a cycle. */
  ghost function Sanitize(moves: seq<RankedMove>): (out: seq<RankedMove>)
    ensures |out| == |moves|
  {
    var clean := Cleaned(moves);
    var s := VisitAll(clean, NewSearch(|clean|), 0);
    seq(|clean|, x requires 0 <= x < |clean| => Stripped(clean, s.remove, x))
  }

  method SanitizeMoveGraph(moves: seq<RankedMove>) returns (out: seq<RankedMove>)
    ensures out == Sanitize(moves)
    ensures Sanitized(moves, out)
  {
    hide IsIndex, Only, VisitAll, Thins, Maximal, ValidDag;
    var index := BuildIndex(moves);
    var clean := CleanAll(moves, index);
    CleanedFacts(moves);
    CleanedIndex(moves, index);
    var remove := BreakCycles(clean, index);
    out := StripAll(clean, remove);
    SanitizeCorrect(moves);
  }

  /** MAIN: whatever the planner produced, the result is the same moves with a maximal acyclic choice of their
      references. */
  lemma SanitizeCorrect(moves: seq<RankedMove>)
    ensures Sanitized(moves, Sanitize(moves))
  {
    hide Consistent, Explains, Cyclic, Whites, VisitAll, Resolved;
    var clean, out := Cleaned(moves), Sanitize(moves);
    CleanedFacts(moves);
    var s0 := NewSearch(|clean|);
    var s := VisitAll(clean, s0, 0);
    SearchStart(clean);
    AllFacts(clean, s0, s0, 0);
    assert Outcome(clean, s, out);
    forall i, d | 0 <= i < |out| && d in clean[i].dependsOn && d !in out[i].dependsOn
      ensures Cyclic(WithReference(out, i, d))
    {
      OutcomeMaximal(clean, s0, s, out, i, d);
    }
    OutcomeValid(clean, s, out);
    forall i | 0 <= i < |out|
      ensures out[i].dependsOn == Only(clean[i].dependsOn, Elements(out[i].dependsOn))
    {
      OutcomeReferences(clean, s, out, i);
    }
  }

  /** MAIN: a reference is dropped from a move only if an earlier move still leads to it; the first move keeps all of
      its cleaned references. */
  lemma {:induction false} DroppedNeedsEarlierMove(moves: seq<RankedMove>, x: nat, d: string)
    requires x < |moves| && d in Cleaned(moves)[x].dependsOn && d !in Sanitize(moves)[x].dependsOn
    ensures exists y: nat :: y < x && Leads(Sanitize(moves), y, x)
  {
    hide Consistent, Explains, Cyclic, Whites, VisitAll, Resolved, Leads, Rooted;
    var clean := Cleaned(moves);
    CleanedFacts(moves);
    var s0 := NewSearch(|clean|);
    var s := VisitAll(clean, s0, 0);
    SearchStart(clean);
    AllFacts(clean, s0, s0, 0);
    NothingRemovedYet(clean);
    RootedAll(clean, s0, s0, 0);
    assert Outcome(clean, s, Sanitize(moves));
    DroppedIsReached(clean, s, Sanitize(moves), x, d);
  }

  lemma NothingRemovedYet(ms: seq<RankedMove>)
    ensures Rooted(ms, NewSearch(|ms|))
  {}

  lemma DroppedIsReached(clean: seq<RankedMove>, s: Search, out: seq<RankedMove>, x: nat, d: string)
    requires Outcome(clean, s, out) && Rooted(clean, s) && x < |clean|
    requires d in clean[x].dependsOn && d !in out[x].dependsOn
    ensures exists y: nat :: y < x && Leads(out, y, x)
  {
    hide Consistent, KeptWalk, Inv, Reach, Leads, Resolved;
    LostReference(clean, s, out, x, d);
    var y: nat :| y < x && Reach(clean, s.kept, y, x);
    ReachedLeads(clean, s, out, y, x);
  }

  lemma LostReference(clean: seq<RankedMove>, s: Search, out: seq<RankedMove>, x: nat, d: string)
    requires Outcome(clean, s, out) && x < |clean| && d in clean[x].dependsOn && d !in out[x].dependsOn
    ensures x < |s.remove| && s.remove[x] != {}
  {
    hide Consistent, Resolved;
    OutcomeReferences(clean, s, out, x);
    assert d in Elements(clean[x].dependsOn) && d !in Elements(out[x].dependsOn);
  }

  lemma ReachedLeads(clean: seq<RankedMove>, s: Search, out: seq<RankedMove>, y: nat, x: nat)
    requires Outcome(clean, s, out) && Reach(clean, s.kept, y, x)
    ensures Leads(out, y, x)
  {
    hide Consistent, KeptWalk, Outcome;
    var p: seq<nat> :| p != [] && p[0] == y && p[|p| - 1] == x && KeptWalk(clean, s.kept, p);
    KeptWalkSurvives(clean, s, out, p);
  }

  /** MAIN: references are searched in their order: the one move that carries the first reference of the first move can
      lose only references to the first move. */
  lemma {:induction false} FirstReferenceWins(moves: seq<RankedMove>, h: nat, d: string)
    requires moves != [] && Cleaned(moves)[0].dependsOn != []
    requires Holders(moves, Cleaned(moves)[0].dependsOn[0]) == [h]
    ensures h < |moves|
    ensures d in Cleaned(moves)[h].dependsOn && d !in Sanitize(moves)[h].dependsOn ==> d == moves[0].key
  {
    hide Consistent, Explains, Cyclic, Whites, VisitAll, Resolved, FirstTarget;
    var clean, out := Cleaned(moves), Sanitize(moves);
    CleanedFacts(moves);
    SameHolders(moves, clean, clean[0].dependsOn[0]);
    IsFirstTarget(clean, h);
    FirstTargetKept(clean, h);
    var s0 := NewSearch(|clean|);
    var s := VisitAll(clean, s0, 0);
    SearchStart(clean);
    AllFacts(clean, s0, s0, 0);
    assert Outcome(clean, s, out);
    OutcomeReferences(clean, s, out, h);
    assert d in clean[h].dependsOn && d !in out[h].dependsOn ==>
             d in Elements(clean[h].dependsOn) && d !in Elements(out[h].dependsOn);
  }

  lemma IsFirstTarget(ms: seq<RankedMove>, h: nat)
    requires Resolved(ms) && ms != [] && ms[0].dependsOn != [] && Holders(ms, ms[0].dependsOn[0]) == [h]
    ensures FirstTarget(ms, h)
  {}

  lemma {:induction false} SameHolders(a: seq<RankedMove>, b: seq<RankedMove>, k: string)
    requires |a| == |b| && forall i :: 0 <= i < |a| ==> a[i].key == b[i].key
    ensures Holders(a, k) == Holders(b, k)
  {
    if a != [] {
      SameHolders(a[..|a| - 1], b[..|b| - 1], k);
    }
  }

  /** MAIN: a graph that is already a valid DAG comes back unchanged, reference for reference. */
  lemma ValidDagIsFixed(moves: seq<RankedMove>)
    requires ValidDag(moves)
    ensures Sanitize(moves) == moves
  {
    var out := Sanitize(moves);
    SanitizeCorrect(moves);
    hide Sanitize;
    forall i | 0 <= i < |moves| ensures out[i] == moves[i] {
      CleanFixed(moves[i].key, moves[i].dependsOn, Keys(moves));
      assert Cleaned(moves)[i] == moves[i];
      forall d | d in moves[i].dependsOn ensures d in Elements(out[i].dependsOn) {
        OnlyReferences(moves, out);
        PutBackStaysAcyclic(moves, out, i, d);
      }
      OnlyEverything(moves[i].dependsOn, Elements(out[i].dependsOn));
    }
  }

  /** Putting a reference of an acyclic graph back into a thinned copy closes no cycle. */
  lemma PutBackStaysAcyclic(moves: seq<RankedMove>, out: seq<RankedMove>, i: nat, d: string)
    requires !Cyclic(moves) && |out| == |moves| && i < |moves| && d in moves[i].dependsOn
    requires forall x :: 0 <= x < |moves| ==> out[x].key == moves[x].key
    requires forall x, e :: 0 <= x < |moves| && e in out[x].dependsOn ==> e in moves[x].dependsOn
    ensures !Cyclic(WithReference(out, i, d))
  {
    var back := WithReference(out, i, d);
    forall p | ClosedWalk(back, p) ensures ClosedWalk(moves, p) {
      forall k | 0 <= k < |p| - 1 ensures Edge(moves, p[k], p[k + 1]) {
        assert Edge(back, p[k], p[k + 1]);
      }
    }
  }

  lemma OnlyReferences(moves: seq<RankedMove>, out: seq<RankedMove>)
    requires Thins(moves, out)
    ensures forall i, d :: 0 <= i < |moves| && d in out[i].dependsOn ==> d in moves[i].dependsOn
  {
    forall i, d | 0 <= i < |moves| && d in out[i].dependsOn ensures d in moves[i].dependsOn {
      OnlyMembers(Cleaned(moves)[i].dependsOn, Elements(out[i].dependsOn), d);
      CleanProperties(moves[i].key, moves[i].dependsOn, Keys(moves));
    }
  }

  /** MAIN: sanitising is idempotent. */
  lemma SanitizeIdempotent(moves: seq<RankedMove>)
    ensures Sanitize(Sanitize(moves)) == Sanitize(moves)
  {
    SanitizeCorrect(moves);
    ValidDagIsFixed(Sanitize(moves));
  }
}
