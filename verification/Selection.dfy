/** Choosing one strategy's plan: weighted utility argmax over admissible candidates, with incumbent hysteresis,
    and the offline replay of a recorded competition. */
module Selection {
  import opened Domain
  import opened Rounding

  /** One strategy's proposal with its given utility and hard-filter verdict; `failed` marks a planner error. */
  datatype Candidate = Candidate(id: string, failed: bool, moves: seq<RankedMove>, utility: real, ruledOut: bool)

  datatype Scored = Scored(id: string, utility: real, weight: real, weighted: real, topConfidence: real, filtered: bool)

  datatype Options = Options(weights: map<string, real>, regime: string, incumbent: string, margin: real)

  /** The recorded audit of one candidate. */
  datatype Audit = Audit(strategyID: string, utility: real, topConfidence: real, filtered: bool)

  function WeightKey(id: string, context: string): string {
    if context == "" then id else id + "@" + context
  }

  /** The regime-specific weight wins over the pooled one; anything missing or non-positive means 1. */
  function WeightFor(o: Options, id: string): (w: real)
    ensures w > 0.0
  {
    var k := WeightKey(id, o.regime);
    if o.regime != "" && k in o.weights && o.weights[k] > 0.0 then o.weights[k]
    else if id in o.weights && o.weights[id] > 0.0 then o.weights[id]
    else 1.0
  }

  /** A weight above 1 favours the strategy whatever the utility's sign. */
  function ApplyWeight(u: real, w: real): real
    requires w > 0.0
  {
    if u < 0.0 then Round4(u / w) else Round4(u * w)
  }

  lemma ApplyWeightMonotone(u: real, w: real, w': real)
    requires 0.0 < w <= w'
    ensures ApplyWeight(u, w) <= ApplyWeight(u, w')
  {
    hide Round4;
    if u < 0.0 {
      QuotientRises(u, w, w');
      Round4Monotone(u / w, u / w');
    } else {
      var a, b := u * w, u * w';
      ProductRises(u, w, w');
      Round4Monotone(a, b);
      ApplyToGain(u, w, a);
      ApplyToGain(u, w', b);
    }
  }

  lemma ApplyToGain(u: real, w: real, p: real)
    requires u >= 0.0 && w > 0.0 && p == u * w
    ensures ApplyWeight(u, w) == Round4(p)
  {}

  lemma ProductRises(u: real, w: real, w': real)
    requires u >= 0.0 && w <= w'
    ensures u * w <= u * w'
  {
    assert u * (w' - w) >= 0.0;
  }

  lemma FactorRises(a: real, b: real, w: real)
    requires a <= b && w >= 0.0
    ensures a * w <= b * w
  {
    assert (b - a) * w >= 0.0;
  }

  lemma QuotientRises(u: real, w: real, w': real)
    requires u < 0.0 && 0.0 < w <= w'
    ensures u / w <= u / w'
  {
    var a, b := u / w, u / w';
    assert a * w == u && b * w' == u && a < 0.0;
    ProductRises(-a, w, w');
    assert (b - a) * w' >= 0.0;
    FactorNonNegative(b - a, w');
  }

  lemma FactorNonNegative(d: real, w: real)
    requires w > 0.0 && d * w >= 0.0
    ensures d >= 0.0
  {}

  /** The weighted utility keeps the sign of the utility and is within half a ten-thousandth of the utility times the
      weight, or, for a loss, of the utility divided by it. */
  lemma ApplyWeightNear(u: real, w: real)
    requires w > 0.0
    ensures u >= 0.0 ==> ApplyWeight(u, w) >= 0.0 && u * w - 0.00005 <= ApplyWeight(u, w) <= u * w + 0.00005
    ensures u <= 0.0 ==> ApplyWeight(u, w) <= 0.0
    ensures u < 0.0 ==> u - 0.00005 * w <= ApplyWeight(u, w) * w <= u + 0.00005 * w
  {
    hide Round4;
    if u < 0.0 {
      var q := u / w;
      Round4Near(q);
      assert q * w == u;
      QuotientNegative(u, w, q);
      NearQuotient(ApplyWeight(u, w), q, w, u);
    } else {
      var p := u * w;
      ProductRises(u, 0.0, w);
      assert u == 0.0 ==> p == 0.0;
      Round4Near(p);
      ApplyToGain(u, w, p);
    }
  }

  lemma NearQuotient(a: real, q: real, w: real, u: real)
    requires w > 0.0 && q * w == u && q - 0.00005 <= a <= q + 0.00005
    ensures u - 0.00005 * w <= a * w <= u + 0.00005 * w
  {
    var d, c := a - q, 0.00005;
    FactorRises(0.0 - c, d, w);
    FactorRises(d, c, w);
    var dw := d * w;
    assert (0.0 - c) * w == 0.0 - c * w;
    assert a * w == u + dw by { assert a * w == q * w + d * w; }
  }

  lemma QuotientNegative(u: real, w: real, q: real)
    requires u < 0.0 < w && q * w == u
    ensures q < 0.0
  {
    if q >= 0.0 {
      ProductRises(q, 0.0, w);
    }
  }

  /** At one weight a higher utility is never weighted lower. */
  lemma ApplyWeightKeepsOrder(u: real, u': real, w: real)
    requires u <= u' && w > 0.0
    ensures ApplyWeight(u, w) <= ApplyWeight(u', w)
  {
    hide Round4;
    if u < 0.0 <= u' {
      hide ApplyWeight;
      ApplyWeightNear(u, w);
      ApplyWeightNear(u', w);
    } else if u < 0.0 {
      var q, q' := u / w, u' / w;
      assert q * w == u && q' * w == u';
      assert (q' - q) * w >= 0.0;
      FactorNonNegative(q' - q, w);
      Round4Monotone(q, q');
    } else {
      var p, p' := u * w, u' * w;
      FactorRises(u, u', w);
      Round4Monotone(p, p');
      ApplyToGain(u, w, p);
      ApplyToGain(u', w, p');
    }
  }

  /** Which weight applies: a positive entry for the strategy in the regime, else a positive entry for the strategy,
      else none, whatever else the table holds. */
  lemma WeightPrecedence(o: Options, id: string, regime: string, v: real, v': real)
    requires v > 0.0 && v' > 0.0 && regime != "" && id !in o.weights && id + "@" + regime !in o.weights
    ensures WeightFor(o.(regime := regime, weights := o.weights[id := v][id + "@" + regime := v']), id) == v'
    ensures WeightFor(o.(regime := regime, weights := o.weights[id + "@" + regime := v']), id) == v'
    ensures WeightFor(o.(regime := regime, weights := o.weights[id := v]), id) == v
    ensures WeightFor(o.(regime := regime, weights := o.weights[id := v][id + "@" + regime := -v']), id) == v
    ensures WeightFor(o.(regime := "", weights := o.weights[id := v][id + "@" + regime := v']), id) == v
    ensures WeightFor(o.(regime := regime), id) == 1.0
    ensures WeightFor(o.(regime := regime, weights := o.weights[id := -v]), id) == 1.0
  {
    assert |id + "@" + regime| > |id|;
  }

  function TopConfidence(moves: seq<RankedMove>): real {
    if moves == [] then 0.0 else moves[0].confidence
  }

  function TopRawConfidence(moves: seq<RankedMove>): real {
    if moves == [] then 0.0
    else if moves[0].rawConfidence > 0.0 then moves[0].rawConfidence
    else moves[0].confidence
  }

  function Score(c: Candidate, o: Options): Scored {
    var w := WeightFor(o, c.id);
    if c.failed then Scored(c.id, 0.0, w, 0.0, 0.0, true)
    else Scored(c.id, c.utility, w, ApplyWeight(c.utility, w), TopConfidence(c.moves), c.ruledOut)
  }

  function ScoreAll(cs: seq<Candidate>, o: Options): (sc: seq<Scored>)
    ensures |sc| == |cs|
  {
    seq(|cs|, i requires 0 <= i < |cs| => Score(cs[i], o))
  }

  // ---------------------------------------------------------------- the winner, declaratively

  ghost predicate Considered(sc: seq<Scored>, cs: seq<Candidate>, all: bool, i: nat)
    requires |sc| == |cs|
  {
    i < |cs| && !cs[i].failed && (all || !sc[i].filtered)
  }

  /** Higher weighted utility, then higher raw confidence of the top move. */
  predicate Better(sc: seq<Scored>, cs: seq<Candidate>, i: nat, j: nat)
    requires |sc| == |cs| && i < |cs| && j < |cs|
  {
    if sc[i].weighted != sc[j].weighted then sc[i].weighted > sc[j].weighted
    else TopRawConfidence(cs[i].moves) > TopRawConfidence(cs[j].moves)
  }

  /** The first of the best among the first n. */
  ghost predicate BestOf(sc: seq<Scored>, cs: seq<Candidate>, all: bool, n: nat, w: nat)
    requires |sc| == |cs| && n <= |cs|
  {
    && w < n && Considered(sc, cs, all, w)
    && (forall i: nat :: i < n && Considered(sc, cs, all, i) && i < w ==> Better(sc, cs, w, i))
    && (forall i: nat :: i < n && Considered(sc, cs, all, i) && i > w ==> !Better(sc, cs, i, w))
  }

  ghost predicate NoneConsidered(sc: seq<Scored>, cs: seq<Candidate>, all: bool, n: nat)
    requires |sc| == |cs|
  {
    forall i: nat :: i < n ==> !Considered(sc, cs, all, i)
  }

  ghost predicate Picked(sc: seq<Scored>, cs: seq<Candidate>, all: bool, w: int)
    requires |sc| == |cs|
  {
    if NoneConsidered(sc, cs, all, |cs|) then w == (if all then 0 else -1)
    else w >= 0 && BestOf(sc, cs, all, |cs|, w)
  }

  lemma PickedUnique(sc: seq<Scored>, cs: seq<Candidate>, all: bool, w: int, w': int)
    requires |sc| == |cs| && Picked(sc, cs, all, w) && Picked(sc, cs, all, w')
    ensures w == w'
  {}

  /** The first admissible candidate with the incumbent's ID, or -1. */
  ghost predicate IncumbentAt(sc: seq<Scored>, incumbent: string, k: int) {
    if k < 0 then
      k == -1 && (incumbent == "" || forall i :: 0 <= i < |sc| ==> !(sc[i].id == incumbent && !sc[i].filtered))
    else
      && incumbent != "" && k < |sc| && sc[k].id == incumbent && !sc[k].filtered
      && forall i :: 0 <= i < k ==> !(sc[i].id == incumbent && !sc[i].filtered)
  }

  /** The incumbent k holds against the challenger p. */
  predicate HoldsAgainst(sc: seq<Scored>, margin: real, k: int, p: nat)
    requires p < |sc| && k < |sc|
  {
    k >= 0 && k != p && sc[p].weighted <= sc[k].weighted + margin
  }

  /** p is the best admissible candidate, or -1: then the best of all, else the incumbent if it holds. */
  ghost predicate Settled(sc: seq<Scored>, cs: seq<Candidate>, o: Options, p: int, w: nat)
    requires |sc| == |cs| && p < |cs|
  {
    if p < 0 then Picked(sc, cs, true, w)
    else exists k :: IncumbentAt(sc, o.incumbent, k) && w == if HoldsAgainst(sc, o.margin, k, p) then k else p
  }

  ghost predicate Selected(sc: seq<Scored>, cs: seq<Candidate>, o: Options, w: nat)
    requires |sc| == |cs|
  {
    && w < |cs|
    && exists p :: Picked(sc, cs, false, p) && Settled(sc, cs, o, p, w)
  }

  method Pick(sc: seq<Scored>, cs: seq<Candidate>, includeFiltered: bool) returns (best: int)
    requires |sc| == |cs|
    ensures Picked(sc, cs, includeFiltered, best)
    ensures -1 <= best && (cs != [] ==> best < |cs|)
  {
    best := -1;
    for i := 0 to |sc|
      invariant -1 <= best < i
      invariant best < 0 ==> NoneConsidered(sc, cs, includeFiltered, i)
      invariant best >= 0 ==> BestOf(sc, cs, includeFiltered, i, best)
    {
      if cs[i].failed {
        continue;
      }
      if !includeFiltered && sc[i].filtered {
        continue;
      }
      if best < 0 || Better(sc, cs, i, best) {
        best := i;
      }
    }
    if best < 0 && includeFiltered {
      return 0;
    }
  }

  method IncumbentIndex(sc: seq<Scored>, incumbent: string) returns (k: int)
    ensures IncumbentAt(sc, incumbent, k) && -1 <= k < |sc|
  {
    if incumbent == "" {
      return -1;
    }
    for i := 0 to |sc|
      invariant forall j :: 0 <= j < i ==> !(sc[j].id == incumbent && !sc[j].filtered)
    {
      if sc[i].id == incumbent && !sc[i].filtered {
        return i;
      }
    }
    return -1;
  }

  method Select(cs: seq<Candidate>, o: Options) returns (err: bool, winner: nat, scored: seq<Scored>)
    ensures err <==> cs == []
    ensures !err ==> scored == ScoreAll(cs, o) && Selected(scored, cs, o, winner)
  {
    if cs == [] {
      return true, 0, [];
    }
    err := false;
    scored := [];
    for i := 0 to |cs|
      invariant scored == ScoreAll(cs, o)[..i]
    {
      scored := scored + [Score(cs[i], o)];
    }
    var first := Pick(scored, cs, false);
    if first < 0 {
      winner := Pick(scored, cs, true);
      return;
    }
    winner := first;
    var inc := IncumbentIndex(scored, o.incumbent);
    if inc >= 0 && inc != winner && scored[winner].weighted <= scored[inc].weighted + o.margin {
      winner := inc;
    }
    assert winner == if HoldsAgainst(scored, o.margin, inc, first) then inc else first;
  }

  // ---------------------------------------------------------------- what selection guarantees

  ghost predicate UniqueIDs(cs: seq<Candidate>) {
    forall i, j :: 0 <= i < j < |cs| ==> cs[i].id != cs[j].id
  }

  /** MAIN: a filtered or failed candidate wins only when there is no admissible one. */
  lemma WinnerAdmissible(cs: seq<Candidate>, o: Options, w: nat, i: nat)
    requires Selected(ScoreAll(cs, o), cs, o, w) && i < |cs| && !cs[i].failed && !cs[i].ruledOut
    ensures !cs[w].failed && !cs[w].ruledOut
  {
    var sc := ScoreAll(cs, o);
    assert Considered(sc, cs, false, i);
    var p :| Picked(sc, cs, false, p) && Settled(sc, cs, o, p, w);
  }

  lemma ScoreIgnoresIncumbent(cs: seq<Candidate>, o: Options, incumbent: string)
    ensures ScoreAll(cs, o.(incumbent := incumbent)) == ScoreAll(cs, o)
  {
    forall c: Candidate ensures Score(c, o.(incumbent := incumbent)) == Score(c, o) {}
  }

  lemma PickAdmissible(sc: seq<Scored>, cs: seq<Candidate>)
    requires |sc| == |cs|
    ensures forall p :: Picked(sc, cs, false, p) ==> p < |cs| && (p >= 0 ==> !sc[p].filtered)
  {}

  /** MAIN: selecting again from the same candidates with the winner as incumbent keeps the winner. */
  lemma WinnerStable(cs: seq<Candidate>, o: Options, w: nat, w': nat)
    requires UniqueIDs(cs) && Selected(ScoreAll(cs, o), cs, o, w)
    requires var o' := o.(incumbent := cs[w].id); Selected(ScoreAll(cs, o'), cs, o', w')
    ensures w' == w
  {
    var sc, o' := ScoreAll(cs, o), o.(incumbent := cs[w].id);
    ScoreIgnoresIncumbent(cs, o, cs[w].id);
    forall i | 0 <= i < |cs| ensures sc[i].id == cs[i].id {
      assert sc[i] == Score(cs[i], o);
    }
    PickAdmissible(sc, cs);
    hide Picked, Score, ScoreAll;
    var p :| Picked(sc, cs, false, p) && Settled(sc, cs, o, p, w);
    var p' :| Picked(sc, cs, false, p') && Settled(sc, cs, o', p', w');
    PickedUnique(sc, cs, false, p, p');
    if p < 0 {
      PickedUnique(sc, cs, true, w, w');
    } else {
      var k' :| IncumbentAt(sc, o'.incumbent, k') && w' == if HoldsAgainst(sc, o'.margin, k', p) then k' else p;
      assert k' >= 0 ==> k' == w;
      assert k' < 0 ==> o'.incumbent == "" && w == p;
    }
  }

  /** sc' differs from sc at most in w's weighted score, which is not lower. */
  ghost predicate Raised(sc: seq<Scored>, sc': seq<Scored>, w: nat) {
    && |sc| == |sc'| && w < |sc|
    && (forall i :: 0 <= i < |sc| ==> sc'[i].id == sc[i].id && sc'[i].filtered == sc[i].filtered)
    && (forall i :: 0 <= i < |sc| && i != w ==> sc'[i].weighted == sc[i].weighted)
    && sc[w].weighted <= sc'[w].weighted
  }

  /** Raising one candidate's weighted score never turns the winner into a loser. */
  lemma RaiseKeepsWinner(sc: seq<Scored>, sc': seq<Scored>, cs: seq<Candidate>, o: Options, o': Options, w: nat,
                         w': nat)
    requires |sc| == |sc'| == |cs| && Raised(sc, sc', w)
    requires o'.incumbent == o.incumbent && o'.margin == o.margin
    requires Selected(sc, cs, o, w) && Selected(sc', cs, o', w')
    ensures w' == w
  {
    var p :| Picked(sc, cs, false, p) && Settled(sc, cs, o, p, w);
    var p' :| Picked(sc', cs, false, p') && Settled(sc', cs, o', p', w');
    SameConsidered(sc, sc', cs, false);
    if p < 0 {
      RaisedPick(sc, sc', cs, true, w, w', w);
    } else {
      RaisedPick(sc, sc', cs, false, p, p', w);
      assert p' >= 0;
      hide Picked, NoneConsidered, Considered;
      var k :| IncumbentAt(sc, o.incumbent, k) && w == if HoldsAgainst(sc, o.margin, k, p) then k else p;
      var k' :| IncumbentAt(sc', o.incumbent, k') && w' == if HoldsAgainst(sc', o.margin, k', p') then k' else p';
      SameIncumbent(sc, sc', w, o.incumbent, k, k');
      hide Settled, IncumbentAt;
      RaisedHold(sc, sc', o.margin, k, p, p', w);
    }
  }

  lemma SameIncumbent(sc: seq<Scored>, sc': seq<Scored>, w: nat, incumbent: string, k: int, k': int)
    requires Raised(sc, sc', w) && IncumbentAt(sc, incumbent, k) && IncumbentAt(sc', incumbent, k')
    ensures k == k' && k < |sc|
  {}

  lemma RaisedHold(sc: seq<Scored>, sc': seq<Scored>, margin: real, k: int, p: nat, p': nat, w: nat)
    requires Raised(sc, sc', w) && p < |sc| && p' < |sc| && k < |sc|
    requires w == if HoldsAgainst(sc, margin, k, p) then k else p
    requires (p' == p || p' == w) && (p == w ==> p' == w)
    ensures w == if HoldsAgainst(sc', margin, k, p') then k else p'
  {}

  lemma SameConsidered(sc: seq<Scored>, sc': seq<Scored>, cs: seq<Candidate>, all: bool)
    requires |sc| == |sc'| == |cs| && forall i :: 0 <= i < |cs| ==> sc'[i].filtered == sc[i].filtered
    ensures forall i: nat :: Considered(sc', cs, all, i) <==> Considered(sc, cs, all, i)
    ensures NoneConsidered(sc', cs, all, |cs|) <==> NoneConsidered(sc, cs, all, |cs|)
  {}

  /** Raising candidate w: the pick stays, or becomes w. */
  lemma RaisedPick(sc: seq<Scored>, sc': seq<Scored>, cs: seq<Candidate>, all: bool, p: int, p': int, w: nat)
    requires |sc| == |sc'| == |cs| && Raised(sc, sc', w)
    requires Picked(sc, cs, all, p) && Picked(sc', cs, all, p')
    ensures p' == p || p' == w
    ensures p == w ==> p' == w
  {
    SameConsidered(sc, sc', cs, all);
    if p >= 0 && !NoneConsidered(sc, cs, all, |cs|) {
      assert Considered(sc, cs, all, p) && Considered(sc', cs, all, p') && Considered(sc, cs, all, p')
             && Considered(sc', cs, all, p);
    }
  }

  /** MAIN: for utilities of either sign, with or without an incumbent, a higher weight for the winner alone never makes
      it lose. */
  lemma HigherWeightKeepsWinner(cs: seq<Candidate>, o: Options, o': Options, w: nat, w': nat)
    requires UniqueIDs(cs) && Selected(ScoreAll(cs, o), cs, o, w) && Selected(ScoreAll(cs, o'), cs, o', w')
    requires o'.incumbent == o.incumbent && o'.margin == o.margin
    requires forall i :: 0 <= i < |cs| && i != w ==> WeightFor(o', cs[i].id) == WeightFor(o, cs[i].id)
    requires WeightFor(o, cs[w].id) <= WeightFor(o', cs[w].id)
    ensures w' == w
  {
    ApplyWeightMonotone(cs[w].utility, WeightFor(o, cs[w].id), WeightFor(o', cs[w].id));
    hide ApplyWeight, WeightFor, Selected;
    RaiseKeepsWinner(ScoreAll(cs, o), ScoreAll(cs, o'), cs, o, o', w, w');
  }

  // ---------------------------------------------------------------- the winner in terms of what was given

  ghost predicate Admissible(cs: seq<Candidate>, i: int) {
    0 <= i < |cs| && !cs[i].failed && !cs[i].ruledOut
  }

  lemma PickedAmongAdmissible(cs: seq<Candidate>, o: Options, w: nat, i: nat)
    requires o.incumbent == "" && Selected(ScoreAll(cs, o), cs, o, w) && Admissible(cs, i)
    ensures Picked(ScoreAll(cs, o), cs, false, w)
    ensures Admissible(cs, w) && Score(cs[i], o).weighted <= Score(cs[w], o).weighted
    ensures Score(cs[i], o).weighted == Score(cs[w], o).weighted ==>
              if i < w then TopRawConfidence(cs[i].moves) < TopRawConfidence(cs[w].moves)
              else TopRawConfidence(cs[i].moves) <= TopRawConfidence(cs[w].moves)
  {
    var sc := ScoreAll(cs, o);
    assert Considered(sc, cs, false, i);
    var p :| Picked(sc, cs, false, p) && Settled(sc, cs, o, p, w);
    assert sc[i] == Score(cs[i], o) && sc[w] == Score(cs[w], o);
    hide Score, ScoreAll, Picked;
    assert w == p by {
      assert p >= 0 by { hide Settled; assert !NoneConsidered(sc, cs, false, |cs|); PickedCandidate(sc, cs, p, i); }
    }
    PickedCandidate(sc, cs, w, i);
    AdmissibleConsidered(cs, o, w);
  }

  lemma PickedCandidate(sc: seq<Scored>, cs: seq<Candidate>, p: int, i: nat)
    requires |sc| == |cs| && Picked(sc, cs, false, p) && Considered(sc, cs, false, i)
    ensures 0 <= p < |cs| && Considered(sc, cs, false, p) && sc[i].weighted <= sc[p].weighted
    ensures sc[i].weighted == sc[p].weighted ==>
              if i < p then TopRawConfidence(cs[i].moves) < TopRawConfidence(cs[p].moves)
              else TopRawConfidence(cs[i].moves) <= TopRawConfidence(cs[p].moves)
  {
    hide TopRawConfidence;
  }

  lemma AdmissibleConsidered(cs: seq<Candidate>, o: Options, i: nat)
    requires i < |cs|
    ensures Considered(ScoreAll(cs, o), cs, false, i) <==> Admissible(cs, i)
  {
    assert ScoreAll(cs, o)[i] == Score(cs[i], o);
  }

  /** MAIN: without weights and without an incumbent no admissible candidate's given utility exceeds the winner's by
      more than the rounding, and at equal utility none has a higher raw confidence in its first move, nor the same one
      and an earlier place. */
  lemma WinnerHasBestUtility(cs: seq<Candidate>, o: Options, w: nat, i: nat)
    requires o.incumbent == "" && o.weights == map[] && Selected(ScoreAll(cs, o), cs, o, w) && Admissible(cs, i)
    ensures Admissible(cs, w) && cs[i].utility <= cs[w].utility + 0.0001
    ensures cs[i].utility == cs[w].utility && cs[i].moves != [] && cs[w].moves != []
            && cs[i].moves[0].rawConfidence > 0.0 && cs[w].moves[0].rawConfidence > 0.0 ==>
              && cs[i].moves[0].rawConfidence <= cs[w].moves[0].rawConfidence
              && (i < w ==> cs[i].moves[0].rawConfidence < cs[w].moves[0].rawConfidence)
    ensures cs[i].utility == cs[w].utility && cs[i].moves != [] && cs[w].moves != []
            && cs[i].moves[0].rawConfidence <= 0.0 && cs[w].moves[0].rawConfidence <= 0.0 ==>
              && cs[i].moves[0].confidence <= cs[w].moves[0].confidence
              && (i < w ==> cs[i].moves[0].confidence < cs[w].moves[0].confidence)
  {
    hide Selected, ScoreAll, Picked, ApplyWeight;
    PickedAmongAdmissible(cs, o, w, i);
    ApplyWeightNear(cs[i].utility, 1.0);
    ApplyWeightNear(cs[w].utility, 1.0);
  }

  /** Only the first move of a plan counts, and the stated confidence only where it has no raw one. */
  lemma FirstMoveCounts(m: RankedMove, rest: seq<RankedMove>)
    ensures TopConfidence([m] + rest) == m.confidence && TopConfidence([]) == 0.0 == TopRawConfidence([])
    ensures m.rawConfidence > 0.0 ==> TopRawConfidence([m] + rest) == m.rawConfidence
    ensures m.rawConfidence <= 0.0 ==> TopRawConfidence([m] + rest) == m.confidence
  {}

  /** MAIN: when every candidate is filtered or failed, the winner is a candidate that did not fail, if there is one,
      and without weights none of those has a utility above the winner's by more than the rounding; if all failed it is
      the first. */
  lemma DegradedWinner(cs: seq<Candidate>, o: Options, w: nat)
    requires cs != [] && Selected(ScoreAll(cs, o), cs, o, w) && forall i :: !Admissible(cs, i)
    ensures (forall i :: 0 <= i < |cs| ==> cs[i].failed) ==> w == 0
    ensures (exists i :: 0 <= i < |cs| && !cs[i].failed) ==> !cs[w].failed
    ensures o.weights == map[] ==>
              forall i :: 0 <= i < |cs| && !cs[i].failed ==> cs[i].utility <= cs[w].utility + 0.0001
  {
    var sc := ScoreAll(cs, o);
    forall i: nat | i < |cs|
      ensures Considered(sc, cs, true, i) <==> !cs[i].failed
      ensures !Considered(sc, cs, false, i)
      ensures o.weights == map[] && !cs[i].failed ==>
                cs[i].utility - 0.00005 <= sc[i].weighted <= cs[i].utility + 0.00005
    {
      assert sc[i] == Score(cs[i], o) && !Admissible(cs, i);
      ApplyWeightNear(cs[i].utility, 1.0);
    }
    var p :| Picked(sc, cs, false, p) && Settled(sc, cs, o, p, w);
    assert Picked(sc, cs, true, w);
    hide Score, ScoreAll, TopRawConfidence, ApplyWeight;
  }

  /** MAIN: whatever the weights, a loss wins without an incumbent only over candidates whose weighted gain vanishes in
      the rounding. */
  lemma LossBeatsNoGain(cs: seq<Candidate>, o: Options, w: nat, i: nat)
    requires o.incumbent == "" && Selected(ScoreAll(cs, o), cs, o, w) && Admissible(cs, i)
    requires cs[w].utility < 0.0
    ensures cs[i].utility * WeightFor(o, cs[i].id) <= 0.00005
  {
    hide Selected, ScoreAll, Picked, ApplyWeight, WeightFor, TopRawConfidence;
    PickedAmongAdmissible(cs, o, w, i);
    ApplyWeightNear(cs[w].utility, WeightFor(o, cs[w].id));
    ApplyWeightNear(cs[i].utility, WeightFor(o, cs[i].id));
    if cs[i].utility < 0.0 {
      ProductRises(WeightFor(o, cs[i].id), cs[i].utility, 0.0);
    }
  }

  /** MAIN: without an incumbent, an admissible candidate with the winner's weight and at least its utility ties it. */
  lemma EqualWeightsKeepOrder(cs: seq<Candidate>, o: Options, w: nat, i: nat)
    requires o.incumbent == "" && Selected(ScoreAll(cs, o), cs, o, w) && Admissible(cs, i)
    requires WeightFor(o, cs[i].id) == WeightFor(o, cs[w].id) && cs[i].utility >= cs[w].utility
    ensures Score(cs[i], o).weighted == Score(cs[w], o).weighted
  {
    hide Selected, ScoreAll, Picked, ApplyWeight, WeightFor, TopRawConfidence;
    PickedAmongAdmissible(cs, o, w, i);
    ApplyWeightKeepsOrder(cs[w].utility, cs[i].utility, WeightFor(o, cs[w].id));
  }

  /** MAIN: without weights, the incumbent wins if no admissible utility is above its own by the margin, and loses if
      one is; rounding decides only within a ten-thousandth of the margin. */
  lemma IncumbentKeptWithinMargin(cs: seq<Candidate>, o: Options, k: nat, w: nat)
    requires UniqueIDs(cs) && o.weights == map[] && Selected(ScoreAll(cs, o), cs, o, w)
    requires o.incumbent != "" && Admissible(cs, k) && cs[k].id == o.incumbent
    ensures (forall i :: Admissible(cs, i) ==> cs[i].utility <= cs[k].utility + o.margin - 0.0001) ==> w == k
    ensures (exists i :: Admissible(cs, i) && cs[i].utility > cs[k].utility + o.margin + 0.0001) && o.margin >= 0.0 ==>
              w != k
  {
    var sc := ScoreAll(cs, o);
    forall i: nat | i < |cs| ensures sc[i].id == cs[i].id && sc[i].filtered == (cs[i].failed || cs[i].ruledOut)
      ensures Admissible(cs, i) ==> cs[i].utility - 0.00005 <= sc[i].weighted <= cs[i].utility + 0.00005
      ensures Considered(sc, cs, false, i) <==> Admissible(cs, i)
    {
      assert sc[i] == Score(cs[i], o);
      ApplyWeightNear(cs[i].utility, 1.0);
    }
    var p :| Picked(sc, cs, false, p) && Settled(sc, cs, o, p, w);
    hide Score, ScoreAll, Picked, Selected, TopRawConfidence;
    PickedCandidate(sc, cs, p, k);
    var k' :| IncumbentAt(sc, o.incumbent, k') && w == if HoldsAgainst(sc, o.margin, k', p) then k' else p;
    assert k' == k;
    if i :| Admissible(cs, i) && cs[i].utility > cs[k].utility + o.margin + 0.0001 {
      PickedCandidate(sc, cs, p, i);
    }
  }

  // ---------------------------------------------------------------- offline replay

  function AuditOf(sc: seq<Scored>): (a: seq<Audit>)
    ensures |a| == |sc|
  {
    seq(|sc|, i requires 0 <= i < |sc| => Audit(sc[i].id, sc[i].utility, sc[i].topConfidence, sc[i].filtered))
  }

  function Reweighed(a: Audit, o: Options): real {
    ApplyWeight(a.utility, WeightFor(o, a.strategyID))
  }

  predicate BetterAudit(audit: seq<Audit>, o: Options, i: nat, j: nat)
    requires i < |audit| && j < |audit|
  {
    var wi, wj := Reweighed(audit[i], o), Reweighed(audit[j], o);
    wi > wj || (wi == wj && audit[i].topConfidence > audit[j].topConfidence)
  }

  /** The first of the best recorded candidates among the first n, or -1 when all of them were filtered. */
  ghost predicate Replayed(audit: seq<Audit>, o: Options, n: nat, w: int)
    requires n <= |audit|
  {
    if w < 0 then w == -1 && forall i :: 0 <= i < n ==> audit[i].filtered
    else
      && w < n && !audit[w].filtered
      && (forall i :: 0 <= i < w && !audit[i].filtered ==> BetterAudit(audit, o, w, i))
      && (forall i :: w < i < n && !audit[i].filtered ==> !BetterAudit(audit, o, i, w))
  }

  method ReWeigh(audit: seq<Audit>, weights: map<string, real>, regime: string) returns (best: int)
    ensures Replayed(audit, Options(weights, regime, "", 0.0), |audit|, best)
  {
    var o := Options(weights, regime, "", 0.0);
    best := -1;
    var bestW := 0.0;
    for i := 0 to |audit|
      invariant -1 <= best < i
      invariant Replayed(audit, o, i, best)
      invariant best >= 0 ==> bestW == Reweighed(audit[best], o)
    {
      if audit[i].filtered {
        continue;
      }
      var w := ApplyWeight(audit[i].utility, WeightFor(o, audit[i].strategyID));
      if best < 0 || w > bestW {
        best, bestW := i, w;
      } else if w == bestW && audit[i].topConfidence > audit[best].topConfidence {
        best := i;
      }
    }
  }

  /** Admissible candidates that tie w's weighted utility lose to it by the recorded stated confidence, then
      by order. */
  ghost predicate WinsTies(cs: seq<Candidate>, o: Options, w: nat)
    requires w < |cs|
  {
    forall i :: Admissible(cs, i) && i != w && Score(cs[i], o).weighted == Score(cs[w], o).weighted ==>
      if i < w then TopConfidence(cs[w].moves) > TopConfidence(cs[i].moves)
      else TopConfidence(cs[w].moves) >= TopConfidence(cs[i].moves)
  }

  /** MAIN: replaying the audit of an incumbent-free selection under the same weights gives -1 exactly when the
      selection was degraded, and otherwise the same winner exactly when the winner also wins its ties by stated
      confidence. */
  lemma ReplayAgreesIff(cs: seq<Candidate>, o: Options, w: nat, r: int)
    requires o.incumbent == "" && Selected(ScoreAll(cs, o), cs, o, w)
    requires Replayed(AuditOf(ScoreAll(cs, o)), Options(o.weights, o.regime, "", 0.0), |cs|, r)
    ensures r == -1 <==> forall i :: !Admissible(cs, i)
    ensures r != -1 ==> (r == w <==> WinsTies(cs, o, w))
  {
    var sc, o0 := ScoreAll(cs, o), Options(o.weights, o.regime, "", 0.0);
    var audit := AuditOf(sc);
    if r != -1 {
      assert Considered(sc, cs, false, r);
      var p :| Picked(sc, cs, false, p) && Settled(sc, cs, o, p, w);
      assert w == p && Considered(sc, cs, false, w);
      forall i | Admissible(cs, i)
        ensures audit[i].topConfidence == TopConfidence(cs[i].moves) && Reweighed(audit[i], o0) == sc[i].weighted
        ensures sc[i].weighted <= sc[w].weighted
      {
        SameWeight(o, o0, cs[i].id);
        assert Considered(sc, cs, false, i);
      }
      assert Admissible(cs, r) && Admissible(cs, w) && !audit[r].filtered && !audit[w].filtered;
      hide Picked, Settled, Considered, Score, ScoreAll, AuditOf, Selected;
      if r != w {
        assert BetterAudit(audit, o0, w, r) ==> r > w;
      }
    } else {
      forall i ensures !Admissible(cs, i) {
        assert 0 <= i < |cs| ==> audit[i].filtered;
      }
    }
  }

  /** In particular they agree when no other admissible candidate has the winner's weighted utility. */
  lemma ReplayAgrees(cs: seq<Candidate>, o: Options, w: nat, r: int)
    requires o.incumbent == "" && Selected(ScoreAll(cs, o), cs, o, w)
    requires Replayed(AuditOf(ScoreAll(cs, o)), Options(o.weights, o.regime, "", 0.0), |cs|, r)
    requires forall i :: Admissible(cs, i) && i != w ==> Score(cs[i], o).weighted != Score(cs[w], o).weighted
    ensures if exists i :: Admissible(cs, i) then r == w else r == -1
  {
    ReplayAgreesIff(cs, o, w, r);
  }

  lemma SameWeight(o: Options, o0: Options, id: string)
    requires o0.weights == o.weights && o0.regime == o.regime
    ensures WeightFor(o0, id) == WeightFor(o, id)
  {}

  /** Without weights no recorded admissible utility exceeds the replayed winner's by more than the rounding, and a
      recorded loss is replayed as the winner only over gains that vanish in it. */
  lemma ReplayHasBestUtility(audit: seq<Audit>, o: Options, r: nat, i: nat)
    requires Replayed(audit, o, |audit|, r) && i < |audit| && !audit[i].filtered
    ensures o.weights == map[] ==> audit[i].utility <= audit[r].utility + 0.0001
    ensures audit[r].utility < 0.0 ==> audit[i].utility * WeightFor(o, audit[i].strategyID) <= 0.00005
  {
    assert Reweighed(audit[i], o) <= Reweighed(audit[r], o);
    hide ApplyWeight;
    ApplyWeightNear(audit[i].utility, WeightFor(o, audit[i].strategyID));
    ApplyWeightNear(audit[r].utility, WeightFor(o, audit[r].strategyID));
    if audit[i].utility < 0.0 {
      ProductRises(WeightFor(o, audit[i].strategyID), audit[i].utility, 0.0);
    }
  }

  /** On a tie the two part ways: selection breaks it by raw confidence, the replay by stated confidence. */
  lemma ReplayDiffersOnTie()
    ensures var m := (c: real, r: real) => RankedMove("k", "t", c, r, [], "");
            var cs := [Candidate("a", false, [m(0.5, 0.9)], 0.0, false),
                       Candidate("b", false, [m(0.6, 0.7)], 0.0, false)];
            var o := Options(map[], "", "", 0.0);
            Selected(ScoreAll(cs, o), cs, o, 0) && Replayed(AuditOf(ScoreAll(cs, o)), o, 2, 1)
  {
    var m := (c: real, r: real) => RankedMove("k", "t", c, r, [], "");
    var cs := [Candidate("a", false, [m(0.5, 0.9)], 0.0, false), Candidate("b", false, [m(0.6, 0.7)], 0.0, false)];
    var o := Options(map[], "", "", 0.0);
    var sc := ScoreAll(cs, o);
    assert ApplyWeight(0.0, 1.0) == 0.0;
    assert Considered(sc, cs, false, 0);
    assert Picked(sc, cs, false, 0) && IncumbentAt(sc, "", -1);
  }
}
