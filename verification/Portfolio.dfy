/** Portfolio-level risk: correlation of returns aligned by date, aggregate capital at risk, uniform scaling to
    a cap. */
module Portfolio {
  import opened Domain
  import opened Products

  datatype Position = Position(fraction: real, stopFrac: real, bars: seq<Bar>)

  /** A square-root function, characterised by its square. */
  ghost predicate IsSqrt(sqrt: real -> real) {
    forall x :: x >= 0.0 ==> sqrt(x) >= 0.0 && sqrt(x) * sqrt(x) == x
  }

  lemma SqrtOf(sqrt: real -> real, x: real)
    requires IsSqrt(sqrt) && x >= 0.0
    ensures sqrt(x) >= 0.0 && Times(sqrt(x), sqrt(x)) == x
  {}

  // ---------------------------------------------------------------- aligned returns

  /** A return keyed by the date of its later bar. */
  datatype Dated = Dated(date: int, value: real)

  function Change(prev: real, close: real): real
    requires prev != 0.0
  {
    (close - prev) / prev
  }

  function Returns(bars: seq<Bar>): seq<Dated> {
    if |bars| < 2 then []
    else
      var k := |bars| - 1;
      Returns(bars[..k])
      + (if bars[k - 1].close == 0.0 then [] else [Dated(bars[k].date, Change(bars[k - 1].close, bars[k].close))])
  }

  /** A change applied to the earlier close gives the later one. */
  lemma ChangeApplied(prev: real, close: real, v: real)
    requires prev != 0.0
    ensures v == Change(prev, close) <==> Times(prev, 1.0 + v) == close
  {
    var c := Change(prev, close);
    assert c * prev == close - prev;
    if Times(prev, 1.0 + v) == close {
      assert (v - c) * prev == 0.0;
    }
  }

  /** Bar k has a return from the bar before it, whose close is not zero. */
  ghost predicate ReturnAt(bars: seq<Bar>, k: nat, d: Dated) {
    && 1 <= k < |bars| && bars[k - 1].close != 0.0
    && d.date == bars[k].date && Times(bars[k - 1].close, 1.0 + d.value) == bars[k].close
  }

  /** The returns are exactly the changes between neighbouring bars. */
  lemma {:induction false} ReturnsIff(bars: seq<Bar>, d: Dated)
    ensures d in Returns(bars) <==> exists k: nat :: ReturnAt(bars, k, d)
  {
    if |bars| >= 2 {
      var n := |bars| - 1;
      ReturnsIff(bars[..n], d);
      if bars[n - 1].close != 0.0 {
        ChangeApplied(bars[n - 1].close, bars[n].close, d.value);
      }
      hide Change, Times;
      if d in Returns(bars[..n]) {
        var k: nat :| ReturnAt(bars[..n], k, d);
        assert ReturnAt(bars, k, d);
      }
      if k: nat :| ReturnAt(bars, k, d) {
        if k < n {
          assert ReturnAt(bars[..n], k, d);
        }
      }
      assert d in Returns(bars) && d !in Returns(bars[..n]) ==> ReturnAt(bars, n, d);
    }
  }

  /** The last return with the date, as a map filled in order keeps it. */
  function ByDate(rs: seq<Dated>): map<int, real> {
    if rs == [] then map[]
    else ByDate(rs[..|rs| - 1])[rs[|rs| - 1].date := rs[|rs| - 1].value]
  }

  /** The returns of x on the dates that m has too, each paired with m's. */
  function JoinOn(x: seq<Dated>, m: map<int, real>): (r: (seq<real>, seq<real>))
    ensures |r.0| == |r.1| <= |x|
  {
    if x == [] then ([], [])
    else if x[0].date in m then
      var rest := JoinOn(x[1..], m);
      ([x[0].value] + rest.0, [m[x[0].date]] + rest.1)
    else JoinOn(x[1..], m)
  }

  function Aligned(a: seq<Bar>, b: seq<Bar>): (r: (seq<real>, seq<real>))
    ensures |r.0| == |r.1|
  {
    JoinOn(Returns(a), ByDate(Returns(b)))
  }

  lemma {:induction false} JoinSnoc(x: seq<Dated>, d: Dated, m: map<int, real>)
    ensures JoinOn(x + [d], m) ==
              if d.date in m then (JoinOn(x, m).0 + [d.value], JoinOn(x, m).1 + [m[d.date]]) else JoinOn(x, m)
  {
    if x == [] {
      assert x + [d] == [d];
      var none: seq<Dated> := [d][1..];
      assert none == [] && JoinOn(none, m) == ([], []) && JoinOn(x, m) == ([], []);
      if d.date in m {
        assert JoinOn([d], m) == ([d.value] + [], [m[d.date]] + []);
        assert [d.value] + [] == [] + [d.value] && [m[d.date]] + [] == [] + [m[d.date]];
        assert JoinOn(x + [d], m) == (JoinOn(x, m).0 + [d.value], JoinOn(x, m).1 + [m[d.date]]);
      } else {
        assert JoinOn([d], m) == JoinOn(none, m);
        assert JoinOn(x + [d], m) == JoinOn(x, m);
      }
    } else {
      assert (x + [d])[1..] == x[1..] + [d];
      JoinSnoc(x[1..], d, m);
      var rest := JoinOn(x[1..], m);
      if x[0].date in m && d.date in m {
        assert [x[0].value] + (rest.0 + [d.value]) == ([x[0].value] + rest.0) + [d.value];
        assert [m[x[0].date]] + (rest.1 + [m[d.date]]) == ([m[x[0].date]] + rest.1) + [m[d.date]];
      }
    }
  }

  lemma ReturnsSnoc(bars: seq<Bar>, i: nat)
    requires 1 <= i < |bars|
    ensures Returns(bars[..i + 1]) ==
              if bars[i - 1].close == 0.0 then Returns(bars[..i])
              else Returns(bars[..i]) + [Dated(bars[i].date, Change(bars[i - 1].close, bars[i].close))]
  {
    hide Change;
    assert bars[..i + 1][..i] == bars[..i];
  }

  lemma ByDateSnoc(rs: seq<Dated>, d: Dated)
    ensures ByDate(rs + [d]) == ByDate(rs)[d.date := d.value]
  {
    assert (rs + [d])[..|rs|] == rs;
  }

  method ReturnsByDate(bars: seq<Bar>) returns (m: map<int, real>)
    ensures m == ByDate(Returns(bars))
  {
    m := map[];
    if |bars| == 0 {
      return;
    }
    assert Returns(bars[..1]) == [];
    for i := 1 to |bars|
      invariant m == ByDate(Returns(bars[..i]))
    {
      hide Change, Returns, ByDate;
      ReturnsSnoc(bars, i);
      var prev := bars[i - 1].close;
      if prev == 0.0 {
        continue;
      }
      ByDateSnoc(Returns(bars[..i]), Dated(bars[i].date, Change(prev, bars[i].close)));
      m := m[bars[i].date := Change(prev, bars[i].close)];
    }
    assert bars[..|bars|] == bars;
  }

  method AlignedReturns(a: seq<Bar>, b: seq<Bar>) returns (ra: seq<real>, rb: seq<real>)
    ensures (ra, rb) == Aligned(a, b)
  {
    var mb := ReturnsByDate(b);
    ra, rb := [], [];
    if |a| == 0 {
      return;
    }
    assert Returns(a[..1]) == [];
    for i := 1 to |a|
      invariant (ra, rb) == JoinOn(Returns(a[..i]), mb)
    {
      hide Change, Returns, JoinOn;
      ReturnsSnoc(a, i);
      var prev := a[i - 1].close;
      if prev == 0.0 {
        continue;
      }
      var date := a[i].date;
      JoinSnoc(Returns(a[..i]), Dated(date, Change(prev, a[i].close)), mb);
      if date in mb {
        ra := ra + [Change(prev, a[i].close)];
        rb := rb + [mb[date]];
      }
    }
    assert a[..|a|] == a;
  }

  // Symmetry: for strictly dated series both joins are the same merge.

  ghost predicate StrictlyDated(bars: seq<Bar>) {
    forall i, j :: 0 <= i < j < |bars| ==> bars[i].date < bars[j].date
  }

  ghost predicate StrictDates(x: seq<Dated>) {
    forall i, j :: 0 <= i < j < |x| ==> x[i].date < x[j].date
  }

  lemma {:induction false} ReturnsStrict(bars: seq<Bar>)
    requires StrictlyDated(bars)
    ensures StrictDates(Returns(bars))
    ensures forall d :: d in Returns(bars) ==> bars != [] && d.date <= bars[|bars| - 1].date
  {
    if |bars| >= 2 {
      ReturnsStrict(bars[..|bars| - 1]);
      var front := Returns(bars[..|bars| - 1]);
      assert forall i :: 0 <= i < |front| ==> front[i] in front;
    }
  }

  lemma {:induction false} ByDateLookup(x: seq<Dated>, d: int)
    requires StrictDates(x)
    ensures d in ByDate(x) <==> exists i :: 0 <= i < |x| && x[i].date == d
    ensures forall i :: 0 <= i < |x| && x[i].date == d ==> d in ByDate(x) && ByDate(x)[d] == x[i].value
  {
    if x != [] {
      var k := |x| - 1;
      ByDateLookup(x[..k], d);
      if exists i :: 0 <= i < |x| && x[i].date == d {
        var i :| 0 <= i < |x| && x[i].date == d;
        assert i < k ==> x[..k][i].date == d;
      }
      if d in ByDate(x[..k]) {
        var i :| 0 <= i < |x[..k]| && x[..k][i].date == d;
        assert x[i].date == d;
      }
    }
  }

  /** The map holds a date exactly if some return has it, and then the last such return. */
  lemma {:induction false} ByDateIsLast(x: seq<Dated>, d: int)
    ensures d in ByDate(x) <==> exists i :: 0 <= i < |x| && x[i].date == d
    ensures forall i :: 0 <= i < |x| && x[i].date == d && (forall j :: i < j < |x| ==> x[j].date != d) ==>
              d in ByDate(x) && ByDate(x)[d] == x[i].value
  {
    if x != [] {
      var k := |x| - 1;
      ByDateIsLast(x[..k], d);
      if d in ByDate(x[..k]) {
        var i :| 0 <= i < k && x[..k][i].date == d;
        assert x[i].date == d;
      }
      forall i | 0 <= i < |x| && x[i].date == d ensures d in ByDate(x) {
        assert i < k ==> x[..k][i].date == d;
      }
      forall i | 0 <= i < |x| && x[i].date == d && (forall j :: i < j < |x| ==> x[j].date != d)
        ensures d in ByDate(x) && ByDate(x)[d] == x[i].value
      {
        if i < k {
          assert x[k].date != d && x[..k][i].date == d;
          assert forall j :: i < j < k ==> x[..k][j].date != d;
        }
      }
    }
  }

  /** The textbook merge join of two date-ordered lists. */
  function Merge(x: seq<Dated>, y: seq<Dated>): (seq<real>, seq<real>)
    decreases |x| + |y|
  {
    if x == [] || y == [] then ([], [])
    else if x[0].date < y[0].date then Merge(x[1..], y)
    else if y[0].date < x[0].date then Merge(x, y[1..])
    else
      var rest := Merge(x[1..], y[1..]);
      ([x[0].value] + rest.0, [y[0].value] + rest.1)
  }

  lemma {:induction false} MergeSwaps(x: seq<Dated>, y: seq<Dated>)
    ensures Merge(y, x) == (Merge(x, y).1, Merge(x, y).0)
    decreases |x| + |y|
  {
    if x != [] && y != [] {
      if x[0].date < y[0].date {
        MergeSwaps(x[1..], y);
      } else if y[0].date < x[0].date {
        MergeSwaps(x, y[1..]);
      } else {
        MergeSwaps(x[1..], y[1..]);
      }
    }
  }

  /** Maps that agree on the dates of x give the same join. */
  lemma {:induction false} JoinAgrees(x: seq<Dated>, m: map<int, real>, m': map<int, real>)
    requires forall i :: 0 <= i < |x| ==> (x[i].date in m <==> x[i].date in m')
    requires forall i :: 0 <= i < |x| && x[i].date in m ==> m[x[i].date] == m'[x[i].date]
    ensures JoinOn(x, m) == JoinOn(x, m')
  {
    if x != [] {
      JoinAgrees(x[1..], m, m');
    }
  }

  /** Dropping y's first return changes nothing for dates after it. */
  lemma DropFirst(x: seq<Dated>, y: seq<Dated>)
    requires StrictDates(y) && y != []
    requires forall i :: 0 <= i < |x| ==> x[i].date > y[0].date
    ensures JoinOn(x, ByDate(y)) == JoinOn(x, ByDate(y[1..]))
  {
    forall i | 0 <= i < |x|
      ensures x[i].date in ByDate(y) <==> x[i].date in ByDate(y[1..])
      ensures x[i].date in ByDate(y) ==> ByDate(y)[x[i].date] == ByDate(y[1..])[x[i].date]
    {
      var d := x[i].date;
      ByDateLookup(y, d);
      ByDateLookup(y[1..], d);
      if d in ByDate(y) {
        var k :| 0 <= k < |y| && y[k].date == d;
        assert y[1..][k - 1].date == d;
      }
      if d in ByDate(y[1..]) {
        var k :| 0 <= k < |y[1..]| && y[1..][k].date == d;
        assert y[k + 1].date == d;
      }
    }
    JoinAgrees(x, ByDate(y), ByDate(y[1..]));
  }

  lemma {:induction false} JoinIsMerge(x: seq<Dated>, y: seq<Dated>)
    requires StrictDates(x) && StrictDates(y)
    ensures JoinOn(x, ByDate(y)) == Merge(x, y)
    decreases |x| + |y|
  {
    if x == [] {
    } else if y == [] {
      JoinEmpty(x);
    } else {
      ByDateLookup(y, x[0].date);
      if x[0].date < y[0].date {
        JoinIsMerge(x[1..], y);
      } else if y[0].date < x[0].date {
        DropFirst(x, y);
        JoinIsMerge(x, y[1..]);
      } else {
        assert y[0].date == x[0].date;
        DropFirst(x[1..], y);
        JoinIsMerge(x[1..], y[1..]);
      }
    }
  }

  lemma {:induction false} JoinEmpty(x: seq<Dated>)
    ensures JoinOn(x, map[]) == ([], [])
  {
    if x != [] { JoinEmpty(x[1..]); }
  }

  lemma AlignedSwaps(a: seq<Bar>, b: seq<Bar>)
    requires StrictlyDated(a) && StrictlyDated(b)
    ensures Aligned(b, a) == (Aligned(a, b).1, Aligned(a, b).0)
  {
    ReturnsStrict(a);
    ReturnsStrict(b);
    JoinIsMerge(Returns(a), Returns(b));
    JoinIsMerge(Returns(b), Returns(a));
    MergeSwaps(Returns(a), Returns(b));
  }

  ghost predicate PairAt(r: (seq<real>, seq<real>), k: nat, v: real, w: real)
    requires |r.0| == |r.1|
  {
    k < |r.0| && r.0[k] == v && r.1[k] == w
  }

  ghost predicate Paired(a: seq<Bar>, b: seq<Bar>, k: nat, v: real, w: real) {
    PairAt(Aligned(a, b), k, v, w)
  }

  lemma {:induction false} JoinHas(x: seq<Dated>, m: map<int, real>, i: nat) returns (k: nat)
    requires i < |x| && x[i].date in m
    ensures PairAt(JoinOn(x, m), k, x[i].value, m[x[i].date])
  {
    if i == 0 {
      k := 0;
    } else {
      k := JoinHas(x[1..], m, i - 1);
      if x[0].date in m {
        k := k + 1;
      }
    }
  }

  lemma {:induction false} JoinHasOnly(x: seq<Dated>, m: map<int, real>, k: nat) returns (i: nat)
    requires k < |JoinOn(x, m).0|
    ensures i < |x| && x[i].date in m && PairAt(JoinOn(x, m), k, x[i].value, m[x[i].date])
  {
    if x[0].date in m && k == 0 {
      i := 0;
    } else {
      i := JoinHasOnly(x[1..], m, if x[0].date in m then k - 1 else k);
      i := i + 1;
    }
  }

  ghost predicate OnOneDate(x: seq<Dated>, y: seq<Dated>, date: int, v: real, w: real) {
    Dated(date, v) in x && Dated(date, w) in y
  }

  lemma MapHolds(y: seq<Dated>, date: int, w: real)
    requires StrictDates(y)
    ensures Dated(date, w) in y <==> date in ByDate(y) && ByDate(y)[date] == w
  {
    ByDateLookup(y, date);
    if Dated(date, w) in y {
      var i :| 0 <= i < |y| && y[i] == Dated(date, w);
      assert y[i].date == date;
    }
  }

  lemma PairHasDate(a: seq<Bar>, b: seq<Bar>, k: nat, v: real, w: real) returns (date: int)
    requires StrictlyDated(b) && Paired(a, b, k, v, w)
    ensures OnOneDate(Returns(a), Returns(b), date, v, w)
  {
    hide JoinOn, Returns, ByDate, StrictDates;
    var x, y := Returns(a), Returns(b);
    ReturnsStrict(b);
    var i := JoinHasOnly(x, ByDate(y), k);
    date := x[i].date;
    MapHolds(y, date, w);
    assert x[i] == Dated(date, v);
  }

  lemma DateHasPair(a: seq<Bar>, b: seq<Bar>, date: int, v: real, w: real) returns (k: nat)
    requires StrictlyDated(b) && OnOneDate(Returns(a), Returns(b), date, v, w)
    ensures Paired(a, b, k, v, w)
  {
    hide JoinOn, Returns, ByDate, StrictDates;
    var x, y := Returns(a), Returns(b);
    ReturnsStrict(b);
    var i: nat :| i < |x| && x[i] == Dated(date, v);
    MapHolds(y, date, w);
    k := JoinHas(x, ByDate(y), i);
  }

  /** MAIN: against a strictly dated series the pairs are exactly those of returns with the same date. */
  lemma AlignedIff(a: seq<Bar>, b: seq<Bar>, v: real, w: real)
    requires StrictlyDated(b)
    ensures (exists k: nat :: Paired(a, b, k, v, w)) <==>
              exists date :: OnOneDate(Returns(a), Returns(b), date, v, w)
  {
    hide Paired, OnOneDate;
    if k: nat :| Paired(a, b, k, v, w) {
      var date := PairHasDate(a, b, k, v, w);
    }
    if date :| OnOneDate(Returns(a), Returns(b), date, v, w) {
      var k := DateHasPair(a, b, date, v, w);
    }
  }

  // ---------------------------------------------------------------- correlation

  function Sum(xs: seq<real>): real {
    if xs == [] then 0.0 else Sum(xs[..|xs| - 1]) + xs[|xs| - 1]
  }

  function Dot(xs: seq<real>, ys: seq<real>): real
    requires |xs| == |ys|
  {
    if xs == [] then 0.0
    else
      var k := |xs| - 1;
      Dot(xs[..k], ys[..k]) + Times(xs[k], ys[k])
  }

  function Centred(xs: seq<real>): (c: seq<real>)
    requires xs != []
    ensures |c| == |xs|
  {
    var mean := Sum(xs) / |xs| as real;
    seq(|xs|, i requires 0 <= i < |xs| => xs[i] - mean)
  }

  /** Pearson correlation without any clamp; 1 when it cannot be measured. */
  function Pearson(ra: seq<real>, rb: seq<real>, sqrt: real -> real): real
    requires |ra| == |rb|
  {
    if |ra| < 2 then 1.0
    else
      var ca, cb := Centred(ra), Centred(rb);
      var root := sqrt(Times(Dot(ca, ca), Dot(cb, cb)));
      if Dot(ca, ca) == 0.0 || Dot(cb, cb) == 0.0 || root == 0.0 then 1.0
      else Dot(ca, cb) / root
  }

  lemma {:induction false} DotSelf(xs: seq<real>)
    ensures Dot(xs, xs) >= 0.0
  {
    if xs != [] {
      var k := |xs| - 1;
      DotSelf(xs[..k]);
      assert Times(xs[k], xs[k]) >= 0.0;
    }
  }

  lemma {:induction false} DotCommutes(xs: seq<real>, ys: seq<real>)
    requires |xs| == |ys|
    ensures Dot(xs, ys) == Dot(ys, xs)
  {
    hide Times;
    if xs != [] {
      var k := |xs| - 1;
      DotCommutes(xs[..k], ys[..k]);
      TimesCommutes(xs[k], ys[k]);
    }
  }

  ghost function Minus(xs: seq<real>, t: real, ys: seq<real>): (d: seq<real>)
    requires |xs| == |ys|
    ensures |d| == |xs|
  {
    seq(|xs|, i requires 0 <= i < |xs| => xs[i] - Times(t, ys[i]))
  }

  lemma SquareOfDifference(x: real, t: real, y: real)
    ensures Times(x - Times(t, y), x - Times(t, y))
         == Times(x, x) - 2.0 * Times(t, Times(x, y)) + Times(Times(t, t), Times(y, y))
  {}

  /** |x - t*y|^2 as a quadratic in t. */
  lemma {:induction false} DotQuadratic(xs: seq<real>, ys: seq<real>, t: real)
    requires |xs| == |ys|
    ensures Dot(Minus(xs, t, ys), Minus(xs, t, ys))
         == Dot(xs, xs) - 2.0 * Times(t, Dot(xs, ys)) + Times(Times(t, t), Dot(ys, ys))
  {
    if xs == [] {
      TimesZero(t);
      TimesZero(Times(t, t));
    } else {
      hide Times;
      var k := |xs| - 1;
      DotQuadratic(xs[..k], ys[..k], t);
      assert Minus(xs, t, ys)[..k] == Minus(xs[..k], t, ys[..k]);
      SquareOfDifference(xs[k], t, ys[k]);
      TimesSum(t, Dot(xs[..k], ys[..k]), Times(xs[k], ys[k]), Dot(xs, ys));
      TimesSum(Times(t, t), Dot(ys[..k], ys[..k]), Times(ys[k], ys[k]), Dot(ys, ys));
    }
  }

  lemma Discriminant(a: real, s: real, b: real, t: real)
    requires b > 0.0 && t == s / b
    requires a - 2.0 * Times(t, s) + Times(Times(t, t), b) >= 0.0
    ensures Times(s, s) <= Times(a, b)
  {
    assert t * b == s;
    var u := t * s;
    assert t * t * b == u;
    assert a - u >= 0.0;
    assert (a - u) * b >= 0.0;
    assert u * b == s * s;
  }

  /** MAIN: Cauchy-Schwarz. */
  lemma CauchySchwarz(xs: seq<real>, ys: seq<real>)
    requires |xs| == |ys| && Dot(ys, ys) != 0.0
    ensures Times(Dot(xs, ys), Dot(xs, ys)) <= Times(Dot(xs, xs), Dot(ys, ys))
  {
    hide Times;
    DotSelf(ys);
    var t := Dot(xs, ys) / Dot(ys, ys);
    DotQuadratic(xs, ys, t);
    DotSelf(Minus(xs, t, ys));
    Discriminant(Dot(xs, xs), Dot(xs, ys), Dot(ys, ys), t);
  }

  lemma QuotientWithinOne(s: real, root: real)
    requires root > 0.0 && Times(s, s) <= Times(root, root)
    ensures -1.0 <= s / root <= 1.0
  {
    WithinRoot(s, root);
    var q := s / root;
    assert q * root == s;
    Bounds(q, root);
  }

  lemma WithinRoot(s: real, root: real)
    requires root > 0.0 && Times(s, s) <= Times(root, root)
    ensures -root <= s <= root
  {
    assert Times(root + s, root - s) == Times(root, root) - Times(s, s);
    if root + s > 0.0 {
      TimesSign(root + s, root - s);
    } else {
      TimesCommutes(root + s, root - s);
      TimesSign(root - s, root + s);
    }
  }

  lemma Bounds(q: real, root: real)
    requires root > 0.0 && -root <= q * root <= root
    ensures -1.0 <= q <= 1.0
  {
    assert (1.0 - q) * root >= 0.0 && (1.0 + q) * root >= 0.0;
    TimesSign(root, 1.0 - q);
    TimesSign(root, 1.0 + q);
  }

  /** MAIN: the correlation lies in [-1,1] before any clamp. */
  lemma PearsonWithinOne(ra: seq<real>, rb: seq<real>, sqrt: real -> real)
    requires |ra| == |rb| && IsSqrt(sqrt)
    ensures -1.0 <= Pearson(ra, rb, sqrt) <= 1.0
  {
    if |ra| >= 2 {
      var ca, cb := Centred(ra), Centred(rb);
      var va, vb := Dot(ca, ca), Dot(cb, cb);
      if va != 0.0 && vb != 0.0 {
        DotSelf(ca);
        DotSelf(cb);
        TimesSign(va, vb);
        SqrtOf(sqrt, Times(va, vb));
        TimesZero(0.0);
        hide Times;
        CauchySchwarz(ca, cb);
        QuotientWithinOne(Dot(ca, cb), sqrt(Times(va, vb)));
      }
    }
  }

  /** MAIN: correlation is symmetric for strictly dated series. */
  lemma CorrelationSymmetric(a: seq<Bar>, b: seq<Bar>, sqrt: real -> real)
    requires StrictlyDated(a) && StrictlyDated(b)
    ensures Pearson(Aligned(a, b).0, Aligned(a, b).1, sqrt) == Pearson(Aligned(b, a).0, Aligned(b, a).1, sqrt)
  {
    AlignedSwaps(a, b);
    var (ra, rb) := Aligned(a, b);
    if |ra| >= 2 {
      hide Times;
      DotCommutes(Centred(ra), Centred(rb));
      TimesCommutes(Dot(Centred(ra), Centred(ra)), Dot(Centred(rb), Centred(rb)));
    }
  }

  // What the correlation measures.

  /** Some two values differ. */
  ghost predicate Varied(xs: seq<real>) {
    exists i, j :: 0 <= i < j < |xs| && xs[i] != xs[j]
  }

  ghost function Shifted(xs: seq<real>, m: real): (s: seq<real>)
    ensures |s| == |xs|
  {
    seq(|xs|, i requires 0 <= i < |xs| => xs[i] - m)
  }

  ghost function Affine(xs: seq<real>, a: real, b: real): (s: seq<real>)
    ensures |s| == |xs|
  {
    seq(|xs|, i requires 0 <= i < |xs| => Times(a, xs[i]) + b)
  }

  lemma ShiftedTerm(x: real, m: real, y: real, k: real)
    ensures Times(x - m, y - k) == Times(x, y) - Times(k, x) - Times(m, y) + Times(m, k)
  {}

  lemma {:induction false} DotShifted(xs: seq<real>, m: real, ys: seq<real>, k: real)
    requires |xs| == |ys|
    ensures Dot(Shifted(xs, m), Shifted(ys, k))
         == Dot(xs, ys) - Times(k, Sum(xs)) - Times(m, Sum(ys)) + Times(|xs| as real, Times(m, k))
  {
    if xs == [] {
      TimesZero(k);
      TimesZero(m);
      TimesZero(Times(m, k));
    } else {
      hide Times;
      var n := |xs| - 1;
      DotShifted(xs[..n], m, ys[..n], k);
      assert Shifted(xs, m)[..n] == Shifted(xs[..n], m) && Shifted(ys, k)[..n] == Shifted(ys[..n], k);
      ShiftedTerm(xs[n], m, ys[n], k);
      TimesSum(k, Sum(xs[..n]), xs[n], Sum(xs));
      TimesSum(m, Sum(ys[..n]), ys[n], Sum(ys));
      TimesSum(Times(m, k), n as real, 1.0, |xs| as real);
      WholeScale(Times(m, k));
    }
  }

  lemma MeanTimesCount(sum: real, n: real, m: real)
    requires n > 0.0 && m == sum / n
    ensures Times(n, m) == sum
  {}

  lemma TimesAssociates(a: real, b: real, c: real)
    ensures Times(a, Times(b, c)) == Times(Times(a, b), c)
  {}

  /** The sum of the products of deviations from the means, times the count, in terms of the values themselves. */
  lemma CentredDot(xs: seq<real>, ys: seq<real>)
    requires |xs| == |ys| && xs != []
    ensures Times(|xs| as real, Dot(Centred(xs), Centred(ys)))
         == Times(|xs| as real, Dot(xs, ys)) - Times(Sum(xs), Sum(ys))
  {
    hide Times;
    var n, m, k := |xs| as real, Sum(xs) / |xs| as real, Sum(ys) / |ys| as real;
    assert Centred(xs) == Shifted(xs, m) && Centred(ys) == Shifted(ys, k);
    DotShifted(xs, m, ys, k);
    MeanTimesCount(Sum(xs), n, m);
    MeanTimesCount(Sum(ys), n, k);
    CountTimes(n, Dot(xs, ys), m, k, Sum(xs), Sum(ys));
  }

  lemma CountTimes(n: real, dot: real, m: real, k: real, x: real, y: real)
    requires Times(n, m) == x && Times(n, k) == y
    ensures Times(n, dot - Times(k, x) - Times(m, y) + Times(n, Times(m, k))) == Times(n, dot) - Times(x, y)
  {
    assert n * (k * x) == y * x;
    assert n * (m * y) == x * y;
    assert n * (n * (m * k)) == (n * m) * (n * k);
  }

  lemma {:induction false} DotSelfZero(xs: seq<real>)
    requires Dot(xs, xs) == 0.0
    ensures forall i :: 0 <= i < |xs| ==> xs[i] == 0.0
  {
    if xs != [] {
      var k := |xs| - 1;
      DotSelf(xs[..k]);
      SquarePositive(xs[k]);
      hide Times;
      DotSelfZero(xs[..k]);
      forall i | 0 <= i < |xs| ensures xs[i] == 0.0 {
        if i < k { assert xs[..k][i] == 0.0; }
      }
    }
  }

  lemma SquarePositive(x: real)
    ensures Times(x, x) >= 0.0 && (Times(x, x) == 0.0 ==> x == 0.0)
  {
    if x > 0.0 {
      TimesSign(x, x);
    } else if x < 0.0 {
      TimesSign(-x, -x);
      assert Times(x, x) == Times(-x, -x);
    }
  }

  lemma {:induction false} ConstantSum(xs: seq<real>, c: real)
    requires forall i :: 0 <= i < |xs| ==> xs[i] == c
    ensures Sum(xs) == Times(|xs| as real, c)
  {
    if xs != [] {
      ConstantSum(xs[..|xs| - 1], c);
    }
  }

  lemma {:induction false} DotZeros(xs: seq<real>)
    requires forall i :: 0 <= i < |xs| ==> xs[i] == 0.0
    ensures Dot(xs, xs) == 0.0
  {
    if xs != [] {
      DotZeros(xs[..|xs| - 1]);
    }
  }

  lemma MeanOfConstant(n: real, c: real, sum: real)
    requires n > 0.0 && sum == Times(n, c)
    ensures sum / n == c
  {}

  /** The variance vanishes exactly if all values are the same. */
  lemma VarianceZeroIff(xs: seq<real>)
    requires xs != []
    ensures Dot(Centred(xs), Centred(xs)) == 0.0 <==> !Varied(xs)
    ensures Dot(Centred(xs), Centred(xs)) >= 0.0
  {
    hide Times;
    var c := Centred(xs);
    DotSelf(c);
    if Dot(c, c) == 0.0 {
      DotSelfZero(c);
      forall i, j | 0 <= i < j < |xs| ensures xs[i] == xs[j] {
        assert c[i] == 0.0 && c[j] == 0.0;
      }
    } else if !Varied(xs) {
      forall i | 0 <= i < |xs| ensures xs[i] == xs[0] {}
      ConstantSum(xs, xs[0]);
      MeanOfConstant(|xs| as real, xs[0], Sum(xs));
      DotZeros(c);
    }
  }

  /** n times the sum of the products less the product of the sums. */
  ghost function Comoment(xs: seq<real>, ys: seq<real>): real
    requires |xs| == |ys|
  {
    Times(|xs| as real, Dot(xs, ys)) - Times(Sum(xs), Sum(ys))
  }

  /** MAIN: a pair counts as fully correlated if it is too short or one series never varies. Otherwise the correlation
      is the textbook one over the given values: it has the sign of their comoment, and its square times the two moments
      is the square of the comoment. */
  lemma PearsonTextbook(ra: seq<real>, rb: seq<real>, sqrt: real -> real)
    requires |ra| == |rb| && IsSqrt(sqrt)
    ensures !Varied(ra) || !Varied(rb) ==> Pearson(ra, rb, sqrt) == 1.0
    ensures Varied(ra) && Varied(rb) ==>
              && var rho := Pearson(ra, rb, sqrt);
              && (rho > 0.0 <==> Comoment(ra, rb) > 0.0) && (rho < 0.0 <==> Comoment(ra, rb) < 0.0)
              && Times(Times(rho, rho), Times(Comoment(ra, ra), Comoment(rb, rb)))
                 == Times(Comoment(ra, rb), Comoment(ra, rb))
  {
    if |ra| >= 2 {
      hide Times, IsSqrt;
      VarianceZeroIff(ra);
      VarianceZeroIff(rb);
      if Varied(ra) && Varied(rb) {
        MeasuredPearson(ra, rb, sqrt);
      }
    }
  }

  lemma MeasuredPearson(ra: seq<real>, rb: seq<real>, sqrt: real -> real)
    requires |ra| == |rb| >= 2 && IsSqrt(sqrt)
    requires Dot(Centred(ra), Centred(ra)) > 0.0 && Dot(Centred(rb), Centred(rb)) > 0.0
    ensures var rho := Pearson(ra, rb, sqrt);
            && (rho > 0.0 <==> Comoment(ra, rb) > 0.0) && (rho < 0.0 <==> Comoment(ra, rb) < 0.0)
            && Times(Times(rho, rho), Times(Comoment(ra, ra), Comoment(rb, rb)))
               == Times(Comoment(ra, rb), Comoment(ra, rb))
  {
    hide Times, IsSqrt, Dot, Sum;
    var n, ca, cb := |ra| as real, Centred(ra), Centred(rb);
    var va, vb, cov := Dot(ca, ca), Dot(cb, cb), Dot(ca, cb);
    PositiveRoot(ca, cb, sqrt);
    TimesSign(va, vb);
    SqrtOf(sqrt, Times(va, vb));
    CentredDot(ra, rb);
    CentredDot(ra, ra);
    CentredDot(rb, rb);
    TimesSign(n, cov);
    QuotientSign(cov, sqrt(Times(va, vb)));
    SquaredQuotient(cov, sqrt(Times(va, vb)), va, vb, n);
  }

  lemma QuotientSign(s: real, root: real)
    requires root > 0.0
    ensures (s / root > 0.0 <==> s > 0.0) && (s / root < 0.0 <==> s < 0.0)
  {
    assert Times(root, s / root) == s;
    TimesSign(root, s / root);
  }

  lemma SquaredQuotient(s: real, root: real, va: real, vb: real, n: real)
    requires root > 0.0 && Times(root, root) == Times(va, vb)
    ensures Times(Times(s / root, s / root), Times(Times(n, va), Times(n, vb))) == Times(Times(n, s), Times(n, s))
  {
    var q := s / root;
    assert q * root == s;
    SquareOfProduct(q, root);
    SquareOfProduct(n, s);
    assert Times(Times(n, va), Times(n, vb)) == Times(Times(n, n), Times(va, vb)) by {
      assert (n * va) * (n * vb) == (n * n) * (va * vb);
    }
    assert Times(Times(q, q), Times(root, root)) == Times(s, s);
    hide Times;
    Regroup(Times(q, q), Times(n, n), Times(va, vb));
  }

  lemma Regroup(a: real, b: real, c: real)
    ensures Times(a, Times(b, c)) == Times(b, Times(a, c))
  {}

  lemma {:induction false} SumAffine(xs: seq<real>, a: real, b: real)
    ensures Sum(Affine(xs, a, b)) == Times(a, Sum(xs)) + Times(|xs| as real, b)
  {
    if xs == [] {
      TimesZero(a);
      TimesZero(b);
    } else {
      hide Times;
      var n := |xs| - 1;
      SumAffine(xs[..n], a, b);
      assert Affine(xs, a, b)[..n] == Affine(xs[..n], a, b);
      TimesSum(a, Sum(xs[..n]), xs[n], Sum(xs));
      TimesSum(b, n as real, 1.0, |xs| as real);
      WholeScale(b);
    }
  }

  lemma AffineMean(sum: real, sum': real, a: real, b: real, n: real)
    requires n > 0.0 && sum' == Times(a, sum) + Times(n, b)
    ensures sum' / n == Times(a, sum / n) + b
  {
    var m := sum / n;
    assert m * n == sum;
    assert sum' == (a * m + b) * n;
  }

  /** Scaling and shifting a series scales its deviations from the mean. */
  lemma CentredAffine(xs: seq<real>, a: real, b: real)
    requires xs != []
    ensures Centred(Affine(xs, a, b)) == Scaled(Centred(xs), a)
  {
    hide Times;
    SumAffine(xs, a, b);
    var m := Sum(xs) / |xs| as real;
    AffineMean(Sum(xs), Sum(Affine(xs, a, b)), a, b, |xs| as real);
    forall i | 0 <= i < |xs| ensures Centred(Affine(xs, a, b))[i] == Scaled(Centred(xs), a)[i] {
      TimesSum(a, xs[i] - m, m, xs[i]);
      TimesCommutes(a, xs[i] - m);
    }
  }

  lemma {:induction false} DotScaled(xs: seq<real>, k: real, ys: seq<real>)
    requires |xs| == |ys|
    ensures Dot(Scaled(xs, k), ys) == Times(k, Dot(xs, ys))
  {
    if xs == [] {
      TimesZero(k);
    } else {
      hide Times;
      var n := |xs| - 1;
      DotScaled(xs[..n], k, ys[..n]);
      assert Scaled(xs, k)[..n] == Scaled(xs[..n], k);
      TimesSum(k, Dot(xs[..n], ys[..n]), Times(xs[n], ys[n]), Dot(xs, ys));
      TimesAssociates(k, xs[n], ys[n]);
      TimesCommutes(k, xs[n]);
    }
  }

  lemma DotBothScaled(xs: seq<real>, k: real)
    ensures Dot(Scaled(xs, k), Scaled(xs, k)) == Times(Times(k, k), Dot(xs, xs))
  {
    hide Times;
    DotScaled(xs, k, Scaled(xs, k));
    DotCommutes(xs, Scaled(xs, k));
    DotScaled(xs, k, xs);
    TimesAssociates(k, k, Dot(xs, xs));
  }

  lemma ScaledQuotient(s: real, root: real, k: real)
    requires root > 0.0 && k > 0.0
    ensures Times(k, root) > 0.0 && Times(k, s) / Times(k, root) == s / root
  {
    TimesSign(k, root);
    var q := s / root;
    assert q * root == s;
    assert q * (k * root) == k * s;
  }

  lemma ScaledRoot(sqrt: real -> real, va: real, vb: real, k: real)
    requires IsSqrt(sqrt) && va > 0.0 && vb > 0.0 && k > 0.0
    ensures sqrt(Times(Times(Times(k, k), va), vb)) == Times(k, sqrt(Times(va, vb)))
    ensures sqrt(Times(va, vb)) > 0.0
  {
    TimesSign(va, vb);
    SqrtOf(sqrt, Times(va, vb));
    var root := sqrt(Times(va, vb));
    assert root != 0.0 by { TimesZero(0.0); }
    TimesNonNegative(k, root);
    hide IsSqrt;
    assert Times(Times(Times(k, k), va), vb) == Times(Times(k, root), Times(k, root)) by {
      SquareOfProduct(k, root);
      TimesAssociates(Times(k, k), va, vb);
    }
    TimesSign(k, root);
    TimesSign(Times(k, root), Times(k, root));
    RootOfSquare(sqrt, Times(k, root));
  }

  /** MAIN: the correlation does not change when one series is scaled by a positive factor and shifted. */
  lemma CorrelationOfAffine(ra: seq<real>, rb: seq<real>, a: real, b: real, sqrt: real -> real)
    requires |ra| == |rb| && a > 0.0 && IsSqrt(sqrt)
    ensures Pearson(Affine(ra, a, b), rb, sqrt) == Pearson(ra, rb, sqrt)
  {
    if |ra| >= 2 {
      hide Times, IsSqrt, Dot, Centred;
      var ca, cb := Centred(ra), Centred(rb);
      var va, vb := Dot(ca, ca), Dot(cb, cb);
      CentredAffine(ra, a, b);
      DotBothScaled(ca, a);
      DotScaled(ca, a, cb);
      TimesSign(a, a);
      DotSelf(ca);
      DotSelf(cb);
      TimesSign(Times(a, a), va);
      TimesZero(Times(a, a));
      if va > 0.0 && vb > 0.0 {
        ScaledRoot(sqrt, va, vb, a);
        ScaledQuotient(Dot(ca, cb), sqrt(Times(va, vb)), a);
      }
    }
  }

  /** MAIN: a series is fully correlated with itself, and a varying one fully anticorrelated with its negation. */
  lemma CorrelationWithItself(r: seq<real>, sqrt: real -> real)
    requires IsSqrt(sqrt)
    ensures Pearson(r, r, sqrt) == 1.0
    ensures Varied(r) ==> Pearson(r, Affine(r, -1.0, 0.0), sqrt) == -1.0
  {
    if |r| >= 2 {
      hide Times, IsSqrt, Dot, Centred;
      var c := Centred(r);
      var v := Dot(c, c);
      VarianceZeroIff(r);
      DotSelf(c);
      CentredAffine(r, -1.0, 0.0);
      DotBothScaled(c, -1.0);
      DotScaled(c, -1.0, c);
      DotCommutes(Scaled(c, -1.0), c);
      MinusOne(v);
      if v > 0.0 {
        TimesSign(v, v);
        RootOfSquare(sqrt, v);
        assert v / v == 1.0 && (-v) / v == -1.0;
      }
    }
  }

  lemma MinusOne(v: real)
    ensures Times(-1.0, v) == -v && Times(Times(-1.0, -1.0), v) == v
  {}

  function ClampRange(x: real, lo: real, hi: real): real {
    if x < lo then lo else if x > hi then hi else x
  }

  method Means(ra: seq<real>, rb: seq<real>) returns (meanA: real, meanB: real)
    requires |ra| == |rb| > 0
    ensures meanA == Sum(ra) / |ra| as real && meanB == Sum(rb) / |rb| as real
  {
    meanA, meanB := 0.0, 0.0;
    for i := 0 to |ra|
      invariant meanA == Sum(ra[..i]) && meanB == Sum(rb[..i])
    {
      assert ra[..i + 1][..i] == ra[..i] && rb[..i + 1][..i] == rb[..i];
      meanA := meanA + ra[i];
      meanB := meanB + rb[i];
    }
    assert ra[..|ra|] == ra && rb[..|rb|] == rb;
    meanA := meanA / |ra| as real;
    meanB := meanB / |ra| as real;
  }

  method Moments(ra: seq<real>, rb: seq<real>, meanA: real, meanB: real, ghost ca: seq<real>, ghost cb: seq<real>)
    returns (cov: real, varA: real, varB: real)
    requires |ra| == |rb| == |ca| == |cb|
    requires forall i :: 0 <= i < |ra| ==> ca[i] == ra[i] - meanA && cb[i] == rb[i] - meanB
    ensures cov == Dot(ca, cb) && varA == Dot(ca, ca) && varB == Dot(cb, cb)
  {
    hide Times;
    cov, varA, varB := 0.0, 0.0, 0.0;
    for i := 0 to |ra|
      invariant cov == Dot(ca[..i], cb[..i]) && varA == Dot(ca[..i], ca[..i]) && varB == Dot(cb[..i], cb[..i])
    {
      assert ca[..i + 1][..i] == ca[..i] && cb[..i + 1][..i] == cb[..i];
      var da, db := ra[i] - meanA, rb[i] - meanB;
      cov := cov + Times(da, db);
      varA := varA + Times(da, da);
      varB := varB + Times(db, db);
    }
    assert ca[..|ra|] == ca && cb[..|ra|] == cb;
  }

  method Correlation(a: seq<Bar>, b: seq<Bar>, sqrt: real -> real) returns (rho: real)
    requires IsSqrt(sqrt)
    ensures rho == Pearson(Aligned(a, b).0, Aligned(a, b).1, sqrt)
    ensures -1.0 <= rho <= 1.0
  {
    hide Times, IsSqrt, Aligned, Sum, Dot;
    var ra, rb := AlignedReturns(a, b);
    PearsonWithinOne(ra, rb, sqrt);
    if |ra| < 2 {
      return 1.0;
    }
    var meanA, meanB := Means(ra, rb);
    var cov, varA, varB := Moments(ra, rb, meanA, meanB, Centred(ra), Centred(rb));
    if varA == 0.0 || varB == 0.0 {
      return 1.0;
    }
    PositiveRoot(Centred(ra), Centred(rb), sqrt);
    rho := ClampRange(cov / sqrt(Times(varA, varB)), -1.0, 1.0);
  }

  lemma PositiveRoot(ca: seq<real>, cb: seq<real>, sqrt: real -> real)
    requires |ca| == |cb| && IsSqrt(sqrt) && Dot(ca, ca) != 0.0 && Dot(cb, cb) != 0.0
    ensures sqrt(Times(Dot(ca, ca), Dot(cb, cb))) > 0.0
  {
    DotSelf(ca);
    DotSelf(cb);
    TimesSign(Dot(ca, ca), Dot(cb, cb));
    SqrtOf(sqrt, Times(Dot(ca, ca), Dot(cb, cb)));
    TimesZero(0.0);
  }

  // ---------------------------------------------------------------- aggregate risk

  function RiskOf(p: Position): real {
    Times(p.fraction, p.stopFrac)
  }

  function Risks(ps: seq<Position>): (r: seq<real>)
    ensures |r| == |ps|
  {
    seq(|ps|, i requires 0 <= i < |ps| => RiskOf(ps[i]))
  }

  type Correlations = (nat, nat) -> real

  function CorrelationsOf(ps: seq<Position>, sqrt: real -> real): Correlations {
    (i: nat, j: nat) =>
      if i == j || i >= |ps| || j >= |ps| then 1.0
      else Pearson(Aligned(ps[i].bars, ps[j].bars).0, Aligned(ps[i].bars, ps[j].bars).1, sqrt)
  }

  /** Sum over the first n columns of row i of r_i * r_j * rho_ij. */
  function Row(r: seq<real>, rho: Correlations, i: nat, n: nat): real
    requires i < |r| && n <= |r|
  {
    if n == 0 then 0.0 else Row(r, rho, i, n - 1) + Times(Times(r[i], r[n - 1]), rho(i, n - 1))
  }

  /** The quadratic form r' P r over the first m rows. */
  function Total(r: seq<real>, rho: Correlations, m: nat): real
    requires m <= |r|
  {
    if m == 0 then 0.0 else Total(r, rho, m - 1) + Row(r, rho, m - 1, |r|)
  }

  function Aggregate(r: seq<real>, rho: Correlations, sqrt: real -> real): real {
    if Total(r, rho, |r|) <= 0.0 then 0.0 else sqrt(Total(r, rho, |r|))
  }

  /** The inner loop: row i of the quadratic form, added to the running total. */
  method AddRow(ps: seq<Position>, i: nat, ri: real, sqrt: real -> real, before: real) returns (total: real)
    requires IsSqrt(sqrt) && i < |ps| && ri == RiskOf(ps[i])
    ensures total == before + Row(Risks(ps), CorrelationsOf(ps, sqrt), i, |ps|)
  {
    hide Times, IsSqrt, Pearson, Aligned;
    ghost var r, rhos := Risks(ps), CorrelationsOf(ps, sqrt);
    total := before;
    for j := 0 to |ps|
      invariant total == before + Row(r, rhos, i, j)
    {
      var rj := Times(ps[j].fraction, ps[j].stopFrac);
      if rj == 0.0 {
        TimesZero(ri);
        TimesZero(rhos(i, j));
        continue;
      }
      var rho := 1.0;
      if i != j {
        rho := Correlation(ps[i].bars, ps[j].bars, sqrt);
      }
      total := total + Times(Times(ri, rj), rho);
    }
  }

  method AggregateRisk(ps: seq<Position>, sqrt: real -> real) returns (risk: real)
    requires IsSqrt(sqrt)
    ensures risk == Aggregate(Risks(ps), CorrelationsOf(ps, sqrt), sqrt)
  {
    hide Times, IsSqrt, Pearson, CorrelationsOf, Row;
    ghost var r, rhos := Risks(ps), CorrelationsOf(ps, sqrt);
    var total := 0.0;
    for i := 0 to |ps|
      invariant total == Total(r, rhos, i)
    {
      var ri := Times(ps[i].fraction, ps[i].stopFrac);
      if ri == 0.0 {
        ZeroRow(r, rhos, i, |r|);
        continue;
      }
      total := AddRow(ps, i, ri, sqrt, total);
    }
    if total <= 0.0 {
      return 0.0;
    }
    return sqrt(total);
  }

  lemma {:induction false} ZeroRow(r: seq<real>, rho: Correlations, i: nat, n: nat)
    requires i < |r| && n <= |r| && r[i] == 0.0
    ensures Row(r, rho, i, n) == 0.0
  {
    if n > 0 {
      ZeroRow(r, rho, i, n - 1);
    }
  }

  // Never more than the plain sum.

  ghost predicate NonNegative(r: seq<real>) {
    forall i :: 0 <= i < |r| ==> r[i] >= 0.0
  }

  ghost predicate AtMostOne(rho: Correlations) {
    forall i, j :: rho(i, j) <= 1.0
  }

  lemma {:induction false} RowBound(r: seq<real>, rho: Correlations, i: nat, n: nat)
    requires i < |r| && n <= |r| && NonNegative(r) && AtMostOne(rho)
    ensures Row(r, rho, i, n) <= Times(r[i], Sum(r[..n]))
  {
    if n == 0 {
      TimesZero(r[i]);
    } else {
      hide Times;
      RowBound(r, rho, i, n - 1);
      assert r[..n][..n - 1] == r[..n - 1];
      TimesNonNegative(r[i], r[n - 1]);
      AtMostProduct(Times(r[i], r[n - 1]), rho(i, n - 1));
      TimesSum(r[i], Sum(r[..n - 1]), r[n - 1], Sum(r[..n]));
    }
  }

  lemma AtMostProduct(p: real, c: real)
    requires p >= 0.0 && c <= 1.0
    ensures Times(p, c) <= p
  {
    assert p * (1.0 - c) >= 0.0;
  }

  lemma {:induction false} TotalBound(r: seq<real>, rho: Correlations, m: nat)
    requires m <= |r| && NonNegative(r) && AtMostOne(rho)
    ensures Total(r, rho, m) <= Times(Sum(r[..m]), Sum(r))
  {
    assert r[..|r|] == r;
    if m == 0 {
      TimesZero(Sum(r));
    } else {
      hide Times;
      TotalBound(r, rho, m - 1);
      RowBound(r, rho, m - 1, |r|);
      assert r[..m][..m - 1] == r[..m - 1];
      TimesSum(Sum(r), Sum(r[..m - 1]), r[m - 1], Sum(r[..m]));
    }
  }

  lemma {:induction false} SumNonNegative(r: seq<real>)
    requires NonNegative(r)
    ensures Sum(r) >= 0.0
  {
    if r != [] {
      SumNonNegative(r[..|r| - 1]);
    }
  }

  /** MAIN: for non-negative risks the aggregate never exceeds the plain sum. */
  lemma AggregateAtMostSum(ps: seq<Position>, sqrt: real -> real)
    requires IsSqrt(sqrt) && NonNegative(Risks(ps))
    ensures 0.0 <= Aggregate(Risks(ps), CorrelationsOf(ps, sqrt), sqrt) <= Sum(Risks(ps))
  {
    hide Times, Pearson, Aligned;
    var r, rho := Risks(ps), CorrelationsOf(ps, sqrt);
    forall i: nat, j: nat ensures rho(i, j) <= 1.0 {
      if i != j && i < |ps| && j < |ps| {
        PearsonWithinOne(Aligned(ps[i].bars, ps[j].bars).0, Aligned(ps[i].bars, ps[j].bars).1, sqrt);
      }
    }
    SumNonNegative(r);
    TotalBound(r, rho, |r|);
    assert r[..|r|] == r;
    var t := Total(r, rho, |r|);
    if t > 0.0 {
      SqrtOf(sqrt, t);
      RootAtMost(sqrt(t), Sum(r));
    }
  }

  lemma RootAtMost(a: real, b: real)
    requires a >= 0.0 && b >= 0.0 && Times(a, a) <= Times(b, b)
    ensures a <= b
  {
    if b > 0.0 {
      WithinRoot(a, b);
    } else if a > 0.0 {
      TimesSign(a, a);
    }
  }

  // Uniform scaling.

  function Scaled(r: seq<real>, k: real): (s: seq<real>)
    ensures |s| == |r|
  {
    seq(|r|, i requires 0 <= i < |r| => Times(r[i], k))
  }

  lemma ScaledTerm(x: real, y: real, c: real, k: real)
    ensures Times(Times(Times(x, k), Times(y, k)), c) == Times(Times(k, k), Times(Times(x, y), c))
  {}

  lemma {:induction false} RowScales(r: seq<real>, rho: Correlations, i: nat, n: nat, k: real)
    requires i < |r| && n <= |r|
    ensures Row(Scaled(r, k), rho, i, n) == Times(Times(k, k), Row(r, rho, i, n))
  {
    if n == 0 {
      TimesZero(Times(k, k));
    } else {
      hide Times;
      RowScales(r, rho, i, n - 1, k);
      ScaledTerm(r[i], r[n - 1], rho(i, n - 1), k);
      TimesSum(Times(k, k), Row(r, rho, i, n - 1), Times(Times(r[i], r[n - 1]), rho(i, n - 1)), Row(r, rho, i, n));
    }
  }

  lemma {:induction false} TotalScales(r: seq<real>, rho: Correlations, m: nat, k: real)
    requires m <= |r|
    ensures Total(Scaled(r, k), rho, m) == Times(Times(k, k), Total(r, rho, m))
  {
    if m == 0 {
      TimesZero(Times(k, k));
    } else {
      hide Times;
      TotalScales(r, rho, m - 1, k);
      RowScales(r, rho, m - 1, |r|, k);
      TimesSum(Times(k, k), Total(r, rho, m - 1), Row(r, rho, m - 1, |r|), Total(r, rho, m));
    }
  }

  /** MAIN: risk scales linearly with a uniform position scale. */
  lemma AggregateScales(r: seq<real>, rho: Correlations, sqrt: real -> real, k: real)
    requires IsSqrt(sqrt) && k > 0.0
    ensures Aggregate(Scaled(r, k), rho, sqrt) == Times(k, Aggregate(r, rho, sqrt))
  {
    hide Times, IsSqrt, Total;
    var t, t' := Total(r, rho, |r|), Total(Scaled(r, k), rho, |r|);
    TotalScales(r, rho, |r|, k);
    TimesSign(k, k);
    TimesSign(Times(k, k), t);
    TimesZero(k);
    if t > 0.0 {
      SqrtOf(sqrt, t);
      SqrtOf(sqrt, t');
      TimesNonNegative(k, sqrt(t));
      SquareOfProduct(k, sqrt(t));
      RootAtMost(sqrt(t'), Times(k, sqrt(t)));
      RootAtMost(Times(k, sqrt(t)), sqrt(t'));
    }
  }

  lemma SquareOfProduct(a: real, b: real)
    ensures Times(Times(a, b), Times(a, b)) == Times(Times(a, a), Times(b, b))
  {}

  method ScaleToRiskCap(ps: seq<Position>, cap: real, sqrt: real -> real) returns (scale: real, aggregate: real)
    requires IsSqrt(sqrt)
    ensures aggregate == Aggregate(Risks(ps), CorrelationsOf(ps, sqrt), sqrt)
    ensures cap <= 0.0 || aggregate <= cap ==> scale == 1.0
    ensures cap > 0.0 && aggregate > cap ==> 0.0 < scale < 1.0 && Times(scale, aggregate) == cap
  {
    var agg := AggregateRisk(ps, sqrt);
    if cap <= 0.0 || agg <= cap {
      return 1.0, agg;
    }
    CapQuotient(cap, agg);
    return cap / agg, agg;
  }

  lemma CapQuotient(cap: real, agg: real)
    requires 0.0 < cap < agg
    ensures 0.0 < cap / agg < 1.0 && Times(cap / agg, agg) == cap
  {
    var q := cap / agg;
    assert Times(agg, q) == cap && Times(agg, 1.0 - q) == agg - cap;
    TimesSign(agg, q);
    TimesSign(agg, 1.0 - q);
    TimesCommutes(agg, q);
  }

  /** Every position multiplied by the scale. */
  function ScaleSizes(ps: seq<Position>, scale: real): (r: seq<Position>)
    ensures |r| == |ps|
  {
    seq(|ps|, i requires 0 <= i < |ps| => ps[i].(fraction := Times(ps[i].fraction, scale)))
  }

  lemma TimesSwap(a: real, b: real, c: real)
    ensures Times(Times(a, b), c) == Times(Times(a, c), b)
  {}

  /** Scaling every position scales their aggregate risk. */
  lemma ScaledAggregate(ps: seq<Position>, sqrt: real -> real, scale: real)
    requires IsSqrt(sqrt) && 0.0 < scale
    ensures Aggregate(Risks(ScaleSizes(ps, scale)), CorrelationsOf(ScaleSizes(ps, scale), sqrt), sqrt)
         == Times(scale, Aggregate(Risks(ps), CorrelationsOf(ps, sqrt), sqrt))
  {
    hide Times, IsSqrt, Pearson, Aligned;
    var qs := ScaleSizes(ps, scale);
    var rho, rho' := CorrelationsOf(ps, sqrt), CorrelationsOf(qs, sqrt);
    forall i | 0 <= i < |ps| ensures Risks(qs)[i] == Scaled(Risks(ps), scale)[i] {
      TimesSwap(ps[i].fraction, scale, ps[i].stopFrac);
    }
    assert Risks(qs) == Scaled(Risks(ps), scale);
    SameCorrelations(Risks(qs), rho, rho', |qs|);
    AggregateScales(Risks(ps), rho, sqrt, scale);
  }

  lemma {:induction false} SameRow(r: seq<real>, rho: Correlations, rho': Correlations, i: nat, n: nat)
    requires i < |r| && n <= |r| && forall a, b :: rho(a, b) == rho'(a, b)
    ensures Row(r, rho, i, n) == Row(r, rho', i, n)
  {
    hide Times;
    if n > 0 {
      SameRow(r, rho, rho', i, n - 1);
    }
  }

  lemma {:induction false} SameCorrelations(r: seq<real>, rho: Correlations, rho': Correlations, m: nat)
    requires m <= |r| && forall a, b :: rho(a, b) == rho'(a, b)
    ensures Total(r, rho, m) == Total(r, rho', m)
  {
    hide Times;
    if m > 0 {
      SameCorrelations(r, rho, rho', m - 1);
      SameRow(r, rho, rho', m - 1, |r|);
    }
  }

  // ---------------------------------------------------------------- the planner's post-pass

  /** A scored thesis; a broken one holds no position, but its suggested size is still rendered. */
  datatype Thesis = Thesis(suggested: real, lossFrac: real, bars: seq<Bar>, broken: bool)

  /** Sizing never suggests a negative fraction. */
  ghost predicate Sized(ths: seq<Thesis>) {
    forall i :: 0 <= i < |ths| ==> ths[i].suggested >= 0.0
  }

  function HeldBy(th: Thesis): Position {
    Position(if th.broken then 0.0 else th.suggested, th.lossFrac, th.bars)
  }

  /** The size the rendered move states. */
  function StatedSize(th: Thesis, scale: real): real {
    if scale < 1.0 && th.suggested > 0.0 then Times(th.suggested, scale) else th.suggested
  }

  function Held(ths: seq<Thesis>): (ps: seq<Position>)
    ensures |ps| == |ths|
  {
    seq(|ths|, i requires 0 <= i < |ths| => HeldBy(ths[i]))
  }

  /** All suggested sizes, broken theses included. */
  function Suggested(ths: seq<Thesis>): (ps: seq<Position>)
    ensures |ps| == |ths|
  {
    seq(|ths|, i requires 0 <= i < |ths| => HeldBy(ths[i].(broken := false)))
  }

  /** The theses as their moves state them. */
  function Rendered(ths: seq<Thesis>, sizes: seq<real>): (r: seq<Thesis>)
    requires |sizes| == |ths|
    ensures |r| == |ths|
  {
    seq(|ths|, i requires 0 <= i < |ths| => ths[i].(suggested := sizes[i]))
  }

  function RiskOfAll(ps: seq<Position>, sqrt: real -> real): real {
    Aggregate(Risks(ps), CorrelationsOf(ps, sqrt), sqrt)
  }

  method StateSizes(ths: seq<Thesis>, cap: real, sqrt: real -> real)
    returns (sizes: seq<real>, scale: real, aggregate: real)
    requires IsSqrt(sqrt)
    ensures |sizes| == |ths| && forall i :: 0 <= i < |ths| ==> sizes[i] == StatedSize(ths[i], scale)
    ensures aggregate == RiskOfAll(Held(ths), sqrt)
    ensures IsScale(scale, aggregate, cap)
  {
    hide Times, IsSqrt, Aggregate, Risks, CorrelationsOf;
    var positions: seq<Position> := [];
    for i := 0 to |ths|
      invariant positions == Held(ths)[..i]
    {
      var frac := ths[i].suggested;
      if ths[i].broken {
        frac := 0.0;
      }
      positions := positions + [Position(frac, ths[i].lossFrac, ths[i].bars)];
    }
    assert Held(ths)[..|ths|] == Held(ths);
    scale, aggregate := ScaleToRiskCap(positions, cap, sqrt);
    sizes := [];
    for i := 0 to |ths|
      invariant |sizes| == i && forall k :: 0 <= k < i ==> sizes[k] == StatedSize(ths[k], scale)
    {
      var size := ths[i].suggested;
      if scale < 1.0 && size > 0.0 {
        size := Times(size, scale);
      }
      sizes := sizes + [size];
    }
  }

  /** The scale that ScaleToRiskCap promises for an aggregate risk. */
  ghost predicate IsScale(scale: real, aggregate: real, cap: real) {
    if cap <= 0.0 || aggregate <= cap then scale == 1.0
    else 0.0 < scale < 1.0 && Times(scale, aggregate) == cap
  }

  lemma StatedIsScaled(th: Thesis, scale: real)
    requires th.suggested >= 0.0 && 0.0 < scale <= 1.0
    ensures StatedSize(th, scale) == Times(th.suggested, scale)
    ensures Times(0.0, scale) == 0.0
  {}

  /** Rendering scales the held and the suggested positions alike. */
  lemma RenderedIsScaled(ths: seq<Thesis>, sizes: seq<real>, scale: real)
    requires Sized(ths) && 0.0 < scale <= 1.0 && |sizes| == |ths|
    requires forall i :: 0 <= i < |ths| ==> sizes[i] == StatedSize(ths[i], scale)
    ensures Held(Rendered(ths, sizes)) == ScaleSizes(Held(ths), scale)
    ensures Suggested(Rendered(ths, sizes)) == ScaleSizes(Suggested(ths), scale)
  {
    forall i | 0 <= i < |ths|
      ensures sizes[i] == Times(ths[i].suggested, scale) && Times(0.0, scale) == 0.0
    {
      StatedIsScaled(ths[i], scale);
    }
    hide Times, StatedSize;
    assert forall i :: 0 <= i < |ths| ==> Held(Rendered(ths, sizes))[i] == ScaleSizes(Held(ths), scale)[i];
    assert forall i :: 0 <= i < |ths| ==> Suggested(Rendered(ths, sizes))[i] == ScaleSizes(Suggested(ths), scale)[i];
  }

  /** MAIN: the stated sizes of the theses that are not broken have aggregate risk exactly at the cap when the cap
      binds, and otherwise the risk they had. */
  lemma LiveSizesMeetCap(ths: seq<Thesis>, sizes: seq<real>, scale: real, cap: real, sqrt: real -> real)
    requires IsSqrt(sqrt) && Sized(ths) && |sizes| == |ths| && cap > 0.0
    requires IsScale(scale, RiskOfAll(Held(ths), sqrt), cap)
    requires forall i :: 0 <= i < |ths| ==> sizes[i] == StatedSize(ths[i], scale)
    ensures RiskOfAll(Held(Rendered(ths, sizes)), sqrt)
         == if RiskOfAll(Held(ths), sqrt) > cap then cap else RiskOfAll(Held(ths), sqrt)
  {
    RenderedIsScaled(ths, sizes, scale);
    ScaledAggregate(Held(ths), sqrt, scale);
    WholeScale(RiskOfAll(Held(ths), sqrt));
  }

  lemma WholeScale(x: real)
    ensures Times(1.0, x) == x
  {}

  /** MAIN: with broken theses included, the stated sizes respect the cap exactly if the aggregate of all suggested
      sizes exceeds neither the cap nor the aggregate of the held ones, whichever is larger. */
  lemma AllSizesMeetCapIff(ths: seq<Thesis>, sizes: seq<real>, scale: real, cap: real, sqrt: real -> real)
    requires IsSqrt(sqrt) && Sized(ths) && |sizes| == |ths| && cap > 0.0
    requires IsScale(scale, RiskOfAll(Held(ths), sqrt), cap)
    requires forall i :: 0 <= i < |ths| ==> sizes[i] == StatedSize(ths[i], scale)
    ensures RiskOfAll(Suggested(Rendered(ths, sizes)), sqrt) <= cap
            <==> RiskOfAll(Suggested(ths), sqrt) <= cap || RiskOfAll(Suggested(ths), sqrt) <= RiskOfAll(Held(ths), sqrt)
  {
    RenderedIsScaled(ths, sizes, scale);
    ScaledAggregate(Suggested(ths), sqrt, scale);
    var all, held := RiskOfAll(Suggested(ths), sqrt), RiskOfAll(Held(ths), sqrt);
    WholeScale(all);
    hide Times, Aggregate, IsSqrt, StatedSize, RiskOfAll;
    if held > cap {
      TimesSign(scale, all - held);
      TimesSum(scale, held, all - held, all);
    }
  }

  /** It does so whenever no broken thesis has a size. */
  lemma NoBrokenSizeMeetsCap(ths: seq<Thesis>, sizes: seq<real>, scale: real, cap: real, sqrt: real -> real)
    requires IsSqrt(sqrt) && Sized(ths) && |sizes| == |ths| && cap > 0.0
    requires IsScale(scale, RiskOfAll(Held(ths), sqrt), cap)
    requires forall i :: 0 <= i < |ths| ==> sizes[i] == StatedSize(ths[i], scale)
    requires forall i :: 0 <= i < |ths| && ths[i].broken ==> ths[i].suggested == 0.0
    ensures RiskOfAll(Suggested(Rendered(ths, sizes)), sqrt) <= cap
  {
    assert Suggested(ths) == Held(ths);
    AllSizesMeetCapIff(ths, sizes, scale, cap, sqrt);
  }

  /** Without market data and signals, at a quarter Kelly and a reward of twice the stop, every thesis is suggested 6%
      of equity at the least stop distance of 5%. A live one at the cap beside a broken one: what is stated exceeds the
      cap. */
  lemma BrokenSizeExceedsCap(sqrt: real -> real)
    requires IsSqrt(sqrt)
    ensures var ths := [Thesis(0.06, 0.05, [], false), Thesis(0.06, 0.05, [], true)];
            && IsScale(1.0, RiskOfAll(Held(ths), sqrt), 0.003)
            && StatedSize(ths[0], 1.0) == 0.06 && StatedSize(ths[1], 1.0) == 0.06
            && RiskOfAll(Suggested(Rendered(ths, [0.06, 0.06])), sqrt) > 0.003
  {
    hide Times, RiskOf, RiskOfAll, IsSqrt, StatedSize;
    var ths := [Thesis(0.06, 0.05, [], false), Thesis(0.06, 0.05, [], true)];
    var held, all := Held(ths), Suggested(Rendered(ths, [0.06, 0.06]));
    assert held == [Position(0.06, 0.05, []), Position(0.0, 0.05, [])];
    assert all == [Position(0.06, 0.05, []), Position(0.06, 0.05, [])];
    SmallRisks();
    UnmeasuredPairRisk(held, sqrt);
    UnmeasuredPairRisk(all, sqrt);
  }

  lemma SmallRisks()
    ensures RiskOf(Position(0.06, 0.05, [])) == 0.003 && RiskOf(Position(0.0, 0.05, [])) == 0.0
    ensures Times(1.0, 0.003) == 0.003
    ensures forall broken :: StatedSize(Thesis(0.06, 0.05, [], broken), 1.0) == 0.06
  {}

  /** The covariance of one more position with those before it, in units of its own risk. */
  ghost function Exposure(r: seq<real>, rho: Correlations, n: nat): real
    requires n <= |r|
  {
    if n == 0 then 0.0 else Exposure(r, rho, n - 1) + Times(r[n - 1], rho(n - 1, |r|))
  }

  ghost predicate SymmetricUpTo(rho: Correlations, n: nat) {
    forall i: nat, j: nat :: i <= n && j <= n ==> rho(i, j) == rho(j, i)
  }

  lemma {:induction false} RowExtended(r: seq<real>, x: real, rho: Correlations, i: nat, n: nat)
    requires i < |r| && n <= |r|
    ensures Row(r + [x], rho, i, n) == Row(r, rho, i, n)
  {
    hide Times;
    if n > 0 {
      RowExtended(r, x, rho, i, n - 1);
    }
  }

  lemma {:induction false} TotalExtended(r: seq<real>, x: real, rho: Correlations, m: nat)
    requires m <= |r|
    ensures Total(r + [x], rho, m) == Total(r, rho, m) + Times(x, Exposure(r, rho, m))
  {
    if m == 0 {
      TimesZero(x);
    } else {
      hide Times;
      TotalExtended(r, x, rho, m - 1);
      RowExtended(r, x, rho, m - 1, |r|);
      TimesSum(x, Exposure(r, rho, m - 1), Times(r[m - 1], rho(m - 1, |r|)), Exposure(r, rho, m));
      TimesAssociates(x, r[m - 1], rho(m - 1, |r|));
      TimesCommutes(x, r[m - 1]);
    }
  }

  lemma {:induction false} LastRow(r: seq<real>, x: real, rho: Correlations, n: nat)
    requires n <= |r| && SymmetricUpTo(rho, |r|)
    ensures Row(r + [x], rho, |r|, n) == Times(x, Exposure(r, rho, n))
  {
    if n == 0 {
      TimesZero(x);
    } else {
      hide Times;
      LastRow(r, x, rho, n - 1);
      TimesSum(x, Exposure(r, rho, n - 1), Times(r[n - 1], rho(n - 1, |r|)), Exposure(r, rho, n));
      TimesAssociates(x, r[n - 1], rho(n - 1, |r|));
    }
  }

  /** MAIN: one more position adds its own squared risk and twice its covariance with the positions before it. */
  lemma OneMorePosition(r: seq<real>, x: real, rho: Correlations)
    requires SymmetricUpTo(rho, |r|) && rho(|r|, |r|) == 1.0
    ensures Total(r + [x], rho, |r| + 1)
         == Total(r, rho, |r|) + Times(x, x) + 2.0 * Times(x, Exposure(r, rho, |r|))
  {
    hide Times;
    TotalExtended(r, x, rho, |r|);
    LastRow(r, x, rho, |r|);
    TimesCommutes(Times(x, x), 1.0);
    WholeScale(Times(x, x));
  }

  lemma {:induction false} RowOfOnes(r: seq<real>, rho: Correlations, i: nat, n: nat)
    requires i < |r| && n <= |r| && forall a: nat, b: nat :: a < |r| && b < |r| ==> rho(a, b) == 1.0
    ensures Row(r, rho, i, n) == Times(r[i], Sum(r[..n]))
  {
    if n == 0 {
      TimesZero(r[i]);
    } else {
      hide Times;
      RowOfOnes(r, rho, i, n - 1);
      assert r[..n][..n - 1] == r[..n - 1];
      TimesCommutes(Times(r[i], r[n - 1]), 1.0);
      WholeScale(Times(r[i], r[n - 1]));
      TimesSum(r[i], Sum(r[..n - 1]), r[n - 1], Sum(r[..n]));
    }
  }

  lemma {:induction false} TotalOfOnes(r: seq<real>, rho: Correlations, m: nat)
    requires m <= |r| && forall a: nat, b: nat :: a < |r| && b < |r| ==> rho(a, b) == 1.0
    ensures Total(r, rho, m) == Times(Sum(r[..m]), Sum(r))
  {
    assert r[..|r|] == r;
    if m == 0 {
      TimesZero(Sum(r));
    } else {
      hide Times;
      TotalOfOnes(r, rho, m - 1);
      RowOfOnes(r, rho, m - 1, |r|);
      assert r[..m][..m - 1] == r[..m - 1];
      TimesSum(Sum(r), Sum(r[..m - 1]), r[m - 1], Sum(r[..m]));
    }
  }

  /** MAIN: positions over the same bars, measurable or not, count as fully correlated: their risks add up. */
  lemma SameBarsAddUp(ps: seq<Position>, bars: seq<Bar>, sqrt: real -> real)
    requires IsSqrt(sqrt) && StrictlyDated(bars) && NonNegative(Risks(ps))
    requires forall i :: 0 <= i < |ps| ==> ps[i].bars == bars
    ensures RiskOfAll(ps, sqrt) == Sum(Risks(ps))
  {
    hide Times, IsSqrt, Pearson, Aligned, RiskOf;
    var r, rho := Risks(ps), CorrelationsOf(ps, sqrt);
    forall a: nat, b: nat | a < |r| && b < |r| ensures rho(a, b) == 1.0 {
      AlignedSwaps(bars, bars);
      CorrelationWithItself(Aligned(bars, bars).0, sqrt);
    }
    TotalOfOnes(r, rho, |r|);
    assert r[..|r|] == r;
    SumNonNegative(r);
    RootOfSquare(sqrt, Sum(r));
  }

  /** Two positions without market data count as fully correlated: their risks add up. */
  lemma UnmeasuredPairRisk(ps: seq<Position>, sqrt: real -> real)
    requires IsSqrt(sqrt) && |ps| == 2 && ps[0].bars == [] && ps[1].bars == []
    requires RiskOf(ps[0]) >= 0.0 && RiskOf(ps[1]) >= 0.0
    ensures RiskOfAll(ps, sqrt) == RiskOf(ps[0]) + RiskOf(ps[1])
  {
    var r := Risks(ps);
    SameBarsAddUp(ps, [], sqrt);
    assert r[..2] == r && r[..2][..1] == r[..1] && r[..1][..0] == r[..0] == [];
    hide RiskOf, RiskOfAll;
    assert Sum(r) == Sum(r[..1]) + r[1] && Sum(r[..1]) == Sum(r[..0]) + r[0];
  }

  lemma RootOfSquare(sqrt: real -> real, x: real)
    requires IsSqrt(sqrt) && x >= 0.0
    ensures if Times(x, x) <= 0.0 then x == 0.0 else sqrt(Times(x, x)) == x
  {
    TimesNonNegative(x, x);
    SqrtOf(sqrt, Times(x, x));
    if x > 0.0 {
      TimesSign(x, x);
    }
    hide Times;
    RootAtMost(sqrt(Times(x, x)), x);
    RootAtMost(x, sqrt(Times(x, x)));
  }
}
