/** Cached daily bars: day-granular keys, an immutable past chunk and a short-lived recent stub.
    Time is in nanoseconds since the zero time of the clock, a UTC midnight. */
module BarCache {
  import opened Domain
  import opened Wrappers

  const NANOS_PER_DAY: int := 86_400_000_000_000

  /** Which sentinel errors an error wraps; a chain of vendors joins the errors of all of them. */
  datatype Fault = Fault(notFound: bool, notSupported: bool, unavailable: bool)

  datatype Reply = Bars(bars: seq<Bar>) | Failed(fault: Fault)

  const NOT_FOUND := Failed(Fault(true, false, false))

  predicate CacheableFault(f: Fault) {
    !f.unavailable && (f.notFound || f.notSupported)
  }

  function DayOf(t: int): int { t / NANOS_PER_DAY }

  function StartOfDay(t: int): int { DayOf(t) * NANOS_PER_DAY }

  // ---------------------------------------------------------------- the market

  function InRange(bars: seq<Bar>, from: int, to: int): seq<Bar> {
    if bars == [] then []
    else if from <= bars[0].date <= to then [bars[0]] + InRange(bars[1..], from, to)
    else InRange(bars[1..], from, to)
  }

  ghost predicate Chronological(bars: seq<Bar>) {
    forall i, j :: 0 <= i < j < |bars| ==> bars[i].date <= bars[j].date
  }

  ghost predicate MidnightDated(bars: seq<Bar>) {
    forall i :: 0 <= i < |bars| ==> StartOfDay(bars[i].date) == bars[i].date
  }

  /** A fixed series of daily bars per ticker. */
  type Market = string -> seq<Bar>

  ghost predicate Daily(m: Market) {
    forall t :: Chronological(m(t)) && MidnightDated(m(t))
  }

  /** What a provider of the market may reply: the bars in range, or a failure that claims absence only when there are
      none. */
  ghost predicate Honest(m: Market, ticker: string, from: int, to: int, r: Reply) {
    match r
    case Bars(b) => b == InRange(m(ticker), from, to)
    case Failed(f) => f.notFound ==> InRange(m(ticker), from, to) == []
  }

  type Provider = (string, int, int) -> Reply

  ghost predicate HonestProvider(m: Market, next: Provider) {
    forall t, from, to :: Honest(m, t, from, to, next(t, from, to))
  }

  /** A chain of honest vendors: a "not found" joined with an outage claims nothing. */
  ghost predicate PlausibleProvider(m: Market, next: Provider) {
    forall t, from, to :: Plausible(m, t, from, to, next(t, from, to))
  }

  /** A provider that is never out of service: it fails only to say that there is nothing. */
  ghost predicate Answering(next: Provider) {
    forall t, from, to :: next(t, from, to).Failed? ==> next(t, from, to).fault.notFound
  }

  /** A day starts at a multiple of 24 hours, at most 24 hours before any of its instants. */
  lemma DayBounds(t: int)
    ensures StartOfDay(t) <= t < StartOfDay(t) + 24 * 3600 * 1_000_000_000
    ensures StartOfDay(t) % (24 * 3600 * 1_000_000_000) == 0
  {}

  /** A range holds each bar within the bounds exactly as often as the series does, and no other bar. */
  lemma {:induction false} InRangeKeeps(bars: seq<Bar>, from: int, to: int, b: Bar)
    ensures multiset(InRange(bars, from, to))[b] == if from <= b.date <= to then multiset(bars)[b] else 0
  {
    if bars != [] {
      InRangeKeeps(bars[1..], from, to, b);
      assert bars == [bars[0]] + bars[1..];
    }
  }

  /** And it keeps the order of the series. */
  lemma {:induction false} InRangeChronological(bars: seq<Bar>, from: int, to: int)
    requires Chronological(bars)
    ensures Chronological(InRange(bars, from, to))
    ensures forall x :: x in InRange(bars, from, to) ==> x in bars
  {
    if bars != [] {
      InRangeChronological(bars[1..], from, to);
      var rest := InRange(bars[1..], from, to);
      forall k | 0 <= k < |rest| ensures bars[0].date <= rest[k].date {
        assert rest[k] in bars[1..];
      }
    }
  }

  lemma {:induction false} RangeDay(bars: seq<Bar>, from: int, t: int, t': int)
    requires MidnightDated(bars) && DayOf(t) == DayOf(t')
    ensures InRange(bars, from, t) == InRange(bars, from, t')
  {
    if bars != [] {
      MidnightOrder(bars[0].date, t);
      MidnightOrder(bars[0].date, t');
      RangeDay(bars[1..], from, t, t');
    }
  }

  lemma MidnightOrder(d: int, t: int)
    requires StartOfDay(d) == d
    ensures d <= t <==> DayOf(d) <= DayOf(t)
  {}

  lemma {:induction false} RangeEmpty(bars: seq<Bar>, from: int, to: int)
    requires forall i :: 0 <= i < |bars| ==> !(from <= bars[i].date <= to)
    ensures InRange(bars, from, to) == []
  {
    if bars != [] { RangeEmpty(bars[1..], from, to); }
  }

  /** A range split at any instant is the two sub-ranges one after the other. */
  lemma {:induction false} RangeSplit(bars: seq<Bar>, from: int, mid: int, to: int)
    requires Chronological(bars) && from <= mid <= to + 1
    ensures InRange(bars, from, mid - 1) + InRange(bars, mid, to) == InRange(bars, from, to)
  {
    if bars != [] {
      RangeSplit(bars[1..], from, mid, to);
      var a, b := InRange(bars[1..], from, mid - 1), InRange(bars[1..], mid, to);
      if bars[0].date >= mid {
        RangeEmpty(bars[1..], from, mid - 1);
        assert [] + InRange(bars, mid, to) == InRange(bars, mid, to);
        assert a == [] && [] + b == b;
      } else if from <= bars[0].date {
        assert ([bars[0]] + a) + b == [bars[0]] + (a + b);
      }
    }
  }

  lemma {:induction false} RangeNarrow(bars: seq<Bar>, wide: int, from: int, to: int)
    requires wide <= from
    ensures InRange(InRange(bars, wide, to), from, to) == InRange(bars, from, to)
  {
    if bars != [] {
      RangeNarrow(bars[1..], wide, from, to);
    }
  }

  lemma {:induction false} RangeConcat(a: seq<Bar>, b: seq<Bar>, from: int, to: int)
    ensures InRange(a + b, from, to) == InRange(a, from, to) + InRange(b, from, to)
  {
    if a == [] {
      assert a + b == b;
    } else {
      assert (a + b)[1..] == a[1..] + b;
      RangeConcat(a[1..], b, from, to);
    }
  }

  // ---------------------------------------------------------------- combining the two chunks

  /** What HistoricalBars makes of the replies for the past chunk and the recent stub. */
  function Combine(past: Reply, recent: Reply): Reply {
    if past.Failed? && !past.fault.notFound then past
    else if recent.Failed? && !recent.fault.notFound then recent
    else
      var bars := (if past.Bars? then past.bars else []) + (if recent.Bars? then recent.bars else []);
      if bars == [] && recent.Failed? then recent else Bars(bars)
  }

  /** The caller's exact bounds re-applied; an empty result is reported as not found. */
  function Restrict(r: Reply, from: int, to: int): Reply {
    match r
    case Failed(_) => r
    case Bars(b) => if InRange(b, from, to) == [] then NOT_FOUND else Bars(InRange(b, from, to))
  }

  /** The answer a caller may rely on: the bars in range if it is bars, and no bars in range if it says not found. */
  ghost predicate Exact(m: Market, ticker: string, from: int, to: int, r: Reply) {
    match r
    case Bars(b) => b == InRange(m(ticker), from, to) && b != []
    case Failed(f) => f.notFound ==> InRange(m(ticker), from, to) == []
  }

  /** An error of the past chunk other than "not found" is the answer, else such an error of the stub; otherwise the
      answer is the caller's part of the bars there are, one chunk after the other, and "not found" when it is empty. */
  lemma CombinedAnswer(past: Reply, recent: Reply, from: int, to: int)
    ensures var r := Restrict(Combine(past, recent), from, to);
            var ps := if past.Bars? then past.bars else [];
            var rs := if recent.Bars? then recent.bars else [];
            && (past.Failed? && !past.fault.notFound ==> r == past)
            && (!(past.Failed? && !past.fault.notFound) && recent.Failed? && !recent.fault.notFound ==> r == recent)
            && (!(past.Failed? && !past.fault.notFound) && !(recent.Failed? && !recent.fault.notFound) ==>
                  && (InRange(ps, from, to) + InRange(rs, from, to) != [] ==>
                        r == Bars(InRange(ps, from, to) + InRange(rs, from, to)))
                  && (InRange(ps, from, to) + InRange(rs, from, to) == [] ==> r.Failed? && r.fault.notFound))
  {
    RangeConcat(if past.Bars? then past.bars else [], if recent.Bars? then recent.bars else [], from, to);
  }

  /** Chunk replies that are each either the chunk's bars or an error wrapping ErrNotFound, whatever else it wraps. */
  ghost predicate ChunkReply(m: Market, ticker: string, from: int, to: int, r: Reply) {
    match r
    case Bars(b) => b == InRange(m(ticker), from, to)
    case Failed(f) => f.notFound
  }

  /** The answer to a spanning range is exact exactly if each chunk that failed as "not found" really has no bars
      between the caller's bounds. */
  lemma SplitExactIff(m: Market, ticker: string, from: int, to: int, stable: int, past: Reply, recent: Reply)
    requires Chronological(m(ticker)) && StartOfDay(from) < stable <= to && StartOfDay(stable) == stable
    requires ChunkReply(m, ticker, StartOfDay(from), stable - 1, past) && ChunkReply(m, ticker, stable, to, recent)
    ensures Exact(m, ticker, from, to, Restrict(Combine(past, recent), from, to)) <==>
              && (past.Failed? ==> InRange(m(ticker), from, stable - 1) == [])
              && (recent.Failed? ==> InRange(m(ticker), stable, to) == [])
  {
    var s := m(ticker);
    var p := if past.Bars? then past.bars else [];
    var q := if recent.Bars? then recent.bars else [];
    RangeConcat(p, q, from, to);
    RangeSplit(s, from, stable, to);
    DayStart(from);
    assert from < stable;
    ChunkNarrow(s, StartOfDay(from), stable - 1, from, to);
    ChunkNarrow(s, stable, to, from, to);
  }

  /** A chain that found nothing at one vendor while another was out of service. */
  predicate Joined(r: Reply) {
    r.Failed? && r.fault.notFound && r.fault.unavailable
  }

  /** An error that is returned to the caller as it is. */
  predicate PassedOn(r: Reply) {
    r.Failed? && !r.fault.notFound
  }

  /** What a chain of honest vendors may reply: only a "not found" that is not joined with an outage claims absence. */
  ghost predicate Plausible(m: Market, ticker: string, from: int, to: int, r: Reply) {
    match r
    case Bars(b) => b == InRange(m(ticker), from, to)
    case Failed(f) => f.notFound && !f.unavailable ==> InRange(m(ticker), from, to) == []
  }

  function FirstMidnight(t: int): int {
    if StartOfDay(t) == t then t else StartOfDay(t) + NANOS_PER_DAY
  }

  /** The guard of the failing branch: an error is passed on, or no chunk that may hold a daily bar failed with a joined
      fault. */
  predicate Guarded(past: Reply, recent: Reply, from: int, stable: int) {
    || PassedOn(past) || PassedOn(recent)
    || ((Joined(past) ==> FirstMidnight(from) >= stable) && !Joined(recent))
  }

  ghost predicate Agrees(m: Market, ticker: string, from: int, to: int, stable: int, past: Reply, recent: Reply) {
    && Daily(m)
    && Plausible(m, ticker, StartOfDay(from), stable - 1, past)
    && Plausible(m, ticker, stable, to, recent)
  }

  /** MAIN: the answer is exact for every market that agrees with the two chunk replies if and only if the
      guard holds. */
  lemma ExactForAllMarketsIff(m: Market, ticker: string, from: int, to: int, stable: int, past: Reply, recent: Reply)
    requires StartOfDay(from) < stable <= to && StartOfDay(stable) == stable
    requires Agrees(m, ticker, from, to, stable, past, recent)
    ensures (forall m': Market :: Agrees(m', ticker, from, to, stable, past, recent) ==>
               Exact(m', ticker, from, to, Restrict(Combine(past, recent), from, to)))
            <==> Guarded(past, recent, from, stable)
  {
    if Guarded(past, recent, from, stable) {
      forall m': Market | Agrees(m', ticker, from, to, stable, past, recent)
        ensures Exact(m', ticker, from, to, Restrict(Combine(past, recent), from, to))
      {
        GuardedIsExact(m', ticker, from, to, stable, past, recent);
      }
    } else {
      var m' := UnseenBar(m, ticker, from, to, stable, past, recent);
      hide Agrees, Exact;
      assert Agrees(m', ticker, from, to, stable, past, recent);
    }
  }

  lemma GuardedIsExact(m: Market, ticker: string, from: int, to: int, stable: int, past: Reply, recent: Reply)
    requires StartOfDay(from) < stable <= to && StartOfDay(stable) == stable
    requires Agrees(m, ticker, from, to, stable, past, recent) && Guarded(past, recent, from, stable)
    ensures Exact(m, ticker, from, to, Restrict(Combine(past, recent), from, to))
  {
    if !PassedOn(past) && !PassedOn(recent) {
      SplitExactIff(m, ticker, from, to, stable, past, recent);
      if Joined(past) {
        NoMidnight(m(ticker), from, stable - 1);
      } else if past.Failed? {
        DayStart(from);
        RangeNarrow(m(ticker), StartOfDay(from), from, stable - 1);
      }
    }
  }

  /** Two honest chunk replies combine to an exact answer. */
  lemma HonestChunksExact(m: Market, ticker: string, from: int, to: int, stable: int, past: Reply, recent: Reply)
    requires Daily(m) && StartOfDay(from) < stable <= to && StartOfDay(stable) == stable
    requires Honest(m, ticker, StartOfDay(from), stable - 1, past) && Honest(m, ticker, stable, to, recent)
    ensures Exact(m, ticker, from, to, Restrict(Combine(past, recent), from, to))
  {
    if !PassedOn(past) && !PassedOn(recent) {
      SplitExactIff(m, ticker, from, to, stable, past, recent);
      DayStart(from);
      RangeNarrow(m(ticker), StartOfDay(from), from, stable - 1);
    }
  }

  lemma NoMidnight(bars: seq<Bar>, from: int, to: int)
    requires MidnightDated(bars) && FirstMidnight(from) > to
    ensures InRange(bars, from, to) == []
  {
    forall i | 0 <= i < |bars| ensures !(from <= bars[i].date <= to) {
      MidnightOrder(bars[i].date, from);
      DayStart(from);
    }
    RangeEmpty(bars, from, to);
  }

  /** The market m with another series for one ticker. */
  ghost function With(m: Market, ticker: string, series: seq<Bar>): Market {
    (t: string) => if t == ticker then series else m(t)
  }

  ghost predicate Chunk(bars: seq<Bar>, from: int, to: int) {
    Chronological(bars) && MidnightDated(bars) && forall i :: 0 <= i < |bars| ==> from <= bars[i].date <= to
  }

  /** Replacing the bars of a chunk that failed with a joined fault still agrees with the replies. */
  lemma SplicedAgrees(m: Market, ticker: string, from: int, to: int, stable: int, past: Reply, recent: Reply,
                      front: seq<Bar>, back: seq<Bar>)
    requires StartOfDay(from) < stable <= to && Agrees(m, ticker, from, to, stable, past, recent)
    requires Chunk(front, StartOfDay(from), stable - 1) && Chunk(back, stable, to)
    requires Joined(past) || front == InRange(m(ticker), StartOfDay(from), stable - 1)
    requires Joined(recent) || back == InRange(m(ticker), stable, to)
    ensures var m' := With(m, ticker, front + back);
            && Agrees(m', ticker, from, to, stable, past, recent)
            && InRange(m'(ticker), StartOfDay(from), stable - 1) == front && InRange(m'(ticker), stable, to) == back
  {
    hide InRange, StartOfDay;
    SplicedDaily(m, ticker, front, back, stable);
    PartsAlone(front, back, StartOfDay(from), stable, to);
  }

  ghost predicate Contradicts(m: Market, ticker: string, from: int, to: int, stable: int, past: Reply, recent: Reply) {
    && Agrees(m, ticker, from, to, stable, past, recent)
    && !Exact(m, ticker, from, to, Restrict(Combine(past, recent), from, to))
  }

  /** A market that agrees with the replies but has a bar where a joined fault left a gap. */
  lemma UnseenBar(m: Market, ticker: string, from: int, to: int, stable: int, past: Reply, recent: Reply)
    returns (m': Market)
    requires StartOfDay(from) < stable <= to && StartOfDay(stable) == stable
    requires Agrees(m, ticker, from, to, stable, past, recent) && !Guarded(past, recent, from, stable)
    ensures Contradicts(m', ticker, from, to, stable, past, recent)
  {
    hide InRange, StartOfDay, Restrict, Combine, FirstMidnight, Exact, Agrees, Contradicts;
    if Joined(recent) {
      m' := UnseenRecent(m, ticker, from, to, stable, past, recent);
    } else {
      m' := UnseenPast(m, ticker, from, to, stable, past, recent);
    }
  }

  lemma UnseenRecent(m: Market, ticker: string, from: int, to: int, stable: int, past: Reply, recent: Reply)
    returns (m': Market)
    requires StartOfDay(from) < stable <= to && StartOfDay(stable) == stable
    requires Agrees(m, ticker, from, to, stable, past, recent) && Joined(recent) && !PassedOn(past)
    ensures Contradicts(m', ticker, from, to, stable, past, recent)
  {
    var front, back := InRange(m(ticker), StartOfDay(from), stable - 1), [Bar(stable, 0.0)];
    PartsOf(m(ticker), StartOfDay(from), stable - 1);
    hide InRange, StartOfDay, Restrict, Combine, Exact, Agrees;
    m' := With(m, ticker, front + back);
    SplicedAgrees(m, ticker, from, to, stable, past, recent, front, back);
    AgreementIsChunkwise(m', ticker, from, to, stable, past, recent);
    SplitExactIff(m', ticker, from, to, stable, past, recent);
  }

  lemma UnseenPast(m: Market, ticker: string, from: int, to: int, stable: int, past: Reply, recent: Reply)
    returns (m': Market)
    requires StartOfDay(from) < stable <= to && StartOfDay(stable) == stable
    requires Agrees(m, ticker, from, to, stable, past, recent)
    requires Joined(past) && FirstMidnight(from) < stable && !PassedOn(recent)
    ensures Contradicts(m', ticker, from, to, stable, past, recent)
  {
    var bar := Bar(FirstMidnight(from), 0.0);
    var front, back := [bar], InRange(m(ticker), stable, to);
    PartsOf(m(ticker), stable, to);
    DayStart(from);
    Midnight(from);
    hide InRange, StartOfDay, Restrict, Combine, FirstMidnight, Exact, Agrees;
    m' := With(m, ticker, front + back);
    SplicedAgrees(m, ticker, from, to, stable, past, recent, front, back);
    AgreementIsChunkwise(m', ticker, from, to, stable, past, recent);
    SplitExactIff(m', ticker, from, to, stable, past, recent);
    NarrowKeeps(front + back, StartOfDay(from), from, stable - 1, bar);
  }

  lemma AgreementIsChunkwise(m: Market, ticker: string, from: int, to: int, stable: int, past: Reply, recent: Reply)
    requires Agrees(m, ticker, from, to, stable, past, recent) && !PassedOn(past) && !PassedOn(recent)
    ensures Chronological(m(ticker))
    ensures ChunkReply(m, ticker, StartOfDay(from), stable - 1, past) && ChunkReply(m, ticker, stable, to, recent)
  {}

  lemma NarrowKeeps(bars: seq<Bar>, low: int, from: int, to: int, bar: Bar)
    requires low <= from <= bar.date <= to && InRange(bars, low, to) == [bar]
    ensures InRange(bars, from, to) == [bar]
  {
    RangeNarrow(bars, low, from, to);
    RangeFull([bar], from, to);
  }

  lemma Midnight(t: int)
    ensures t <= FirstMidnight(t) && StartOfDay(FirstMidnight(t)) == FirstMidnight(t)
  {
    DayStart(t);
  }

  lemma SplicedDaily(m: Market, ticker: string, front: seq<Bar>, back: seq<Bar>, mid: int)
    requires Daily(m) && Chronological(front) && MidnightDated(front) && Chronological(back) && MidnightDated(back)
    requires (forall i :: 0 <= i < |front| ==> front[i].date < mid)
             && (forall i :: 0 <= i < |back| ==> mid <= back[i].date)
    ensures Daily(With(m, ticker, front + back))
  {
    hide StartOfDay;
    assert Chronological(front + back) && MidnightDated(front + back);
  }

  lemma {:induction false} RangeMembers(bars: seq<Bar>, from: int, to: int)
    ensures forall b :: b in InRange(bars, from, to) ==> from <= b.date <= to && b in bars
  {
    if bars != [] {
      RangeMembers(bars[1..], from, to);
    }
  }

  lemma {:induction false} RangeChronological(bars: seq<Bar>, from: int, to: int)
    requires Chronological(bars)
    ensures Chronological(InRange(bars, from, to))
  {
    if bars != [] {
      RangeChronological(bars[1..], from, to);
      RangeMembers(bars[1..], from, to);
      var r := InRange(bars[1..], from, to);
      assert forall i :: 0 <= i < |r| ==> r[i] in r;
    }
  }

  /** The bars of a range are in range, and still chronological and midnight-dated. */
  lemma PartsOf(bars: seq<Bar>, from: int, to: int)
    requires Chronological(bars) && MidnightDated(bars)
    ensures var r := InRange(bars, from, to);
            && Chronological(r) && MidnightDated(r)
            && (forall i :: 0 <= i < |r| ==> from <= r[i].date <= to && r[i] in bars)
  {
    hide InRange, StartOfDay;
    RangeChronological(bars, from, to);
    RangeMembers(bars, from, to);
    var r := InRange(bars, from, to);
    assert forall i :: 0 <= i < |r| ==> r[i] in r;
  }

  lemma {:induction false} RangeFull(bars: seq<Bar>, from: int, to: int)
    requires forall i :: 0 <= i < |bars| ==> from <= bars[i].date <= to
    ensures InRange(bars, from, to) == bars
  {
    if bars != [] {
      RangeFull(bars[1..], from, to);
    }
  }

  lemma PartsAlone(front: seq<Bar>, back: seq<Bar>, from: int, mid: int, to: int)
    requires forall i :: 0 <= i < |front| ==> from <= front[i].date < mid
    requires forall i :: 0 <= i < |back| ==> mid <= back[i].date <= to
    ensures InRange(front + back, from, mid - 1) == front && InRange(front + back, mid, to) == back
  {
    RangeConcat(front, back, from, mid - 1);
    RangeConcat(front, back, mid, to);
    RangeFull(front, from, mid - 1);
    RangeFull(back, mid, to);
    RangeEmpty(back, from, mid - 1);
    RangeEmpty(front, mid, to);
  }

  lemma DayStart(t: int)
    ensures StartOfDay(t) <= t < StartOfDay(t) + NANOS_PER_DAY
    ensures StartOfDay(StartOfDay(t)) == StartOfDay(t) && DayOf(StartOfDay(t)) == DayOf(t)
  {}

  /** Restricting a chunk [lo,hi] to the caller's [from,to]. */
  lemma {:induction false} ChunkNarrow(bars: seq<Bar>, lo: int, hi: int, from: int, to: int)
    requires hi <= to
    ensures InRange(InRange(bars, lo, hi), from, to) == InRange(bars, if lo <= from then from else lo, hi)
  {
    if bars != [] {
      ChunkNarrow(bars[1..], lo, hi, from, to);
    }
  }

  /** A chain that joins one vendor's "not found" with another's outage loses the past bars without any error. */
  lemma JoinedFaultLosesBars()
    ensures var d := NANOS_PER_DAY;
            var m: Market := (t: string) => [Bar(0, 1.0), Bar(3 * d, 2.0)];
            var past := Failed(Fault(true, false, true));
            var recent := Bars(InRange(m("T"), 2 * d, 3 * d));
            Restrict(Combine(past, recent), 0, 3 * d) == Bars([Bar(3 * d, 2.0)])
            && InRange(m("T"), 0, 3 * d) == [Bar(0, 1.0), Bar(3 * d, 2.0)]
  {
    var d := NANOS_PER_DAY;
    var s := [Bar(0, 1.0), Bar(3 * d, 2.0)];
    assert s[1..] == [Bar(3 * d, 2.0)] && s[1..][1..] == [];
    assert InRange(s[1..], 2 * d, 3 * d) == [Bar(3 * d, 2.0)];
    assert InRange(s, 2 * d, 3 * d) == [Bar(3 * d, 2.0)];
    assert InRange(s[1..], 0, 3 * d) == [Bar(3 * d, 2.0)];
    var late := [Bar(3 * d, 2.0)];
    assert late[1..] == [] && InRange(late, 0, 3 * d) == late;
    assert Combine(Failed(Fault(true, false, true)), Bars(late)) == Bars([] + late) && [] + late == late;
  }

  /** And when nothing is published yet, it even reports "not found" for bars that exist. */
  lemma JoinedFaultHidesBars()
    ensures var d := NANOS_PER_DAY;
            var m: Market := (t: string) => [Bar(0, 1.0)];
            var past := Failed(Fault(true, false, true));
            Restrict(Combine(past, Bars(InRange(m("T"), 2 * d, 3 * d))), 0, 3 * d) == NOT_FOUND
            && InRange(m("T"), 0, 3 * d) == [Bar(0, 1.0)]
  {
    var d := NANOS_PER_DAY;
    var s := [Bar(0, 1.0)];
    assert s[1..] == [] && InRange(s[1..], 2 * d, 3 * d) == [] && InRange(s[1..], 0, 3 * d) == [];
    assert InRange(s, 2 * d, 3 * d) == [];
    assert Combine(Failed(Fault(true, false, true)), Bars([])) == Bars([]);
  }

  // ---------------------------------------------------------------- the cache

  datatype Key = Key(ticker: string, fromDay: int, toDay: int)

  /** A cached reply; no expiry for immutable history. */
  datatype Entry = Entry(reply: Reply, expiresAt: Option<int>)

  predicate Expired(e: Entry, now: int) {
    e.expiresAt.Some? && now > e.expiresAt.value
  }

  /** Not past its expiry; without one it stays fresh for ever. */
  ghost predicate Fresh(e: Entry, now: int) {
    e.expiresAt.None? || now <= e.expiresAt.value
  }

  /** The cached reply is what an honest provider says for every range with this key. */
  ghost predicate Faithful(m: Market, key: Key, e: Entry) {
    && (forall t {:trigger DayOf(t)} :: DayOf(t) == key.toDay ==>
          Honest(m, key.ticker, key.fromDay * NANOS_PER_DAY, t, e.reply))
    && (e.reply.Failed? ==> CacheableFault(e.reply.fault))
  }

  lemma ReplyFaithful(m: Market, ticker: string, from: int, to: int, r: Reply, expiresAt: Option<int>)
    requires Daily(m) && StartOfDay(from) == from && Honest(m, ticker, from, to, r)
    requires r.Failed? ==> CacheableFault(r.fault)
    ensures Faithful(m, Key(ticker, DayOf(from), DayOf(to)), Entry(r, expiresAt))
  {
    forall t | DayOf(t) == DayOf(to) ensures Honest(m, ticker, DayOf(from) * NANOS_PER_DAY, t, r) {
      RangeDay(m(ticker), from, to, t);
    }
  }

  /** Bars are stored, for ever if they are immutable; so is "not found" or "not supported" if no vendor was out. */
  ghost predicate StoredAs(entries: map<Key, Entry>, key: Key, r: Reply, immutable: bool, expiry: int) {
    && (key in entries <==> r.Bars? || (!r.fault.unavailable && (r.fault.notFound || r.fault.notSupported)))
    && (key in entries ==> entries[key] == Entry(r, if r.Bars? && immutable then None else Some(expiry)))
  }

  lemma FaithfulReply(m: Market, ticker: string, from: int, to: int, e: Entry)
    requires StartOfDay(from) == from && Faithful(m, Key(ticker, DayOf(from), DayOf(to)), e)
    ensures Honest(m, ticker, from, to, e.reply) && Plausible(m, ticker, from, to, e.reply)
  {}

  lemma ProviderReply(m: Market, next: Provider, ticker: string, from: int, to: int)
    requires PlausibleProvider(m, next)
    ensures Plausible(m, ticker, from, to, next(ticker, from, to))
    ensures HonestProvider(m, next) ==> Honest(m, ticker, from, to, next(ticker, from, to))
    ensures var r := next(ticker, from, to);
            r.Bars? || CacheableFault(r.fault) ==> Honest(m, ticker, from, to, r)
    ensures Answering(next) && next(ticker, from, to).Failed? ==> next(ticker, from, to).fault.notFound
  {
    assert Plausible(m, ticker, from, to, next(ticker, from, to));
  }

  class CachingProvider {
    const barsTTL: int
    const maxEntries: nat
    ghost const market: Market
    var entries: map<Key, Entry>

    /** Every entry is faithful to the market, so any of them may be evicted at any time. */
    ghost predicate Valid()
      reads this
    {
      Daily(market) && maxEntries > 0 && forall k :: k in entries ==> Faithful(market, k, entries[k])
    }

    ghost predicate AnswersOnly()
      reads this
    {
      forall k :: k in entries && entries[k].reply.Failed? ==> entries[k].reply.fault.notFound
    }

    constructor (barsTTL: int, maxEntries: int, ghost market: Market)
      requires Daily(market)
      ensures Valid() && this.market == market && this.barsTTL == barsTTL && entries == map[]
      ensures this.maxEntries == if maxEntries <= 0 then 4096 else maxEntries
    {
      this.barsTTL := barsTTL;
      this.maxEntries := if maxEntries <= 0 then 4096 else maxEntries;
      this.market := market;
      entries := map[];
    }

    method Lookup(key: Key, now: int) returns (e: Option<Entry>)
      requires Valid()
      modifies this
      ensures Valid()
      ensures e == if key in old(entries) && !Expired(old(entries)[key], now) then Some(old(entries)[key]) else None
      ensures entries == if e.None? then old(entries) - {key} else old(entries)
    {
      if key !in entries {
        assert entries == entries - {key};
        return None;
      }
      var found := entries[key];
      if Expired(found, now) {
        entries := entries - {key};
        return None;
      }
      return Some(found);
    }

    /** A live entry is evicted only after every expired one is gone, and only as long as the cache is full. */
    method Store(key: Key, reply: Reply, ttl: int, now: int)
      requires Valid() && Faithful(market, key, Entry(reply, if ttl > 0 then Some(now + ttl) else None))
      modifies this
      ensures Valid()
      ensures key in entries && entries[key] == Entry(reply, if ttl > 0 then Some(now + ttl) else None)
      ensures forall k :: k in entries && k != key ==> k in old(entries) && entries[k] == old(entries)[k]
      ensures (exists k :: k in old(entries) && k !in entries && !Expired(old(entries)[k], now)) ==>
                && |old(entries)| >= maxEntries
                && forall k :: k in entries && k != key ==> !Expired(entries[k], now)
      ensures |old(entries)| <= maxEntries ==> |entries| <= maxEntries
    {
      if |entries| >= maxEntries {
        entries := map k | k in entries && !Expired(entries[k], now) :: entries[k];
        while |entries| >= maxEntries
          invariant forall k :: k in entries ==>
                      k in old(entries) && entries[k] == old(entries)[k] && !Expired(entries[k], now)
          decreases |entries|
        {
          var victim :| victim in entries;
          RemovalShrinks(entries, victim);
          entries := entries - {victim};
        }
      }
      InsertionGrows(entries, key, Entry(reply, if ttl > 0 then Some(now + ttl) else None));
      entries := entries[key := Entry(reply, if ttl > 0 then Some(now + ttl) else None)];
    }

    /** What the leader of a flight does: ask the provider, and store unless the reply is an outage or joined with one.
        So a stored reply is honest whatever the provider. */
    method FetchRange(next: Provider, ticker: string, from: int, to: int, stable: int, stored: int)
      returns (r: Reply)
      requires Valid() && PlausibleProvider(market, next) && StartOfDay(from) == from && barsTTL > 0
      requires Key(ticker, DayOf(from), DayOf(to)) !in entries
      modifies this
      ensures Valid() && r == next(ticker, from, to)
      ensures StoredAs(entries, Key(ticker, DayOf(from), DayOf(to)), r, to < stable, stored + barsTTL)
      ensures forall k :: k in entries && k != Key(ticker, DayOf(from), DayOf(to)) ==>
                k in old(entries) && entries[k] == old(entries)[k]
    {
      hide Faithful, Honest, Plausible, HonestProvider, PlausibleProvider, Daily, StartOfDay, DayOf, Answering, InRange;
      var key := Key(ticker, DayOf(from), DayOf(to));
      r := next(ticker, from, to);
      ProviderReply(market, next, ticker, from, to);
      if r.Failed? {
        if CacheableFault(r.fault) {
          ReplyFaithful(market, ticker, from, to, r, Some(stored + barsTTL));
          Store(key, r, barsTTL, stored);
        }
        return;
      }
      var ttl := if to < stable then 0 else barsTTL;
      ReplyFaithful(market, ticker, from, to, r, if ttl > 0 then Some(stored + ttl) else None);
      Store(key, r, ttl, stored);
    }

    /** One cached sub-range; `next` is the wrapped provider, and the clock is read once to look up and once to store. A
        live entry is served without asking. */
    method BarsRange(next: Provider, ticker: string, from: int, to: int, stable: int, lookedUp: int, stored: int)
      returns (r: Reply)
      requires Valid() && PlausibleProvider(market, next) && StartOfDay(from) == from && barsTTL > 0
      modifies this
      ensures Valid() && Plausible(market, ticker, from, to, r)
      ensures HonestProvider(market, next) ==> Honest(market, ticker, from, to, r)
      ensures Answering(next) && old(AnswersOnly()) ==> AnswersOnly() && (r.Failed? ==> r.fault.notFound)
      ensures var key := Key(ticker, DayOf(from), DayOf(to));
              if key in old(entries) && Fresh(old(entries)[key], lookedUp)
              then r == old(entries)[key].reply && entries == old(entries)
              else r == next(ticker, from, to) && StoredAs(entries, key, r, to < stable, stored + barsTTL)
      ensures forall k :: k in entries && k != Key(ticker, DayOf(from), DayOf(to)) ==>
                k in old(entries) && entries[k] == old(entries)[k]
    {
      hide Faithful, Honest, Plausible, HonestProvider, PlausibleProvider, Daily, StartOfDay, DayOf, Answering, InRange;
      hide Valid;
      var key := Key(ticker, DayOf(from), DayOf(to));
      var e := Lookup(key, lookedUp);
      if e.Some? {
        EntryFaithful(key);
        FaithfulReply(market, ticker, from, to, e.value);
        return e.value.reply;
      }
      r := FetchRange(next, ticker, from, to, stable, stored);
      ProviderReply(market, next, ticker, from, to);
    }

    lemma EntryFaithful(key: Key)
      requires Valid() && key in entries
      ensures Faithful(market, key, entries[key])
    {}

    /** The branch of HistoricalBars for a range that spans the stable day: the past chunk, then the recent stub. When
        the past chunk's error is passed on, the stub is not fetched and `recent` stands for what it would hold. */
    method SpanningRange(next: Provider, ticker: string, from: int, to: int, stable: int, clock: nat -> int)
      returns (r: Reply, ghost past: Reply, ghost recent: Reply)
      requires Valid() && PlausibleProvider(market, next) && barsTTL > 0
      requires StartOfDay(from) == from && StartOfDay(stable) == stable && from < stable <= to
      modifies this
      ensures Valid() && r == Combine(past, recent)
      ensures Plausible(market, ticker, from, stable - 1, past) && Plausible(market, ticker, stable, to, recent)
      ensures HonestProvider(market, next) ==>
                Honest(market, ticker, from, stable - 1, past) && Honest(market, ticker, stable, to, recent)
      ensures Answering(next) && old(AnswersOnly()) ==> AnswersOnly() && (r.Failed? ==> r.fault.notFound)
    {
      hide InRange, Faithful, Answering, HonestProvider, PlausibleProvider, StartOfDay;
      var early := BarsRange(next, ticker, from, stable - 1, stable, clock(1), clock(2));
      past, recent := early, Bars(InRange(market(ticker), stable, to));
      if early.Failed? && !early.fault.notFound {
        return early, past, recent;
      }
      var late := BarsRange(next, ticker, stable, to, stable, clock(3), clock(4));
      recent := late;
      if late.Failed? && !late.fault.notFound {
        return late, past, recent;
      }
      r := Combine(early, late);
    }

    /** MAIN: whatever was called, expired or evicted before, the answer is the combination of plausible chunk
        replies, exact for every market that agrees with them exactly under the guard; outside the split it is exact
        unless a joined fault is handed on. clock(i) is the i-th reading of the clock; `past` and `recent` are the
        chunk replies. */
    method HistoricalBars(next: Provider, ticker: string, from: int, to: int, clock: nat -> int)
      returns (r: Reply, ghost past: Reply, ghost recent: Reply)
      requires Valid() && PlausibleProvider(market, next)
      modifies this
      ensures Valid()
      ensures barsTTL <= 0 ==> r == next(ticker, from, to)
      ensures barsTTL > 0 && Spans(from, to, StableDay(clock(0))) ==>
                && r == Restrict(Combine(past, recent), from, to)
                && Agrees(market, ticker, from, to, StableDay(clock(0)), past, recent)
                && (AlwaysExact(ticker, from, to, StableDay(clock(0)), past, recent)
                    <==> Guarded(past, recent, from, StableDay(clock(0))))
      ensures barsTTL > 0 && !Spans(from, to, StableDay(clock(0))) ==> Exact(market, ticker, from, to, r) || Joined(r)
      ensures barsTTL > 0 && HonestProvider(market, next) ==> Exact(market, ticker, from, to, r)
      ensures barsTTL > 0 && HonestProvider(market, next) && Answering(next) && old(AnswersOnly()) ==>
                AnswersOnly() && Complete(market, ticker, from, to, r)
    {
      past, recent := NOT_FOUND, NOT_FOUND;
      if barsTTL <= 0 {
        return next(ticker, from, to), past, recent;
      }
      hide InRange, Faithful, Answering, HonestProvider, PlausibleProvider, AnswersOnly;
      var fetchFrom := StartOfDay(from);
      DayStart(from);
      DayStart(clock(0));
      var stable := StartOfDay(clock(0)) - NANOS_PER_DAY;
      var fetched;
      if fetchFrom < stable && to >= stable {
        fetched, past, recent := SpanningRange(next, ticker, fetchFrom, to, stable, clock);
        ChunksAgree(market, ticker, from, to, stable, past, recent);
      } else {
        fetched := BarsRange(next, ticker, fetchFrom, to, stable, clock(1), clock(2));
        WholeRangeExact(market, ticker, from, to, fetched);
      }
      r := fetched;
      if fetched.Bars? {
        r := FilterBars(fetched.bars, from, to);
      }
      ExactIsComplete(market, ticker, from, to, r);
    }

    /** The final filter, which never aliases the cached list. */
    method FilterBars(bars: seq<Bar>, from: int, to: int) returns (r: Reply)
      ensures r == Restrict(Bars(bars), from, to)
    {
      var out: seq<Bar> := [];
      for k := 0 to |bars|
        invariant out + InRange(bars[k..], from, to) == InRange(bars, from, to)
      {
        assert bars[k..][1..] == bars[k + 1..];
        if bars[k].date < from || bars[k].date > to {
          continue;
        }
        out := out + [bars[k]];
      }
      if out == [] {
        return NOT_FOUND;
      }
      return Bars(out);
    }
  }

  // Appending the stub may write into the spare capacity behind the cached past chunk, which other callers share.

  /** The backing array after `stub` was written behind its first n elements. */
  function Appended(backing: seq<Bar>, n: nat, stub: seq<Bar>): (r: seq<Bar>)
    requires n + |stub| <= |backing|
    ensures |r| == |backing|
    ensures forall k :: 0 <= k < |r| ==> r[k] == if n <= k < n + |stub| then stub[k - n] else backing[k]
  {
    backing[..n] + stub + backing[n + |stub|..]
  }

  lemma {:induction false} ShorterStubIsPrefix(bars: seq<Bar>, stable: int, to: int, later: int)
    requires Chronological(bars) && to <= later
    ensures InRange(bars, stable, to) <= InRange(bars, stable, later)
  {
    if bars != [] {
      ShorterStubIsPrefix(bars[1..], stable, to, later);
      if bars[0].date > to {
        RangeEmpty(bars[1..], stable, to);
      }
    }
  }

  /** Over a fixed market two callers of one past chunk write prefixes of the same stub: the second write leaves what
      the first caller sees as it was. */
  lemma SharedAppendsAgree(bars: seq<Bar>, backing: seq<Bar>, n: nat, stable: int, to: int, other: int)
    requires Chronological(bars)
    requires n + |InRange(bars, stable, to)| <= |backing| && n + |InRange(bars, stable, other)| <= |backing|
    ensures var mine, theirs := InRange(bars, stable, to), InRange(bars, stable, other);
            Appended(Appended(backing, n, mine), n, theirs)[..n + |mine|] == backing[..n] + mine
  {
    var mine, theirs := InRange(bars, stable, to), InRange(bars, stable, other);
    if to <= other {
      ShorterStubIsPrefix(bars, stable, to, other);
    } else {
      ShorterStubIsPrefix(bars, stable, other, to);
    }
    hide InRange;
    PrefixesAgree(backing, n, mine, theirs);
  }

  lemma PrefixesAgree(backing: seq<Bar>, n: nat, mine: seq<Bar>, theirs: seq<Bar>)
    requires n + |mine| <= |backing| && n + |theirs| <= |backing| && (mine <= theirs || theirs <= mine)
    ensures Appended(Appended(backing, n, mine), n, theirs)[..n + |mine|] == backing[..n] + mine
  {
    hide Appended;
    var seen := Appended(Appended(backing, n, mine), n, theirs);
    forall k | 0 <= k < n + |mine| ensures seen[k] == (backing[..n] + mine)[k] {}
  }

  /** The start of yesterday: bars dated before it are immutable. */
  function StableDay(now: int): int {
    StartOfDay(now) - NANOS_PER_DAY
  }

  /** It is the midnight that starts the day before the one of `now`. */
  lemma StableIsYesterday(now: int)
    ensures DayOf(StableDay(now)) == DayOf(now) - 1 && StartOfDay(StableDay(now)) == StableDay(now)
    ensures StableDay(now) + 24 * 3600 * 1_000_000_000 <= now < StableDay(now) + 2 * (24 * 3600 * 1_000_000_000)
  {}

  predicate Spans(from: int, to: int, stable: int) {
    StartOfDay(from) < stable <= to
  }

  /** Exact for every market that agrees with the two chunk replies. */
  ghost predicate AlwaysExact(ticker: string, from: int, to: int, stable: int, past: Reply, recent: Reply) {
    forall m: Market :: Agrees(m, ticker, from, to, stable, past, recent) ==>
      Exact(m, ticker, from, to, Restrict(Combine(past, recent), from, to))
  }

  /** The bars in range, or "not found" when there are none. */
  ghost predicate Complete(m: Market, ticker: string, from: int, to: int, r: Reply) {
    && (InRange(m(ticker), from, to) == [] ==> r.Failed? && r.fault.notFound)
    && (InRange(m(ticker), from, to) != [] ==> r == Bars(InRange(m(ticker), from, to)))
  }

  lemma ExactIsComplete(m: Market, ticker: string, from: int, to: int, r: Reply)
    ensures Exact(m, ticker, from, to, r) && (r.Failed? ==> r.fault.notFound) ==> Complete(m, ticker, from, to, r)
  {}

  lemma ChunksAgree(m: Market, ticker: string, from: int, to: int, stable: int, past: Reply, recent: Reply)
    requires Daily(m) && StartOfDay(from) < stable <= to && StartOfDay(stable) == stable
    requires Plausible(m, ticker, StartOfDay(from), stable - 1, past) && Plausible(m, ticker, stable, to, recent)
    ensures Agrees(m, ticker, from, to, stable, past, recent)
    ensures AlwaysExact(ticker, from, to, stable, past, recent) <==> Guarded(past, recent, from, stable)
    ensures Honest(m, ticker, StartOfDay(from), stable - 1, past) && Honest(m, ticker, stable, to, recent) ==>
              Exact(m, ticker, from, to, Restrict(Combine(past, recent), from, to))
  {
    ExactForAllMarketsIff(m, ticker, from, to, stable, past, recent);
    if Honest(m, ticker, StartOfDay(from), stable - 1, past) && Honest(m, ticker, stable, to, recent) {
      HonestChunksExact(m, ticker, from, to, stable, past, recent);
    }
  }

  /** A range fetched whole is exact, unless a joined fault is handed on. */
  lemma WholeRangeExact(m: Market, ticker: string, from: int, to: int, r: Reply)
    requires Plausible(m, ticker, StartOfDay(from), to, r)
    ensures !Joined(r) || Honest(m, ticker, StartOfDay(from), to, r) ==>
            Exact(m, ticker, from, to, Restrict(r, from, to))
  {
    DayStart(from);
    RangeNarrow(m(ticker), StartOfDay(from), from, to);
  }

  lemma RemovalShrinks(m: map<Key, Entry>, k: Key)
    requires k in m
    ensures |m - {k}| == |m| - 1
  {
    assert (m - {k}).Keys == m.Keys - {k};
  }

  lemma InsertionGrows(m: map<Key, Entry>, k: Key, e: Entry)
    ensures |m[k := e]| <= |m| + 1
  {
    assert m[k := e].Keys == m.Keys + {k};
  }
}
