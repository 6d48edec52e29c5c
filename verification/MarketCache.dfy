/** The market-data cache under concurrency: one map of entries and one of flights, shared by quotes, fundamentals and
    bar ranges. Time is in nanoseconds since the zero time of the clock, a UTC midnight. */
module MarketCache {
  import opened Domain
  import opened Wrappers
  import BarCache

  const SECOND: int := 1_000_000_000

  datatype Quote = Quote(price: real, asOf: int)

  datatype Fundamentals = Fundamentals(earnings: real, asOf: int)

  datatype Reply =
    | Quoted(quote: Quote)
    | Reported(fundamentals: Fundamentals)
    | Listed(bars: seq<Bar>)
    | Failed(fault: BarCache.Fault)

  /** `stable` is the start of the day from which the caller considers bars revisable. */
  datatype Request =
    | QuoteOf(ticker: string, asOf: int)
    | FundamentalsOf(ticker: string, asOf: int)
    | BarsOf(ticker: string, from: int, to: int, stable: int)

  datatype Key =
    | QuoteKey(ticker: string, second: int)
    | FundamentalsKey(ticker: string, second: int)
    | BarsKey(range: BarCache.Key)

  /** The caching periods and the market behind the wrapped provider. */
  datatype Config = Config(quoteTTL: int, fundamentalsTTL: int, barsTTL: int, market: BarCache.Market)

  function Ttl(cfg: Config, r: Request): int {
    match r
    case QuoteOf(_, _) => cfg.quoteTTL
    case FundamentalsOf(_, _) => cfg.fundamentalsTTL
    case BarsOf(_, _, _, _) => cfg.barsTTL
  }

  function Bucket(t: int, ttl: int): int {
    if ttl > 0 then t - t % ttl else t
  }

  /** Point data is keyed by the whole second at which its bucket starts, ranges by their days. */
  function KeyOf(cfg: Config, r: Request): Key {
    match r
    case QuoteOf(ticker, asOf) => QuoteKey(ticker, Bucket(asOf, cfg.quoteTTL) / SECOND)
    case FundamentalsOf(ticker, asOf) => FundamentalsKey(ticker, Bucket(asOf, cfg.fundamentalsTTL) / SECOND)
    case BarsOf(ticker, from, to, _) => BarsKey(BarCache.Key(ticker, BarCache.DayOf(from), BarCache.DayOf(to)))
  }

  ghost predicate KeysSeparateBuckets(ttl: int) {
    forall a, b :: Bucket(a, ttl) / SECOND == Bucket(b, ttl) / SECOND ==> Bucket(a, ttl) == Bucket(b, ttl)
  }

  /** MAIN: one key never covers two TTL buckets exactly if the TTL is at least one second. */
  lemma KeysSeparateBucketsIff(ttl: int)
    requires ttl > 0
    ensures KeysSeparateBuckets(ttl) <==> ttl >= SECOND
  {
    if ttl < SECOND {
      FirstBuckets(ttl);
      assert Bucket(0, ttl) / SECOND == Bucket(ttl, ttl) / SECOND;
    } else {
      hide Bucket;
      forall a, b | Bucket(a, ttl) / SECOND == Bucket(b, ttl) / SECOND ensures Bucket(a, ttl) == Bucket(b, ttl) {
        BucketsFarApart(a, b, ttl);
        BucketsFarApart(b, a, ttl);
      }
    }
  }

  lemma FirstBuckets(ttl: int)
    requires ttl > 0
    ensures Bucket(0, ttl) == 0 && Bucket(ttl, ttl) == ttl
  {
    assert ttl % ttl == 0;
  }

  lemma BucketsFarApart(a: int, b: int, ttl: int)
    requires ttl >= SECOND
    ensures Bucket(a, ttl) < Bucket(b, ttl) ==> Bucket(a, ttl) / SECOND < Bucket(b, ttl) / SECOND
  {
    var x, y := a / ttl, b / ttl;
    assert Bucket(a, ttl) == ttl * x && Bucket(b, ttl) == ttl * y;
    Multiples(ttl, x, y);
    hide Bucket;
    if Bucket(a, ttl) < Bucket(b, ttl) {
      SecondsApart(Bucket(a, ttl), Bucket(b, ttl));
    }
  }

  lemma Multiples(ttl: int, x: int, y: int)
    requires ttl > 0
    ensures ttl * x < ttl * y ==> ttl * x + ttl <= ttl * y
  {
    if x < y {
      assert ttl * (y - x - 1) >= 0;
    } else {
      assert ttl * (x - y) >= 0;
    }
  }

  lemma SecondsApart(p: int, q: int)
    requires p + SECOND <= q
    ensures p / SECOND < q / SECOND
  {}

  // ---------------------------------------------------------------- what the provider promises

  /** The lookahead guard: point data is never newer than the instant asked for; bars are filtered later. */
  predicate Suits(r: Request, reply: Reply) {
    match reply
    case Quoted(q) => r.QuoteOf? ==> q.asOf <= r.asOf
    case Reported(f) => r.FundamentalsOf? ==> f.asOf <= r.asOf
    case _ => true
  }

  function AsBars(reply: Reply): BarCache.Reply
    requires reply.Listed? || reply.Failed?
  {
    match reply
    case Listed(bars) => BarCache.Bars(bars)
    case Failed(fault) => BarCache.Failed(fault)
  }

  /** What the wrapped provider may reply: point data as of the instant, or what a chain of honest vendors says of a
      range. */
  ghost predicate Permitted(cfg: Config, r: Request, reply: Reply) {
    match r
    case QuoteOf(_, asOf) => reply.Failed? || (reply.Quoted? && reply.quote.asOf <= asOf)
    case FundamentalsOf(_, asOf) => reply.Failed? || (reply.Reported? && reply.fundamentals.asOf <= asOf)
    case BarsOf(ticker, from, to, _) =>
      (reply.Listed? || reply.Failed?) && BarCache.Plausible(cfg.market, ticker, from, to, AsBars(reply))
  }

  predicate Cacheable(reply: Reply) {
    reply.Failed? ==> BarCache.CacheableFault(reply.fault)
  }

  /** When a stored reply expires; immutable history never does. */
  function Expiry(cfg: Config, r: Request, reply: Reply, now: int): Option<int> {
    if r.BarsOf? && reply.Listed? && r.to < r.stable then None else Some(now + Ttl(cfg, r))
  }

  // ---------------------------------------------------------------- interleavings

  datatype Phase =
    | Start
    | Missed
    | Waiting(flight: nat)
    | Leading(flight: nat)
    | Fetching(flight: nat)
    | Fetched(flight: nat, reply: Reply)
    | Landing(flight: nat, reply: Reply)
    | Retired(flight: nat, reply: Reply)
    | Shared(reply: Reply)
    | Direct
    | Returned(reply: Reply)
    | Dead(flight: nat) // the fetch panicked: nothing retires or publishes the flight
    | Gone

  datatype Caller = Caller(request: Request, phase: Phase)

  datatype Flight = Flight(key: Key, done: Option<Reply>)

  datatype Entry = Entry(reply: Reply, expiresAt: Option<int>)

  /** What the wrapped provider said, and to which request. */
  datatype Answer = Answer(request: Request, reply: Reply)

  datatype System = System(
    now: int,
    entries: map<Key, Entry>,
    inflight: map<Key, nat>,
    flights: map<nat, Flight>,
    callers: map<nat, Caller>,
    log: seq<Answer>)

  datatype Step =
    | Call(c: nat, request: Request)
    | Lookup(c: nat)
    | Join(c: nat, newFlight: nat)
    | DoubleCheck(c: nat)
    | Fetch(c: nat, reply: Reply)
    | Store(c: nat)
    | Retire(c: nat)
    | Close(c: nat)
    | Wake(c: nat)
    | Recheck(c: nat)
    | FetchDirect(c: nat, reply: Reply)
    | FetchPanics(c: nat)
    | Evict(key: Key)
    | Tick(now: int)

  function Empty(now: int): System {
    System(now, map[], map[], map[], map[], [])
  }

  predicate Live(s: System, k: Key) {
    k in s.entries && (s.entries[k].expiresAt.None? || s.now <= s.entries[k].expiresAt.value)
  }

  /** Bar ranges are asked for from a midnight on. */
  predicate WellFormed(r: Request) {
    r.BarsOf? ==> BarCache.StartOfDay(r.from) == r.from
  }

  ghost predicate Enabled(cfg: Config, s: System, step: Step) {
    match step
    case Call(c, request) => c !in s.callers && WellFormed(request)
    case Lookup(c) => c in s.callers && s.callers[c].phase.Start?
    case Join(c, newFlight) => c in s.callers && s.callers[c].phase.Missed? && newFlight !in s.flights
    case DoubleCheck(c) => c in s.callers && s.callers[c].phase.Leading?
    case Fetch(c, reply) => c in s.callers && s.callers[c].phase.Fetching?
      && Permitted(cfg, s.callers[c].request, reply)
    case Store(c) => c in s.callers && s.callers[c].phase.Fetched?
    case Retire(c) => c in s.callers && s.callers[c].phase.Landing?
    case Close(c) => c in s.callers && s.callers[c].phase.Retired? && s.callers[c].phase.flight in s.flights
    case Wake(c) => c in s.callers && s.callers[c].phase.Waiting? && s.callers[c].phase.flight in s.flights
                    && s.flights[s.callers[c].phase.flight].done.Some?
    case Recheck(c) => c in s.callers && s.callers[c].phase.Shared?
    case FetchDirect(c, reply) => c in s.callers && s.callers[c].phase.Direct?
      && Permitted(cfg, s.callers[c].request, reply)
    case FetchPanics(c) => c in s.callers && (s.callers[c].phase.Fetching? || s.callers[c].phase.Direct?)
    case Evict(key) => true
    case Tick(now) => now >= s.now
  }

  function Goto(s: System, c: nat, phase: Phase): System
    requires c in s.callers
  {
    s.(callers := s.callers[c := s.callers[c].(phase := phase)])
  }

  function CallerKey(c: Caller, cfg: Config): Key {
    KeyOf(cfg, c.request)
  }

  /** Looking up: an expired entry is dropped, a hit is served unless it is newer than the request. */
  function AfterLookup(s: System, c: nat, key: Key): System
    requires c in s.callers
  {
    if Live(s, key) then
      var r := s.entries[key].reply;
      if Suits(s.callers[c].request, r) then Goto(s, c, Returned(r)) else Goto(s, c, Missed)
    else Goto(s.(entries := s.entries - {key}), c, Missed)
  }

  ghost function After(cfg: Config, s: System, step: Step): System
    requires Enabled(cfg, s, step)
  {
    match step
    case Call(c, request) =>
      s.(callers := s.callers[c := Caller(request, if Ttl(cfg, request) <= 0 then Direct else Start)])
    case Lookup(c) => AfterLookup(s, c, CallerKey(s.callers[c], cfg))
    case Join(c, newFlight) =>
      var key := CallerKey(s.callers[c], cfg);
      if key in s.inflight then Goto(s, c, Waiting(s.inflight[key]))
      else
        var led := s.(inflight := s.inflight[key := newFlight], flights := s.flights[newFlight := Flight(key, None)]);
        Goto(led, c, Leading(newFlight))
    case DoubleCheck(c) =>
      var key, f := CallerKey(s.callers[c], cfg), s.callers[c].phase.flight;
      if Live(s, key) then Goto(s, c, Landing(f, s.entries[key].reply))
      else Goto(s.(entries := s.entries - {key}), c, Fetching(f))
    case Fetch(c, reply) =>
      var caller := s.callers[c];
      Goto(s.(log := s.log + [Answer(caller.request, reply)]), c, Fetched(caller.phase.flight, reply))
    case Store(c) =>
      var ph := s.callers[c].phase;
      var key := CallerKey(s.callers[c], cfg);
      if Cacheable(ph.reply)
      then Goto(s.(entries := s.entries[key := Entry(ph.reply, Expiry(cfg, s.callers[c].request, ph.reply, s.now))]), c,
                Landing(ph.flight, ph.reply))
      else Goto(s, c, Landing(ph.flight, ph.reply))
    case Retire(c) =>
      Goto(s.(inflight := s.inflight - {CallerKey(s.callers[c], cfg)}), c,
           Retired(s.callers[c].phase.flight, s.callers[c].phase.reply))
    case Close(c) =>
      var ph := s.callers[c].phase;
      Goto(s.(flights := s.flights[ph.flight := s.flights[ph.flight].(done := Some(ph.reply))]), c, Shared(ph.reply))
    case Wake(c) => Goto(s, c, Shared(s.flights[s.callers[c].phase.flight].done.value))
    case Recheck(c) =>
      var r := s.callers[c].phase.reply;
      if Suits(s.callers[c].request, r) then Goto(s, c, Returned(r)) else Goto(s, c, Direct)
    case FetchDirect(c, reply) =>
      var caller := s.callers[c];
      Goto(s.(log := s.log + [Answer(caller.request, reply)]), c, Returned(reply))
    case FetchPanics(c) =>
      var ph := s.callers[c].phase;
      Goto(s, c, if ph.Fetching? then Dead(ph.flight) else Gone)
    case Evict(key) => s.(entries := s.entries - {key})
    case Tick(now) => s.(now := now)
  }

  ghost function Run(cfg: Config, now: int, steps: seq<Step>): Option<System> {
    if steps == [] then Some(Empty(now))
    else
      match Run(cfg, now, steps[..|steps| - 1])
      case None => None
      case Some(s) => if Enabled(cfg, s, steps[|steps| - 1]) then Some(After(cfg, s, steps[|steps| - 1])) else None
  }

  // ---------------------------------------------------------------- invariants

  /** The provider gave this reply to a request with this key. */
  ghost predicate Given(cfg: Config, log: seq<Answer>, key: Key, r: Reply) {
    exists a :: a in log && KeyOf(cfg, a.request) == key && a.reply == r
  }

  predicate HoldsFlight(ph: Phase) {
    ph.Leading? || ph.Fetching? || ph.Fetched? || ph.Landing? || ph.Dead?
  }

  /** From taking the lead up to publishing the outcome, which a dead leader never does. */
  predicate CarriesFlight(ph: Phase) {
    HoldsFlight(ph) || ph.Retired?
  }

  predicate HasReply(ph: Phase) {
    ph.Fetched? || ph.Landing? || ph.Retired? || ph.Shared? || ph.Returned?
  }

  ghost predicate CallerInv(cfg: Config, s: System, c: nat)
    requires c in s.callers
  {
    var x := s.callers[c];
    var key := CallerKey(x, cfg);
    && (HasReply(x.phase) ==> Given(cfg, s.log, key, x.phase.reply))
    && (x.phase.Returned? ==> Suits(x.request, x.phase.reply))
    && WellFormed(x.request)
    && (CarriesFlight(x.phase) || x.phase.Waiting? ==>
         x.phase.flight in s.flights && s.flights[x.phase.flight].key == key)
    && (HoldsFlight(x.phase) ==> key in s.inflight && s.inflight[key] == x.phase.flight)
  }

  predicate Carries(s: System, c: nat, f: nat) {
    c in s.callers && CarriesFlight(s.callers[c].phase) && s.callers[c].phase.flight == f
  }

  /** A flight has at most one carrier, and it has one exactly as long as it is not done. */
  ghost predicate CarriedInv(s: System) {
    && (forall c, d, f :: Carries(s, c, f) && Carries(s, d, f) ==> c == d)
    && (forall f :: f in s.flights && s.flights[f].done.None? ==> exists c :: Carries(s, c, f))
    && (forall c, f :: Carries(s, c, f) && f in s.flights ==> s.flights[f].done.None?)
  }

  ghost predicate SharedInv(cfg: Config, s: System) {
    && (forall k :: k in s.entries ==> Given(cfg, s.log, k, s.entries[k].reply))
    && (forall f :: f in s.flights && s.flights[f].done.Some? ==>
          Given(cfg, s.log, s.flights[f].key, s.flights[f].done.value))
    && (forall k :: k in s.inflight ==> s.inflight[k] in s.flights && s.flights[s.inflight[k]].key == k)
  }

  ghost predicate LogInv(cfg: Config, log: seq<Answer>) {
    forall a :: a in log ==> Permitted(cfg, a.request, a.reply) && WellFormed(a.request)
  }

  ghost predicate Inv(cfg: Config, s: System) {
    && SharedInv(cfg, s) && CarriedInv(s) && LogInv(cfg, s.log)
    && forall c :: c in s.callers ==> CallerInv(cfg, s, c)
  }

  lemma GivenGrows(cfg: Config, log: seq<Answer>, a: Answer)
    ensures forall k, r :: Given(cfg, log, k, r) ==> Given(cfg, log + [a], k, r)
    ensures Given(cfg, log + [a], KeyOf(cfg, a.request), a.reply)
  {
    forall k, r | Given(cfg, log, k, r) ensures Given(cfg, log + [a], k, r) {
      var b :| b in log && KeyOf(cfg, b.request) == k && b.reply == r;
      assert b in log + [a];
    }
    assert a in log + [a];
  }

  /** What a step leaves for the callers that do not take it. */
  ghost predicate Keeps(cfg: Config, s: System, s': System) {
    && (forall k, r :: Given(cfg, s.log, k, r) ==> Given(cfg, s'.log, k, r))
    && (forall f :: f in s.flights ==> f in s'.flights && s'.flights[f].key == s.flights[f].key)
  }

  ghost predicate OnlyCallerMoves(s: System, s': System, c: nat) {
    c in s.callers && c in s'.callers && s'.callers == s.callers[c := s'.callers[c]]
  }

  /** The other callers keep their invariant when the in-flight table is left alone. */
  lemma OthersKept(cfg: Config, s: System, s': System, c: nat)
    requires OnlyCallerMoves(s, s', c) && Keeps(cfg, s, s') && s'.inflight == s.inflight
    requires CallerInv(cfg, s', c) && forall d :: d in s.callers ==> CallerInv(cfg, s, d)
    ensures forall d :: d in s'.callers ==> CallerInv(cfg, s', d)
  {
    hide Given, KeyOf, Suits, WellFormed;
    forall d | d in s'.callers ensures CallerInv(cfg, s', d) {
      if d != c { assert CallerInv(cfg, s, d); }
    }
  }

  /** A caller that carries what it carried leaves every flight carried as it was. */
  lemma CarriedKept(s: System, s': System, c: nat)
    requires CarriedInv(s) && OnlyCallerMoves(s, s', c) && forall f :: Carries(s', c, f) <==> Carries(s, c, f)
    requires s'.flights == s.flights
    ensures CarriedInv(s')
  {
    assert forall d, f :: Carries(s', d, f) <==> Carries(s, d, f);
  }

  /** Publishing the outcome of a flight ends its carriage. */
  lemma CarriedClosed(s: System, s': System, c: nat, f: nat)
    requires CarriedInv(s) && OnlyCallerMoves(s, s', c) && Carries(s, c, f) && !CarriesFlight(s'.callers[c].phase)
    requires f in s.flights && f in s'.flights && s'.flights[f].done.Some?
    requires forall g :: g in s'.flights && g != f ==> g in s.flights && s'.flights[g] == s.flights[g]
    ensures CarriedInv(s')
  {
    assert forall d, g :: Carries(s', d, g) <==> Carries(s, d, g) && d != c;
    forall g | g in s'.flights && s'.flights[g].done.None? ensures exists d :: Carries(s', d, g) {
      var d :| Carries(s, d, g);
      assert Carries(s', d, g);
    }
  }

  /** A new flight is carried by the caller that starts it. */
  lemma CarriedOpened(s: System, s': System, c: nat, f: nat)
    requires CarriedInv(s) && OnlyCallerMoves(s, s', c) && !CarriesFlight(s.callers[c].phase) && Carries(s', c, f)
    requires f !in s.flights && f in s'.flights && s'.flights[f].done.None?
    requires forall d, g :: Carries(s, d, g) ==> g in s.flights
    requires forall g :: g in s'.flights && g != f ==> g in s.flights && s'.flights[g] == s.flights[g]
    ensures CarriedInv(s')
  {
    assert forall d, g :: Carries(s', d, g) <==> Carries(s, d, g) || (d == c && g == f);
    forall g | g in s'.flights && s'.flights[g].done.None? ensures exists d :: Carries(s', d, g) {
      if g == f {
        assert Carries(s', c, g);
      } else {
        var d :| Carries(s, d, g);
        assert Carries(s', d, g);
      }
    }
  }

  // ---------------------------------------------------------------- one step

  /** What a caller's own step gives, with the in-flight table left alone. */
  ghost predicate QuietFacts(cfg: Config, s: System, s': System, c: nat) {
    && OnlyCallerMoves(s, s', c) && s'.inflight == s.inflight
    && SharedInv(cfg, s') && CallerInv(cfg, s', c) && Keeps(cfg, s, s') && LogInv(cfg, s'.log)
  }

  lemma LookupFacts(cfg: Config, s: System, step: Step, s': System)
    requires Enabled(cfg, s, step) && s' == After(cfg, s, step) && step.Lookup?
    requires SharedInv(cfg, s) && CallerInv(cfg, s, step.c) && LogInv(cfg, s.log)
    ensures QuietFacts(cfg, s, s', step.c)
  {
    hide Given, KeyOf, WellFormed, Suits, LogInv;
  }

  lemma DoubleCheckFacts(cfg: Config, s: System, step: Step, s': System)
    requires Enabled(cfg, s, step) && s' == After(cfg, s, step) && step.DoubleCheck?
    requires SharedInv(cfg, s) && CallerInv(cfg, s, step.c) && LogInv(cfg, s.log)
    ensures QuietFacts(cfg, s, s', step.c)
  {
    hide Given, KeyOf, WellFormed, Suits, LogInv;
  }

  lemma LogGrows(cfg: Config, log: seq<Answer>, a: Answer)
    requires LogInv(cfg, log) && Permitted(cfg, a.request, a.reply) && WellFormed(a.request)
    ensures LogInv(cfg, log + [a])
  {
    hide Permitted, WellFormed;
  }

  lemma FetchFacts(cfg: Config, s: System, step: Step, s': System)
    requires Enabled(cfg, s, step) && s' == After(cfg, s, step) && (step.Fetch? || step.FetchDirect?)
    requires SharedInv(cfg, s) && CallerInv(cfg, s, step.c) && LogInv(cfg, s.log)
    ensures QuietFacts(cfg, s, s', step.c)
  {
    hide KeyOf, WellFormed, LogInv;
    var x := s.callers[step.c];
    GivenGrows(cfg, s.log, Answer(x.request, step.reply));
    LogGrows(cfg, s.log, Answer(x.request, step.reply));
    PermittedSuits(cfg, x.request, step.reply);
    hide Given, Permitted, Suits;
  }

  lemma PermittedSuits(cfg: Config, r: Request, reply: Reply)
    requires Permitted(cfg, r, reply)
    ensures Suits(r, reply)
  {}

  lemma StoreFacts(cfg: Config, s: System, step: Step, s': System)
    requires Enabled(cfg, s, step) && s' == After(cfg, s, step) && step.Store?
    requires SharedInv(cfg, s) && CallerInv(cfg, s, step.c) && LogInv(cfg, s.log)
    ensures QuietFacts(cfg, s, s', step.c)
  {
    hide Given, KeyOf, WellFormed, Suits, LogInv, Expiry;
  }

  lemma CloseFacts(cfg: Config, s: System, step: Step, s': System)
    requires Enabled(cfg, s, step) && s' == After(cfg, s, step) && step.Close?
    requires SharedInv(cfg, s) && CallerInv(cfg, s, step.c) && LogInv(cfg, s.log)
    ensures QuietFacts(cfg, s, s', step.c)
  {
    hide Given, KeyOf, WellFormed, Suits, LogInv;
  }

  lemma WakeFacts(cfg: Config, s: System, step: Step, s': System)
    requires Enabled(cfg, s, step) && s' == After(cfg, s, step) && step.Wake?
    requires SharedInv(cfg, s) && CallerInv(cfg, s, step.c) && LogInv(cfg, s.log)
    ensures QuietFacts(cfg, s, s', step.c)
  {
    hide Given, KeyOf, WellFormed, Suits, LogInv;
  }

  lemma RecheckFacts(cfg: Config, s: System, step: Step, s': System)
    requires Enabled(cfg, s, step) && s' == After(cfg, s, step) && step.Recheck?
    requires SharedInv(cfg, s) && CallerInv(cfg, s, step.c) && LogInv(cfg, s.log)
    ensures QuietFacts(cfg, s, s', step.c)
  {
    hide Given, KeyOf, WellFormed, LogInv;
  }

  lemma PanicFacts(cfg: Config, s: System, step: Step, s': System)
    requires Enabled(cfg, s, step) && s' == After(cfg, s, step) && step.FetchPanics?
    requires SharedInv(cfg, s) && CallerInv(cfg, s, step.c) && LogInv(cfg, s.log)
    ensures QuietFacts(cfg, s, s', step.c)
  {
    hide Given, KeyOf, WellFormed, LogInv, Suits;
  }

  predicate Quiet(step: Step) {
    || step.Lookup? || step.DoubleCheck? || step.Fetch? || step.FetchDirect? || step.FetchPanics?
    || step.Store? || step.Close? || step.Wake? || step.Recheck?
  }

  lemma CarriedQuiet(cfg: Config, s: System, step: Step, s': System)
    requires CarriedInv(s) && Enabled(cfg, s, step) && s' == After(cfg, s, step) && Quiet(step)
    requires OnlyCallerMoves(s, s', step.c)
    ensures CarriedInv(s')
  {
    hide CarriedInv, KeyOf, Suits, Permitted, Expiry, Live;
    if step.Close? {
      CarriedClosed(s, s', step.c, s.callers[step.c].phase.flight);
    } else {
      CarriedKept(s, s', step.c);
    }
  }

  /** Steps that leave the in-flight table alone. */
  lemma QuietStep(cfg: Config, s: System, step: Step, s': System)
    requires Inv(cfg, s) && Enabled(cfg, s, step) && s' == After(cfg, s, step) && Quiet(step)
    ensures Inv(cfg, s')
  {
    hide Given, SharedInv, CallerInv, Keeps, LogInv, CarriedInv, After, Enabled, QuietFacts, OnlyCallerMoves;
    QuietCaller(cfg, s, step);
    match step {
      case Lookup(_) => LookupFacts(cfg, s, step, s');
      case DoubleCheck(_) => DoubleCheckFacts(cfg, s, step, s');
      case Store(_) => StoreFacts(cfg, s, step, s');
      case Close(_) => CloseFacts(cfg, s, step, s');
      case Wake(_) => WakeFacts(cfg, s, step, s');
      case Recheck(_) => RecheckFacts(cfg, s, step, s');
      case FetchPanics(_) => PanicFacts(cfg, s, step, s');
      case _ => FetchFacts(cfg, s, step, s');
    }
    FactsMoves(cfg, s, s', step.c);
    CarriedQuiet(cfg, s, step, s');
    OthersKept(cfg, s, s', step.c);
  }

  lemma QuietCaller(cfg: Config, s: System, step: Step)
    requires Enabled(cfg, s, step) && Quiet(step)
    ensures step.c in s.callers
  {}

  lemma FactsMoves(cfg: Config, s: System, s': System, c: nat)
    requires QuietFacts(cfg, s, s', c)
    ensures OnlyCallerMoves(s, s', c) && s'.inflight == s.inflight && c in s'.callers
    ensures SharedInv(cfg, s') && CallerInv(cfg, s', c) && Keeps(cfg, s, s') && LogInv(cfg, s'.log)
  {}

  lemma JoinShared(cfg: Config, s: System, step: Step, s': System)
    requires Enabled(cfg, s, step) && s' == After(cfg, s, step) && step.Join?
    requires SharedInv(cfg, s) && CallerInv(cfg, s, step.c)
    ensures SharedInv(cfg, s') && CallerInv(cfg, s', step.c) && OnlyCallerMoves(s, s', step.c) && s'.log == s.log
  {
    hide Given, KeyOf, WellFormed, Suits;
  }

  lemma JoinOther(cfg: Config, s: System, step: Step, s': System, d: nat)
    requires Enabled(cfg, s, step) && s' == After(cfg, s, step) && step.Join?
    requires d in s.callers && d != step.c && CallerInv(cfg, s, d)
    ensures CallerInv(cfg, s', d)
  {
    hide Given, KeyOf, WellFormed, Suits;
  }

  lemma CarriedJoin(cfg: Config, s: System, step: Step, s': System)
    requires CarriedInv(s) && Enabled(cfg, s, step) && s' == After(cfg, s, step) && step.Join?
    requires OnlyCallerMoves(s, s', step.c) && forall d, g :: Carries(s, d, g) ==> g in s.flights
    ensures CarriedInv(s')
  {
    hide CarriedInv, KeyOf;
    if CallerKey(s.callers[step.c], cfg) in s.inflight {
      CarriedKept(s, s', step.c);
    } else {
      CarriedOpened(s, s', step.c, step.newFlight);
    }
  }

  lemma CarriedStored(cfg: Config, s: System)
    requires forall c :: c in s.callers ==> CallerInv(cfg, s, c)
    ensures forall d, g :: Carries(s, d, g) ==> g in s.flights
  {
    hide Given, KeyOf, WellFormed, Suits;
    forall d, g | Carries(s, d, g) ensures g in s.flights {
      assert CallerInv(cfg, s, d);
    }
  }

  /** Joining: either waits on the flight under the key, or takes a new flight nobody else holds. */
  lemma JoinStep(cfg: Config, s: System, step: Step, s': System)
    requires Inv(cfg, s) && Enabled(cfg, s, step) && s' == After(cfg, s, step) && step.Join?
    ensures Inv(cfg, s')
  {
    hide Given, SharedInv, LogInv, CarriedInv, CallerInv, KeyOf;
    assert CallerInv(cfg, s, step.c);
    JoinShared(cfg, s, step, s');
    CarriedStored(cfg, s);
    CarriedJoin(cfg, s, step, s');
    forall d | d in s'.callers ensures CallerInv(cfg, s', d) {
      if d != step.c { JoinOther(cfg, s, step, s', d); }
    }
  }

  lemma RetireShared(cfg: Config, s: System, step: Step, s': System)
    requires Enabled(cfg, s, step) && s' == After(cfg, s, step) && step.Retire?
    requires SharedInv(cfg, s) && CallerInv(cfg, s, step.c)
    ensures SharedInv(cfg, s') && CallerInv(cfg, s', step.c) && OnlyCallerMoves(s, s', step.c) && s'.log == s.log
  {
    hide Given, KeyOf, WellFormed, Suits;
  }

  lemma RetireOther(cfg: Config, s: System, step: Step, s': System, d: nat)
    requires Enabled(cfg, s, step) && s' == After(cfg, s, step) && step.Retire?
    requires d in s.callers && d != step.c && CallerInv(cfg, s, d) && CallerInv(cfg, s, step.c) && CarriedInv(s)
    ensures CallerInv(cfg, s', d)
  {
    hide Given, KeyOf, WellFormed, Suits;
    assert Carries(s, step.c, s.callers[step.c].phase.flight);
    if HoldsFlight(s.callers[d].phase) {
      assert Carries(s, d, s.callers[d].phase.flight);
    }
  }

  lemma CarriedRetire(cfg: Config, s: System, step: Step, s': System)
    requires CarriedInv(s) && Enabled(cfg, s, step) && s' == After(cfg, s, step) && step.Retire?
    requires OnlyCallerMoves(s, s', step.c)
    ensures CarriedInv(s')
  {
    hide CarriedInv, KeyOf;
    CarriedKept(s, s', step.c);
  }

  /** Retiring a flight: nobody else holds one under that key, so nobody else loses his. */
  lemma RetireStep(cfg: Config, s: System, step: Step, s': System)
    requires Inv(cfg, s) && Enabled(cfg, s, step) && s' == After(cfg, s, step) && step.Retire?
    ensures Inv(cfg, s')
  {
    hide Given, SharedInv, LogInv, CarriedInv, CallerInv, KeyOf;
    assert CallerInv(cfg, s, step.c);
    RetireShared(cfg, s, step, s');
    CarriedRetire(cfg, s, step, s');
    forall d | d in s'.callers ensures CallerInv(cfg, s', d) {
      if d != step.c { RetireOther(cfg, s, step, s', d); }
    }
  }

  lemma OutsideStep(cfg: Config, s: System, step: Step, s': System)
    requires Inv(cfg, s) && Enabled(cfg, s, step) && s' == After(cfg, s, step)
    requires step.Call? || step.Evict? || step.Tick?
    ensures Inv(cfg, s')
  {
    hide Given, KeyOf, WellFormed, Suits, LogInv;
    forall d | d in s'.callers ensures CallerInv(cfg, s', d) {
      if d in s.callers { assert CallerInv(cfg, s, d); }
    }
    assert forall d, f :: Carries(s', d, f) <==> Carries(s, d, f);
  }

  lemma {:induction false} RunInv(cfg: Config, now: int, steps: seq<Step>)
    requires Run(cfg, now, steps).Some?
    ensures Inv(cfg, Run(cfg, now, steps).value)
  {
    if steps != [] {
      hide Inv, After, Enabled;
      RunInv(cfg, now, steps[..|steps| - 1]);
      var s, step := Run(cfg, now, steps[..|steps| - 1]).value, steps[|steps| - 1];
      var s' := After(cfg, s, step);
      match step
      case Join(_, _) => JoinStep(cfg, s, step, s');
      case Retire(_) => RetireStep(cfg, s, step, s');
      case Call(_, _) => OutsideStep(cfg, s, step, s');
      case Evict(_) => OutsideStep(cfg, s, step, s');
      case Tick(_) => OutsideStep(cfg, s, step, s');
      case _ => QuietStep(cfg, s, step, s');
    }
  }

  // ---------------------------------------------------------------- what is stored, and when the provider is asked

  function KeyTtl(cfg: Config, k: Key): int {
    match k
    case QuoteKey(_, _) => cfg.quoteTTL
    case FundamentalsKey(_, _) => cfg.fundamentalsTTL
    case BarsKey(_) => cfg.barsTTL
  }

  /** A caller asked for this range of bars, and the range ended before its stable day. */
  ghost predicate AskedImmutable(cfg: Config, s: System, k: Key, d: nat) {
    && d in s.callers && s.callers[d].request.BarsOf? && KeyOf(cfg, s.callers[d].request) == k
    && s.callers[d].request.to < s.callers[d].request.stable
  }

  /** No outage is stored; only bars that ended before their caller's stable day never expire, and the others expire
      within their TTL. */
  ghost predicate EntryInv(cfg: Config, s: System, k: Key, e: Entry) {
    && (e.reply.Failed? ==> !e.reply.fault.unavailable && (e.reply.fault.notFound || e.reply.fault.notSupported))
    && (e.expiresAt.None? ==> e.reply.Listed? && exists d :: AskedImmutable(cfg, s, k, d))
    && (e.expiresAt.Some? ==> e.expiresAt.value <= s.now + KeyTtl(cfg, k))
  }

  ghost predicate EntriesInv(cfg: Config, s: System) {
    forall k :: k in s.entries ==> EntryInv(cfg, s, k, s.entries[k])
  }

  /** While a leader fetches, and until it stores, its key is not in the cache. */
  ghost predicate MissingInv(cfg: Config, s: System) {
    forall c :: c in s.callers && (s.callers[c].phase.Fetching? || s.callers[c].phase.Fetched?) ==>
      CallerKey(s.callers[c], cfg) !in s.entries
  }

  /** What a step leaves alone. */
  ghost predicate Remembers(s: System, s': System) {
    && s.now <= s'.now
    && forall d :: d in s.callers ==> d in s'.callers && s'.callers[d].request == s.callers[d].request
  }

  lemma StepRemembers(cfg: Config, s: System, step: Step)
    requires Enabled(cfg, s, step)
    ensures Remembers(s, After(cfg, s, step))
  {
    hide KeyOf, Suits, Permitted, Expiry, Live;
  }

  lemma EntryKept(cfg: Config, s: System, s': System, k: Key, e: Entry)
    requires EntryInv(cfg, s, k, e) && Remembers(s, s')
    ensures EntryInv(cfg, s', k, e)
  {
    hide KeyOf;
    if e.expiresAt.None? {
      var d :| AskedImmutable(cfg, s, k, d);
      assert AskedImmutable(cfg, s', k, d);
    }
  }

  /** Entries come only from a leader's store. */
  lemma EntriesShrink(cfg: Config, s: System, step: Step, k: Key)
    requires Enabled(cfg, s, step) && k in After(cfg, s, step).entries
    requires !step.Store? || CallerKey(s.callers[step.c], cfg) != k
    ensures k in s.entries && After(cfg, s, step).entries[k] == s.entries[k]
  {
    hide KeyOf, Suits, Permitted, Expiry, Live;
  }

  lemma StoredEntry(cfg: Config, s: System, step: Step)
    requires Enabled(cfg, s, step) && step.Store? && EntriesInv(cfg, s)
    ensures var k, s' := CallerKey(s.callers[step.c], cfg), After(cfg, s, step);
            k in s'.entries ==>
              (k in s.entries && s'.entries[k] == s.entries[k]) || EntryInv(cfg, s', k, s'.entries[k])
  {
    hide EntriesInv;
    var k, s' := CallerKey(s.callers[step.c], cfg), After(cfg, s, step);
    assert s'.callers[step.c].request == s.callers[step.c].request;
    if s.callers[step.c].request.BarsOf? && s.callers[step.c].request.to < s.callers[step.c].request.stable {
      assert AskedImmutable(cfg, s', k, step.c);
    }
  }

  lemma StorerHolds(cfg: Config, s: System, c: nat)
    requires Enabled(cfg, s, Store(c))
    ensures c in s.callers && HoldsFlight(s.callers[c].phase)
  {}

  lemma EntriesStep(cfg: Config, s: System, step: Step)
    requires EntriesInv(cfg, s) && Enabled(cfg, s, step)
    ensures EntriesInv(cfg, After(cfg, s, step))
  {
    hide After, Enabled, EntryInv, KeyOf, CallerKey;
    var s' := After(cfg, s, step);
    StepRemembers(cfg, s, step);
    if step.Store? {
      StorerHolds(cfg, s, step.c);
    }
    forall k | k in s'.entries ensures EntryInv(cfg, s', k, s'.entries[k]) {
      if step.Store? && CallerKey(s.callers[step.c], cfg) == k {
        StoredEntry(cfg, s, step);
      } else {
        EntriesShrink(cfg, s, step, k);
      }
      if k in s.entries && s'.entries[k] == s.entries[k] {
        EntryKept(cfg, s, s', k, s.entries[k]);
      }
    }
  }

  predicate Moves(step: Step, c: nat) {
    !step.Evict? && !step.Tick? && step.c == c
  }

  lemma Bystander(cfg: Config, s: System, step: Step, c: nat)
    requires Enabled(cfg, s, step) && !Moves(step, c) && c in After(cfg, s, step).callers
    ensures c in s.callers && After(cfg, s, step).callers[c] == s.callers[c]
  {
    hide KeyOf, Suits, Permitted, Expiry, Live, Cacheable, Ttl, WellFormed;
  }

  predicate Asking(ph: Phase) {
    ph.Fetching? || ph.Fetched?
  }

  /** Only a double check of a missing key starts a fetch. */
  lemma FetchStarts(cfg: Config, s: System, step: Step, c: nat)
    requires Enabled(cfg, s, step) && Moves(step, c) && c in After(cfg, s, step).callers
    requires Asking(After(cfg, s, step).callers[c].phase)
    ensures c in s.callers && After(cfg, s, step).callers[c].request == s.callers[c].request
    ensures HoldsFlight(s.callers[c].phase)
    ensures step == DoubleCheck(c) ==> CallerKey(s.callers[c], cfg) !in After(cfg, s, step).entries
    ensures step != DoubleCheck(c) ==> step.Fetch? && Asking(s.callers[c].phase)
  {
    hide KeyOf, Suits, Permitted, Expiry, Live, Cacheable, Ttl, WellFormed;
  }

  lemma OneLeader(cfg: Config, s: System, c: nat, d: nat)
    requires Inv(cfg, s) && c in s.callers && d in s.callers
    requires HoldsFlight(s.callers[c].phase) && HoldsFlight(s.callers[d].phase)
    requires CallerKey(s.callers[c], cfg) == CallerKey(s.callers[d], cfg)
    ensures c == d
  {
    hide SharedInv, LogInv, Given, KeyOf, Suits, WellFormed;
    assert CallerInv(cfg, s, c) && CallerInv(cfg, s, d);
    assert Carries(s, c, s.callers[c].phase.flight) && Carries(s, d, s.callers[d].phase.flight);
  }

  lemma AskingHolds(ph: Phase)
    ensures Asking(ph) ==> HoldsFlight(ph)
  {}

  lemma MissingStep(cfg: Config, s: System, step: Step)
    requires Inv(cfg, s) && MissingInv(cfg, s) && Enabled(cfg, s, step)
    ensures MissingInv(cfg, After(cfg, s, step))
  {
    hide After, Enabled, KeyOf, Inv, HoldsFlight;
    var s' := After(cfg, s, step);
    if step.Store? {
      StorerHolds(cfg, s, step.c);
    }
    forall c | c in s'.callers && (s'.callers[c].phase.Fetching? || s'.callers[c].phase.Fetched?)
      ensures CallerKey(s'.callers[c], cfg) !in s'.entries
    {
      var k := CallerKey(s'.callers[c], cfg);
      if Moves(step, c) {
        FetchStarts(cfg, s, step, c);
      } else {
        Bystander(cfg, s, step, c);
        AskingHolds(s.callers[c].phase);
      }
      if step != DoubleCheck(c) && k in s'.entries {
        if step.Store? && CallerKey(s.callers[step.c], cfg) == k {
          OneLeader(cfg, s, c, step.c);
          assert false;
        } else {
          EntriesShrink(cfg, s, step, k);
          assert false;
        }
      }
    }
  }

  lemma {:induction false} StoreRun(cfg: Config, now: int, steps: seq<Step>)
    requires Run(cfg, now, steps).Some?
    ensures EntriesInv(cfg, Run(cfg, now, steps).value) && MissingInv(cfg, Run(cfg, now, steps).value)
  {
    hide Inv, After, Enabled, EntryInv, KeyOf;
    if steps != [] {
      var front, last := steps[..|steps| - 1], steps[|steps| - 1];
      StoreRun(cfg, now, front);
      RunInv(cfg, now, front);
      EntriesStep(cfg, Run(cfg, now, front).value, last);
      MissingStep(cfg, Run(cfg, now, front).value, last);
    }
  }

  /** Without a positive TTL a call asks the provider itself. */
  ghost predicate UncachedInv(cfg: Config, s: System) {
    forall c :: c in s.callers && Ttl(cfg, s.callers[c].request) <= 0 ==>
      s.callers[c].phase.Direct? || s.callers[c].phase.Returned? || s.callers[c].phase.Gone?
  }

  lemma UncachedStep(cfg: Config, s: System, step: Step)
    requires UncachedInv(cfg, s) && Enabled(cfg, s, step)
    ensures UncachedInv(cfg, After(cfg, s, step))
  {
    hide KeyOf, Suits, Permitted, Expiry, Live, Cacheable, WellFormed;
  }

  /** MAIN: a kind of request whose TTL is not positive is never looked up, shared or stored. */
  lemma {:induction false} NeverCachedWithoutTtl(cfg: Config, now: int, steps: seq<Step>)
    requires Run(cfg, now, steps).Some?
    ensures UncachedInv(cfg, Run(cfg, now, steps).value)
  {
    if steps != [] {
      hide After, Enabled, UncachedInv;
      NeverCachedWithoutTtl(cfg, now, steps[..|steps| - 1]);
      UncachedStep(cfg, Run(cfg, now, steps[..|steps| - 1]).value, steps[|steps| - 1]);
    }
  }

  /** MAIN: in every reachable state no outage is stored, only bars that ended before their caller's stable day never
      expire, and everything else expires within its TTL. */
  lemma EntriesExpire(cfg: Config, now: int, steps: seq<Step>, k: Key)
    requires Run(cfg, now, steps).Some? && k in Run(cfg, now, steps).value.entries
    ensures EntryInv(cfg, Run(cfg, now, steps).value, k, Run(cfg, now, steps).value.entries[k])
  {
    StoreRun(cfg, now, steps);
  }

  /** The key has an entry that has not expired. */
  ghost predicate StoredFresh(s: System, k: Key) {
    k in s.entries && (s.entries[k].expiresAt.None? || s.now <= s.entries[k].expiresAt.value)
  }

  /** Point data is not newer than the instant asked for. */
  ghost predicate NotNewer(r: Request, reply: Reply) {
    && (r.QuoteOf? && reply.Quoted? ==> reply.quote.asOf <= r.asOf)
    && (r.FundamentalsOf? && reply.Reported? ==> reply.fundamentals.asOf <= r.asOf)
  }

  /** MAIN: a leader asks the provider only while its key is not stored. A caller is answered from the cache exactly if
      its key is stored, not expired and not newer than its request, and a leader is spared the fetch exactly if its key
      is stored and not expired; nothing but its own phase changes then. */
  lemma AskedOnlyWhenMissing(cfg: Config, now: int, steps: seq<Step>, c: nat)
    requires Run(cfg, now, steps).Some? && c in Run(cfg, now, steps).value.callers
    ensures var s := Run(cfg, now, steps).value;
            var x, key := s.callers[c], CallerKey(s.callers[c], cfg);
            && (x.phase.Fetching? ==> key !in s.entries)
            && (x.phase.Start? ==>
                  var s' := After(cfg, s, Lookup(c));
                  if StoredFresh(s, key) && NotNewer(x.request, s.entries[key].reply)
                  then s' == s.(callers := s.callers[c := x.(phase := Returned(s.entries[key].reply))])
                  else s'.callers == s.callers[c := x.(phase := Missed)])
            && (x.phase.Leading? ==>
                  var s' := After(cfg, s, DoubleCheck(c));
                  if StoredFresh(s, key)
                  then s' == s.(callers := s.callers[c := x.(phase := Landing(x.phase.flight, s.entries[key].reply))])
                  else s'.callers == s.callers[c := x.(phase := Fetching(x.phase.flight))])
  {
    hide Run, EntriesInv, KeyOf;
    StoreRun(cfg, now, steps);
  }

  // ---------------------------------------------------------------- what callers get

  /** Two requests of the same kind and ticker whose instants fall into the same TTL bucket, or whose days agree. */
  ghost predicate SameBucket(cfg: Config, a: Request, b: Request) {
    match a
    case QuoteOf(t, i) => b.QuoteOf? && b.ticker == t && Bucket(b.asOf, cfg.quoteTTL) == Bucket(i, cfg.quoteTTL)
    case FundamentalsOf(t, i) =>
      b.FundamentalsOf? && b.ticker == t && Bucket(b.asOf, cfg.fundamentalsTTL) == Bucket(i, cfg.fundamentalsTTL)
    case BarsOf(t, f, l, _) =>
      b.BarsOf? && b.ticker == t && BarCache.DayOf(b.from) == BarCache.DayOf(f)
        && BarCache.DayOf(b.to) == BarCache.DayOf(l)
  }

  /** Requests of one bucket are less than the TTL apart. */
  lemma SameBucketIsClose(cfg: Config, a: Request, b: Request)
    requires SameBucket(cfg, a, b) && !a.BarsOf? && Ttl(cfg, a) > 0
    ensures -Ttl(cfg, a) < a.asOf - b.asOf < Ttl(cfg, a)
  {
    BucketBounds(a.asOf, Ttl(cfg, a));
    BucketBounds(b.asOf, Ttl(cfg, a));
  }

  lemma BucketBounds(t: int, ttl: int)
    requires ttl > 0
    ensures Bucket(t, ttl) <= t < Bucket(t, ttl) + ttl
  {}

  lemma SameKeySameBucket(cfg: Config, a: Request, b: Request)
    requires KeyOf(cfg, a) == KeyOf(cfg, b) && (a.BarsOf? || Ttl(cfg, a) >= SECOND)
    ensures SameBucket(cfg, a, b)
  {
    if !a.BarsOf? {
      KeysSeparateBucketsIff(Ttl(cfg, a));
    }
  }

  /** MAIN: in every interleaving a returned reply passes the caller's own lookahead guard, and is what the provider
      gave to a request of the same bucket, also when another caller fetched it. */
  lemma ReturnedFromBucket(cfg: Config, now: int, steps: seq<Step>, c: nat)
    requires Run(cfg, now, steps).Some?
    requires var s := Run(cfg, now, steps).value;
             && c in s.callers && s.callers[c].phase.Returned?
             && (s.callers[c].request.BarsOf? || Ttl(cfg, s.callers[c].request) >= SECOND)
    ensures var s := Run(cfg, now, steps).value;
            var x := s.callers[c];
            && (x.request.QuoteOf? && x.phase.reply.Quoted? ==> x.phase.reply.quote.asOf <= x.request.asOf)
            && (x.request.FundamentalsOf? && x.phase.reply.Reported? ==>
                  x.phase.reply.fundamentals.asOf <= x.request.asOf)
            && exists a :: a in s.log && SameBucket(cfg, x.request, a.request) && a.reply == x.phase.reply
                           && Permitted(cfg, a.request, a.reply)
  {
    RunInv(cfg, now, steps);
    var s := Run(cfg, now, steps).value;
    assert CallerInv(cfg, s, c);
    var x := s.callers[c];
    var a :| a in s.log && KeyOf(cfg, a.request) == CallerKey(x, cfg) && a.reply == x.phase.reply;
    assert Permitted(cfg, a.request, a.reply);
    hide Run, Inv, CallerInv, Bucket, Permitted;
    SameKeySameBucket(cfg, x.request, a.request);
  }

  /** MAIN: a bar range served from another caller's flight, or from any entry, is what a chain of honest vendors may
      say of the caller's own range, and honest unless it is a joined fault. */
  lemma RangeServedPlausibly(cfg: Config, now: int, steps: seq<Step>, c: nat)
    requires Run(cfg, now, steps).Some? && BarCache.Daily(cfg.market)
    requires var s := Run(cfg, now, steps).value;
             c in s.callers && s.callers[c].phase.Returned? && s.callers[c].request.BarsOf?
    ensures var x := Run(cfg, now, steps).value.callers[c];
            && (x.phase.reply.Listed? || x.phase.reply.Failed?)
            && var r := AsBars(x.phase.reply);
            && BarCache.Plausible(cfg.market, x.request.ticker, x.request.from, x.request.to, r)
            && (!BarCache.Joined(r) ==> BarCache.Honest(cfg.market, x.request.ticker, x.request.from, x.request.to, r))
  {
    RunInv(cfg, now, steps);
    var s := Run(cfg, now, steps).value;
    assert CallerInv(cfg, s, c);
    var x := s.callers[c];
    var a :| a in s.log && KeyOf(cfg, a.request) == CallerKey(x, cfg) && a.reply == x.phase.reply;
    assert Permitted(cfg, a.request, a.reply) && WellFormed(a.request) && WellFormed(x.request);
    hide Run, Inv, CallerInv;
    SameRange(cfg, a.request, x.request, a.reply);
  }

  lemma SameRange(cfg: Config, a: Request, b: Request, reply: Reply)
    requires BarCache.Daily(cfg.market) && KeyOf(cfg, a) == KeyOf(cfg, b) && b.BarsOf?
    requires WellFormed(a) && WellFormed(b) && Permitted(cfg, a, reply)
    ensures reply.Listed? || reply.Failed?
    ensures BarCache.Plausible(cfg.market, b.ticker, b.from, b.to, AsBars(reply))
    ensures a.BarsOf? && (BarCache.Honest(cfg.market, a.ticker, a.from, a.to, AsBars(reply))
                          <==> BarCache.Honest(cfg.market, b.ticker, b.from, b.to, AsBars(reply)))
  {
    BarCache.RangeDay(cfg.market(b.ticker), b.from, a.to, b.to);
  }

  /** Callers c and d have been served the past chunk and the recent stub of a spanning range. */
  ghost predicate SpanServed(s: System, c: nat, d: nat, ticker: string, from: int, to: int, stable: int) {
    && BarCache.StartOfDay(from) < stable <= to && BarCache.StartOfDay(stable) == stable
    && c in s.callers && s.callers[c].phase.Returned?
    && d in s.callers && s.callers[d].phase.Returned?
    && s.callers[c].request == BarsOf(ticker, BarCache.StartOfDay(from), stable - 1, stable)
    && s.callers[d].request == BarsOf(ticker, stable, to, stable)
  }

  /** MAIN: the two chunks of a spanning range, each served in any interleaving with any other callers, panics,
      expiries, evictions and clock readings in between, agree with the market; the answer is exact for every market
      that agrees with them exactly under the guard. */
  lemma SpanningRangeExactIff(cfg: Config, now: int, steps: seq<Step>, c: nat, d: nat, ticker: string, from: int,
                              to: int, stable: int)
    requires Run(cfg, now, steps).Some? && BarCache.Daily(cfg.market)
    requires SpanServed(Run(cfg, now, steps).value, c, d, ticker, from, to, stable)
    ensures var s := Run(cfg, now, steps).value;
            && (s.callers[c].phase.reply.Listed? || s.callers[c].phase.reply.Failed?)
            && (s.callers[d].phase.reply.Listed? || s.callers[d].phase.reply.Failed?)
            && var past, recent := AsBars(s.callers[c].phase.reply), AsBars(s.callers[d].phase.reply);
            && BarCache.Agrees(cfg.market, ticker, from, to, stable, past, recent)
            && (BarCache.AlwaysExact(ticker, from, to, stable, past, recent)
                <==> BarCache.Guarded(past, recent, from, stable))
  {
    RangeServedPlausibly(cfg, now, steps, c);
    RangeServedPlausibly(cfg, now, steps, d);
    hide Run;
    var s := Run(cfg, now, steps).value;
    BarCache.ChunksAgree(cfg.market, ticker, from, to, stable,
                         AsBars(s.callers[c].phase.reply), AsBars(s.callers[d].phase.reply));
  }

  /** Every range the provider has answered so far was answered honestly. */
  ghost predicate HonestSoFar(cfg: Config, log: seq<Answer>) {
    forall a :: a in log && a.request.BarsOf? && (a.reply.Listed? || a.reply.Failed?) ==>
      BarCache.Honest(cfg.market, a.request.ticker, a.request.from, a.request.to, AsBars(a.reply))
  }

  lemma ServedHonestly(cfg: Config, now: int, steps: seq<Step>, c: nat)
    requires Run(cfg, now, steps).Some? && BarCache.Daily(cfg.market)
    requires var s := Run(cfg, now, steps).value;
             && c in s.callers && s.callers[c].phase.Returned? && s.callers[c].request.BarsOf?
             && HonestSoFar(cfg, s.log)
    ensures var x := Run(cfg, now, steps).value.callers[c];
            && (x.phase.reply.Listed? || x.phase.reply.Failed?)
            && BarCache.Honest(cfg.market, x.request.ticker, x.request.from, x.request.to, AsBars(x.phase.reply))
  {
    RunInv(cfg, now, steps);
    var s := Run(cfg, now, steps).value;
    assert CallerInv(cfg, s, c);
    var x := s.callers[c];
    var a :| a in s.log && KeyOf(cfg, a.request) == CallerKey(x, cfg) && a.reply == x.phase.reply;
    assert Permitted(cfg, a.request, a.reply) && WellFormed(a.request) && WellFormed(x.request);
    hide Run, Inv, CallerInv;
    SameRange(cfg, a.request, x.request, a.reply);
  }

  /** With a provider that is honest outright the combined answer is always exact. */
  lemma SpanningRangeExact(cfg: Config, now: int, steps: seq<Step>, c: nat, d: nat, ticker: string, from: int, to: int,
                           stable: int)
    requires Run(cfg, now, steps).Some? && BarCache.Daily(cfg.market)
    requires SpanServed(Run(cfg, now, steps).value, c, d, ticker, from, to, stable)
    requires HonestSoFar(cfg, Run(cfg, now, steps).value.log)
    ensures var s := Run(cfg, now, steps).value;
            && (s.callers[c].phase.reply.Listed? || s.callers[c].phase.reply.Failed?)
            && (s.callers[d].phase.reply.Listed? || s.callers[d].phase.reply.Failed?)
            && BarCache.Exact(cfg.market, ticker, from, to,
                 BarCache.Restrict(BarCache.Combine(AsBars(s.callers[c].phase.reply), AsBars(s.callers[d].phase.reply)),
                   from, to))
  {
    ServedHonestly(cfg, now, steps, c);
    ServedHonestly(cfg, now, steps, d);
    hide Run;
    var s := Run(cfg, now, steps).value;
    BarCache.HonestChunksExact(cfg.market, ticker, from, to, stable,
                               AsBars(s.callers[c].phase.reply), AsBars(s.callers[d].phase.reply));
  }

  /** MAIN: at any moment at most one caller leads a flight for a key. */
  lemma SingleFlight(cfg: Config, now: int, steps: seq<Step>, c: nat, d: nat)
    requires Run(cfg, now, steps).Some?
    requires var s := Run(cfg, now, steps).value;
             && c in s.callers && HoldsFlight(s.callers[c].phase)
             && d in s.callers && HoldsFlight(s.callers[d].phase)
             && CallerKey(s.callers[c], cfg) == CallerKey(s.callers[d], cfg)
    ensures c == d
  {
    RunInv(cfg, now, steps);
    var s := Run(cfg, now, steps).value;
    hide Run, KeyOf, Given, WellFormed, Suits;
    assert CallerInv(cfg, s, c) && CallerInv(cfg, s, d);
    assert Carries(s, c, s.callers[c].phase.flight) && Carries(s, d, s.callers[d].phase.flight);
  }

  /** The next step of a carrier, given what the provider would reply. */
  function NextStep(s: System, c: nat, reply: Reply): Step
    requires c in s.callers
  {
    match s.callers[c].phase
    case Leading(_) => DoubleCheck(c)
    case Fetching(_) => Fetch(c, reply)
    case Fetched(_, _) => Store(c)
    case Landing(_, _) => Retire(c)
    case _ => Close(c)
  }

  /** Flight f is carried by exactly one caller, which can go on whatever permitted reply the provider gives. */
  ghost predicate Underway(cfg: Config, s: System, f: nat) {
    exists c :: Carries(s, c, f) && (forall d :: Carries(s, d, f) ==> d == c) && CanGoOn(cfg, s, c)
  }

  ghost predicate CanGoOn(cfg: Config, s: System, c: nat) {
    c in s.callers
    && forall reply :: Permitted(cfg, s.callers[c].request, reply) ==> Enabled(cfg, s, NextStep(s, c, reply))
  }

  /** The leader of flight f panicked in its fetch. */
  ghost predicate LeaderDied(s: System, f: nat) {
    exists c :: DiedLeading(s, c, f)
  }

  predicate DiedLeading(s: System, c: nat, f: nat) {
    c in s.callers && s.callers[c].phase == Dead(f)
  }

  lemma CarrierGoesOn(cfg: Config, s: System, c: nat, f: nat)
    requires c in s.callers && CallerInv(cfg, s, c) && Carries(s, c, f) && !DiedLeading(s, c, f)
    ensures CanGoOn(cfg, s, c)
  {
    hide KeyOf, Given, WellFormed, Suits, Permitted;
  }

  lemma DeadStops(cfg: Config, s: System, c: nat, f: nat)
    requires DiedLeading(s, c, f)
    ensures !CanGoOn(cfg, s, c)
  {
    var outage := Failed(BarCache.Fault(false, false, true));
    assert Permitted(cfg, s.callers[c].request, outage);
    assert !Enabled(cfg, s, NextStep(s, c, outage));
  }

  /** MAIN: a waiter is not orphaned, that is, its flight is done and it can wake, or the flight is underway, if and
      only if no leader of the flight panicked in its fetch. */
  lemma NoWaiterOrphanedIff(cfg: Config, now: int, steps: seq<Step>, w: nat)
    requires Run(cfg, now, steps).Some?
    requires var s := Run(cfg, now, steps).value; w in s.callers && s.callers[w].phase.Waiting?
    ensures var s := Run(cfg, now, steps).value;
            var f := s.callers[w].phase.flight;
            Enabled(cfg, s, Wake(w)) || Underway(cfg, s, f) <==> !LeaderDied(s, f)
  {
    RunInv(cfg, now, steps);
    var s := Run(cfg, now, steps).value;
    hide Run, KeyOf, Given, WellFormed, Suits, Permitted, CanGoOn;
    assert CallerInv(cfg, s, w);
    var f := s.callers[w].phase.flight;
    if c :| DiedLeading(s, c, f) {
      assert Carries(s, c, f);
      DeadStops(cfg, s, c, f);
    } else if s.flights[f].done.None? {
      var c :| Carries(s, c, f);
      CarrierGoesOn(cfg, s, c, f);
    }
  }

  lemma DeadStaysDead(cfg: Config, s: System, step: Step, c: nat, f: nat)
    requires Enabled(cfg, s, step) && DiedLeading(s, c, f)
    ensures DiedLeading(After(cfg, s, step), c, f) && After(cfg, s, step).callers[c] == s.callers[c]
  {
    hide KeyOf, Suits, Permitted, Expiry;
  }

  lemma {:induction false} DeadForever(cfg: Config, now: int, steps: seq<Step>, more: seq<Step>, c: nat, f: nat)
    requires Run(cfg, now, steps).Some? && Run(cfg, now, steps + more).Some?
    requires DiedLeading(Run(cfg, now, steps).value, c, f)
    ensures var s := Run(cfg, now, steps + more).value;
            DiedLeading(s, c, f) && s.callers[c] == Run(cfg, now, steps).value.callers[c]
  {
    if more == [] {
      assert steps + more == steps;
    } else {
      var k := |more| - 1;
      assert (steps + more)[..|steps + more| - 1] == steps + more[..k];
      DeadForever(cfg, now, steps, more[..k], c, f);
      DeadStaysDead(cfg, Run(cfg, now, steps + more[..k]).value, more[k], c, f);
    }
  }

  /** MAIN: after a leader died, its key is blocked for ever: the flight is never done, no waiter on it ever wakes, and
      whoever asks for the key and misses waits for it too. */
  lemma DeadLeaderBlocksKey(cfg: Config, now: int, steps: seq<Step>, more: seq<Step>, c: nat, f: nat)
    requires Run(cfg, now, steps).Some? && Run(cfg, now, steps + more).Some?
    requires DiedLeading(Run(cfg, now, steps).value, c, f)
    ensures var s := Run(cfg, now, steps + more).value;
            var key := CallerKey(Run(cfg, now, steps).value.callers[c], cfg);
            && f in s.flights && s.flights[f].done.None? && key in s.inflight && s.inflight[key] == f
            && (forall w :: w in s.callers && s.callers[w].phase == Waiting(f) ==> !Enabled(cfg, s, Wake(w)))
            && (forall w, g :: Enabled(cfg, s, Join(w, g)) && CallerKey(s.callers[w], cfg) == key ==>
                  After(cfg, s, Join(w, g)).callers[w].phase == Waiting(f))
  {
    DeadForever(cfg, now, steps, more, c, f);
    RunInv(cfg, now, steps + more);
    var s := Run(cfg, now, steps + more).value;
    assert CallerInv(cfg, s, c) && Carries(s, c, f);
  }

  lemma RunSnoc(cfg: Config, now: int, steps: seq<Step>, step: Step, s: System)
    requires Run(cfg, now, steps) == Some(s) && Enabled(cfg, s, step)
    ensures Run(cfg, now, steps + [step]) == Some(After(cfg, s, step))
  {
    assert (steps + [step])[..|steps|] == steps;
  }

  lemma RunFour(cfg: Config, now: int, steps: seq<Step>, a: Step, b: Step, c: Step, d: Step, s: System)
    requires Run(cfg, now, steps) == Some(s)
    requires Enabled(cfg, s, a) && Enabled(cfg, After(cfg, s, a), b)
    requires Enabled(cfg, After(cfg, After(cfg, s, a), b), c)
    requires Enabled(cfg, After(cfg, After(cfg, After(cfg, s, a), b), c), d)
    ensures Run(cfg, now, steps + [a, b, c, d]) == Some(After(cfg, After(cfg, After(cfg, After(cfg, s, a), b), c), d))
  {
    hide Run, After, Enabled;
    RunSnoc(cfg, now, steps, a, s);
    RunSnoc(cfg, now, steps + [a], b, After(cfg, s, a));
    RunSnoc(cfg, now, steps + [a] + [b], c, After(cfg, After(cfg, s, a), b));
    RunSnoc(cfg, now, steps + [a] + [b] + [c], d, After(cfg, After(cfg, After(cfg, s, a), b), c));
    assert steps + [a] + [b] + [c] + [d] == steps + [a, b, c, d];
  }

  /** A run in which caller 0 leads and panics, and caller 1 joins its flight. */
  lemma WaiterOrphaned(cfg: Config)
    requires cfg.quoteTTL > 0
    ensures var q := QuoteOf("T", 0);
            var r := Run(cfg, 0, [Call(0, q), Lookup(0), Join(0, 7), DoubleCheck(0)]
                                 + [FetchPanics(0), Call(1, q), Lookup(1), Join(1, 8)]);
            && r.Some? && 1 in r.value.callers && r.value.callers[1].phase == Waiting(7) && LeaderDied(r.value, 7)
  {
    var q := QuoteOf("T", 0);
    var s := LeaderFetching(cfg, q);
    LeaderPanics(cfg, q, s);
  }

  lemma LeaderFetching(cfg: Config, q: Request) returns (s: System)
    requires q.QuoteOf? && cfg.quoteTTL > 0
    ensures Run(cfg, 0, [Call(0, q), Lookup(0), Join(0, 7), DoubleCheck(0)]) == Some(s)
    ensures s.callers == map[0 := Caller(q, Fetching(7))] && s.entries == map[] && s.inflight == map[KeyOf(cfg, q) := 7]
    ensures 8 !in s.flights
  {
    var s0 := Empty(0);
    assert Run(cfg, 0, []) == Some(s0);
    hide KeyOf, Run;
    var s1 := After(cfg, s0, Call(0, q));
    var s2 := After(cfg, s1, Lookup(0));
    var s3 := After(cfg, s2, Join(0, 7));
    s := After(cfg, s3, DoubleCheck(0));
    RunFour(cfg, 0, [], Call(0, q), Lookup(0), Join(0, 7), DoubleCheck(0), s0);
    assert [] + [Call(0, q), Lookup(0), Join(0, 7), DoubleCheck(0)]
           == [Call(0, q), Lookup(0), Join(0, 7), DoubleCheck(0)];
  }

  lemma LeaderPanics(cfg: Config, q: Request, s: System)
    requires q.QuoteOf? && cfg.quoteTTL > 0
    requires Run(cfg, 0, [Call(0, q), Lookup(0), Join(0, 7), DoubleCheck(0)]) == Some(s)
    requires s.callers == map[0 := Caller(q, Fetching(7))] && s.entries == map[]
             && s.inflight == map[KeyOf(cfg, q) := 7]
    requires 8 !in s.flights
    ensures var r := Run(cfg, 0, [Call(0, q), Lookup(0), Join(0, 7), DoubleCheck(0)]
                                 + [FetchPanics(0), Call(1, q), Lookup(1), Join(1, 8)]);
            r.Some? && 1 in r.value.callers && r.value.callers[1].phase == Waiting(7) && LeaderDied(r.value, 7)
  {
    hide KeyOf, Run;
    var s1 := After(cfg, s, FetchPanics(0));
    var s2 := After(cfg, s1, Call(1, q));
    var s3 := After(cfg, s2, Lookup(1));
    assert s3.callers[1].phase == Missed && s3.flights == s.flights;
    var s4 := After(cfg, s3, Join(1, 8));
    RunFour(cfg, 0, [Call(0, q), Lookup(0), Join(0, 7), DoubleCheck(0)], FetchPanics(0), Call(1, q), Lookup(1),
      Join(1, 8), s);
    assert DiedLeading(s4, 0, 7);
  }
}
