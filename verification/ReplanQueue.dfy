/** The asynchronous replan queue: a per-plan FIFO drained by a worker pool.
    The critical sections are methods of `MemoryQueue`; the interleavings of any number of enqueuers
    and workers are the runs of the state machine below, whose steps use the same functions. */
module ReplanQueue {
  import opened Wrappers

  datatype Job = Job(planID: string, signalID: string, note: string)

  // ---------------------------------------------------------------- the mutex-guarded state

  datatype Core = Core(
    pending: map<string, seq<Job>>,
    queued: set<string>,
    seen: set<string>,
    seenFIFO: seq<string>,
    closed: bool)

  datatype Verdict = Closed | Duplicate | Accepted(push: bool)

  function Fifo(pending: map<string, seq<Job>>, plan: string): seq<Job> {
    if plan in pending then pending[plan] else []
  }

  /** Record a signal ID, evicting the oldest when over the cap. */
  function MarkSeen(c: Core, maxSeen: nat, id: string): Core {
    var fifo := c.seenFIFO + [id];
    if |fifo| > maxSeen then c.(seen := c.seen + {id} - {fifo[0]}, seenFIFO := fifo[1..])
    else c.(seen := c.seen + {id}, seenFIFO := fifo)
  }

  /** The last n of the IDs, or all when there are fewer. */
  ghost function Newest(ids: seq<string>, n: nat): seq<string> {
    if |ids| <= n then ids else ids[|ids| - n..]
  }

  function Judge(c: Core, job: Job): Verdict {
    if c.closed then Closed
    else if job.signalID in c.seen then Duplicate
    else Accepted(job.planID !in c.queued)
  }

  /** The locked part of Enqueue. */
  function Admit(c: Core, maxSeen: nat, job: Job): Core {
    if Judge(c, job).Accepted? then
      var m := MarkSeen(c, maxSeen, job.signalID);
      m.(pending := m.pending[job.planID := Fifo(m.pending, job.planID) + [job]], queued := m.queued + {job.planID})
    else c
  }

  /** The locked part of a worker's drain loop. */
  function NextJob(c: Core, plan: string): Option<Job> {
    if Fifo(c.pending, plan) == [] then None else Some(Fifo(c.pending, plan)[0])
  }

  function Drain(c: Core, plan: string): Core {
    var fifo := Fifo(c.pending, plan);
    if fifo == [] then c.(pending := c.pending - {plan}, queued := c.queued - {plan})
    else c.(pending := c.pending[plan := fifo[1..]])
  }

  class MemoryQueue {
    const maxSeen: nat
    var pending: map<string, seq<Job>>
    var queued: map<string, bool>
    var seen: map<string, bool>
    var seenFIFO: seq<string>
    var closed: bool

    ghost function Abstract(): Core
      reads this
    {
      Core(pending, (set p | p in queued && queued[p]), (set id | id in seen && seen[id]), seenFIFO, closed)
    }

    /** The window holds at most maxSeen distinct IDs, and the map marks exactly those. */
    ghost predicate Valid()
      reads this
    {
      Distinct(seenFIFO) && Abstract().seen == Elements(seenFIFO) && |seenFIFO| <= maxSeen
    }

    constructor (maxSeen: nat)
      ensures Valid() && Abstract() == Core(map[], {}, {}, [], false) && this.maxSeen == maxSeen
    {
      this.maxSeen := maxSeen;
      pending, queued, seen, seenFIFO, closed := map[], map[], map[], [], false;
    }

    method RecordSeen(signalID: string)
      modifies this`seen, this`seenFIFO
      ensures Abstract() == MarkSeen(old(Abstract()), maxSeen, signalID)
      ensures old(Valid()) && signalID !in old(seenFIFO) ==> Valid()
    {
      hide Distinct, Elements;
      ghost var c := Abstract();
      seen := seen[signalID := true];
      seenFIFO := seenFIFO + [signalID];
      if |seenFIFO| > maxSeen {
        var oldest := seenFIFO[0];
        seenFIFO := seenFIFO[1..];
        seen := seen - {oldest};
      }
      if Distinct(c.seenFIFO) && c.seen == Elements(c.seenFIFO) && signalID !in c.seenFIFO {
        MarkSeenKeepsSet(c, maxSeen, signalID);
      }
    }

    /** Enqueue up to the unlock; the caller sends the plan ID on the channel when `push` is returned. */
    method EnqueueLocked(job: Job) returns (v: Verdict)
      requires Valid()
      modifies this
      ensures Valid() && closed == old(closed)
      ensures v == Closed <==> old(closed)
      ensures v == Duplicate <==> !old(closed) && job.signalID in old(seenFIFO)
      ensures v.Accepted? ==> (v.push <==> !(job.planID in old(queued) && old(queued)[job.planID]))
      ensures v.Accepted? ==>
                && pending == old(pending)[job.planID := Fifo(old(pending), job.planID) + [job]]
                && (job.planID in queued && queued[job.planID])
                && seenFIFO == Newest(old(seenFIFO) + [job.signalID], maxSeen)
      ensures !v.Accepted? ==> Abstract() == old(Abstract())
      ensures v == Judge(old(Abstract()), job)
      ensures Abstract() == Admit(old(Abstract()), maxSeen, job)
    {
      NotInElements(seenFIFO, job.signalID);
      assert job.signalID in Abstract().seen <==> job.signalID in seenFIFO;
      hide Elements, Distinct;
      if closed {
        return Closed;
      }
      if job.signalID in seen && seen[job.signalID] {
        return Duplicate;
      }
      RecordSeen(job.signalID);
      pending := pending[job.planID := (if job.planID in pending then pending[job.planID] else []) + [job]];
      var push := !(job.planID in queued && queued[job.planID]);
      if push {
        queued := queued[job.planID := true];
      }
      return Accepted(push);
    }

    /** One pass of the drain loop up to the unlock: the next job, or none and the plan is released. */
    method DrainLocked(planID: string) returns (job: Option<Job>)
      requires Valid()
      modifies this
      ensures Valid()
      ensures job == NextJob(old(Abstract()), planID)
      ensures Abstract() == Drain(old(Abstract()), planID)
    {
      var fifo := if planID in pending then pending[planID] else [];
      if |fifo| == 0 {
        pending := pending - {planID};
        queued := queued[planID := false];
        return None;
      }
      pending := pending[planID := fifo[1..]];
      return Some(fifo[0]);
    }

    /** Shutdown up to the unlock; the caller closes the channel when `first` is returned. */
    method CloseLocked() returns (first: bool)
      requires Valid()
      modifies this
      ensures Valid()
      ensures first == !old(closed)
      ensures Abstract() == old(Abstract()).(closed := true)
    {
      first := !closed;
      closed := true;
    }
  }

  // ---------------------------------------------------------------- interleavings

  datatype Config = Config(maxSeen: nat, buffer: nat, workers: set<nat>)

  datatype Worker = Idle | Draining(plan: string) | Running(plan: string, job: Job) | Exited

  /** How the handler ended; a panic is recovered, so the worker goes on in every case. */
  datatype Ending = Success | Failure | Panic

  /** What an enqueue was told, and how many jobs had been accepted before it. */
  datatype Answer = Answer(job: Job, verdict: Verdict, before: nat)

  /** `unsent`: enqueuers between the unlock and the channel send. `lost`: enqueuers whose send met a closed channel.
      History: `accepted` and `handed` jobs in order, the answers given, and the plans of the sends outstanding when the
      channel was closed. */
  datatype System = System(
    core: Core,
    channel: seq<string>,
    channelClosed: bool,
    unsent: map<nat, string>,
    lost: map<nat, string>,
    workers: map<nat, Worker>,
    accepted: seq<Job>,
    handed: seq<Job>,
    answers: seq<Answer>,
    stranded: set<string>)

  datatype Step =
    | Enqueue(e: nat, job: Job)
    | Send(e: nat)
    | SendPanics(e: nat)
    | MarkClosed
    | CloseChannel
    | Receive(w: nat)
    | Take(w: nat)
    | Release(w: nat)
    | Return(w: nat, ending: Ending)
    | Exit(w: nat)

  function Initial(cfg: Config): System {
    System(Core(map[], {}, {}, [], false), [], false, map[], map[], map w | w in cfg.workers :: Idle, [], [], [], {})
  }

  predicate Enabled(cfg: Config, s: System, step: Step) {
    match step
    case Enqueue(e, job) => e !in s.unsent && e !in s.lost
    case Send(e) => e in s.unsent && !s.channelClosed && |s.channel| < cfg.buffer
    case SendPanics(e) => e in s.unsent && s.channelClosed
    case MarkClosed => !s.core.closed
    case CloseChannel => s.core.closed && !s.channelClosed
    case Receive(w) => w in s.workers && s.workers[w] == Idle && s.channel != []
    case Take(w) => w in s.workers && s.workers[w].Draining? && NextJob(s.core, s.workers[w].plan).Some?
    case Release(w) => w in s.workers && s.workers[w].Draining? && NextJob(s.core, s.workers[w].plan).None?
    case Return(w, ending) => w in s.workers && s.workers[w].Running?
    case Exit(w) => w in s.workers && s.workers[w] == Idle && s.channelClosed && s.channel == []
  }

  function After(cfg: Config, s: System, step: Step): System
    requires Enabled(cfg, s, step)
  {
    match step
    case Enqueue(e, job) =>
      var v := Judge(s.core, job);
      var told := s.(answers := s.answers + [Answer(job, v, |s.accepted|)]);
      if v.Accepted? then
        told.(core := Admit(s.core, cfg.maxSeen, job),
              accepted := s.accepted + [job],
              unsent := if v.push then s.unsent[e := job.planID] else s.unsent)
      else told
    case Send(e) => s.(channel := s.channel + [s.unsent[e]], unsent := s.unsent - {e})
    case SendPanics(e) => s.(lost := s.lost[e := s.unsent[e]], unsent := s.unsent - {e})
    case MarkClosed => s.(core := s.core.(closed := true))
    case CloseChannel => s.(channelClosed := true, stranded := s.unsent.Values)
    case Receive(w) => s.(channel := s.channel[1..], workers := s.workers[w := Draining(s.channel[0])])
    case Take(w) =>
      var p := s.workers[w].plan;
      var job := NextJob(s.core, p).value;
      s.(core := Drain(s.core, p), workers := s.workers[w := Running(p, job)], handed := s.handed + [job])
    case Release(w) => s.(core := Drain(s.core, s.workers[w].plan), workers := s.workers[w := Idle])
    case Return(w, ending) => s.(workers := s.workers[w := Draining(s.workers[w].plan)])
    case Exit(w) => s.(workers := s.workers[w := Exited])
  }

  /** The state after a run, or none when some step is not enabled. */
  function Run(cfg: Config, steps: seq<Step>): Option<System> {
    if steps == [] then Some(Initial(cfg))
    else
      var r := Run(cfg, steps[..|steps| - 1]);
      var step := steps[|steps| - 1];
      if r.Some? && Enabled(cfg, r.value, step) then Some(After(cfg, r.value, step)) else None
  }

  // ---------------------------------------------------------------- tokens

  /** Where the single token of a queued plan can be. */
  datatype Holder = AtEnqueuer(e: nat) | InChannel(i: nat) | AtWorker(w: nat) | Lost(e: nat)

  ghost predicate Holds(s: System, h: Holder, p: string) {
    match h
    case AtEnqueuer(e) => e in s.unsent && s.unsent[e] == p
    case InChannel(i) => i < |s.channel| && s.channel[i] == p
    case AtWorker(w) => w in s.workers && (s.workers[w].Draining? || s.workers[w].Running?) && s.workers[w].plan == p
    case Lost(e) => e in s.lost && s.lost[e] == p
  }

  /** A plan is queued exactly when its token is somewhere, and it is never in two places. */
  ghost predicate TokenInv(s: System) {
    && (forall h, p :: Holds(s, h, p) ==> p in s.core.queued)
    && (forall p :: p in s.core.queued ==> exists h :: Holds(s, h, p))
    && (forall h, h', p :: Holds(s, h, p) && Holds(s, h', p) ==> h == h')
  }

  /** Pending jobs belong to queued plans; a token not yet at a worker announces work. */
  ghost predicate PendingInv(s: System) {
    && (forall p :: Fifo(s.core.pending, p) != [] ==> p in s.core.queued)
    && (forall h, p :: Holds(s, h, p) && !h.AtWorker? ==> Fifo(s.core.pending, p) != [])
    && (forall p, job :: job in Fifo(s.core.pending, p) ==> job.planID == p)
  }

  /** The first job of an idle plan creates its token at the enqueuer. */
  lemma TokenAppears(s: System, s': System, e: nat, p: string)
    requires TokenInv(s) && p !in s.core.queued && s'.core.queued == s.core.queued + {p}
    requires e !in s.unsent
    requires s' == s.(core := s'.core, accepted := s'.accepted, answers := s'.answers, unsent := s.unsent[e := p])
    ensures TokenInv(s')
  {
    assert forall h, q :: Holds(s', h, q) <==> Holds(s, h, q) || (h == AtEnqueuer(e) && q == p);
    forall q | q in s'.core.queued ensures exists h :: Holds(s', h, q) {
      if q == p {
        assert Holds(s', AtEnqueuer(e), q);
      } else {
        var h :| Holds(s, h, q);
        assert Holds(s', h, q);
      }
    }
  }

  lemma PendingEnqueue(cfg: Config, s: System, e: nat, job: Job)
    requires PendingInv(s) && Enabled(cfg, s, Enqueue(e, job)) && Judge(s.core, job).Accepted?
    ensures PendingInv(After(cfg, s, Enqueue(e, job)))
  {
    var s', p := After(cfg, s, Enqueue(e, job)), job.planID;
    assert forall q ::
        Fifo(s'.core.pending, q)
        == if q == p then Fifo(s.core.pending, p) + [job] else Fifo(s.core.pending, q);
    forall h, q | Holds(s', h, q) && !h.AtWorker? ensures Fifo(s'.core.pending, q) != [] {
      if q != p { assert Holds(s, h, q); }
    }
  }

  lemma TokenEnqueue(cfg: Config, s: System, e: nat, job: Job)
    requires TokenInv(s) && PendingInv(s) && Enabled(cfg, s, Enqueue(e, job))
    ensures TokenInv(After(cfg, s, Enqueue(e, job))) && PendingInv(After(cfg, s, Enqueue(e, job)))
  {
    hide PendingInv, Fifo;
    var s' := After(cfg, s, Enqueue(e, job));
    if Judge(s.core, job).Accepted? {
      PendingEnqueue(cfg, s, e, job);
      if Judge(s.core, job).push {
        TokenAppears(s, s', e, job.planID);
      } else {
        assert s'.core.queued == s.core.queued;
        TokensSame(s, s');
      }
    } else {
      TokensSame(s, s');
      PendingSame(s, s');
    }
  }

  lemma PendingSame(s: System, s': System)
    requires PendingInv(s) && s'.core == s.core
    requires forall h, p :: Holds(s', h, p) <==> Holds(s, h, p)
    ensures PendingInv(s')
  {}

  lemma TokensSame(s: System, s': System)
    requires TokenInv(s) && s'.core.queued == s.core.queued
    requires forall h, p :: Holds(s', h, p) <==> Holds(s, h, p)
    ensures TokenInv(s')
  {}

  /** A step that moves the token of plan q from one place to another, and shifts channel places by `shift`. */
  lemma TokenMove(s: System, s': System, from: Holder, to: Holder, q: string, shift: nat)
    requires TokenInv(s) && PendingInv(s) && s'.core == s.core
    requires Holds(s, from, q) && Holds(s', to, q)
    requires to.AtWorker? || !from.AtWorker?
    requires forall h, p :: Holds(s', h, p) ==> h == to || (Holds(s, Shifted(h, shift), p) && Shifted(h, shift) != from)
    requires forall h, p :: Holds(s, h, p) && h != from ==> exists h' :: Holds(s', h', p)
    requires forall p :: Holds(s', to, p) ==> p == q
    ensures TokenInv(s') && PendingInv(s')
  {
    forall p | p in s'.core.queued ensures exists h :: Holds(s', h, p) {
      var h :| Holds(s, h, p);
      if h == from {
        assert Holds(s', to, q);
      }
    }
    forall h, h', p | Holds(s', h, p) && Holds(s', h', p) ensures h == h' {
      if h != to && h' != to {
        assert Shifted(h, shift) == Shifted(h', shift);
      }
    }
  }

  ghost function Shifted(h: Holder, shift: nat): Holder {
    if h.InChannel? then InChannel(h.i + shift) else h
  }

  lemma TokenSend(cfg: Config, s: System, e: nat)
    requires TokenInv(s) && PendingInv(s) && Enabled(cfg, s, Send(e))
    ensures TokenInv(After(cfg, s, Send(e))) && PendingInv(After(cfg, s, Send(e)))
  {
    var s' := After(cfg, s, Send(e));
    forall h, p | Holds(s, h, p) && h != AtEnqueuer(e) ensures exists h' :: Holds(s', h', p) {
      assert Holds(s', h, p);
    }
    TokenMove(s, s', AtEnqueuer(e), InChannel(|s.channel|), s.unsent[e], 0);
  }

  lemma TokenSendPanics(cfg: Config, s: System, e: nat)
    requires TokenInv(s) && PendingInv(s) && Enabled(cfg, s, SendPanics(e)) && e !in s.lost
    ensures TokenInv(After(cfg, s, SendPanics(e))) && PendingInv(After(cfg, s, SendPanics(e)))
  {
    var s' := After(cfg, s, SendPanics(e));
    forall h, p | Holds(s, h, p) && h != AtEnqueuer(e) ensures exists h' :: Holds(s', h', p) {
      assert Holds(s', h, p);
    }
    TokenMove(s, s', AtEnqueuer(e), Lost(e), s.unsent[e], 0);
  }

  lemma TokenReceive(cfg: Config, s: System, w: nat)
    requires TokenInv(s) && PendingInv(s) && Enabled(cfg, s, Receive(w))
    ensures TokenInv(After(cfg, s, Receive(w))) && PendingInv(After(cfg, s, Receive(w)))
  {
    var s' := After(cfg, s, Receive(w));
    forall h, p | Holds(s, h, p) && h != InChannel(0) ensures exists h' :: Holds(s', h', p) {
      assert Holds(s', if h.InChannel? then InChannel(h.i - 1) else h, p);
    }
    TokenMove(s, s', InChannel(0), AtWorker(w), s.channel[0], 1);
  }

  /** Handing over the next job keeps the token at the worker. */
  lemma TokenTake(cfg: Config, s: System, w: nat)
    requires TokenInv(s) && PendingInv(s) && Enabled(cfg, s, Take(w))
    ensures TokenInv(After(cfg, s, Take(w))) && PendingInv(After(cfg, s, Take(w)))
  {
    var s', q := After(cfg, s, Take(w)), s.workers[w].plan;
    assert forall h, p :: Holds(s', h, p) <==> Holds(s, h, p);
    assert Holds(s, AtWorker(w), q);
    assert forall p ::
        Fifo(s'.core.pending, p)
        == if p == q then Fifo(s.core.pending, q)[1..] else Fifo(s.core.pending, p);
    forall h, p | Holds(s', h, p) && !h.AtWorker? ensures Fifo(s'.core.pending, p) != [] {
      assert Holds(s, h, p);
    }
  }

  /** The other steps leave every token where it is. */
  lemma TokenKept(cfg: Config, s: System, step: Step)
    requires TokenInv(s) && PendingInv(s) && Enabled(cfg, s, step)
    requires step.Return? || step.Exit? || step.MarkClosed? || step.CloseChannel?
    ensures TokenInv(After(cfg, s, step)) && PendingInv(After(cfg, s, step))
  {
    var s' := After(cfg, s, step);
    assert forall h, p :: Holds(s', h, p) <==> Holds(s, h, p);
    assert s'.core.pending == s.core.pending && s'.core.queued == s.core.queued;
  }

  lemma TokenRelease(cfg: Config, s: System, w: nat)
    requires TokenInv(s) && PendingInv(s) && Enabled(cfg, s, Release(w))
    ensures TokenInv(After(cfg, s, Release(w))) && PendingInv(After(cfg, s, Release(w)))
  {
    var s', q := After(cfg, s, Release(w)), s.workers[w].plan;
    assert Holds(s, AtWorker(w), q);
    assert forall h, p :: Holds(s', h, p) <==> Holds(s, h, p) && h != AtWorker(w);
    forall p | p in s'.core.queued ensures exists h :: Holds(s', h, p) {
      var h :| Holds(s, h, p);
      assert Holds(s', h, p);
    }
    forall p, job | job in Fifo(s'.core.pending, p) ensures job.planID == p {
      assert job in Fifo(s.core.pending, p);
    }
  }

  // ---------------------------------------------------------------- history

  ghost function ForPlan(jobs: seq<Job>, p: string): seq<Job> {
    if jobs == [] then []
    else
      var last := jobs[|jobs| - 1];
      ForPlan(jobs[..|jobs| - 1], p) + (if last.planID == p then [last] else [])
  }

  /** Per plan, the jobs handed to the handler followed by the pending ones are the accepted ones, in
      acceptance order. */
  ghost predicate HistoryInv(s: System) {
    forall p :: ForPlan(s.handed, p) + Fifo(s.core.pending, p) == ForPlan(s.accepted, p)
  }

  lemma ForPlanSnoc(jobs: seq<Job>, job: Job, p: string)
    ensures ForPlan(jobs + [job], p) == if job.planID == p then ForPlan(jobs, p) + [job] else ForPlan(jobs, p)
  {
    assert (jobs + [job])[..|jobs|] == jobs;
  }

  lemma MoveHead(before: seq<Job>, fifo: seq<Job>)
    requires fifo != []
    ensures (before + [fifo[0]]) + fifo[1..] == before + fifo
  {}

  lemma HistoryTake(cfg: Config, s: System, w: nat)
    requires HistoryInv(s) && PendingInv(s) && Enabled(cfg, s, Take(w))
    ensures HistoryInv(After(cfg, s, Take(w)))
  {
    var s', q := After(cfg, s, Take(w)), s.workers[w].plan;
    var fifo := Fifo(s.core.pending, q);
    assert fifo[0] in fifo;
    assert forall p :: Fifo(s'.core.pending, p) == if p == q then fifo[1..] else Fifo(s.core.pending, p);
    hide ForPlan, PendingInv, Fifo;
    forall p ensures ForPlan(s'.handed, p) + Fifo(s'.core.pending, p) == ForPlan(s'.accepted, p) {
      assert ForPlan(s.handed, p) + Fifo(s.core.pending, p) == ForPlan(s.accepted, p);
      ForPlanSnoc(s.handed, fifo[0], p);
      MoveHead(ForPlan(s.handed, q), fifo);
    }
  }

  lemma AdmitAppends(c: Core, maxSeen: nat, job: Job, p: string)
    requires Judge(c, job).Accepted?
    ensures Fifo(Admit(c, maxSeen, job).pending, p) == Fifo(c.pending, p) + if p == job.planID then [job] else []
  {}

  lemma HistoryAccept(cfg: Config, s: System, e: nat, job: Job)
    requires HistoryInv(s) && Enabled(cfg, s, Enqueue(e, job)) && Judge(s.core, job).Accepted?
    ensures HistoryInv(After(cfg, s, Enqueue(e, job)))
  {
    hide ForPlan, Fifo, Admit, Judge;
    var s' := After(cfg, s, Enqueue(e, job));
    forall p ensures ForPlan(s'.handed, p) + Fifo(s'.core.pending, p) == ForPlan(s'.accepted, p) {
      assert ForPlan(s.handed, p) + Fifo(s.core.pending, p) == ForPlan(s.accepted, p);
      ForPlanSnoc(s.accepted, job, p);
      AdmitAppends(s.core, cfg.maxSeen, job, p);
      var last := if p == job.planID then [job] else [];
      assert ForPlan(s.handed, p) + (Fifo(s.core.pending, p) + last)
          == (ForPlan(s.handed, p) + Fifo(s.core.pending, p)) + last;
    }
  }

  lemma HistorySame(s: System, s': System)
    requires HistoryInv(s) && s'.handed == s.handed && s'.accepted == s.accepted
    requires forall p :: Fifo(s'.core.pending, p) == Fifo(s.core.pending, p)
    ensures HistoryInv(s')
  {
    forall p ensures ForPlan(s'.handed, p) + Fifo(s'.core.pending, p) == ForPlan(s'.accepted, p) {
      assert ForPlan(s.handed, p) + Fifo(s.core.pending, p) == ForPlan(s.accepted, p);
    }
  }

  lemma HistoryStep(cfg: Config, s: System, step: Step)
    requires HistoryInv(s) && PendingInv(s) && Enabled(cfg, s, step)
    ensures HistoryInv(After(cfg, s, step))
  {
    hide HistoryInv, PendingInv;
    if step.Take? {
      HistoryTake(cfg, s, step.w);
    } else if step.Enqueue? && Judge(s.core, step.job).Accepted? {
      HistoryAccept(cfg, s, step.e, step.job);
    } else {
      HistorySame(s, After(cfg, s, step));
    }
  }

  // ---------------------------------------------------------------- the idempotency window

  function Min(a: int, b: int): int { if a < b then a else b }

  function SignalIDs(jobs: seq<Job>): seq<string> {
    seq(|jobs|, i requires 0 <= i < |jobs| => jobs[i].signalID)
  }

  /** The signal IDs of the last min(k, n) of k jobs. */
  function LastIDs(jobs: seq<Job>, n: nat): seq<string> {
    SignalIDs(jobs)[|jobs| - Min(|jobs|, n)..]
  }

  function Elements(ids: seq<string>): set<string> {
    set id | id in ids
  }

  ghost predicate Distinct(ids: seq<string>) {
    forall i, j :: 0 <= i < j < |ids| ==> ids[i] != ids[j]
  }

  /** The seen set is exactly the last min(k, maxSeen) accepted signal IDs, all distinct. */
  ghost predicate SeenInv(cfg: Config, s: System) {
    && s.core.seenFIFO == LastIDs(s.accepted, cfg.maxSeen)
    && Distinct(s.core.seenFIFO)
    && s.core.seen == Elements(s.core.seenFIFO)
    && ResubmissionsFarApart(cfg, s.accepted)
  }

  /** Between two acceptances of the same signal ID at least maxSeen other jobs were accepted. */
  ghost predicate ResubmissionsFarApart(cfg: Config, accepted: seq<Job>) {
    forall i, j :: 0 <= i < j < |accepted| && accepted[i].signalID == accepted[j].signalID ==> j - i > cfg.maxSeen
  }

  /** The window after one more acceptance. */
  lemma WindowSlides(jobs: seq<Job>, job: Job, n: nat)
    ensures var w := LastIDs(jobs, n) + [job.signalID];
            LastIDs(jobs + [job], n) == if |w| > n then w[1..] else w
  {
    assert SignalIDs(jobs + [job]) == SignalIDs(jobs) + [job.signalID];
  }

  lemma MarkSeenKeepsSet(c: Core, n: nat, id: string)
    requires Distinct(c.seenFIFO) && c.seen == Elements(c.seenFIFO) && id !in c.seenFIFO
    ensures var c' := MarkSeen(c, n, id); Distinct(c'.seenFIFO) && c'.seen == Elements(c'.seenFIFO)
  {
    var c', all := MarkSeen(c, n, id), c.seenFIFO + [id];
    assert Distinct(all);
    assert forall x :: x in all <==> x in c.seenFIFO || x == id;
    if |all| > n {
      forall x ensures x in all[1..] <==> x in all && x != all[0] {
        if x in all && x != all[0] {
          var k :| 0 <= k < |all| && all[k] == x;
          assert all[1..][k - 1] == x;
        }
      }
    }
    assert forall x :: x in c'.seen <==> x in Elements(c'.seenFIFO);
  }

  lemma NotInElements(ids: seq<string>, id: string)
    ensures id in Elements(ids) <==> id in ids
  {}

  lemma FreshIsFar(accepted: seq<Job>, job: Job, cfg: Config)
    requires ResubmissionsFarApart(cfg, accepted) && job.signalID !in LastIDs(accepted, cfg.maxSeen)
    ensures ResubmissionsFarApart(cfg, accepted + [job])
  {
    var n, m := |accepted|, cfg.maxSeen;
    var from := n - Min(n, m);
    forall i | from <= i < n ensures accepted[i].signalID != job.signalID {
      assert LastIDs(accepted, m)[i - from] == SignalIDs(accepted)[i];
    }
  }

  lemma SeenStep(cfg: Config, s: System, step: Step)
    requires SeenInv(cfg, s) && Enabled(cfg, s, step)
    ensures SeenInv(cfg, After(cfg, s, step))
  {
    hide Distinct, ResubmissionsFarApart, LastIDs, Elements;
    if step.Enqueue? && Judge(s.core, step.job).Accepted? {
      var id := step.job.signalID;
      NotInElements(s.core.seenFIFO, id);
      WindowSlides(s.accepted, step.job, cfg.maxSeen);
      MarkSeenKeepsSet(s.core, cfg.maxSeen, id);
      FreshIsFar(s.accepted, step.job, cfg);
    }
  }

  // ---------------------------------------------------------------- shutdown

  /** Once the channel is closed, the outstanding sends can only fail, and exited workers leave an empty channel. */
  ghost predicate ShutdownInv(s: System) {
    && (s.channelClosed ==> s.core.closed)
    && (!s.channelClosed ==> s.lost == map[])
    && (s.channelClosed ==> s.unsent.Values + s.lost.Values == s.stranded)
    && (forall w :: w in s.workers && s.workers[w] == Exited ==> s.channelClosed && s.channel == [])
    && s.unsent.Keys !! s.lost.Keys
  }

  lemma ShutdownStep(cfg: Config, s: System, step: Step)
    requires ShutdownInv(s) && Enabled(cfg, s, step)
    ensures ShutdownInv(After(cfg, s, step))
  {
    var s' := After(cfg, s, step);
    if step.SendPanics? {
      var e := step.e;
      assert s.unsent.Values == s'.unsent.Values + {s.unsent[e]} by {
        forall v | v in s.unsent.Values ensures v in s'.unsent.Values + {s.unsent[e]} {
          var k :| k in s.unsent && s.unsent[k] == v;
          assert k != e ==> k in s'.unsent && s'.unsent[k] == v;
        }
      }
      assert s'.lost.Values == s.lost.Values + {s.unsent[e]} by {
        forall v | v in s.lost.Values + {s.unsent[e]} ensures v in s'.lost.Values {
          if v in s.lost.Values {
            var k :| k in s.lost && s.lost[k] == v;
            assert k in s'.lost && s'.lost[k] == v;
          } else {
            assert e in s'.lost;
          }
        }
      }
    }
  }

  // ---------------------------------------------------------------- every run

  ghost predicate Inv(cfg: Config, s: System) {
    && TokenInv(s) && PendingInv(s) && HistoryInv(s) && SeenInv(cfg, s) && ShutdownInv(s)
    && s.workers.Keys == cfg.workers
  }

  lemma InitialWindow(cfg: Config)
    ensures SeenInv(cfg, Initial(cfg))
  {
    assert SignalIDs([]) == [];
  }

  lemma InitialHistory(cfg: Config)
    ensures HistoryInv(Initial(cfg))
  {}

  lemma InitialInv(cfg: Config)
    ensures Inv(cfg, Initial(cfg))
  {
    var s := Initial(cfg);
    assert forall h, p :: !Holds(s, h, p);
    assert s.unsent.Keys == {} && s.lost.Keys == {} && s.workers.Keys == cfg.workers;
    hide Holds, LastIDs, Distinct, Elements, ForPlan;
    InitialWindow(cfg);
    InitialHistory(cfg);
  }

  lemma StepInv(cfg: Config, s: System, step: Step)
    requires Inv(cfg, s) && Enabled(cfg, s, step)
    ensures Inv(cfg, After(cfg, s, step))
  {
    hide TokenInv, PendingInv, HistoryInv, SeenInv;
    HistoryStep(cfg, s, step);
    SeenStep(cfg, s, step);
    ShutdownStep(cfg, s, step);
    match step
    case Enqueue(e, job) => TokenEnqueue(cfg, s, e, job);
    case Send(e) => TokenSend(cfg, s, e);
    case SendPanics(e) => TokenSendPanics(cfg, s, e);
    case Receive(w) => TokenReceive(cfg, s, w);
    case Take(w) => TokenTake(cfg, s, w);
    case Release(w) => TokenRelease(cfg, s, w);
    case _ => TokenKept(cfg, s, step);
  }

  lemma {:induction false} RunInv(cfg: Config, steps: seq<Step>)
    requires Run(cfg, steps).Some?
    ensures Inv(cfg, Run(cfg, steps).value)
  {
    if steps == [] {
      InitialInv(cfg);
    } else {
      RunInv(cfg, steps[..|steps| - 1]);
      StepInv(cfg, Run(cfg, steps[..|steps| - 1]).value, steps[|steps| - 1]);
    }
  }

  /** MAIN: in every interleaving a queued plan has exactly one token, so at most one worker processes it,
      and its jobs reach the handler in acceptance order. */
  lemma SerialisedPerPlan(cfg: Config, steps: seq<Step>, v: nat, w: nat, p: string)
    requires Run(cfg, steps).Some?
    ensures var s := Run(cfg, steps).value;
            && (p in s.core.queued <==> exists h :: Holds(s, h, p))
            && (forall h, h' :: Holds(s, h, p) && Holds(s, h', p) ==> h == h')
            && (Holds(s, AtWorker(v), p) && Holds(s, AtWorker(w), p) ==> v == w)
            && ForPlan(s.handed, p) + Fifo(s.core.pending, p) == ForPlan(s.accepted, p)
  {
    RunInv(cfg, steps);
  }

  /** MAIN: the seen set is the last min(k, maxSeen) accepted signal IDs, and an ID is accepted again only after at
      least maxSeen others were accepted in between. */
  lemma IdempotencyWindow(cfg: Config, steps: seq<Step>)
    requires Run(cfg, steps).Some?
    ensures var s := Run(cfg, steps).value;
            && s.core.seen == Elements(LastIDs(s.accepted, cfg.maxSeen))
            && ResubmissionsFarApart(cfg, s.accepted)
  {
    RunInv(cfg, steps);
  }

  // ---------------------------------------------------------------- what enqueuers are told

  ghost function AcceptedJobs(answers: seq<Answer>): seq<Job> {
    if answers == [] then []
    else
      var a := answers[|answers| - 1];
      AcceptedJobs(answers[..|answers| - 1]) + (if a.verdict.Accepted? then [a.job] else [])
  }

  /** A job told to be a duplicate shares its ID with one of the maxSeen jobs accepted last before it. */
  ghost predicate AnswerFits(cfg: Config, accepted: seq<Job>, a: Answer) {
    && a.before <= |accepted|
    && (a.verdict.Accepted? ==> a.before < |accepted| && accepted[a.before] == a.job)
    && (a.verdict.Duplicate? ==>
          exists k :: a.before - cfg.maxSeen <= k < a.before && 0 <= k && accepted[k].signalID == a.job.signalID)
  }

  ghost predicate AnswersInv(cfg: Config, s: System) {
    && AcceptedJobs(s.answers) == s.accepted
    && forall i :: 0 <= i < |s.answers| ==> AnswerFits(cfg, s.accepted, s.answers[i])
  }

  lemma InWindow(jobs: seq<Job>, n: nat, id: string)
    ensures id in LastIDs(jobs, n) <==> exists k :: |jobs| - n <= k < |jobs| && 0 <= k && jobs[k].signalID == id
  {
    var from := |jobs| - Min(|jobs|, n);
    var w := LastIDs(jobs, n);
    if id in w {
      var i :| 0 <= i < |w| && w[i] == id;
      assert jobs[from + i].signalID == id;
    }
    if k :| |jobs| - n <= k < |jobs| && 0 <= k && jobs[k].signalID == id {
      assert w[k - from] == id;
    }
  }

  lemma AnswerStaysFit(cfg: Config, accepted: seq<Job>, accepted': seq<Job>, a: Answer)
    requires AnswerFits(cfg, accepted, a) && accepted <= accepted'
    ensures AnswerFits(cfg, accepted', a)
  {
    if a.verdict.Duplicate? {
      var k :| a.before - cfg.maxSeen <= k < a.before && 0 <= k && accepted[k].signalID == a.job.signalID;
      assert accepted'[k].signalID == a.job.signalID;
    }
  }

  lemma AnswersSnoc(cfg: Config, s: System, s': System, a: Answer)
    requires AnswersInv(cfg, s) && s'.answers == s.answers + [a] && AnswerFits(cfg, s'.accepted, a)
    requires s'.accepted == s.accepted + if a.verdict.Accepted? then [a.job] else []
    ensures AnswersInv(cfg, s')
  {
    hide AnswerFits;
    assert s'.answers[..|s.answers|] == s.answers;
    forall i | 0 <= i < |s.answers| ensures AnswerFits(cfg, s'.accepted, s.answers[i]) {
      AnswerStaysFit(cfg, s.accepted, s'.accepted, s.answers[i]);
    }
  }

  lemma AnswersStep(cfg: Config, s: System, step: Step)
    requires AnswersInv(cfg, s) && SeenInv(cfg, s) && Enabled(cfg, s, step)
    ensures AnswersInv(cfg, After(cfg, s, step))
  {
    hide Admit, Distinct, ResubmissionsFarApart, LastIDs, Elements;
    var s' := After(cfg, s, step);
    if step.Enqueue? {
      var a := s'.answers[|s.answers|];
      NotInElements(s.core.seenFIFO, step.job.signalID);
      InWindow(s.accepted, cfg.maxSeen, step.job.signalID);
      assert AnswerFits(cfg, s'.accepted, a);
      AnswersSnoc(cfg, s, s', a);
    } else {
      assert s'.answers == s.answers && s'.accepted == s.accepted;
    }
  }

  lemma InSnoc(steps: seq<Step>, last: Step, step: Step)
    ensures step in steps + [last] <==> step in steps || step == last
  {}

  lemma InvFacts(cfg: Config, s: System)
    requires Inv(cfg, s)
    ensures SeenInv(cfg, s)
    ensures forall p :: p in s.core.queued <==> exists h :: Holds(s, h, p)
  {
    hide PendingInv, HistoryInv, SeenInv, ShutdownInv, Holds;
  }

  lemma InitialAnswers(cfg: Config)
    ensures AnswersInv(cfg, Initial(cfg)) && !Initial(cfg).core.closed
  {}

  lemma {:induction false} AnswersRun(cfg: Config, steps: seq<Step>)
    requires Run(cfg, steps).Some?
    ensures AnswersInv(cfg, Run(cfg, steps).value)
  {
    hide AnswersInv, Initial, After, Enabled, Inv, SeenInv, Holds;
    if steps == [] {
      InitialAnswers(cfg);
    } else {
      var front, last := steps[..|steps| - 1], steps[|steps| - 1];
      AnswersRun(cfg, front);
      RunInv(cfg, front);
      InvFacts(cfg, Run(cfg, front).value);
      AnswersStep(cfg, Run(cfg, front).value, last);
    }
  }

  lemma {:induction false} ClosedIff(cfg: Config, steps: seq<Step>)
    requires Run(cfg, steps).Some?
    ensures Run(cfg, steps).value.core.closed <==> MarkClosed in steps
  {
    hide AnswersInv, Initial, After, Enabled;
    InitialAnswers(cfg);
    if steps != [] {
      var front, last := steps[..|steps| - 1], steps[|steps| - 1];
      ClosedIff(cfg, front);
      ClosingStep(cfg, Run(cfg, front).value, last);
      InSnoc(front, last, MarkClosed);
      assert steps == front + [last];
    }
  }

  /** Only MarkClosed closes the queue, and a closed queue accepts nothing. */
  lemma ClosingStep(cfg: Config, s: System, step: Step)
    requires Enabled(cfg, s, step)
    ensures After(cfg, s, step).core.closed <==> s.core.closed || step == MarkClosed
    ensures s.core.closed ==>
              && After(cfg, s, step).accepted == s.accepted
              && (After(cfg, s, step).answers == s.answers
                  || exists job :: After(cfg, s, step).answers == s.answers + [Answer(job, Closed, |s.accepted|)])
  {}

  /** One of the maxSeen jobs accepted last has the ID. */
  ghost predicate SeenLately(cfg: Config, accepted: seq<Job>, signalID: string) {
    exists k :: |accepted| - cfg.maxSeen <= k < |accepted| && 0 <= k && accepted[k].signalID == signalID
  }

  lemma SeenLatelyIff(cfg: Config, s: System, signalID: string)
    requires SeenInv(cfg, s)
    ensures signalID in s.core.seen <==> SeenLately(cfg, s.accepted, signalID)
  {
    hide Distinct, ResubmissionsFarApart, LastIDs, Elements;
    NotInElements(s.core.seenFIFO, signalID);
    InWindow(s.accepted, cfg.maxSeen, signalID);
  }

  /** What the answer to an enqueue depends on. */
  ghost predicate Answered(cfg: Config, s: System, s': System, job: Job) {
    && |s'.answers| == |s.answers| + 1 && s'.answers[..|s.answers|] == s.answers
    && var a := s'.answers[|s.answers|];
    && a.job == job && a.before == |s.accepted|
    && (a.verdict == Closed <==> s.core.closed)
    && (a.verdict == Duplicate <==> !s.core.closed && SeenLately(cfg, s.accepted, job.signalID))
    && (a.verdict.Accepted? ==> s'.accepted == s.accepted + [job])
    && (a.verdict.Accepted? ==> (a.verdict.push <==> job.planID !in s.core.queued))
    && (!a.verdict.Accepted? ==> s'.accepted == s.accepted && s'.core == s.core)
  }

  lemma EnqueueStep(cfg: Config, s: System, e: nat, job: Job)
    requires SeenInv(cfg, s) && Enabled(cfg, s, Enqueue(e, job))
    ensures Answered(cfg, s, After(cfg, s, Enqueue(e, job)), job)
  {
    hide SeenInv, SeenLately, Admit;
    SeenLatelyIff(cfg, s, job.signalID);
  }

  /** MAIN: in every run an enqueue is rejected exactly if the queue was closed, a no-op exactly if the queue was open
      and one of the maxSeen jobs accepted last has its ID, and otherwise accepted; a push is then due exactly if the
      plan had no token. */
  lemma EnqueueAnswered(cfg: Config, steps: seq<Step>, e: nat, job: Job)
    requires Run(cfg, steps).Some? && Run(cfg, steps + [Enqueue(e, job)]).Some?
    ensures var s, s' := Run(cfg, steps).value, Run(cfg, steps + [Enqueue(e, job)]).value;
            && Answered(cfg, s, s', job)
            && (s.core.closed <==> MarkClosed in steps)
            && (job.planID in s.core.queued <==> exists h :: Holds(s, h, job.planID))
  {
    hide Inv, After, Enabled, Answered, AnswersInv, SeenInv, Holds;
    assert (steps + [Enqueue(e, job)])[..|steps|] == steps;
    ClosedIff(cfg, steps);
    RunInv(cfg, steps);
    InvFacts(cfg, Run(cfg, steps).value);
    EnqueueStep(cfg, Run(cfg, steps).value, e, job);
  }

  /** MAIN: an enqueue answered as a no-op has an accepted job with its ID among the last maxSeen accepted before it,
      and the accepted jobs are exactly those whose enqueuers were told so, in order. */
  lemma NoOpWasAccepted(cfg: Config, steps: seq<Step>, i: nat)
    requires Run(cfg, steps).Some? && i < |Run(cfg, steps).value.answers|
    ensures var s := Run(cfg, steps).value;
            && s.accepted == AcceptedJobs(s.answers)
            && (s.answers[i].verdict == Duplicate ==>
                  exists k :: 0 <= k < |s.accepted| && s.answers[i].before - cfg.maxSeen <= k < s.answers[i].before
                              && s.accepted[k].signalID == s.answers[i].job.signalID)
  {
    AnswersRun(cfg, steps);
    assert AnswerFits(cfg, Run(cfg, steps).value.accepted, Run(cfg, steps).value.answers[i]);
  }

  /** MAIN: once the queue is marked closed nothing more is accepted, and every later enqueue is answered so. */
  lemma {:induction false} NothingAcceptedAfterClose(cfg: Config, steps: seq<Step>, more: seq<Step>)
    requires Run(cfg, steps).Some? && Run(cfg, steps + more).Some? && MarkClosed in steps
    ensures var s, s' := Run(cfg, steps).value, Run(cfg, steps + more).value;
            && s'.accepted == s.accepted && |s.answers| <= |s'.answers| && s'.answers[..|s.answers|] == s.answers
            && forall i :: |s.answers| <= i < |s'.answers| ==> s'.answers[i].verdict == Closed
  {
    if more == [] {
      assert steps + more == steps;
    } else {
      var k := |more| - 1;
      assert (steps + more)[..|steps + more| - 1] == steps + more[..k];
      hide After, Enabled, AnswersInv;
      NothingAcceptedAfterClose(cfg, steps, more[..k]);
      ClosedIff(cfg, steps + more[..k]);
      ClosingStep(cfg, Run(cfg, steps + more[..k]).value, more[k]);
    }
  }

  // ---------------------------------------------------------------- delivery

  ghost predicate AllExited(s: System) {
    s.channelClosed && s.workers != map[] && forall w :: w in s.workers ==> s.workers[w] == Exited
  }

  lemma {:induction false} ForPlanMultiset(jobs: seq<Job>, j: Job)
    ensures multiset(jobs)[j] == multiset(ForPlan(jobs, j.planID))[j]
  {
    if jobs != [] {
      var k := |jobs| - 1;
      ForPlanMultiset(jobs[..k], j);
      assert jobs == jobs[..k] + [jobs[k]];
      assert multiset(jobs) == multiset(jobs[..k]) + multiset{jobs[k]};
      var last := if jobs[k].planID == j.planID then [jobs[k]] else [];
      assert multiset(ForPlan(jobs, j.planID)) == multiset(ForPlan(jobs[..k], j.planID)) + multiset(last);
    }
  }

  /** MAIN: when every worker has exited, every accepted job was handed over exactly once and nothing is pending
      if and only if no enqueuer was between its unlock and its channel send when the channel was closed. */
  lemma DeliveredIffNoSendOutstanding(cfg: Config, steps: seq<Step>)
    requires Run(cfg, steps).Some? && AllExited(Run(cfg, steps).value)
    ensures var s := Run(cfg, steps).value;
            && (s.stranded == {} <==> multiset(s.handed) == multiset(s.accepted))
            && (s.stranded == {} <==> forall p :: Fifo(s.core.pending, p) == [])
  {
    RunInv(cfg, steps);
    var s := Run(cfg, steps).value;
    var w :| w in s.workers;
    assert s.workers[w] == Exited && s.channel == [];
    if s.stranded == {} {
      forall p ensures Fifo(s.core.pending, p) == [] {
        NothingLeft(s, p);
      }
      forall j: Job ensures multiset(s.handed)[j] == multiset(s.accepted)[j] {
        assert ForPlan(s.handed, j.planID) + [] == ForPlan(s.accepted, j.planID);
        assert ForPlan(s.handed, j.planID) + [] == ForPlan(s.handed, j.planID);
        ForPlanMultiset(s.handed, j);
        ForPlanMultiset(s.accepted, j);
      }
      assert multiset(s.handed) == multiset(s.accepted);
    } else {
      var p :| p in s.stranded;
      StrandedPending(s, p);
      var fifo := Fifo(s.core.pending, p);
      assert ForPlan(s.handed, p) + fifo == ForPlan(s.accepted, p);
      var j := fifo[0];
      assert multiset(ForPlan(s.accepted, p)) == multiset(ForPlan(s.handed, p)) + multiset(fifo);
      assert j in multiset(fifo);
      ForPlanMultiset(s.handed, j);
      ForPlanMultiset(s.accepted, j);
      assert multiset(s.handed)[j] < multiset(s.accepted)[j];
    }
  }

  /** A run that drops an accepted job: the channel is closed between the enqueuer's unlock and its send. */
  lemma SendMeetsClosedChannel(job: Job)
    ensures var cfg := Config(100, 1, {0});
            var r := Run(cfg, [Enqueue(0, job), MarkClosed, CloseChannel, SendPanics(0), Exit(0)]);
            && r.Some? && AllExited(r.value)
            && r.value.accepted == [job] && r.value.handed == []
            && Fifo(r.value.core.pending, job.planID) == [job] && r.value.stranded == {job.planID}
  {
    hide Run, Enabled, After;
    var cfg := Config(100, 1, {0});
    var a, b, c, d, e := Enqueue(0, job), MarkClosed, CloseChannel, SendPanics(0), Exit(0);
    assert [] + [a] == [a] && [a] + [b] == [a, b] && [a, b] + [c] == [a, b, c];
    assert [a, b, c] + [d] == [a, b, c, d] && [a, b, c, d] + [e] == [a, b, c, d, e];
    RunEmpty(cfg);
    var s1, s2, s3 := ClosedBeforeSend(cfg, job);
    RunSnoc(cfg, [], a, Initial(cfg));
    RunSnoc(cfg, [a], b, s1);
    RunSnoc(cfg, [a, b], c, s2);
    var s4 := SendLost(cfg, job, s3);
    RunSnoc(cfg, [a, b, c], d, s3);
    RunSnoc(cfg, [a, b, c, d], e, s4);
  }

  lemma RunEmpty(cfg: Config)
    ensures Run(cfg, []) == Some(Initial(cfg))
  {}

  lemma ClosedBeforeSend(cfg: Config, job: Job) returns (s1: System, s2: System, s3: System)
    requires cfg == Config(100, 1, {0})
    ensures Enabled(cfg, Initial(cfg), Enqueue(0, job)) && s1 == After(cfg, Initial(cfg), Enqueue(0, job))
    ensures Enabled(cfg, s1, MarkClosed) && s2 == After(cfg, s1, MarkClosed)
    ensures Enabled(cfg, s2, CloseChannel) && s3 == After(cfg, s2, CloseChannel)
    ensures s3.accepted == [job] && s3.handed == [] && Fifo(s3.core.pending, job.planID) == [job]
    ensures s3.unsent == map[0 := job.planID] && s3.stranded == {job.planID} && s3.lost == map[]
    ensures s3.channelClosed && s3.channel == [] && s3.workers == map[0 := Idle]
  {
    s1 := After(cfg, Initial(cfg), Enqueue(0, job));
    s2 := After(cfg, s1, MarkClosed);
    assert s2.unsent == map[0 := job.planID] && s2.unsent.Values == {job.planID};
    s3 := After(cfg, s2, CloseChannel);
  }

  lemma SendLost(cfg: Config, job: Job, s: System) returns (s4: System)
    requires s.unsent == map[0 := job.planID] && s.channelClosed && s.channel == [] && s.workers == map[0 := Idle]
    ensures Enabled(cfg, s, SendPanics(0)) && s4 == After(cfg, s, SendPanics(0)) && Enabled(cfg, s4, Exit(0))
    ensures var s5 := After(cfg, s4, Exit(0));
            && AllExited(s5) && s5.accepted == s.accepted && s5.handed == s.handed && s5.core == s.core
            && s5.stranded == s.stranded
  {
    s4 := After(cfg, s, SendPanics(0));
    assert After(cfg, s4, Exit(0)).workers == map[0 := Exited];
  }

  lemma RunSnoc(cfg: Config, steps: seq<Step>, step: Step, s: System)
    requires Run(cfg, steps) == Some(s) && Enabled(cfg, s, step)
    ensures Run(cfg, steps + [step]) == Some(After(cfg, s, step))
  {
    assert (steps + [step])[..|steps|] == steps;
  }

  lemma NothingLeft(s: System, p: string)
    requires TokenInv(s) && PendingInv(s) && ShutdownInv(s) && AllExited(s) && s.channel == [] && s.stranded == {}
    ensures Fifo(s.core.pending, p) == []
  {
    EmptyValues(s.unsent);
    EmptyValues(s.lost);
    assert forall h :: !Holds(s, h, p);
  }

  lemma EmptyValues(m: map<nat, string>)
    ensures m.Values == {} ==> m == map[]
  {
    assert forall e :: e in m ==> m[e] in m.Values;
  }

  lemma StrandedPending(s: System, p: string)
    requires TokenInv(s) && PendingInv(s) && ShutdownInv(s) && s.channelClosed && p in s.stranded
    ensures Fifo(s.core.pending, p) != []
  {
    if p in s.unsent.Values {
      var e :| e in s.unsent && s.unsent[e] == p;
      assert Holds(s, AtEnqueuer(e), p);
    } else {
      var e :| e in s.lost && s.lost[e] == p;
      assert Holds(s, Lost(e), p);
    }
  }
}
