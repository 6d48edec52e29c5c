/** Immutable plan versions under optimistic concurrency: the in-memory store, and any number of concurrent replans
    that read the current version, plan the next one and try to append it. */
module Versioning {
  import opened Domain
  import opened Wrappers

  datatype PlanVersion = PlanVersion(planID: string, version: int, moves: seq<RankedMove>)
  datatype Plan = Plan(id: string, goalID: string, currentVersion: int)
  datatype Status = Pending | Applied | Unchanged | Failed
  datatype Signal = Signal(id: string, goalID: string, status: Status, resultVersion: int)

  datatype Error = ErrNotFound | ErrConflict
  datatype Result<T> = Ok(value: T) | Err(error: Error)

  const MAX_REPLAN_ATTEMPTS: nat := 3

  // ---------------------------------------------------------------- the store

  datatype Store = Store(
    plans: map<string, Plan>,
    byGoal: map<string, string>,
    versions: map<string, map<int, PlanVersion>>,
    signals: seq<Signal>)

  function VersionsOf(s: Store, planID: string): map<int, PlanVersion> {
    if planID in s.versions then s.versions[planID] else map[]
  }

  function AddPlan(s: Store, p: Plan): Result<Store> {
    if p.id in s.plans then Err(ErrConflict)
    else Ok(s.(plans := s.plans[p.id := p], byGoal := s.byGoal[p.goalID := p.id],
               versions := s.versions[p.id := VersionsOf(s, p.id)]))
  }

  function AddVersion(s: Store, v: PlanVersion): Result<Store> {
    if v.planID !in s.plans then Err(ErrNotFound)
    else if v.version in VersionsOf(s, v.planID) then Err(ErrConflict)
    else
      var plan := s.plans[v.planID];
      Ok(s.(versions := s.versions[v.planID := VersionsOf(s, v.planID)[v.version := v]],
            plans := if v.version > plan.currentVersion
                     then s.plans[v.planID := plan.(currentVersion := v.version)] else s.plans))
  }

  function CurrentVersion(s: Store, planID: string): Result<PlanVersion> {
    if planID !in s.plans then Err(ErrNotFound)
    else
      var n := s.plans[planID].currentVersion;
      if n in VersionsOf(s, planID) then Ok(VersionsOf(s, planID)[n]) else Err(ErrNotFound)
  }

  /** Only the first signal with the ID is marked. */
  function MarkFirst(signals: seq<Signal>, id: string, status: Status, version: int): Option<seq<Signal>> {
    if signals == [] then None
    else if signals[0].id == id then Some([signals[0].(status := status, resultVersion := version)] + signals[1..])
    else
      match MarkFirst(signals[1..], id, status, version)
      case None => None
      case Some(rest) => Some([signals[0]] + rest)
  }

  lemma {:induction false} MarkFirstFound(signals: seq<Signal>, i: nat, id: string, status: Status, version: int)
    requires i < |signals| && signals[i].id == id && forall k :: 0 <= k < i ==> signals[k].id != id
    ensures MarkFirst(signals, id, status, version)
         == Some(signals[i := signals[i].(status := status, resultVersion := version)])
  {
    var marked := signals[i].(status := status, resultVersion := version);
    if i > 0 {
      MarkFirstFound(signals[1..], i - 1, id, status, version);
      assert signals[i := marked] == [signals[0]] + signals[1..][i - 1 := marked];
    } else {
      assert signals[i := marked] == [marked] + signals[1..];
    }
  }

  lemma {:induction false} MarkFirstMissing(signals: seq<Signal>, id: string, status: Status, version: int)
    requires forall k :: 0 <= k < |signals| ==> signals[k].id != id
    ensures MarkFirst(signals, id, status, version) == None
  {
    if signals != [] {
      MarkFirstMissing(signals[1..], id, status, version);
    }
  }

  /** GeneratePlan's transaction: the plan head and version 1, or nothing. */
  function AddPlanWithVersion(s: Store, p: Plan, v: PlanVersion): Result<Store> {
    match AddPlan(s, p)
    case Err(e) => Err(e)
    case Ok(staged) => AddVersion(staged, v)
  }

  /** Filing a plan's own non-empty rows again changes nothing. */
  lemma SameRows(s: Store, v: PlanVersion)
    ensures v.version in VersionsOf(s, v.planID) ==> s.versions[v.planID := VersionsOf(s, v.planID)] == s.versions
  {}

  /** The stored versions of one plan: a table of its own, so that copying the store means copying every table. */
  class VersionTable {
    var rows: map<int, PlanVersion>

    constructor (rows: map<int, PlanVersion>)
      ensures this.rows == rows
    {
      this.rows := rows;
    }
  }

  class MemoryRepository {
    var plans: map<string, Plan>
    var byGoal: map<string, string>
    var versions: map<string, VersionTable>
    var signals: seq<Signal>

    ghost function Tables(): set<VersionTable>
      reads this`versions
    {
      versions.Values
    }

    /** No two plans share a table. */
    ghost predicate Valid()
      reads this`versions
    {
      forall p, q :: p in versions && q in versions && versions[p] == versions[q] ==> p == q
    }

    ghost function Rows(): map<string, map<int, PlanVersion>>
      reads this`versions, Tables()
    {
      map p | p in versions :: versions[p].rows
    }

    ghost function Abstract(): Store
      reads this, Tables()
    {
      Store(plans, byGoal, Rows(), signals)
    }

    constructor ()
      ensures Valid() && Tables() == {} && Abstract() == Store(map[], map[], map[], [])
    {
      plans, byGoal, versions, signals := map[], map[], map[], [];
    }

    constructor Of(plans: map<string, Plan>, byGoal: map<string, string>, versions: map<string, VersionTable>,
                   signals: seq<Signal>)
      ensures this.plans == plans && this.byGoal == byGoal && this.versions == versions && this.signals == signals
    {
      this.plans, this.byGoal, this.versions, this.signals := plans, byGoal, versions, signals;
    }

    /** The plan's table, created when missing. */
    method TableOf(planID: string) returns (table: VersionTable)
      requires Valid()
      modifies this`versions
      ensures Valid() && planID in versions && versions[planID] == table && (table in old(Tables()) || fresh(table))
      ensures forall t :: t in Tables() ==> t in old(Tables()) || t == table
      ensures table.rows == VersionsOf(old(Abstract()), planID)
      ensures Rows() == old(Rows())[planID := VersionsOf(old(Abstract()), planID)]
    {
      if planID !in versions {
        table := new VersionTable(map[]);
        versions := versions[planID := table];
      }
      table := versions[planID];
    }

    /** Writes one row of one plan's table in place. */
    method WriteRow(table: VersionTable, planID: string, v: PlanVersion)
      requires Valid() && planID in versions && versions[planID] == table
      modifies table
      ensures Valid()
      ensures Rows() == old(Rows())[planID := old(table.rows)[v.version := v]]
    {
      table.rows := table.rows[v.version := v];
      assert forall p :: p in versions && p != planID ==> versions[p] != table;
    }

    method CreatePlan(p: Plan) returns (err: Option<Error>)
      requires Valid()
      modifies this
      ensures Valid() && forall t :: t in Tables() ==> t in old(Tables()) || fresh(t)
      ensures match AddPlan(old(Abstract()), p)
              case Ok(s) => err == None && Abstract() == s
              case Err(e) => err == Some(e) && Abstract() == old(Abstract())
    {
      hide Rows, Valid;
      if p.id in plans {
        return Some(ErrConflict);
      }
      var _ := TableOf(p.id);
      plans := plans[p.id := p];
      byGoal := byGoal[p.goalID := p.id];
      return None;
    }

    method CreatePlanVersion(v: PlanVersion) returns (err: Option<Error>)
      requires Valid()
      modifies this, Tables()
      ensures Valid() && forall t :: t in Tables() ==> t in old(Tables()) || fresh(t)
      ensures match AddVersion(old(Abstract()), v)
              case Ok(s) => err == None && Abstract() == s
              case Err(e) => err == Some(e) && Abstract() == old(Abstract())
    {
      if v.planID !in plans {
        return Some(ErrNotFound);
      }
      ghost var s0 := Abstract();
      SameRows(s0, v);
      hide Rows, Valid, VersionsOf;
      var plan := plans[v.planID];
      var table := TableOf(v.planID);
      if v.version in table.rows {
        return Some(ErrConflict);
      }
      WriteRow(table, v.planID, v);
      assert AddVersion(s0, v).Ok?;
      ghost var s' := AddVersion(s0, v).value;
      assert Rows() == s'.versions;
      hide AddVersion;
      if v.version > plan.currentVersion {
        plan := plan.(currentVersion := v.version);
        plans := plans[v.planID := plan];
      }
      assert s'.plans == plans;
      return None;
    }

    method GetCurrentPlanVersion(planID: string) returns (r: Result<PlanVersion>)
      ensures r == CurrentVersion(Abstract(), planID)
    {
      if planID !in plans {
        return Err(ErrNotFound);
      }
      var n := plans[planID].currentVersion;
      if planID !in versions || n !in versions[planID].rows {
        return Err(ErrNotFound);
      }
      return Ok(versions[planID].rows[n]);
    }

    method MarkSignalProcessed(id: string, status: Status, resultVersion: int) returns (err: Option<Error>)
      modifies this
      ensures versions == old(versions)
      ensures match MarkFirst(old(signals), id, status, resultVersion)
              case Some(marked) => err == None && Abstract() == old(Abstract()).(signals := marked)
              case None => err == Some(ErrNotFound) && Abstract() == old(Abstract())
    {
      for i := 0 to |signals|
        invariant versions == old(versions) && Abstract() == old(Abstract())
        invariant forall k :: 0 <= k < i ==> signals[k].id != id
      {
        if signals[i].id == id {
          MarkFirstFound(signals, i, id, status, resultVersion);
          signals := signals[i := signals[i].(status := status, resultVersion := resultVersion)];
          return None;
        }
      }
      MarkFirstMissing(signals, id, status, resultVersion);
      return Some(ErrNotFound);
    }

    /** A new table for every plan, with the same rows. */
    method CopyTables() returns (copy: map<string, VersionTable>)
      ensures copy.Keys == versions.Keys
      ensures forall p :: p in copy ==> fresh(copy[p]) && copy[p].rows == versions[p].rows
      ensures forall p, q :: p in copy && q in copy && copy[p] == copy[q] ==> p == q
    {
      copy := map[];
      var todo := versions.Keys;
      while todo != {}
        invariant todo <= versions.Keys && copy.Keys == versions.Keys - todo
        invariant forall p :: p in copy ==> fresh(copy[p]) && copy[p].rows == versions[p].rows
        invariant forall p, q :: p in copy && q in copy && copy[p] == copy[q] ==> p == q
        decreases |todo|
      {
        var p :| p in todo;
        var table := new VersionTable(versions[p].rows);
        copy := copy[p := table];
        todo := todo - {p};
      }
    }

    /** A standalone copy, on which a transaction is staged: it shares no table with the original. */
    method Snapshot() returns (s: MemoryRepository)
      ensures fresh(s) && s.Valid() && (forall t :: t in s.Tables() ==> fresh(t)) && s.Abstract() == Abstract()
    {
      var copy := CopyTables();
      s := new MemoryRepository.Of(plans, byGoal, copy, signals);
      assert s.Rows() == Rows();
    }

    /** Commits a staged copy by taking over its containers. */
    method Adopt(staged: MemoryRepository)
      requires staged.Valid()
      modifies this
      ensures Valid() && Tables() == old(staged.Tables()) && Abstract() == old(staged.Abstract())
    {
      plans, byGoal, versions, signals := staged.plans, staged.byGoal, staged.versions, staged.signals;
    }

    /** What GeneratePlan does in its transaction; a failure may leave the head behind. */
    method CreatePlanWithVersion(p: Plan, v: PlanVersion) returns (err: Option<Error>)
      requires Valid()
      modifies this, Tables()
      ensures Valid()
      ensures match AddPlanWithVersion(old(Abstract()), p, v)
              case Ok(s) => err == None && Abstract() == s
              case Err(e) => err == Some(e)
    {
      hide AddPlan, AddVersion, Abstract;
      err := CreatePlan(p);
      if err.None? {
        err := CreatePlanVersion(v);
      }
    }

    /** The transaction: it runs on a copy that is adopted only if everything succeeds; no table of the original is
        written. */
    method CreatePlanTx(p: Plan, v: PlanVersion) returns (err: Option<Error>)
      requires Valid()
      modifies this
      ensures Valid()
      ensures match AddPlanWithVersion(old(Abstract()), p, v)
              case Ok(s) => err == None && Abstract() == s
              case Err(e) => err == Some(e) && Abstract() == old(Abstract())
    {
      hide AddPlanWithVersion, Valid;
      var staged := Snapshot();
      assert Abstract() == old(Abstract());
      assert forall q :: q in versions ==> versions[q] !in staged.Tables();
      err := staged.CreatePlanWithVersion(p, v);
      assert versions == old(versions) && plans == old(plans);
      assert forall q :: q in versions ==> versions[q].rows == old(versions[q].rows);
      assert Abstract().versions == old(Abstract()).versions;
      assert Abstract() == old(Abstract());
      if err.None? {
        Adopt(staged);
      }
    }
  }

  /** The store alone does not keep versions contiguous: it accepts any unused number. */
  lemma StoreAllowsGaps()
    ensures var s := Store(map["p" := Plan("p", "g", 1)], map["g" := "p"],
                           map["p" := map[1 := PlanVersion("p", 1, [])]], []);
            AddVersion(s, PlanVersion("p", 7, [])).Ok? && Contiguous(s) &&
            !Contiguous(AddVersion(s, PlanVersion("p", 7, [])).value)
  {
    var s := Store(map["p" := Plan("p", "g", 1)], map["g" := "p"], map["p" := map[1 := PlanVersion("p", 1, [])]], []);
    var s' := AddVersion(s, PlanVersion("p", 7, [])).value;
    assert s'.plans["p"].currentVersion == 7 && 2 !in s'.versions["p"];
  }

  // ---------------------------------------------------------------- concurrent replans

  /** How the engine answers a replan: the gate stops it, the planner fails, or the evaluator compares the new moves. */
  datatype Verdict = Gated | PlannerError | Immaterial | Material(moves: seq<RankedMove>)

  datatype Phase =
    | Reading(attempt: nat)
    | Planning(attempt: nat, current: PlanVersion)
    | Committing(attempt: nat, candidate: PlanVersion)
    | Marking(status: Status, version: int, conflict: bool)
    | Done(status: Status, version: int, conflict: bool)

  /** One run of processReplan; `began` is the length of the commit log when it started. */
  datatype Process = Process(planID: string, signalID: string, phase: Phase, began: nat)

  /** A stored version: the initial one, or one appended by a replan. */
  datatype Commit = Initial(planID: string) | Replanned(planID: string, author: nat, version: int)

  /** A terminal status recorded for a signal; `author` is the process that recorded it. */
  datatype Mark = Mark(planID: string, signalID: string, author: nat, status: Status, version: int)

  datatype System = System(store: Store, processes: map<nat, Process>, log: seq<Commit>, marks: seq<Mark>)

  datatype Step =
    | Generate(planID: string, goalID: string, moves: seq<RankedMove>)
    | AddSignal(signal: Signal)
    | Begin(pid: nat, planID: string, signalID: string)
    | GoalMissing(pid: nat)
    | Read(pid: nat)
    | Decide(pid: nat, verdict: Verdict)
    | TryCommit(pid: nat)
    | MarkSignal(pid: nat)

  function Empty(): System {
    System(Store(map[], map[], map[], []), map[], [], [])
  }

  predicate Enabled(s: System, step: Step) {
    match step
    case Generate(planID, goalID, moves) => true
    case AddSignal(signal) => true
    case Begin(pid, planID, signalID) => pid !in s.processes
    case GoalMissing(pid) => pid in s.processes && s.processes[pid].phase == Reading(0)
    case Read(pid) => pid in s.processes && s.processes[pid].phase.Reading?
    case Decide(pid, verdict) => pid in s.processes && s.processes[pid].phase.Planning?
    case TryCommit(pid) => pid in s.processes && s.processes[pid].phase.Committing?
    case MarkSignal(pid) => pid in s.processes && s.processes[pid].phase.Marking?
  }

  function Goto(s: System, pid: nat, phase: Phase): System
    requires pid in s.processes
  {
    s.(processes := s.processes[pid := s.processes[pid].(phase := phase)])
  }

  function After(s: System, step: Step): System
    requires Enabled(s, step)
  {
    match step
    case Generate(planID, goalID, moves) =>
      (match AddPlanWithVersion(s.store, Plan(planID, goalID, 0), PlanVersion(planID, 1, moves))
       case Ok(store) => s.(store := store, log := s.log + [Initial(planID)])
       case Err(_) => s)
    case AddSignal(signal) => s.(store := s.store.(signals := s.store.signals + [signal.(status := Pending)]))
    case Begin(pid, planID, signalID) =>
      s.(processes := s.processes[pid := Process(planID, signalID, Reading(0), |s.log|)])
    case GoalMissing(pid) => Goto(s, pid, Marking(Failed, 0, false))
    case Read(pid) =>
      (match CurrentVersion(s.store, s.processes[pid].planID)
       case Ok(v) => Goto(s, pid, Planning(s.processes[pid].phase.attempt, v))
       case Err(_) => Goto(s, pid, Marking(Failed, 0, false)))
    case Decide(pid, verdict) =>
      var ph := s.processes[pid].phase;
      (match verdict
       case PlannerError => Goto(s, pid, Marking(Failed, 0, false))
       case Gated => Goto(s, pid, Marking(Unchanged, ph.current.version, false))
       case Immaterial => Goto(s, pid, Marking(Unchanged, ph.current.version, false))
       case Material(moves) =>
         Goto(s, pid, Committing(ph.attempt, PlanVersion(ph.current.planID, ph.current.version + 1, moves))))
    case TryCommit(pid) =>
      var ph := s.processes[pid].phase;
      (match AddVersion(s.store, ph.candidate)
       case Ok(store) =>
         Goto(s.(store := store, log := s.log + [Replanned(ph.candidate.planID, pid, ph.candidate.version)]), pid,
              Marking(Applied, ph.candidate.version, false))
       case Err(ErrConflict) =>
         Goto(s, pid, if ph.attempt + 1 < MAX_REPLAN_ATTEMPTS then Reading(ph.attempt + 1)
           else Marking(Failed, 0, true))
       case Err(ErrNotFound) => Goto(s, pid, Marking(Failed, 0, false)))
    case MarkSignal(pid) =>
      var p := s.processes[pid];
      var s' := Goto(s, pid, Done(p.phase.status, p.phase.version, p.phase.conflict));
      (match MarkFirst(s.store.signals, p.signalID, p.phase.status, p.phase.version)
       case Some(marked) =>
         s'.(store := s.store.(signals := marked),
             marks := s.marks + [Mark(p.planID, p.signalID, pid, p.phase.status, p.phase.version)])
       case None => s')
  }

  /** The state reached from s by a run, or none when some step is not enabled. */
  function RunFrom(s: System, steps: seq<Step>): Option<System> {
    if steps == [] then Some(s)
    else
      match RunFrom(s, steps[..|steps| - 1])
      case None => None
      case Some(m) => if Enabled(m, steps[|steps| - 1]) then Some(After(m, steps[|steps| - 1])) else None
  }

  // ---------------------------------------------------------------- invariants

  /** The rows are exactly 1..n, each filed under its own number. */
  ghost predicate Numbered(rows: map<int, PlanVersion>, p: string, n: int) {
    && n >= 1
    && (forall k :: k in rows <==> 1 <= k <= n)
    && (forall k :: k in rows ==> rows[k].planID == p && rows[k].version == k)
  }

  /** Every plan's stored versions are exactly 1..CurrentVersion. */
  ghost predicate Contiguous(s: Store) {
    && s.versions.Keys == s.plans.Keys
    && (forall p :: p in s.plans ==> Numbered(s.versions[p], p, s.plans[p].currentVersion))
  }

  /** Everything stored stays stored, unchanged. */
  ghost predicate Preserves(s: Store, s': Store) {
    forall p, n :: p in s.versions && n in s.versions[p] ==>
      p in s'.versions && n in s'.versions[p] && s'.versions[p][n] == s.versions[p][n]
  }

  function Commits(log: seq<Commit>, planID: string): nat {
    if log == [] then 0
    else Commits(log[..|log| - 1], planID) + (if log[|log| - 1].planID == planID then 1 else 0)
  }

  function MaterialCommits(log: seq<Commit>, planID: string): nat {
    if log == [] then 0
    else
      var c := log[|log| - 1];
      MaterialCommits(log[..|log| - 1], planID) + (if c.Replanned? && c.planID == planID then 1 else 0)
  }

  /** Commits to the plan by anyone but process pid. */
  function CommitsByOthers(log: seq<Commit>, planID: string, pid: nat): nat {
    if log == [] then 0
    else
      var c := log[|log| - 1];
      CommitsByOthers(log[..|log| - 1], planID, pid)
      + (if c.planID == planID && !(c.Replanned? && c.author == pid) then 1 else 0)
  }

  function Current(s: Store, planID: string): int {
    if planID in s.plans then s.plans[planID].currentVersion else 0
  }

  ghost predicate LogInv(s: System) {
    && (forall p :: Current(s.store, p) == Commits(s.log, p)
                 && MaterialCommits(s.log, p) == if p in s.store.plans then Current(s.store, p) - 1 else 0)
    && LogNumbered(s.log)
  }

  /** Each replan committed the number that follows the commits before it, and an initial version is its
      plan's first. */
  ghost predicate LogNumbered(log: seq<Commit>) {
    && (forall i :: 0 <= i < |log| && log[i].Replanned? ==> log[i].version == Commits(log[..i], log[i].planID) + 1)
    && (forall i :: 0 <= i < |log| && log[i].Initial? ==> Commits(log[..i], log[i].planID) == 0)
  }

  /** `base` is the number of commits to the plan when the process began: at its k-th attempt it has seen k more. */
  ghost predicate PhaseInv(s: Store, planID: string, base: nat, phase: Phase) {
    match phase
    case Reading(k) => k < MAX_REPLAN_ATTEMPTS && Current(s, planID) >= base + k
    case Planning(k, v) =>
      k < MAX_REPLAN_ATTEMPTS && v.planID == planID && Stored(s, planID, v.version) && v.version >= base + k
    case Committing(k, v) =>
      k < MAX_REPLAN_ATTEMPTS && v.planID == planID && Stored(s, planID, v.version - 1) && v.version >= base + k + 1
    case Marking(status, version, conflict) => Finished(s, planID, base, status, version, conflict)
    case Done(status, version, conflict) => Finished(s, planID, base, status, version, conflict)
  }

  ghost predicate Finished(s: Store, planID: string, base: nat, status: Status, version: int, conflict: bool) {
    && (status == Applied || status == Unchanged ==> Stored(s, planID, version) && !conflict)
    && (conflict ==> Current(s, planID) >= base + MAX_REPLAN_ATTEMPTS)
  }

  predicate HasApplied(phase: Phase) {
    (phase.Marking? || phase.Done?) && phase.status == Applied
  }

  ghost predicate ProcessInv(s: System, pid: nat)
    requires pid in s.processes
  {
    var p := s.processes[pid];
    && p.began <= |s.log|
    && PhaseInv(s.store, p.planID, Commits(s.log[..p.began], p.planID), p.phase)
    && (HasApplied(p.phase) || !Authored(s.log, pid))
    && (HasApplied(p.phase) ==> Replanned(p.planID, pid, p.phase.version) in s.log)
  }

  /** Marks are recorded by finished processes, at most one each; an "applied" one names what its author committed. */
  ghost predicate MarksInv(s: System) {
    && (forall m :: m in s.marks && (m.status == Applied || m.status == Unchanged) ==>
          Stored(s.store, m.planID, m.version))
    && (forall m :: m in s.marks && m.status == Applied ==> Replanned(m.planID, m.author, m.version) in s.log)
    && (forall m :: m in s.marks ==> m.author in s.processes && s.processes[m.author].phase.Done?)
    && (forall i, j :: 0 <= i < j < |s.marks| ==> s.marks[i].author != s.marks[j].author)
  }

  ghost predicate Authored(log: seq<Commit>, pid: nat) {
    exists i :: 0 <= i < |log| && log[i].Replanned? && log[i].author == pid
  }

  ghost predicate Stored(s: Store, planID: string, version: int) {
    planID in s.versions && version in s.versions[planID]
  }

  ghost predicate Inv(s: System) {
    && Contiguous(s.store)
    && LogInv(s)
    && (forall pid :: pid in s.processes ==> ProcessInv(s, pid))
    && (forall i :: 0 <= i < |s.log| && s.log[i].Replanned? ==> s.log[i].author in s.processes)
    && MarksInv(s)
  }

  // ---------------------------------------------------------------- one step

  /** Storing a new head with an empty table. */
  lemma PlanAdded(s: Store, p: Plan)
    requires Contiguous(s)
    ensures match AddPlan(s, p)
            case Ok(s') => p.id !in s.plans && s'.plans == s.plans[p.id := p]
              && s'.versions == s.versions[p.id := map[]]
            case Err(_) => p.id in s.plans
  {
    hide Numbered;
    assert p.id !in s.plans ==> VersionsOf(s, p.id) == map[];
  }

  function Max(a: int, b: int): int { if a > b then a else b }

  /** Appending a row and advancing the head. */
  lemma VersionAdded(s: Store, v: PlanVersion)
    requires s.versions.Keys == s.plans.Keys
    ensures match AddVersion(s, v)
            case Ok(s') => v.planID in s.plans && v.version !in s.versions[v.planID]
                           && s'.versions == s.versions[v.planID := s.versions[v.planID][v.version := v]]
                           && s'.plans.Keys == s.plans.Keys
                           && (forall p :: p in s.plans && p != v.planID ==> s'.plans[p] == s.plans[p])
                           && s'.plans[v.planID].currentVersion == Max(v.version, s.plans[v.planID].currentVersion)
            case Err(ErrConflict) => v.planID in s.plans && v.version in s.versions[v.planID]
            case Err(ErrNotFound) => v.planID !in s.plans
  {}

  lemma RowAppended(rows: map<int, PlanVersion>, p: string, n: int, v: PlanVersion)
    requires (n == 0 && rows == map[]) || Numbered(rows, p, n)
    requires v.planID == p && v.version == n + 1
    ensures v.version !in rows && Numbered(rows[v.version := v], p, n + 1)
  {}

  /** One plan's table gets one row; nothing else changes. */
  lemma OneRowMore(s: Store, s': Store, p: string, v: PlanVersion)
    requires p in s.versions && v.version !in s.versions[p]
    requires s'.versions == s.versions[p := s.versions[p][v.version := v]]
    ensures Preserves(s, s')
  {}

  /** One more plan with version 1. */
  lemma PlanInserted(s: Store, s': Store, p: string, rows: map<int, PlanVersion>)
    requires Contiguous(s) && p !in s.plans && s'.plans.Keys == s.plans.Keys + {p}
    requires s'.versions == s.versions[p := rows] && Numbered(rows, p, 1) && s'.plans[p].currentVersion == 1
    requires forall q :: q in s.plans ==> s'.plans[q] == s.plans[q]
    ensures Contiguous(s') && Preserves(s, s') && forall q :: Current(s', q) == if q == p then 1 else Current(s, q)
  {
    hide Numbered;
  }

  lemma GenerateStores(s: Store, planID: string, goalID: string, moves: seq<RankedMove>)
    requires Contiguous(s)
    ensures var r := AddPlanWithVersion(s, Plan(planID, goalID, 0), PlanVersion(planID, 1, moves));
            match r
            case Ok(s') => planID !in s.plans && Contiguous(s') && Preserves(s, s')
                           && s'.plans.Keys == s.plans.Keys + {planID}
                           && forall p :: Current(s', p) == if p == planID then 1 else Current(s, p)
            case Err(_) => planID in s.plans
  {
    var head, v := Plan(planID, goalID, 0), PlanVersion(planID, 1, moves);
    PlanAdded(s, head);
    if AddPlan(s, head).Ok? {
      var staged := AddPlan(s, head).value;
      VersionAdded(staged, v);
      RowAppended(map[], planID, 0, v);
      var s' := AddVersion(staged, v).value;
      hide AddPlan, AddVersion, Numbered, VersionsOf;
      assert s'.versions == s.versions[planID := map[][1 := v]];
      PlanInserted(s, s', planID, map[][1 := v]);
    }
  }

  lemma VersionAppends(s: Store, v: PlanVersion)
    requires Contiguous(s) && Stored(s, v.planID, v.version - 1)
    ensures match AddVersion(s, v)
            case Ok(s') => Contiguous(s') && Preserves(s, s') && s'.plans.Keys == s.plans.Keys
              && Stored(s', v.planID, v.version)
                           && Current(s, v.planID) == v.version - 1
                           && forall p :: Current(s', p) == if p == v.planID then v.version else Current(s, p)
            case Err(e) => e == ErrConflict && v.version <= Current(s, v.planID)
  {
    var p := v.planID;
    VersionAdded(s, v);
    assert Numbered(s.versions[p], p, s.plans[p].currentVersion);
    if AddVersion(s, v).Ok? {
      assert v.version - 1 == s.plans[p].currentVersion;
      RowAppended(s.versions[p], p, v.version - 1, v);
      var s' := AddVersion(s, v).value;
      OneRowMore(s, s', p, v);
      hide AddVersion, Numbered, Preserves;
      assert forall q :: q in s'.plans ==> Numbered(s'.versions[q], q, s'.plans[q].currentVersion);
    }
  }

  /** What a step does to the rest of the system: the store only grows, the log is extended by at most one commit,
      and only the stepping process changes. */
  ghost predicate Grows(s: System, s': System) {
    && Preserves(s.store, s'.store)
    && (forall p :: Current(s.store, p) <= Current(s'.store, p))
    && |s.log| <= |s'.log| <= |s.log| + 1 && s'.log[..|s.log|] == s.log && (forall c :: c in s.log ==> c in s'.log)
    && s.processes.Keys <= s'.processes.Keys
  }

  lemma OtherProcess(s: System, s': System, q: nat)
    requires q in s.processes && ProcessInv(s, q) && Grows(s, s') && s'.processes[q] == s.processes[q]
    requires |s'.log| > |s.log| && s'.log[|s.log|].Replanned? ==> s'.log[|s.log|].author != q
    ensures ProcessInv(s', q)
  {
    var p := s.processes[q];
    assert s'.log[..p.began] == s.log[..p.began];
    PhaseStays(s.store, s'.store, p.planID, Commits(s.log[..p.began], p.planID), p.phase);
    if Authored(s'.log, q) {
      var i :| 0 <= i < |s'.log| && s'.log[i].Replanned? && s'.log[i].author == q;
      assert i < |s.log| && s'.log[..|s.log|][i] == s.log[i];
    }
  }

  lemma PhaseStays(s: Store, s': Store, planID: string, base: nat, phase: Phase)
    requires Preserves(s, s') && Current(s, planID) <= Current(s', planID)
    requires PhaseInv(s, planID, base, phase)
    ensures PhaseInv(s', planID, base, phase)
  {}

  /** Facts about one step, from which the invariant follows for everyone else. */
  ghost predicate StepFacts(s: System, step: Step, s': System) {
    && Grows(s, s') && Contiguous(s'.store) && LogInv(s')
    && (step.Generate? || step.AddSignal? ==> s'.processes == s.processes)
    && (|s'.log| > |s.log| && s'.log[|s.log|].Replanned? ==> step.TryCommit? && s'.log[|s.log|].author == step.pid)
    && (!step.Generate? && !step.AddSignal? ==>
         s'.processes.Keys == s.processes.Keys + {step.pid}
         && forall q :: q in s.processes && q != step.pid ==> s'.processes[q] == s.processes[q])
  }

  lemma SameStore(s: System, s': System)
    requires Contiguous(s.store) && LogInv(s)
    requires s'.store.plans == s.store.plans && s'.store.versions == s.store.versions && s'.log == s.log
    requires s.processes.Keys <= s'.processes.Keys
    ensures Grows(s, s') && Contiguous(s'.store) && LogInv(s')
  {
    assert forall p :: Current(s'.store, p) == Current(s.store, p);
  }

  /** One more commit to a plan whose current version grew by one. */
  lemma LogExtends(s: System, s': System, c: Commit)
    requires LogInv(s) && s'.log == s.log + [c]
    requires s'.store.plans.Keys == s.store.plans.Keys + {c.planID}
    requires c.Initial? <==> c.planID !in s.store.plans
    requires forall p :: Current(s'.store, p) == Current(s.store, p) + if p == c.planID then 1 else 0
    requires c.Replanned? ==> c.version == Current(s'.store, c.planID)
    ensures LogInv(s')
  {
    hide Current, LogNumbered, Commits, MaterialCommits;
    LogNumberedExtends(s, s', c);
    forall p ensures Current(s'.store, p) == Commits(s'.log, p)
      && MaterialCommits(s'.log, p) == if p in s'.store.plans then Current(s'.store, p) - 1 else 0
    {
      CommitsSnoc(s.log, c, p);
      if p == c.planID && c.Initial? {
        NoPlanNoVersion(s.store, p);
      }
    }
  }

  lemma CommitsSnoc(log: seq<Commit>, c: Commit, p: string)
    ensures Commits(log + [c], p) == Commits(log, p) + (if c.planID == p then 1 else 0)
    ensures MaterialCommits(log + [c], p)
         == MaterialCommits(log, p) + (if c.Replanned? && c.planID == p then 1 else 0)
  {
    assert (log + [c])[..|log|] == log;
  }

  lemma LogNumberedExtends(s: System, s': System, c: Commit)
    requires LogInv(s) && s'.log == s.log + [c]
    requires c.Initial? ==> c.planID !in s.store.plans
    requires c.Replanned? ==> c.version == Current(s.store, c.planID) + 1
    ensures LogNumbered(s'.log)
  {
    hide Current, MaterialCommits, Commits;
    assert s'.log[..|s.log|] == s.log;
    forall i | 0 <= i < |s'.log| && s'.log[i].Replanned?
      ensures s'.log[i].version == Commits(s'.log[..i], s'.log[i].planID) + 1
    {
      assert s'.log[..i] == s.log[..i];
    }
    forall i | 0 <= i < |s'.log| && s'.log[i].Initial? ensures Commits(s'.log[..i], s'.log[i].planID) == 0 {
      assert s'.log[..i] == s.log[..i];
      if i == |s.log| { NoPlanNoVersion(s.store, c.planID); }
    }
  }

  lemma NoPlanNoVersion(s: Store, p: string)
    requires p !in s.plans
    ensures Current(s, p) == 0
  {}

  lemma GenerateFacts(s: System, step: Step, s': System)
    requires Inv(s) && step.Generate? && s' == After(s, step)
    ensures StepFacts(s, step, s')
  {
    hide Contiguous, LogInv, Preserves, ProcessInv, Commits;
    GenerateStores(s.store, step.planID, step.goalID, step.moves);
    if s' == s {
      SameStore(s, s');
    } else {
      if step.planID !in s.store.plans {
        NoPlanNoVersion(s.store, step.planID);
      }
      LogExtends(s, s', Initial(step.planID));
    }
  }

  lemma CommitFacts(s: System, step: Step, s': System)
    requires Inv(s) && step.TryCommit? && Enabled(s, step) && s' == After(s, step)
    ensures StepFacts(s, step, s') && ProcessInv(s', step.pid)
  {
    assert ProcessInv(s, step.pid);
    hide Contiguous, LogInv, MarksInv, Commits, Preserves, StepFacts, AddVersion, Stored;
    VersionAppends(s.store, s.processes[step.pid].phase.candidate);
    if AddVersion(s.store, s.processes[step.pid].phase.candidate).Ok? {
      CommitLands(s, step, s');
    } else {
      LocalMove(s, step, s', step.pid, s'.processes[step.pid].phase);
    }
  }

  lemma CommitLands(s: System, step: Step, s': System)
    requires Inv(s) && step.TryCommit? && Enabled(s, step) && s' == After(s, step) && ProcessInv(s, step.pid)
    requires AddVersion(s.store, s.processes[step.pid].phase.candidate).Ok?
    ensures StepFacts(s, step, s') && ProcessInv(s', step.pid)
  {
    var v := s.processes[step.pid].phase.candidate;
    VersionAppends(s.store, v);
    assert v.planID in s.store.plans;
    hide Contiguous, LogInv, MarksInv, Commits, Preserves, StepFacts, AddVersion, ProcessInv, Stored;
    CommitGrows(s, s', Replanned(v.planID, step.pid, v.version), v.version);
    CommitSucceeds(s, step, s');
  }

  lemma CommitGrows(s: System, s': System, c: Commit, version: int)
    requires LogInv(s) && s'.log == s.log + [c] && Preserves(s.store, s'.store) && s.processes.Keys <= s'.processes.Keys
    requires s'.store.plans.Keys == s.store.plans.Keys && c.Replanned? && c.planID in s.store.plans
             && c.version == version
    requires Current(s.store, c.planID) == version - 1
    requires forall p :: Current(s'.store, p) == if p == c.planID then version else Current(s.store, p)
    ensures LogInv(s') && Grows(s, s')
  {
    hide Preserves, Current, LogInv;
    assert s'.log[..|s.log|] == s.log;
    assert s'.store.plans.Keys == s.store.plans.Keys + {c.planID};
    LogExtends(s, s', c);
  }

  lemma CommitSucceeds(s: System, step: Step, s': System)
    requires step.TryCommit? && Enabled(s, step) && ProcessInv(s, step.pid)
    requires Grows(s, s') && Contiguous(s'.store) && LogInv(s')
    requires var v := s.processes[step.pid].phase.candidate;
             && Stored(s'.store, v.planID, v.version)
             && s'.log == s.log + [Replanned(v.planID, step.pid, v.version)]
             && s'.processes
                == s.processes[step.pid := s.processes[step.pid].(phase := Marking(Applied, v.version, false))]
    ensures StepFacts(s, step, s') && ProcessInv(s', step.pid)
  {
    hide Contiguous, LogInv, Preserves, Commits, Current, Authored;
  }

  /** Moving a process to a phase that its own facts justify. */
  lemma LocalMove(s: System, step: Step, s': System, pid: nat, phase: Phase)
    requires Inv(s) && pid in s.processes && (HasApplied(s.processes[pid].phase) <==> HasApplied(phase))
    requires HasApplied(phase) ==> s.processes[pid].phase.version == phase.version
    requires s'.processes == s.processes[pid := s.processes[pid].(phase := phase)] && s'.log == s.log
    requires s'.store.plans == s.store.plans && s'.store.versions == s.store.versions
    requires !step.Generate? && !step.AddSignal? && step.pid == pid
    requires var p := s.processes[pid];
             p.began <= |s.log| && PhaseInv(s.store, p.planID, Commits(s.log[..p.began], p.planID), phase)
    ensures StepFacts(s, step, s') && ProcessInv(s', pid)
  {
    hide Contiguous, LogInv, Commits, Grows, PhaseInv, Authored;
    assert ProcessInv(s, pid);
    SameStore(s, s');
    PhaseSameStore(s.store, s'.store, s.processes[pid].planID,
      Commits(s.log[..s.processes[pid].began], s.processes[pid].planID), phase);
  }

  lemma PhaseSameStore(s: Store, s': Store, planID: string, base: nat, phase: Phase)
    requires s'.plans == s.plans && s'.versions == s.versions && PhaseInv(s, planID, base, phase)
    ensures PhaseInv(s', planID, base, phase)
  {}

  lemma LocalStep(s: System, step: Step, s': System)
    requires Inv(s) && Enabled(s, step) && s' == After(s, step)
    requires step.GoalMissing? || step.Read? || step.Decide? || step.MarkSignal?
    ensures StepFacts(s, step, s') && ProcessInv(s', step.pid)
  {
    hide Contiguous, LogInv, Commits, MarkFirst, StepFacts;
    assert ProcessInv(s, step.pid);
    if step.Read? {
      CurrentStored(s.store, s.processes[step.pid].planID);
    }
    LocalMove(s, step, s', step.pid, s'.processes[step.pid].phase);
  }

  lemma CurrentStored(s: Store, p: string)
    requires Contiguous(s)
    ensures match CurrentVersion(s, p)
            case Ok(v) => v.planID == p && v.version == Current(s, p) && Stored(s, p, v.version)
            case Err(_) => p !in s.plans
  {}

  lemma BeginStep(s: System, step: Step, s': System)
    requires Inv(s) && step.Begin? && Enabled(s, step) && s' == After(s, step)
    ensures StepFacts(s, step, s') && ProcessInv(s', step.pid)
  {
    SameStore(s, s');
    assert s.log[..|s.log|] == s.log;
    assert Current(s.store, step.planID) == Commits(s.log, step.planID);
  }

  lemma StepInv(s: System, step: Step)
    requires Inv(s) && Enabled(s, step)
    ensures Inv(After(s, step)) && Grows(s, After(s, step))
  {
    var s' := After(s, step);
    match step {
      case Generate(_, _, _) => GenerateFacts(s, step, s');
      case AddSignal(_) => SameStore(s, s');
      case Begin(_, _, _) => BeginStep(s, step, s');
      case TryCommit(_) => CommitFacts(s, step, s');
      case _ => LocalStep(s, step, s');
    }
    forall q | q in s'.processes ensures ProcessInv(s', q) {
      if q in s.processes && (step.Generate? || step.AddSignal? || q != step.pid) {
        OtherProcess(s, s', q);
      }
    }
    LogAuthors(s, step, s');
    MarksStep(s, step, s');
  }

  lemma LogAuthors(s: System, step: Step, s': System)
    requires StepFacts(s, step, s')
    requires forall i :: 0 <= i < |s.log| && s.log[i].Replanned? ==> s.log[i].author in s.processes
    ensures forall i :: 0 <= i < |s'.log| && s'.log[i].Replanned? ==> s'.log[i].author in s'.processes
  {
    hide Contiguous, LogInv, Preserves;
    forall i | 0 <= i < |s'.log| && s'.log[i].Replanned? ensures s'.log[i].author in s'.processes {
      if i < |s.log| {
        assert s'.log[i] == s'.log[..|s.log|][i];
      }
    }
  }

  lemma MarksStep(s: System, step: Step, s': System)
    requires Inv(s) && Enabled(s, step) && s' == After(s, step) && StepFacts(s, step, s')
    ensures MarksInv(s')
  {
    if step.MarkSignal? {
      assert ProcessInv(s, step.pid);
      MarkRecorded(s, step, s');
    } else {
      MarksKept(s, step, s');
    }
  }

  lemma MarksKept(s: System, step: Step, s': System)
    requires MarksInv(s) && Enabled(s, step) && s' == After(s, step) && Grows(s, s') && !step.MarkSignal?
    ensures MarksInv(s')
  {
    hide AddVersion, AddPlanWithVersion, CurrentVersion;
    assert s'.marks == s.marks;
    forall m | m in s.marks ensures m.author in s'.processes && s'.processes[m.author].phase.Done? {
      assert s.processes[m.author].phase.Done?;
    }
    hide After;
  }

  lemma MarkRecorded(s: System, step: Step, s': System)
    requires MarksInv(s) && Enabled(s, step) && step.MarkSignal? && s' == After(s, step) && Grows(s, s')
    requires ProcessInv(s, step.pid)
    ensures MarksInv(s')
  {
    hide MarkFirst, Commits, Authored;
    var p := s.processes[step.pid];
    var m := Mark(p.planID, p.signalID, step.pid, p.phase.status, p.phase.version);
    assert s'.processes[step.pid].phase.Done?;
    assert forall q :: q in s.processes && q != step.pid ==> s'.processes[q] == s.processes[q];
    assert s'.store.versions == s.store.versions && s'.log == s.log;
    assert s'.marks == s.marks || s'.marks == s.marks + [m];
    assert forall k :: k in s.marks ==> k.author != step.pid;
    forall i | 0 <= i < |s.marks| ensures s.marks[i].author != step.pid {
      assert s.marks[i] in s.marks;
    }
    hide After;
  }

  // ---------------------------------------------------------------- every run

  lemma {:induction false} RunInv(s: System, steps: seq<Step>)
    requires Inv(s) && RunFrom(s, steps).Some?
    ensures Inv(RunFrom(s, steps).value) && Preserves(s.store, RunFrom(s, steps).value.store)
  {
    if steps != [] {
      var front := steps[..|steps| - 1];
      RunInv(s, front);
      StepInv(RunFrom(s, front).value, steps[|steps| - 1]);
    }
  }

  lemma EmptyInv()
    ensures Inv(Empty())
  {}

  /** MAIN: in every reachable state, with any number of concurrent replans, each plan's versions are exactly
      1..CurrentVersion, one initial and one per material commit. */
  lemma VersionsContiguous(steps: seq<Step>, p: string)
    requires RunFrom(Empty(), steps).Some? && p in RunFrom(Empty(), steps).value.store.plans
    ensures var s := RunFrom(Empty(), steps).value;
            && p in s.store.versions
            && (forall n :: n in s.store.versions[p] <==> 1 <= n <= s.store.plans[p].currentVersion)
            && s.store.plans[p].currentVersion == 1 + MaterialCommits(s.log, p)
  {
    EmptyInv();
    RunInv(Empty(), steps);
  }

  /** MAIN: once stored, a version is the same after every continuation of the run. */
  lemma {:induction false} VersionsImmutable(steps: seq<Step>, more: seq<Step>, p: string, n: int)
    requires RunFrom(Empty(), steps).Some?
    requires var s := RunFrom(Empty(), steps).value; Stored(s.store, p, n) && RunFrom(s, more).Some?
    ensures var s := RunFrom(Empty(), steps).value;
            var s' := RunFrom(s, more).value;
            Stored(s'.store, p, n) && s'.store.versions[p][n] == s.store.versions[p][n]
  {
    EmptyInv();
    RunInv(Empty(), steps);
    RunInv(RunFrom(Empty(), steps).value, more);
  }

  /** MAIN: a mark "applied" or "unchanged" names a stored version, and an "applied" one the version its own replan
      committed. */
  lemma MarksNameStoredVersions(steps: seq<Step>, m: Mark)
    requires RunFrom(Empty(), steps).Some? && m in RunFrom(Empty(), steps).value.marks
    ensures var s := RunFrom(Empty(), steps).value;
            && (m.status == Applied || m.status == Unchanged ==> Stored(s.store, m.planID, m.version))
            && (m.status == Applied ==> Replanned(m.planID, m.author, m.version) in s.log)
  {
    EmptyInv();
    RunInv(Empty(), steps);
  }

  lemma {:induction false} CommitsGrow(log: seq<Commit>, i: nat, j: nat, p: string)
    requires i < j <= |log| && log[i].planID == p
    ensures Commits(log[..j], p) > Commits(log[..i], p)
  {
    assert log[..j][..j - 1] == log[..j - 1];
    if i < j - 1 {
      CommitsGrow(log, i, j - 1, p);
    }
  }

  lemma MarkedVersionsDiffer(s: System, i: nat, j: nat)
    requires MarksInv(s) && LogNumbered(s.log) && i < j < |s.marks|
    requires s.marks[i].status == s.marks[j].status == Applied && s.marks[i].planID == s.marks[j].planID
    ensures s.marks[i].version != s.marks[j].version
  {
    hide Commits, Stored;
    var a, b := s.marks[i], s.marks[j];
    assert a in s.marks && b in s.marks;
    var x :| 0 <= x < |s.log| && s.log[x] == Replanned(a.planID, a.author, a.version);
    var y :| 0 <= y < |s.log| && s.log[y] == Replanned(b.planID, b.author, b.version);
    assert a.author != b.author;
    if x < y {
      CommitsGrow(s.log, x, y, a.planID);
    } else {
      CommitsGrow(s.log, y, x, a.planID);
    }
  }

  /** MAIN: no two "applied" marks of one plan name the same version. */
  lemma AppliedMarksDistinct(steps: seq<Step>, i: nat, j: nat)
    requires RunFrom(Empty(), steps).Some?
    requires var marks := RunFrom(Empty(), steps).value.marks;
             i < j < |marks| && marks[i].status == marks[j].status == Applied && marks[i].planID == marks[j].planID
    ensures var marks := RunFrom(Empty(), steps).value.marks; marks[i].version != marks[j].version
  {
    EmptyInv();
    RunInv(Empty(), steps);
    var s := RunFrom(Empty(), steps).value;
    assert LogInv(s) && MarksInv(s);
    hide RunFrom, LogNumbered, MarksInv;
    MarkedVersionsDiffer(s, i, j);
  }

  lemma {:induction false} CommitsSince(log: seq<Commit>, k: nat, p: string, pid: nat)
    requires k <= |log|
    requires forall i :: 0 <= i < |log| && log[i].Replanned? ==> log[i].author != pid
    ensures Commits(log, p) == Commits(log[..k], p) + CommitsByOthers(log[k..], p, pid)
  {
    if k == |log| {
      assert log[..k] == log && log[k..] == [];
    } else {
      var n := |log| - 1;
      assert log[..n][..k] == log[..k] && log[..n][k..] == log[k..][..n - k];
      CommitsSince(log[..n], k, p, pid);
      assert log[k..][n - k] == log[n];
    }
  }

  /** MAIN: a replan gives up on conflicts only if at least three other versions of its plan were committed while it
      ran. */
  lemma ConflictNeedsThreeCommits(steps: seq<Step>, pid: nat)
    requires RunFrom(Empty(), steps).Some?
    requires var s := RunFrom(Empty(), steps).value;
             && pid in s.processes && (s.processes[pid].phase.Marking? || s.processes[pid].phase.Done?)
             && s.processes[pid].phase.conflict
    ensures var s := RunFrom(Empty(), steps).value;
            var p := s.processes[pid];
            p.began <= |s.log| && CommitsByOthers(s.log[p.began..], p.planID, pid) >= MAX_REPLAN_ATTEMPTS
  {
    EmptyInv();
    RunInv(Empty(), steps);
    var s := RunFrom(Empty(), steps).value;
    assert ProcessInv(s, pid);
    var p := s.processes[pid];
    CommitsSince(s.log, p.began, p.planID, pid);
    assert Current(s.store, p.planID) == Commits(s.log, p.planID);
  }
}
