/** Concurrent replans whose verdicts come from the evaluator, with a planner that is a function of the signal: what a
    re-run of a job can do to the versions. */
module JudgedReplans {
  import opened Domain
  import opened Wrappers
  import Materiality
  import MoveGraph
  import Outcomes = ReplanOutcomes
  import Versions = Versioning

  /** The planner proposes moves for a signal, or fails. */
  datatype Policy = Policy(slug: Materiality.Slug, delta: real, planner: string -> Option<seq<RankedMove>>)

  ghost predicate Same(pol: Policy, current: seq<RankedMove>, candidate: seq<RankedMove>) {
    Materiality.Immaterial(pol.slug, Materiality.Threshold(pol.delta), current, candidate)
  }

  /** What a replan for the signal would commit. */
  ghost function Proposed(pol: Policy, signalID: string): Option<seq<RankedMove>> {
    match pol.planner(signalID)
    case None => None
    case Some(moves) => Some(MoveGraph.Sanitize(moves))
  }

  /** The evaluator's verdict is on the signal's own proposal: material exactly when it finds it so. A gate or a failing
      planner may stop a replan at any time. */
  ghost predicate Judged(pol: Policy, s: Versions.System, step: Versions.Step) {
    step.Decide? && step.pid in s.processes && s.processes[step.pid].phase.Planning? ==>
      match step.verdict
      case Material(moves) =>
        && Proposed(pol, s.processes[step.pid].signalID) == Some(moves)
        && !Same(pol, s.processes[step.pid].phase.current.moves, moves)
      case Immaterial =>
        && Proposed(pol, s.processes[step.pid].signalID).Some?
        && Same(pol, s.processes[step.pid].phase.current.moves, Proposed(pol, s.processes[step.pid].signalID).value)
      case _ => true
  }

  ghost function Run(pol: Policy, steps: seq<Versions.Step>): Option<Versions.System> {
    if steps == [] then Some(Versions.Empty())
    else
      match Run(pol, steps[..|steps| - 1])
      case None => None
      case Some(s) =>
        if Versions.Enabled(s, steps[|steps| - 1]) && Judged(pol, s, steps[|steps| - 1])
        then Some(Versions.After(s, steps[|steps| - 1])) else None
  }

  // ---------------------------------------------------------------- invariants

  ghost function MovesOf(s: Versions.Store, p: string, n: int): seq<RankedMove>
    requires Versions.Stored(s, p, n)
  {
    s.versions[p][n].moves
  }

  /** Each version differs materially from the one before it. */
  ghost predicate Successive(pol: Policy, s: Versions.Store) {
    forall p, n :: n >= 2 && Versions.Stored(s, p, n) && Versions.Stored(s, p, n - 1) ==>
      !Same(pol, MovesOf(s, p, n - 1), MovesOf(s, p, n))
  }

  /** A committed version holds the proposal of its author's signal, and is never the first. */
  ghost predicate CommitInv(pol: Policy, s: Versions.System, c: Versions.Commit)
    requires c.Replanned?
  {
    && c.version >= 2 && Versions.Stored(s.store, c.planID, c.version) && c.author in s.processes
    && Proposed(pol, s.processes[c.author].signalID) == Some(MovesOf(s.store, c.planID, c.version))
  }

  ghost predicate PhaseInv(pol: Policy, s: Versions.Store, p: Versions.Process) {
    match p.phase
    case Planning(_, v) => Versions.Stored(s, p.planID, v.version) && s.versions[p.planID][v.version] == v
    case Committing(_, c) =>
      && c.planID == p.planID && Versions.Stored(s, p.planID, c.version - 1)
      && !Same(pol, MovesOf(s, p.planID, c.version - 1), c.moves) && Proposed(pol, p.signalID) == Some(c.moves)
    case _ => true
  }

  ghost predicate Inv(pol: Policy, s: Versions.System) {
    && Versions.Inv(s) && Successive(pol, s.store)
    && (forall c :: c in s.log && c.Replanned? ==> CommitInv(pol, s, c))
    && (forall pid :: pid in s.processes ==> PhaseInv(pol, s.store, s.processes[pid]))
  }

  // ---------------------------------------------------------------- one step

  /** The versions a step adds: none, the first of a new plan, or the one a process commits. */
  ghost predicate Adds(s: Versions.Store, s': Versions.Store, p: string, v: Versions.PlanVersion) {
    forall q, n :: Versions.Stored(s', q, n) ==>
      Versions.Stored(s, q, n) || (q == p && n == v.version && s'.versions[q][n] == v)
  }

  lemma StoreGrows(s: Versions.System, step: Versions.Step) returns (p: string, v: Versions.PlanVersion)
    requires Versions.Inv(s) && Versions.Enabled(s, step)
    ensures Adds(s.store, Versions.After(s, step).store, p, v)
    ensures step.TryCommit? ==> v == s.processes[step.pid].phase.candidate && p == v.planID
    ensures !step.TryCommit? ==> v.version == 1
  {
    if step.TryCommit? {
      v := s.processes[step.pid].phase.candidate;
      p := v.planID;
      hide Versions.Inv;
    } else if step.Generate? {
      p, v := step.planID, Versions.PlanVersion(step.planID, 1, step.moves);
      PlanGrows(s, step);
      hide Versions.Inv, Versions.After;
    } else {
      p, v := "", Versions.PlanVersion("", 1, []);
      SameVersions(s, step);
      hide Versions.Inv, Versions.After, Versions.Enabled;
    }
  }

  lemma SameVersions(s: Versions.System, step: Versions.Step)
    requires Versions.Enabled(s, step) && !step.Generate? && !step.TryCommit?
    ensures Versions.After(s, step).store.versions == s.store.versions
  {
    hide Versions.MarkFirst, Versions.CurrentVersion;
  }

  lemma PlanGrows(s: Versions.System, step: Versions.Step)
    requires step.Generate?
    ensures Adds(s.store, Versions.After(s, step).store, step.planID, Versions.PlanVersion(step.planID, 1, step.moves))
  {}

  lemma SuccessiveKept(pol: Policy, s: Versions.Store, s': Versions.Store, p: string, v: Versions.PlanVersion)
    requires Successive(pol, s) && Versions.Preserves(s, s') && Adds(s, s', p, v)
    requires v.version >= 2 ==>
               && Versions.Stored(s, p, v.version - 1)
               && !Same(pol, MovesOf(s, p, v.version - 1), v.moves)
    requires forall n ::
               Versions.Stored(s, p, n) && Versions.Stored(s', p, v.version) && !Versions.Stored(s, p, v.version) ==>
               n < v.version
    ensures Successive(pol, s')
  {
    hide Same;
    forall q, n | n >= 2 && Versions.Stored(s', q, n) && Versions.Stored(s', q, n - 1)
      ensures !Same(pol, MovesOf(s', q, n - 1), MovesOf(s', q, n))
    {
      if Versions.Stored(s, q, n) && Versions.Stored(s, q, n - 1) {
        assert !Same(pol, MovesOf(s, q, n - 1), MovesOf(s, q, n));
      }
    }
  }

  /** Commits append at the end. */
  lemma NewestVersion(s: Versions.System, p: string, n: int)
    requires Versions.Inv(s) && Versions.Stored(s.store, p, n)
    ensures p in s.store.plans && 1 <= n <= Versions.Current(s.store, p)
    ensures forall k :: 1 <= k <= Versions.Current(s.store, p) ==> Versions.Stored(s.store, p, k)
  {
    hide Versions.LogInv, Versions.MarksInv, Versions.ProcessInv;
    assert Versions.Contiguous(s.store);
  }

  lemma SuccessiveStep(pol: Policy, s: Versions.System, step: Versions.Step)
    requires Inv(pol, s) && Versions.Enabled(s, step)
    ensures Successive(pol, Versions.After(s, step).store)
  {
    hide Versions.Inv, Versions.After, Versions.Preserves, Adds, Successive, Same, CommitInv, PhaseInv, Proposed;
    var p, v := StoreGrows(s, step);
    StorePreserved(s, step);
    if step.TryCommit? {
      CandidateFacts(pol, s, step.pid);
    }
    OnlyNewest(s, p, v.version);
    SuccessiveKept(pol, s.store, Versions.After(s, step).store, p, v);
  }

  lemma StorePreserved(s: Versions.System, step: Versions.Step)
    requires Versions.Inv(s) && Versions.Enabled(s, step)
    ensures Versions.Preserves(s.store, Versions.After(s, step).store)
  {
    hide Versions.Inv, Versions.After, Versions.Enabled, Versions.Preserves;
    Versions.StepInv(s, step);
  }

  /** What a process is about to commit follows a stored version, differs from it, and is its signal's proposal. */
  lemma CandidateFacts(pol: Policy, s: Versions.System, pid: nat)
    requires Inv(pol, s) && pid in s.processes && s.processes[pid].phase.Committing?
    ensures var v := s.processes[pid].phase.candidate;
            && v.version >= 2 && Versions.Stored(s.store, v.planID, v.version - 1)
            && !Same(pol, MovesOf(s.store, v.planID, v.version - 1), v.moves)
            && Proposed(pol, s.processes[pid].signalID) == Some(v.moves)
  {
    hide Same, Proposed, Successive, CommitInv, Versions.LogInv, Versions.MarksInv, Versions.Contiguous,
         Versions.Commits;
    assert PhaseInv(pol, s.store, s.processes[pid]);
    assert Versions.ProcessInv(s, pid);
    hide PhaseInv, Versions.PhaseInv, Versions.Inv;
    NewestVersion(s, s.processes[pid].phase.candidate.planID, s.processes[pid].phase.candidate.version - 1);
  }

  lemma OnlyNewest(s: Versions.System, p: string, version: int)
    requires Versions.Inv(s) && version >= 1
    ensures forall n :: Versions.Stored(s.store, p, n) && !Versions.Stored(s.store, p, version) ==> n < version
  {
    hide Versions.Inv;
    forall n | Versions.Stored(s.store, p, n) && !Versions.Stored(s.store, p, version) ensures n < version {
      NewestVersion(s, p, n);
    }
  }

  lemma PhaseKept(pol: Policy, s: Versions.Store, s': Versions.Store, p: Versions.Process)
    requires Versions.Preserves(s, s') && PhaseInv(pol, s, p)
    ensures PhaseInv(pol, s', p)
  {
    hide Same, Proposed;
  }

  lemma CommitKept(pol: Policy, s: Versions.System, s': Versions.System, c: Versions.Commit)
    requires c.Replanned? && CommitInv(pol, s, c) && Versions.Preserves(s.store, s'.store)
    requires c.author in s'.processes && s'.processes[c.author].signalID == s.processes[c.author].signalID
    ensures CommitInv(pol, s', c)
  {
    hide Proposed;
  }

  /** Processes keep their plan and signal, and the stepping one keeps its invariant. */
  lemma ProcessesStep(pol: Policy, s: Versions.System, step: Versions.Step, pid: nat)
    requires Inv(pol, s) && Versions.Enabled(s, step) && Judged(pol, s, step)
             && pid in Versions.After(s, step).processes
    ensures pid in s.processes ==>
              Versions.After(s, step).processes[pid].signalID == s.processes[pid].signalID
    ensures PhaseInv(pol, Versions.After(s, step).store, Versions.After(s, step).processes[pid])
  {
    hide Versions.Inv, Versions.After, Versions.Preserves, Versions.Enabled, Judged, CommitInv, PhaseInv, Successive;
    var s' := Versions.After(s, step);
    StorePreserved(s, step);
    if pid in s.processes && s'.processes[pid] == s.processes[pid] {
      PhaseKept(pol, s.store, s'.store, s.processes[pid]);
    } else {
      MovedProcess(pol, s, step, pid);
    }
  }

  lemma MovedProcess(pol: Policy, s: Versions.System, step: Versions.Step, pid: nat)
    requires Inv(pol, s) && Versions.Enabled(s, step) && Judged(pol, s, step)
             && pid in Versions.After(s, step).processes
    requires pid in s.processes ==> Versions.After(s, step).processes[pid] != s.processes[pid]
    ensures pid in s.processes ==>
              Versions.After(s, step).processes[pid].signalID == s.processes[pid].signalID
    ensures PhaseInv(pol, Versions.After(s, step).store, Versions.After(s, step).processes[pid])
  {
    if step.Read? {
      hide Inv, PhaseInv, Versions.After;
      ReadProcess(pol, s, step.pid);
    } else if step.Decide? {
      hide Inv, PhaseInv, Versions.After;
      DecidedProcess(pol, s, step.pid, step.verdict);
    } else {
      hide Inv, PhaseInv, Versions.After;
      RestingProcess(pol, s, step, pid);
    }
  }

  /** The other steps leave a process that neither plans nor commits. */
  lemma RestingProcess(pol: Policy, s: Versions.System, step: Versions.Step, pid: nat)
    requires Versions.Enabled(s, step) && !step.Read? && !step.Decide? && pid in Versions.After(s, step).processes
    requires pid in s.processes ==> Versions.After(s, step).processes[pid] != s.processes[pid]
    ensures pid in s.processes ==> Versions.After(s, step).processes[pid].signalID == s.processes[pid].signalID
    ensures PhaseInv(pol, Versions.After(s, step).store, Versions.After(s, step).processes[pid])
  {
    hide Same, Proposed, MovesOf, Versions.AddVersion, Versions.AddPlanWithVersion, Versions.MarkFirst;
  }

  lemma ReadProcess(pol: Policy, s: Versions.System, pid: nat)
    requires Inv(pol, s) && Versions.Enabled(s, Versions.Read(pid))
    ensures var s' := Versions.After(s, Versions.Read(pid));
            && PhaseInv(pol, s'.store, s'.processes[pid]) && s'.processes[pid].signalID == s.processes[pid].signalID
            && forall q :: q in s'.processes ==> q in s.processes && (q != pid ==> s'.processes[q] == s.processes[q])
  {
    hide Same, Proposed, Versions.LogInv, Versions.MarksInv, Versions.ProcessInv;
    Versions.CurrentStored(s.store, s.processes[pid].planID);
    hide Versions.Inv, Versions.Contiguous;
  }

  lemma DecidedProcess(pol: Policy, s: Versions.System, pid: nat, verdict: Versions.Verdict)
    requires Inv(pol, s) && Versions.Enabled(s, Versions.Decide(pid, verdict))
             && Judged(pol, s, Versions.Decide(pid, verdict))
    ensures var s' := Versions.After(s, Versions.Decide(pid, verdict));
            && PhaseInv(pol, s'.store, s'.processes[pid]) && s'.processes[pid].signalID == s.processes[pid].signalID
            && forall q :: q in s'.processes ==> q in s.processes && (q != pid ==> s'.processes[q] == s.processes[q])
  {
    hide Inv, Same, Proposed;
    PlanningFacts(pol, s, pid);
  }

  /** A planning process holds a stored version of its plan. */
  lemma PlanningFacts(pol: Policy, s: Versions.System, pid: nat)
    requires Inv(pol, s) && pid in s.processes && s.processes[pid].phase.Planning?
    ensures var v := s.processes[pid].phase.current;
            && v.planID == s.processes[pid].planID && Versions.Stored(s.store, v.planID, v.version)
            && MovesOf(s.store, v.planID, v.version) == v.moves
  {
    hide Same, Proposed, Successive, CommitInv, Versions.LogInv, Versions.MarksInv, Versions.Contiguous,
         Versions.Commits;
    assert PhaseInv(pol, s.store, s.processes[pid]);
    assert Versions.ProcessInv(s, pid);
  }

  lemma ProcessesKept(s: Versions.System, step: Versions.Step)
    requires Versions.Enabled(s, step)
    ensures s.processes.Keys <= Versions.After(s, step).processes.Keys
  {
    hide Versions.AddVersion, Versions.AddPlanWithVersion, Versions.MarkFirst, Versions.CurrentVersion;
  }

  lemma CommitsStep(pol: Policy, s: Versions.System, step: Versions.Step, c: Versions.Commit)
    requires Inv(pol, s) && Versions.Enabled(s, step) && Judged(pol, s, step)
    requires c in Versions.After(s, step).log && c.Replanned?
    ensures CommitInv(pol, Versions.After(s, step), c)
  {
    hide Versions.Inv, Versions.Enabled, Versions.After, Judged, Proposed, Versions.Preserves, PhaseInv, Successive;
    var s' := Versions.After(s, step);
    if c in s.log {
      assert CommitInv(pol, s, c);
      StorePreserved(s, step);
      ProcessesKept(s, step);
      ProcessesStep(pol, s, step, c.author);
      CommitKept(pol, s, s', c);
    } else {
      NewCommit(pol, s, step, c);
    }
  }

  lemma NewCommit(pol: Policy, s: Versions.System, step: Versions.Step, c: Versions.Commit)
    requires Inv(pol, s) && Versions.Enabled(s, step)
    requires c in Versions.After(s, step).log && c !in s.log && c.Replanned?
    ensures CommitInv(pol, Versions.After(s, step), c)
  {
    hide Inv, Same, Proposed, Versions.AddPlanWithVersion, Versions.MarkFirst, Versions.CurrentVersion;
    if step.TryCommit? {
      CandidateFacts(pol, s, step.pid);
    }
  }

  lemma StepInv(pol: Policy, s: Versions.System, step: Versions.Step)
    requires Inv(pol, s) && Versions.Enabled(s, step) && Judged(pol, s, step)
    ensures Inv(pol, Versions.After(s, step))
  {
    Versions.StepInv(s, step);
    SuccessiveStep(pol, s, step);
    hide Versions.Inv, Versions.After, Versions.Grows, Successive, CommitInv, PhaseInv, Versions.Enabled, Judged;
    var s' := Versions.After(s, step);
    forall c | c in s'.log && c.Replanned? ensures CommitInv(pol, s', c) {
      CommitsStep(pol, s, step, c);
    }
    forall pid | pid in s'.processes ensures PhaseInv(pol, s'.store, s'.processes[pid]) {
      ProcessesStep(pol, s, step, pid);
    }
  }

  lemma {:induction false} RunInv(pol: Policy, steps: seq<Versions.Step>)
    requires Run(pol, steps).Some?
    ensures Inv(pol, Run(pol, steps).value)
  {
    if steps == [] {
      Versions.EmptyInv();
    } else {
      hide Inv, Versions.After, Versions.Enabled, Judged;
      RunInv(pol, steps[..|steps| - 1]);
      StepInv(pol, Run(pol, steps[..|steps| - 1]).value, steps[|steps| - 1]);
    }
  }

  // ---------------------------------------------------------------- what re-running a job can do

  /** MAIN: in every run consecutive versions of a plan differ materially. */
  lemma VersionsDiffer(pol: Policy, steps: seq<Versions.Step>, p: string, n: int)
    requires Run(pol, steps).Some?
    requires var s := Run(pol, steps).value; n >= 2 && Versions.Stored(s.store, p, n)
    ensures var s := Run(pol, steps).value;
            && Versions.Stored(s.store, p, n - 1)
            && !Same(pol, MovesOf(s.store, p, n - 1), MovesOf(s.store, p, n))
  {
    RunInv(pol, steps);
    hide Run, Same;
    NewestVersion(Run(pol, steps).value, p, n);
  }

  /** The last commit to the plan before position j. */
  lemma {:induction false} LastCommit(log: seq<Versions.Commit>, i: nat, j: nat, p: string) returns (k: nat)
    requires i < j <= |log| && log[i].planID == p
    ensures i <= k < j && log[k].planID == p
    ensures Versions.Commits(log[..j], p) == Versions.Commits(log[..k], p) + 1
  {
    assert log[..j][..j - 1] == log[..j - 1];
    if log[j - 1].planID == p {
      k := j - 1;
    } else {
      k := LastCommit(log, i, j - 1, p);
    }
  }

  ghost predicate CommittedFor(s: Versions.System, k: int, p: string, signalID: string) {
    && 0 <= k < |s.log| && s.log[k].Replanned? && s.log[k].planID == p
    && s.log[k].author in s.processes && s.processes[s.log[k].author].signalID == signalID
  }

  /** A proposal that agrees with itself is never material to a plan that already holds it. */
  lemma ProposalIsSame(pol: Policy, signalID: string)
    requires Proposed(pol, signalID).Some?
    ensures var moves := Proposed(pol, signalID).value;
            Same(pol, moves, moves) <==> moves != [] && Materiality.SelfConsistent(pol.slug, moves)
  {
    var moves := pol.planner(signalID).value;
    MoveGraph.SanitizeCorrect(moves);
    hide MoveGraph.Sanitize, Materiality.SelfConsistent, Materiality.Immaterial;
    Materiality.RerunCreatesNoVersionIff(pol.slug, Materiality.Threshold(pol.delta), MoveGraph.Sanitize(moves));
  }

  lemma LogIsNumbered(pol: Policy, s: Versions.System)
    requires Inv(pol, s)
    ensures Versions.LogNumbered(s.log)
  {
    hide Successive, CommitInv, PhaseInv, Versions.Contiguous, Versions.ProcessInv, Versions.MarksInv;
  }

  lemma NotInitial(log: seq<Versions.Commit>, i: nat, k: nat, p: string)
    requires i <= k < |log| && log[i].planID == p && log[k].planID == p && log[i].Replanned?
             && Versions.LogNumbered(log)
    ensures log[k].Replanned?
  {
    if i < k && log[k].Initial? {
      Versions.CommitsGrow(log, i, k, p);
    }
  }

  /** The commit just before a replan's in the log of its plan wrote the version it differs from. */
  lemma DiffersFromLast(pol: Policy, s: Versions.System, k: nat, j: nat, p: string)
    requires Inv(pol, s) && k < j < |s.log| && s.log[k].Replanned? && s.log[j].Replanned?
    requires s.log[k].planID == p && s.log[j].planID == p
    requires Versions.Commits(s.log[..j], p) == Versions.Commits(s.log[..k], p) + 1
    ensures CommitInv(pol, s, s.log[k]) && CommitInv(pol, s, s.log[j])
    ensures !Same(pol, MovesOf(s.store, p, s.log[k].version), MovesOf(s.store, p, s.log[j].version))
  {
    hide Same, Proposed, PhaseInv, Versions.Contiguous, Versions.MarksInv, Versions.ProcessInv;
    assert Versions.LogNumbered(s.log);
    hide Versions.Inv;
    assert s.log[k] in s.log && s.log[j] in s.log;
    assert CommitInv(pol, s, s.log[k]) && CommitInv(pol, s, s.log[j]);
    assert s.log[j].version == s.log[k].version + 1 >= 2;
  }

  /** MAIN: a signal whose sanitised proposal has moves, those sharing a key agreeing in structure, is committed to a
      plan twice only if another signal was committed to the plan in between. */
  lemma RecommitNeedsAnother(pol: Policy, steps: seq<Versions.Step>, i: nat, j: nat, p: string, signalID: string)
    requires Run(pol, steps).Some? && i < j
    requires CommittedFor(Run(pol, steps).value, i, p, signalID) && CommittedFor(Run(pol, steps).value, j, p, signalID)
    requires Proposed(pol, signalID).Some? ==>
               && Proposed(pol, signalID).value != []
               && Materiality.SelfConsistent(pol.slug, Proposed(pol, signalID).value)
    ensures exists k, other :: i < k < j && other != signalID && CommittedFor(Run(pol, steps).value, k, p, other)
  {
    hide Run, Same, Proposed, Materiality.SelfConsistent, Inv, Versions.LogNumbered, Versions.Commits;
    RunInv(pol, steps);
    var s := Run(pol, steps).value;
    LogIsNumbered(pol, s);
    var k := LastCommit(s.log, i, j, p);
    NotInitial(s.log, i, k, p);
    DiffersFromLast(pol, s, k, j, p);
    var other := s.processes[s.log[k].author].signalID;
    assert CommittedFor(s, k, p, other);
    if Proposed(pol, signalID).Some? {
      ProposalIsSame(pol, signalID);
    }
  }

  // ---------------------------------------------------------------- what a signal's status says about its proposal

  lemma {:induction false} JudgedRunIsRun(pol: Policy, steps: seq<Versions.Step>)
    requires Run(pol, steps).Some?
    ensures Versions.RunFrom(Versions.Empty(), steps) == Run(pol, steps)
  {
    if steps != [] {
      hide Versions.After, Versions.Enabled, Judged;
      JudgedRunIsRun(pol, steps[..|steps| - 1]);
    }
  }

  /** The version a process read is stored, and its signal's proposal is immaterial to it. */
  ghost predicate FoundImmaterial(pol: Policy, s: Versions.System, pid: nat, version: int) {
    && pid in s.processes && Versions.Stored(s.store, s.processes[pid].planID, version)
    && Proposed(pol, s.processes[pid].signalID).Some?
    && Same(pol, MovesOf(s.store, s.processes[pid].planID, version), Proposed(pol, s.processes[pid].signalID).value)
  }

  ghost predicate EndsImmaterial(t: seq<Outcomes.Event>, version: int) {
    |t| >= 2 && t[|t| - 1] == Outcomes.Judged(Versions.Immaterial) && t[|t| - 2] == Outcomes.Found(version)
  }

  lemma ProcessKept(s: Versions.System, step: Versions.Step, pid: nat)
    requires Versions.Enabled(s, step) && pid in s.processes
    ensures pid in Versions.After(s, step).processes
    ensures Versions.After(s, step).processes[pid].planID == s.processes[pid].planID
    ensures Versions.After(s, step).processes[pid].signalID == s.processes[pid].signalID
  {
    hide Versions.AddVersion, Versions.AddPlanWithVersion, Versions.MarkFirst, Versions.CurrentVersion;
  }

  lemma FoundImmaterialKept(pol: Policy, s: Versions.System, step: Versions.Step, pid: nat, version: int)
    requires Versions.Inv(s) && Versions.Enabled(s, step) && FoundImmaterial(pol, s, pid, version)
    ensures FoundImmaterial(pol, Versions.After(s, step), pid, version)
  {
    hide Versions.Inv, Versions.After, Versions.Enabled, Same, Proposed;
    StorePreserved(s, step);
    ProcessKept(s, step, pid);
  }

  lemma JudgedImmaterial(pol: Policy, s: Versions.System, pid: nat, t: seq<Outcomes.Event>, version: int)
    requires Inv(pol, s) && Versions.Enabled(s, Versions.Decide(pid, Versions.Immaterial))
    requires Judged(pol, s, Versions.Decide(pid, Versions.Immaterial))
    requires Outcomes.Explains(t, s.processes[pid].phase) && t != [] && t[|t| - 1] == Outcomes.Found(version)
    ensures FoundImmaterial(pol, s, pid, version)
  {
    hide Inv, Same, Proposed;
    PlanningFacts(pol, s, pid);
  }

  lemma ToldImmaterial(s: Versions.System, step: Versions.Step, pid: nat)
    requires Versions.Enabled(s, step) && Outcomes.Judged(Versions.Immaterial) in Outcomes.Told(s, step, pid)
    ensures step == Versions.Decide(pid, Versions.Immaterial)
  {
    hide Versions.AddVersion, Versions.CurrentVersion;
  }

  lemma ImmaterialStep(pol: Policy, s: Versions.System, step: Versions.Step, pid: nat, t: seq<Outcomes.Event>,
                       version: int)
    requires Inv(pol, s) && Versions.Enabled(s, step) && Judged(pol, s, step)
    requires pid in s.processes ==> Outcomes.Explains(t, s.processes[pid].phase)
    requires EndsImmaterial(t, version) ==> FoundImmaterial(pol, s, pid, version)
    requires EndsImmaterial(t + Outcomes.Told(s, step, pid), version)
    ensures FoundImmaterial(pol, Versions.After(s, step), pid, version)
  {
    hide Inv, Versions.After, Versions.Enabled, Judged, Outcomes.Told, Outcomes.Explains, FoundImmaterial,
         EndsImmaterial;
    InvIsVersionsInv(pol, s);
    Outcomes.ToldAtMostOne(s, step, pid);
    var told := Outcomes.Told(s, step, pid);
    if told == [] {
      assert t + told == t;
    } else {
      var e := told[0];
      assert told == [e];
      EndsSnoc(t, e, version);
      ToldImmaterial(s, step, pid);
      JudgedImmaterial(pol, s, pid, t, version);
    }
    FoundImmaterialKept(pol, s, step, pid, version);
  }

  lemma EndsSnoc(t: seq<Outcomes.Event>, e: Outcomes.Event, version: int)
    ensures EndsImmaterial(t + [e], version) <==>
              e == Outcomes.Judged(Versions.Immaterial) && t != [] && t[|t| - 1] == Outcomes.Found(version)
  {}

  lemma {:induction false} ImmaterialToVersionRead(pol: Policy, steps: seq<Versions.Step>, pid: nat, version: int)
    requires Run(pol, steps).Some? && EndsImmaterial(Outcomes.Trace(steps, pid), version)
    ensures FoundImmaterial(pol, Run(pol, steps).value, pid, version)
  {
    hide Inv, Versions.After, Versions.Enabled, Judged, Outcomes.Told, Outcomes.Explains, FoundImmaterial;
    var front, last := steps[..|steps| - 1], steps[|steps| - 1];
    JudgedRunIsRun(pol, front);
    RunInv(pol, front);
    Outcomes.TraceExplains(front, pid);
    if EndsImmaterial(Outcomes.Trace(front, pid), version) {
      ImmaterialToVersionRead(pol, front, pid, version);
    }
    hide EndsImmaterial;
    ImmaterialStep(pol, Run(pol, front).value, last, pid, Outcomes.Trace(front, pid), version);
  }

  lemma InvIsVersionsInv(pol: Policy, s: Versions.System)
    requires Inv(pol, s)
    ensures Versions.Inv(s)
  {
    hide Versions.Inv;
  }

  lemma AppliedDiffers(pol: Policy, s: Versions.System, pid: nat)
    requires Inv(pol, s) && pid in s.processes && Versions.HasApplied(s.processes[pid].phase)
    ensures var p := s.processes[pid];
            && p.phase.version >= 2 && Versions.Stored(s.store, p.planID, p.phase.version)
            && Proposed(pol, p.signalID) == Some(MovesOf(s.store, p.planID, p.phase.version))
  {
    hide Same, Proposed, Successive, PhaseInv, Versions.LogInv, Versions.MarksInv, Versions.Contiguous;
    assert Versions.ProcessInv(s, pid);
    assert CommitInv(pol, s, Versions.Replanned(s.processes[pid].planID, pid, s.processes[pid].phase.version));
  }

  /** MAIN: a replan that the evaluator let end ends "unchanged" exactly if its signal's sanitised proposal is
      immaterial to the version it read last, and "applied" exactly if it is not; the version it wrote then holds that
      proposal. */
  lemma UnchangedIff(pol: Policy, steps: seq<Versions.Step>, pid: nat)
    requires Run(pol, steps).Some? && pid in Run(pol, steps).value.processes
    requires var phase := Run(pol, steps).value.processes[pid].phase; phase.Marking? || phase.Done?
    ensures var s, t := Run(pol, steps).value, Outcomes.Trace(steps, pid);
            var p := s.processes[pid];
            && Outcomes.Ends(t, p.phase.status, p.phase.version, p.phase.conflict)
            && (p.phase.status == Versions.Unchanged && t[|t| - 1] != Outcomes.Judged(Versions.Gated) ==>
                  && Versions.Stored(s.store, p.planID, p.phase.version) && Proposed(pol, p.signalID).Some?
                  && Same(pol, MovesOf(s.store, p.planID, p.phase.version), Proposed(pol, p.signalID).value))
            && (p.phase.status == Versions.Applied ==>
                  && Versions.Stored(s.store, p.planID, p.phase.version - 1)
                  && Versions.Stored(s.store, p.planID, p.phase.version)
                  && Proposed(pol, p.signalID) == Some(MovesOf(s.store, p.planID, p.phase.version))
                  && !Same(pol, MovesOf(s.store, p.planID, p.phase.version - 1), Proposed(pol, p.signalID).value))
  {
    hide Run, Same, Proposed, Inv, Versions.RunFrom;
    JudgedRunIsRun(pol, steps);
    Outcomes.StatusIff(steps, pid);
    RunInv(pol, steps);
    var s, t := Run(pol, steps).value, Outcomes.Trace(steps, pid);
    var p := s.processes[pid];
    if p.phase.status == Versions.Unchanged && t[|t| - 1] != Outcomes.Judged(Versions.Gated) {
      ImmaterialToVersionRead(pol, steps, pid, p.phase.version);
    }
    if p.phase.status == Versions.Applied {
      AppliedDiffers(pol, s, pid);
      VersionsDiffer(pol, steps, p.planID, p.phase.version);
    }
  }

  // ---------------------------------------------------------------- when a version is written twice

  lemma RunSnoc(pol: Policy, steps: seq<Versions.Step>, step: Versions.Step)
    requires Run(pol, steps).Some?
    requires Versions.Enabled(Run(pol, steps).value, step) && Judged(pol, Run(pol, steps).value, step)
    ensures Run(pol, steps + [step]) == Some(Versions.After(Run(pol, steps).value, step))
  {
    hide Versions.After, Versions.Enabled, Judged;
    assert (steps + [step])[..|steps + [step]| - 1] == steps;
  }

  /** A replan's first three steps, taken with nothing in between. */
  lemma PlannedAlone(pol: Policy, steps: seq<Versions.Step>, p: string, signalID: string, pid: nat,
                     v: Versions.PlanVersion)
    returns (longer: seq<Versions.Step>)
    requires Run(pol, steps).Some? && pid !in Run(pol, steps).value.processes
    requires Versions.CurrentVersion(Run(pol, steps).value.store, p) == Versions.Ok(v)
    requires Proposed(pol, signalID).Some? && !Same(pol, v.moves, Proposed(pol, signalID).value)
    ensures var s := Run(pol, steps).value;
            var candidate := Versions.PlanVersion(v.planID, v.version + 1, Proposed(pol, signalID).value);
            var planned := Versions.Process(p, signalID, Versions.Committing(0, candidate), |s.log|);
            Run(pol, longer) == Some(s.(processes := s.processes[pid := planned]))
  {
    hide Run, Same, Proposed, Versions.CurrentVersion;
    var s := Run(pol, steps).value;
    var begin, decide := Versions.Begin(pid, p, signalID),
      Versions.Decide(pid, Versions.Material(Proposed(pol, signalID).value));
    RunSnoc(pol, steps, begin);
    RunSnoc(pol, steps + [begin], Versions.Read(pid));
    longer := steps + [begin] + [Versions.Read(pid)];
    RunSnoc(pol, longer, decide);
    longer := longer + [decide];
    var s' := Run(pol, longer).value;
    assert s'.processes == s.processes[pid := s'.processes[pid]];
  }

  /** Version n of the plan was committed for the signal. */
  ghost predicate WrittenFor(s: Versions.System, p: string, n: int, signalID: string) {
    exists pid :: pid in s.processes && Versions.Replanned(p, pid, n) in s.log && s.processes[pid].signalID == signalID
  }

  /** The store accepts the number after the current one. */
  lemma NextIsAdded(s: Versions.Store, p: string, v: Versions.PlanVersion, next: Versions.PlanVersion)
    requires Versions.Contiguous(s) && Versions.CurrentVersion(s, p) == Versions.Ok(v)
    requires next.planID == p && next.version == v.version + 1
    ensures Versions.AddVersion(s, next).Ok?
    ensures Versions.CurrentVersion(Versions.AddVersion(s, next).value, p) == Versions.Ok(next)
  {}

  lemma CommitWrites(s: Versions.System, pid: nat, p: string, v: Versions.PlanVersion, next: Versions.PlanVersion)
    requires Versions.Contiguous(s.store) && Versions.CurrentVersion(s.store, p) == Versions.Ok(v)
    requires next.planID == p && next.version == v.version + 1
    requires pid in s.processes && s.processes[pid].phase == Versions.Committing(0, next)
    ensures var s' := Versions.After(s, Versions.TryCommit(pid));
            && Versions.CurrentVersion(s'.store, p) == Versions.Ok(next) && s'.processes.Keys == s.processes.Keys
            && WrittenFor(s', p, next.version, s.processes[pid].signalID)
            && forall n, signalID :: WrittenFor(s, p, n, signalID) ==> WrittenFor(s', p, n, signalID)
  {
    NextIsAdded(s.store, p, v, next);
    hide Versions.Contiguous, Versions.AddVersion, Versions.CurrentVersion;
    var s' := Versions.After(s, Versions.TryCommit(pid));
    assert s'.log == s.log + [Versions.Replanned(p, pid, next.version)];
    assert forall q :: q in s.processes ==> q in s'.processes && s'.processes[q].signalID == s.processes[q].signalID;
    assert Versions.Replanned(p, pid, next.version) in s'.log;
    hide Versions.After;
    forall n, signalID | WrittenFor(s, p, n, signalID) ensures WrittenFor(s', p, n, signalID) {
      var q :| q in s.processes && Versions.Replanned(p, q, n) in s.log && s.processes[q].signalID == signalID;
      assert Versions.Replanned(p, q, n) in s'.log;
    }
  }

  lemma BeginWrites(s: Versions.System, s': Versions.System, p: string, pid: nat)
    requires pid !in s.processes && s'.log == s.log && pid in s'.processes
    requires s'.processes == s.processes[pid := s'.processes[pid]]
    ensures forall n, signalID :: WrittenFor(s, p, n, signalID) ==> WrittenFor(s', p, n, signalID)
  {}

  lemma CurrentOf(pol: Policy, s: Versions.System, p: string, v: Versions.PlanVersion)
    requires Inv(pol, s) && Versions.CurrentVersion(s.store, p) == Versions.Ok(v)
    ensures Versions.Contiguous(s.store) && v.planID == p
  {
    Versions.CurrentStored(s.store, p);
  }

  /** A replan that runs alone commits a proposal that differs from the current version. */
  lemma CommitsAlone(pol: Policy, steps: seq<Versions.Step>, p: string, signalID: string, pid: nat,
                     v: Versions.PlanVersion)
    returns (longer: seq<Versions.Step>, next: Versions.PlanVersion)
    requires Run(pol, steps).Some? && pid !in Run(pol, steps).value.processes
    requires Versions.CurrentVersion(Run(pol, steps).value.store, p) == Versions.Ok(v)
    requires Proposed(pol, signalID).Some? && !Same(pol, v.moves, Proposed(pol, signalID).value)
    ensures next.moves == Proposed(pol, signalID).value && next.version == v.version + 1
    ensures Run(pol, longer).Some?
    ensures var s, s' := Run(pol, steps).value, Run(pol, longer).value;
            && Versions.CurrentVersion(s'.store, p) == Versions.Ok(next)
            && s'.processes.Keys == s.processes.Keys + {pid}
            && WrittenFor(s', p, next.version, signalID)
            && forall n, other :: WrittenFor(s, p, n, other) ==> WrittenFor(s', p, n, other)
  {
    hide Run, Same, Proposed, Inv, Versions.Contiguous, Versions.After, Versions.CurrentVersion, WrittenFor;
    longer := PlannedAlone(pol, steps, p, signalID, pid, v);
    RunInv(pol, steps);
    var s, m := Run(pol, steps).value, Run(pol, longer).value;
    CurrentOf(pol, s, p, v);
    next := Versions.PlanVersion(p, v.version + 1, Proposed(pol, signalID).value);
    BeginWrites(s, m, p, pid);
    CommitWrites(m, pid, p, v, next);
    RunSnoc(pol, longer, Versions.TryCommit(pid));
    longer := longer + [Versions.TryCommit(pid)];
  }

  /** Versions n, n + 1 and n + 2 were committed for the first signal, the second, and the first again. */
  ghost predicate Alternates(pol: Policy, steps: seq<Versions.Step>, p: string, n: int, first: string, second: string) {
    && Run(pol, steps).Some?
    && WrittenFor(Run(pol, steps).value, p, n, first)
    && WrittenFor(Run(pol, steps).value, p, n + 1, second)
    && WrittenFor(Run(pol, steps).value, p, n + 2, first)
  }

  /** Two versions of the plan hold the same moves. */
  ghost predicate Repeats(pol: Policy, steps: seq<Versions.Step>, p: string, n: int, m: int)
    requires Run(pol, steps).Some?
  {
    var s := Run(pol, steps).value.store;
    Versions.Stored(s, p, n) && Versions.Stored(s, p, m) && MovesOf(s, p, n) == MovesOf(s, p, m)
  }

  lemma WrittenIsProposed(pol: Policy, s: Versions.System, p: string, n: int, signalID: string)
    requires Inv(pol, s) && WrittenFor(s, p, n, signalID)
    ensures Versions.Stored(s.store, p, n) && Proposed(pol, signalID) == Some(MovesOf(s.store, p, n))
  {
    var pid :| pid in s.processes && Versions.Replanned(p, pid, n) in s.log && s.processes[pid].signalID == signalID;
    hide Versions.Inv, Successive, PhaseInv, Proposed;
    assert CommitInv(pol, s, Versions.Replanned(p, pid, n));
  }

  lemma GeneratedAlone(pol: Policy, generate: Versions.Step, v: Versions.PlanVersion)
    requires generate == Versions.Generate("p", "g", []) && v == Versions.PlanVersion("p", 1, [])
    ensures Run(pol, [generate]).Some?
    ensures var s := Run(pol, [generate]).value;
            Versions.CurrentVersion(s.store, "p") == Versions.Ok(v) && s.processes == map[]
  {
    RunSnoc(pol, [], generate);
    assert [] + [generate] == [generate];
  }

  lemma EmptyDiffers(pol: Policy, candidate: seq<RankedMove>)
    ensures !Same(pol, [], candidate)
  {}

  lemma AlternatesAlone(pol: Policy, first: string, second: string) returns (steps: seq<Versions.Step>)
    requires Proposed(pol, first).Some? && Proposed(pol, second).Some?
    requires !Same(pol, Proposed(pol, first).value, Proposed(pol, second).value)
    requires !Same(pol, Proposed(pol, second).value, Proposed(pol, first).value)
    ensures Alternates(pol, steps, "p", 2, first, second)
  {
    hide Same, Proposed, Run, Versions.CurrentVersion, WrittenFor;
    var generate := Versions.Generate("p", "g", []);
    var v := Versions.PlanVersion("p", 1, []);
    GeneratedAlone(pol, generate, v);
    EmptyDiffers(pol, Proposed(pol, first).value);
    steps, v := CommitsAlone(pol, [generate], "p", first, 0, v);
    steps, v := CommitsAlone(pol, steps, "p", second, 1, v);
    steps, v := CommitsAlone(pol, steps, "p", first, 2, v);
  }

  /** Versions n and n + 1 were committed for the same signal. */
  ghost predicate WrittenAgain(pol: Policy, steps: seq<Versions.Step>, p: string, n: int, signalID: string) {
    && Run(pol, steps).Some?
    && WrittenFor(Run(pol, steps).value, p, n, signalID) && WrittenFor(Run(pol, steps).value, p, n + 1, signalID)
  }

  lemma WrittenAgainAlone(pol: Policy, signalID: string) returns (steps: seq<Versions.Step>)
    requires Proposed(pol, signalID).Some?
    requires !Same(pol, Proposed(pol, signalID).value, Proposed(pol, signalID).value)
    ensures WrittenAgain(pol, steps, "p", 2, signalID)
  {
    hide Same, Proposed, Run, Versions.CurrentVersion, WrittenFor;
    var generate := Versions.Generate("p", "g", []);
    var v := Versions.PlanVersion("p", 1, []);
    GeneratedAlone(pol, generate, v);
    EmptyDiffers(pol, Proposed(pol, signalID).value);
    steps, v := CommitsAlone(pol, [generate], "p", signalID, 0, v);
    steps, v := CommitsAlone(pol, steps, "p", signalID, 1, v);
  }

  lemma WrittenAgainDiffers(pol: Policy, steps: seq<Versions.Step>, p: string, n: int, signalID: string)
    requires WrittenAgain(pol, steps, p, n, signalID) && Proposed(pol, signalID).Some?
    ensures !Same(pol, Proposed(pol, signalID).value, Proposed(pol, signalID).value)
  {
    hide Run, Same, Proposed, Inv, WrittenFor, Versions.Inv;
    RunInv(pol, steps);
    var s := Run(pol, steps).value;
    WrittenIsProposed(pol, s, p, n, signalID);
    WrittenIsProposed(pol, s, p, n + 1, signalID);
    PositiveVersion(pol, s, p, n);
    VersionsDiffer(pol, steps, p, n + 1);
  }

  lemma PositiveVersion(pol: Policy, s: Versions.System, p: string, n: int)
    requires Inv(pol, s) && Versions.Stored(s.store, p, n)
    ensures n >= 1
  {
    hide Versions.Inv;
    NewestVersion(s, p, n);
  }

  /** MAIN: a signal's job can write two versions in a row exactly if its sanitised proposal is empty or has moves that
      share a key and differ in structure. */
  lemma WrittenAgainIff(pol: Policy, signalID: string)
    requires Proposed(pol, signalID).Some?
    ensures (exists steps, p, n :: WrittenAgain(pol, steps, p, n, signalID)) <==>
            var moves := Proposed(pol, signalID).value; moves == [] || !Materiality.SelfConsistent(pol.slug, moves)
  {
    hide Same, Proposed, WrittenAgain, Materiality.SelfConsistent;
    ProposalIsSame(pol, signalID);
    forall steps, p, n | WrittenAgain(pol, steps, p, n, signalID)
      ensures !Same(pol, Proposed(pol, signalID).value, Proposed(pol, signalID).value)
    {
      WrittenAgainDiffers(pol, steps, p, n, signalID);
    }
    if !Same(pol, Proposed(pol, signalID).value, Proposed(pol, signalID).value) {
      var steps := WrittenAgainAlone(pol, signalID);
    }
  }

  /** MAIN: re-running a signal's job after one commit for another signal can write its version again exactly if the two
      proposals differ materially, in both directions. */
  lemma AlternatesIff(pol: Policy, first: string, second: string)
    requires Proposed(pol, first).Some? && Proposed(pol, second).Some?
    ensures (exists steps, p, n :: Alternates(pol, steps, p, n, first, second)) <==>
            && !Same(pol, Proposed(pol, first).value, Proposed(pol, second).value)
            && !Same(pol, Proposed(pol, second).value, Proposed(pol, first).value)
  {
    hide Same, Proposed;
    forall steps, p, n | Alternates(pol, steps, p, n, first, second)
      ensures !Same(pol, Proposed(pol, first).value, Proposed(pol, second).value)
      ensures !Same(pol, Proposed(pol, second).value, Proposed(pol, first).value)
    {
      AlternationRepeats(pol, steps, p, n, first, second);
    }
    if !Same(pol, Proposed(pol, first).value, Proposed(pol, second).value)
       && !Same(pol, Proposed(pol, second).value, Proposed(pol, first).value) {
      var steps := AlternatesAlone(pol, first, second);
    }
  }

  /** Then version n + 2 repeats version n. */
  lemma AlternationRepeats(pol: Policy, steps: seq<Versions.Step>, p: string, n: int, first: string, second: string)
    requires Alternates(pol, steps, p, n, first, second)
    ensures Repeats(pol, steps, p, n, n + 2)
    ensures Proposed(pol, first).Some? && Proposed(pol, second).Some?
    ensures !Same(pol, Proposed(pol, first).value, Proposed(pol, second).value)
    ensures !Same(pol, Proposed(pol, second).value, Proposed(pol, first).value)
  {
    hide Run, Same, Proposed, Inv, WrittenFor, Versions.Inv;
    RunInv(pol, steps);
    var s := Run(pol, steps).value;
    WrittenIsProposed(pol, s, p, n, first);
    WrittenIsProposed(pol, s, p, n + 1, second);
    WrittenIsProposed(pol, s, p, n + 2, first);
    PositiveVersion(pol, s, p, n);
    VersionsDiffer(pol, steps, p, n + 1);
    VersionsDiffer(pol, steps, p, n + 2);
  }

  /** Two signals, each proposing one move of its own: versions 2 and 4 of the plan are the same. */
  lemma RerunAfterAnotherCommit(slug: Materiality.Slug, delta: real)
    ensures var a, b := [RankedMove("a", "", 0.5, 0.0, [], "core")], [RankedMove("b", "", 0.5, 0.0, [], "core")];
            var pol := Policy(slug, delta, signal => Some(if signal == "a" then a else b));
            && Proposed(pol, "a") == Some(a) && Materiality.SelfConsistent(slug, a)
            && exists steps :: Alternates(pol, steps, "p", 2, "a", "b") && Repeats(pol, steps, "p", 2, 4)
  {
    var a, b := [RankedMove("a", "", 0.5, 0.0, [], "core")], [RankedMove("b", "", 0.5, 0.0, [], "core")];
    var pol := Policy(slug, delta, signal => Some(if signal == "a" then a else b));
    MoveGraph.NoEdgesAcyclic(a);
    MoveGraph.NoEdgesAcyclic(b);
    MoveGraph.ValidDagIsFixed(a);
    MoveGraph.ValidDagIsFixed(b);
    Materiality.DistinctKeysSelfConsistent(slug, a);
    assert Materiality.MoveKey(slug, a[0]) == "a" && Materiality.MoveKey(slug, b[0]) == "b";
    hide MoveGraph.Sanitize, Run, Materiality.SelfConsistent;
    var steps := AlternatesAlone(pol, "a", "b");
    AlternationRepeats(pol, steps, "p", 2, "a", "b");
  }
}
