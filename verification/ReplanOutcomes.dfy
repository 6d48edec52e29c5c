/** Which terminal status a replan reaches, and which one its signal shows, in terms of what happened during the run. */
module ReplanOutcomes {
  import opened Domain
  import opened Wrappers
  import Versions = Versioning

  /** What a replan met: replies of the repository and verdicts of the engine. */
  datatype Event =
    | GoalMissing
    | Found(version: int)
    | NotFound
    | Judged(verdict: Versions.Verdict)
    | Appended(version: int)
    | Conflicted
    | Rejected

  /** What a step tells process pid: nothing when the step is not its own. */
  ghost function Told(s: Versions.System, step: Versions.Step, pid: nat): seq<Event>
    requires Versions.Enabled(s, step)
  {
    match step
    case GoalMissing(q) => if q == pid then [GoalMissing] else []
    case Read(q) =>
      if q != pid then []
      else
        (match Versions.CurrentVersion(s.store, s.processes[pid].planID)
         case Ok(v) => [Found(v.version)]
         case Err(_) => [NotFound])
    case Decide(q, verdict) => if q == pid then [Judged(verdict)] else []
    case TryCommit(q) =>
      if q != pid then []
      else
        (match Versions.AddVersion(s.store, s.processes[pid].phase.candidate)
         case Ok(_) => [Appended(s.processes[pid].phase.candidate.version)]
         case Err(ErrConflict) => [Conflicted]
         case Err(ErrNotFound) => [Rejected])
    case _ => []
  }

  /** Everything the run tells process pid, in order. */
  ghost function Trace(steps: seq<Versions.Step>, pid: nat): seq<Event> {
    if steps == [] then []
    else
      var front, last := steps[..|steps| - 1], steps[|steps| - 1];
      match Versions.RunFrom(Versions.Empty(), front)
      case None => []
      case Some(s) => Trace(front, pid) + (if Versions.Enabled(s, last) then Told(s, last, pid) else [])
  }

  predicate IsMaterial(e: Event) {
    e.Judged? && e.verdict.Material?
  }

  /** Nothing but lost attempts: a version read, a material verdict, and a conflict on the write. */
  ghost predicate Lost(t: seq<Event>) {
    t != [] ==>
      && |t| >= 3
      && t[|t| - 3].Found? && IsMaterial(t[|t| - 2]) && t[|t| - 1] == Conflicted && Lost(t[..|t| - 3])
  }

  /** At most two lost attempts, and then the one that ends the replan; or three lost attempts. */
  ghost predicate Attempts(t: seq<Event>) {
    && t != []
    && var n := |t|;
    match t[n - 1]
    case GoalMissing => n == 1
    case Found(_) => false
    case NotFound => n <= 7 && Lost(t[..n - 1])
    case Judged(v) => !v.Material? && 2 <= n <= 8 && t[n - 2].Found? && Lost(t[..n - 2])
    case Conflicted => n == 9 && Lost(t)
    case _ => 3 <= n <= 9 && t[n - 3].Found? && IsMaterial(t[n - 2]) && Lost(t[..n - 3])
  }

  /** The status and the version a replan ends with, decided by what it met last. */
  ghost predicate Ends(t: seq<Event>, status: Versions.Status, version: int, conflict: bool) {
    && Attempts(t)
    && var n, last := |t|, t[|t| - 1];
    && (status == Versions.Unchanged <==> last == Judged(Versions.Immaterial) || last == Judged(Versions.Gated))
    && (status == Versions.Unchanged ==> t[n - 2] == Found(version))
    && (status == Versions.Applied <==> last.Appended?)
    && (status == Versions.Applied ==> last == Appended(version) && t[n - 3] == Found(version - 1))
    && (status == Versions.Failed <==>
          || last == GoalMissing || last == NotFound || last == Judged(Versions.PlannerError) || last == Rejected
          || last == Conflicted)
    && (status == Versions.Failed ==> version == 0)
    && status != Versions.Pending
    && (conflict <==> last == Conflicted)
  }

  ghost predicate Explains(t: seq<Event>, phase: Versions.Phase) {
    match phase
    case Reading(k) => k < 3 && |t| == 3 * k && Lost(t)
    case Planning(k, v) => k < 3 && |t| == 3 * k + 1 && t[3 * k] == Found(v.version) && Lost(t[..3 * k])
    case Committing(k, c) =>
      && k < 3 && |t| == 3 * k + 2
      && t[3 * k] == Found(c.version - 1) && t[3 * k + 1] == Judged(Versions.Material(c.moves)) && Lost(t[..3 * k])
    case Marking(status, version, conflict) => Ends(t, status, version, conflict)
    case Done(status, version, conflict) => Ends(t, status, version, conflict)
  }

  /** Without an event a process is new, stays as it is, or records the status it has reached. */
  lemma NothingTold(s: Versions.System, step: Versions.Step, pid: nat, t: seq<Event>)
    requires Versions.Enabled(s, step) && pid in Versions.After(s, step).processes && Told(s, step, pid) == []
    requires if pid in s.processes then Explains(t, s.processes[pid].phase) else t == []
    ensures Explains(t, Versions.After(s, step).processes[pid].phase)
  {
    hide Versions.AddVersion, Versions.AddPlanWithVersion, Versions.MarkFirst, Versions.CurrentVersion, Ends;
  }

  lemma EventExplains(s: Versions.System, step: Versions.Step, pid: nat, t: seq<Event>, e: Event)
    requires Versions.Enabled(s, step) && pid in s.processes && Told(s, step, pid) == [e]
    requires Explains(t, s.processes[pid].phase)
    ensures Explains(t + [e], Versions.After(s, step).processes[pid].phase)
  {
    hide Versions.AddVersion, Versions.AddPlanWithVersion, Versions.MarkFirst, Versions.CurrentVersion, Lost;
    var n := |t|;
    assert (t + [e])[..n] == t;
    if s.processes[pid].phase.Committing? {
      assert (t + [e])[..n - 2] == t[..n - 2];
      LostAgain(t, e);
    } else if s.processes[pid].phase.Planning? {
      assert (t + [e])[..n - 1] == t[..n - 1];
    }
  }

  lemma LostAgain(t: seq<Event>, e: Event)
    requires |t| >= 2 && t[|t| - 2].Found? && IsMaterial(t[|t| - 1]) && Lost(t[..|t| - 2])
    ensures e == Conflicted ==> Lost(t + [e])
  {
    assert (t + [e])[..|t + [e]| - 3] == t[..|t| - 2];
  }

  lemma ToldAtMostOne(s: Versions.System, step: Versions.Step, pid: nat)
    requires Versions.Enabled(s, step)
    ensures Told(s, step, pid) == [] || (pid in s.processes && Told(s, step, pid) == [Told(s, step, pid)[0]])
  {
    hide Versions.AddVersion, Versions.CurrentVersion;
  }

  lemma ExplainsStep(s: Versions.System, step: Versions.Step, pid: nat, t: seq<Event>)
    requires Versions.Enabled(s, step) && pid in Versions.After(s, step).processes
    requires if pid in s.processes then Explains(t, s.processes[pid].phase) else t == []
    ensures Explains(t + Told(s, step, pid), Versions.After(s, step).processes[pid].phase)
  {
    hide Versions.After, Versions.Enabled, Told, Explains;
    ToldAtMostOne(s, step, pid);
    if Told(s, step, pid) == [] {
      assert t + Told(s, step, pid) == t;
      NothingTold(s, step, pid, t);
    } else {
      EventExplains(s, step, pid, t, Told(s, step, pid)[0]);
    }
  }

  lemma ProcessesGrow(s: Versions.System, step: Versions.Step)
    requires Versions.Enabled(s, step)
    ensures s.processes.Keys <= Versions.After(s, step).processes.Keys
  {
    hide Versions.AddVersion, Versions.AddPlanWithVersion, Versions.MarkFirst, Versions.CurrentVersion;
  }

  lemma {:induction false} TraceExplains(steps: seq<Versions.Step>, pid: nat)
    requires Versions.RunFrom(Versions.Empty(), steps).Some?
    ensures var s := Versions.RunFrom(Versions.Empty(), steps).value;
            if pid in s.processes then Explains(Trace(steps, pid), s.processes[pid].phase) else Trace(steps, pid) == []
  {
    if steps != [] {
      hide Versions.After, Versions.Enabled, Told, Explains;
      var front, last := steps[..|steps| - 1], steps[|steps| - 1];
      var s := Versions.RunFrom(Versions.Empty(), front).value;
      TraceExplains(front, pid);
      ProcessesGrow(s, last);
      ToldAtMostOne(s, last, pid);
      if pid in Versions.After(s, last).processes {
        ExplainsStep(s, last, pid, Trace(front, pid));
      }
    }
  }

  /** MAIN: in every run of any number of replans each one reads, is judged and writes at most three times, and what it
      met last decides how it ends: "unchanged" exactly if the gate or the evaluator found nothing to change, with the
      version just read; "applied" exactly if the repository appended its version, the one after the version just read;
      "failed", with version 0, exactly on a missing goal, a failed read, a planner error, a rejected write or a third
      conflict. */
  lemma StatusIff(steps: seq<Versions.Step>, pid: nat)
    requires Versions.RunFrom(Versions.Empty(), steps).Some?
    requires var s := Versions.RunFrom(Versions.Empty(), steps).value;
             pid in s.processes && (s.processes[pid].phase.Marking? || s.processes[pid].phase.Done?)
    ensures var p := Versions.RunFrom(Versions.Empty(), steps).value.processes[pid].phase;
            Ends(Trace(steps, pid), p.status, p.version, p.conflict)
  {
    TraceExplains(steps, pid);
  }

  // ---------------------------------------------------------------- what the repository replies

  /** A write is rejected exactly for a missing plan, conflicts exactly with a version of that number, and otherwise
      files the version under its number and moves the head up to it. */
  lemma WriteReplies(s: Versions.Store, v: Versions.PlanVersion)
    ensures var r := Versions.AddVersion(s, v);
            && (r == Versions.Err(Versions.ErrNotFound) <==> v.planID !in s.plans)
            && (r == Versions.Err(Versions.ErrConflict) <==>
               v.planID in s.plans && Versions.Stored(s, v.planID, v.version))
            && (r.Ok? ==>
                  && Versions.Stored(r.value, v.planID, v.version) && r.value.versions[v.planID][v.version] == v
                  && (forall q, n :: (q != v.planID || n != v.version) ==>
                        (Versions.Stored(r.value, q, n) <==> Versions.Stored(s, q, n)))
                  && r.value.plans.Keys == s.plans.Keys
                  && r.value.plans[v.planID].currentVersion
                     == if v.version > s.plans[v.planID].currentVersion then v.version
                        else s.plans[v.planID].currentVersion)
  {}

  /** Generating a plan changes nothing if the plan exists, and otherwise files its head and its first version
      together. */
  lemma GenerateReplies(s: Versions.System, planID: string, goalID: string, moves: seq<RankedMove>)
    requires Versions.Contiguous(s.store)
    ensures var s' := Versions.After(s, Versions.Generate(planID, goalID, moves));
            if planID in s.store.plans then s' == s
            else
              && s'.store.plans == s.store.plans[planID := Versions.Plan(planID, goalID, 1)]
              && s'.store.byGoal == s.store.byGoal[goalID := planID]
              && s'.store.versions == s.store.versions[planID := map[1 := Versions.PlanVersion(planID, 1, moves)]]
              && s'.processes == s.processes && s'.store.signals == s.store.signals && s'.marks == s.marks
  {}

  lemma NotRejected(s: Versions.System, step: Versions.Step, pid: nat)
    requires Versions.Inv(s) && Versions.Enabled(s, step)
    ensures Rejected !in Told(s, step, pid)
  {
    hide Versions.LogInv, Versions.MarksInv, Versions.Commits, Versions.CurrentVersion, Versions.AddVersion;
    if step == Versions.TryCommit(pid) {
      assert Versions.ProcessInv(s, pid);
      WriteReplies(s.store, s.processes[pid].phase.candidate);
    }
  }

  /** MAIN: no replan's write is ever rejected: the plan whose version it read still exists. */
  lemma {:induction false} NeverRejected(steps: seq<Versions.Step>, pid: nat)
    requires Versions.RunFrom(Versions.Empty(), steps).Some?
    ensures Rejected !in Trace(steps, pid)
  {
    hide Versions.After, Versions.Enabled, Versions.Inv, Told;
    if steps != [] {
      var front, last := steps[..|steps| - 1], steps[|steps| - 1];
      NeverRejected(front, pid);
      Versions.EmptyInv();
      Versions.RunInv(Versions.Empty(), front);
      NotRejected(Versions.RunFrom(Versions.Empty(), front).value, last, pid);
    }
  }

  // ---------------------------------------------------------------- what the signals show

  /** Signal i is the first with its ID, the one that marks go to. */
  ghost predicate First(signals: seq<Versions.Signal>, i: int) {
    0 <= i < |signals| && forall k :: 0 <= k < i ==> signals[k].id != signals[i].id
  }

  ghost function LastMark(marks: seq<Versions.Mark>, signalID: string): Option<Versions.Mark> {
    if marks == [] then None
    else if marks[|marks| - 1].signalID == signalID then Some(marks[|marks| - 1])
    else LastMark(marks[..|marks| - 1], signalID)
  }

  /** The first signal with an ID shows the last mark for it; any other stays pending. */
  ghost predicate Shows(signals: seq<Versions.Signal>, marks: seq<Versions.Mark>, i: int)
    requires 0 <= i < |signals|
  {
    if !First(signals, i) then signals[i].status == Versions.Pending
    else
      match LastMark(marks, signals[i].id)
      case None => signals[i].status == Versions.Pending
      case Some(m) => signals[i].status == m.status && signals[i].resultVersion == m.version
  }

  ghost predicate SignalsInv(signals: seq<Versions.Signal>, marks: seq<Versions.Mark>) {
    && (forall i :: 0 <= i < |signals| ==> Shows(signals, marks, i))
    && (forall m :: m in marks ==> exists i :: 0 <= i < |signals| && signals[i].id == m.signalID)
  }

  /** A mark says what its author ended with. */
  ghost predicate MarkInv(s: Versions.System, m: Versions.Mark) {
    && m.author in s.processes && s.processes[m.author].phase.Done?
    && s.processes[m.author].planID == m.planID && s.processes[m.author].signalID == m.signalID
    && s.processes[m.author].phase.status == m.status && s.processes[m.author].phase.version == m.version
  }

  ghost predicate Inv(s: Versions.System) {
    SignalsInv(s.store.signals, s.marks) && forall m :: m in s.marks ==> MarkInv(s, m)
  }

  lemma FirstWith(signals: seq<Versions.Signal>, k: nat) returns (i: nat)
    requires k < |signals|
    ensures i <= k && First(signals, i) && signals[i].id == signals[k].id
  {
    i := 0;
    while signals[i].id != signals[k].id
      invariant i <= k && forall j :: 0 <= j < i ==> signals[j].id != signals[k].id
      decreases k - i
    {
      i := i + 1;
    }
  }

  lemma {:induction false} NoMarkNoSignal(signals: seq<Versions.Signal>, marks: seq<Versions.Mark>, id: string)
    requires forall m :: m in marks ==> exists i :: 0 <= i < |signals| && signals[i].id == m.signalID
    requires forall i :: 0 <= i < |signals| ==> signals[i].id != id
    ensures LastMark(marks, id) == None
  {
    if marks != [] {
      assert marks[|marks| - 1] in marks;
      NoMarkNoSignal(signals, marks[..|marks| - 1], id);
    }
  }

  lemma FirstInPrefix(signals: seq<Versions.Signal>, signal: Versions.Signal, i: nat)
    requires i < |signals|
    ensures First(signals + [signal], i) <==> First(signals, i)
  {
    var signals' := signals + [signal];
    forall k | 0 <= k <= i ensures signals'[k] == signals[k] {}
    if First(signals', i) {
      forall k | 0 <= k < i ensures signals[k].id != signals[i].id {
        assert signals'[k].id != signals'[i].id;
      }
    }
  }

  /** A new signal is pending, and becomes the one that marks go to only if its ID is new. */
  lemma SignalAdded(signals: seq<Versions.Signal>, marks: seq<Versions.Mark>, signal: Versions.Signal)
    requires SignalsInv(signals, marks) && signal.status == Versions.Pending
    ensures SignalsInv(signals + [signal], marks)
  {
    hide LastMark;
    var signals' := signals + [signal];
    forall i | 0 <= i < |signals'| ensures Shows(signals', marks, i) {
      if i < |signals| {
        FirstInPrefix(signals, signal, i);
        assert Shows(signals, marks, i);
      } else if First(signals', i) {
        forall k | 0 <= k < |signals| ensures signals[k].id != signal.id {
          assert signals'[k] == signals[k];
        }
        NoMarkNoSignal(signals, marks, signal.id);
      }
    }
    forall m | m in marks ensures exists i :: 0 <= i < |signals'| && signals'[i].id == m.signalID {
      var i :| 0 <= i < |signals| && signals[i].id == m.signalID;
      assert signals'[i].id == m.signalID;
    }
  }

  lemma SignalMarked(signals: seq<Versions.Signal>, marks: seq<Versions.Mark>, i: nat, m: Versions.Mark)
    requires SignalsInv(signals, marks) && First(signals, i) && signals[i].id == m.signalID
    ensures SignalsInv(signals[i := signals[i].(status := m.status, resultVersion := m.version)], marks + [m])
  {
    var signals' := signals[i := signals[i].(status := m.status, resultVersion := m.version)];
    assert (marks + [m])[..|marks|] == marks;
    assert forall k :: 0 <= k < |signals| ==> signals'[k].id == signals[k].id;
    forall k | 0 <= k < |signals'| ensures Shows(signals', marks + [m], k) {
      assert Shows(signals, marks, k) && (First(signals', k) <==> First(signals, k));
    }
    assert signals'[i].id == m.signalID;
    forall n | n in marks ensures exists k :: 0 <= k < |signals'| && signals'[k].id == n.signalID {
      var k :| 0 <= k < |signals| && signals[k].id == n.signalID;
      assert signals'[k].id == n.signalID;
    }
  }

  /** What marking does when a signal with the ID exists, and that it does nothing else when none does. */
  lemma MarkEffect(s: Versions.System, pid: nat, i: nat)
    requires Versions.Enabled(s, Versions.MarkSignal(pid))
    requires First(s.store.signals, i) && s.store.signals[i].id == s.processes[pid].signalID
    ensures var p := s.processes[pid];
            var s' := Versions.After(s, Versions.MarkSignal(pid));
            && s'.store.signals
               == s.store.signals[i := s.store.signals[i].(status := p.phase.status, resultVersion := p.phase.version)]
            && s'.marks == s.marks + [Versions.Mark(p.planID, p.signalID, pid, p.phase.status, p.phase.version)]
            && s'.processes
               == s.processes[pid := p.(phase := Versions.Done(p.phase.status, p.phase.version, p.phase.conflict))]
  {
    hide Versions.MarkFirst;
    var p := s.processes[pid];
    Versions.MarkFirstFound(s.store.signals, i, p.signalID, p.phase.status, p.phase.version);
  }

  lemma MarkMissing(s: Versions.System, pid: nat)
    requires Versions.Enabled(s, Versions.MarkSignal(pid))
    requires forall k :: 0 <= k < |s.store.signals| ==> s.store.signals[k].id != s.processes[pid].signalID
    ensures Versions.After(s, Versions.MarkSignal(pid)).store == s.store
    ensures Versions.After(s, Versions.MarkSignal(pid)).marks == s.marks
  {
    hide Versions.MarkFirst;
    var p := s.processes[pid];
    Versions.MarkFirstMissing(s.store.signals, p.signalID, p.phase.status, p.phase.version);
  }

  lemma SignalsUntouched(s: Versions.System, step: Versions.Step)
    requires Versions.Enabled(s, step) && !step.AddSignal? && !step.MarkSignal?
    ensures Versions.After(s, step).store.signals == s.store.signals && Versions.After(s, step).marks == s.marks
  {
    hide Versions.CurrentVersion, Versions.MarkFirst;
  }

  lemma SignalAddedEffect(s: Versions.System, signal: Versions.Signal)
    ensures var s' := Versions.After(s, Versions.AddSignal(signal));
            && s'.store.signals == s.store.signals + [signal.(status := Versions.Pending)] && s'.marks == s.marks
  {}

  lemma SignalsStep(s: Versions.System, step: Versions.Step)
    requires SignalsInv(s.store.signals, s.marks) && Versions.Enabled(s, step)
    ensures SignalsInv(Versions.After(s, step).store.signals, Versions.After(s, step).marks)
  {
    hide SignalsInv, Versions.After, Versions.Enabled;
    match step {
      case AddSignal(signal) =>
        SignalAddedEffect(s, signal);
        SignalAdded(s.store.signals, s.marks, signal.(status := Versions.Pending));
      case MarkSignal(pid) =>
        MarkStep(s, pid);
      case _ => SignalsUntouched(s, step);
    }
  }

  lemma MarkStep(s: Versions.System, pid: nat)
    requires SignalsInv(s.store.signals, s.marks) && Versions.Enabled(s, Versions.MarkSignal(pid))
    ensures var s' := Versions.After(s, Versions.MarkSignal(pid)); SignalsInv(s'.store.signals, s'.marks)
  {
    hide SignalsInv, Versions.After;
    var p := s.processes[pid];
    if k :| 0 <= k < |s.store.signals| && s.store.signals[k].id == p.signalID {
      var i := FirstWith(s.store.signals, k);
      MarkEffect(s, pid, i);
      SignalMarked(s.store.signals, s.marks, i,
                   Versions.Mark(p.planID, p.signalID, pid, p.phase.status, p.phase.version));
    } else {
      MarkMissing(s, pid);
    }
  }

  /** A finished process takes no more steps. */
  lemma DoneStays(s: Versions.System, step: Versions.Step, pid: nat)
    requires Versions.Enabled(s, step) && pid in s.processes && s.processes[pid].phase.Done?
    ensures pid in Versions.After(s, step).processes && Versions.After(s, step).processes[pid] == s.processes[pid]
  {
    hide Versions.AddVersion, Versions.AddPlanWithVersion, Versions.MarkFirst, Versions.CurrentVersion;
  }

  lemma MarksStep(s: Versions.System, step: Versions.Step, m: Versions.Mark)
    requires Inv(s) && Versions.Enabled(s, step) && m in Versions.After(s, step).marks
    ensures MarkInv(Versions.After(s, step), m)
  {
    hide Versions.After, SignalsInv;
    if m in s.marks {
      assert MarkInv(s, m);
      DoneStays(s, step, m.author);
    } else if step.MarkSignal? {
      var p := s.processes[step.pid];
      if k :| 0 <= k < |s.store.signals| && s.store.signals[k].id == p.signalID {
        var i := FirstWith(s.store.signals, k);
        MarkEffect(s, step.pid, i);
      } else {
        MarkMissing(s, step.pid);
      }
    } else if step.AddSignal? {
      SignalAddedEffect(s, step.signal);
    } else {
      SignalsUntouched(s, step);
    }
  }

  lemma {:induction false} RunInv(steps: seq<Versions.Step>)
    requires Versions.RunFrom(Versions.Empty(), steps).Some?
    ensures Inv(Versions.RunFrom(Versions.Empty(), steps).value)
  {
    if steps != [] {
      hide Versions.After, Versions.Enabled, SignalsInv, MarkInv;
      var front, last := steps[..|steps| - 1], steps[|steps| - 1];
      RunInv(front);
      var s := Versions.RunFrom(Versions.Empty(), front).value;
      SignalsStep(s, last);
      forall m | m in Versions.After(s, last).marks ensures MarkInv(Versions.After(s, last), m) {
        MarksStep(s, last, m);
      }
    }
  }

  lemma {:induction false} LastMarkFound(marks: seq<Versions.Mark>, signalID: string)
    ensures LastMark(marks, signalID).Some? ==>
              LastMark(marks, signalID).value in marks && LastMark(marks, signalID).value.signalID == signalID
  {
    if marks != [] {
      LastMarkFound(marks[..|marks| - 1], signalID);
    }
  }

  /** MAIN: in every reachable state a signal is pending, or shows the status and version that one of its own replans
      ended with. */
  lemma SignalShowsOutcome(steps: seq<Versions.Step>, i: nat)
    requires Versions.RunFrom(Versions.Empty(), steps).Some?
    requires i < |Versions.RunFrom(Versions.Empty(), steps).value.store.signals|
    ensures var s := Versions.RunFrom(Versions.Empty(), steps).value;
            var signal := s.store.signals[i];
            signal.status != Versions.Pending ==>
              exists pid :: pid in s.processes && s.processes[pid].signalID == signal.id && s.processes[pid].phase.Done?
                && s.processes[pid].phase.status == signal.status
                && s.processes[pid].phase.version == signal.resultVersion
                && Ends(Trace(steps, pid), signal.status, signal.resultVersion, s.processes[pid].phase.conflict)
  {
    hide Versions.RunFrom, Ends;
    RunInv(steps);
    var s := Versions.RunFrom(Versions.Empty(), steps).value;
    var signal := s.store.signals[i];
    assert Shows(s.store.signals, s.marks, i);
    if signal.status != Versions.Pending {
      LastMarkFound(s.marks, signal.id);
      var m := LastMark(s.marks, signal.id).value;
      assert MarkInv(s, m);
      StatusIff(steps, m.author);
    }
  }

  /** MAIN: when a replan records its status, the first signal with its ID shows exactly what the replan ended with, and
      no other signal changes. */
  lemma MarkShowsOutcome(steps: seq<Versions.Step>, pid: nat, i: nat)
    requires Versions.RunFrom(Versions.Empty(), steps).Some?
    requires var s := Versions.RunFrom(Versions.Empty(), steps).value;
             && Versions.Enabled(s, Versions.MarkSignal(pid)) && First(s.store.signals, i)
             && s.store.signals[i].id == s.processes[pid].signalID
    ensures var s := Versions.RunFrom(Versions.Empty(), steps).value;
            var signals' := Versions.After(s, Versions.MarkSignal(pid)).store.signals;
            && |signals'| == |s.store.signals|
            && (forall k :: 0 <= k < |signals'| && k != i ==> signals'[k] == s.store.signals[k])
            && Ends(Trace(steps, pid), signals'[i].status, signals'[i].resultVersion, s.processes[pid].phase.conflict)
  {
    hide Versions.RunFrom, Versions.After, Ends;
    StatusIff(steps, pid);
    MarkEffect(Versions.RunFrom(Versions.Empty(), steps).value, pid, i);
  }
}
