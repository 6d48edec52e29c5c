/** The replan queue and the version store together: replans that run only as the queue's handlers. */
module QueuedReplans {
  import opened Wrappers
  import Queue = ReplanQueue
  import Versions = Versioning

  /** `tasks` maps each worker inside the handler to the replan process it runs. */
  datatype System = System(queue: Queue.System, versions: Versions.System, tasks: map<nat, nat>)

  datatype Step =
    | QueueStep(q: Queue.Step)
    | Start(w: nat, pid: nat)
    | Work(w: nat, v: Versions.Step)
    | Outside(v: Versions.Step)

  function Initial(cfg: Queue.Config): System {
    System(Queue.Initial(cfg), Versions.Empty(), map[])
  }

  /** The steps a replan process takes itself. */
  predicate Own(v: Versions.Step, pid: nat) {
    (v.GoalMissing? || v.Read? || v.Decide? || v.TryCommit? || v.MarkSignal?) && v.pid == pid
  }

  predicate Finished(s: System, w: nat) {
    w in s.tasks && s.tasks[w] in s.versions.processes && s.versions.processes[s.tasks[w]].phase.Done?
  }

  /** The handler returns when its process is done, or panics at any point, which abandons the process. */
  predicate Enabled(cfg: Queue.Config, s: System, step: Step) {
    match step
    case QueueStep(q) =>
      Queue.Enabled(cfg, s.queue, q) && (q.Return? ==> q.ending.Panic? || Finished(s, q.w))
    case Start(w, pid) =>
      w in s.queue.workers && s.queue.workers[w].Running? && w !in s.tasks && pid !in s.versions.processes
    case Work(w, v) => w in s.tasks && Own(v, s.tasks[w]) && Versions.Enabled(s.versions, v)
    case Outside(v) => v.Generate? || v.AddSignal?
  }

  function After(cfg: Queue.Config, s: System, step: Step): System
    requires Enabled(cfg, s, step)
  {
    match step
    case QueueStep(q) =>
      s.(queue := Queue.After(cfg, s.queue, q), tasks := if q.Return? then s.tasks - {q.w} else s.tasks)
    case Start(w, pid) =>
      var job := s.queue.workers[w].job;
      s.(versions := Versions.After(s.versions, Versions.Begin(pid, job.planID, job.signalID)),
         tasks := s.tasks[w := pid])
    case Work(w, v) => s.(versions := Versions.After(s.versions, v))
    case Outside(v) => s.(versions := Versions.After(s.versions, v))
  }

  function Run(cfg: Queue.Config, steps: seq<Step>): Option<System> {
    if steps == [] then Some(Initial(cfg))
    else
      match Run(cfg, steps[..|steps| - 1])
      case None => None
      case Some(s) => if Enabled(cfg, s, steps[|steps| - 1]) then Some(After(cfg, s, steps[|steps| - 1])) else None
  }

  // ---------------------------------------------------------------- invariants

  /** The process has never lost a race. */
  predicate NoRetry(phase: Versions.Phase) {
    match phase
    case Reading(k) => k == 0
    case Planning(k, _) => k == 0
    case Committing(k, _) => k == 0
    case Marking(_, _, conflict) => !conflict
    case Done(_, _, conflict) => !conflict
  }

  /** Nobody has committed to the plan since the process read it. */
  ghost predicate UpToDate(s: Versions.Store, planID: string, phase: Versions.Phase) {
    match phase
    case Planning(_, v) => planID in s.plans && v.planID == planID && v.version == Versions.Current(s, planID)
    case Committing(_, c) => planID in s.plans && c.planID == planID && c.version == Versions.Current(s, planID) + 1
    case _ => true
  }

  /** Worker w is inside the handler for its plan, with a process of its own. */
  ghost predicate TaskInv(s: System, w: nat)
    requires w in s.tasks
  {
    && w in s.queue.workers && s.queue.workers[w].Running?
    && s.tasks[w] in s.versions.processes
    && var p := s.versions.processes[s.tasks[w]];
       && p.planID == s.queue.workers[w].plan && p.signalID == s.queue.workers[w].job.signalID
       && UpToDate(s.versions.store, p.planID, p.phase)
  }

  /** Running workers hold a job of their plan. */
  ghost predicate JobsInv(s: Queue.System) {
    forall w :: w in s.workers && s.workers[w].Running? ==> s.workers[w].job.planID == s.workers[w].plan
  }

  ghost predicate Inv(cfg: Queue.Config, s: System) {
    && Queue.Inv(cfg, s.queue) && Versions.Inv(s.versions) && JobsInv(s.queue)
    && (forall w :: w in s.tasks ==> TaskInv(s, w))
    && (forall v, w :: v in s.tasks && w in s.tasks && s.tasks[v] == s.tasks[w] ==> v == w)
    && (forall pid :: pid in s.versions.processes ==> NoRetry(s.versions.processes[pid].phase))
  }

  /** Two workers inside the handler work on different plans, because each holds its plan's only token. */
  lemma TasksOnDifferentPlans(cfg: Queue.Config, s: System, v: nat, w: nat)
    requires Queue.Inv(cfg, s.queue) && v in s.tasks && w in s.tasks && v != w && TaskInv(s, v) && TaskInv(s, w)
    ensures s.queue.workers[v].plan != s.queue.workers[w].plan
  {
    hide UpToDate;
    assert Queue.TokenInv(s.queue);
    var p := s.queue.workers[v].plan;
    assert Queue.Holds(s.queue, Queue.AtWorker(v), p);
    assert s.queue.workers[w].plan == p ==> Queue.Holds(s.queue, Queue.AtWorker(w), p);
  }

  // ---------------------------------------------------------------- one step

  lemma QueueStepInv(cfg: Queue.Config, s: System, step: Step)
    requires Inv(cfg, s) && Enabled(cfg, s, step) && step.QueueStep?
    ensures Inv(cfg, After(cfg, s, step))
  {
    var s', q := After(cfg, s, step), step.q;
    Queue.StepInv(cfg, s.queue, q);
    JobsKept(cfg, s.queue, q);
    hide Queue.Inv, Versions.Inv, UpToDate, NoRetry, JobsInv;
    forall w | w in s'.tasks ensures TaskInv(s', w) {
      assert TaskInv(s, w);
      RunningKept(cfg, s.queue, q, w);
    }
  }

  lemma JobsKept(cfg: Queue.Config, s: Queue.System, q: Queue.Step)
    requires Queue.Inv(cfg, s) && JobsInv(s) && Queue.Enabled(cfg, s, q)
    ensures JobsInv(Queue.After(cfg, s, q))
  {
    assert Queue.PendingInv(s);
    hide Queue.Inv, Queue.TokenInv, Queue.Admit, Queue.Drain;
    if q.Take? {
      var p := s.workers[q.w].plan;
      assert Queue.Fifo(s.core.pending, p)[0] in Queue.Fifo(s.core.pending, p);
    }
  }

  lemma RunningKept(cfg: Queue.Config, s: Queue.System, q: Queue.Step, w: nat)
    requires Queue.Enabled(cfg, s, q) && w in s.workers && s.workers[w].Running? && (q.Return? ==> q.w != w)
    ensures w in Queue.After(cfg, s, q).workers && Queue.After(cfg, s, q).workers[w] == s.workers[w]
  {
    hide Queue.Admit, Queue.Drain;
  }

  lemma BeginEffect(s: Versions.System, pid: nat, planID: string, signalID: string)
    requires pid !in s.processes
    ensures var s' := Versions.After(s, Versions.Begin(pid, planID, signalID));
            && s'.store == s.store
            && s'.processes == s.processes[pid := Versions.Process(planID, signalID, Versions.Reading(0), |s.log|)]
  {}

  lemma StartInv(cfg: Queue.Config, s: System, step: Step)
    requires Inv(cfg, s) && Enabled(cfg, s, step) && step.Start?
    ensures Inv(cfg, After(cfg, s, step))
  {
    hide Queue.Inv, Versions.Inv, Versions.After, Versions.Grows, UpToDate, JobsInv, NoRetry, TaskInv;
    var s' := After(cfg, s, step);
    var job := s.queue.workers[step.w].job;
    BeginEffect(s.versions, step.pid, job.planID, job.signalID);
    Versions.StepInv(s.versions, Versions.Begin(step.pid, job.planID, job.signalID));
    FreshTask(s, s', step.w, step.pid);
    forall w | w in s.tasks ensures TaskInv(s', w) {
      OtherTask(s, s', step.w, w, step.pid);
    }
    TasksStayDistinct(s, step.w, step.pid);
  }

  ghost predicate Begun(s: System, s': System, w: nat, pid: nat) {
    && w in s.queue.workers && s.queue.workers[w].Running? && pid !in s.versions.processes
    && s'.queue == s.queue && s'.tasks == s.tasks[w := pid] && s'.versions.store == s.versions.store
    && var job := s.queue.workers[w].job;
       s'.versions.processes ==
         s.versions.processes[pid := Versions.Process(job.planID, job.signalID, Versions.Reading(0), |s.versions.log|)]
  }

  lemma FreshTask(s: System, s': System, w: nat, pid: nat)
    requires Begun(s, s', w, pid) && JobsInv(s.queue)
    ensures TaskInv(s', w) && NoRetry(s'.versions.processes[pid].phase)
  {}

  lemma OtherTask(s: System, s': System, w: nat, v: nat, pid: nat)
    requires Begun(s, s', w, pid) && w !in s.tasks && v in s.tasks && TaskInv(s, v)
    ensures TaskInv(s', v)
  {
    hide UpToDate;
  }

  lemma TasksStayDistinct(s: System, worker: nat, pid: nat)
    requires pid !in s.versions.processes && forall w :: w in s.tasks ==> TaskInv(s, w)
    requires forall v, w :: v in s.tasks && w in s.tasks && s.tasks[v] == s.tasks[w] ==> v == w
    ensures var t := s.tasks[worker := pid]; forall v, w :: v in t && w in t && t[v] == t[w] ==> v == w
  {
    hide UpToDate;
    forall w | w in s.tasks ensures s.tasks[w] != pid {
      assert TaskInv(s, w);
    }
  }

  /** A plan that exists keeps its current version unless this step commits to it. */
  lemma CurrentKept(s: Versions.System, v: Versions.Step, planID: string)
    requires Versions.Inv(s) && Versions.Enabled(s, v) && planID in s.store.plans
    requires v.TryCommit? ==> s.processes[v.pid].planID != planID
    ensures planID in Versions.After(s, v).store.plans
    ensures Versions.Current(Versions.After(s, v).store, planID) == Versions.Current(s.store, planID)
  {
    hide Versions.Inv;
    if v.TryCommit? {
      CommitKeepsOthers(s, v, planID);
    } else if v.Generate? {
      GenerateKeepsOthers(s, v, planID);
    } else {
      hide Versions.MarkFirst, Versions.CurrentVersion, Versions.AddVersion, Versions.AddPlanWithVersion;
    }
  }

  lemma GenerateKeepsOthers(s: Versions.System, v: Versions.Step, planID: string)
    requires Versions.Inv(s) && v.Generate? && planID in s.store.plans
    ensures planID in Versions.After(s, v).store.plans
    ensures Versions.Current(Versions.After(s, v).store, planID) == Versions.Current(s.store, planID)
  {
    hide Versions.Contiguous, Versions.AddPlanWithVersion, Versions.LogInv, Versions.MarksInv, Versions.ProcessInv,
         Versions.Preserves;
    Versions.GenerateStores(s.store, v.planID, v.goalID, v.moves);
  }

  lemma CommitKeepsOthers(s: Versions.System, v: Versions.Step, planID: string)
    requires Versions.Inv(s) && Versions.Enabled(s, v) && planID in s.store.plans
    requires v.TryCommit? && s.processes[v.pid].planID != planID
    ensures planID in Versions.After(s, v).store.plans
    ensures Versions.Current(Versions.After(s, v).store, planID) == Versions.Current(s.store, planID)
  {
    assert Versions.ProcessInv(s, v.pid);
    var c := s.processes[v.pid].phase.candidate;
    hide Versions.Contiguous, Versions.AddVersion, Versions.LogInv, Versions.MarksInv, Versions.Preserves,
         Versions.Commits, Versions.Authored, Versions.Current;
    Versions.VersionAppends(s.store, c);
  }

  lemma UpToDateKept(s: Versions.System, v: Versions.Step, planID: string, phase: Versions.Phase)
    requires Versions.Inv(s) && Versions.Enabled(s, v) && UpToDate(s.store, planID, phase)
    requires v.TryCommit? ==> s.processes[v.pid].planID != planID
    ensures UpToDate(Versions.After(s, v).store, planID, phase)
  {
    hide Versions.Inv, Versions.After, Versions.Enabled, Versions.Current;
    if planID in s.store.plans {
      CurrentKept(s, v, planID);
    }
  }

  /** What a process's own step does to the processes and to its phase. */
  ghost predicate Stepped(s: Versions.System, s': Versions.System, pid: nat)
    requires pid in s.processes
  {
    && s'.processes.Keys == s.processes.Keys && s'.processes == s.processes[pid := s'.processes[pid]]
    && s'.processes[pid].planID == s.processes[pid].planID
    && s'.processes[pid].signalID == s.processes[pid].signalID
    && NoRetry(s'.processes[pid].phase) && UpToDate(s'.store, s'.processes[pid].planID, s'.processes[pid].phase)
  }

  /** The process that steps keeps up to date and loses no race. */
  lemma OwnStep(s: Versions.System, v: Versions.Step, pid: nat)
    requires Versions.Inv(s) && Versions.Enabled(s, v) && Own(v, pid) && pid in s.processes
    requires NoRetry(s.processes[pid].phase) && UpToDate(s.store, s.processes[pid].planID, s.processes[pid].phase)
    ensures Stepped(s, Versions.After(s, v), pid)
  {
    hide Versions.Inv, Versions.After, Versions.Enabled, UpToDate, NoRetry, Stepped;
    if v.TryCommit? {
      OwnCommit(s, v, pid);
    } else if v.Read? {
      OwnRead(s, v, pid);
    } else {
      OwnLocal(s, v, pid);
    }
  }

  lemma OwnLocal(s: Versions.System, v: Versions.Step, pid: nat)
    requires Versions.Enabled(s, v) && (v.GoalMissing? || v.Decide? || v.MarkSignal?) && v.pid == pid
    requires NoRetry(s.processes[pid].phase) && UpToDate(s.store, s.processes[pid].planID, s.processes[pid].phase)
    ensures Stepped(s, Versions.After(s, v), pid)
  {
    hide Versions.MarkFirst, Versions.CurrentVersion, Versions.AddVersion, Versions.AddPlanWithVersion;
  }

  lemma OwnCommit(s: Versions.System, v: Versions.Step, pid: nat)
    requires Versions.Inv(s) && Versions.Enabled(s, v) && v.TryCommit? && v.pid == pid
    requires UpToDate(s.store, s.processes[pid].planID, s.processes[pid].phase)
    ensures Stepped(s, Versions.After(s, v), pid)
  {
    CommitSucceeds(s, v, pid);
    hide Versions.Inv, Versions.After;
  }

  lemma OwnRead(s: Versions.System, v: Versions.Step, pid: nat)
    requires Versions.Inv(s) && Versions.Enabled(s, v) && v == Versions.Read(pid) && NoRetry(s.processes[pid].phase)
    ensures Stepped(s, Versions.After(s, v), pid)
  {
    Versions.CurrentStored(s.store, s.processes[pid].planID);
    hide Versions.Inv, Versions.CurrentVersion;
  }

  lemma CommitSucceeds(s: Versions.System, v: Versions.Step, pid: nat)
    requires Versions.Inv(s) && Versions.Enabled(s, v) && v.TryCommit? && v.pid == pid
    requires UpToDate(s.store, s.processes[pid].planID, s.processes[pid].phase)
    ensures var s' := Versions.After(s, v);
            s'.processes == s.processes[pid := s.processes[pid].(phase :=
              Versions.Marking(Versions.Applied, s.processes[pid].phase.candidate.version, false))]
  {
    assert Versions.ProcessInv(s, pid);
    var c := s.processes[pid].phase.candidate;
    hide Versions.Contiguous, Versions.AddVersion, Versions.LogInv, Versions.MarksInv, Versions.Commits,
         Versions.Authored;
    Versions.VersionAppends(s.store, c);
  }

  lemma WorkInv(cfg: Queue.Config, s: System, step: Step)
    requires Inv(cfg, s) && Enabled(cfg, s, step) && step.Work?
    ensures Inv(cfg, After(cfg, s, step))
  {
    hide Versions.Inv, Versions.After, Versions.Enabled, Versions.Grows, Queue.Inv, UpToDate, NoRetry, JobsInv;
    var s', pid := After(cfg, s, step), s.tasks[step.w];
    assert TaskInv(s, step.w);
    Versions.StepInv(s.versions, step.v);
    OwnStep(s.versions, step.v, pid);
    forall w | w in s'.tasks ensures TaskInv(s', w) {
      assert TaskInv(s, w);
      if w != step.w {
        TasksOnDifferentPlans(cfg, s, step.w, w);
        var p := s.versions.processes[s.tasks[w]];
        OwnPlan(step.v, pid);
        UpToDateKept(s.versions, step.v, p.planID, p.phase);
      }
    }
  }

  lemma OwnPlan(v: Versions.Step, pid: nat)
    requires Own(v, pid)
    ensures v.TryCommit? ==> v.pid == pid
  {}

  lemma OutsideEffect(s: Versions.System, v: Versions.Step)
    requires v.Generate? || v.AddSignal?
    ensures Versions.Enabled(s, v) && Versions.After(s, v).processes == s.processes
  {}

  lemma OutsideKeepsTask(s: System, s': System, v: Versions.Step, w: nat)
    requires Versions.Inv(s.versions) && (v.Generate? || v.AddSignal?) && Versions.Enabled(s.versions, v)
    requires s' == s.(versions := Versions.After(s.versions, v)) && s'.versions.processes == s.versions.processes
    requires w in s.tasks && TaskInv(s, w)
    ensures TaskInv(s', w)
  {
    hide Versions.Inv, Versions.After, Versions.Enabled, UpToDate;
    var p := s.versions.processes[s.tasks[w]];
    UpToDateKept(s.versions, v, p.planID, p.phase);
  }

  lemma OutsideInv(cfg: Queue.Config, s: System, step: Step)
    requires Inv(cfg, s) && Enabled(cfg, s, step) && step.Outside?
    ensures Inv(cfg, After(cfg, s, step))
  {
    hide Versions.Inv, Versions.After, Versions.Enabled, Versions.Grows, Queue.Inv, UpToDate, NoRetry, JobsInv, TaskInv;
    OutsideEffect(s.versions, step.v);
    var s' := After(cfg, s, step);
    Versions.StepInv(s.versions, step.v);
    forall w | w in s'.tasks ensures TaskInv(s', w) {
      OutsideKeepsTask(s, s', step.v, w);
    }
  }

  lemma {:induction false} RunInv(cfg: Queue.Config, steps: seq<Step>)
    requires Run(cfg, steps).Some?
    ensures Inv(cfg, Run(cfg, steps).value)
  {
    if steps == [] {
      Queue.InitialInv(cfg);
      Versions.EmptyInv();
    } else {
      hide Inv, After, Enabled;
      RunInv(cfg, steps[..|steps| - 1]);
      var s, step := Run(cfg, steps[..|steps| - 1]).value, steps[|steps| - 1];
      match step
      case QueueStep(_) => QueueStepInv(cfg, s, step);
      case Start(_, _) => StartInv(cfg, s, step);
      case Work(_, _) => WorkInv(cfg, s, step);
      case Outside(_) => OutsideInv(cfg, s, step);
    }
  }

  /** MAIN: replans that run only through the queue never race on the version write: in every interleaving each is at
      its first attempt or has finished without a conflict, and a worker about to commit holds the number after the
      current version. */
  lemma QueuedReplansNeverConflict(cfg: Queue.Config, steps: seq<Step>, pid: nat)
    requires Run(cfg, steps).Some? && pid in Run(cfg, steps).value.versions.processes
    ensures var s := Run(cfg, steps).value;
            var p := s.versions.processes[pid];
            && NoRetry(p.phase)
            && (forall w :: w in s.tasks && s.tasks[w] == pid ==>
                  && w in s.queue.workers && s.queue.workers[w].Running?
                  && s.queue.workers[w].job.planID == p.planID && s.queue.workers[w].job.signalID == p.signalID)
            && (pid in s.tasks.Values && p.phase.Committing? ==>
                  p.phase.candidate.version == Versions.Current(s.versions.store, p.planID) + 1)
  {
    RunInv(cfg, steps);
    var s := Run(cfg, steps).value;
    hide Run, Queue.Inv, Versions.Inv;
    forall w | w in s.tasks && s.tasks[w] == pid
      ensures w in s.queue.workers && s.queue.workers[w].Running?
      ensures s.queue.workers[w].job.planID == s.versions.processes[pid].planID
      ensures s.queue.workers[w].job.signalID == s.versions.processes[pid].signalID
    {
      assert TaskInv(s, w);
    }
    if pid in s.tasks.Values {
      var w :| w in s.tasks && s.tasks[w] == pid;
      assert TaskInv(s, w);
    }
  }
}
