/** The Orchestrator's commands (src/orqalis/core/orchestrator.py) and the approval commands
    (src/orqalis/core/approvals.py), each proved against the function of `RunStore` that says what it
    leaves durably behind and what it replies. */
module Orchestration {
  import opened Collections
  import opened RunStates
  import opened Plans
  import opened PlanGraphs
  import opened RunStore
  import opened UnitsOfWork

  // ---------------------------------------------------------------------------------
  // Plan validation

  predicate Heads(edges: seq<Dependency>, id: Uuid) {
    exists i :: 0 <= i < |edges| && edges[i].task == id
  }

  function Without(edges: seq<Dependency>, target: Uuid): seq<Dependency> {
    if edges == [] then []
    else (if edges[0].dependsOn == target then [] else [edges[0]]) + Without(edges[1..], target)
  }

  lemma {:induction false} WithoutContents(edges: seq<Dependency>, target: Uuid)
    ensures forall e :: e in Without(edges, target) <==> e in edges && e.dependsOn != target
    ensures |Without(edges, target)| <= |edges|
    ensures (exists e :: e in edges && e.dependsOn == target) ==> |Without(edges, target)| < |edges|
  {
    if edges != [] {
      WithoutContents(edges[1..], target);
      assert edges == [edges[0]] + edges[1..];
    }
  }

  /** Edges into a task that waits for nothing are on no cycle. */
  lemma RemovingRootKeepsCycles(edges: seq<Dependency>, root: Uuid)
    requires !Heads(edges, root)
    ensures Acyclic(edges) <==> Acyclic(Without(edges, root))
  {
    var fewer := Without(edges, root);
    WithoutContents(edges, root);
    forall e | e in edges
      ensures e.task != root
    {
      var i :| 0 <= i < |edges| && edges[i] == e;
      assert edges[i].task == e.task;
    }
    if Acyclic(fewer) {
      LayersStayAcyclic(fewer, edges, id => if id == root then 0 else 1);
    }
    if Acyclic(edges) {
      forall a
        ensures !DependsOn(fewer, a, a)
      {
        if DependsOn(fewer, a, a) {
          DependsMonotone(fewer, edges, a, a);
        }
      }
    }
  }

  lemma RootHeadsNothing(edges: seq<Dependency>, root: Uuid)
    requires Root(edges, root)
    ensures !Heads(edges, root)
  {
    forall i | 0 <= i < |edges|
      ensures edges[i].task != root
    {
      assert edges[i] in edges;
    }
  }

  /** Where every task waited for waits itself, there is a cycle. */
  lemma StuckOnCycle(tasks: seq<Task>, edges: seq<Dependency>)
    requires KnownEnds(tasks, edges) && edges != []
    requires forall i :: 0 <= i < |edges| ==> Heads(edges, edges[i].dependsOn)
    ensures !Acyclic(edges)
  {
    if Acyclic(edges) {
      assert edges[0] in edges;
      var root := ReachesRoot(tasks, edges, edges[0].dependsOn, {});
      var e: Dependency;
      if root == edges[0].dependsOn {
        e := edges[0];
      } else {
        var p :| ChainBetween(edges, p, edges[0].dependsOn, root);
        assert Direct(edges, p[|p| - 2], p[|p| - 2 + 1]);
        e :| e in edges && e.task == p[|p| - 2] && e.dependsOn == root;
      }
      var i :| 0 <= i < |edges| && edges[i] == e;
      assert Heads(edges, edges[i].dependsOn);
      RootHeadsNothing(edges, root);
      assert false;
    }
  }

  method FindRootEdge(edges: seq<Dependency>) returns (k: Option<nat>)
    ensures k.Some? ==> k.value < |edges| && !Heads(edges, edges[k.value].dependsOn)
    ensures k.None? ==> forall i :: 0 <= i < |edges| ==> Heads(edges, edges[i].dependsOn)
  {
    for i := 0 to |edges|
      invariant forall j :: 0 <= j < i ==> Heads(edges, edges[j].dependsOn)
    {
      if !Heads(edges, edges[i].dependsOn) {
        return Some(i);
      }
    }
    return None;
  }

  /** The cycle check of `validate_dag`: an order exists exactly when there is no cycle. */
  method CanBeOrdered(tasks: seq<Task>, edges: seq<Dependency>) returns (ordered: bool)
    requires KnownEnds(tasks, edges)
    ensures ordered <==> Acyclic(edges)
  {
    var rest := edges;
    while rest != []
      invariant KnownEnds(tasks, rest)
      invariant Acyclic(edges) <==> Acyclic(rest)
      decreases |rest|
    {
      var k := FindRootEdge(rest);
      if k.None? {
        StuckOnCycle(tasks, rest);
        return false;
      }
      var root := rest[k.value].dependsOn;
      assert rest[k.value] in rest;
      RemovingRootKeepsCycles(rest, root);
      WithoutContents(rest, root);
      rest := Without(rest, root);
    }
    NoEdgesNoCycle();
    return true;
  }

  lemma NoEdgesNoCycle()
    ensures Acyclic([])
  {
    forall p, a
      ensures !ChainBetween([], p, a, a)
    {
      if |p| >= 2 {
        assert !Direct([], p[0], p[0 + 1]);
      }
    }
  }

  predicate EdgeFits(tasks: seq<Task>, e: Dependency) {
    Known(tasks, e.task) && Known(tasks, e.dependsOn) && e.kind == FINISH_TO_START
  }

  lemma FitsIsKnown(tasks: seq<Task>, edges: seq<Dependency>)
    ensures KnownEnds(tasks, edges) <==> forall i :: 0 <= i < |edges| ==> EdgeFits(tasks, edges[i])
  {
    forall e
      ensures EdgeFits(tasks, e) <==> HasTask(tasks, e.task) && HasTask(tasks, e.dependsOn) && e.kind == FINISH_TO_START
    {
      assert Known(tasks, e.task) <==> HasTask(tasks, e.task);
      assert Known(tasks, e.dependsOn) <==> HasTask(tasks, e.dependsOn);
    }
    if KnownEnds(tasks, edges) {
      forall i | 0 <= i < |edges|
        ensures EdgeFits(tasks, edges[i])
      {
        assert edges[i] in edges;
      }
    }
  }

  /** `TaskPlan.model_validate`. */
  method Validate(plan: Plan) returns (valid: bool)
    ensures valid <==> ValidPlan(plan)
  {
    var edges := plan.dependencies;
    if plan.version < 1 || plan.tasks == []
       || (exists i, j :: 0 <= i < j < |plan.tasks| && plan.tasks[i].id == plan.tasks[j].id) {
      return false;
    }
    if exists i :: 0 <= i < |plan.tasks| && (plan.tasks[i].run != plan.run || plan.tasks[i].planVersion > plan.version) {
      assert exists t :: t in plan.tasks && (t.run != plan.run || t.planVersion > plan.version);
      return false;
    }
    if exists i, j :: 0 <= i < j < |edges| && (edges[i].task, edges[i].dependsOn) == (edges[j].task, edges[j].dependsOn) {
      return false;
    }
    FitsIsKnown(plan.tasks, edges);
    if exists i :: 0 <= i < |edges| && !EdgeFits(plan.tasks, edges[i]) {
      return false;
    }
    valid := CanBeOrdered(plan.tasks, edges);
  }

  // ---------------------------------------------------------------------------------
  // Commands

  class Orchestrator {
    const uow: UnitOfWork

    constructor (uow: UnitOfWork)
      ensures this.uow == uow
    {
      this.uow := uow;
    }

    /** `_guard`: passing leaves no trace, refusing leaves at most a committed request. */
    method Guard(target: RunState) returns (reply: Result<(), Error>)
      modifies uow
      ensures Outcome(uow.staged, reply) == RunStore.Guard(old(uow.staged), target)
      ensures uow.durable == if uow.staged == old(uow.staged) then old(uow.durable) else uow.staged
    {
      var s := uow.staged;
      var reviews := s.records.reviews;
      if !DeliveryGuard(s, target) {
        return Err(PolicyDenied);
      }
      if target == ChangeGuard && !Bound(s) {
        return Err(PolicyDenied);
      }
      if target == RepairPlanning {
        if !FailedReviewIsCurrent(s) {
          return Err(Conflict);
        }
        reply := uow.RequireApproval(RequestId(RepairStage, s.run.planVersion, OfReview(reviews[|reviews| - 1])));
        return;
      }
      if target == Executing && s.run.state == RepairPlanning {
        if reviews == [] || s.run.planVersion != reviews[|reviews| - 1].planVersion + 1 {
          return Err(Conflict);
        }
      }
      if Suspended(target) && exists i :: 0 <= i < |s.attempts| && s.attempts[i].status == Running {
        return Err(Conflict);
      }
      if target == GoalDefined && s.run.goal.None? {
        return Err(Conflict);
      }
      if target in {Planned, Executing} {
        if !PlanForGoal(s) {
          return Err(Conflict);
        }
        if target == Executing {
          reply := uow.RequireApproval(PlanRequest(s));
          return;
        }
      }
      if target == ChangeGuard && !RequiredCriteriaPass(s.run.goal, s.goals) {
        return Err(Conflict);
      }
      return Ok(());
    }

    /** Saves the run in its new state and logs the transition. */
    method EnterState(target: RunState, key: string)
      modifies uow`staged
      ensures uow.staged == Emit(old(uow.staged).(run := MoveRun(old(uow.staged.run), target)),
                                 Moved(key, old(uow.staged.run.state), target))
    {
      var previous, run := uow.staged.run.state, uow.staged.run;
      var resumeState := run.resumeState;
      if Suspended(target) && !Suspended(previous) {
        resumeState := Some(previous);
      } else if Suspended(previous) && !Suspended(target) {
        resumeState := None;
      }
      var phase := PhaseOf(target);
      uow.staged := uow.staged.(run := run.(
        state := target, uiPhase := if phase.Some? then phase.value else run.uiPhase, resumeState := resumeState,
        started := run.started || !Terminal(target), completed := Terminal(target)));
      uow.Append(Moved(key, previous, target));
    }

    /** The writes of an admitted transition. */
    method Transit(target: RunState, key: string)
      modifies uow`staged
      ensures uow.staged == RunStore.Move(old(uow.staged), target, key)
    {
      if Terminal(target) {
        uow.CancelPending(key);
      }
      EnterState(target, key);
      uow.SetActorStatus(ByRun(key), ActorFor(target));
      uow.UpdatePhase(key, PhaseStatusFor(target), Terminal(target));
    }

    /** `advance`. */
    method Advance(target: RunState, key: string) returns (reply: Result<Run, Error>)
      requires uow.staged == uow.durable
      modifies uow
      ensures Outcome(uow.durable, reply) == RunStore.Advance(old(uow.durable), target, key)
      ensures uow.staged == uow.durable
    {
      if !ValidKey(key) {
        return Err(InputError);
      }
      var s := uow.staged;
      var existing := FindMoved(s.events, key);
      if existing.Some? {
        return if existing.value == target then Ok(s.run) else Err(Conflict);
      }
      if !ValidTransition(s.run.state, target, s.run.resumeState) {
        return Err(Conflict);
      }
      var gate := Guard(target);
      if gate.Err? {
        uow.Leave();
        return Err(gate.error);
      }
      GuardPasses(s, target);
      Transit(target, key);
      if target == Planned && uow.staged.run.planVersion in uow.staged.plans {
        var prepared := uow.PrepareApproval(PlanRequest(uow.staged));
        if prepared.Err? {
          uow.Leave();
          return Err(prepared.error);
        }
      }
      uow.Commit();
      return Ok(uow.durable.run);
    }

    /** `resume`: one transaction reads the target, `advance` is another. */
    method Resume(key: string) returns (reply: Result<Run, Error>)
      requires uow.staged == uow.durable
      modifies uow
      ensures Outcome(uow.durable, reply) == RunStore.Resume(old(uow.durable), key)
      ensures uow.staged == uow.durable
    {
      var run := uow.staged.run;
      if run.resumeState.None? {
        var events := uow.staged.events;
        if exists i :: 0 <= i < |events| && events[i].Moved? && events[i].command == key && IsResumption(events[i]) {
          return Ok(run);
        }
        return Err(Conflict);
      }
      reply := Advance(run.resumeState.value, key);
    }

    /** Preparatory tasks that are to be grafted must have succeeded. */
    method Prepared(preparation: seq<Task>, given: Plan) returns (ready: bool)
      ensures ready <==> !(preparation != [] && Preparatory(given.tasks) == []
                           && exists p :: p in preparation && p.progress.status != Succeeded)
    {
      if preparation == [] || Preparatory(given.tasks) != [] {
        return true;
      }
      return !exists p :: p in preparation && p.progress.status != Succeeded;
    }

    /** `install_plan`. */
    method InstallPlan(given: Plan, key: string) returns (reply: Result<Run, Error>)
      requires uow.staged == uow.durable
      modifies uow
      ensures Outcome(uow.durable, reply) == RunStore.InstallPlan(old(uow.durable), given, key)
      ensures uow.staged == uow.durable
    {
      if !ValidKey(key) {
        return Err(InputError);
      }
      var s := uow.staged;
      var preparation := Preparatory(s.tasks);
      var ready := Prepared(preparation, given);
      if !ready {
        return Err(Conflict);
      }
      var plan := Grafted(s, given);
      if exists t :: t in Preparatory(plan.tasks) && t !in preparation {
        return Err(Conflict);
      }
      var valid := Validate(plan);
      if !valid {
        return Err(InputError);
      }
      if exists i :: 0 <= i < |s.events| && s.events[i].PlanCreated? && s.events[i].command == key {
        var stored := GetPlan(s, plan.version);
        return if stored.Some? && PlanSubject(stored.value) == PlanSubject(plan) then Ok(s.run) else Err(Conflict);
      }
      reply := Admit(plan, preparation, key);
    }

    /** The goal checks, the goal gate and the writes of `install_plan`. */
    method Admit(plan: Plan, preparation: seq<Task>, key: string) returns (reply: Result<Run, Error>)
      requires uow.staged == uow.durable
      modifies uow
      ensures Outcome(uow.durable, reply) == AdmitPlan(old(uow.durable), plan, preparation, key)
      ensures uow.staged == uow.durable
    {
      var s := uow.staged;
      if !Installable(s, plan) {
        return Err(Conflict);
      }
      var goal := s.goals[plan.goal];
      var gate := uow.RequireApproval(RequestId(GoalStage, goal.version, GoalSubject(goal)));
      if gate.Err? {
        return Err(gate.error);
      }
      reply := StorePlan(plan, preparation, key);
    }

    method LogTasks(tasks: seq<Task>, preparation: seq<Task>, key: string)
      modifies uow`staged
      ensures uow.staged == old(uow.staged).(events := old(uow.staged.events) + CreateEvents(tasks, preparation, key))
    {
      for i := 0 to |tasks|
        invariant uow.staged == old(uow.staged).(events := uow.staged.events)
        invariant uow.staged.events + CreateEvents(tasks[i..], preparation, key)
               == old(uow.staged.events) + CreateEvents(tasks, preparation, key)
      {
        if tasks[i] in preparation {
          continue;
        }
        uow.Append(TaskCreated(key, tasks[i].id));
      }
    }

    /** The writes of an admitted installation. */
    method StorePlan(plan: Plan, preparation: seq<Task>, key: string) returns (reply: Result<Run, Error>)
      requires uow.staged == uow.durable
      modifies uow
      ensures var s, saved := old(uow.durable), SavePlan(old(uow.durable), plan);
        if saved.None? then reply == Err(Conflict) && uow.durable == s
        else uow.durable == Publish(saved.value, s.run.(planVersion := 1),
                                    [PlanCreated(key, 1)] + CreateEvents(plan.tasks, preparation, key), key)
             && reply == Ok(uow.durable.run)
      ensures uow.staged == uow.durable
    {
      var saved := SavePlan(uow.staged, plan);
      if saved.None? {
        return Err(Conflict);
      }
      uow.staged := saved.value.(run := uow.staged.run.(planVersion := 1));
      uow.Append(PlanCreated(key, 1));
      LogTasks(plan.tasks, preparation, key);
      assert saved.value.events + [PlanCreated(key, 1)] + CreateEvents(plan.tasks, preparation, key)
          == saved.value.events + ([PlanCreated(key, 1)] + CreateEvents(plan.tasks, preparation, key));
      uow.RefreshReady(ByRun(key));
      uow.Commit();
      return Ok(uow.durable.run);
    }

    // -------------------------------------------------------------------------------
    // Control policy and decisions

    /** `configure`: the mode and its gates are checked, then the policy is saved in a transaction of its own. */
    method Configure(mode: ControlMode, gates: Option<set<Stage>>) returns (reply: Result<ControlPolicy, Error>)
      requires uow.staged == uow.durable
      modifies uow
      ensures match Chosen(mode, gates)
              case Err(error) => reply == Err(error) && uow.durable == old(uow.durable)
              case Ok(policy) => Outcome(uow.durable, reply) == RunStore.Configure(old(uow.durable), policy)
      ensures uow.staged == uow.durable
    {
      if mode == AutonomousMode && gates.Some? && gates.value != {} {
        return Err(InputError);
      }
      var policy := if mode == AutonomousMode then Autonomous
                    else Supervised(if gates.None? then SUPERVISED_GATES else gates.value);
      var s := uow.staged;
      if s.policy.Some? {
        return if s.policy.value == policy then Ok(policy) else Err(Conflict);
      }
      if s.run.planVersion != 0 || s.run.state !in {Received, ContextSync, Analyzing, GoalDefined} {
        return Err(Conflict);
      }
      if s.requests != {} {
        return Err(Conflict);
      }
      if policy.Autonomous? {
        return Ok(policy);
      }
      uow.staged := uow.staged.(policy := Some(policy));
      uow.Append(PolicyConfigured);
      uow.Commit();
      return Ok(policy);
    }

    /** `decide`. */
    method Decide(id: RequestId, expected: Digest, decision: Decision) returns (reply: Result<ApprovalStatus, Error>)
      requires uow.staged == uow.durable
      modifies uow
      ensures Outcome(uow.durable, reply) == RunStore.Decide(old(uow.durable), id, expected, decision)
      ensures uow.staged == uow.durable
    {
      if decision.kind == Reject && Blank(decision.reason) {
        return Err(InputError);
      }
      if Blank(decision.operator) || |decision.operator| > 120 {
        return Err(InputError);
      }
      var s := uow.staged;
      if id !in s.requests {
        return Err(NotFound);
      }
      if id.digest != expected {
        return Err(Conflict);
      }
      if !SubjectCurrent(s, id.stage, id.version) {
        return Err(Conflict);
      }
      if id in s.decisions {
        if s.decisions[id].kind == decision.kind && s.decisions[id].operator == decision.operator {
          return Ok(StatusOf(s, id));
        }
        return Err(Conflict);
      }
      uow.staged := uow.staged.(decisions := s.decisions[id := decision]);
      var status := if decision.kind == Approve then Approved else Rejected;
      uow.Append(ApprovalDecided(id, decision));
      uow.SetApprovalStatus(id, status);
      uow.Commit();
      return Ok(status);
    }
  }

  lemma GuardPasses(s: Store, target: RunState)
    requires RunStore.Guard(s, target).reply.Ok?
    ensures RunStore.Guard(s, target).store == s
  {
  }

  // ---------------------------------------------------------------------------------
  // Worker reports

  class ExternalWork {
    const uow: UnitOfWork

    constructor (uow: UnitOfWork)
      ensures this.uow == uow
    {
      this.uow := uow;
    }

    /** `TaskRuntime.transition`. */
    method TransitionTask(execution: Uuid, status: TaskStatus, order: TaskCommand) returns (reply: Result<Attempt, Error>)
      requires uow.staged == uow.durable
      modifies uow
      ensures Outcome(uow.durable, reply) == RunStore.TransitionTask(old(uow.durable), execution, status, order)
      ensures uow.staged == uow.durable
    {
      var s := uow.staged;
      if !ExecutionState(s.run.state) && status != Cancelled {
        return Err(Conflict);
      }
      var k := FindAttempt(s.attempts, execution);
      if k.None? {
        return Err(NotFound);
      }
      var existing := FindTaskMoved(s.events, order);
      if existing.Some? {
        return if existing.value == (execution, status) then Ok(s.attempts[k.value]) else Err(Conflict);
      }
      if !AttemptMayBecome(s.attempts[k.value].status, status) {
        return Err(Conflict);
      }
      uow.TransitionAttempt(k.value, status, order);
      uow.Commit();
      return Ok(s.attempts[k.value].(status := status));
    }

    /** The receipt transaction of `report`. */
    method Receive(execution: Uuid, result: string, completed: bool) returns (reply: Result<(), Error>)
      requires uow.staged == uow.durable
      modifies uow
      ensures Outcome(uow.durable, reply) == ReceiveResult(old(uow.durable), execution, result, completed)
      ensures uow.staged == uow.durable
    {
      var s := uow.staged;
      var k := FindAttempt(s.attempts, execution);
      if k.None? || !IsAssigned(s, execution) {
        return Err(PolicyDenied);
      }
      var replay := FindReport(s.events, execution);
      if replay.Some? && replay.value != result {
        return Err(Conflict);
      }
      if replay.None? {
        if s.run.state != Executing || s.attempts[k.value].status != Running {
          return Err(Conflict);
        }
        if !completed {
          return Err(Conflict);
        }
        uow.staged := uow.staged.(artifacts := s.artifacts + [result]);
        uow.Append(ResultReported(execution, result));
        uow.Commit();
      }
      return Ok(());
    }

    /** `report`: a crash between its two transactions leaves what `Receive` ensures. */
    method Report(execution: Uuid, result: string, completed: bool) returns (reply: Result<Attempt, Error>)
      requires uow.staged == uow.durable
      modifies uow
      ensures Outcome(uow.durable, reply) == ReportResult(old(uow.durable), execution, result, completed)
      ensures uow.staged == uow.durable
    {
      var received := Receive(execution, result, completed);
      if received.Err? {
        return Err(received.error);
      }
      reply := TransitionTask(execution, Succeeded, Reported(execution));
    }

    /** `report_finding`. */
    method ReportFinding(finding: Finding, key: string, inScope: bool) returns (reply: Result<Finding, Error>)
      requires uow.staged == uow.durable
      modifies uow
      ensures Outcome(uow.durable, reply) == RunStore.ReportFinding(old(uow.durable), finding, key, inScope)
      ensures uow.staged == uow.durable
    {
      if !ValidKey(key) {
        return Err(InputError);
      }
      var s := uow.staged;
      var k := FindAttempt(s.attempts, finding.execution);
      if k.None? || !IsAssigned(s, finding.execution) {
        return Err(PolicyDenied);
      }
      var replay := FindFinding(s.events, key);
      if replay.Some? {
        return if replay.value == finding then Ok(finding) else Err(Conflict);
      }
      if s.run.state != Executing || s.attempts[k.value].status != Running {
        return Err(Conflict);
      }
      if !inScope {
        return Err(PolicyDenied);
      }
      uow.staged := uow.staged.(findings := s.findings + [finding]);
      uow.Append(FindingReported(key, finding));
      uow.Commit();
      return Ok(finding);
    }
  }
}
