/** Whole runs: every sequence of commands against one run, and what holds in every state reached.

    Commands of the modelled services are applied as they are.  Services outside this model appear as
    commands with the state checks and effects of theirs that matter here. */
module RunHistory {
  import opened Collections
  import opened RunStates
  import opened Plans
  import opened RunStore
  import opened RunFrames

  datatype Revision = RepairPlan | DeliveryPlan | PreviewPlan | GoalPlan

  datatype Command =
    | DoAdvance(target: RunState, key: string)
    | DoResume(key: string)
    | DoInstall(plan: Plan, key: string)
    | DoRevise(revision: Revision, plan: Plan, key: string)
    | DoConfigure(policy: ControlPolicy)
    | DoEnsure(request: RequestId)
    | DoDecide(request: RequestId, expected: Digest, decision: Decision)
    | DoTransition(execution: Uuid, status: TaskStatus, key: string)
    | DoReceive(execution: Uuid, result: string, completed: bool)
    | DoReport(execution: Uuid, result: string, completed: bool)
    | DoFinding(finding: Finding, key: string, inScope: bool)
    // services outside the model
    | GoalSet(id: Uuid, goal: Goal)
    | CriteriaMarked(passed: set<Uuid>)
    | PreparationAdded(task: Task)
    | WorkStarts(attempt: Attempt)
    | WorkAssigned(execution: Uuid)
    | WorkRetried(execution: Uuid)
    | DeliveryRecorded(records: DeliveryRecords)
    | FindingsReviewed(findings: seq<Finding>)
    | OtherEvent(text: string)

  // ---------------------------------------------------------------------------------
  // Plan revisions and the other services

  /** When the four revision services may replace the current plan (src/orqalis/core/plan_revision.py,
      src/orqalis/core/preview_revision.py, src/orqalis/core/replanning.py). */
  ghost predicate Revisable(s: Store, revision: Revision, plan: Plan) {
    && s.run.planVersion in s.plans && plan.version == s.run.planVersion + 1 && plan.version !in s.plans
    && Some(plan.goal) == s.run.goal && plan.goal in s.goals && ValidPlan(plan)
    && match revision
       case RepairPlan =>
         && s.run.state == RepairPlanning && FailedReviewIsCurrent(s)
         && RequireApproval(s, RequestId(RepairStage, s.run.planVersion,
                                         OfReview(s.records.reviews[|s.records.reviews| - 1]))).reply.Ok?
       case DeliveryPlan => s.run.state == Reviewing && DeliveryGuard(s, ChangeGuard) && Bound(s)
       case PreviewPlan =>
         && (s.run.state == Planned || (s.run.state == Paused && s.run.resumeState == Some(Planned)))
         && PlanForGoal(s)
       case GoalPlan =>
         && s.run.state in {Paused, HumanReviewRequired} && !PlanForGoal(s) && s.records.binding.None?
         && (forall i :: 0 <= i < |s.attempts| ==> s.attempts[i].status != Running)
         && RequireApproval(s, RequestId(GoalStage, s.goals[plan.goal].version, GoalSubject(s.goals[plan.goal]))).reply.Ok?
  }

  /** Replanning retires what is still active or pending and points a later resume at PLANNED. */
  function Retire(s: Store, revision: Revision, key: string): Store {
    match revision
    case GoalPlan => CancelPending(s, key)
    case PreviewPlan => CancelTasks(s, key, UnprepTasks(s))
    case _ => s
  }

  function UnprepTasks(s: Store): seq<Task> {
    var plan := GetPlan(s, s.run.planVersion);
    if plan.None? then [] else Introduced(plan.value.tasks)
  }

  function Introduced(tasks: seq<Task>): seq<Task> {
    if tasks == [] then []
    else (if tasks[0].planVersion > 0 then [tasks[0]] else []) + Introduced(tasks[1..])
  }

  ghost function Revised(s: Store, revision: Revision, plan: Plan, key: string): Store {
    var retired := Retire(s, revision, key);
    var saved := SavePlan(retired, plan);
    if !Revisable(s, revision, plan) || saved.None? then s
    else
      var run := s.run.(planVersion := plan.version,
                        resumeState := if revision == GoalPlan then Some(Planned) else s.run.resumeState);
      var t := Publish(saved.value, run, [PlanRevised(key, plan.version, revision == GoalPlan)], key);
      if revision == PreviewPlan && t.run.planVersion in t.plans then PrepareRequest(t, PlanRequest(t)).store else t
  }

  function Mark(criteria: seq<Criterion>, passed: set<Uuid>): seq<Criterion> {
    seq(|criteria|, i requires 0 <= i < |criteria| => criteria[i].(passed := criteria[i].id in passed))
  }

  /** Goal creation, definition and revision (src/orqalis/core/goals.py, lines 67-292); the identity is new. */
  predicate GoalSettable(s: Store, id: Uuid) {
    && id !in s.goals && (forall v :: v in s.plans ==> s.plans[v].goal != id)
    && (if s.run.goal.None? then s.run.state in {Received, Analyzing}
        else s.run.state in {Received, Analyzing, GoalDefined, Paused, HumanReviewRequired} && s.records.binding.None?)
  }

  function Retried(s: Store, execution: Uuid): Store {
    var k := FindAttempt(s.attempts, execution);
    if k.None? || Terminal(s.run.state) || s.run.state == HumanReviewRequired || !ActiveAttempt(s.attempts[k.value].status) then s
    else
      var failed := MoveAttempt(s, k.value, Failed, Given("recovery"));
      failed.(tasks := WithStatus(failed.tasks, s.attempts[k.value].task, Ready))
  }

  ghost function Apply(s: Store, c: Command): Store {
    match c
    case DoAdvance(target, key) => Advance(s, target, key).store
    case DoResume(key) => Resume(s, key).store
    case DoInstall(plan, key) => InstallPlan(s, plan, key).store
    case DoRevise(revision, plan, key) => Revised(s, revision, plan, key)
    case DoConfigure(policy) => Configure(s, policy).store
    case DoEnsure(request) => PrepareRequest(s, request).store
    case DoDecide(request, expected, decision) => Decide(s, request, expected, decision).store
    case DoTransition(execution, status, key) => TransitionTask(s, execution, status, Given(key)).store
    case DoReceive(execution, result, completed) => ReceiveResult(s, execution, result, completed).store
    case DoReport(execution, result, completed) => ReportResult(s, execution, result, completed).store
    case DoFinding(finding, key, inScope) => ReportFinding(s, finding, key, inScope).store
    case GoalSet(id, goal) =>
      if GoalSettable(s, id) then s.(goals := s.goals[id := goal], run := s.run.(goal := Some(id))) else s
    case CriteriaMarked(passed) =>
      s.(goals := map id | id in s.goals :: s.goals[id].(criteria := Mark(s.goals[id].criteria, passed)))
    case PreparationAdded(task) =>
      if s.run.state == Analyzing && s.run.planVersion == 0 && !Known(s.tasks, task.id)
      then Emit(s.(tasks := s.tasks + [task.(planVersion := 0, progress := task.progress.(status := Ready))]),
                TaskCreated("requirements", task.id))
      else s
    case WorkStarts(attempt) =>
      if ExecutionState(s.run.state) && FindAttempt(s.attempts, attempt.id).None?
      then s.(attempts := s.attempts + [attempt.(status := Running)], tasks := WithStatus(s.tasks, attempt.task, Running))
      else s
    case WorkAssigned(execution) => Emit(s, Assigned(execution))
    case WorkRetried(execution) => Retried(s, execution)
    case DeliveryRecorded(records) =>
      s.(records := records.(binding := if s.records.binding.Some? then s.records.binding else records.binding))
    case FindingsReviewed(findings) => s.(findings := findings)
    case OtherEvent(text) => Emit(s, Noted(text))
  }

  /** A run as `create` leaves it. */
  const CREATED := Store(
    Run(Received, ContextPhase, None, 0, None, false, false), map[], map[], [], [], [], None, {}, map[], Idle,
    DeliveryRecords([], [], false, [], None, false, None), [], [], [])

  ghost function After(commands: seq<Command>): Store {
    if commands == [] then CREATED else Apply(After(commands[..|commands| - 1]), commands[|commands| - 1])
  }

  // ---------------------------------------------------------------------------------
  // What no command ever takes back

  ghost predicate KeepsDecisions(s: Store, t: Store) {
    forall id :: id in s.decisions ==> id in t.decisions && t.decisions[id] == s.decisions[id]
  }

  ghost predicate KeepsPlans(s: Store, t: Store) {
    forall v :: v in s.plans ==> v in t.plans && t.plans[v] == s.plans[v]
  }

  /** The log only grows; gates, requests, decisions, plans, task contracts and attempt identities stay. */
  ghost predicate Follows(s: Store, t: Store) {
    && s.events <= t.events
    && (s.policy.Some? ==> t.policy == s.policy)
    && s.requests <= t.requests
    && KeepsDecisions(s, t) && KeepsPlans(s, t)
    && SameContracts(s.tasks, t.tasks)
    && s.run.planVersion <= t.run.planVersion
    && s.goals.Keys <= t.goals.Keys
    && KeepsAttempts(s.attempts, t.attempts)
  }

  lemma FollowsTransitive(s: Store, t: Store, u: Store)
    requires Follows(s, t) && Follows(t, u)
    ensures Follows(s, u)
  {
  }

  /** The whole effect of asking for approval. */
  ghost predicate OnlyRequest(s: Store, t: Store, id: RequestId) {
    && id !in s.requests
    && t == s.(requests := s.requests + {id}, actor := t.actor, events := t.events)
    && (t.events == s.events + [ApprovalRequested(id)]
        || t.events == s.events + [ApprovalRequested(id), ActorChanged(ByApproval(id, ApprovalPending), s.actor, t.actor)])
    && (t.actor == s.actor || t.actor == WaitingForDependency)
  }

  lemma AddRequestOnly(s: Store, id: RequestId)
    requires id !in s.requests
    ensures OnlyRequest(s, AddRequest(s, id), id) && Follows(s, AddRequest(s, id))
    ensures Appended(s.events, AddRequest(s, id).events)
  {
    assert s.events + [ApprovalRequested(id), ActorChanged(ByApproval(id, ApprovalPending), s.actor, WaitingForDependency)]
        == s.events + [ApprovalRequested(id)] + [ActorChanged(ByApproval(id, ApprovalPending), s.actor, WaitingForDependency)];
  }

  ghost predicate OnlyPhases(s: Store, t: Store) {
    t == s.(phases := t.phases, events := t.events) && Appended(s.events, t.events)
  }

  lemma StartPhaseFrame(s: Store, key: string, status: TaskStatus)
    ensures OnlyPhases(s, StartPhase(s, key, status))
  {
  }

  lemma EndPhaseFrame(s: Store, key: string, k: nat, status: TaskStatus)
    requires k < |s.phases|
    ensures OnlyPhases(s, EndPhase(s, key, k, status))
  {
  }

  lemma UpdatePhaseFrame(s: Store, key: string, status: TaskStatus, terminal: bool)
    ensures OnlyPhases(s, UpdatePhase(s, key, status, terminal))
  {
    var k := OpenPhase(s.phases);
    if k.Some? && (s.phases[k.value].name != s.run.uiPhase || terminal) {
      var ended := EndPhase(s, key, k.value, if terminal then status else Succeeded);
      EndPhaseFrame(s, key, k.value, if terminal then status else Succeeded);
      StartPhaseFrame(ended, key, status);
    } else {
      StartPhaseFrame(s, key, status);
    }
  }

  /** An admitted transition: the run moves, work may be cancelled, phases and actor follow. */
  lemma MoveFrame(s: Store, target: RunState, key: string)
    ensures var t := Move(s, target, key);
      && t.run == MoveRun(s.run, target)
      && t == s.(run := t.run, tasks := t.tasks, attempts := t.attempts, phases := t.phases, actor := t.actor, events := t.events)
      && Follows(s, t)
      && (!Terminal(target) ==> t.tasks == s.tasks && t.attempts == s.attempts)
      && FindMoved(t.events[|s.events|..], key) == Some(target)
  {
    var s1 := if Terminal(target) then CancelPending(s, key) else s;
    CancelPendingOnlyWork(s, key);
    var s2 := Emit(s1.(run := MoveRun(s1.run, target)), Moved(key, s1.run.state, target));
    var s3 := SetActor(s2, ByRun(key), ActorFor(target));
    UpdatePhaseFrame(s3, key, PhaseStatusFor(target), Terminal(target));
    FirstMoved(s.events, s1.events, Move(s, target, key).events, Moved(key, s1.run.state, target));
  }

  lemma FirstMoved(a: seq<Event>, b: seq<Event>, c: seq<Event>, e: Event)
    requires e.Moved? && Appended(a, b) && b + [e] <= c
    ensures FindMoved(c[|a|..], e.command) == Some(e.target)
  {
    var added, k := c[|a|..], |b| - |a|;
    assert added[k] == (b + [e])[|b|] == e;
    forall i | 0 <= i < k
      ensures Quiet(added[i])
    {
      assert added[i] == b[|a| + i];
    }
    FindMovedAt(added, e.command, k);
  }

  lemma {:induction false} FindMovedAt(events: seq<Event>, key: string, k: nat)
    requires k < |events| && events[k].Moved? && events[k].command == key
    requires forall i :: 0 <= i < k ==> Quiet(events[i])
    ensures FindMoved(events, key) == Some(events[k].target)
  {
    if k > 0 {
      FindMovedAt(events[1..], key, k - 1);
    }
  }

  lemma {:induction false} FindMovedAppended(a: seq<Event>, b: seq<Event>, key: string)
    ensures FindMoved(a + b, key) == if FindMoved(a, key).Some? then FindMoved(a, key) else FindMoved(b, key)
  {
    if a == [] {
      assert a + b == b;
    } else {
      FindMovedAppended(a[1..], b, key);
      assert (a + b)[1..] == a[1..] + b;
    }
  }
}
