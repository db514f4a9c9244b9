/** The durable record of one run and the transactions that change it, as functions on its value.

    The records are those of a task capsule: the run, its goals, plans, tasks, task attempts, phases,
    control policy, approvals, delivery records, the Orchestrator's actor and the event log.  Event keys
    are structured values, so keys of different commands never coincide. */
module RunStore {
  import opened Collections
  import opened RunStates
  import opened Plans
  import opened PlanGraphs

  // ---------------------------------------------------------------------------------
  // Records

  datatype Run = Run(state: RunState, uiPhase: UiPhase, resumeState: Option<RunState>, planVersion: nat,
                     goal: Option<Uuid>, started: bool, completed: bool)

  datatype Criterion = Criterion(id: Uuid, required: bool, passed: bool)

  datatype Goal = Goal(version: nat, text: string, criteria: seq<Criterion>)

  datatype Attempt = Attempt(id: Uuid, task: Uuid, status: TaskStatus)

  datatype Phase = Phase(name: UiPhase, iteration: nat, status: TaskStatus, open: bool)

  datatype Stage = GoalStage | PlanStage | TaskStage | RepairStage | DeliveryStage

  datatype ControlPolicy = Autonomous | Supervised(gates: set<Stage>)

  /** `plan_identity` up to the order of tasks and edges; by `PlanIdentity.StoreSubjectsAgree` this is what its digest tells apart. */
  datatype PlanKey = PlanKey(run: Uuid, goal: Uuid, version: nat, tasks: multiset<Task>, edges: multiset<Dependency>)

  datatype Review = Review(id: Uuid, passed: bool, goal: Option<Uuid>, planVersion: nat, tree: string)

  /** SHA-256 digests, one constructor for each kind of approval subject. */
  datatype Digest = OfPlan(plan: PlanKey) | OfGoal(version: nat, text: string, criteria: seq<Criterion>) | OfReview(review: Review)
    | OfDelivery(goal: Option<Uuid>, planVersion: nat, reviewed: Uuid, tree: string, policy: DeliveryPolicy)
    | OfOther(text: string)

  /** Requests are identified by what they ask to approve. */
  datatype RequestId = RequestId(stage: Stage, version: nat, digest: Digest)

  datatype DecisionKind = Approve | Reject

  datatype Decision = Decision(kind: DecisionKind, operator: string, reason: string)

  datatype ApprovalStatus = ApprovalPending | Approved | Rejected

  datatype ActorStatus = Idle | Working | WaitingForDependency | ActorBlocked | Complete | ActorFailed | ActorCancelled

  datatype Checkpoint = Implementation | Final

  /** A Change Guardian report; `changes` gives each changed path its new content digest, or none if it was deleted. */
  datatype Report = Report(checkpoint: Checkpoint, passed: bool, tree: string, changes: map<string, Option<string>>)

  datatype Validation = Validation(passed: bool, goal: Option<Uuid>, tree: string)

  datatype Commit = Commit(attached: bool, sha: string, tree: string, push: bool, pushed: bool)

  datatype DeliveryPolicy = DeliveryPolicy(text: string, documentationPath: Option<string>, push: bool)

  /** The persisted delivery authorization; the policy itself stands for its SHA-256 fingerprint. */
  datatype Binding = Binding(policy: DeliveryPolicy, request: Option<RequestId>)

  datatype DeliveryRecords = DeliveryRecords(
    reviews: seq<Review>, reports: seq<Report>, documented: bool,
    validations: seq<Validation>, commit: Option<Commit>, promoted: bool, binding: Option<Binding>)

  /** What the key of a task command was built from. */
  datatype TaskCommand = Given(key: string) | Cancelling(command: string, attempt: Uuid) | Reported(execution: Uuid)

  datatype Cause = ByRun(command: string) | ByTask(task: TaskCommand) | ByApproval(request: RequestId, status: ApprovalStatus)

  datatype Finding = Finding(execution: Uuid, text: string, blocking: bool, unresolved: bool)

  datatype Event =
    | Moved(command: string, previous: RunState, target: RunState)
    | ActorChanged(cause: Cause, before: ActorStatus, after: ActorStatus)
    | PhaseEnded(command: string, phase: nat, ended: TaskStatus)
    | PhaseStarted(command: string, phase: nat, begun: TaskStatus)
    | PhaseChanged(command: string, phase: nat, was: TaskStatus, now: TaskStatus)
    | TaskMoved(order: TaskCommand, attempt: Uuid, status: TaskStatus)
    | TaskCancelled(command: string, task: Uuid)
    | TaskReady(cause: Cause, task: Uuid)
    | PlanCreated(command: string, plan: nat)
    | TaskCreated(command: string, task: Uuid)
    | PlanRevised(command: string, plan: nat, replanned: bool)
    | PolicyConfigured
    | ApprovalRequested(request: RequestId)
    | ApprovalDecided(request: RequestId, decision: Decision)
    | Assigned(execution: Uuid)
    | ResultReported(execution: Uuid, fingerprint: string)
    | FindingReported(key: string, finding: Finding)
    | Noted(text: string)

  datatype Store = Store(
    run: Run, goals: map<Uuid, Goal>, plans: map<nat, Plan>, tasks: seq<Task>, attempts: seq<Attempt>,
    phases: seq<Phase>, policy: Option<ControlPolicy>, requests: set<RequestId>, decisions: map<RequestId, Decision>,
    actor: ActorStatus, records: DeliveryRecords, artifacts: seq<string>, findings: seq<Finding>, events: seq<Event>)

  datatype Error = InputError | Conflict | PolicyDenied | NotFound

  /** What a command leaves durably behind, and its reply. */
  datatype Outcome<+T> = Outcome(store: Store, reply: Result<T, Error>)

  function Emit(s: Store, e: Event): Store { s.(events := s.events + [e]) }

  // ---------------------------------------------------------------------------------
  // Plans and tasks

  /** The stored record of a task, or `t` when there is none. */
  function Lookup(tasks: seq<Task>, t: Task): Task {
    if tasks == [] then t else if tasks[0].id == t.id then tasks[0] else Lookup(tasks[1..], t)
  }

  /** `get_plan`: the stored plan with the present records of its tasks. */
  function GetPlan(s: Store, version: nat): Option<Plan> {
    if version !in s.plans then None
    else
      var plan := s.plans[version];
      Some(plan.(tasks := seq(|plan.tasks|, i requires 0 <= i < |plan.tasks| => Lookup(s.tasks, plan.tasks[i]))))
  }

  function Contracts(tasks: seq<Task>): seq<Task> {
    seq(|tasks|, i requires 0 <= i < |tasks| => Contract(tasks[i]))
  }

  function PlanSubject(plan: Plan): Digest {
    OfPlan(PlanKey(plan.run, plan.goal, plan.version, multiset(Contracts(plan.tasks)), multiset(plan.dependencies)))
  }

  function GoalSubject(goal: Goal): Digest {
    OfGoal(goal.version, goal.text,
           seq(|goal.criteria|, i requires 0 <= i < |goal.criteria| => goal.criteria[i].(passed := false)))
  }

  predicate ActiveAttempt(status: TaskStatus) { status in {Running, Waiting, Blocked} }

  /** `_TRANSITIONS` of the task runtime (src/orqalis/core/task_runtime.py). */
  predicate AttemptMayBecome(from: TaskStatus, next: TaskStatus) {
    match from
    case Running => next in {Waiting, Blocked, Succeeded, Failed, Cancelled}
    case Waiting => next in {Running, Blocked, Failed, Cancelled}
    case Blocked => next in {Running, Failed, Cancelled}
    case _ => false
  }

  /** Sets the progress of every record with this identity. */
  function WithStatus(tasks: seq<Task>, id: Uuid, status: TaskStatus): seq<Task> {
    seq(|tasks|, i requires 0 <= i < |tasks| =>
      if tasks[i].id == id then tasks[i].(progress := tasks[i].progress.(status := status)) else tasks[i])
  }

  predicate HasEdgeOutside(edges: seq<Dependency>, id: Uuid, done: set<Uuid>) {
    exists i :: 0 <= i < |edges| && edges[i].task == id && edges[i].dependsOn !in done
  }

  function SucceededIds(tasks: seq<Task>): set<Uuid> {
    set i | 0 <= i < |tasks| && tasks[i].progress.status == Succeeded :: tasks[i].id
  }

  /** `refresh_ready`: every pending task of the current plan whose prerequisites have succeeded becomes ready. */
  function RefreshReady(s: Store, cause: Cause): Store {
    var plan := GetPlan(s, s.run.planVersion);
    if plan.None? then s else MarkReady(s, plan.value, plan.value.tasks, cause)
  }

  function MarkReady(s: Store, plan: Plan, tasks: seq<Task>, cause: Cause): Store {
    if tasks == [] then s
    else
      var before := MarkReady(s, plan, tasks[..|tasks| - 1], cause);
      var t := tasks[|tasks| - 1];
      if t.progress.status == Pending && !HasEdgeOutside(plan.dependencies, t.id, SucceededIds(plan.tasks))
      then Emit(before.(tasks := WithStatus(before.tasks, t.id, Ready)), TaskReady(cause, t.id))
      else before
  }

  /** `set_actor_status` on the Orchestrator's actor. */
  function SetActor(s: Store, cause: Cause, status: ActorStatus): Store {
    Emit(s.(actor := status), ActorChanged(cause, s.actor, status))
  }

  predicate AnyActive(attempts: seq<Attempt>) {
    exists i :: 0 <= i < |attempts| && ActiveAttempt(attempts[i].status)
  }

  predicate TaskEnds(status: TaskStatus) { status in {Succeeded, Failed, Cancelled} }

  /** The effect of `transition_in_transaction` on attempt `i`, once its checks have passed. */
  function MoveAttempt(s: Store, i: nat, status: TaskStatus, cause: TaskCommand): Store
    requires i < |s.attempts|
  {
    var a := s.attempts[i];
    var moved := Emit(s.(attempts := s.attempts[i := a.(status := status)], tasks := WithStatus(s.tasks, a.task, status)),
                      TaskMoved(cause, a.id, status));
    var reported :=
      if TaskEnds(status)
      then SetActor(moved, ByTask(cause), if AnyActive(moved.attempts) then WaitingForDependency else ActorStatus.Working)
      else moved;
    if status == Succeeded then RefreshReady(reported, ByTask(cause)) else reported
  }

  // ---------------------------------------------------------------------------------
  // Cancelling what is pending

  /** The attempts up to `n`, each active one cancelled. */
  function CancelAttempts(s: Store, command: string, n: nat): Store
    requires n <= |s.attempts|
    ensures |CancelAttempts(s, command, n).attempts| == |s.attempts|
  {
    if n == 0 then s
    else
      var before := CancelAttempts(s, command, n - 1);
      if ActiveAttempt(s.attempts[n - 1].status)
      then MoveAttempt(before, n - 1, Cancelled, Cancelling(command, s.attempts[n - 1].id))
      else before
  }

  function CancelTasks(s: Store, command: string, tasks: seq<Task>): Store {
    if tasks == [] then s
    else
      var before := CancelTasks(s, command, tasks[..|tasks| - 1]);
      var t := tasks[|tasks| - 1];
      if t.progress.status in {Pending, Ready}
      then Emit(before.(tasks := WithStatus(before.tasks, t.id, Cancelled)), TaskCancelled(command, t.id))
      else before
  }

  /** `_cancel_pending`. */
  function CancelPending(s: Store, command: string): Store {
    var quiet := CancelAttempts(s, command, |s.attempts|);
    var plan := GetPlan(quiet, quiet.run.planVersion);
    if plan.None? then quiet else CancelTasks(quiet, command, plan.value.tasks)
  }

  // ---------------------------------------------------------------------------------
  // Phases

  function CountNamed(phases: seq<Phase>, name: UiPhase): nat {
    if phases == [] then 0
    else CountNamed(phases[..|phases| - 1], name) + if phases[|phases| - 1].name == name then 1 else 0
  }

  /** The newest open phase. */
  function OpenPhase(phases: seq<Phase>): (k: Option<nat>)
    ensures k.Some? ==> k.value < |phases| && phases[k.value].open
  {
    if phases == [] then None
    else if phases[|phases| - 1].open then Some(|phases| - 1)
    else OpenPhase(phases[..|phases| - 1])
  }

  function EndPhase(s: Store, command: string, k: nat, status: TaskStatus): Store
    requires k < |s.phases|
  {
    Emit(s.(phases := s.phases[k := s.phases[k].(status := status, open := false)]), PhaseEnded(command, k, status))
  }

  function StartPhase(s: Store, command: string, status: TaskStatus): Store {
    var phase := Phase(s.run.uiPhase, 1 + CountNamed(s.phases, s.run.uiPhase), status, true);
    Emit(s.(phases := s.phases + [phase]), PhaseStarted(command, |s.phases|, status))
  }

  /** `update_phase`. */
  function UpdatePhase(s: Store, command: string, status: TaskStatus, terminal: bool): Store {
    var k := OpenPhase(s.phases);
    if k.Some? && (s.phases[k.value].name != s.run.uiPhase || terminal) then
      var ended := EndPhase(s, command, k.value, if terminal then status else Succeeded);
      if terminal then ended else StartPhase(ended, command, status)
    else if terminal then s
    else if k.None? then StartPhase(s, command, status)
    else if s.phases[k.value].status != status then
      Emit(s.(phases := s.phases[k.value := s.phases[k.value].(status := status)]),
           PhaseChanged(command, k.value, s.phases[k.value].status, status))
    else s
  }

  // ---------------------------------------------------------------------------------
  // Approvals

  predicate Requires(s: Store, stage: Stage) {
    s.policy.Some? && s.policy.value.Supervised? && stage in s.policy.value.gates
  }

  function StatusOf(s: Store, id: RequestId): ApprovalStatus {
    if id !in s.decisions then ApprovalPending else if s.decisions[id].kind == Approve then Approved else Rejected
  }

  /** `_validate_subject`. */
  predicate SubjectCurrent(s: Store, stage: Stage, version: nat) {
    if stage == GoalStage then
      s.run.goal.Some? && s.run.goal.value in s.goals && s.goals[s.run.goal.value].version == version
    else if stage == TaskStage && version == 0 && s.run.state == Analyzing then true
    else version == s.run.planVersion && version > 0
  }

  /** `set_approval_actor_status`. */
  function ShowCheckpoint(s: Store, id: RequestId, status: ApprovalStatus): Store {
    if s.actor in {Complete, ActorCancelled, ActorFailed} then s
    else
      var target := if status == Rejected then ActorBlocked else WaitingForDependency;
      if s.actor == target then s else SetActor(s, ByApproval(id, status), target)
  }

  function AddRequest(s: Store, id: RequestId): Store {
    ShowCheckpoint(Emit(s.(requests := s.requests + {id}), ApprovalRequested(id)), id, ApprovalPending)
  }

  /** `prepare_approval_request`; the flag says whether a request was created. */
  function PrepareRequest(s: Store, id: RequestId): Outcome<(Option<RequestId>, bool)> {
    if !Requires(s, id.stage) then Outcome(s, Ok((None, false)))
    else if !SubjectCurrent(s, id.stage, id.version) then Outcome(s, Err(Conflict))
    else if id in s.requests then Outcome(s, Ok((Some(id), false)))
    else Outcome(AddRequest(s, id), Ok((Some(id), true)))
  }

  /** `require_approval`: passing leaves no trace; a missing request is durably created before the refusal. */
  function RequireApproval(s: Store, id: RequestId): Outcome<()> {
    if !Requires(s, id.stage) then Outcome(s, Ok(()))
    else if !SubjectCurrent(s, id.stage, id.version) then Outcome(s, Err(Conflict))
    else if id !in s.requests then Outcome(AddRequest(s, id), Err(PolicyDenied))
    else if StatusOf(s, id) == Approved then Outcome(s, Ok(()))
    else Outcome(s, Err(PolicyDenied))
  }

  datatype ControlMode = AutonomousMode | SupervisedMode

  const SUPERVISED_GATES := {GoalStage, PlanStage, RepairStage, DeliveryStage}

  /** The policy an operator chooses: an autonomous run has no gates, a supervised one the given or the default ones. */
  function Chosen(mode: ControlMode, gates: Option<set<Stage>>): Result<ControlPolicy, Error> {
    match mode
    case AutonomousMode => if gates.Some? && gates.value != {} then Err(InputError) else Ok(Autonomous)
    case SupervisedMode => Ok(Supervised(if gates.Some? then gates.value else SUPERVISED_GATES))
  }

  /** `save_initial_control_policy` for a chosen policy.  An ordinary autonomous run keeps no policy record. */
  function Configure(s: Store, policy: ControlPolicy): Outcome<ControlPolicy> {
    if s.policy.Some? then
      Outcome(s, if s.policy.value == policy then Ok(policy) else Err(Conflict))
    else if s.run.planVersion != 0 || s.run.state !in {Received, ContextSync, Analyzing, GoalDefined} then
      Outcome(s, Err(Conflict))
    else if s.requests != {} then Outcome(s, Err(Conflict))
    else if policy.Autonomous? then Outcome(s, Ok(policy))
    else Outcome(Emit(s.(policy := Some(policy)), PolicyConfigured), Ok(policy))
  }

  /** `ApprovalService.decide` on request `id`, `expected` being the digest the operator saw. */
  function Decide(s: Store, id: RequestId, expected: Digest, decision: Decision): Outcome<ApprovalStatus> {
    if decision.kind == Reject && Blank(decision.reason) then Outcome(s, Err(InputError))
    else if Blank(decision.operator) || |decision.operator| > 120 then Outcome(s, Err(InputError))
    else if id !in s.requests then Outcome(s, Err(NotFound))
    else if id.digest != expected then Outcome(s, Err(Conflict))
    else if !SubjectCurrent(s, id.stage, id.version) then Outcome(s, Err(Conflict))
    else if id in s.decisions then
      Outcome(s, if s.decisions[id].kind == decision.kind && s.decisions[id].operator == decision.operator
                 then Ok(StatusOf(s, id)) else Err(Conflict))
    else
      var status := if decision.kind == Approve then Approved else Rejected;
      Outcome(ShowCheckpoint(Emit(s.(decisions := s.decisions[id := decision]), ApprovalDecided(id, decision)), id, status),
              Ok(status))
  }

  // ---------------------------------------------------------------------------------
  // Guards

  function LastReport(reports: seq<Report>, checkpoint: Checkpoint): Option<Report> {
    if reports == [] then None
    else if reports[|reports| - 1].checkpoint == checkpoint then Some(reports[|reports| - 1])
    else LastReport(reports[..|reports| - 1], checkpoint)
  }

  predicate PlanFinished(s: Store) {
    var plan := GetPlan(s, s.run.planVersion);
    plan.Some? && forall i :: 0 <= i < |plan.value.tasks| ==> plan.value.tasks[i].progress.status in {Succeeded, Skipped}
  }

  predicate BlockedByFinding(findings: seq<Finding>) {
    exists i :: 0 <= i < |findings| && findings[i].blocking && findings[i].unresolved
  }

  const DELIVERY_TARGETS := {ChangeGuard, Documenting, DeliveryValidation, Committing, Pushing, MemoryFinalization, Completed}

  /** `guard_delivery` (src/orqalis/delivery/gates.py). */
  predicate DeliveryGuard(s: Store, target: RunState) {
    && (target == Completed ==> s.records.promoted && PlanFinished(s))
    && DeliveryReady(s.records, s.run.goal, s.findings, target)
  }

  /** What `guard_delivery` asks of reviews, reports, validations and the commit. */
  predicate DeliveryReady(r: DeliveryRecords, goal: Option<Uuid>, findings: seq<Finding>, target: RunState) {
    target in DELIVERY_TARGETS ==>
      && !BlockedByFinding(findings)
      && r.reviews != [] && r.reviews[|r.reviews| - 1].passed && r.reviews[|r.reviews| - 1].goal == goal
      && (target != ChangeGuard ==> BeyondChangeGuard(r, goal, target))
  }

  predicate BeyondChangeGuard(r: DeliveryRecords, goal: Option<Uuid>, target: RunState) {
    var implementation, final := LastReport(r.reports, Implementation), LastReport(r.reports, Final);
    && implementation.Some? && implementation.value.passed
    && r.reviews != [] && implementation.value.tree == r.reviews[|r.reviews| - 1].tree
    && (target != Documenting ==>
          && r.documented
          && (target != DeliveryValidation ==>
                && r.validations != [] && r.validations[|r.validations| - 1].passed
                && r.validations[|r.validations| - 1].goal == goal
                && final.Some? && final.value.passed
                && final.value.tree == r.validations[|r.validations| - 1].tree
                && (target != Committing ==> Committed(r.commit, final.value.tree, target))))
  }

  predicate Committed(commit: Option<Commit>, tree: string, target: RunState) {
    && commit.Some? && commit.value.attached && commit.value.sha != "" && commit.value.tree == tree
    && (target == Pushing ==> commit.value.push)
    && (target in {MemoryFinalization, Completed} ==> !commit.value.push || commit.value.pushed)
  }

  /** `require_delivery_binding`. */
  predicate Bound(s: Store) {
    && s.records.binding.Some?
    && (Requires(s, DeliveryStage) ==>
          var request := s.records.binding.value.request;
          && request.Some? && request.value in s.requests && request.value.stage == DeliveryStage
          && StatusOf(s, request.value) == Approved
          && s.records.reviews != []
          && request.value.version == s.records.reviews[|s.records.reviews| - 1].planVersion)
  }

  predicate RequiredCriteriaPass(goal: Option<Uuid>, goals: map<Uuid, Goal>) {
    && goal.Some? && goal.value in goals
    && var criteria := goals[goal.value].criteria;
       forall i :: 0 <= i < |criteria| && criteria[i].required ==> criteria[i].passed
  }

  predicate FailedReviewIsCurrent(s: Store) {
    var reviews := s.records.reviews;
    && reviews != [] && !reviews[|reviews| - 1].passed
    && reviews[|reviews| - 1].planVersion == s.run.planVersion && reviews[|reviews| - 1].goal == s.run.goal
  }

  predicate PlanForGoal(s: Store) {
    s.run.planVersion in s.plans && Some(s.plans[s.run.planVersion].goal) == s.run.goal
  }

  function PlanRequest(s: Store): RequestId
    requires s.run.planVersion in s.plans
  {
    RequestId(PlanStage, s.run.planVersion, PlanSubject(GetPlan(s, s.run.planVersion).value))
  }

  /** `_guard`, in the order of the source. */
  function Guard(s: Store, target: RunState): Outcome<()> {
    var reviews := s.records.reviews;
    if !DeliveryGuard(s, target) then Outcome(s, Err(PolicyDenied))
    else if target == ChangeGuard && !Bound(s) then Outcome(s, Err(PolicyDenied))
    else if target == RepairPlanning then
      if !FailedReviewIsCurrent(s) then Outcome(s, Err(Conflict))
      else RequireApproval(s, RequestId(RepairStage, s.run.planVersion, OfReview(reviews[|reviews| - 1])))
    else if target == Executing && s.run.state == RepairPlanning
            && (reviews == [] || s.run.planVersion != reviews[|reviews| - 1].planVersion + 1) then Outcome(s, Err(Conflict))
    else if Suspended(target) && (exists i :: 0 <= i < |s.attempts| && s.attempts[i].status == Running) then
      Outcome(s, Err(Conflict))
    else if target == GoalDefined && s.run.goal.None? then Outcome(s, Err(Conflict))
    else if target in {Planned, Executing} && !PlanForGoal(s) then Outcome(s, Err(Conflict))
    else if target == Executing then RequireApproval(s, PlanRequest(s))
    else if target == ChangeGuard && !RequiredCriteriaPass(s.run.goal, s.goals) then Outcome(s, Err(Conflict))
    else Outcome(s, Ok(()))
  }

  // ---------------------------------------------------------------------------------
  // advance

  function FindMoved(events: seq<Event>, command: string): Option<RunState> {
    if events == [] then None
    else if events[0].Moved? && events[0].command == command then Some(events[0].target)
    else FindMoved(events[1..], command)
  }

  function ActorFor(target: RunState): ActorStatus {
    match target
    case CancelledRun => ActorCancelled
    case FailedRun => ActorFailed
    case Completed => Complete
    case Paused => WaitingForDependency
    case BlockedRun => ActorBlocked
    case HumanReviewRequired => ActorBlocked
    case _ => ActorStatus.Working
  }

  function PhaseStatusFor(target: RunState): TaskStatus {
    match target
    case CancelledRun => Cancelled
    case FailedRun => Failed
    case Completed => Succeeded
    case Paused => Waiting
    case BlockedRun => Blocked
    case HumanReviewRequired => Blocked
    case _ => Running
  }

  function ResumeAfter(run: Run, target: RunState): Option<RunState> {
    if Suspended(target) && !Suspended(run.state) then Some(run.state)
    else if Suspended(run.state) && !Suspended(target) then None
    else run.resumeState
  }

  function MoveRun(run: Run, target: RunState): Run {
    var phase := PhaseOf(target);
    run.(state := target, uiPhase := if phase.Some? then phase.value else run.uiPhase,
         resumeState := ResumeAfter(run, target),
         started := run.started || !Terminal(target), completed := Terminal(target))
  }

  /** The run, event, actor and phase changes of an admitted transition. */
  function Move(s: Store, target: RunState, key: string): Store {
    var s1 := if Terminal(target) then CancelPending(s, key) else s;
    var s2 := Emit(s1.(run := MoveRun(s1.run, target)), Moved(key, s1.run.state, target));
    var s3 := SetActor(s2, ByRun(key), ActorFor(target));
    UpdatePhase(s3, key, PhaseStatusFor(target), Terminal(target))
  }

  /** `Orchestrator.advance`. */
  function Advance(s: Store, target: RunState, key: string): Outcome<Run> {
    if !ValidKey(key) then Outcome(s, Err(InputError))
    else
      var existing := FindMoved(s.events, key);
      if existing.Some? then Outcome(s, if existing.value == target then Ok(s.run) else Err(Conflict))
      else if !ValidTransition(s.run.state, target, s.run.resumeState) then Outcome(s, Err(Conflict))
      else
        var gate := Guard(s, target);
        if gate.reply.Err? then Outcome(gate.store, Err(gate.reply.error))
        else
          var moved := Move(s, target, key);
          if target == Planned && moved.run.planVersion in moved.plans then
            var prepared := PrepareRequest(moved, PlanRequest(moved));
            if prepared.reply.Err? then Outcome(s, Err(prepared.reply.error))
            else Outcome(prepared.store, Ok(prepared.store.run))
          else Outcome(moved, Ok(moved.run))
  }

  // ---------------------------------------------------------------------------------
  // resume

  /** `Orchestrator.resume`: the first transaction finds the state to return to, unless the run was resumed already. */
  function ResumeTarget(s: Store, key: string): Result<Option<RunState>, Error> {
    if s.run.resumeState.Some? then Ok(s.run.resumeState)
    else if exists i :: 0 <= i < |s.events| && s.events[i].Moved? && s.events[i].command == key && IsResumption(s.events[i]) then Ok(None)
    else Err(Conflict)
  }

  /** Whether a transition is logged as RUN_RESUMED. */
  predicate IsResumption(e: Event)
    requires e.Moved?
  {
    Suspended(e.previous) && !Suspended(e.target) && !Terminal(e.target)
  }

  function Resume(s: Store, key: string): Outcome<Run> {
    var target := ResumeTarget(s, key);
    if target.Err? then Outcome(s, Err(target.error))
    else if target.value.None? then Outcome(s, Ok(s.run))
    else Advance(s, target.value.value, key)
  }

  // ---------------------------------------------------------------------------------
  // install_plan

  function Preparatory(tasks: seq<Task>): seq<Task> {
    if tasks == [] then []
    else (if tasks[0].planVersion == 0 then [tasks[0]] else []) + Preparatory(tasks[1..])
  }

  function Grafted(s: Store, plan: Plan): Plan {
    var preparation := Preparatory(s.tasks);
    if preparation != [] && Preparatory(plan.tasks) == [] then Graft(plan, preparation) else plan
  }

  predicate Known(tasks: seq<Task>, id: Uuid) { exists i :: 0 <= i < |tasks| && tasks[i].id == id }

  function NewTasks(known: seq<Task>, tasks: seq<Task>): seq<Task> {
    if tasks == [] then []
    else (if Known(known, tasks[0].id) then [] else [tasks[0]]) + NewTasks(known, tasks[1..])
  }

  /** `save_plan`: neither a plan version nor a task record is ever rewritten. */
  function SavePlan(s: Store, plan: Plan): Option<Store> {
    if plan.version in s.plans && s.plans[plan.version] != plan then None
    else if exists i :: 0 <= i < |plan.tasks| && Lookup(s.tasks, plan.tasks[i]) != plan.tasks[i] then None
    else Some(s.(plans := s.plans[plan.version := plan], tasks := s.tasks + NewTasks(s.tasks, plan.tasks)))
  }

  /** Makes a saved plan current, logs it and readies its first tasks. */
  function Publish(saved: Store, run: Run, log: seq<Event>, key: string): Store {
    RefreshReady(saved.(run := run, events := saved.events + log), ByRun(key))
  }

  function CreateEvents(tasks: seq<Task>, preparation: seq<Task>, key: string): seq<Event> {
    if tasks == [] then []
    else (if tasks[0] in preparation then [] else [TaskCreated(key, tasks[0].id)]) + CreateEvents(tasks[1..], preparation, key)
  }

  predicate Covers(tasks: seq<Task>, criteria: seq<Criterion>) {
    && (forall i :: 0 <= i < |tasks| ==> forall c :: c in tasks[i].criteria ==>
          exists k :: 0 <= k < |criteria| && criteria[k].id == c)
    && (forall k :: 0 <= k < |criteria| && criteria[k].required ==>
          exists i :: 0 <= i < |tasks| && criteria[k].id in tasks[i].criteria)
  }

  /** The checks of `install_plan` on a grafted, valid plan, before the goal gate. */
  predicate Installable(s: Store, plan: Plan) {
    && s.run.state == GoalDefined && s.run.planVersion == 0
    && Some(plan.goal) == s.run.goal && plan.version == 1
    && (forall t :: t in plan.tasks && t !in Preparatory(s.tasks) ==>
          t.progress.status == Pending && t.progress.attempts == 0)
    && plan.goal in s.goals && Covers(plan.tasks, s.goals[plan.goal].criteria)
  }

  /** `Orchestrator.install_plan`. */
  ghost function InstallPlan(s: Store, given: Plan, key: string): Outcome<Run> {
    var preparation := Preparatory(s.tasks);
    var plan := Grafted(s, given);
    if !ValidKey(key) then Outcome(s, Err(InputError))
    else if preparation != [] && Preparatory(given.tasks) == []
            && exists p :: p in preparation && p.progress.status != Succeeded then Outcome(s, Err(Conflict))
    else if exists t :: t in Preparatory(plan.tasks) && t !in preparation then Outcome(s, Err(Conflict))
    else if !ValidPlan(plan) then Outcome(s, Err(InputError))
    else if exists i :: 0 <= i < |s.events| && s.events[i].PlanCreated? && s.events[i].command == key then
      var stored := GetPlan(s, plan.version);
      Outcome(s, if stored.Some? && PlanSubject(stored.value) == PlanSubject(plan) then Ok(s.run) else Err(Conflict))
    else AdmitPlan(s, plan, preparation, key)
  }

  /** The rest of `install_plan` for a valid plan under a new key: goal checks, the goal gate and the writes. */
  function AdmitPlan(s: Store, plan: Plan, preparation: seq<Task>, key: string): Outcome<Run> {
    if !Installable(s, plan) then Outcome(s, Err(Conflict))
    else
      var goal := s.goals[plan.goal];
      var gate := RequireApproval(s, RequestId(GoalStage, goal.version, GoalSubject(goal)));
      if gate.reply.Err? then Outcome(gate.store, Err(gate.reply.error))
      else
        var saved := SavePlan(s, plan);
        if saved.None? then Outcome(s, Err(Conflict))
        else
          var t := Publish(saved.value, s.run.(planVersion := 1),
                           [PlanCreated(key, 1)] + CreateEvents(plan.tasks, preparation, key), key);
          Outcome(t, Ok(t.run))
  }

  // ---------------------------------------------------------------------------------
  // Worker commands

  /** `_EXECUTION_STATES` of the task runtime. */
  predicate ExecutionState(s: RunState) {
    s in {Analyzing, MemoryFinalization, DeliveryValidation, Committing, Pushing, Executing, Testing, Reviewing,
          Documenting, ChangeGuard}
  }

  function FindAttempt(attempts: seq<Attempt>, id: Uuid): (k: Option<nat>)
    ensures k.Some? ==> k.value < |attempts| && attempts[k.value].id == id
    ensures k.None? ==> forall i :: 0 <= i < |attempts| ==> attempts[i].id != id
  {
    if attempts == [] then None
    else if attempts[|attempts| - 1].id == id then Some(|attempts| - 1)
    else FindAttempt(attempts[..|attempts| - 1], id)
  }

  function FindTaskMoved(events: seq<Event>, order: TaskCommand): Option<(Uuid, TaskStatus)> {
    if events == [] then None
    else if events[0].TaskMoved? && events[0].order == order then Some((events[0].attempt, events[0].status))
    else FindTaskMoved(events[1..], order)
  }

  /** `TaskRuntime.transition`. */
  function TransitionTask(s: Store, execution: Uuid, status: TaskStatus, order: TaskCommand): Outcome<Attempt> {
    var k := FindAttempt(s.attempts, execution);
    if !ExecutionState(s.run.state) && status != Cancelled then Outcome(s, Err(Conflict))
    else if k.None? then Outcome(s, Err(NotFound))
    else
      var existing := FindTaskMoved(s.events, order);
      if existing.Some? then
        Outcome(s, if existing.value == (execution, status) then Ok(s.attempts[k.value]) else Err(Conflict))
      else if !AttemptMayBecome(s.attempts[k.value].status, status) then Outcome(s, Err(Conflict))
      else
        var moved := MoveAttempt(s, k.value, status, order);
        Outcome(moved, Ok(s.attempts[k.value].(status := status)))
  }

  predicate IsAssigned(s: Store, execution: Uuid) {
    exists i :: 0 <= i < |s.events| && s.events[i] == Assigned(execution)
  }

  function FindReport(events: seq<Event>, execution: Uuid): Option<string> {
    if events == [] then None
    else if events[0].ResultReported? && events[0].execution == execution then Some(events[0].fingerprint)
    else FindReport(events[1..], execution)
  }

  /** The first transaction of `report` (src/orqalis/core/external.py): the receipt. */
  function ReceiveResult(s: Store, execution: Uuid, result: string, completed: bool): Outcome<()> {
    var k := FindAttempt(s.attempts, execution);
    if k.None? || !IsAssigned(s, execution) then Outcome(s, Err(PolicyDenied))
    else
      var replay := FindReport(s.events, execution);
      if replay.Some? then Outcome(s, if replay.value == result then Ok(()) else Err(Conflict))
      else if s.run.state != Executing || s.attempts[k.value].status != Running || !completed then Outcome(s, Err(Conflict))
      else Outcome(Emit(s.(artifacts := s.artifacts + [result]), ResultReported(execution, result)), Ok(()))
  }

  /** `report`: the receipt, then the transition of the attempt in a transaction of its own. */
  function ReportResult(s: Store, execution: Uuid, result: string, completed: bool): Outcome<Attempt> {
    var received := ReceiveResult(s, execution, result, completed);
    if received.reply.Err? then Outcome(received.store, Err(received.reply.error))
    else TransitionTask(received.store, execution, Succeeded, Reported(execution))
  }

  function FindFinding(events: seq<Event>, key: string): Option<Finding> {
    if events == [] then None
    else if events[0].FindingReported? && events[0].key == key then Some(events[0].finding)
    else FindFinding(events[1..], key)
  }

  /** `report_finding`; `inScope` stands for the checks on its criterion and source path. */
  function ReportFinding(s: Store, finding: Finding, key: string, inScope: bool): Outcome<Finding> {
    var k := FindAttempt(s.attempts, finding.execution);
    if !ValidKey(key) then Outcome(s, Err(InputError))
    else if k.None? || !IsAssigned(s, finding.execution) then Outcome(s, Err(PolicyDenied))
    else
      var replay := FindFinding(s.events, key);
      if replay.Some? then Outcome(s, if replay.value == finding then Ok(finding) else Err(Conflict))
      else if s.run.state != Executing || s.attempts[k.value].status != Running then Outcome(s, Err(Conflict))
      else if !inScope then Outcome(s, Err(PolicyDenied))
      else Outcome(Emit(s.(findings := s.findings + [finding]), FindingReported(key, finding)), Ok(finding))
  }
}
