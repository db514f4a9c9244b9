/** Delivery of an accepted run (src/orqalis/core/delivery.py): `_finalize` as the sequence of its durable
    transactions, interrupted and repeated at will, beside everything else that may happen to the run.

    The six delivery tasks and their attempts are kept apart from the plan's other tasks, of which only the status
    matters here. */
module Delivery {
  import opened Collections
  import opened RunStates
  import opened Plans
  import opened RunStore

  // ---------------------------------------------------------------------------------
  // State

  /** The delivery steps in order; `STEP_COUNT` of them, one task each. */
  const IMPLEMENTATION := 0
  const DOCUMENTATION := 1
  const VALIDATION := 2
  const FINAL := 3
  const GIT := 4
  const STEP_COUNT := 6

  function Target(step: nat): RunState
    requires step < STEP_COUNT
  {
    [ChangeGuard, Documenting, DeliveryValidation, DeliveryValidation, Committing, MemoryFinalization][step]
  }

  /** Run states at which `finalize` may be called. */
  const CHECKPOINTS := {Reviewing, ChangeGuard, Documenting, DeliveryValidation, Committing, Pushing, MemoryFinalization, Completed}

  datatype StepAttempt = StepAttempt(step: nat, status: TaskStatus)

  /** Where a `finalize` call stands between two transactions. */
  datatype Position =
    | Opening(request: RequestId)
    | Authorized(approved: Option<RequestId>)
    | Installing
    | Loop(next: nat)
    | Admitted(admitted: nat, seen: RunState)
    | Starting(starting: nat)
    | Acting(acting: nat, attempt: nat)
    | Inspected(inspected: nat, attempt: nat, report: Report)
    | Publishing(attempt: nat, seen: RunState)
    | Sending(attempt: nat)
    | Acted(acted: nat, attempt: nat)
    | Failing(failing: nat, attempt: nat)
    | Blocking(attempt: nat)

  datatype Driver = Driver(policy: DeliveryPolicy, at: Position)

  /** What `finalize` reads and does not write: the goals, the states of the other tasks, and findings. */
  datatype Surroundings = Surroundings(goals: map<Uuid, Goal>, others: seq<TaskStatus>, findings: seq<Finding>)

  /** The durable record, and the call that holds the run lock, if any.  `keys` are the targets already entered
      under a `delivery:state:` key. */
  datatype State = State(run: Run, around: Surroundings, policy: Option<ControlPolicy>, requests: set<RequestId>,
                         decisions: map<RequestId, Decision>, records: DeliveryRecords, steps: seq<TaskStatus>,
                         attempts: seq<StepAttempt>, keys: set<RunState>, driver: Option<Driver>)

  /** The same run for the operations that concern approvals only. */
  function AsStore(s: State): Store {
    Store(s.run, map[], map[], [], [], [], s.policy, s.requests, s.decisions, Idle, s.records, [], [], [])
  }

  /** What the world answers to one transaction. */
  datatype World = World(report: Report, validation: Validation, sha: string, ok: bool)

  datatype Action =
    | Call(policy: DeliveryPolicy)
    | Proceed(world: World)
    | Crash
    | Steer(target: RunState)
    | Ask(request: RequestId)
    | Rule(request: RequestId, expected: Digest, decision: Decision)
    | Retry(attempt: nat)
    | Review(review: RunStore.Review)
    | Elsewhere(goal: Option<Uuid>, version: nat, around: Surroundings)

  function Leave(s: State): State { s.(driver := None) }

  function Go(s: State, at: Position): State
    requires s.driver.Some?
  {
    s.(driver := Some(s.driver.value.(at := at)))
  }

  // ---------------------------------------------------------------------------------
  // Run transitions

  predicate AllSucceeded(steps: seq<TaskStatus>) {
    |steps| == STEP_COUNT && forall k :: 0 <= k < |steps| ==> steps[k] == Succeeded
  }

  predicate Finished(statuses: seq<TaskStatus>) { forall status :: status in statuses ==> status in {Succeeded, Skipped} }

  predicate AnyRunning(attempts: seq<StepAttempt>) {
    exists i :: 0 <= i < |attempts| && attempts[i].status == Running
  }

  predicate ActiveOn(attempts: seq<StepAttempt>, step: nat) {
    exists i :: 0 <= i < |attempts| && attempts[i].step == step && ActiveAttempt(attempts[i].status)
  }

  predicate MayEnter(s: State, target: RunState) {
    && ValidTransition(s.run.state, target, s.run.resumeState)
    && DeliveryReady(s.records, s.run.goal, s.around.findings, target)
    && (target == ChangeGuard ==> Bound(AsStore(s)) && RequiredCriteriaPass(s.run.goal, s.around.goals))
    && (target == Completed ==> s.records.promoted && AllSucceeded(s.steps) && Finished(s.around.others))
    && (Suspended(target) ==> !AnyRunning(s.attempts))
  }

  /** What the end of a run cancels. */
  function Cancel(s: State): State {
    s.(steps := seq(|s.steps|, k requires 0 <= k < |s.steps| =>
         if s.steps[k] in {Pending, Ready} || ActiveOn(s.attempts, k) then Cancelled else s.steps[k]),
       attempts := seq(|s.attempts|, i requires 0 <= i < |s.attempts| =>
         if ActiveAttempt(s.attempts[i].status) then s.attempts[i].(status := Cancelled) else s.attempts[i]))
  }

  function Enter(s: State, target: RunState): State {
    (if Terminal(target) then Cancel(s) else s).(run := MoveRun(s.run, target))
  }

  /** `advance` under the key of this target: a replay changes nothing. */
  function EnterOnce(s: State, target: RunState): Option<State> {
    if target in s.keys then Some(s)
    else if MayEnter(s, target) then Some(Enter(s, target).(keys := s.keys + {target}))
    else None
  }

  // ---------------------------------------------------------------------------------
  // Step attempts

  /** Moves an attempt and the task of its step. */
  function Settle(s: State, attempt: nat, status: TaskStatus): State
    requires attempt < |s.attempts| && s.attempts[attempt].step < |s.steps|
  {
    s.(attempts := s.attempts[attempt := s.attempts[attempt].(status := status)],
       steps := s.steps[s.attempts[attempt].step := status])
  }

  /** `refresh_ready` along the chain of steps. */
  function ReadyNext(steps: seq<TaskStatus>, step: nat): seq<TaskStatus> {
    if step + 1 < |steps| && steps[step + 1] == Pending then steps[step + 1 := Ready] else steps
  }

  function RunningAttempt(attempts: seq<StepAttempt>, step: nat): (i: Option<nat>)
    ensures i.Some? ==> i.value < |attempts| && attempts[i.value] == StepAttempt(step, Running)
  {
    if attempts == [] then None
    else if attempts[|attempts| - 1] == StepAttempt(step, Running) then Some(|attempts| - 1)
    else RunningAttempt(attempts[..|attempts| - 1], step)
  }

  predicate Startable(s: State, step: nat) {
    && step < |s.steps| && s.steps[step] in {Pending, Ready} && (step > 0 ==> s.steps[step - 1] == Succeeded)
    && ExecutionState(s.run.state)
  }

  /** `start_task`. */
  function Start(s: State, step: nat): State
    requires step < |s.steps|
  {
    s.(attempts := s.attempts + [StepAttempt(step, Running)], steps := s.steps[step := Running])
  }

  // ---------------------------------------------------------------------------------
  // Checks on reports

  /** `dict.get`: a deleted path and an unchanged one both read as none. */
  function Get(changes: map<string, Option<string>>, path: string): Option<string> {
    if path in changes then changes[path] else None
  }

  /** The comparison of `_check_report` and of the final inspection. */
  predicate Agrees(accepted: map<string, Option<string>>, final: map<string, Option<string>>, exempt: Option<string>) {
    forall path :: path in accepted.Keys + final.Keys ==>
      Some(path) == exempt || Get(accepted, path) == Get(final, path)
  }

  /** `_check_report`. */
  predicate ReportHolds(r: DeliveryRecords, report: Report, policy: DeliveryPolicy) {
    && report.passed
    && if report.checkpoint == Implementation
       then r.reviews != [] && report.tree == r.reviews[|r.reviews| - 1].tree
       else
         var accepted := LastReport(r.reports, Implementation);
         && accepted.Some? && Agrees(accepted.value.changes, report.changes, policy.documentationPath)
         && r.validations != [] && r.validations[|r.validations| - 1].tree == report.tree
  }

  function Kept<T(==)>(items: seq<T>, item: T): seq<T> { if item in items then items else items + [item] }

  // ---------------------------------------------------------------------------------
  // Acting on a step

  /** The Change Guardian; an inspection made before is returned as it was recorded. */
  function Inspect(s: State, k: nat, a: nat, world: World): State
    requires s.driver.Some?
  {
    var checkpoint := if k == FINAL then Final else Implementation;
    var accepted := LastReport(s.records.reports, Implementation);
    if !world.ok || (k == FINAL && accepted.None?) then Go(s, Failing(k, a))
    else
      var report := world.report.(checkpoint := checkpoint, passed := world.report.passed
        && (k == FINAL ==> Agrees(accepted.value.changes, world.report.changes, s.driver.value.policy.documentationPath)));
      Go(s.(records := s.records.(reports := Kept(s.records.reports, report))), Inspected(k, a, report))
  }

  function Document(s: State, k: nat, a: nat, world: World): State
    requires s.driver.Some?
  {
    if !world.ok || LastReport(s.records.reports, Implementation).None? then Go(s, Failing(k, a))
    else Go(s.(records := s.records.(documented := true)), Acted(k, a))
  }

  function ValidateFinally(s: State, k: nat, a: nat, world: World): State
    requires s.driver.Some?
  {
    if !world.ok then Go(s, Failing(k, a))
    else
      var t := s.(records := s.records.(validations := Kept(s.records.validations, world.validation)));
      Go(t, if world.validation.passed then Acted(k, a) else Failing(k, a))
  }

  predicate MayCommit(s: State) {
    s.run.state == Committing && DeliveryReady(s.records, s.run.goal, s.around.findings, Committing)
    && LastReport(s.records.reports, Final).Some?
  }

  /** `commit`: the intent is recorded first and kept if the rest fails. */
  function CommitChanges(s: State, a: nat, world: World): State
    requires s.driver.Some?
  {
    if s.run.state != Committing then Go(s, Publishing(a, s.run.state))
    else if !MayCommit(s) then Go(s, Failing(GIT, a))
    else
      var intent := if s.records.commit.Some? then s.records.commit.value
                    else Commit(false, "", LastReport(s.records.reports, Final).value.tree, s.driver.value.policy.push, false);
      var commit := if world.ok then intent.(attached := true, sha := if intent.sha == "" then world.sha else intent.sha) else intent;
      var t := s.(records := s.records.(commit := Some(commit)));
      Go(t, if world.ok then Publishing(a, Committing) else Failing(GIT, a))
  }

  predicate MayPush(s: State) {
    s.run.state == Pushing && DeliveryReady(s.records, s.run.goal, s.around.findings, Pushing) && s.records.commit.Some?
  }

  function Push(s: State, a: nat, world: World): State
    requires s.driver.Some?
  {
    if !MayPush(s) || !world.ok then Go(s, Failing(GIT, a))
    else Go(s.(records := s.records.(commit := Some(s.records.commit.value.(pushed := true)))), Acted(GIT, a))
  }

  function Promote(s: State, k: nat, a: nat, world: World): State
    requires s.driver.Some?
  {
    if !world.ok then Go(s, Failing(k, a)) else Go(s.(records := s.records.(promoted := true)), Acted(k, a))
  }

  /** The external action of a step; its service demands a working actor, that is a running attempt. */
  function Act(s: State, k: nat, a: nat, world: World): State
    requires s.driver.Some?
  {
    if a >= |s.attempts| || s.attempts[a].status != Running then Go(s, Failing(k, a))
    else if k == IMPLEMENTATION || k == FINAL then Inspect(s, k, a, world)
    else if k == DOCUMENTATION then Document(s, k, a, world)
    else if k == VALIDATION then ValidateFinally(s, k, a, world)
    else if k == GIT then CommitChanges(s, a, world)
    else Promote(s, k, a, world)
  }

  // ---------------------------------------------------------------------------------
  // The transactions of a call

  const FRESH_STEPS := [Ready, Pending, Pending, Pending, Pending, Pending]

  /** `delivery_subject` of the newest review, at the run's plan version. */
  function DeliveryRequest(s: State, policy: DeliveryPolicy): RequestId
    requires s.records.reviews != []
  {
    var review := s.records.reviews[|s.records.reviews| - 1];
    RequestId(DeliveryStage, s.run.planVersion, OfDelivery(s.run.goal, s.run.planVersion, review.id, review.tree, policy))
  }

  /** `ensure` for DELIVERY: the call goes on where the gate is off or the request is approved already. */
  function Authorize(s: State, id: RequestId): State
    requires s.driver.Some?
  {
    var prepared := PrepareRequest(AsStore(s), id);
    var t := s.(requests := prepared.store.requests);
    if prepared.reply.Err? then Leave(s)
    else if prepared.reply.value.0.None? then Go(t, Authorized(None))
    else if StatusOf(AsStore(t), id) == Approved then Go(t, Authorized(Some(id)))
    else Leave(t)
  }

  /** The policy is bound once. */
  function Bind(s: State, request: Option<RequestId>): State
    requires s.driver.Some?
  {
    var binding := if s.records.binding.Some? then s.records.binding else Some(Binding(s.driver.value.policy, request));
    Go(s.(records := s.records.(binding := binding)), Installing)
  }

  function Install(s: State): State
    requires s.driver.Some?
  {
    if s.steps != [] then Go(s, Loop(0))
    else if s.run.state == Reviewing && DeliveryReady(s.records, s.run.goal, s.around.findings, ChangeGuard) && Bound(AsStore(s))
            && forall status :: status in s.around.others ==> status !in {Running, Waiting, Blocked}
    then Go(s.(steps := FRESH_STEPS), Loop(0))
    else Leave(s)
  }

  function Visit(s: State, k: nat): State
    requires s.driver.Some?
  {
    if k >= |s.steps| || k >= STEP_COUNT then
      Leave(if s.run.state == MemoryFinalization && MayEnter(s, Completed) then Enter(s, Completed) else s)
    else if s.steps[k] == Succeeded then Go(s, Loop(k + 1))
    else if s.steps[k] !in {Ready, Running} then Leave(s)
    else Go(s, Admitted(k, s.run.state))
  }

  function MoveTo(s: State, k: nat, seen: RunState): State
    requires s.driver.Some? && k < STEP_COUNT
  {
    if seen == Target(k) || (k == GIT && seen == Pushing) then Go(s, Starting(k))
    else
      var moved := EnterOnce(s, Target(k));
      if moved.None? then Leave(s) else Go(moved.value.(driver := s.driver), Starting(k))
  }

  function TakeUp(s: State, k: nat): State
    requires s.driver.Some?
  {
    var a := RunningAttempt(s.attempts, k);
    if a.Some? then Go(s, Acting(k, a.value))
    else if Startable(s, k) then Go(Start(s, k), Acting(k, |s.attempts|))
    else Leave(s)
  }

  function PublishWork(s: State, a: nat, seen: RunState): State
    requires s.driver.Some?
  {
    if !s.driver.value.policy.push then Go(s, Acted(GIT, a))
    else if seen == Pushing then Go(s, Sending(a))
    else
      var moved := EnterOnce(s, Pushing);
      if moved.None? then Go(s, Failing(GIT, a)) else Go(moved.value.(driver := s.driver), Sending(a))
  }

  predicate Transitable(s: State, a: nat, status: TaskStatus) {
    && a < |s.attempts| && s.attempts[a].step < |s.steps|
    && AttemptMayBecome(s.attempts[a].status, status) && ExecutionState(s.run.state)
  }

  function Succeed(s: State, k: nat, a: nat): State
    requires s.driver.Some?
  {
    if !Transitable(s, a, Succeeded) then Go(s, Failing(k, a))
    else
      var t := Settle(s, a, Succeeded);
      Go(t.(steps := ReadyNext(t.steps, s.attempts[a].step)), Loop(k + 1))
  }

  function Block(s: State, a: nat): State
    requires s.driver.Some?
  {
    if Terminal(s.run.state) || !Transitable(s, a, Blocked) then Leave(s)
    else Go(Settle(s, a, Blocked), Blocking(a))
  }

  function CheckInspection(s: State, k: nat, a: nat, report: Report): State
    requires s.driver.Some?
  {
    Go(s, if ReportHolds(s.records, report, s.driver.value.policy) then Acted(k, a) else Failing(k, a))
  }

  function Send(s: State, a: nat, world: World): State
    requires s.driver.Some?
  {
    if a < |s.attempts| && s.attempts[a].status == Running then Push(s, a, world) else Go(s, Failing(GIT, a))
  }

  function Continue(s: State, world: World): State
    requires s.driver.Some?
  {
    match s.driver.value.at
    case Opening(id) => Authorize(s, id)
    case Authorized(request) => Bind(s, request)
    case Installing => Install(s)
    case Loop(k) => Visit(s, k)
    case Admitted(k, seen) => if k < STEP_COUNT then MoveTo(s, k, seen) else Leave(s)
    case Starting(k) => TakeUp(s, k)
    case Acting(k, a) => Act(s, k, a, world)
    case Inspected(k, a, report) => CheckInspection(s, k, a, report)
    case Publishing(a, seen) => PublishWork(s, a, seen)
    case Sending(a) => Send(s, a, world)
    case Acted(k, a) => Succeed(s, k, a)
    case Failing(k, a) => Block(s, a)
    case Blocking(a) => Leave(if MayEnter(s, BlockedRun) then Enter(s, BlockedRun) else s)
  }

  /** The first transaction of a call, under the run lock. */
  function Begin(s: State, policy: DeliveryPolicy): State {
    if s.driver.Some? || s.run.state !in CHECKPOINTS then s
    else if s.records.binding.Some? then
      if s.records.binding.value.policy == policy then s.(driver := Some(Driver(policy, Installing))) else s
    else if s.records.reviews == [] || !s.records.reviews[|s.records.reviews| - 1].passed then s
    else s.(driver := Some(Driver(policy, Opening(DeliveryRequest(s, policy)))))
  }

  /** Recovery, which takes the run lock: the attempt fails and its task may be tried again. */
  function Recover(s: State, a: nat): State {
    if s.driver.Some? || Terminal(s.run.state) || s.run.state == HumanReviewRequired
       || a >= |s.attempts| || s.attempts[a].step >= |s.steps| || !ActiveAttempt(s.attempts[a].status) then s
    else
      var failed := Settle(s, a, Failed);
      failed.(steps := failed.steps[s.attempts[a].step := Ready])
  }

  /** What the rest of the system does meanwhile: criteria, findings, other tasks, plans, and goals until a policy is
      bound. */
  function Outside(s: State, goal: Option<Uuid>, version: nat, around: Surroundings): State {
    if s.run.state == Completed then s
    else
      var current := if s.records.binding.Some? then s.run.goal else goal;
      s.(run := s.run.(goal := current, planVersion := version), around := around)
  }

  function Next(s: State, a: Action): State {
    match a
    case Call(policy) => Begin(s, policy)
    case Proceed(world) => if s.driver.Some? then Continue(s, world) else s
    case Crash => Leave(s)
    case Steer(target) => if MayEnter(s, target) then Enter(s, target) else s
    case Ask(request) => s.(requests := PrepareRequest(AsStore(s), request).store.requests)
    case Rule(request, expected, decision) =>
      s.(decisions := Decide(AsStore(s), request, expected, decision).store.decisions)
    case Retry(attempt) => Recover(s, attempt)
    case Review(review) =>
      if s.driver.None? && s.run.state == Reviewing then s.(records := s.records.(reviews := s.records.reviews + [review])) else s
    case Elsewhere(goal, version, around) => Outside(s, goal, version, around)
  }

  /** A run whose delivery has not begun. */
  predicate Undelivered(s: State) {
    && s.driver.None? && s.steps == [] && s.attempts == [] && s.keys == {}
    && s.records.binding.None? && s.records.commit.None?
  }

  function After(start: State, actions: seq<Action>): State {
    if actions == [] then start else Next(After(start, actions[..|actions| - 1]), actions[|actions| - 1])
  }

  // ---------------------------------------------------------------------------------
  // What agreement of two reports means

  /** A report describes a tree against its base: entries are the paths that differ, deletions are of base paths. */
  ghost predicate Describes(base: map<string, string>, tree: map<string, string>, changes: map<string, Option<string>>) {
    forall path ::
      && (path in changes <==> InTree(base, path) != InTree(tree, path))
      && (path in changes ==> changes[path] == InTree(tree, path))
  }

  function InTree(tree: map<string, string>, path: string): Option<string> {
    if path in tree then Some(tree[path]) else None
  }

  predicate Deleted(changes: map<string, Option<string>>, path: string) { path in changes && changes[path].None? }

  /** Reports that agree describe the same content outside the exempt path exactly when neither deletes a path the
      other keeps: a deletion reads like an unchanged path. */
  lemma AgreementMeansSameContent(base: map<string, string>, accepted: map<string, string>, final: map<string, string>,
                                  before: map<string, Option<string>>, after: map<string, Option<string>>, exempt: Option<string>)
    requires Describes(base, accepted, before) && Describes(base, final, after) && Agrees(before, after, exempt)
    ensures (forall path :: Some(path) != exempt ==> InTree(accepted, path) == InTree(final, path))
       <==> (forall path :: Some(path) != exempt ==> (Deleted(before, path) <==> Deleted(after, path)))
  {
    forall path | Some(path) != exempt
      ensures InTree(accepted, path) == InTree(final, path) <==> (Deleted(before, path) <==> Deleted(after, path))
    {
      if path in before || path in after {
        assert path in before.Keys + after.Keys;
      }
    }
  }

  /** A file left alone by the accepted implementation and deleted afterwards passes the comparison. */
  lemma DeletionUnnoticed(hash: string)
    ensures var base, final := map["a.py" := hash], map[];
      && Describes(base, base, map[]) && Describes(base, final, map["a.py" := None])
      && Agrees(map[], map["a.py" := None], None) && InTree(base, "a.py") != InTree(final, "a.py")
  {
  }
}
