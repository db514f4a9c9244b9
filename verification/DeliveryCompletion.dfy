/** What a `finalize` call achieves when nothing disturbs it, and where its steps act. */
module DeliveryCompletion {
  import opened Collections
  import opened RunStates
  import opened Plans
  import opened RunStore
  import opened Delivery
  import opened DeliverySafety
  import opened DeliveryApproval
  import opened DeliveryCalls

  function Left(s: State): int { if s.driver.Some? then Remaining(s.driver.value.at) + 1 else 0 }

  /** A call left alone until it ends; the world answers each transaction. */
  ghost function Drive(s: State, world: State -> World): State
    requires Sound(s)
    decreases Left(s)
  {
    if s.driver.None? then s
    else
      ContinueSound(s, world(s));
      ContinueAdvances(s, world(s));
      Drive(Continue(s, world(s)), world)
  }

  lemma DriveOnce(s: State, world: State -> World)
    requires Sound(s) && s.driver.Some?
    ensures Sound(Continue(s, world(s))) && Drive(s, world) == Drive(Continue(s, world(s)), world)
  {
    ContinueSound(s, world(s));
  }

  lemma AfterOne(start: State, before: seq<Action>, a: Action)
    ensures After(start, before + [a]) == Next(After(start, before), a)
  {
    assert (before + [a])[..|before|] == before;
  }

  lemma OneTransaction(start: State, before: seq<Action>, world: State -> World)
    requires var s := After(start, before); Sound(s) && s.driver.Some?
    ensures var s, t := After(start, before), After(start, before + [Proceed(world(After(start, before)))]);
      Sound(t) && Drive(t, world) == Drive(s, world) && Left(t) < Left(s) && 0 <= Left(s)
  {
    var s := After(start, before);
    AfterOne(start, before, Proceed(world(s)));
    DriveOnce(s, world);
    OneLess(s, world(s));
  }

  lemma OneLess(s: State, world: World)
    requires Sound(s) && s.driver.Some?
    ensures Left(Continue(s, world)) < Left(s) && 0 <= Left(s)
  {
    ContinueAdvances(s, world);
  }

  /** The call as a run of the delivery machine: it ends with the lock free. */
  lemma {:induction false} DriveIsRun(start: State, before: seq<Action>, world: State -> World) returns (trace: seq<Action>)
    requires Sound(After(start, before))
    ensures before <= trace && After(start, trace) == Drive(After(start, before), world) && After(start, trace).driver.None?
    ensures forall i :: |before| <= i < |trace| ==> trace[i].Proceed?
    decreases Left(After(start, before))
  {
    if After(start, before).driver.None? {
      trace := before;
    } else {
      OneTransaction(start, before, world);
      trace := DriveIsRun(start, before + [Proceed(world(After(start, before)))], world);
    }
  }

  // ---------------------------------------------------------------------------------
  // An accepted run and agreeing answers

  /** What is delivered, and the evidence the world will produce. */
  datatype Case = Case(start: State, policy: DeliveryPolicy, implementation: Report, final: Report, validation: Validation)

  function Reviewed(c: Case): RunStore.Review
    requires c.start.records.reviews != []
  {
    c.start.records.reviews[|c.start.records.reviews| - 1]
  }

  /** A run in REVIEWING whose newest review passes for its goal and plan, its required criteria passed and its tasks
      finished, nothing delivered yet, the delivery of this policy approved where that is gated, and evidence to come
      that agrees with the review and with itself. */
  predicate Deliverable(c: Case) {
    var s := c.start;
    && Undelivered(s) && s.run.state == Reviewing && s.records.reports == [] && s.records.validations == []
    && DeliveryReady(s.records, s.run.goal, s.around.findings, ChangeGuard)
    && RequiredCriteriaPass(s.run.goal, s.around.goals) && Finished(s.around.others)
    && s.records.reviews != [] && Reviewed(c).planVersion == s.run.planVersion > 0
    && (Gated(s) ==> DeliveryRequest(s, c.policy) in s.requests && StatusOf(AsStore(s), DeliveryRequest(s, c.policy)) == Approved)
    && c.implementation.passed && c.implementation.tree == Reviewed(c).tree
    && c.final.passed && c.final.tree == c.validation.tree
    && Agrees(c.implementation.changes, c.final.changes, c.policy.documentationPath)
    && c.validation.passed && c.validation.goal == s.run.goal
  }

  /** Every external action succeeds and yields that evidence. */
  ghost predicate Cooperates(world: State -> World, c: Case) {
    forall s :: world(s).ok && world(s).sha != ""
      && (s.driver.Some? && s.driver.value.at.Acting? ==>
            && (s.driver.value.at.acting == IMPLEMENTATION ==> world(s).report == c.implementation)
            && (s.driver.value.at.acting == FINAL ==> world(s).report == c.final)
            && (s.driver.value.at.acting == VALIDATION ==> world(s).validation == c.validation))
  }

  // ---------------------------------------------------------------------------------
  // Where the call stands before each step

  function StateBefore(c: Case, k: nat): RunState {
    if k == 0 then Reviewing else if k == 1 then ChangeGuard else if k == 2 then Documenting
    else if k <= 4 then DeliveryValidation
    else if k == 5 then (if c.policy.push then Pushing else Committing)
    else MemoryFinalization
  }

  function KeysBefore(c: Case, k: nat): set<RunState> {
    (if k > 0 then {ChangeGuard} else {}) + (if k > 1 then {Documenting} else {}) + (if k > 2 then {DeliveryValidation} else {})
    + (if k > 4 then {Committing} + (if c.policy.push then {Pushing} else {}) else {}) + (if k > 5 then {MemoryFinalization} else {})
  }

  function ReportsBefore(c: Case, k: nat): seq<Report> {
    (if k > IMPLEMENTATION then [c.implementation.(checkpoint := Implementation)] else [])
    + (if k > FINAL then [c.final.(checkpoint := Final)] else [])
  }

  /** The records when the steps before `k` are done. */
  predicate Recorded(c: Case, r: DeliveryRecords, k: nat) {
    && r.reviews == c.start.records.reviews && r.reports == ReportsBefore(c, k)
    && (k > DOCUMENTATION ==> r.documented)
    && r.validations == (if k > VALIDATION then [c.validation] else [])
    && (if k > GIT then r.commit.Some? && Delivered(c, r.commit.value) else r.commit.None?)
    && (k > 5 ==> r.promoted)
    && r.binding == Some(BindingOf(c))
  }

  function BindingOf(c: Case): Binding {
    Binding(c.policy, if Gated(c.start) && c.start.records.reviews != [] then Some(DeliveryRequest(c.start, c.policy)) else None)
  }

  predicate Delivered(c: Case, commit: Commit) {
    commit.attached && commit.sha != "" && commit.tree == c.final.tree && commit.push == c.policy.push == commit.pushed
  }

  predicate Same(c: Case, s: State) {
    && s.run.goal == c.start.run.goal && s.around == c.start.around && s.driver.Some? && s.driver.value.policy == c.policy
    && |s.steps| == STEP_COUNT
    && s.policy == c.start.policy && s.requests == c.start.requests && s.decisions == c.start.decisions
  }

  predicate Quiet(attempts: seq<StepAttempt>) { forall i :: 0 <= i < |attempts| ==> !ActiveAttempt(attempts[i].status) }

  /** Steps before `k` succeeded, `k` has this status, later ones are pending. */
  predicate Progressed(steps: seq<TaskStatus>, k: nat, status: TaskStatus) {
    && DoneBefore(steps, k) && (k < |steps| ==> steps[k] == status) && forall j :: k < j < |steps| ==> steps[j] == Pending
  }

  predicate AtLoop(c: Case, s: State, k: nat) {
    && k <= STEP_COUNT && Same(c, s) && s.driver.value.at == Loop(k)
    && Progressed(s.steps, k, Ready) && Quiet(s.attempts) && Recorded(c, s.records, k)
    && s.run.state == StateBefore(c, k) && s.keys == KeysBefore(c, k)
  }

  predicate AtStart(c: Case, s: State, k: nat) {
    && k < STEP_COUNT && Same(c, s) && s.driver.value.at == Starting(k)
    && Progressed(s.steps, k, Ready) && Quiet(s.attempts) && Recorded(c, s.records, k)
    && s.run.state == Target(k) && s.keys == KeysBefore(c, k) + {Target(k)}
  }

  predicate RunningLast(s: State, k: nat, a: nat) {
    && a + 1 == |s.attempts| && s.attempts[a] == StepAttempt(k, Running) && Quiet(s.attempts[..a])
    && Progressed(s.steps, k, Running)
  }

  predicate AtWork(c: Case, s: State, k: nat, a: nat) {
    && k < STEP_COUNT && Same(c, s) && s.driver.value.at == Acting(k, a)
    && RunningLast(s, k, a) && Recorded(c, s.records, k)
    && s.run.state == Target(k) && s.keys == KeysBefore(c, k) + {Target(k)}
  }

  predicate AtEnd(c: Case, s: State, k: nat, a: nat) {
    && k < STEP_COUNT && Same(c, s) && s.driver.value.at == Acted(k, a)
    && RunningLast(s, k, a) && Recorded(c, s.records, k + 1)
    && s.run.state == StateBefore(c, k + 1) && s.keys == KeysBefore(c, k + 1)
  }

  // ---------------------------------------------------------------------------------
  // Every guard on the way is open

  lemma CaseBound(c: Case, s: State, k: nat)
    requires Deliverable(c) && Same(c, s) && Recorded(c, s.records, k)
    ensures Bound(AsStore(s)) && RequiredCriteriaPass(s.run.goal, s.around.goals)
  {
    assert StatusOf(AsStore(s), DeliveryRequest(c.start, c.policy)) == StatusOf(AsStore(c.start), DeliveryRequest(c.start, c.policy));
  }

  lemma LastOfReports(c: Case, k: nat)
    ensures k > IMPLEMENTATION ==>
      LastReport(ReportsBefore(c, k), Implementation) == Some(c.implementation.(checkpoint := Implementation))
    ensures k > FINAL ==> LastReport(ReportsBefore(c, k), Final) == Some(c.final.(checkpoint := Final))
  {
    var a, b := c.implementation.(checkpoint := Implementation), c.final.(checkpoint := Final);
    assert [a][..0] == [] && [a, b][..1] == [a];
    assert ReportsBefore(c, k) == if k > FINAL then [a, b] else if k > IMPLEMENTATION then [a] else [];
  }

  lemma GuardsOpen(c: Case, s: State, k: nat)
    requires Deliverable(c) && Same(c, s) && k < STEP_COUNT && Recorded(c, s.records, k)
    ensures DeliveryReady(s.records, s.run.goal, s.around.findings, Target(k))
  {
    LastOfReports(c, k);
  }

  lemma PushingOpen(c: Case, s: State)
    requires Deliverable(c) && Same(c, s) && s.records.commit.Some?
    requires Recorded(c, s.records.(commit := None), GIT)
    requires s.records.commit.value.attached && s.records.commit.value.sha != ""
    requires s.records.commit.value.tree == c.final.tree && s.records.commit.value.push
    ensures DeliveryReady(s.records, s.run.goal, s.around.findings, Pushing)
  {
    LastOfReports(c, GIT);
  }

  lemma NextTarget(c: Case, k: nat, resumeState: Option<RunState>)
    requires k < STEP_COUNT && StateBefore(c, k) != Target(k)
    ensures ValidTransition(StateBefore(c, k), Target(k), resumeState) && Target(k) !in KeysBefore(c, k)
  {
  }

  lemma TargetAdmitted(c: Case, s: State, k: nat)
    requires Deliverable(c) && Same(c, s) && k < STEP_COUNT && Recorded(c, s.records, k)
    requires s.run.state == StateBefore(c, k) && s.run.state != Target(k)
    ensures MayEnter(s, Target(k))
  {
    CaseBound(c, s, k);
    GuardsOpen(c, s, k);
    NextTarget(c, k, s.run.resumeState);
    TargetGoesOn(k);
    Admitting(s, Target(k));
  }

  lemma TargetGoesOn(k: nat)
    requires k < STEP_COUNT
    ensures Target(k) != Completed && !Suspended(Target(k)) && !Terminal(Target(k))
  {
  }

  lemma Admitting(s: State, target: RunState)
    requires ValidTransition(s.run.state, target, s.run.resumeState) && target != Completed && !Suspended(target)
    requires DeliveryReady(s.records, s.run.goal, s.around.findings, target)
    requires Bound(AsStore(s)) && RequiredCriteriaPass(s.run.goal, s.around.goals)
    ensures MayEnter(s, target)
  {
  }

  lemma FirstEntry(s: State, target: RunState)
    requires MayEnter(s, target) && target !in s.keys && !Terminal(target)
    ensures EnterOnce(s, target) == Some(s.(run := MoveRun(s.run, target), keys := s.keys + {target}))
  {
  }

  lemma EntersTarget(c: Case, s: State, k: nat)
    requires Deliverable(c) && Same(c, s) && k < STEP_COUNT && Recorded(c, s.records, k)
    requires s.run.state == StateBefore(c, k) && s.keys == KeysBefore(c, k) && s.run.state != Target(k)
    ensures EnterOnce(s, Target(k)) == Some(s.(run := MoveRun(s.run, Target(k)), keys := s.keys + {Target(k)}))
  {
    TargetAdmitted(c, s, k);
    NextTarget(c, k, s.run.resumeState);
    FirstEntry(s, Target(k));
  }

  // ---------------------------------------------------------------------------------
  // Through one step

  lemma LoopToStart(c: Case, s: State, k: nat)
    requires Deliverable(c) && AtLoop(c, s, k) && k < STEP_COUNT
    ensures var t := Go(s, Admitted(k, s.run.state));
      Visit(s, k) == t && AtStart(c, MoveTo(t, k, s.run.state), k)
  {
    var t := Go(s, Admitted(k, s.run.state));
    if s.run.state != Target(k) {
      EntersTarget(c, t, k);
    }
  }

  lemma {:induction false} NoneRunning(attempts: seq<StepAttempt>, k: nat)
    requires Quiet(attempts)
    ensures RunningAttempt(attempts, k).None?
  {
    var i := RunningAttempt(attempts, k);
    if i.Some? {
      assert ActiveAttempt(attempts[i.value].status);
      assert false;
    }
  }

  lemma StartToWork(c: Case, s: State, k: nat)
    requires Deliverable(c) && AtStart(c, s, k)
    ensures AtWork(c, TakeUp(s, k), k, |s.attempts|)
  {
    NoneRunning(s.attempts, k);
    assert Startable(s, k);
    var t := Go(Start(s, k), Acting(k, |s.attempts|));
    assert t.attempts[..|s.attempts|] == s.attempts;
  }

  function ReportOf(c: Case, k: nat): Report {
    if k == IMPLEMENTATION then c.implementation.(checkpoint := Implementation) else c.final.(checkpoint := Final)
  }

  lemma InspectRecords(c: Case, s: State, k: nat, a: nat, world: World)
    requires Deliverable(c) && AtWork(c, s, k, a) && (k == IMPLEMENTATION || k == FINAL)
    requires world.ok && world.report == (if k == IMPLEMENTATION then c.implementation else c.final)
    ensures Inspect(s, k, a, world)
         == Go(s.(records := s.records.(reports := ReportsBefore(c, k + 1))), Inspected(k, a, ReportOf(c, k)))
  {
    LastOfReports(c, k);
    ReportAppended(c, k);
  }

  lemma ReportAppended(c: Case, k: nat)
    requires k == IMPLEMENTATION || k == FINAL
    ensures Kept(ReportsBefore(c, k), ReportOf(c, k)) == ReportsBefore(c, k + 1)
  {
    assert ReportOf(c, k) !in ReportsBefore(c, k);
    assert ReportsBefore(c, k) + [ReportOf(c, k)] == ReportsBefore(c, k + 1);
  }

  lemma InspectionHolds(c: Case, r: DeliveryRecords, k: nat)
    requires Deliverable(c) && (k == IMPLEMENTATION || k == FINAL)
    requires Recorded(c, r.(reports := ReportsBefore(c, k)), k) && r.reports == ReportsBefore(c, k + 1)
    ensures ReportHolds(r, ReportOf(c, k), c.policy) && Recorded(c, r, k + 1)
  {
    LastOfReports(c, k + 1);
  }

  lemma KeysAfter(c: Case, k: nat)
    requires k < STEP_COUNT
    ensures KeysBefore(c, k + 1) == KeysBefore(c, k) + {Target(k)} + (if k == GIT && c.policy.push then {Pushing} else {})
  {
  }

  /** A step that stays in its target state has ended when its records are complete. */
  lemma EndsInTarget(c: Case, s: State, k: nat, a: nat, r: DeliveryRecords)
    requires AtWork(c, s, k, a) && Recorded(c, r, k + 1) && StateBefore(c, k + 1) == Target(k)
    ensures AtEnd(c, Go(s.(records := r), Acted(k, a)), k, a)
  {
    KeysAfter(c, k);
  }

  lemma CheckedGoesOn(s: State, r: DeliveryRecords, k: nat, a: nat, report: Report)
    requires s.driver.Some? && ReportHolds(r, report, s.driver.value.policy)
    ensures CheckInspection(Go(s.(records := r), Inspected(k, a, report)), k, a, report) == Go(s.(records := r), Acted(k, a))
  {
  }

  lemma InspectToEnd(c: Case, s: State, k: nat, a: nat, world: World)
    requires Deliverable(c) && AtWork(c, s, k, a) && (k == IMPLEMENTATION || k == FINAL)
    requires world.ok && world.report == (if k == IMPLEMENTATION then c.implementation else c.final)
    ensures AtEnd(c, CheckInspection(Inspect(s, k, a, world), k, a, ReportOf(c, k)), k, a)
  {
    InspectRecords(c, s, k, a, world);
    var r := s.records.(reports := ReportsBefore(c, k + 1));
    InspectionRecorded(c, s, k, a, r);
    CheckedGoesOn(s, r, k, a, ReportOf(c, k));
  }

  lemma InspectionRecorded(c: Case, s: State, k: nat, a: nat, r: DeliveryRecords)
    requires Deliverable(c) && AtWork(c, s, k, a) && (k == IMPLEMENTATION || k == FINAL)
    requires r == s.records.(reports := ReportsBefore(c, k + 1))
    ensures ReportHolds(r, ReportOf(c, k), c.policy) && AtEnd(c, Go(s.(records := r), Acted(k, a)), k, a)
  {
    assert r.(reports := ReportsBefore(c, k)) == s.records;
    InspectionHolds(c, r, k);
    EndsInTarget(c, s, k, a, r);
  }

  lemma DirectToEnd(c: Case, s: State, k: nat, a: nat, world: World)
    requires Deliverable(c) && AtWork(c, s, k, a) && k in {DOCUMENTATION, VALIDATION, 5}
    requires world.ok && (k == VALIDATION ==> world.validation == c.validation)
    ensures AtEnd(c, Act(s, k, a, world), k, a)
  {
    var r := if k == DOCUMENTATION then s.records.(documented := true)
             else if k == VALIDATION then s.records.(validations := [c.validation]) else s.records.(promoted := true);
    DirectRecords(c, s, k, a, world, r);
    RecordedDirectly(c, s.records, k);
    EndsInTarget(c, s, k, a, r);
  }

  lemma DirectRecords(c: Case, s: State, k: nat, a: nat, world: World, r: DeliveryRecords)
    requires Deliverable(c) && AtWork(c, s, k, a) && k in {DOCUMENTATION, VALIDATION, 5}
    requires world.ok && (k == VALIDATION ==> world.validation == c.validation)
    requires r == if k == DOCUMENTATION then s.records.(documented := true)
                  else if k == VALIDATION then s.records.(validations := [c.validation]) else s.records.(promoted := true)
    ensures Act(s, k, a, world) == Go(s.(records := r), Acted(k, a))
  {
    if k == VALIDATION {
      ValidationRecords(c, s, a, world);
    } else if k == DOCUMENTATION {
      DocumentRecords(c, s, a, world);
    }
  }

  lemma DocumentRecords(c: Case, s: State, a: nat, world: World)
    requires Deliverable(c) && AtWork(c, s, DOCUMENTATION, a) && world.ok
    ensures Document(s, DOCUMENTATION, a, world) == Go(s.(records := s.records.(documented := true)), Acted(DOCUMENTATION, a))
  {
    LastOfReports(c, DOCUMENTATION);
  }

  lemma ValidationRecords(c: Case, s: State, a: nat, world: World)
    requires Deliverable(c) && AtWork(c, s, VALIDATION, a) && world.ok && world.validation == c.validation
    ensures ValidateFinally(s, VALIDATION, a, world)
         == Go(s.(records := s.records.(validations := [c.validation])), Acted(VALIDATION, a))
  {
    assert Kept([], c.validation) == [c.validation];
  }

  lemma RecordedDirectly(c: Case, r: DeliveryRecords, k: nat)
    requires Recorded(c, r, k)
    ensures k == DOCUMENTATION ==> Recorded(c, r.(documented := true), k + 1)
    ensures k == VALIDATION ==> Recorded(c, r.(validations := [c.validation]), k + 1)
    ensures k == 5 ==> Recorded(c, r.(promoted := true), k + 1)
  {
  }

  lemma CommitToPublish(c: Case, s: State, a: nat, world: World)
    requires Deliverable(c) && AtWork(c, s, GIT, a) && world.ok && world.sha != ""
    ensures CommitChanges(s, a, world) == Committed(c, s, a, world.sha)
  {
    LastOfReports(c, GIT);
    GuardsOpen(c, s, GIT);
  }

  /** The run after its commit, before anything is pushed. */
  function Committed(c: Case, s: State, a: nat, sha: string): State
    requires s.driver.Some?
  {
    Go(s.(records := s.records.(commit := Some(Commit(true, sha, c.final.tree, c.policy.push, false)))), Publishing(a, Committing))
  }

  lemma PushingAdmitted(c: Case, s: State, a: nat, sha: string)
    requires Deliverable(c) && AtWork(c, s, GIT, a) && sha != "" && c.policy.push
    ensures MayEnter(Committed(c, s, a, sha), Pushing) && Pushing !in s.keys
  {
    CommittedOpen(c, s, a, sha);
    CommittingPushes(s.run.resumeState);
  }

  lemma CommittedOpen(c: Case, s: State, a: nat, sha: string)
    requires Deliverable(c) && AtWork(c, s, GIT, a) && sha != "" && c.policy.push
    ensures var t := Committed(c, s, a, sha); DeliveryReady(t.records, t.run.goal, t.around.findings, Pushing)
  {
    PushingOpen(c, Committed(c, s, a, sha));
  }

  lemma CommittingPushes(resumeState: Option<RunState>)
    ensures ValidTransition(Committing, Pushing, resumeState)
  {
  }

  lemma EntersPushing(c: Case, s: State, a: nat, sha: string)
    requires Deliverable(c) && AtWork(c, s, GIT, a) && sha != "" && c.policy.push
    ensures var t := Committed(c, s, a, sha);
      PublishWork(t, a, Committing) == Go(t.(run := MoveRun(t.run, Pushing), keys := t.keys + {Pushing}), Sending(a))
  {
    PushingAdmitted(c, s, a, sha);
  }

  lemma PushAdmitted(c: Case, s: State, t: State, a: nat, sha: string)
    requires Deliverable(c) && AtWork(c, s, GIT, a) && sha != "" && c.policy.push
    requires t == Go(Committed(c, s, a, sha).(run := MoveRun(s.run, Pushing), keys := s.keys + {Pushing}), Sending(a))
    ensures MayPush(t)
  {
    PushingOpen(c, t);
  }

  lemma PushEnds(c: Case, s: State, t: State, a: nat, sha: string, world: World)
    requires Deliverable(c) && AtWork(c, s, GIT, a) && sha != "" && c.policy.push && world.ok
    requires t == Go(Committed(c, s, a, sha).(run := MoveRun(s.run, Pushing), keys := s.keys + {Pushing}), Sending(a))
    ensures AtEnd(c, Send(t, a, world), GIT, a)
  {
    PushAdmitted(c, s, t, a, sha);
    KeysAfter(c, GIT);
  }

  lemma UnpushedEnds(c: Case, s: State, a: nat, sha: string)
    requires Deliverable(c) && AtWork(c, s, GIT, a) && sha != "" && !c.policy.push
    ensures AtEnd(c, PublishWork(Committed(c, s, a, sha), a, Committing), GIT, a)
  {
    EndsInTarget(c, s, GIT, a, Committed(c, s, a, sha).records);
  }

  lemma EndToLoop(c: Case, s: State, k: nat, a: nat)
    requires Deliverable(c) && AtEnd(c, s, k, a)
    ensures AtLoop(c, Succeed(s, k, a), k + 1)
  {
    assert ExecutionState(s.run.state);
    var t := Succeed(s, k, a);
    assert t.attempts == s.attempts[..a] + [StepAttempt(k, Succeeded)];
    StepsProgress(s.steps, k);
  }

  lemma StepsProgress(steps: seq<TaskStatus>, k: nat)
    requires k < |steps| && Progressed(steps, k, Running)
    ensures Progressed(ReadyNext(steps[k := Succeeded], k), k + 1, Ready)
  {
  }

  // ---------------------------------------------------------------------------------
  // The whole call

  /** `t` is what the transaction at the call's position leaves. */
  predicate Transacted(s: State, t: State, world: World)
    requires s.driver.Some?
  {
    match s.driver.value.at
    case Loop(k) => t == Visit(s, k)
    case Admitted(k, seen) => k < STEP_COUNT && t == MoveTo(s, k, seen)
    case Starting(k) => t == TakeUp(s, k)
    case Acting(k, a) => t == Act(s, k, a, world)
    case Inspected(k, a, report) => t == CheckInspection(s, k, a, report)
    case Publishing(a, seen) => t == PublishWork(s, a, seen)
    case Sending(a) => t == Send(s, a, world)
    case Acted(k, a) => t == Succeed(s, k, a)
    case _ => false
  }

  lemma DriveBy(s: State, t: State, world: State -> World)
    requires Sound(s) && s.driver.Some? && Transacted(s, t, world(s))
    ensures Sound(t) && Drive(t, world) == Drive(s, world)
  {
    DriveOnce(s, world);
  }

  lemma InspectionToEnd(c: Case, s: State, k: nat, a: nat, world: State -> World) returns (t: State)
    requires Deliverable(c) && Cooperates(world, c) && Sound(s) && AtWork(c, s, k, a) && (k == IMPLEMENTATION || k == FINAL)
    ensures Sound(t) && AtEnd(c, t, k, a) && Drive(t, world) == Drive(s, world)
  {
    var inspected := Inspect(s, k, a, world(s));
    InspectRecords(c, s, k, a, world(s));
    InspectToEnd(c, s, k, a, world(s));
    DriveBy(s, inspected, world);
    t := CheckInspection(inspected, k, a, ReportOf(c, k));
    DriveBy(inspected, t, world);
  }

  lemma GitToEnd(c: Case, s: State, a: nat, world: State -> World) returns (t: State)
    requires Deliverable(c) && Cooperates(world, c) && Sound(s) && AtWork(c, s, GIT, a)
    ensures Sound(t) && AtEnd(c, t, GIT, a) && Drive(t, world) == Drive(s, world)
  {
    var sha := world(s).sha;
    var committed := Committed(c, s, a, sha);
    CommitToPublish(c, s, a, world(s));
    DriveBy(s, committed, world);
    var published := PublishWork(committed, a, Committing);
    DriveBy(committed, published, world);
    if c.policy.push {
      EntersPushing(c, s, a, sha);
      t := Send(published, a, world(published));
      PushEnds(c, s, published, a, sha, world(published));
      DriveBy(published, t, world);
    } else {
      UnpushedEnds(c, s, a, sha);
      t := published;
    }
  }

  lemma WorkToEnd(c: Case, s: State, k: nat, a: nat, world: State -> World) returns (t: State)
    requires Deliverable(c) && Cooperates(world, c) && Sound(s) && AtWork(c, s, k, a)
    ensures Sound(t) && AtEnd(c, t, k, a) && Drive(t, world) == Drive(s, world)
  {
    if k == IMPLEMENTATION || k == FINAL {
      t := InspectionToEnd(c, s, k, a, world);
    } else if k == GIT {
      t := GitToEnd(c, s, a, world);
    } else {
      DirectToEnd(c, s, k, a, world(s));
      t := Act(s, k, a, world(s));
      DriveBy(s, t, world);
    }
  }

  lemma ThroughStep(c: Case, s: State, k: nat, world: State -> World) returns (t: State)
    requires Deliverable(c) && Cooperates(world, c) && Sound(s) && AtLoop(c, s, k) && k < STEP_COUNT
    ensures Sound(t) && AtLoop(c, t, k + 1) && Drive(t, world) == Drive(s, world)
  {
    LoopToStart(c, s, k);
    var admitted := Visit(s, k);
    DriveBy(s, admitted, world);
    var starting := MoveTo(admitted, k, s.run.state);
    DriveBy(admitted, starting, world);
    StartToWork(c, starting, k);
    var working := TakeUp(starting, k);
    DriveBy(starting, working, world);
    var ended := WorkToEnd(c, working, k, |starting.attempts|, world);
    EndToLoop(c, ended, k, |starting.attempts|);
    t := Succeed(ended, k, |starting.attempts|);
    DriveBy(ended, t, world);
  }

  lemma {:induction false} ThroughSteps(c: Case, s: State, k: nat, world: State -> World) returns (t: State)
    requires Deliverable(c) && Cooperates(world, c) && Sound(s) && AtLoop(c, s, k)
    ensures Sound(t) && AtLoop(c, t, STEP_COUNT) && Drive(t, world) == Drive(s, world)
    decreases STEP_COUNT - k
  {
    if k == STEP_COUNT {
      t := s;
    } else {
      t := ThroughStep(c, s, k, world);
      t := ThroughSteps(c, t, k + 1, world);
    }
  }

  lemma CompletionAdmitted(c: Case, s: State)
    requires Deliverable(c) && AtLoop(c, s, STEP_COUNT)
    ensures MayEnter(s, Completed)
  {
    CompletionReady(c, s);
    MemoryCompletes(s.run.resumeState);
  }

  lemma CompletionReady(c: Case, s: State)
    requires Deliverable(c) && AtLoop(c, s, STEP_COUNT)
    ensures DeliveryReady(s.records, s.run.goal, s.around.findings, Completed)
  {
    LastOfReports(c, STEP_COUNT);
  }

  lemma MemoryCompletes(resumeState: Option<RunState>)
    ensures ValidTransition(MemoryFinalization, Completed, resumeState)
  {
  }

  lemma Completes(c: Case, s: State, world: World)
    requires Deliverable(c) && Sound(s) && AtLoop(c, s, STEP_COUNT)
    ensures var t := Continue(s, world);
      && t.driver.None? && t.run.state == Completed && AllSucceeded(t.steps) && t.records == s.records
  {
    CompletionAdmitted(c, s);
    EnteredCompleted(s);
  }

  lemma Opens(c: Case, s: State, first: World, second: World, third: World)
    requires Deliverable(c) && s == Begin(c.start, c.policy)
    ensures s.driver.Some?
    ensures var s1 := Continue(s, first);
      s1.driver.Some? && var s2 := Continue(s1, second); s2.driver.Some? && AtLoop(c, Continue(s2, third), 0)
  {
    var id := DeliveryRequest(c.start, c.policy);
    assert s == c.start.(driver := Some(Driver(c.policy, Opening(id))));
    AuthorizeOpens(c, s);
    var s1 := Go(s, Authorized(BindingOf(c).request));
    var s2 := Go(s1.(records := s1.records.(binding := Some(BindingOf(c)))), Installing);
    assert Continue(s1, second) == s2;
    InstallOpens(c, s2, third);
  }

  lemma AuthorizeOpens(c: Case, s: State)
    requires Deliverable(c) && s == c.start.(driver := Some(Driver(c.policy, Opening(DeliveryRequest(c.start, c.policy)))))
    ensures Authorize(s, DeliveryRequest(c.start, c.policy)) == Go(s, Authorized(BindingOf(c).request))
  {
    assert SubjectCurrent(AsStore(s), DeliveryStage, s.run.planVersion);
    assert StatusOf(AsStore(s), DeliveryRequest(c.start, c.policy)) == StatusOf(AsStore(c.start), DeliveryRequest(c.start, c.policy));
  }

  lemma InstallOpens(c: Case, s: State, world: World)
    requires Deliverable(c)
    requires s == c.start.(records := c.start.records.(binding := Some(BindingOf(c))), driver := Some(Driver(c.policy, Installing)))
    ensures AtLoop(c, Continue(s, world), 0)
  {
    InstallBound(c, s);
    assert Install(s) == Go(s.(steps := FRESH_STEPS), Loop(0));
  }

  lemma InstallBound(c: Case, s: State)
    requires Deliverable(c)
    requires s == c.start.(records := c.start.records.(binding := Some(BindingOf(c))), driver := Some(Driver(c.policy, Installing)))
    ensures Bound(AsStore(s)) && DeliveryReady(s.records, s.run.goal, s.around.findings, ChangeGuard)
  {
    assert StatusOf(AsStore(s), DeliveryRequest(c.start, c.policy)) == StatusOf(AsStore(c.start), DeliveryRequest(c.start, c.policy));
  }

  /** A call on an accepted run, answered with success and agreeing evidence, ends with the run COMPLETED: all six
      steps succeeded, the final tree committed and, if the policy says so, pushed. */
  lemma DeliversAccepted(c: Case, world: State -> World)
    requires Deliverable(c) && Cooperates(world, c)
    ensures Sound(Begin(c.start, c.policy))
    ensures var t := Drive(Begin(c.start, c.policy), world);
      && t.driver.None? && t.run.state == Completed && AllSucceeded(t.steps)
      && t.records.commit.Some? && Delivered(c, t.records.commit.value) && t.records.promoted
      && t.records.binding == Some(BindingOf(c))
  {
    StartSound(c);
    var first := DriveOpens(c, Begin(c.start, c.policy), world);
    var t := ThroughSteps(c, first, 0, world);
    DriveOnce(t, world);
    Completes(c, t, world(t));
  }

  /** The three transactions before the first step. */
  lemma DriveOpens(c: Case, s: State, world: State -> World) returns (t: State)
    requires Deliverable(c) && Sound(s) && s == Begin(c.start, c.policy)
    ensures Sound(t) && AtLoop(c, t, 0) && Drive(s, world) == Drive(t, world)
  {
    Opens(c, s, world(s), world(Continue(s, world(s))), world(Continue(Continue(s, world(s)), world(Continue(s, world(s))))));
    DriveOnce(s, world);
    var s1 := Continue(s, world(s));
    DriveOnce(s1, world);
    var s2 := Continue(s1, world(s1));
    DriveOnce(s2, world);
    t := Continue(s2, world(s2));
  }

  lemma StartSound(c: Case)
    requires Deliverable(c)
    ensures Sound(Begin(c.start, c.policy)) && Begin(c.start, c.policy).driver.Some?
  {
    AlwaysSound(c.start, []);
    NextSound(c.start, Action.Call(c.policy));
  }

  // ---------------------------------------------------------------------------------
  // Where a step acts

  /** The run states that belong to a step. */
  function Home(k: nat): set<RunState>
    requires k < STEP_COUNT
  {
    if k == GIT then {Committing, Pushing} else {Target(k)}
  }

  /** In one of its own states a step goes on at once; the Git step so after a push was interrupted. */
  lemma AtHomeGoesOn(s: State, k: nat, world: World)
    requires s.driver.Some? && k < STEP_COUNT && s.driver.value.at == Admitted(k, s.run.state)
    ensures s.run.state == Target(k) || (s.run.state == Pushing && k == GIT) ==> Continue(s, world) == Go(s, Starting(k))
  {
  }

  lemma MovesHome(s: State, k: nat)
    requires s.driver.Some? && k < STEP_COUNT && MoveTo(s, k, s.run.state).driver.Some?
    ensures MoveTo(s, k, s.run.state).run.state !in Home(k) <==> s.run.state !in Home(k) && Target(k) in s.keys
  {
  }

  lemma TakingUpMovesNothing(s: State, k: nat)
    requires s.driver.Some?
    ensures TakeUp(s, k).run == s.run
  {
  }

  /** Left alone since the loop read the run's state, a step acts outside its own states exactly when the run is
      outside them and the key of its target has been used before: the repeated key moves nothing. */
  lemma ActsOutsideExactly(s: State, k: nat, first: World, second: World)
    requires s.driver.Some? && k < STEP_COUNT && s.driver.value.at == Admitted(k, s.run.state)
    requires var t := Continue(s, first); t.driver.Some? && ActsOn(Continue(t, second), k)
    ensures Continue(Continue(s, first), second).run.state !in Home(k)
       <==> s.run.state !in Home(k) && Target(k) in s.keys
  {
    var t := MoveTo(s, k, s.run.state);
    assert t == Continue(s, first);
    MovesHome(s, k);
    TakingUpMovesNothing(t, k);
    assert Continue(t, second) == TakeUp(t, k);
  }
}
