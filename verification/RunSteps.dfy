/** The three shapes of a step: a steady one, an admitted transition, and a change of plan. */
module RunSteps {
  import opened Collections
  import opened RunStates
  import opened Plans
  import opened RunStore
  import opened RunFrames
  import opened RunHistory

  /** The run stays where it is; after its end its work is untouched as well. */
  ghost predicate Steady(s: Store, t: Store) {
    && t.run == s.run.(goal := t.run.goal)
    && t.phases == s.phases && t.plans == s.plans
    && Appended(s.events, t.events)
    && (s.policy == t.policy || s.run.planVersion == 0)
    && (Terminal(s.run.state) ==> t.run == s.run && t.tasks == s.tasks && t.attempts == s.attempts)
  }

  /** The log gained this event, and otherwise only quiet ones. */
  ghost predicate LogGains(before: seq<Event>, after: seq<Event>, e: Event) {
    exists middle: seq<Event> :: Appended(before, middle) && Appended(middle + [e], after)
  }

  ghost predicate Transition(s: Store, t: Store, target: RunState, key: string) {
    && ValidTransition(s.run.state, target, s.run.resumeState) && Guard(s, target).reply.Ok?
    && FindMoved(s.events, key).None?
    && t == Move(s, target, key).(requests := t.requests, actor := t.actor, events := t.events)
    && Move(s, target, key).events <= t.events
    && LogGains(s.events, t.events, Moved(key, s.run.state, target))
  }

  ghost predicate Replans(before: seq<Event>, after: seq<Event>) {
    exists key, version :: LogGains(before, after, PlanRevised(key, version, true))
  }

  ghost predicate NewPlan(s: Store, t: Store) {
    && !Terminal(s.run.state) && s.run.state !in {Executing, Integrating, Testing}
    && t.run == s.run.(planVersion := s.run.planVersion + 1, resumeState := t.run.resumeState)
    && (s.run.planVersion in s.plans || s.run.state == GoalDefined)
    && t.plans.Keys == s.plans.Keys + {t.run.planVersion}
    && t.phases == s.phases && t.policy == s.policy && t.decisions == s.decisions
    && (|| (Appended(s.events, t.events) && t.run.resumeState == s.run.resumeState
            && (s.run.state == Paused ==> s.run.resumeState == Some(Planned))
            && s.run.state !in {BlockedRun, HumanReviewRequired})
        || (Replans(s.events, t.events) && s.run.state in {Paused, HumanReviewRequired} && t.run.resumeState == Some(Planned)))
  }

  /** One step, as every invariant needs it. */
  ghost predicate Step(s: Store, t: Store) {
    && Follows(s, t) && PlansRecorded(t)
    && (Steady(s, t) || (exists target, key :: Transition(s, t, target, key)) || NewPlan(s, t))
  }

  // ---------------------------------------------------------------------------------
  // Steady commands

  lemma RecordedStill(s: Store, t: Store)
    requires PlansRecorded(s) && t.plans == s.plans && SameContracts(s.tasks, t.tasks)
    ensures PlansRecorded(t)
  {
    forall v, i | v in t.plans && 0 <= i < |t.plans[v].tasks|
      ensures Known(t.tasks, t.plans[v].tasks[i].id)
    {
      KnownLonger(s.tasks, t.tasks, s.plans[v].tasks[i].id);
    }
  }

  lemma SteadyStep(s: Store, t: Store)
    requires PlansRecorded(s) && Follows(s, t) && Steady(s, t)
    ensures Step(s, t)
  {
    RecordedStill(s, t);
  }

  lemma RequestSteady(s: Store, t: Store, id: RequestId)
    requires t == s || OnlyRequest(s, t, id)
    ensures Follows(s, t) && Steady(s, t)
  {
  }

  lemma PrepareRequestSteady(s: Store, id: RequestId)
    ensures var t := PrepareRequest(s, id).store; t == s || OnlyRequest(s, t, id)
  {
    if id !in s.requests {
      AddRequestOnly(s, id);
    }
  }

  lemma RequireApprovalOnly(s: Store, id: RequestId)
    ensures var r := RequireApproval(s, id);
      && (r.store == s || (OnlyRequest(s, r.store, id) && r.reply.Err?))
      && (r.reply.Ok? <==> (Requires(s, id.stage) ==>
            SubjectCurrent(s, id.stage, id.version) && id in s.requests && StatusOf(s, id) == Approved))
  {
    if id !in s.requests {
      AddRequestOnly(s, id);
    }
  }

  /** Only requests, decisions, receipts and the Orchestrator's actor differ. */
  ghost predicate Noted(s: Store, t: Store) {
    && t == s.(requests := t.requests, decisions := t.decisions, actor := t.actor, records := t.records,
               artifacts := t.artifacts, findings := t.findings, events := t.events)
    && s.requests <= t.requests && KeepsDecisions(s, t) && Appended(s.events, t.events)
  }

  lemma NotedSteady(s: Store, t: Store)
    requires Noted(s, t)
    ensures Follows(s, t) && Steady(s, t)
  {
  }

  lemma DecideNoted(s: Store, id: RequestId, expected: Digest, decision: Decision)
    ensures Noted(s, Decide(s, id, expected, decision).store)
  {
  }

  lemma DecideSteady(s: Store, id: RequestId, expected: Digest, decision: Decision)
    ensures var t := Decide(s, id, expected, decision).store; Follows(s, t) && Steady(s, t)
  {
    DecideNoted(s, id, expected, decision);
    NotedSteady(s, Decide(s, id, expected, decision).store);
  }

  lemma OnlyWorkSteady(s: Store, t: Store)
    requires OnlyWork(s, t)
    requires Terminal(s.run.state) ==> t.tasks == s.tasks && t.attempts == s.attempts
    ensures Follows(s, t) && Steady(s, t)
  {
  }

  /** No attempt is active once a run has ended. */
  ghost predicate EndedQuiet(s: Store) { Terminal(s.run.state) ==> !AnyActive(s.attempts) }

  lemma TransitionTaskSteady(s: Store, execution: Uuid, status: TaskStatus, order: TaskCommand)
    requires EndedQuiet(s)
    ensures var t := TransitionTask(s, execution, status, order).store; OnlyWork(s, t) && Follows(s, t) && Steady(s, t)
  {
    var k := FindAttempt(s.attempts, execution);
    var t := TransitionTask(s, execution, status, order).store;
    if t != s {
      MoveAttemptOnlyWork(s, k.value, status, order);
      assert ActiveAttempt(s.attempts[k.value].status);
      OnlyWorkSteady(s, t);
    }
  }

  lemma SteadyTransitive(s: Store, t: Store, u: Store)
    requires Follows(s, t) && Steady(s, t) && Follows(t, u) && Steady(t, u)
    ensures Follows(s, u) && Steady(s, u)
  {
  }

  lemma ReceiveNoted(s: Store, execution: Uuid, result: string, completed: bool)
    ensures var t := ReceiveResult(s, execution, result, completed).store;
      Noted(s, t) && t.run == s.run && t.attempts == s.attempts && t.decisions == s.decisions
  {
  }

  lemma ReceiveSteady(s: Store, execution: Uuid, result: string, completed: bool)
    ensures var t := ReceiveResult(s, execution, result, completed).store;
      Follows(s, t) && Steady(s, t) && t.run == s.run && t.attempts == s.attempts && t.decisions == s.decisions
  {
    ReceiveNoted(s, execution, result, completed);
    NotedSteady(s, ReceiveResult(s, execution, result, completed).store);
  }

  lemma ReportResultSteady(s: Store, execution: Uuid, result: string, completed: bool)
    requires EndedQuiet(s)
    ensures var t := ReportResult(s, execution, result, completed).store;
      Follows(s, t) && Steady(s, t) && t.decisions == s.decisions
  {
    var received := ReceiveResult(s, execution, result, completed);
    ReceiveSteady(s, execution, result, completed);
    if received.reply.Ok? {
      TransitionTaskSteady(received.store, execution, Succeeded, Reported(execution));
      SteadyTransitive(s, received.store, TransitionTask(received.store, execution, Succeeded, Reported(execution)).store);
    }
  }

  lemma FindingNoted(s: Store, finding: Finding, key: string, inScope: bool)
    ensures var t := ReportFinding(s, finding, key, inScope).store; Noted(s, t) && t.decisions == s.decisions
  {
  }

  lemma FindingSteady(s: Store, finding: Finding, key: string, inScope: bool)
    ensures var t := ReportFinding(s, finding, key, inScope).store; Follows(s, t) && Steady(s, t) && t.decisions == s.decisions
  {
    FindingNoted(s, finding, key, inScope);
    NotedSteady(s, ReportFinding(s, finding, key, inScope).store);
  }

  lemma ConfigureSteady(s: Store, policy: ControlPolicy)
    ensures var t := Configure(s, policy).store; Follows(s, t) && Steady(s, t)
  {
  }

  lemma RetriedSteady(s: Store, execution: Uuid)
    ensures Follows(s, Retried(s, execution)) && Steady(s, Retried(s, execution)) && Retried(s, execution).decisions == s.decisions
  {
    var k := FindAttempt(s.attempts, execution);
    var t := Retried(s, execution);
    if t != s {
      var failed := MoveAttempt(s, k.value, Failed, Given("recovery"));
      MoveAttemptOnlyWork(s, k.value, Failed, Given("recovery"));
      WithStatusContracts(failed.tasks, s.attempts[k.value].task, Ready);
    }
  }

  predicate Steers(c: Command) { c.DoAdvance? || c.DoResume? || c.DoInstall? || c.DoRevise? }

  lemma WorkStartsSteady(s: Store, attempt: Attempt)
    ensures var t := Apply(s, WorkStarts(attempt)); Follows(s, t) && Steady(s, t) && t.decisions == s.decisions
  {
    WithStatusContracts(s.tasks, attempt.task, Running);
  }

  lemma PreparationAddedSteady(s: Store, task: Task)
    ensures var t := Apply(s, PreparationAdded(task)); Follows(s, t) && Steady(s, t) && t.decisions == s.decisions
  {
  }

  lemma CriteriaMarkedSteady(s: Store, passed: set<Uuid>)
    ensures var t := Apply(s, CriteriaMarked(passed)); Follows(s, t) && Steady(s, t) && t.decisions == s.decisions
  {
  }

  lemma GoalSetSteady(s: Store, id: Uuid, goal: Goal)
    ensures var t := Apply(s, GoalSet(id, goal)); Follows(s, t) && Steady(s, t) && t.decisions == s.decisions
  {
  }

  lemma RecordsNoted(s: Store, c: Command)
    requires c.WorkAssigned? || c.DeliveryRecorded? || c.FindingsReviewed? || c.OtherEvent?
    ensures Noted(s, Apply(s, c)) && Apply(s, c).decisions == s.decisions
  {
  }

  lemma RecordsSteady(s: Store, c: Command)
    requires c.WorkAssigned? || c.DeliveryRecorded? || c.FindingsReviewed? || c.OtherEvent?
    ensures Follows(s, Apply(s, c)) && Steady(s, Apply(s, c)) && Apply(s, c).decisions == s.decisions
  {
    RecordsNoted(s, c);
    NotedSteady(s, Apply(s, c));
  }

  predicate Works(c: Command) { c.DoTransition? || c.DoReceive? || c.DoReport? || c.DoFinding? || c.WorkRetried? }

  lemma WorkersSteady(s: Store, c: Command)
    requires Works(c) && EndedQuiet(s)
    ensures Follows(s, Apply(s, c)) && Steady(s, Apply(s, c)) && Apply(s, c).decisions == s.decisions
  {
    if c.DoReport? {
      ReportResultSteady(s, c.execution, c.result, c.completed);
    } else if c.DoReceive? || c.DoFinding? {
      ReceiptsSteady(s, c);
    } else {
      AttemptsSteady(s, c);
    }
  }

  lemma ReceiptsSteady(s: Store, c: Command)
    requires c.DoReceive? || c.DoFinding?
    ensures Follows(s, Apply(s, c)) && Steady(s, Apply(s, c)) && Apply(s, c).decisions == s.decisions
  {
    match c
    case DoReceive(execution, result, completed) => ReceiveSteady(s, execution, result, completed);
    case DoFinding(finding, key, inScope) => FindingSteady(s, finding, key, inScope);
  }

  lemma AttemptsSteady(s: Store, c: Command)
    requires (c.DoTransition? || c.WorkRetried?) && EndedQuiet(s)
    ensures Follows(s, Apply(s, c)) && Steady(s, Apply(s, c)) && Apply(s, c).decisions == s.decisions
  {
    match c
    case DoTransition(execution, status, key) => TransitionTaskSteady(s, execution, status, Given(key));
    case WorkRetried(execution) => RetriedSteady(s, execution);
  }

  lemma OthersSteady(s: Store, c: Command)
    requires !Steers(c) && EndedQuiet(s)
    ensures Follows(s, Apply(s, c)) && Steady(s, Apply(s, c))
    ensures !c.DoDecide? ==> Apply(s, c).decisions == s.decisions
  {
    if Works(c) {
      WorkersSteady(s, c);
    } else if c.DoEnsure? {
      PrepareRequestSteady(s, c.request);
      RequestSteady(s, Apply(s, c), c.request);
    } else if c.DoDecide? {
      DecideSteady(s, c.request, c.expected, c.decision);
    } else if c.DoConfigure? {
      ConfigureSteady(s, c.policy);
    } else if c.WorkStarts? {
      WorkStartsSteady(s, c.attempt);
    } else if c.PreparationAdded? {
      PreparationAddedSteady(s, c.task);
    } else if c.GoalSet? {
      GoalSetSteady(s, c.id, c.goal);
    } else if c.CriteriaMarked? {
      CriteriaMarkedSteady(s, c.passed);
    } else {
      RecordsSteady(s, c);
    }
  }

  // ---------------------------------------------------------------------------------
  // advance and resume

  lemma GuardOnly(s: Store, target: RunState)
    ensures var r := Guard(s, target);
      r.store == s || (r.reply.Err? && exists id :: OnlyRequest(s, r.store, id))
  {
    if target == RepairPlanning && s.records.reviews != [] {
      RequireApprovalOnly(s, RequestId(RepairStage, s.run.planVersion, OfReview(s.records.reviews[|s.records.reviews| - 1])));
    } else if PlanForGoal(s) {
      RequireApprovalOnly(s, PlanRequest(s));
    }
  }

  lemma MoveTransition(s: Store, target: RunState, key: string)
    ensures LogGains(s.events, Move(s, target, key).events, Moved(key, s.run.state, target))
  {
    var s1 := if Terminal(target) then CancelPending(s, key) else s;
    CancelPendingOnlyWork(s, key);
    var s2 := Emit(s1.(run := MoveRun(s1.run, target)), Moved(key, s1.run.state, target));
    var s3 := SetActor(s2, ByRun(key), ActorFor(target));
    UpdatePhaseFrame(s3, key, PhaseStatusFor(target), Terminal(target));
    assert Appended(s.events, s1.events);
    assert Appended(s1.events + [Moved(key, s.run.state, target)], Move(s, target, key).events);
  }

  lemma LogGainsLonger(a: seq<Event>, b: seq<Event>, c: seq<Event>, e: Event)
    requires LogGains(a, b, e) && Appended(b, c)
    ensures LogGains(a, c, e)
  {
    var middle :| Appended(a, middle) && Appended(middle + [e], b);
    assert Appended(middle + [e], c);
  }

  lemma TransitionRequested(s: Store, target: RunState, key: string, id: RequestId)
    requires ValidTransition(s.run.state, target, s.run.resumeState) && Guard(s, target).reply.Ok?
    requires FindMoved(s.events, key).None?
    ensures var t := PrepareRequest(Move(s, target, key), id).store; Follows(s, t) && Transition(s, t, target, key)
  {
    var moved := Move(s, target, key);
    var t := PrepareRequest(moved, id).store;
    PrepareRequestSteady(moved, id);
    MoveFrame(s, target, key);
    MoveTransition(s, target, key);
    if t != moved {
      RequestSteady(moved, t, id);
      FollowsTransitive(s, moved, t);
      LogGainsLonger(s.events, moved.events, t.events, Moved(key, s.run.state, target));
    }
  }

  lemma AdvanceMoves(s: Store, target: RunState, key: string)
    requires Advance(s, target, key).reply.Ok? && FindMoved(s.events, key).None?
    ensures var t := Advance(s, target, key).store; Follows(s, t) && Transition(s, t, target, key)
  {
    var moved := Move(s, target, key);
    GuardOnly(s, target);
    MoveFrame(s, target, key);
    MoveTransition(s, target, key);
    if moved.run.planVersion in moved.plans {
      TransitionRequested(s, target, key, PlanRequest(moved));
    }
  }

  /** An advance either leaves a request at most, or makes the transition. */
  lemma AdvanceStep(s: Store, target: RunState, key: string)
    ensures var r := Advance(s, target, key);
      && Follows(s, r.store)
      && (r.reply.Err? ==> r.store == s || exists id :: OnlyRequest(s, r.store, id))
      && (r.reply.Ok? ==> if FindMoved(s.events, key).Some? then r.store == s else Transition(s, r.store, target, key))
  {
    if Advance(s, target, key).reply.Ok? && FindMoved(s.events, key).None? {
      AdvanceMoves(s, target, key);
    } else {
      GuardOnly(s, target);
    }
  }

  lemma TransitionStep(s: Store, t: Store, target: RunState, key: string)
    requires PlansRecorded(s) && Transition(s, t, target, key) && Follows(s, t)
    ensures Step(s, t) && t.decisions == s.decisions
  {
    MoveFrame(s, target, key);
    RecordedStill(s, t);
  }

  // ---------------------------------------------------------------------------------
  // Plans

  /** What publishing a plan changes. */
  ghost predicate Published(saved: Store, t: Store, run: Run, log: seq<Event>) {
    && t == saved.(run := run, tasks := t.tasks, actor := t.actor, events := t.events)
    && SameContracts(saved.tasks, t.tasks) && Appended(saved.events + log, t.events)
  }

  lemma PublishFrame(saved: Store, run: Run, log: seq<Event>, key: string)
    ensures Published(saved, Publish(saved, run, log, key), run, log)
  {
    RefreshReadyOnlyWork(saved.(run := run, events := saved.events + log), ByRun(key));
  }

  /** Saving and publishing a plan after retiring work follows on, with every plan recorded. */
  lemma PublishFollows(s: Store, retired: Store, plan: Plan, t: Store, run: Run, log: seq<Event>)
    requires PlansRecorded(s) && OnlyWork(s, retired)
    requires plan.version >= 1 && SavePlan(retired, plan).Some? && Published(SavePlan(retired, plan).value, t, run, log)
    requires s.run.planVersion <= run.planVersion
    ensures Follows(s, t) && PlansRecorded(t) && plan.version in t.plans
  {
    RecordedStill(s, retired);
    SavePlanRecords(retired, plan);
    RecordedStill(SavePlan(retired, plan).value, t);
  }

  lemma InstallSaves(s: Store, plan: Plan, key: string)
    requires PlansRecorded(s) && s.run.planVersion == 0 && s.run.state == GoalDefined && plan.version == 1
    requires SavePlan(s, plan).Some?
    ensures var t := Publish(SavePlan(s, plan).value, s.run.(planVersion := 1),
                             [PlanCreated(key, 1)] + CreateEvents(plan.tasks, Preparatory(s.tasks), key), key);
      && Follows(s, t) && PlansRecorded(t) && NewPlan(s, t) && Appended(s.events, t.events)
      && t.plans == s.plans[1 := plan]
  {
    var run, log := s.run.(planVersion := 1), [PlanCreated(key, 1)] + CreateEvents(plan.tasks, Preparatory(s.tasks), key);
    var saved := SavePlan(s, plan).value;
    var t := Publish(saved, run, log, key);
    PublishFrame(saved, run, log, key);
    PublishFollows(s, s, plan, t, run, log);
    CreateEventsQuiet(plan.tasks, Preparatory(s.tasks), key);
    assert forall i :: 0 <= i < |log| ==> Quiet(log[i]) by {
      assert forall i :: 0 < i < |log| ==> log[i] in CreateEvents(plan.tasks, Preparatory(s.tasks), key);
    }
    assert Appended(s.events, s.events + log);
    assert Appended(s.events, t.events);
  }

  lemma {:induction false} CreateEventsQuiet(tasks: seq<Task>, preparation: seq<Task>, key: string)
    ensures forall e :: e in CreateEvents(tasks, preparation, key) ==> e.TaskCreated?
  {
    if tasks != [] {
      CreateEventsQuiet(tasks[1..], preparation, key);
    }
  }

  lemma InstallRefused(s: Store, plan: Plan, key: string)
    requires InstallPlan(s, plan, key).reply.Err?
    ensures var t := InstallPlan(s, plan, key).store; t == s || exists id :: OnlyRequest(s, t, id)
  {
    var t := InstallPlan(s, plan, key).store;
    if t != s {
      var goal := s.goals[Grafted(s, plan).goal];
      RequireApprovalOnly(s, RequestId(GoalStage, goal.version, GoalSubject(goal)));
    }
  }

  lemma InstallAdmitted(s: Store, plan: Plan, key: string)
    requires PlansRecorded(s) && InstallPlan(s, plan, key).reply.Ok?
    ensures var t := InstallPlan(s, plan, key).store;
      t == s || (&& Follows(s, t) && PlansRecorded(t) && NewPlan(s, t) && Appended(s.events, t.events)
                 && t.plans == s.plans[1 := Grafted(s, plan)])
  {
    if InstallPlan(s, plan, key).store != s {
      var goal := s.goals[Grafted(s, plan).goal];
      RequireApprovalOnly(s, RequestId(GoalStage, goal.version, GoalSubject(goal)));
      InstallSaves(s, Grafted(s, plan), key);
    }
  }

  /** Installation either leaves a request at most, or makes the given plan, with preparatory work grafted on,
      the first and current one. */
  lemma InstallStep(s: Store, plan: Plan, key: string)
    requires PlansRecorded(s)
    ensures var r := InstallPlan(s, plan, key);
      && Follows(s, r.store) && PlansRecorded(r.store)
      && (r.reply.Err? ==> r.store == s || exists id :: OnlyRequest(s, r.store, id))
      && (r.reply.Ok? ==> r.store == s || (&& NewPlan(s, r.store) && Appended(s.events, r.store.events)
                                           && r.store.plans == s.plans[1 := Grafted(s, plan)]))
  {
    var r := InstallPlan(s, plan, key);
    if r.reply.Ok? {
      InstallAdmitted(s, plan, key);
    } else {
      InstallRefused(s, plan, key);
      if r.store != s {
        var id :| OnlyRequest(s, r.store, id);
        RequestSteady(s, r.store, id);
        RecordedStill(s, r.store);
      }
    }
  }

  lemma RetireOnlyWork(s: Store, revision: Revision, key: string)
    ensures OnlyWork(s, Retire(s, revision, key))
  {
    CancelPendingOnlyWork(s, key);
    CancelTasksOnlyWork(s, key, UnprepTasks(s));
  }

  lemma RevisedShape(s: Store, retired: Store, t: Store, revision: Revision, plan: Plan, key: string)
    requires Revisable(s, revision, plan) && OnlyWork(s, retired)
    requires SavePlan(retired, plan).Some?
    requires Published(SavePlan(retired, plan).value, t,
                       s.run.(planVersion := plan.version, resumeState := if revision == GoalPlan then Some(Planned) else s.run.resumeState),
                       [PlanRevised(key, plan.version, revision == GoalPlan)])
    requires plan.version in t.plans
    ensures NewPlan(s, t) && (revision != GoalPlan ==> Appended(s.events, t.events))
  {
    var e := PlanRevised(key, plan.version, revision == GoalPlan);
    assert Appended(s.events, retired.events);
    assert Appended(retired.events + [e], t.events);
    if revision == GoalPlan {
      assert LogGains(s.events, t.events, e);
    } else {
      assert Quiet(e);
    }
  }

  lemma NewPlanRequested(s: Store, t: Store, id: RequestId)
    requires Follows(s, t) && PlansRecorded(t) && NewPlan(s, t)
    ensures var u := PrepareRequest(t, id).store;
      && Follows(s, u) && PlansRecorded(u) && NewPlan(s, u)
      && (Appended(s.events, t.events) ==> Appended(s.events, u.events))
  {
    var u := PrepareRequest(t, id).store;
    PrepareRequestSteady(t, id);
    RecordedStill(t, u);
    assert Appended(t.events, u.events);
    if Replans(s.events, t.events) {
      var key, version :| LogGains(s.events, t.events, PlanRevised(key, version, true));
      LogGainsLonger(s.events, t.events, u.events, PlanRevised(key, version, true));
    }
  }

  lemma RetiredPublished(s: Store, revision: Revision, plan: Plan, key: string)
    requires PlansRecorded(s) && Revisable(s, revision, plan) && SavePlan(Retire(s, revision, key), plan).Some?
    ensures var run := s.run.(planVersion := plan.version,
                              resumeState := if revision == GoalPlan then Some(Planned) else s.run.resumeState);
      var t := Publish(SavePlan(Retire(s, revision, key), plan).value, run, [PlanRevised(key, plan.version, revision == GoalPlan)], key);
      Follows(s, t) && PlansRecorded(t) && NewPlan(s, t) && (revision != GoalPlan ==> Appended(s.events, t.events))
  {
    var retired := Retire(s, revision, key);
    RetireOnlyWork(s, revision, key);
    var saved := SavePlan(retired, plan).value;
    var run := s.run.(planVersion := plan.version,
                      resumeState := if revision == GoalPlan then Some(Planned) else s.run.resumeState);
    var log := [PlanRevised(key, plan.version, revision == GoalPlan)];
    var t := Publish(saved, run, log, key);
    PublishFrame(saved, run, log, key);
    PublishFollows(s, retired, plan, t, run, log);
    RevisedShape(s, retired, t, revision, plan, key);
  }

  lemma RevisedStep(s: Store, revision: Revision, plan: Plan, key: string)
    requires PlansRecorded(s)
    ensures var t := Revised(s, revision, plan, key);
      t == s || (Follows(s, t) && PlansRecorded(t) && NewPlan(s, t) && (revision != GoalPlan ==> Appended(s.events, t.events)))
  {
    if Revised(s, revision, plan, key) != s {
      var run := s.run.(planVersion := plan.version,
                        resumeState := if revision == GoalPlan then Some(Planned) else s.run.resumeState);
      var t := Publish(SavePlan(Retire(s, revision, key), plan).value, run, [PlanRevised(key, plan.version, revision == GoalPlan)], key);
      RetiredPublished(s, revision, plan, key);
      NewPlanRequested(s, t, PlanRequest(t));
    }
  }

  // ---------------------------------------------------------------------------------
  // Every command

  predicate Replanning(c: Command) { c.DoRevise? && c.revision == GoalPlan }

  ghost predicate Undisturbed(s: Store, t: Store) {
    Appended(s.events, t.events) || exists target, key :: Transition(s, t, target, key)
  }

  lemma ApplyStep(s: Store, c: Command)
    requires PlansRecorded(s) && EndedQuiet(s)
    ensures Step(s, Apply(s, c))
    ensures !c.DoDecide? ==> Apply(s, c).decisions == s.decisions
    ensures !Replanning(c) ==> Undisturbed(s, Apply(s, c))
  {
    if !Steers(c) {
      OthersSteady(s, c);
      SteadyStep(s, Apply(s, c));
    } else {
      SteersStep(s, c);
    }
  }

  lemma SteersStep(s: Store, c: Command)
    requires PlansRecorded(s) && Steers(c)
    ensures Step(s, Apply(s, c)) && Apply(s, c).decisions == s.decisions
    ensures !Replanning(c) ==> Undisturbed(s, Apply(s, c))
  {
    match c
    case DoInstall(plan, key) => InstallOrRequest(s, plan, key);
    case DoRevise(revision, plan, key) => RevisedStep(s, revision, plan, key);
    case DoAdvance(target, key) => AdvanceOrRequest(s, target, key);
    case DoResume(key) =>
      if s.run.resumeState.Some? {
        AdvanceOrRequest(s, s.run.resumeState.value, key);
      }
  }

  lemma AdvanceOrRequest(s: Store, target: RunState, key: string)
    requires PlansRecorded(s)
    ensures Step(s, Advance(s, target, key).store) && Advance(s, target, key).store.decisions == s.decisions
    ensures Undisturbed(s, Advance(s, target, key).store)
  {
    var r := Advance(s, target, key);
    AdvanceStep(s, target, key);
    if r.reply.Ok? && FindMoved(s.events, key).None? {
      TransitionStep(s, r.store, target, key);
    } else {
      if r.store != s {
        var id :| OnlyRequest(s, r.store, id);
        RequestSteady(s, r.store, id);
      }
      SteadyStep(s, r.store);
    }
  }

  lemma InstallOrRequest(s: Store, plan: Plan, key: string)
    requires PlansRecorded(s)
    ensures Step(s, InstallPlan(s, plan, key).store) && InstallPlan(s, plan, key).store.decisions == s.decisions
    ensures Undisturbed(s, InstallPlan(s, plan, key).store)
  {
    var r := InstallPlan(s, plan, key);
    InstallStep(s, plan, key);
    if r.reply.Err? || r.store == s {
      if r.store != s {
        var id :| OnlyRequest(s, r.store, id);
        RequestSteady(s, r.store, id);
      }
      SteadyStep(s, r.store);
    }
  }
}
