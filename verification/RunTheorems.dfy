/** The promises of a run's lifecycle, over every sequence of commands. */
module RunTheorems {
  import opened Collections
  import opened RunStates
  import opened Plans
  import opened RunStore
  import opened RunFrames
  import opened RunHistory
  import opened RunSteps
  import opened RunSafety

  // ---------------------------------------------------------------------------------
  // Suspension

  ghost function StateAfter(commands: seq<Command>, n: nat): RunState
    requires n <= |commands|
  {
    After(commands[..n]).run.state
  }

  ghost predicate SuspendedAt(commands: seq<Command>, m: nat)
    requires m <= |commands|
  {
    Suspended(StateAfter(commands, m))
  }

  /** Not suspended after `n` commands, and suspended ever since. */
  ghost predicate SuspendedSince(commands: seq<Command>, n: nat) {
    && n < |commands| && !SuspendedAt(commands, n)
    && forall m: nat :: n < m <= |commands| ==> SuspendedAt(commands, m)
  }

  lemma ShorterState(commands: seq<Command>, m: nat)
    requires m < |commands|
    ensures StateAfter(commands, m) == StateAfter(commands[..|commands| - 1], m)
  {
    assert commands[..m] == commands[..|commands| - 1][..m];
  }

  ghost predicate ReplannedSince(commands: seq<Command>, n: nat) {
    exists m :: n < m < |commands| && Replanning(commands[m])
  }

  lemma SuspendedTransition(s: Store, t: Store, target: RunState, key: string)
    requires SuspensionSound(s) && Transition(s, t, target, key) && Suspended(t.run.state)
    ensures ResumePoint(t.events) == ResumePoint(s.events)
  {
    MoveFrame(s, target, key);
    ResumePointGains(s.events, t.events, Moved(key, s.run.state, target));
  }

  lemma SuspendedStep(s: Store, t: Store)
    requires SuspensionSound(s) && Step(s, t) && Suspended(t.run.state)
    ensures ResumePoint(t.events) == ResumePoint(s.events) || ResumePoint(t.events) == Planned
    ensures Undisturbed(s, t) || !Suspended(s.run.state) ==> ResumePoint(t.events) == ResumePoint(s.events)
  {
    if Appended(s.events, t.events) {
      ResumePointAppended(s.events, t.events);
    } else if exists target, key :: Transition(s, t, target, key) {
      var target, key :| Transition(s, t, target, key);
      SuspendedTransition(s, t, target, key);
    } else {
      var key, version :| LogGains(s.events, t.events, PlanRevised(key, version, true));
      ResumePointGains(s.events, t.events, PlanRevised(key, version, true));
    }
  }

  lemma StillSuspendedAt(commands: seq<Command>, n: nat, m: nat)
    requires commands != [] && SuspendedSince(commands[..|commands| - 1], n) && n < m < |commands|
    ensures SuspendedAt(commands, m)
  {
    ShorterState(commands, m);
    assert SuspendedAt(commands[..|commands| - 1], m);
  }

  lemma WholeSuspended(commands: seq<Command>)
    requires Suspended(After(commands).run.state)
    ensures SuspendedAt(commands, |commands|)
  {
    assert commands[..|commands|] == commands;
  }

  lemma StillSuspendedSince(commands: seq<Command>, n: nat)
    requires commands != [] && SuspendedAt(commands, |commands|)
    requires SuspendedSince(commands[..|commands| - 1], n)
    ensures SuspendedSince(commands, n) && StateAfter(commands, n) == StateAfter(commands[..|commands| - 1], n)
  {
    ShorterState(commands, n);
    forall m: nat | n < m <= |commands|
      ensures SuspendedAt(commands, m)
    {
      if m < |commands| {
        StillSuspendedAt(commands, n, m);
      }
    }
  }

  lemma StillReplannedSince(commands: seq<Command>, n: nat)
    requires commands != [] && n < |commands| - 1
    requires ReplannedSince(commands[..|commands| - 1], n) || Replanning(commands[|commands| - 1])
    ensures ReplannedSince(commands, n)
  {
    if Replanning(commands[|commands| - 1]) {
    } else {
      var m :| n < m < |commands| - 1 && Replanning(commands[..|commands| - 1][m]);
      assert Replanning(commands[m]);
    }
  }

  lemma JustSuspended(commands: seq<Command>)
    requires commands != [] && Suspended(After(commands).run.state)
    requires !Suspended(After(commands[..|commands| - 1]).run.state)
    ensures SuspendedSince(commands, |commands| - 1)
  {
    assert commands[..|commands|] == commands;
  }

  /** Whatever chain of suspensions led here, a suspended run resumes into the last state it was in before them,
      or into PLANNED if it was replanned for a new goal meanwhile. */
  lemma {:induction false} ResumesWhereItLeft(commands: seq<Command>) returns (n: nat)
    requires Suspended(After(commands).run.state)
    ensures SuspendedSince(commands, n)
    ensures ResumePoint(After(commands).events) == StateAfter(commands, n)
         || (ResumePoint(After(commands).events) == Planned && ReplannedSince(commands, n))
  {
    var last := |commands| - 1;
    var shorter := commands[..last];
    AlwaysSound(shorter);
    ApplyStep(After(shorter), commands[last]);
    SuspendedStep(After(shorter), After(commands));
    if !Suspended(After(shorter).run.state) {
      n := last;
      JustSuspended(commands);
    } else {
      n := ResumesWhereItLeft(shorter);
      WholeSuspended(commands);
      StillSuspendedSince(commands, n);
      if ReplannedSince(shorter, n) || Replanning(commands[last]) {
        StillReplannedSince(commands, n);
      }
    }
  }

  /** In every reachable state a resume target is set exactly while the run is suspended, and is neither
      a suspension nor an end. */
  lemma ResumeTargetExactly(commands: seq<Command>)
    ensures var run := After(commands).run;
      && (run.resumeState.Some? <==> Suspended(run.state))
      && (run.resumeState.Some? ==> run.resumeState.value == ResumePoint(After(commands).events)
                                    && !Suspended(run.resumeState.value) && !Terminal(run.resumeState.value))
  {
    AlwaysSound(commands);
  }

  /** A resume that is accepted under a new key ends the suspension exactly there. */
  lemma ResumeReturns(commands: seq<Command>, key: string)
    requires Suspended(After(commands).run.state) && FindMoved(After(commands).events, key).None?
    requires Resume(After(commands), key).reply.Ok?
    ensures var s, t := After(commands), Resume(After(commands), key).store;
      t.run.state == ResumePoint(s.events) && t.run.resumeState == None && ResumePoint(t.events) == ResumePoint(s.events)
  {
    var s := After(commands);
    var point := ResumePoint(s.events);
    AlwaysSound(commands);
    AdvanceStep(s, point, key);
    MoveFrame(s, point, key);
    ResumePointGains(s.events, Resume(s, key).store.events, Moved(key, s.run.state, point));
  }

  // ---------------------------------------------------------------------------------
  // Phases

  /** Exactly the newest phase is open, and it is the run's. */
  ghost predicate OnlyLastOpen(s: Store) {
    && s.phases != [] && s.phases[|s.phases| - 1].name == s.run.uiPhase
    && forall i: nat :: i < |s.phases| ==> (s.phases[i].open <==> i == |s.phases| - 1)
  }

  lemma SoundOpensLast(s: Store)
    requires PhasesSound(s) && !Terminal(s.run.state) && s.phases != []
    ensures OnlyLastOpen(s)
  {
    forall i: nat | i < |s.phases|
      ensures s.phases[i].open <==> i == |s.phases| - 1
    {
      if i + 1 < |s.phases| {
        assert Adjacent(s.phases, i);
      }
    }
  }

  lemma MoveOpens(s: Store, t: Store, target: RunState, key: string)
    requires PhasesSound(s) && Transition(s, t, target, key)
    ensures PhasesSound(t) && t.run.state == target && (!Terminal(target) ==> t.phases != [])
  {
    var s1 := if Terminal(target) then CancelPending(s, key) else s;
    CancelPendingOnlyWork(s, key);
    var s3 := SetActor(Emit(s1.(run := MoveRun(s1.run, target)), Moved(key, s1.run.state, target)), ByRun(key), ActorFor(target));
    UpdatePhaseLedger(s3, key, PhaseStatusFor(target), Terminal(target));
    MoveFrame(s, target, key);
  }

  /** After an admitted transition into a living state exactly one phase is open, and it is the run's;
      after one into an end no phase is open, no attempt active and no task of the plan pending or ready. */
  lemma OnePhaseOpen(commands: seq<Command>, target: RunState, key: string)
    requires Advance(After(commands), target, key).reply.Ok? && FindMoved(After(commands).events, key).None?
    ensures var t := Advance(After(commands), target, key).store;
      && t.run.state == target && Ledger(t.phases)
      && if Terminal(target) then AllClosed(t.phases) && !AnyActive(t.attempts) && PlanSettled(t) else OnlyLastOpen(t)
  {
    var s := After(commands);
    var t := Advance(s, target, key).store;
    AlwaysSound(commands);
    AdvanceStep(s, target, key);
    MoveOpens(s, t, target, key);
    AdvanceOrRequest(s, target, key);
    EndKept(s, t);
    if !Terminal(target) {
      SoundOpensLast(t);
    }
  }

  /** Once ended, a run keeps its state, phases, tasks and attempts whatever commands follow. */
  lemma {:induction false} EndedForGood(commands: seq<Command>, n: nat)
    requires n <= |commands| && Terminal(StateAfter(commands, n))
    ensures var s, t := After(commands[..n]), After(commands);
      && t.run == s.run && t.phases == s.phases && t.tasks == s.tasks && t.attempts == s.attempts
      && AllClosed(t.phases) && !AnyActive(t.attempts) && PlanSettled(t)
  {
    AlwaysSound(commands);
    if n == |commands| {
      assert commands[..n] == commands;
    } else {
      var shorter := commands[..|commands| - 1];
      assert shorter[..n] == commands[..n];
      EndedForGood(shorter, n);
      AlwaysSound(shorter);
      ApplyStep(After(shorter), commands[|commands| - 1]);
    }
  }

  // ---------------------------------------------------------------------------------
  // Approval

  /** Command `j` of the run was the operator's decision on this request, taken while it was open and current. */
  ghost predicate DecidedAt(commands: seq<Command>, j: nat, id: RequestId, decision: Decision) {
    && j < |commands| && commands[j] == DoDecide(id, id.digest, decision)
    && var s := After(commands[..j]);
       && id in s.requests && id !in s.decisions && SubjectCurrent(s, id.stage, id.version)
       && !Blank(decision.operator) && (decision.kind == Reject ==> !Blank(decision.reason))
  }

  lemma DecideRecords(s: Store, id: RequestId, expected: Digest, decision: Decision, other: RequestId)
    requires other in Decide(s, id, expected, decision).store.decisions && other !in s.decisions
    ensures other == id && expected == id.digest && id in s.requests && SubjectCurrent(s, id.stage, id.version)
    ensures Decide(s, id, expected, decision).store.decisions[id] == decision
    ensures !Blank(decision.operator) && (decision.kind == Reject ==> !Blank(decision.reason))
  {
  }

  lemma DecideDecides(s: Store, c: Command, id: RequestId)
    requires PlansRecorded(s) && EndedQuiet(s) && id in Apply(s, c).decisions && id !in s.decisions
    ensures c == DoDecide(id, id.digest, Apply(s, c).decisions[id])
    ensures id in s.requests && SubjectCurrent(s, id.stage, id.version)
    ensures !Blank(c.decision.operator) && (c.decision.kind == Reject ==> !Blank(c.decision.reason))
  {
    ApplyStep(s, c);
    DecideRecords(s, c.request, c.expected, c.decision, id);
  }

  lemma DecisionStays(s: Store, c: Command, id: RequestId)
    requires PlansRecorded(s) && EndedQuiet(s) && id in s.decisions
    ensures id in Apply(s, c).decisions && Apply(s, c).decisions[id] == s.decisions[id]
  {
    ApplyStep(s, c);
  }

  /** Every recorded decision is one an operator took on that very request, and is as it was taken. */
  lemma {:induction false} DecisionWasTaken(commands: seq<Command>, id: RequestId) returns (j: nat)
    requires id in After(commands).decisions
    ensures DecidedAt(commands, j, id, After(commands).decisions[id])
  {
    var last := |commands| - 1;
    var shorter := commands[..last];
    AlwaysSound(shorter);
    if id in After(shorter).decisions {
      j := DecisionWasTaken(shorter, id);
      DecisionStays(After(shorter), commands[last], id);
      assert shorter[..j] == commands[..j];
    } else {
      DecideDecides(After(shorter), commands[last], id);
      j := last;
    }
  }

  ghost predicate ApprovedBefore(commands: seq<Command>, id: RequestId) {
    exists j: nat, decision :: DecidedAt(commands, j, id, decision) && decision.kind == Approve
  }

  lemma ExecutingEntered(s: Store, t: Store)
    requires Sound(s) && Step(s, t) && s.run.state != Executing && t.run.state == Executing
    ensures PlanForGoal(s) && PlanApproved(s)
    ensures t.run.planVersion == s.run.planVersion && t.run.goal == s.run.goal && t.plans == s.plans
    ensures PlanRequest(t) == PlanRequest(s)
  {
    var target, key :| Transition(s, t, target, key);
    MoveFrame(s, target, key);
    ExecutingGuarded(s);
    ApprovedStill(s, t);
  }

  /** Entering EXECUTING, by any command, in a run that gates plans was preceded by an operator's approval of
      exactly the plan executed: its version and its digest. */
  lemma ApprovedBeforeExecuting(commands: seq<Command>, c: Command)
    requires After(commands).run.state != Executing && Apply(After(commands), c).run.state == Executing
    ensures var s, t := After(commands), Apply(After(commands), c);
      && PlanForGoal(s) && t.run.planVersion == s.run.planVersion && t.run.goal == s.run.goal && t.plans == s.plans
      && PlanRequest(t) == PlanRequest(s)
      && (Requires(s, PlanStage) ==> ApprovedBefore(commands, PlanRequest(s)))
  {
    var s := After(commands);
    AlwaysSound(commands);
    ApplyStep(s, c);
    ExecutingEntered(s, Apply(s, c));
    if Requires(s, PlanStage) {
      var j := DecisionWasTaken(commands, PlanRequest(s));
    }
  }

  /** As long as a run builds, its exact plan remains one that was approved, when plans are gated. */
  lemma BuildsWhatWasApproved(commands: seq<Command>)
    requires var s := After(commands); Builds(s.run.state) || (s.run.resumeState.Some? && Builds(s.run.resumeState.value))
    ensures var s := After(commands);
      s.run.planVersion in s.plans && (Requires(s, PlanStage) ==> ApprovedBefore(commands, PlanRequest(s)))
  {
    AlwaysSound(commands);
    var s := After(commands);
    if Requires(s, PlanStage) {
      var j := DecisionWasTaken(commands, PlanRequest(s));
    }
  }

  /** Gates once saved are never loosened and decisions never change. */
  lemma GatesAndDecisionsStay(commands: seq<Command>, n: nat, stage: Stage, id: RequestId)
    requires n <= |commands|
    ensures Requires(After(commands[..n]), stage) ==> Requires(After(commands), stage)
    ensures StatusOf(After(commands[..n]), id) != ApprovalPending ==> StatusOf(After(commands), id) == StatusOf(After(commands[..n]), id)
    ensures id in After(commands[..n]).decisions ==>
      id in After(commands).decisions && After(commands).decisions[id] == After(commands[..n]).decisions[id]
  {
    LaterFollows(commands, n);
  }

  // ---------------------------------------------------------------------------------
  // Plan and goal

  lemma WorkersKeepRun(s: Store, c: Command)
    requires Works(c) && EndedQuiet(s)
    ensures Apply(s, c).run == s.run
  {
    match c
    case DoTransition(execution, status, key) => TransitionTaskSteady(s, execution, status, Given(key));
    case DoReceive(execution, result, completed) => ReceiveSteady(s, execution, result, completed);
    case DoReport(execution, result, completed) =>
      var received := ReceiveResult(s, execution, result, completed);
      ReceiveSteady(s, execution, result, completed);
      TransitionTaskSteady(received.store, execution, Succeeded, Reported(execution));
    case DoFinding(finding, key, inScope) =>
    case WorkRetried(execution) =>
      var k := FindAttempt(s.attempts, execution);
      if k.Some? {
        MoveAttemptOnlyWork(s, k.value, Failed, Given("recovery"));
      }
  }

  lemma AdvanceKeepsGoal(s: Store, target: RunState, key: string)
    ensures Advance(s, target, key).store.run.goal == s.run.goal
  {
    AdvanceStep(s, target, key);
    MoveFrame(s, target, key);
  }

  lemma SteeringKeepsGoal(s: Store, c: Command)
    requires Steers(c) && PlansRecorded(s)
    ensures Apply(s, c).run.goal == s.run.goal
  {
    match c
    case DoAdvance(target, key) => AdvanceKeepsGoal(s, target, key);
    case DoResume(key) =>
      if s.run.resumeState.Some? {
        AdvanceKeepsGoal(s, s.run.resumeState.value, key);
      }
    case DoInstall(plan, key) => InstallStep(s, plan, key);
    case DoRevise(revision, plan, key) => RevisedStep(s, revision, plan, key);
  }

  lemma OthersKeepRun(s: Store, c: Command)
    requires !Steers(c) && !Works(c) && !c.GoalSet?
    ensures Apply(s, c).run == s.run
  {
    if c.DoEnsure? {
      PrepareRequestSteady(s, c.request);
    }
  }

  /** Only setting a goal changes the current goal. */
  lemma GoalKept(s: Store, c: Command)
    requires PlansRecorded(s) && EndedQuiet(s) && !c.GoalSet?
    ensures Apply(s, c).run.goal == s.run.goal
  {
    if Steers(c) {
      SteeringKeepsGoal(s, c);
    } else if Works(c) {
      WorkersKeepRun(s, c);
    } else {
      OthersKeepRun(s, c);
    }
  }

  /** The command is admitted and replaces the current goal. */
  ghost predicate ReplacesGoal(s: Store, c: Command) { c.GoalSet? && GoalSettable(s, c.id) }

  lemma BuildingStepKeepsPlan(s: Store, t: Store)
    requires Sound(s) && Step(s, t) && Builds(ResumePoint(s.events)) && Builds(ResumePoint(t.events))
    ensures t.run.planVersion == s.run.planVersion && s.run.planVersion in s.plans
    ensures t.plans[t.run.planVersion] == s.plans[s.run.planVersion]
  {
    if !Steady(s, t) && !NewPlan(s, t) {
      var target, key :| Transition(s, t, target, key);
      MoveFrame(s, target, key);
    } else if NewPlan(s, t) {
      SuspensionKept(s, t);
    }
  }

  lemma ReplacingOutdates(s: Store, c: Command)
    requires SuspensionSound(s) && Builds(ResumePoint(s.events)) && ReplacesGoal(s, c)
    ensures Suspended(s.run.state) && !PlanForGoal(Apply(s, c))
  {
  }

  lemma OthersKeepPlan(s: Store, c: Command)
    requires Sound(s) && Builds(ResumePoint(s.events)) && !ReplacesGoal(s, c)
    requires Step(s, Apply(s, c)) && Builds(ResumePoint(Apply(s, c).events))
    ensures PlanForGoal(Apply(s, c)) <==> PlanForGoal(s)
  {
    if c.GoalSet? {
      assert Apply(s, c) == s;
    } else {
      GoalKept(s, c);
      BuildingStepKeepsPlan(s, Apply(s, c));
    }
  }

  /** While a run builds, or is suspended from building, its plan stops being the plan of the current goal exactly
      when the goal is replaced, which takes a suspension; the transition back into INTEGRATING or TESTING does not
      notice. */
  lemma PlanOutdatedExactly(commands: seq<Command>, c: Command)
    requires Builds(ResumePoint(After(commands).events)) && Builds(ResumePoint(Apply(After(commands), c).events))
    ensures PlanForGoal(Apply(After(commands), c)) <==> PlanForGoal(After(commands)) && !ReplacesGoal(After(commands), c)
    ensures ReplacesGoal(After(commands), c) ==> Suspended(After(commands).run.state)
  {
    var s := After(commands);
    AlwaysSound(commands);
    if ReplacesGoal(s, c) {
      ReplacingOutdates(s, c);
    } else {
      SoundKept(s, c);
      OthersKeepPlan(s, c);
    }
  }

  /** Command `n` took the run into EXECUTING. */
  ghost predicate EntersAt(commands: seq<Command>, n: nat)
    requires n < |commands|
  {
    StateAfter(commands, n) != Executing && StateAfter(commands, n + 1) == Executing
  }

  ghost predicate ReplacedAt(commands: seq<Command>, n: nat)
    requires n < |commands|
  {
    ReplacesGoal(After(commands[..n]), commands[n])
  }

  ghost predicate LastEntry(commands: seq<Command>, n: nat) {
    && n < |commands| && EntersAt(commands, n)
    && forall m: nat :: n < m < |commands| ==> !EntersAt(commands, m)
  }

  ghost predicate NotReplacedSince(commands: seq<Command>, n: nat) {
    forall m: nat :: n < m < |commands| ==> !ReplacedAt(commands, m)
  }

  lemma ShorterEntry(commands: seq<Command>, m: nat)
    requires m + 1 < |commands|
    ensures EntersAt(commands, m) <==> EntersAt(commands[..|commands| - 1], m)
    ensures ReplacedAt(commands, m) <==> ReplacedAt(commands[..|commands| - 1], m)
  {
    ShorterState(commands, m);
    ShorterState(commands, m + 1);
    assert commands[..m] == commands[..|commands| - 1][..m];
  }

  lemma NewestEntry(commands: seq<Command>)
    requires commands != []
    ensures var last := |commands| - 1;
      && (EntersAt(commands, last) <==>
            After(commands[..last]).run.state != Executing && After(commands).run.state == Executing)
      && (ReplacedAt(commands, last) <==> ReplacesGoal(After(commands[..last]), commands[last]))
  {
    assert commands[..|commands| - 1 + 1] == commands;
  }

  lemma BuildsBefore(s: Store, t: Store)
    requires Sound(s) && Step(s, t) && Builds(ResumePoint(t.events))
    ensures Builds(ResumePoint(s.events)) || (s.run.state != Executing && t.run.state == Executing)
  {
    if Steady(s, t) {
      ResumePointAppended(s.events, t.events);
    } else if NewPlan(s, t) {
      SuspensionKept(s, t);
      if Appended(s.events, t.events) {
        ResumePointAppended(s.events, t.events);
      }
    } else {
      var target, key :| Transition(s, t, target, key);
      MoveFrame(s, target, key);
      ResumePointGains(s.events, t.events, Moved(key, s.run.state, target));
      if target in {Integrating, Testing} {
        BuildingGoesOn(s, target);
      }
    }
  }

  lemma EntryStays(commands: seq<Command>, n: nat)
    requires commands != [] && LastEntry(commands[..|commands| - 1], n) && !EntersAt(commands, |commands| - 1)
    ensures LastEntry(commands, n)
  {
    ShorterEntry(commands, n);
    forall m: nat | n < m < |commands| - 1
      ensures !EntersAt(commands, m)
    {
      NoEntryAt(commands, n, m);
    }
  }

  lemma ReplacedSinceShorter(commands: seq<Command>, n: nat)
    requires commands != [] && n < |commands| - 1
    ensures NotReplacedSince(commands, n) <==>
      NotReplacedSince(commands[..|commands| - 1], n) && !ReplacedAt(commands, |commands| - 1)
  {
    var last := |commands| - 1;
    forall m: nat | n < m < last
      ensures ReplacedAt(commands, m) <==> ReplacedAt(commands[..last], m)
    {
      ShorterEntry(commands, m);
    }
  }

  lemma NoEntryAt(commands: seq<Command>, n: nat, m: nat)
    requires commands != [] && LastEntry(commands[..|commands| - 1], n) && n < m < |commands| - 1
    ensures !EntersAt(commands, m)
  {
    ShorterEntry(commands, m);
    assert !EntersAt(commands[..|commands| - 1], m);
  }

  lemma EntryIsCurrent(commands: seq<Command>)
    requires commands != [] && EntersAt(commands, |commands| - 1)
    ensures PlanForGoal(After(commands))
  {
    var shorter := commands[..|commands| - 1];
    NewestEntry(commands);
    AlwaysSound(shorter);
    SoundKept(After(shorter), commands[|commands| - 1]);
    ExecutingEntered(After(shorter), After(commands));
  }

  /** Over a whole run: while it builds, or is suspended from building, its plan is the plan of the current goal if
      and only if the goal was not replaced since EXECUTING was last entered. */
  lemma {:induction false} PlanCurrentUnlessReplaced(commands: seq<Command>) returns (n: nat)
    requires Builds(ResumePoint(After(commands).events))
    ensures LastEntry(commands, n)
    ensures PlanForGoal(After(commands)) <==> NotReplacedSince(commands, n)
  {
    var last := |commands| - 1;
    var shorter := commands[..last];
    NewestEntry(commands);
    if EntersAt(commands, last) {
      n := last;
      EntryIsCurrent(commands);
    } else {
      AlwaysSound(shorter);
      SoundKept(After(shorter), commands[last]);
      BuildsBefore(After(shorter), After(commands));
      n := PlanCurrentUnlessReplaced(shorter);
      EntryStays(commands, n);
      ReplacedSinceShorter(commands, n);
      PlanOutdatedExactly(shorter, commands[last]);
    }
  }
}
