/** What single commands leave on record and reply, said about the records alone. */
module RunAnswers {
  import opened Collections
  import opened RunStates
  import opened Plans
  import opened RunStore
  import opened RunFrames
  import opened RunHistory
  import opened RunSteps
  import opened RunSafety
  import opened RunTheorems
  import opened RunWork

  // ---------------------------------------------------------------------------------
  // Control policy

  /** A control policy is stored once, before anything is planned or asked; an autonomous run needs none. */
  lemma ConfigureExactly(s: Store, policy: ControlPolicy)
    ensures var r := Configure(s, policy);
      if s.policy.Some? then r == Outcome(s, if s.policy == Some(policy) then Ok(policy) else Err(Conflict))
      else if s.run.state !in {Received, ContextSync, Analyzing, GoalDefined} || s.run.planVersion > 0 || s.requests != {} then
        r == Outcome(s, Err(Conflict))
      else
        && r.reply == Ok(policy)
        && r.store == if policy == Autonomous then s
                      else s.(policy := Some(policy), events := s.events + [PolicyConfigured])
  {
  }

  /** Asking for autonomy and gates at once is refused; a supervised run without a choice of gates has all but TASK. */
  lemma ChosenGates(mode: ControlMode, gates: Option<set<Stage>>, stage: Stage)
    ensures Chosen(mode, gates).Err? <==> mode == AutonomousMode && gates.Some? && gates.value != {}
    ensures Chosen(mode, gates).Ok? ==>
      var gated := Chosen(mode, gates).value.Supervised? && stage in Chosen(mode, gates).value.gates;
      gated <==> mode == SupervisedMode && if gates.Some? then stage in gates.value else !stage.TaskStage?
  {
  }

  // ---------------------------------------------------------------------------------
  // Transitions of the run

  /** What an accepted transition makes of the run: its state, the point it resumes from, and its start and end. */
  lemma TransitionShows(commands: seq<Command>, target: RunState, key: string)
    requires Advance(After(commands), target, key).reply.Ok? && FindMoved(After(commands).events, key).None?
    ensures var s, t := After(commands), Advance(After(commands), target, key).store;
      var suspends := target in {Paused, BlockedRun, HumanReviewRequired};
      var suspended := s.run.state in {Paused, BlockedRun, HumanReviewRequired};
      && t.run == s.run.(state := target, uiPhase := t.run.uiPhase, resumeState := t.run.resumeState,
                         started := t.run.started, completed := t.run.completed)
      && t.run.resumeState == (if !suspends then None else if suspended then s.run.resumeState else Some(s.run.state))
      && (t.run.completed <==> target in {Completed, FailedRun, CancelledRun})
      && (t.run.started <==> s.run.started || target !in {Completed, FailedRun, CancelledRun})
  {
    AlwaysSound(commands);
    AdvanceStep(After(commands), target, key);
    MoveFrame(After(commands), target, key);
  }

  /** What an accepted transition shows as the Orchestrator's actor. */
  lemma TransitionShowsActor(commands: seq<Command>, target: RunState, key: string)
    requires Advance(After(commands), target, key).reply.Ok? && FindMoved(After(commands).events, key).None? && target != Planned
    ensures Advance(After(commands), target, key).store.actor ==
      match target
      case CancelledRun => ActorCancelled
      case FailedRun => ActorFailed
      case Completed => ActorStatus.Complete
      case Paused => WaitingForDependency
      case BlockedRun => ActorBlocked
      case HumanReviewRequired => ActorBlocked
      case _ => ActorStatus.Working
  {
    MoveShowsActor(After(commands), target, key);
    AdvanceIsMove(After(commands), target, key);
  }

  lemma AdvanceIsMove(s: Store, target: RunState, key: string)
    requires Advance(s, target, key).reply.Ok? && FindMoved(s.events, key).None? && target != Planned
    ensures Advance(s, target, key).store == Move(s, target, key)
  {
  }

  /** What an accepted transition shows as the phase, which a suspension or a failure keeps. */
  lemma TransitionShowsPhase(commands: seq<Command>, target: RunState, key: string)
    requires Advance(After(commands), target, key).reply.Ok? && FindMoved(After(commands).events, key).None?
    ensures Advance(After(commands), target, key).store.run.uiPhase ==
      if target in {Received, ContextSync} then ContextPhase
      else if target in {Analyzing, GoalDefined} then GoalPhase
      else if target == Planned then PlanPhase
      else if target in {Executing, Integrating} then ImplementPhase
      else if target == Testing then TestPhase
      else if target in {Reviewing, ChangeGuard} then ReviewPhase
      else if target == RepairPlanning then RepairPhase
      else if target == Documenting then DocsPhase
      else if target in {DeliveryValidation, Committing, Pushing, MemoryFinalization, Completed} then DeliverPhase
      else After(commands).run.uiPhase
  {
    AdvanceStep(After(commands), target, key);
    MoveFrame(After(commands), target, key);
    PhaseShownFor(After(commands).run, target);
  }

  lemma PhaseShownFor(run: Run, target: RunState)
    ensures MoveRun(run, target).uiPhase ==
      if target in {Received, ContextSync} then ContextPhase
      else if target in {Analyzing, GoalDefined} then GoalPhase
      else if target == Planned then PlanPhase
      else if target in {Executing, Integrating} then ImplementPhase
      else if target == Testing then TestPhase
      else if target in {Reviewing, ChangeGuard} then ReviewPhase
      else if target == RepairPlanning then RepairPhase
      else if target == Documenting then DocsPhase
      else if target in {DeliveryValidation, Committing, Pushing, MemoryFinalization, Completed} then DeliverPhase
      else run.uiPhase
  {
  }

  lemma MoveShowsActor(s: Store, target: RunState, key: string)
    ensures Move(s, target, key).actor == ActorFor(target)
  {
    var s1 := if Terminal(target) then CancelPending(s, key) else s;
    var s3 := SetActor(Emit(s1.(run := MoveRun(s1.run, target)), Moved(key, s1.run.state, target)), ByRun(key), ActorFor(target));
    UpdatePhaseFrame(s3, key, PhaseStatusFor(target), Terminal(target));
  }

  /** What asking and deciding show: an open question waits, a rejection blocks; an actor that is done stays so. */
  lemma CheckpointShows(s: Store, id: RequestId, expected: Digest, decision: Decision)
    requires Decide(s, id, expected, decision).reply.Ok? && id !in s.decisions
    ensures Decide(s, id, expected, decision).store.actor ==
      if s.actor in {ActorStatus.Complete, ActorCancelled, ActorFailed} then s.actor
      else if decision.kind == Reject then ActorBlocked else WaitingForDependency
    ensures AddRequest(s, id).actor ==
      if s.actor in {ActorStatus.Complete, ActorCancelled, ActorFailed} then s.actor else WaitingForDependency
  {
  }

  /** The log of an installation names each planned task that is not preparatory work on record already. */
  lemma {:induction false} CreateEventsExactly(tasks: seq<Task>, preparation: seq<Task>, key: string, e: Event)
    ensures e in CreateEvents(tasks, preparation, key) <==>
      exists t :: t in tasks && t !in preparation && e == TaskCreated(key, t.id)
  {
    if tasks != [] {
      CreateEventsExactly(tasks[1..], preparation, key, e);
      assert tasks == [tasks[0]] + tasks[1..];
    }
  }

  /** What becomes of the newest phase record: it closes as what the run ends as, or as SUCCEEDED when another phase
      begins; a phase that goes on only changes its status.  Older records stay. */
  ghost predicate PhaseUpdated(before: seq<Phase>, after: seq<Phase>, name: UiPhase, status: TaskStatus, terminal: bool)
    requires before != []
  {
    var n := |before| - 1;
    if terminal then after == before[n := before[n].(status := status, open := false)]
    else if before[n].name == name then after == before[n := before[n].(status := status)]
    else
      && |after| == n + 2 && after[n + 1].name == name && after[n + 1].status == status && after[n + 1].open
      && after[..n + 1] == before[n := before[n].(status := Succeeded, open := false)]
  }

  lemma UpdatePhaseExactly(s: Store, command: string, status: TaskStatus, terminal: bool)
    requires s.phases != [] && s.phases[|s.phases| - 1].open
    ensures PhaseUpdated(s.phases, UpdatePhase(s, command, status, terminal).phases, s.run.uiPhase, status, terminal)
  {
    assert OpenPhase(s.phases) == Some(|s.phases| - 1);
  }

  /** The first phase record, if the run is not over already. */
  lemma FirstPhaseExactly(s: Store, command: string, status: TaskStatus, terminal: bool)
    requires s.phases == []
    ensures UpdatePhase(s, command, status, terminal).phases == if terminal then [] else [Phase(s.run.uiPhase, 1, status, true)]
  {
    assert CountNamed(s.phases, s.run.uiPhase) == 0;
  }

  // ---------------------------------------------------------------------------------
  // Reports of workers

  ghost predicate HasAttempt(s: Store, execution: Uuid) { exists a :: a in s.attempts && a.id == execution }

  ghost predicate RunningAttempt(s: Store, execution: Uuid) {
    exists a :: a in s.attempts && a.id == execution && a.status.Running?
  }

  ghost predicate AssignedTo(s: Store, execution: Uuid) { Assigned(execution) in s.events }

  lemma AttemptsFound(s: Store, execution: Uuid)
    requires ApartAttempts(s.attempts)
    ensures var k := FindAttempt(s.attempts, execution);
      && (k.Some? <==> HasAttempt(s, execution))
      && (k.Some? ==> (s.attempts[k.value].status == Running <==> RunningAttempt(s, execution)))
    ensures IsAssigned(s, execution) <==> AssignedTo(s, execution)
  {
    var k := FindAttempt(s.attempts, execution);
    if k.Some? {
      assert s.attempts[k.value] in s.attempts;
    }
  }

  /** The first receipt for this execution, if any. */
  ghost predicate Receipted(s: Store, execution: Uuid) {
    exists e :: e in s.events && e.ResultReported? && e.execution == execution
  }

  lemma {:induction false} ReportFound(events: seq<Event>, execution: Uuid)
    ensures FindReport(events, execution).Some? <==> exists e :: e in events && e.ResultReported? && e.execution == execution
    ensures FindReport(events, execution).Some? ==> ResultReported(execution, FindReport(events, execution).value) in events
  {
    if events != [] {
      ReportFound(events[1..], execution);
      assert events == [events[0]] + events[1..];
    }
  }

  /** A first report is received while the run executes and its attempt, assigned to an external worker, is running
      and has completed its work; the receipt and its artifact are stored, and nothing else. */
  lemma ReceiveExactly(commands: seq<Command>, execution: Uuid, result: string, completed: bool)
    requires !Receipted(After(commands), execution)
    ensures var s, r := After(commands), ReceiveResult(After(commands), execution, result, completed);
      if !HasAttempt(s, execution) || !AssignedTo(s, execution) then r == Outcome(s, Err(PolicyDenied))
      else if s.run.state != Executing || !RunningAttempt(s, execution) || !completed then r == Outcome(s, Err(Conflict))
      else r == Outcome(s.(artifacts := s.artifacts + [result], events := s.events + [ResultReported(execution, result)]), Ok(()))
  {
    var s := After(commands);
    AlwaysApart(commands);
    AttemptsFound(s, execution);
    ReportFound(s.events, execution);
  }

  lemma {:induction false} FindingFound(events: seq<Event>, key: string)
    ensures FindFinding(events, key).Some? <==> exists e :: e in events && e.FindingReported? && e.key == key
  {
    if events != [] {
      FindingFound(events[1..], key);
      assert events == [events[0]] + events[1..];
    }
  }

  /** A finding under a new key is stored, with its receipt, exactly while its assigned attempt is running in an
      executing run and it is in scope. */
  lemma FindingExactly(commands: seq<Command>, finding: Finding, key: string, inScope: bool)
    requires forall e :: e in After(commands).events ==> !(e.FindingReported? && e.key == key)
    ensures var s, r := After(commands), ReportFinding(After(commands), finding, key, inScope);
      var x := finding.execution;
      if !ValidKey(key) then r == Outcome(s, Err(InputError))
      else if !HasAttempt(s, x) || !AssignedTo(s, x) then r == Outcome(s, Err(PolicyDenied))
      else if s.run.state != Executing || !RunningAttempt(s, x) then r == Outcome(s, Err(Conflict))
      else if !inScope then r == Outcome(s, Err(PolicyDenied))
      else r == Outcome(s.(findings := s.findings + [finding], events := s.events + [FindingReported(key, finding)]), Ok(finding))
  {
    var s := After(commands);
    AlwaysApart(commands);
    AttemptsFound(s, finding.execution);
    FindingFound(s.events, key);
  }
}
