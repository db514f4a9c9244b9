/** One concrete run, command by command, that reaches the states in which the code falls short of its promises. */
module RunExamples {
  import opened Collections
  import opened RunStates
  import opened Plans
  import opened PlanGraphs
  import opened RunStore
  import opened RunFrames
  import opened RunHistory
  import opened RunReplays
  import opened RunSafety

  const RUN := Random(0)
  const GOAL := Random(1)
  const TASK := Random(2)
  const WORK := Random(3)
  const NEW_GOAL := Random(4)

  const CONTRACT := Goal(1, "goal", [])
  const STEP := Task(TASK, RUN, 1, "step", "developer", [], UNSTARTED)
  const PLAN := Plan(RUN, GOAL, 1, [STEP], [])

  /** A run is planned and executed, its only task reported; it goes on to testing, is paused, and gets a new goal. */
  const TRACE: seq<Command> := [
    DoAdvance(ContextSync, "a"), DoAdvance(Analyzing, "b"), GoalSet(GOAL, CONTRACT), DoAdvance(GoalDefined, "c"),
    DoInstall(PLAN, "p"), DoAdvance(Planned, "d"), DoAdvance(Executing, "e"),
    WorkStarts(Attempt(WORK, TASK, Ready)), WorkAssigned(WORK), DoReport(WORK, "done", true),
    DoAdvance(Integrating, "f"), DoAdvance(Testing, "g"), DoAdvance(Paused, "h"), GoalSet(NEW_GOAL, CONTRACT)]

  /** The keys of the transitions among the first commands. */
  const USED: seq<set<string>> := [
    {}, {"a"}, {"a", "b"}, {"a", "b"}, {"a", "b", "c"}, {"a", "b", "c"}, {"a", "b", "c", "d"}, {"a", "b", "c", "d", "e"},
    {"a", "b", "c", "d", "e"}, {"a", "b", "c", "d", "e"}, {"a", "b", "c", "d", "e"}, {"a", "b", "c", "d", "e", "f"},
    {"a", "b", "c", "d", "e", "f", "g"}, {"a", "b", "c", "d", "e", "f", "g", "h"}, {"a", "b", "c", "d", "e", "f", "g", "h"}]

  // ---------------------------------------------------------------------------------
  // What the log holds

  /** Transitions under the used keys only; no plan or receipt unless there may be one. */
  predicate Expected(e: Event, used: set<string>, planned: bool, reported: bool) {
    && (e.Moved? ==> e.command in used)
    && (e.PlanCreated? ==> planned)
    && (e.ResultReported? || e.TaskMoved? ==> reported)
  }

  ghost predicate Log(events: seq<Event>, used: set<string>, planned: bool, reported: bool) {
    forall i :: 0 <= i < |events| ==> Expected(events[i], used, planned, reported)
  }

  lemma {:induction false} NotMoved(events: seq<Event>, used: set<string>, planned: bool, reported: bool, key: string)
    requires Log(events, used, planned, reported) && key !in used
    ensures FindMoved(events, key).None?
  {
    if events != [] {
      NotMoved(events[1..], used, planned, reported, key);
    }
  }

  lemma {:induction false} NotReported(events: seq<Event>, used: set<string>, planned: bool, execution: Uuid, order: TaskCommand)
    requires Log(events, used, planned, false)
    ensures FindReport(events, execution).None? && FindTaskMoved(events, order).None?
  {
    if events != [] {
      NotReported(events[1..], used, planned, execution, order);
    }
  }

  lemma StartPhaseLog(s: Store, key: string, status: TaskStatus, used: set<string>, planned: bool, reported: bool)
    requires Log(s.events, used, planned, reported)
    ensures Log(StartPhase(s, key, status).events, used, planned, reported)
  {
  }

  lemma UpdatePhaseLog(s: Store, key: string, status: TaskStatus, used: set<string>, planned: bool, reported: bool)
    requires Log(s.events, used, planned, reported)
    ensures Log(UpdatePhase(s, key, status, false).events, used, planned, reported)
  {
    var k := OpenPhase(s.phases);
    if k.Some? {
      var ended := EndPhase(s, key, k.value, Succeeded);
      assert Log(ended.events, used, planned, reported);
      StartPhaseLog(ended, key, status, used, planned, reported);
    } else {
      StartPhaseLog(s, key, status, used, planned, reported);
    }
  }

  lemma {:induction false} MarkReadyLog(s: Store, plan: Plan, tasks: seq<Task>, cause: Cause, used: set<string>)
    requires Log(s.events, used, true, false)
    ensures Log(MarkReady(s, plan, tasks, cause).events, used, true, false)
  {
    if tasks != [] {
      MarkReadyLog(s, plan, tasks[..|tasks| - 1], cause, used);
    }
  }

  // ---------------------------------------------------------------------------------
  // One transition

  /** An unguarded transition moves the run and shows it; work, goals and plans stay. */
  ghost predicate Went(s: Store, t: Store, target: RunState) {
    && t == s.(run := MoveRun(s.run, target), phases := t.phases, actor := t.actor, events := t.events)
    && s.events <= t.events
  }

  lemma MoveGoes(s: Store, target: RunState, key: string, used: set<string>, planned: bool, reported: bool)
    requires Log(s.events, used, planned, reported) && !Terminal(target)
    ensures Went(s, Move(s, target, key), target) && Log(Move(s, target, key).events, used + {key}, planned, reported)
  {
    var s3 := SetActor(Emit(s.(run := MoveRun(s.run, target)), Moved(key, s.run.state, target)), ByRun(key), ActorFor(target));
    assert Log(s3.events, used + {key}, planned, reported);
    UpdatePhaseLog(s3, key, PhaseStatusFor(target), used + {key}, planned, reported);
    UpdatePhaseFrame(s3, key, PhaseStatusFor(target), false);
  }

  lemma Goes(s: Store, target: RunState, key: string, used: set<string>, planned: bool, reported: bool)
    requires s.policy.None? && Log(s.events, used, planned, reported)
    requires key !in used && ValidKey(key) && !Terminal(target)
    requires ValidTransition(s.run.state, target, s.run.resumeState) && Guard(s, target) == Outcome(s, Ok(()))
    ensures Advance(s, target, key).reply.Ok?
    ensures var t := Advance(s, target, key).store; Went(s, t, target) && Log(t.events, used + {key}, planned, reported)
  {
    NotMoved(s.events, used, planned, reported, key);
    MoveGoes(s, target, key, used, planned, reported);
  }

  // ---------------------------------------------------------------------------------
  // The commands, one by one

  function StateAt(n: nat): RunState {
    if n == 0 then Received else if n == 1 then ContextSync else if n <= 3 then Analyzing
    else if n <= 5 then GoalDefined else if n == 6 then Planned else if n <= 10 then Executing
    else if n == 11 then Integrating else if n == 12 then Testing else Paused
  }

  /** What matters of the store after so many commands. */
  ghost predicate Stage(n: nat, s: Store) {
    && n < |USED|
    && s.run.state == StateAt(n) && s.run.resumeState == (if n >= 13 then Some(Testing) else None)
    && s.run.goal == (if n < 3 then None else if n < 14 then Some(GOAL) else Some(NEW_GOAL))
    && s.run.planVersion == (if n < 5 then 0 else 1)
    && s.goals.Keys == (if n < 3 then {} else if n < 14 then {GOAL} else {GOAL, NEW_GOAL})
    && (3 <= n < 5 ==> s.goals[GOAL] == CONTRACT)
    && s.plans == (if n < 5 then map[] else map[1 := PLAN])
    && (n < 5 ==> s.tasks == [])
    && s.attempts == (if n < 8 then [] else [Attempt(WORK, TASK, if n < 10 then Running else Succeeded)])
    && (9 <= n ==> IsAssigned(s, WORK))
    && s.policy.None? && s.records == CREATED.records
    && Log(s.events, USED[n], n >= 5, n >= 10)
  }

  const KEYS := ["a", "b", "c", "d", "e", "f", "g", "h", "i", "p"]

  lemma KeyIsValid(i: nat)
    requires i < |KEYS|
    ensures ValidKey(KEYS[i])
  {
    assert !IsSpace(KEYS[i][0]);
  }

  lemma GuardOpens(n: nat, s: Store)
    requires n < 13 && Stage(n, s) && TRACE[n].DoAdvance?
    ensures Guard(s, StateAt(n + 1)) == Outcome(s, Ok(()))
  {
    if n < 4 {
      EarlyOpens(n, s);
    } else if n < 7 {
      BuildingOpens(n, s);
    } else {
      LateOpens(n, s);
    }
  }

  lemma BuildingOpens(n: nat, s: Store)
    requires 5 <= n < 7 && Stage(n, s)
    ensures Guard(s, StateAt(n + 1)) == Outcome(s, Ok(()))
  {
    assert PlanForGoal(s);
  }

  lemma EarlyOpens(n: nat, s: Store)
    requires n < 4 && n != 2 && Stage(n, s)
    ensures Guard(s, StateAt(n + 1)) == Outcome(s, Ok(()))
  {
  }

  lemma LateOpens(n: nat, s: Store)
    requires 10 <= n < 13 && Stage(n, s)
    ensures Guard(s, StateAt(n + 1)) == Outcome(s, Ok(()))
  {
  }

  lemma StageWent(n: nat, s: Store, t: Store)
    requires n < 13 && Stage(n, s) && TRACE[n].DoAdvance? && Went(s, t, StateAt(n + 1))
    requires Log(t.events, USED[n + 1], n >= 5, n >= 10)
    ensures Stage(n + 1, t)
  {
    if n >= 9 {
      AssignmentStays(s, t, WORK);
    }
  }

  /** The transitions of the trace, by command and key. */
  lemma Transits(n: nat, s: Store, target: RunState, i: nat)
    requires n < 13 && Stage(n, s) && i < |KEYS| && TRACE[n] == DoAdvance(target, KEYS[i])
    requires target == StateAt(n + 1) && USED[n + 1] == USED[n] + {KEYS[i]} && KEYS[i] !in USED[n]
    requires ValidTransition(s.run.state, target, s.run.resumeState)
    ensures Stage(n + 1, Apply(s, TRACE[n]))
  {
    KeyIsValid(i);
    GuardOpens(n, s);
    Goes(s, target, KEYS[i], USED[n], n >= 5, n >= 10);
    StageWent(n, s, Advance(s, target, KEYS[i]).store);
  }

  lemma GoalTaken(s: Store, id: Uuid)
    requires GoalSettable(s, id)
    ensures Apply(s, GoalSet(id, CONTRACT)) == WithGoal(s, id)
  {
  }

  function WithGoal(s: Store, id: Uuid): Store {
    s.(goals := s.goals[id := CONTRACT], run := s.run.(goal := Some(id)))
  }

  lemma FirstGoalSettable(s: Store)
    requires Stage(2, s)
    ensures GoalSettable(s, GOAL)
  {
  }

  lemma FirstGoalStage(s: Store)
    requires Stage(2, s)
    ensures Stage(3, WithGoal(s, GOAL))
  {
  }

  lemma Defines(s: Store)
    requires Stage(2, s)
    ensures Stage(3, Apply(s, GoalSet(GOAL, CONTRACT)))
  {
    FirstGoalSettable(s);
    GoalTaken(s, GOAL);
    FirstGoalStage(s);
  }

  lemma Prepares(n: nat, s: Store)
    requires n < 4 && Stage(n, s)
    ensures Stage(n + 1, Apply(s, TRACE[n]))
  {
    if n == 0 {
      Transits(n, s, ContextSync, 0);
    } else if n == 1 {
      Transits(n, s, Analyzing, 1);
    } else if n == 2 {
      Defines(s);
    } else {
      Transits(n, s, GoalDefined, 2);
    }
  }

  lemma PlanIsValid()
    ensures ValidPlan(PLAN)
  {
    forall p, a
      ensures !ChainBetween([], p, a, a)
    {
      if |p| >= 2 {
        assert !Direct([], p[0], p[0 + 1]);
      }
    }
  }

  /** The store with the plan saved, current and logged, before its first task is readied. */
  ghost function Opened(s: Store): Store {
    s.(run := s.run.(planVersion := 1), plans := s.plans[1 := PLAN], tasks := s.tasks + NewTasks(s.tasks, PLAN.tasks),
       events := s.events + ([PlanCreated("p", 1)] + [TaskCreated("p", TASK)]))
  }

  lemma InstallationAdmitted(s: Store)
    requires Stage(4, s)
    ensures AdmitPlan(s, PLAN, [], "p").store == RefreshReady(Opened(s), ByRun("p"))
  {
    assert CreateEvents(PLAN.tasks, [], "p") == [TaskCreated("p", TASK)];
    assert SavePlan(s, PLAN).Some?;
  }

  lemma NoPlanCreated(s: Store)
    requires Stage(4, s)
    ensures !Created(s.events, "p")
  {
  }

  lemma InstallationGoesOn(s: Store)
    requires Stage(4, s)
    ensures InstallPlan(s, PLAN, "p") == AdmitPlan(s, PLAN, [], "p")
  {
    KeyIsValid(9);
    PlanIsValid();
    NoPlanCreated(s);
    assert Preparatory(s.tasks) == [] && Preparatory(PLAN.tasks) == [];
  }

  lemma OpenedLog(s: Store)
    requires Stage(4, s)
    ensures Log(RefreshReady(Opened(s), ByRun("p")).events, USED[5], true, false)
  {
    var open := Opened(s);
    assert Log(open.events, USED[5], true, false);
    var plan := GetPlan(open, 1).value;
    MarkReadyLog(open, plan, plan.tasks, ByRun("p"), USED[5]);
  }

  lemma InstallIsNext(s: Store)
    ensures Apply(s, DoInstall(PLAN, "p")) == InstallPlan(s, PLAN, "p").store
  {
  }

  lemma Installs(s: Store, t: Store)
    requires Stage(4, s) && t == InstallPlan(s, PLAN, "p").store
    ensures Stage(5, t)
  {
    InstallationGoesOn(s);
    InstallationAdmitted(s);
    InstalledStage(s);
  }

  lemma InstalledStage(s: Store)
    requires Stage(4, s)
    ensures Stage(5, RefreshReady(Opened(s), ByRun("p")))
  {
    OpenedLog(s);
    RefreshReadyOnlyWork(Opened(s), ByRun("p"));
  }

  lemma Begins(s: Store)
    requires Stage(7, s)
    ensures Stage(8, Apply(s, WorkStarts(Attempt(WORK, TASK, Ready))))
  {
    assert FindAttempt(s.attempts, WORK).None?;
  }

  lemma Assigns(s: Store)
    requires Stage(8, s)
    ensures Stage(9, Apply(s, WorkAssigned(WORK)))
  {
    assert Apply(s, WorkAssigned(WORK)).events[|s.events|] == Assigned(WORK);
  }

  lemma Starts(n: nat, s: Store)
    requires 5 <= n < 9 && Stage(n, s)
    ensures Stage(n + 1, Apply(s, TRACE[n]))
  {
    if n == 5 {
      Transits(n, s, Planned, 3);
    } else if n == 6 {
      Transits(n, s, Executing, 4);
    } else if n == 7 {
      Begins(s);
    } else {
      Assigns(s);
    }
  }

  ghost function Receipted(s: Store): Store {
    Emit(s.(artifacts := s.artifacts + ["done"]), ResultReported(WORK, "done"))
  }

  lemma ReportAccepted(s: Store)
    requires Stage(9, s)
    ensures ReceiveResult(s, WORK, "done", true) == Outcome(Receipted(s), Ok(()))
    ensures TransitionTask(Receipted(s), WORK, Succeeded, Reported(WORK)).reply.Ok?
    ensures TransitionTask(Receipted(s), WORK, Succeeded, Reported(WORK)).store
         == MoveAttempt(Receipted(s), 0, Succeeded, Reported(WORK))
  {
    NotReported(s.events, USED[9], true, WORK, Reported(WORK));
    TaskMovedAppended(s.events, [ResultReported(WORK, "done")], Reported(WORK));
    assert FindAttempt(s.attempts, WORK) == Some(0);
  }

  lemma ReportedFrame(s: Store, t: Store)
    requires Stage(9, s) && t == MoveAttempt(Receipted(s), 0, Succeeded, Reported(WORK))
    ensures IsAssigned(t, WORK) && Log(t.events, USED[10], true, true)
    ensures t == s.(tasks := t.tasks, attempts := [Attempt(WORK, TASK, Succeeded)], actor := t.actor, events := t.events,
                    artifacts := t.artifacts)
  {
    MoveAttemptOnlyWork(Receipted(s), 0, Succeeded, Reported(WORK));
    AssignmentStays(s, t, WORK);
    ReportedLog(s.events, t.events);
  }

  lemma ReportedStage(s: Store, t: Store)
    requires Stage(9, s) && t == MoveAttempt(Receipted(s), 0, Succeeded, Reported(WORK))
    ensures Stage(10, t)
  {
    ReportedFrame(s, t);
  }

  lemma ReportedLog(a: seq<Event>, b: seq<Event>)
    requires Log(a, USED[9], true, false) && Appended(a + [ResultReported(WORK, "done")], b)
    ensures Log(b, USED[10], true, true)
  {
    forall i | 0 <= i < |b|
      ensures Expected(b[i], USED[10], true, true)
    {
      if i < |a| {
        assert b[i] == (a + [ResultReported(WORK, "done")])[i] == a[i];
      }
    }
  }

  lemma Reports(s: Store, t: Store)
    requires Stage(9, s) && t == ReportResult(s, WORK, "done", true).store
    ensures Stage(10, t)
  {
    ReportStore(s);
    ReportedStage(s, t);
  }

  lemma ReportIsNext(s: Store)
    ensures Apply(s, TRACE[9]) == ReportResult(s, WORK, "done", true).store
  {
  }

  lemma ReportStore(s: Store)
    requires Stage(9, s)
    ensures ReportResult(s, WORK, "done", true).reply.Ok?
    ensures ReportResult(s, WORK, "done", true).store == MoveAttempt(Receipted(s), 0, Succeeded, Reported(WORK))
  {
    ReportAccepted(s);
  }

  lemma NewGoalSettable(s: Store)
    requires Stage(13, s)
    ensures GoalSettable(s, NEW_GOAL)
  {
  }

  lemma NewGoalStage(s: Store)
    requires Stage(13, s)
    ensures Stage(14, WithGoal(s, NEW_GOAL))
  {
  }

  lemma Replaces(s: Store)
    requires Stage(13, s)
    ensures Stage(14, Apply(s, GoalSet(NEW_GOAL, CONTRACT)))
  {
    NewGoalSettable(s);
    GoalTaken(s, NEW_GOAL);
    NewGoalStage(s);
  }

  lemma GoesOnToTesting(n: nat, s: Store)
    requires 10 <= n < 12 && Stage(n, s)
    ensures Stage(n + 1, Apply(s, TRACE[n]))
  {
    if n == 10 {
      Transits(n, s, Integrating, 5);
    } else {
      Transits(n, s, Testing, 6);
    }
  }

  lemma Finishes(n: nat, s: Store)
    requires 10 <= n < 14 && Stage(n, s)
    ensures Stage(n + 1, Apply(s, TRACE[n]))
  {
    if n < 12 {
      GoesOnToTesting(n, s);
    } else if n == 12 {
      Transits(n, s, Paused, 7);
    } else {
      Replaces(s);
    }
  }

  lemma {:induction false} Reaches(n: nat)
    requires n < |USED|
    ensures Stage(n, After(TRACE[..n]))
  {
    if n > 0 {
      var s := After(TRACE[..n - 1]);
      Reaches(n - 1);
      AfterNext(TRACE, n - 1);
      if n - 1 < 4 {
        Prepares(n - 1, s);
      } else if n - 1 == 4 {
        InstallIsNext(s);
        Installs(s, After(TRACE[..n]));
      } else if n - 1 < 9 {
        Starts(n - 1, s);
      } else if n - 1 == 9 {
        ReportIsNext(s);
        Reports(s, After(TRACE[..n]));
      } else {
        Finishes(n - 1, s);
      }
    }
  }

  // ---------------------------------------------------------------------------------
  // Where the code falls short

  /** The report of the trace was accepted; sent again once the run integrates, it changes nothing but is refused. */
  lemma RepeatedReportRefused()
    ensures var s, u := After(TRACE[..9]), After(TRACE[..11]);
      && ReportResult(s, WORK, "done", true).reply.Ok? && Follows(ReportResult(s, WORK, "done", true).store, u)
      && ReportResult(u, WORK, "done", true).store == u && ReportResult(u, WORK, "done", true).reply.Err?
  {
    Reaches(9);
    Reaches(11);
    ReportFollowed();
    AcceptedThenRefused(After(TRACE[..9]), After(TRACE[..11]));
  }

  lemma RefusedLater(s: Store, u: Store)
    requires Follows(ReportResult(s, WORK, "done", true).store, u)
    requires ReportResult(s, WORK, "done", true).reply.Ok? && u.run.state == Integrating
    ensures ReportResult(u, WORK, "done", true).store == u && ReportResult(u, WORK, "done", true).reply.Err?
  {
    ReportOnce(s, WORK, "done", true, u, "done", true);
  }

  lemma AcceptedThenRefused(s: Store, u: Store)
    requires Stage(9, s) && Stage(11, u) && Follows(ReportResult(s, WORK, "done", true).store, u)
    ensures ReportResult(s, WORK, "done", true).reply.Ok?
    ensures ReportResult(u, WORK, "done", true).store == u && ReportResult(u, WORK, "done", true).reply.Err?
  {
    ReportStore(s);
    RefusedLater(s, u);
  }

  lemma ReportFollowed()
    ensures Follows(ReportResult(After(TRACE[..9]), WORK, "done", true).store, After(TRACE[..11]))
  {
    StepFollows(TRACE, 9, 11);
  }

  /** The run of the trace is paused from testing with a plan for a replaced goal; resuming it is admitted. */
  lemma OutdatedPlanResumes()
    ensures var s := After(TRACE);
      && s.run.state == Paused && s.run.resumeState == Some(Testing) && !PlanForGoal(s)
      && Resume(s, "i").reply.Ok? && Resume(s, "i").store.run.state == Testing && !PlanForGoal(Resume(s, "i").store)
  {
    var s := After(TRACE);
    assert TRACE[..14] == TRACE;
    Reaches(14);
    KeyIsValid(8);
    Goes(s, Testing, "i", USED[14], true, true);
  }
}
