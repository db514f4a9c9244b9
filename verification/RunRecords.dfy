/** Task records over a whole run: every task has one record, and every stored plan is valid. */
module RunRecords {
  import opened Collections
  import opened RunStates
  import opened Plans
  import opened RunStore
  import opened RunFrames
  import opened RunHistory
  import opened RunSteps
  import opened RunSafety

  /** The record of a task that has one. */
  lemma {:induction false} LookupAt(tasks: seq<Task>, t: Task, k: nat)
    requires DistinctIds(tasks) && k < |tasks| && tasks[k].id == t.id
    ensures Lookup(tasks, t) == tasks[k]
  {
    if k > 0 {
      LookupAt(tasks[1..], t, k - 1);
    }
  }

  ghost predicate RecordsSound(s: Store) {
    DistinctIds(s.tasks) && forall v :: v in s.plans ==> ValidPlan(s.plans[v])
  }

  lemma SameRecords(s: Store, t: Store)
    requires RecordsSound(s) && SameContracts(s.tasks, t.tasks) && |t.tasks| == |s.tasks| && t.plans == s.plans
    ensures RecordsSound(t)
  {
    forall i, j | 0 <= i < j < |t.tasks|
      ensures t.tasks[i].id != t.tasks[j].id
    {
      assert Contract(s.tasks[i]) == Contract(t.tasks[i]) && Contract(s.tasks[j]) == Contract(t.tasks[j]);
    }
  }

  lemma {:induction false} NewTasksApart(known: seq<Task>, tasks: seq<Task>)
    requires DistinctIds(tasks)
    ensures DistinctIds(NewTasks(known, tasks))
    ensures forall t :: t in NewTasks(known, tasks) ==> t in tasks && !Known(known, t.id)
  {
    if tasks != [] {
      NewTasksApart(known, tasks[1..]);
      var rest := NewTasks(known, tasks[1..]);
      forall k | 0 <= k < |rest|
        ensures rest[k].id != tasks[0].id
      {
        assert rest[k] in rest && rest[k] in tasks[1..];
        var j :| 0 <= j < |tasks[1..]| && tasks[1..][j] == rest[k];
        assert tasks[j + 1] == rest[k];
      }
    }
  }

  lemma SavedApart(s: Store, plan: Plan)
    requires RecordsSound(s) && ValidPlan(plan) && SavePlan(s, plan).Some?
    ensures RecordsSound(SavePlan(s, plan).value)
  {
    var added := NewTasks(s.tasks, plan.tasks);
    NewTasksApart(s.tasks, plan.tasks);
    forall i, j | 0 <= i < |s.tasks| && 0 <= j < |added|
      ensures s.tasks[i].id != added[j].id
    {
      assert added[j] in added;
    }
  }

  lemma PublishedSound(saved: Store, run: Run, log: seq<Event>, key: string)
    requires RecordsSound(saved)
    ensures RecordsSound(Publish(saved, run, log, key))
  {
    RefreshReadyOnlyWork(saved.(run := run, events := saved.events + log), ByRun(key));
    SameRecords(saved, Publish(saved, run, log, key));
  }

  lemma RequestedSound(s: Store, id: RequestId)
    requires RecordsSound(s)
    ensures RecordsSound(PrepareRequest(s, id).store)
  {
    PrepareRequestSteady(s, id);
  }

  lemma InstalledSound(s: Store, plan: Plan, key: string)
    requires RecordsSound(s)
    ensures RecordsSound(InstallPlan(s, plan, key).store)
  {
    var t := InstallPlan(s, plan, key).store;
    var grafted := Grafted(s, plan);
    if InstallPlan(s, plan, key).reply.Err? {
      InstallRefused(s, plan, key);
    } else if t != s {
      SavedApart(s, grafted);
      PublishedSound(SavePlan(s, grafted).value, s.run.(planVersion := 1),
                     [PlanCreated(key, 1)] + CreateEvents(grafted.tasks, Preparatory(s.tasks), key), key);
    }
  }

  lemma RevisedSound(s: Store, revision: Revision, plan: Plan, key: string)
    requires RecordsSound(s)
    ensures RecordsSound(Revised(s, revision, plan, key))
  {
    if Revised(s, revision, plan, key) != s {
      var retired := Retire(s, revision, key);
      RetireOnlyWork(s, revision, key);
      SameRecords(s, retired);
      SavedApart(retired, plan);
      var run := s.run.(planVersion := plan.version,
                        resumeState := if revision == GoalPlan then Some(Planned) else s.run.resumeState);
      var log := [PlanRevised(key, plan.version, revision == GoalPlan)];
      PublishedSound(SavePlan(retired, plan).value, run, log, key);
      var t := Publish(SavePlan(retired, plan).value, run, log, key);
      if revision == PreviewPlan && t.run.planVersion in t.plans {
        RequestedSound(t, PlanRequest(t));
      }
    }
  }

  lemma MovedSound(s: Store, target: RunState, key: string)
    requires RecordsSound(s)
    ensures RecordsSound(Move(s, target, key))
  {
    MoveFrame(s, target, key);
    MoveRecords(s, target, key);
    SameRecords(s, Move(s, target, key));
  }

  lemma MoveRecords(s: Store, target: RunState, key: string)
    ensures |Move(s, target, key).tasks| == |s.tasks|
  {
    var s1 := if Terminal(target) then CancelPending(s, key) else s;
    CancelPendingOnlyWork(s, key);
    var s3 := SetActor(Emit(s1.(run := MoveRun(s1.run, target)), Moved(key, s1.run.state, target)), ByRun(key), ActorFor(target));
    UpdatePhaseFrame(s3, key, PhaseStatusFor(target), Terminal(target));
  }

  lemma AdvancedSound(s: Store, target: RunState, key: string)
    requires RecordsSound(s)
    ensures RecordsSound(Advance(s, target, key).store)
  {
    AdvanceStep(s, target, key);
    MovedSound(s, target, key);
  }

  lemma SteeredSound(s: Store, c: Command)
    requires RecordsSound(s) && Steers(c)
    ensures RecordsSound(Apply(s, c))
  {
    match c
    case DoAdvance(target, key) => AdvancedSound(s, target, key);
    case DoResume(key) =>
      if s.run.resumeState.Some? {
        AdvancedSound(s, s.run.resumeState.value, key);
      }
    case DoInstall(plan, key) => InstalledSound(s, plan, key);
    case DoRevise(revision, plan, key) => RevisedSound(s, revision, plan, key);
  }

  lemma TransitionedSound(s: Store, execution: Uuid, status: TaskStatus, order: TaskCommand)
    requires RecordsSound(s)
    ensures RecordsSound(TransitionTask(s, execution, status, order).store)
  {
    var k := FindAttempt(s.attempts, execution);
    if k.Some? {
      MoveAttemptOnlyWork(s, k.value, status, order);
      SameRecords(s, MoveAttempt(s, k.value, status, order));
    }
  }

  lemma RetriedSound(s: Store, execution: Uuid)
    requires RecordsSound(s)
    ensures RecordsSound(Retried(s, execution))
  {
    var k := FindAttempt(s.attempts, execution);
    if k.Some? {
      MoveAttemptOnlyWork(s, k.value, Failed, Given("recovery"));
      var failed := MoveAttempt(s, k.value, Failed, Given("recovery"));
      SameRecords(s, failed);
      WithStatusContracts(failed.tasks, s.attempts[k.value].task, Ready);
      SameRecords(failed, failed.(tasks := WithStatus(failed.tasks, s.attempts[k.value].task, Ready)));
    }
  }

  lemma WorkedSound(s: Store, c: Command)
    requires RecordsSound(s) && Works(c)
    ensures RecordsSound(Apply(s, c))
  {
    match c
    case DoTransition(execution, status, key) => TransitionedSound(s, execution, status, Given(key));
    case DoReceive(execution, result, completed) => ReceiveNoted(s, execution, result, completed);
    case DoReport(execution, result, completed) =>
      ReceiveNoted(s, execution, result, completed);
      TransitionedSound(ReceiveResult(s, execution, result, completed).store, execution, Succeeded, Reported(execution));
    case DoFinding(finding, key, inScope) => FindingNoted(s, finding, key, inScope);
    case WorkRetried(execution) => RetriedSound(s, execution);
  }

  lemma OtherwiseSound(s: Store, c: Command)
    requires RecordsSound(s) && !Steers(c) && !Works(c)
    ensures RecordsSound(Apply(s, c))
  {
    if c.DoEnsure? {
      RequestedSound(s, c.request);
    } else if c.DoDecide? {
      DecideNoted(s, c.request, c.expected, c.decision);
    } else if c.WorkStarts? {
      WithStatusContracts(s.tasks, c.attempt.task, Running);
      SameRecords(s, s.(tasks := WithStatus(s.tasks, c.attempt.task, Running)));
    } else if c.PreparationAdded? {
      PreparationSound(s, c.task);
    } else {
      RestSound(s, c);
    }
  }

  lemma PreparationSound(s: Store, task: Task)
    requires RecordsSound(s)
    ensures RecordsSound(Apply(s, PreparationAdded(task)))
  {
  }

  lemma RestSound(s: Store, c: Command)
    requires c.DoConfigure? || c.GoalSet? || c.CriteriaMarked? || c.WorkAssigned? || c.DeliveryRecorded? || c.FindingsReviewed?
             || c.OtherEvent?
    ensures Apply(s, c).tasks == s.tasks && Apply(s, c).plans == s.plans
  {
  }

  ghost predicate NewestCurrent(s: Store) { forall v :: v in s.plans ==> v <= s.run.planVersion }

  /** No stored plan is newer than the current one. */
  lemma {:induction false} AlwaysNewest(commands: seq<Command>)
    ensures NewestCurrent(After(commands))
  {
    if commands != [] {
      var shorter := commands[..|commands| - 1];
      AlwaysNewest(shorter);
      AlwaysSound(shorter);
      SoundKept(After(shorter), commands[|commands| - 1]);
      NewestStays(After(shorter), After(commands));
    }
  }

  lemma NewestStays(s: Store, t: Store)
    requires NewestCurrent(s) && Step(s, t)
    ensures NewestCurrent(t)
  {
    if !Steady(s, t) && !NewPlan(s, t) {
      var target, key :| Transition(s, t, target, key);
      MoveFrame(s, target, key);
    }
  }

  /** In every reachable state each task has exactly one record and each stored plan passes validation. */
  lemma {:induction false} AlwaysRecorded(commands: seq<Command>)
    ensures RecordsSound(After(commands))
  {
    if commands != [] {
      var s, c := After(commands[..|commands| - 1]), commands[|commands| - 1];
      AlwaysRecorded(commands[..|commands| - 1]);
      if Steers(c) {
        SteeredSound(s, c);
      } else if Works(c) {
        WorkedSound(s, c);
      } else {
        OtherwiseSound(s, c);
      }
    }
  }
}
