/** What the commands of a run do to its tasks and attempts, said about the records alone. */
module RunWork {
  import opened Collections
  import opened RunStates
  import opened Plans
  import opened RunStore
  import opened RunFrames
  import opened RunHistory
  import opened RunSteps
  import opened RunSafety
  import opened RunRecords

  /** The task's record says SUCCEEDED. */
  ghost predicate Done(records: seq<Task>, id: Uuid) {
    exists k :: 0 <= k < |records| && records[k].id == id && records[k].progress.status == Succeeded
  }

  /** Everything this task waits for in the plan is done. */
  ghost predicate Free(plan: Plan, records: seq<Task>, id: Uuid) {
    forall e :: e in plan.dependencies && e.task == id ==> Done(records, e.dependsOn)
  }

  /** The record after tasks have been made ready: PENDING becomes READY exactly if the task is planned and free. */
  ghost predicate Readied(plan: Plan, records: seq<Task>, before: Task, after: Task) {
    if before.progress.status == Pending && HasTask(plan.tasks, before.id) && Free(plan, records, before.id)
    then after == before.(progress := before.progress.(status := Ready))
    else after == before
  }

  /** Exactly the pending tasks that are planned and free became ready. */
  ghost predicate ReadiedAll(plan: Plan, before: seq<Task>, after: seq<Task>) {
    |after| == |before| && forall k :: 0 <= k < |before| ==> Readied(plan, before, before[k], after[k])
  }

  lemma DoneIsSucceeded(s: Store, v: nat, id: Uuid)
    requires PlansRecorded(s) && DistinctIds(s.tasks) && v in s.plans && HasTask(s.plans[v].tasks, id)
    ensures id in SucceededIds(GetPlan(s, v).value.tasks) <==> Done(s.tasks, id)
  {
    var planned, current := s.plans[v].tasks, GetPlan(s, v).value.tasks;
    forall i, k | 0 <= i < |planned| && 0 <= k < |s.tasks| && s.tasks[k].id == planned[i].id
      ensures current[i] == s.tasks[k]
    {
      LookupAt(s.tasks, planned[i], k);
    }
    var i :| 0 <= i < |planned| && planned[i].id == id;
    assert Known(s.tasks, planned[i].id);
    var k :| 0 <= k < |s.tasks| && s.tasks[k].id == id;
    assert current[i] == s.tasks[k];
    if id in SucceededIds(current) {
      var j :| 0 <= j < |current| && current[j].progress.status == Succeeded && current[j].id == id;
      assert Known(s.tasks, planned[j].id);
      var m :| 0 <= m < |s.tasks| && s.tasks[m].id == planned[j].id;
      assert current[j] == s.tasks[m];
    }
    if Done(s.tasks, id) {
      var m :| 0 <= m < |s.tasks| && s.tasks[m].id == id && s.tasks[m].progress.status == Succeeded;
      assert current[i] == s.tasks[m];
    }
  }

  lemma EdgeOutside(s: Store, v: nat, id: Uuid)
    requires PlansRecorded(s) && RecordsSound(s) && v in s.plans
    ensures HasEdgeOutside(s.plans[v].dependencies, id, SucceededIds(GetPlan(s, v).value.tasks))
       <==> !Free(s.plans[v], s.tasks, id)
  {
    var plan, done := s.plans[v], SucceededIds(GetPlan(s, v).value.tasks);
    forall e | e in plan.dependencies
      ensures e.dependsOn in done <==> Done(s.tasks, e.dependsOn)
    {
      DoneIsSucceeded(s, v, e.dependsOn);
    }
  }

  /** The record after the first `n` tasks of the plan have been looked at. */
  ghost predicate MarkedIf(plan: Plan, records: seq<Task>, n: nat, before: Task, after: Task)
    requires n <= |plan.tasks|
  {
    if before.progress.status == Pending && HasTask(plan.tasks[..n], before.id) && Free(plan, records, before.id)
    then after == before.(progress := before.progress.(status := Ready))
    else after == before
  }

  ghost predicate MarkedUpTo(s: Store, v: nat, after: seq<Task>, n: nat)
    requires v in s.plans && n <= |s.plans[v].tasks|
  {
    |after| == |s.tasks| && forall k :: 0 <= k < |after| ==> MarkedIf(s.plans[v], s.tasks, n, s.tasks[k], after[k])
  }

  lemma OneMoreTask(tasks: seq<Task>, n: nat, id: Uuid)
    requires n < |tasks|
    ensures HasTask(tasks[..n + 1], id) <==> HasTask(tasks[..n], id) || tasks[n].id == id
  {
    if HasTask(tasks[..n + 1], id) {
      var i :| 0 <= i < n + 1 && tasks[..n + 1][i].id == id;
      assert i < n ==> tasks[..n][i].id == id;
    }
    if HasTask(tasks[..n], id) {
      var i :| 0 <= i < n && tasks[..n][i].id == id;
      assert tasks[..n + 1][i].id == id;
    }
    assert tasks[..n + 1][n] == tasks[n];
  }

  lemma {:induction false} MarksUpTo(s: Store, v: nat, n: nat, cause: Cause)
    requires PlansRecorded(s) && RecordsSound(s) && v in s.plans && n <= |s.plans[v].tasks|
    ensures var plan := GetPlan(s, v).value; MarkedUpTo(s, v, MarkReady(s, plan, plan.tasks[..n], cause).tasks, n)
  {
    if n > 0 {
      var plan, t := GetPlan(s, v).value, s.plans[v].tasks[n - 1];
      MarksUpTo(s, v, n - 1, cause);
      assert plan.tasks[..n][..n - 1] == plan.tasks[..n - 1];
      assert Known(s.tasks, t.id);
      var j :| 0 <= j < |s.tasks| && s.tasks[j].id == t.id;
      LookupAt(s.tasks, t, j);
      EdgeOutside(s, v, t.id);
      MarksOneMore(s, v, n, cause, j);
    }
  }

  lemma MarksOneMore(s: Store, v: nat, n: nat, cause: Cause, j: nat)
    requires PlansRecorded(s) && RecordsSound(s) && v in s.plans && 0 < n <= |s.plans[v].tasks|
    requires j < |s.tasks| && s.tasks[j].id == s.plans[v].tasks[n - 1].id
    requires GetPlan(s, v).value.tasks[n - 1] == s.tasks[j]
    requires HasEdgeOutside(s.plans[v].dependencies, s.tasks[j].id, SucceededIds(GetPlan(s, v).value.tasks))
        <==> !Free(s.plans[v], s.tasks, s.tasks[j].id)
    requires var plan := GetPlan(s, v).value;
      plan.tasks[..n][..n - 1] == plan.tasks[..n - 1] && MarkedUpTo(s, v, MarkReady(s, plan, plan.tasks[..n - 1], cause).tasks, n - 1)
    ensures var plan := GetPlan(s, v).value; MarkedUpTo(s, v, MarkReady(s, plan, plan.tasks[..n], cause).tasks, n)
  {
    var plan := GetPlan(s, v).value;
    OneMoreMark(s, v, n, MarkReady(s, plan, plan.tasks[..n - 1], cause).tasks, MarkReady(s, plan, plan.tasks[..n], cause).tasks, j);
  }

  lemma OneMoreMark(s: Store, v: nat, n: nat, before: seq<Task>, after: seq<Task>, j: nat)
    requires RecordsSound(s) && v in s.plans && 0 < n <= |s.plans[v].tasks|
    requires j < |s.tasks| && s.tasks[j].id == s.plans[v].tasks[n - 1].id && MarkedUpTo(s, v, before, n - 1)
    requires after == if s.tasks[j].progress.status == Pending && Free(s.plans[v], s.tasks, s.tasks[j].id)
                      then WithStatus(before, s.tasks[j].id, Ready) else before
    ensures MarkedUpTo(s, v, after, n)
  {
    forall k | 0 <= k < |after|
      ensures MarkedIf(s.plans[v], s.tasks, n, s.tasks[k], after[k])
    {
      OneMoreTask(s.plans[v].tasks, n - 1, s.tasks[k].id);
      assert MarkedIf(s.plans[v], s.tasks, n - 1, s.tasks[k], before[k]);
    }
  }

  /** Refreshing makes ready exactly the pending tasks of the current plan whose prerequisites have all succeeded. */
  lemma RefreshReadiesExactly(s: Store, cause: Cause)
    requires PlansRecorded(s) && RecordsSound(s) && s.run.planVersion in s.plans
    ensures ReadiedAll(s.plans[s.run.planVersion], s.tasks, RefreshReady(s, cause).tasks)
  {
    var v := s.run.planVersion;
    var plan := GetPlan(s, v).value;
    MarksUpTo(s, v, |plan.tasks|, cause);
    assert plan.tasks[..|plan.tasks|] == plan.tasks && s.plans[v].tasks[..|plan.tasks|] == s.plans[v].tasks;
  }

  // ---------------------------------------------------------------------------------
  // After an installation

  /** Becoming ready makes nothing done. */
  lemma ReadyKeepsFree(plan: Plan, before: seq<Task>, after: seq<Task>, id: Uuid)
    requires ReadiedAll(plan, before, after)
    ensures Free(plan, after, id) <==> Free(plan, before, id)
  {
    forall d
      ensures Done(after, d) <==> Done(before, d)
    {
      if Done(before, d) {
        var k :| 0 <= k < |before| && before[k].id == d && before[k].progress.status == Succeeded;
        assert Readied(plan, before, before[k], after[k]);
      }
      if Done(after, d) {
        var k :| 0 <= k < |after| && after[k].id == d && after[k].progress.status == Succeeded;
        assert Readied(plan, before, before[k], after[k]);
      }
    }
  }

  /** The record of a planned task: as it was given, but READY if it was pending and is free. */
  ghost predicate StartsAs(plan: Plan, records: seq<Task>, given: Task, k: nat)
    requires k < |records|
  {
    records[k] == if given.progress.status == Pending && Free(plan, records, given.id)
                  then given.(progress := given.progress.(status := Ready)) else given
  }

  lemma SavedAsGiven(s: Store, plan: Plan, u: Task) returns (k: nat)
    requires RecordsSound(s) && ValidPlan(plan) && SavePlan(s, plan).Some? && u in plan.tasks
    ensures k < |SavePlan(s, plan).value.tasks| && SavePlan(s, plan).value.tasks[k] == u
  {
    var i :| 0 <= i < |plan.tasks| && plan.tasks[i] == u;
    if Known(s.tasks, u.id) {
      k :| 0 <= k < |s.tasks| && s.tasks[k].id == u.id;
      LookupAt(s.tasks, u, k);
      assert Lookup(s.tasks, plan.tasks[i]) == plan.tasks[i];
    } else {
      var j := AddedAsGiven(s.tasks, plan.tasks, i);
      k := |s.tasks| + j;
    }
  }

  lemma {:induction false} AddedAsGiven(known: seq<Task>, tasks: seq<Task>, i: nat) returns (j: nat)
    requires i < |tasks| && !Known(known, tasks[i].id)
    ensures j < |NewTasks(known, tasks)| && NewTasks(known, tasks)[j] == tasks[i]
  {
    if i == 0 {
      j := 0;
    } else {
      j := AddedAsGiven(known, tasks[1..], i - 1);
      if !Known(known, tasks[0].id) {
        j := j + 1;
      }
    }
  }

  lemma PublishReadies(saved: Store, run: Run, log: seq<Event>, key: string)
    requires PlansRecorded(saved) && RecordsSound(saved) && run.planVersion in saved.plans
    ensures ReadiedAll(saved.plans[run.planVersion], saved.tasks, Publish(saved, run, log, key).tasks)
  {
    var s := saved.(run := run, events := saved.events + log);
    assert PlansRecorded(s);
    RefreshReadiesExactly(s, ByRun(key));
  }

  /** After a plan has been installed every planned task is recorded as it was given, except that exactly the pending
      ones with nothing to wait for are READY. */
  lemma InstalledTasksStart(commands: seq<Command>, given: Plan, key: string, u: Task) returns (k: nat)
    requires var r := InstallPlan(After(commands), given, key);
      r.reply.Ok? && r.store != After(commands) && 1 in r.store.plans && u in r.store.plans[1].tasks
    ensures var t := InstallPlan(After(commands), given, key).store;
      k < |t.tasks| && StartsAs(t.plans[1], t.tasks, u, k)
  {
    AlwaysSound(commands);
    AlwaysRecorded(commands);
    k := InstalledTaskStarts(After(commands), given, key, u);
  }

  lemma InstalledTaskStarts(s: Store, given: Plan, key: string, u: Task) returns (k: nat)
    requires PlansRecorded(s) && RecordsSound(s)
    requires InstallPlan(s, given, key).reply.Ok? && InstallPlan(s, given, key).store != s
    requires 1 in InstallPlan(s, given, key).store.plans && u in InstallPlan(s, given, key).store.plans[1].tasks
    ensures var t := InstallPlan(s, given, key).store; k < |t.tasks| && StartsAs(t.plans[1], t.tasks, u, k)
  {
    InstallStep(s, given, key);
    InstalledReadies(s, given, key);
    var plan := Grafted(s, given);
    k := SavedAsGiven(s, plan, u);
    ReadiedStarts(plan, SavePlan(s, plan).value.tasks, InstallPlan(s, given, key).store.tasks, u, k);
  }

  lemma ReadiedStarts(plan: Plan, before: seq<Task>, after: seq<Task>, u: Task, k: nat)
    requires ReadiedAll(plan, before, after) && u in plan.tasks && k < |before| && before[k] == u
    ensures k < |after| && StartsAs(plan, after, u, k)
  {
    assert Readied(plan, before, before[k], after[k]);
    ReadyKeepsFree(plan, before, after, u.id);
    var i :| 0 <= i < |plan.tasks| && plan.tasks[i] == u;
    assert HasTask(plan.tasks, u.id);
  }

  lemma InstalledReadies(s: Store, given: Plan, key: string)
    requires PlansRecorded(s) && RecordsSound(s)
    requires InstallPlan(s, given, key).reply.Ok? && InstallPlan(s, given, key).store != s
    ensures ValidPlan(Grafted(s, given)) && SavePlan(s, Grafted(s, given)).Some?
    ensures ReadiedAll(Grafted(s, given), SavePlan(s, Grafted(s, given)).value.tasks, InstallPlan(s, given, key).store.tasks)
  {
    var plan := Grafted(s, given);
    var saved := SavePlan(s, plan).value;
    var run, log := s.run.(planVersion := 1), [PlanCreated(key, 1)] + CreateEvents(plan.tasks, Preparatory(s.tasks), key);
    SavedApart(s, plan);
    SavePlanRecords(s, plan);
    PublishReadies(saved, run, log, key);
    assert InstallPlan(s, given, key).store == Publish(saved, run, log, key);
  }

  // ---------------------------------------------------------------------------------
  // One task command

  ghost predicate Marked(before: seq<Task>, after: seq<Task>, id: Uuid, status: TaskStatus) {
    |after| == |before| && forall k :: 0 <= k < |before| ==>
      after[k] == if before[k].id == id then before[k].(progress := before[k].progress.(status := status)) else before[k]
  }

  ghost predicate AnyUnderWay(attempts: seq<Attempt>) {
    exists a :: a in attempts && a.status in {Running, Waiting, Blocked}
  }

  predicate Ended(status: TaskStatus) { status in {Succeeded, Failed, Cancelled} }

  /** What an accepted task command under a new key does: it moves its attempt and its task to the new status, tells
      the Orchestrator when the attempt has ended, and after a success makes ready exactly the pending tasks of the
      current plan whose prerequisites have now all succeeded.  Nothing else changes. */
  lemma TransitionExactly(commands: seq<Command>, execution: Uuid, status: TaskStatus, order: TaskCommand)
    returns (i: nat, moved: seq<Task>)
    requires var s := After(commands);
      TransitionTask(s, execution, status, order).reply.Ok? && FindTaskMoved(s.events, order).None?
    ensures var s, t := After(commands), TransitionTask(After(commands), execution, status, order).store;
      && i < |s.attempts| && s.attempts[i].id == execution
      && t == s.(attempts := s.attempts[i := s.attempts[i].(status := status)], tasks := t.tasks, actor := t.actor, events := t.events)
      && Marked(s.tasks, moved, s.attempts[i].task, status)
      && (if status == Succeeded && s.run.planVersion in s.plans then ReadiedAll(s.plans[s.run.planVersion], moved, t.tasks)
          else t.tasks == moved)
      && t.actor == (if !Ended(status) then s.actor else if AnyUnderWay(t.attempts) then WaitingForDependency else ActorStatus.Working)
  {
    var s := After(commands);
    AlwaysSound(commands);
    AlwaysRecorded(commands);
    i := FindAttempt(s.attempts, execution).value;
    moved := WithStatus(s.tasks, s.attempts[i].task, status);
    MoveAttemptExactly(s, i, status, order);
  }

  lemma RefreshKeepsActor(s: Store, cause: Cause)
    ensures RefreshReady(s, cause).actor == s.actor
  {
    var plan := GetPlan(s, s.run.planVersion);
    if plan.Some? {
      MarkReadyKeepsActor(s, plan.value, plan.value.tasks, cause);
    }
  }

  lemma {:induction false} MarkReadyKeepsActor(s: Store, plan: Plan, tasks: seq<Task>, cause: Cause)
    ensures MarkReady(s, plan, tasks, cause).actor == s.actor
  {
    if tasks != [] {
      MarkReadyKeepsActor(s, plan, tasks[..|tasks| - 1], cause);
    }
  }

  lemma MoveAttemptExactly(s: Store, i: nat, status: TaskStatus, order: TaskCommand)
    requires PlansRecorded(s) && RecordsSound(s) && i < |s.attempts|
    ensures var t, moved := MoveAttempt(s, i, status, order), WithStatus(s.tasks, s.attempts[i].task, status);
      && (if status == Succeeded && s.run.planVersion in s.plans then ReadiedAll(s.plans[s.run.planVersion], moved, t.tasks)
          else t.tasks == moved)
      && t == s.(attempts := s.attempts[i := s.attempts[i].(status := status)], tasks := t.tasks, actor := t.actor, events := t.events)
      && t.actor == (if !Ended(status) then s.actor else if AnyUnderWay(t.attempts) then WaitingForDependency else ActorStatus.Working)
  {
    MoveAttemptOnlyWork(s, i, status, order);
    var a := s.attempts[i];
    var moved := Emit(s.(attempts := s.attempts[i := a.(status := status)], tasks := WithStatus(s.tasks, a.task, status)),
                      TaskMoved(order, a.id, status));
    UnderWay(moved.attempts);
    var reported :=
      if TaskEnds(status)
      then SetActor(moved, ByTask(order), if AnyActive(moved.attempts) then WaitingForDependency else ActorStatus.Working)
      else moved;
    if status == Succeeded {
      RefreshKeepsActor(reported, ByTask(order));
      if s.run.planVersion in s.plans {
        WithStatusContracts(s.tasks, a.task, status);
        RecordedStill(s, reported);
        SameRecords(s, reported);
        RefreshReadiesExactly(reported, ByTask(order));
      }
    }
  }

  lemma UnderWay(attempts: seq<Attempt>)
    ensures AnyUnderWay(attempts) <==> AnyActive(attempts)
  {
    if AnyActive(attempts) {
      var i :| 0 <= i < |attempts| && ActiveAttempt(attempts[i].status);
      assert attempts[i] in attempts;
    }
  }

  /** An attempt that has ended does nothing more, and one that waits or is blocked does not succeed from there. */
  predicate MayGoOn(from: TaskStatus, next: TaskStatus) {
    match from
    case Running => next in {Waiting, Blocked, Succeeded, Failed, Cancelled}
    case Waiting => next in {Running, Blocked, Failed, Cancelled}
    case Blocked => next in {Running, Failed, Cancelled}
    case _ => false
  }

  /** When a task command under a new key is accepted: its attempt exists and may go on like that, and the run executes
      work, or the command cancels. */
  lemma TransitionAccepted(commands: seq<Command>, execution: Uuid, status: TaskStatus, order: TaskCommand)
    requires FindTaskMoved(After(commands).events, order).None?
    ensures var s := After(commands);
      TransitionTask(s, execution, status, order).reply.Ok? <==>
      && (status == Cancelled || (s.run.state in {Analyzing, Executing, Testing, Reviewing, ChangeGuard, Documenting,
                                                   DeliveryValidation, Committing, Pushing, MemoryFinalization}))
      && exists a :: a in s.attempts && a.id == execution && MayGoOn(a.status, status)
  {
    AlwaysApart(commands);
    AcceptedAt(After(commands), execution, status, order);
  }

  lemma AcceptedAt(s: Store, execution: Uuid, status: TaskStatus, order: TaskCommand)
    requires FindTaskMoved(s.events, order).None? && ApartAttempts(s.attempts)
    ensures TransitionTask(s, execution, status, order).reply.Ok? <==>
      && (status == Cancelled || (s.run.state in {Analyzing, Executing, Testing, Reviewing, ChangeGuard, Documenting,
                                                   DeliveryValidation, Committing, Pushing, MemoryFinalization}))
      && exists a :: a in s.attempts && a.id == execution && MayGoOn(a.status, status)
  {
    FoundAlone(s.attempts, execution);
    var k := FindAttempt(s.attempts, execution);
    if k.Some? {
      assert MayGoOn(s.attempts[k.value].status, status) <==> AttemptMayBecome(s.attempts[k.value].status, status);
    }
  }

  lemma FoundAlone(attempts: seq<Attempt>, id: Uuid)
    requires ApartAttempts(attempts)
    ensures var k := FindAttempt(attempts, id);
      forall a :: a in attempts && a.id == id <==> k.Some? && a == attempts[k.value]
  {
    var k := FindAttempt(attempts, id);
    if k.Some? {
      assert attempts[k.value] in attempts;
    }
  }

  // ---------------------------------------------------------------------------------
  // Attempts over a whole run

  ghost predicate ApartAttempts(attempts: seq<Attempt>) {
    forall i, j :: 0 <= i < j < |attempts| ==> attempts[i].id != attempts[j].id
  }

  /** The same attempts, of which those that have ended are as they were. */
  ghost predicate AttemptsMove(a: seq<Attempt>, b: seq<Attempt>) {
    |a| == |b| && forall i :: 0 <= i < |a| ==>
      b[i].id == a[i].id && b[i].task == a[i].task && (Ended(a[i].status) ==> b[i] == a[i])
  }

  lemma CancelledMove(s: Store, command: string)
    ensures AttemptsMove(s.attempts, CancelPending(s, command).attempts)
  {
    CancelAttemptsOnlyWork(s, command, |s.attempts|);
    var quiet := CancelAttempts(s, command, |s.attempts|);
    var plan := GetPlan(quiet, quiet.run.planVersion);
    if plan.Some? {
      CancelTasksOnlyWork(quiet, command, plan.value.tasks);
    }
  }

  lemma TransitionMoves(s: Store, execution: Uuid, status: TaskStatus, order: TaskCommand)
    ensures AttemptsMove(s.attempts, TransitionTask(s, execution, status, order).store.attempts)
  {
    var k := FindAttempt(s.attempts, execution);
    if k.Some? {
      MoveAttemptOnlyWork(s, k.value, status, order);
    }
  }

  lemma SteeringMoves(s: Store, c: Command)
    requires PlansRecorded(s) && Steers(c)
    ensures AttemptsMove(s.attempts, Apply(s, c).attempts)
  {
    match c
    case DoAdvance(target, key) => AdvanceMovesAttempts(s, target, key);
    case DoResume(key) =>
      if s.run.resumeState.Some? {
        AdvanceMovesAttempts(s, s.run.resumeState.value, key);
      }
    case DoInstall(plan, key) => InstallKeepsAttempts(s, plan, key);
    case DoRevise(revision, plan, key) => RevisionMovesAttempts(s, revision, plan, key);
  }

  lemma AdvanceMovesAttempts(s: Store, target: RunState, key: string)
    ensures AttemptsMove(s.attempts, Advance(s, target, key).store.attempts)
  {
    AdvanceStep(s, target, key);
    MovedAttempts(s, target, key);
  }

  lemma MovedAttempts(s: Store, target: RunState, key: string)
    ensures AttemptsMove(s.attempts, Move(s, target, key).attempts)
  {
    CancelledMove(s, key);
    var s1 := if Terminal(target) then CancelPending(s, key) else s;
    var s3 := SetActor(Emit(s1.(run := MoveRun(s1.run, target)), Moved(key, s1.run.state, target)), ByRun(key), ActorFor(target));
    UpdatePhaseFrame(s3, key, PhaseStatusFor(target), Terminal(target));
  }

  lemma InstallKeepsAttempts(s: Store, plan: Plan, key: string)
    ensures InstallPlan(s, plan, key).store.attempts == s.attempts
  {
    var t := InstallPlan(s, plan, key).store;
    var grafted := Grafted(s, plan);
    if InstallPlan(s, plan, key).reply.Err? {
      InstallRefused(s, plan, key);
    } else if t != s {
      PublishFrame(SavePlan(s, grafted).value, s.run.(planVersion := 1),
                   [PlanCreated(key, 1)] + CreateEvents(grafted.tasks, Preparatory(s.tasks), key), key);
    }
  }

  lemma RevisionMovesAttempts(s: Store, revision: Revision, plan: Plan, key: string)
    ensures AttemptsMove(s.attempts, Revised(s, revision, plan, key).attempts)
  {
    if Revised(s, revision, plan, key) != s {
      var retired := Retire(s, revision, key);
      RetiredAttempts(s, revision, key);
      var run := s.run.(planVersion := plan.version,
                        resumeState := if revision == GoalPlan then Some(Planned) else s.run.resumeState);
      var log := [PlanRevised(key, plan.version, revision == GoalPlan)];
      var t := Publish(SavePlan(retired, plan).value, run, log, key);
      PublishFrame(SavePlan(retired, plan).value, run, log, key);
      if t.run.planVersion in t.plans {
        PrepareRequestSteady(t, PlanRequest(t));
      }
    }
  }

  lemma RetiredAttempts(s: Store, revision: Revision, key: string)
    ensures AttemptsMove(s.attempts, Retire(s, revision, key).attempts)
  {
    CancelledMove(s, key);
    CancelTasksOnlyWork(s, key, UnprepTasks(s));
  }

  lemma WorkMoves(s: Store, c: Command)
    requires Works(c)
    ensures AttemptsMove(s.attempts, Apply(s, c).attempts)
  {
    match c
    case DoTransition(execution, status, key) => TransitionMoves(s, execution, status, Given(key));
    case DoReceive(execution, result, completed) => ReceiveNoted(s, execution, result, completed);
    case DoReport(execution, result, completed) =>
      ReceiveNoted(s, execution, result, completed);
      TransitionMoves(ReceiveResult(s, execution, result, completed).store, execution, Succeeded, Reported(execution));
    case DoFinding(finding, key, inScope) => FindingNoted(s, finding, key, inScope);
    case WorkRetried(execution) => RetriedMoves(s, execution);
  }

  lemma RetriedMoves(s: Store, execution: Uuid)
    ensures AttemptsMove(s.attempts, Retried(s, execution).attempts)
  {
    var k := FindAttempt(s.attempts, execution);
    if k.Some? {
      MoveAttemptOnlyWork(s, k.value, Failed, Given("recovery"));
    }
  }

  lemma OthersKeepAttempts(s: Store, c: Command)
    requires !Steers(c) && !Works(c) && !c.WorkStarts?
    ensures Apply(s, c).attempts == s.attempts
  {
    if c.DoEnsure? {
      PrepareRequestSteady(s, c.request);
    } else if c.DoDecide? {
      DecideNoted(s, c.request, c.expected, c.decision);
    }
  }

  lemma AttemptsAfter(s: Store, c: Command)
    requires PlansRecorded(s) && ApartAttempts(s.attempts)
    ensures var t := Apply(s, c);
      && ApartAttempts(t.attempts) && |s.attempts| <= |t.attempts|
      && forall i :: 0 <= i < |s.attempts| ==>
           && t.attempts[i].id == s.attempts[i].id && t.attempts[i].task == s.attempts[i].task
           && (Ended(s.attempts[i].status) ==> t.attempts[i] == s.attempts[i])
  {
    if Steers(c) {
      SteeringMoves(s, c);
    } else if Works(c) {
      WorkMoves(s, c);
    } else if !c.WorkStarts? {
      OthersKeepAttempts(s, c);
    }
  }

  lemma {:induction false} AlwaysApart(commands: seq<Command>)
    ensures ApartAttempts(After(commands).attempts)
  {
    if commands != [] {
      AlwaysApart(commands[..|commands| - 1]);
      AlwaysSound(commands[..|commands| - 1]);
      AttemptsAfter(After(commands[..|commands| - 1]), commands[|commands| - 1]);
    }
  }

  /** An attempt that has succeeded, failed or been cancelled stays as it is whatever commands follow. */
  lemma {:induction false} EndedAttemptsStay(commands: seq<Command>, n: nat, i: nat)
    requires n <= |commands| && i < |After(commands[..n]).attempts| && Ended(After(commands[..n]).attempts[i].status)
    ensures i < |After(commands).attempts| && After(commands).attempts[i] == After(commands[..n]).attempts[i]
  {
    if n == |commands| {
      assert commands[..n] == commands;
    } else {
      var shorter := commands[..|commands| - 1];
      assert shorter[..n] == commands[..n];
      EndedAttemptsStay(shorter, n, i);
      AlwaysApart(shorter);
      AlwaysSound(shorter);
      AttemptsAfter(After(shorter), commands[|commands| - 1]);
    }
  }

  // ---------------------------------------------------------------------------------
  // What the end of a run cancels

  /** Some attempt at this task is under way. */
  ghost predicate UnderWayOn(attempts: seq<Attempt>, id: Uuid) {
    exists a :: a in attempts && a.task == id && a.status in {Running, Waiting, Blocked}
  }

  /** The record after cancelling. */
  ghost predicate CancelledIf(cancel: bool, before: Task, after: Task) {
    after == if cancel then before.(progress := before.progress.(status := Cancelled)) else before
  }

  lemma {:induction false} CancelAttemptsMarks(s: Store, command: string, n: nat)
    requires n <= |s.attempts|
    ensures var t := CancelAttempts(s, command, n);
      |t.tasks| == |s.tasks| && forall k :: 0 <= k < |s.tasks| ==>
        CancelledIf(UnderWayOn(s.attempts[..n], s.tasks[k].id), s.tasks[k], t.tasks[k])
  {
    if n > 0 {
      var before := CancelAttempts(s, command, n - 1);
      var a := s.attempts[n - 1];
      CancelAttemptsMarks(s, command, n - 1);
      CancelAttemptsOnlyWork(s, command, n - 1);
      forall id
        ensures UnderWayOn(s.attempts[..n], id) <==>
          UnderWayOn(s.attempts[..n - 1], id) || (a.task == id && a.status in {Running, Waiting, Blocked})
      {
        OneMoreAttempt(s.attempts, n - 1, id);
      }
    }
  }

  lemma OneMoreAttempt(attempts: seq<Attempt>, n: nat, id: Uuid)
    requires n < |attempts|
    ensures UnderWayOn(attempts[..n + 1], id) <==>
      UnderWayOn(attempts[..n], id) || (attempts[n].task == id && attempts[n].status in {Running, Waiting, Blocked})
  {
    assert attempts[..n + 1] == attempts[..n] + [attempts[n]];
  }

  /** Some of these tasks has this identity and is pending or ready. */
  ghost predicate StillOpen(tasks: seq<Task>, id: Uuid) {
    exists t :: t in tasks && t.id == id && t.progress.status in {Pending, Ready}
  }

  lemma {:induction false} CancelTasksMarks(s: Store, command: string, tasks: seq<Task>)
    ensures var t := CancelTasks(s, command, tasks);
      |t.tasks| == |s.tasks| && forall k :: 0 <= k < |s.tasks| ==> CancelledIf(StillOpen(tasks, s.tasks[k].id), s.tasks[k], t.tasks[k])
  {
    if tasks != [] {
      var n := |tasks| - 1;
      CancelTasksMarks(s, command, tasks[..n]);
      forall id
        ensures StillOpen(tasks, id) <==> StillOpen(tasks[..n], id) || (tasks[n].id == id && tasks[n].progress.status in {Pending, Ready})
      {
        assert tasks == tasks[..n] + [tasks[n]];
      }
    }
  }

  /** Cancelling cancels exactly the tasks with an attempt under way and the planned tasks that are pending or ready;
      every other task keeps its status, and so does every attempt that has ended. */
  lemma CancelPendingExactly(s: Store, command: string, k: nat)
    requires PlansRecorded(s) && RecordsSound(s) && k < |s.tasks|
    ensures var t := CancelPending(s, command);
      && |t.tasks| == |s.tasks| && AttemptsMove(s.attempts, t.attempts)
      && CancelledIf(|| UnderWayOn(s.attempts, s.tasks[k].id)
                     || (s.run.planVersion in s.plans && HasTask(s.plans[s.run.planVersion].tasks, s.tasks[k].id)
                         && s.tasks[k].progress.status in {Pending, Ready}),
                     s.tasks[k], t.tasks[k])
  {
    var n := |s.attempts|;
    var quiet := CancelAttempts(s, command, n);
    CancelledMove(s, command);
    CancelAttemptsMarks(s, command, n);
    CancelAttemptsOnlyWork(s, command, n);
    assert s.attempts[..n] == s.attempts;
    var plan := GetPlan(quiet, quiet.run.planVersion);
    if plan.Some? {
      CancelTasksMarks(quiet, command, plan.value.tasks);
      SameRecords(s, quiet);
      RecordedStill(s, quiet);
      OpenIsRecorded(quiet, k);
    }
  }

  lemma OpenIsRecorded(s: Store, k: nat)
    requires RecordsSound(s) && PlansRecorded(s) && k < |s.tasks| && s.run.planVersion in s.plans
    ensures StillOpen(GetPlan(s, s.run.planVersion).value.tasks, s.tasks[k].id)
       <==> HasTask(s.plans[s.run.planVersion].tasks, s.tasks[k].id) && s.tasks[k].progress.status in {Pending, Ready}
  {
    var planned, current := s.plans[s.run.planVersion].tasks, GetPlan(s, s.run.planVersion).value.tasks;
    forall i | 0 <= i < |planned| && planned[i].id == s.tasks[k].id
      ensures current[i] == s.tasks[k]
    {
      LookupAt(s.tasks, planned[i], k);
    }
    forall i | 0 <= i < |planned|
      ensures current[i].id == planned[i].id
    {
      assert Known(s.tasks, planned[i].id);
      LookupIsRecord(s.tasks, planned[i]);
    }
    if HasTask(planned, s.tasks[k].id) {
      var i :| 0 <= i < |planned| && planned[i].id == s.tasks[k].id;
      assert current[i] in current;
    }
  }

  /** So an accepted transition into an end cancels exactly that, and one into a living state no work at all. */
  lemma EndCancelsExactly(commands: seq<Command>, target: RunState, key: string, k: nat)
    requires Advance(After(commands), target, key).reply.Ok? && FindMoved(After(commands).events, key).None?
    requires k < |After(commands).tasks|
    ensures var s, t := After(commands), Advance(After(commands), target, key).store;
      && |t.tasks| == |s.tasks|
      && (target !in {Completed, FailedRun, CancelledRun} ==> t.tasks == s.tasks && t.attempts == s.attempts)
      && (target in {Completed, FailedRun, CancelledRun} ==>
            CancelledIf(|| UnderWayOn(s.attempts, s.tasks[k].id)
                        || (s.run.planVersion in s.plans && HasTask(s.plans[s.run.planVersion].tasks, s.tasks[k].id)
                            && s.tasks[k].progress.status in {Pending, Ready}),
                        s.tasks[k], t.tasks[k]))
  {
    var s := After(commands);
    AlwaysSound(commands);
    AlwaysRecorded(commands);
    AdvanceStep(s, target, key);
    CancelPendingExactly(s, key, k);
    MoveTasks(s, target, key);
    MoveFrame(s, target, key);
  }

  lemma MoveTasks(s: Store, target: RunState, key: string)
    ensures Move(s, target, key).tasks == if Terminal(target) then CancelPending(s, key).tasks else s.tasks
  {
    var s1 := if Terminal(target) then CancelPending(s, key) else s;
    var s3 := SetActor(Emit(s1.(run := MoveRun(s1.run, target)), Moved(key, s1.run.state, target)), ByRun(key), ActorFor(target));
    UpdatePhaseFrame(s3, key, PhaseStatusFor(target), Terminal(target));
  }

  // ---------------------------------------------------------------------------------
  // What a replanning retires

  lemma ReadiedKeepsSettled(plan: Plan, before: seq<Task>, after: seq<Task>, k: nat)
    requires ReadiedAll(plan, before, after) && k < |before| && before[k].progress.status !in {Pending, Ready}
    ensures after[k] == before[k]
  {
    assert Readied(plan, before, before[k], after[k]);
  }

  /** After the plan has been replaced for a new goal no attempt is under way, and no task of the old plan is pending
      or ready. */
  lemma ReplanningRetires(commands: seq<Command>, plan: Plan, key: string, k: nat)
    requires var s := After(commands);
      && Revised(s, GoalPlan, plan, key) != s
      && k < |s.tasks| && HasTask(s.plans[s.run.planVersion].tasks, s.tasks[k].id)
    ensures var s, t := After(commands), Revised(After(commands), GoalPlan, plan, key);
      && !AnyUnderWay(t.attempts) && k < |t.tasks| && t.tasks[k].id == s.tasks[k].id
      && t.tasks[k].progress.status !in {Pending, Ready}
  {
    var s := After(commands);
    AlwaysSound(commands);
    AlwaysRecorded(commands);
    RetiredSettled(s, key, k);
    var retired := CancelPending(s, key);
    var saved := SavePlan(retired, plan).value;
    var run, log := s.run.(planVersion := plan.version, resumeState := Some(Planned)), [PlanRevised(key, plan.version, true)];
    assert Retire(s, GoalPlan, key) == retired;
    RetireOnlyWork(s, GoalPlan, key);
    RecordedStill(s, retired);
    SameRecords(s, retired);
    SavedApart(retired, plan);
    SavePlanRecords(retired, plan);
    PublishReadies(saved, run, log, key);
    PublishFrame(saved, run, log, key);
    UnderWay(retired.attempts);
    ReadiedKeepsSettled(plan, saved.tasks, Publish(saved, run, log, key).tasks, k);
  }

  lemma RetiredSettled(s: Store, key: string, k: nat)
    requires PlansRecorded(s) && RecordsSound(s) && s.run.planVersion in s.plans
    requires k < |s.tasks| && HasTask(s.plans[s.run.planVersion].tasks, s.tasks[k].id)
    ensures var t := CancelPending(s, key);
      && |t.tasks| == |s.tasks| && t.tasks[k].id == s.tasks[k].id && t.tasks[k].progress.status !in {Pending, Ready}
      && !AnyActive(t.attempts)
  {
    CancelPendingExactly(s, key, k);
    CancelPendingOnlyWork(s, key);
  }
}
