/** Repeated and refused commands: what was accepted once may arrive again at any later time. */
module RunReplays {
  import opened Collections
  import opened RunStates
  import opened Plans
  import opened RunStore
  import opened RunFrames
  import opened RunHistory
  import opened RunSteps
  import opened RunSafety

  // ---------------------------------------------------------------------------------
  // Looking up receipts in a growing log

  lemma MovedStays(a: seq<Event>, b: seq<Event>, key: string)
    requires a <= b && FindMoved(a, key).Some?
    ensures FindMoved(b, key) == FindMoved(a, key)
  {
    FindMovedAppended(a, b[|a|..], key);
    assert a + b[|a|..] == b;
  }

  lemma {:induction false} MovedFound(events: seq<Event>, i: nat)
    requires i < |events| && events[i].Moved?
    ensures FindMoved(events, events[i].command).Some?
  {
    if i > 0 {
      MovedFound(events[1..], i - 1);
    }
  }

  lemma {:induction false} TaskMovedAppended(a: seq<Event>, b: seq<Event>, order: TaskCommand)
    ensures FindTaskMoved(a + b, order) == if FindTaskMoved(a, order).Some? then FindTaskMoved(a, order) else FindTaskMoved(b, order)
  {
    if a == [] {
      assert a + b == b;
    } else {
      TaskMovedAppended(a[1..], b, order);
      assert (a + b)[1..] == a[1..] + b;
    }
  }

  lemma {:induction false} ReportAppended(a: seq<Event>, b: seq<Event>, execution: Uuid)
    ensures FindReport(a + b, execution) == if FindReport(a, execution).Some? then FindReport(a, execution) else FindReport(b, execution)
  {
    if a == [] {
      assert a + b == b;
    } else {
      ReportAppended(a[1..], b, execution);
      assert (a + b)[1..] == a[1..] + b;
    }
  }

  lemma {:induction false} FindingAppended(a: seq<Event>, b: seq<Event>, key: string)
    ensures FindFinding(a + b, key) == if FindFinding(a, key).Some? then FindFinding(a, key) else FindFinding(b, key)
  {
    if a == [] {
      assert a + b == b;
    } else {
      FindingAppended(a[1..], b, key);
      assert (a + b)[1..] == a[1..] + b;
    }
  }

  // ---------------------------------------------------------------------------------
  // advance and resume

  lemma MoveRecorded(s: Store, target: RunState, key: string)
    requires FindMoved(s.events, key).None?
    ensures FindMoved(Move(s, target, key).events, key) == Some(target)
  {
    var moved := Move(s, target, key).events;
    MoveFrame(s, target, key);
    FindMovedAppended(s.events, moved[|s.events|..], key);
    assert s.events + moved[|s.events|..] == moved;
  }

  /** An accepted advance is on record under its key, with its target, in every later log. */
  lemma AdvanceRecorded(s: Store, target: RunState, key: string, later: seq<Event>)
    requires Advance(s, target, key).reply.Ok? && Advance(s, target, key).store.events <= later
    ensures FindMoved(later, key) == Some(target)
  {
    var t := Advance(s, target, key).store;
    AdvanceStep(s, target, key);
    if FindMoved(s.events, key).None? {
      MoveRecorded(s, target, key);
      MovedStays(Move(s, target, key).events, later, key);
    } else {
      MovedStays(t.events, later, key);
    }
  }

  /** Sent again, an accepted advance changes nothing and succeeds; its key serves no other target. */
  lemma AdvanceOnce(s: Store, target: RunState, key: string, u: Store, other: RunState)
    requires Advance(s, target, key).reply.Ok? && Advance(s, target, key).store.events <= u.events
    ensures Advance(u, other, key) == Outcome(u, if other == target then Ok(u.run) else Err(Conflict))
  {
    AdvanceRecorded(s, target, key, u.events);
  }

  lemma ResumeRecorded(s: Store, key: string, later: seq<Event>)
    requires Resume(s, key).reply.Ok? && Resume(s, key).store.events <= later
    ensures FindMoved(later, key).Some?
  {
    if s.run.resumeState.Some? {
      AdvanceRecorded(s, s.run.resumeState.value, key, later);
    } else {
      var i :| 0 <= i < |s.events| && s.events[i].Moved? && s.events[i].command == key && IsResumption(s.events[i]);
      MovedFound(later, i);
    }
  }

  ghost predicate Resumed(events: seq<Event>, key: string) {
    exists i :: 0 <= i < |events| && events[i].Moved? && events[i].command == key && IsResumption(events[i])
  }

  /** An accepted resume sent again changes nothing.  It succeeds unless the run is suspended again and would go on
      in another state. */
  lemma ResumeOnce(s: Store, key: string, u: Store)
    requires Resume(s, key).reply.Ok? && Resume(s, key).store.events <= u.events
    ensures Resume(u, key).store == u
    ensures Resume(u, key).reply.Ok? <==>
      if u.run.resumeState.None? then Resumed(u.events, key)
      else ValidKey(key) && FindMoved(u.events, key) == u.run.resumeState
  {
    ResumeRecorded(s, key, u.events);
  }

  lemma LoggedResumption(s: Store, t: Store, target: RunState, key: string, later: seq<Event>)
    requires LogGains(s.events, t.events, Moved(key, s.run.state, target)) && t.events <= later
    requires Suspended(s.run.state) && !Suspended(target) && !Terminal(target)
    ensures Resumed(later, key)
  {
    var e := Moved(key, s.run.state, target);
    var middle :| Appended(s.events, middle) && Appended(middle + [e], t.events);
    assert later[|middle|] == (middle + [e])[|middle|] == e;
  }

  /** A resume that ended a suspension, sent again later, succeeds exactly when the run is not suspended or would go
      on in the same state. */
  lemma ResumeAnswered(s: Store, key: string, u: Store)
    requires SuspensionSound(s) && FindMoved(s.events, key).None?
    requires Resume(s, key).reply.Ok? && Resume(s, key).store.events <= u.events && s.run.resumeState.Some?
    ensures Resume(u, key).reply.Ok? <==> u.run.resumeState.None? || u.run.resumeState == s.run.resumeState
  {
    var target := s.run.resumeState.value;
    AdvanceStep(s, target, key);
    AdvanceRecorded(s, target, key, u.events);
    LoggedResumption(s, Resume(s, key).store, target, key, u.events);
    ResumeOnce(s, key, u);
  }

  // ---------------------------------------------------------------------------------
  // install_plan and decide

  ghost predicate Created(events: seq<Event>, key: string) {
    exists i :: 0 <= i < |events| && events[i].PlanCreated? && events[i].command == key
  }

  lemma InstallRecorded(s: Store, plan: Plan, key: string)
    requires InstallPlan(s, plan, key).reply.Ok?
    ensures Created(InstallPlan(s, plan, key).store.events, key)
  {
    var t := InstallPlan(s, plan, key).store;
    var grafted := Grafted(s, plan);
    if !Created(s.events, key) {
      var saved := SavePlan(s, grafted).value;
      var run, log := s.run.(planVersion := 1), [PlanCreated(key, 1)] + CreateEvents(grafted.tasks, Preparatory(s.tasks), key);
      PublishFrame(saved, run, log, key);
      assert t.events[|s.events|] == (saved.events + log)[|s.events|] == PlanCreated(key, 1);
    }
  }

  /** What `install_plan` checks before it looks at its key. */
  ghost predicate Composable(s: Store, given: Plan) {
    var preparation := Preparatory(s.tasks);
    && !(preparation != [] && Preparatory(given.tasks) == [] && exists p :: p in preparation && p.progress.status != Succeeded)
    && !(exists t :: t in Preparatory(Grafted(s, given).tasks) && t !in preparation)
    && ValidPlan(Grafted(s, given))
  }

  ghost predicate Stored(s: Store, plan: Plan) {
    plan.version in s.plans && PlanSubject(GetPlan(s, plan.version).value) == PlanSubject(plan)
  }

  /** Under an accepted key no installation changes anything; it succeeds exactly for a plan that is stored. */
  lemma InstallOnce(s: Store, plan: Plan, key: string, u: Store, other: Plan)
    requires InstallPlan(s, plan, key).reply.Ok? && InstallPlan(s, plan, key).store.events <= u.events
    ensures InstallPlan(u, other, key).store == u
    ensures InstallPlan(u, other, key).reply.Ok? <==> Composable(u, other) && Stored(u, Grafted(u, other))
  {
    InstallRecorded(s, plan, key);
    var events := InstallPlan(s, plan, key).store.events;
    var i :| 0 <= i < |events| && events[i].PlanCreated? && events[i].command == key;
    assert u.events[i] == events[i];
    assert Created(u.events, key);
  }

  lemma {:induction false} LookupAppended(a: seq<Task>, b: seq<Task>, t: Task)
    ensures Known(a, t.id) ==> Lookup(a + b, t) == Lookup(a, t)
    ensures !Known(a, t.id) ==> Lookup(a + b, t) == Lookup(b, t)
  {
    if a == [] {
      assert a + b == b;
    } else {
      assert (a + b)[1..] == a[1..] + b;
      LookupAppended(a[1..], b, t);
      if a[0].id == t.id {
        assert Known(a, t.id);
      } else if Known(a, t.id) {
        var i :| 0 <= i < |a| && a[i].id == t.id;
        assert a[1..][i - 1].id == t.id;
      }
    }
  }

  lemma {:induction false} LookupNew(known: seq<Task>, tasks: seq<Task>, i: nat)
    requires DistinctIds(tasks) && i < |tasks| && !Known(known, tasks[i].id)
    ensures Lookup(NewTasks(known, tasks), tasks[i]) == tasks[i]
  {
    var first := if Known(known, tasks[0].id) then [] else [tasks[0]];
    if i == 0 {
      assert (first + NewTasks(known, tasks[1..]))[0] == tasks[0];
    } else {
      LookupNew(known, tasks[1..], i - 1);
      if first != [] {
        assert ([tasks[0]] + NewTasks(known, tasks[1..]))[1..] == NewTasks(known, tasks[1..]);
      } else {
        assert first + NewTasks(known, tasks[1..]) == NewTasks(known, tasks[1..]);
      }
    }
  }

  /** A saved plan reads back as it was given, up to the progress of its tasks. */
  lemma SavedReadsBack(s: Store, plan: Plan, t: Store)
    requires SavePlan(s, plan).Some? && DistinctIds(plan.tasks)
    requires t.plans == SavePlan(s, plan).value.plans && SameContracts(SavePlan(s, plan).value.tasks, t.tasks)
    ensures Stored(t, plan)
  {
    var saved := SavePlan(s, plan).value;
    var read := GetPlan(t, plan.version).value.tasks;
    forall i | 0 <= i < |plan.tasks|
      ensures Contract(read[i]) == Contract(plan.tasks[i])
    {
      LookupAppended(s.tasks, NewTasks(s.tasks, plan.tasks), plan.tasks[i]);
      if !Known(s.tasks, plan.tasks[i].id) {
        LookupNew(s.tasks, plan.tasks, i);
      }
      NewTasksKnown(s.tasks, plan.tasks, i);
      LookupStable(saved.tasks, t.tasks, plan.tasks[i]);
    }
    assert Contracts(read) == Contracts(plan.tasks);
  }

  lemma InstalledIsStored(s: Store, plan: Plan, key: string)
    requires InstallPlan(s, plan, key).reply.Ok?
    ensures Stored(InstallPlan(s, plan, key).store, Grafted(s, plan))
  {
    var grafted := Grafted(s, plan);
    if !Created(s.events, key) {
      var saved := SavePlan(s, grafted).value;
      var run, log := s.run.(planVersion := 1), [PlanCreated(key, 1)] + CreateEvents(grafted.tasks, Preparatory(s.tasks), key);
      PublishFrame(saved, run, log, key);
      SavedReadsBack(s, grafted, InstallPlan(s, plan, key).store);
    }
  }

  /** Another plan of the same version under an accepted key is refused, however much later. */
  lemma InstallKeyTaken(s: Store, plan: Plan, key: string, u: Store, other: Plan)
    requires PlansRecorded(s) && InstallPlan(s, plan, key).reply.Ok? && Follows(InstallPlan(s, plan, key).store, u)
    requires Grafted(u, other).version == Grafted(s, plan).version
    requires PlanSubject(Grafted(u, other)) != PlanSubject(Grafted(s, plan))
    ensures InstallPlan(u, other, key).store == u && InstallPlan(u, other, key).reply.Err?
  {
    var t := InstallPlan(s, plan, key).store;
    InstallStep(s, plan, key);
    InstalledIsStored(s, plan, key);
    SubjectStable(t, u, Grafted(s, plan).version);
    InstallOnce(s, plan, key, u, other);
  }

  // ---------------------------------------------------------------------------------
  // Worker commands

  lemma TransitionRecorded(s: Store, execution: Uuid, status: TaskStatus, order: TaskCommand, later: seq<Event>)
    requires TransitionTask(s, execution, status, order).reply.Ok? && TransitionTask(s, execution, status, order).store.events <= later
    ensures FindTaskMoved(later, order) == Some((execution, status))
  {
    var t := TransitionTask(s, execution, status, order).store;
    var k := FindAttempt(s.attempts, execution);
    if FindTaskMoved(s.events, order).None? {
      MoveAttemptOnlyWork(s, k.value, status, order);
      var rest := later[|s.events|..];
      assert rest[0] == t.events[|s.events|];
      TaskMovedAppended(s.events, rest, order);
      assert later == s.events + rest;
    } else {
      TaskMovedAppended(s.events, later[|s.events|..], order);
      assert later == s.events + later[|s.events|..];
    }
  }

  lemma AttemptStays(a: seq<Attempt>, b: seq<Attempt>, id: Uuid)
    requires FindAttempt(a, id).Some? && KeepsAttempts(a, b)
    ensures FindAttempt(b, id).Some?
  {
    var k := FindAttempt(a, id).value;
    assert b[k].id == a[k].id;
  }

  /** Sent again, a task transition changes nothing and succeeds exactly in an execution state, or always if it
      cancels; its key serves no other attempt or status. */
  lemma TransitionOnce(s: Store, execution: Uuid, status: TaskStatus, order: TaskCommand,
                       u: Store, other: Uuid, otherStatus: TaskStatus)
    requires TransitionTask(s, execution, status, order).reply.Ok?
    requires Follows(TransitionTask(s, execution, status, order).store, u)
    ensures var r := TransitionTask(u, other, otherStatus, order);
      && r.store == u
      && (r.reply.Ok? <==> (other, otherStatus) == (execution, status) && (ExecutionState(u.run.state) || status == Cancelled))
  {
    TransitionRecorded(s, execution, status, order, u.events);
    TransitionKeepsAttempt(s, execution, status, order);
    AttemptStays(TransitionTask(s, execution, status, order).store.attempts, u.attempts, execution);
  }

  lemma TransitionKeepsAttempt(s: Store, execution: Uuid, status: TaskStatus, order: TaskCommand)
    requires TransitionTask(s, execution, status, order).reply.Ok?
    ensures FindAttempt(TransitionTask(s, execution, status, order).store.attempts, execution).Some?
  {
    var k := FindAttempt(s.attempts, execution);
    MoveAttemptOnlyWork(s, k.value, status, order);
    AttemptStays(s.attempts, TransitionTask(s, execution, status, order).store.attempts, execution);
  }

  lemma ReceiptRecorded(s: Store, execution: Uuid, result: string, completed: bool, later: seq<Event>)
    requires ReceiveResult(s, execution, result, completed).reply.Ok?
    requires ReceiveResult(s, execution, result, completed).store.events <= later
    ensures FindReport(later, execution) == Some(result)
  {
    var t := ReceiveResult(s, execution, result, completed).store;
    var rest := later[|s.events|..];
    assert later == s.events + rest;
    if FindReport(s.events, execution).None? {
      assert rest[0] == t.events[|s.events|];
    }
    ReportAppended(s.events, rest, execution);
  }

  lemma AssignmentStays(s: Store, u: Store, execution: Uuid)
    requires IsAssigned(s, execution) && s.events <= u.events
    ensures IsAssigned(u, execution)
  {
    var i :| 0 <= i < |s.events| && s.events[i] == Assigned(execution);
    assert u.events[i] == Assigned(execution);
  }

  /** Sent again, a report changes nothing; it succeeds exactly when it brings the same result while the run is in an
      execution state. */
  lemma ReportOnce(s: Store, execution: Uuid, result: string, completed: bool, u: Store, other: string, otherCompleted: bool)
    requires ReportResult(s, execution, result, completed).reply.Ok?
    requires Follows(ReportResult(s, execution, result, completed).store, u)
    ensures var r := ReportResult(u, execution, other, otherCompleted);
      r.store == u && (r.reply.Ok? <==> other == result && ExecutionState(u.run.state))
  {
    var received := ReceiveResult(s, execution, result, completed).store;
    TransitionExtends(received, execution, Succeeded, Reported(execution));
    ReceiptRecorded(s, execution, result, completed, u.events);
    AssignmentStays(s, u, execution);
    TransitionOnce(received, execution, Succeeded, Reported(execution), u, execution, Succeeded);
    TransitionKeepsAttempt(received, execution, Succeeded, Reported(execution));
    AttemptStays(ReportResult(s, execution, result, completed).store.attempts, u.attempts, execution);
  }

  lemma TransitionExtends(s: Store, execution: Uuid, status: TaskStatus, order: TaskCommand)
    ensures s.events <= TransitionTask(s, execution, status, order).store.events
  {
    var k := FindAttempt(s.attempts, execution);
    if k.Some? {
      MoveAttemptOnlyWork(s, k.value, status, order);
    }
  }

  /** A report interrupted after its receipt and sent again ends as one that was not interrupted. */
  lemma InterruptedReport(s: Store, execution: Uuid, result: string, completed: bool)
    requires ReceiveResult(s, execution, result, completed).reply.Ok?
    ensures var received := ReceiveResult(s, execution, result, completed).store;
      ReportResult(received, execution, result, completed) == ReportResult(s, execution, result, completed)
  {
    var received := ReceiveResult(s, execution, result, completed).store;
    ReceiptRecorded(s, execution, result, completed, received.events);
    assert IsAssigned(received, execution) by {
      var i :| 0 <= i < |s.events| && s.events[i] == Assigned(execution);
      assert received.events[i] == Assigned(execution);
    }
  }

  lemma FindingRecorded(s: Store, finding: Finding, key: string, inScope: bool, later: seq<Event>)
    requires ReportFinding(s, finding, key, inScope).reply.Ok? && ReportFinding(s, finding, key, inScope).store.events <= later
    ensures FindFinding(later, key) == Some(finding)
  {
    var t := ReportFinding(s, finding, key, inScope).store;
    var rest := later[|s.events|..];
    assert later == s.events + rest;
    if FindFinding(s.events, key).None? {
      assert rest[0] == t.events[|s.events|];
    }
    FindingAppended(s.events, rest, key);
  }

  /** Sent again, a finding changes nothing and is answered with itself; another finding under the same key is
      refused. */
  lemma FindingOnce(s: Store, finding: Finding, key: string, inScope: bool, u: Store, other: Finding, otherInScope: bool)
    requires ReportFinding(s, finding, key, inScope).reply.Ok? && Follows(ReportFinding(s, finding, key, inScope).store, u)
    ensures var r := ReportFinding(u, other, key, otherInScope);
      r.store == u && (if other == finding then r.reply == Ok(finding) else r.reply.Err?)
  {
    FindingRecorded(s, finding, key, inScope, u.events);
    AttemptStays(s.attempts, u.attempts, finding.execution);
    AssignmentStays(s, u, finding.execution);
  }

  // ---------------------------------------------------------------------------------
  // Whole traces

  /** Commands that carry a key of their own, accepted at `s`. */
  ghost predicate Accepted(s: Store, c: Command) {
    match c
    case DoAdvance(target, key) => Advance(s, target, key).reply.Ok?
    case DoResume(key) => Resume(s, key).reply.Ok?
    case DoInstall(plan, key) => InstallPlan(s, plan, key).reply.Ok?
    case DoDecide(request, expected, decision) => Decide(s, request, expected, decision).reply.Ok?
    case DoTransition(execution, status, key) => TransitionTask(s, execution, status, Given(key)).reply.Ok?
    case DoReceive(execution, result, completed) => ReceiveResult(s, execution, result, completed).reply.Ok?
    case DoReport(execution, result, completed) => ReportResult(s, execution, result, completed).reply.Ok?
    case DoFinding(finding, key, inScope) => ReportFinding(s, finding, key, inScope).reply.Ok?
    case _ => false
  }

  /** Commands that steer the run or settle an approval. */
  predicate Governs(c: Command) { c.DoAdvance? || c.DoResume? || c.DoInstall? || c.DoDecide? }

  lemma GovernedOnce(s: Store, c: Command, u: Store)
    requires Governs(c) && Accepted(s, c) && Follows(Apply(s, c), u)
    ensures Apply(u, c) == u
  {
    match c
    case DoAdvance(target, key) => AdvanceOnce(s, target, key, u, target);
    case DoResume(key) => ResumeOnce(s, key, u);
    case DoInstall(plan, key) => InstallOnce(s, plan, key, u, plan);
    case DoDecide(request, expected, decision) =>
      assert request in Apply(s, c).decisions;
  }

  /** An accepted command that arrives again, whenever that is, changes nothing. */
  lemma AcceptedOnce(s: Store, c: Command, u: Store)
    requires Accepted(s, c) && Follows(Apply(s, c), u)
    ensures Apply(u, c) == u
  {
    if Governs(c) {
      GovernedOnce(s, c, u);
    } else {
      WorkedOnce(s, c, u);
    }
  }

  lemma WorkedOnce(s: Store, c: Command, u: Store)
    requires !Governs(c) && Accepted(s, c) && Follows(Apply(s, c), u)
    ensures Apply(u, c) == u
  {
    match c
    case DoTransition(execution, status, key) => TransitionOnce(s, execution, status, Given(key), u, execution, status);
    case DoReceive(execution, result, completed) => ReceiptRecorded(s, execution, result, completed, u.events);
    case DoReport(execution, result, completed) => ReportOnce(s, execution, result, completed, u, result, completed);
    case DoFinding(finding, key, inScope) => FindingOnce(s, finding, key, inScope, u, finding, inScope);
  }

  ghost predicate AcceptedAt(commands: seq<Command>, j: nat, c: Command) {
    j < |commands| && commands[j] == c && Accepted(After(commands[..j]), c)
  }

  ghost predicate Repeated(commands: seq<Command>, c: Command) { exists j: nat :: AcceptedAt(commands, j, c) }

  /** The trace with every command dropped that had been accepted before. */
  ghost function DropRepeats(commands: seq<Command>): seq<Command> {
    if commands == [] then []
    else
      var shorter, c := commands[..|commands| - 1], commands[|commands| - 1];
      if Repeated(shorter, c) then DropRepeats(shorter) else DropRepeats(shorter) + [c]
  }

  lemma AfterNext(commands: seq<Command>, j: nat)
    requires j < |commands|
    ensures After(commands[..j + 1]) == Apply(After(commands[..j]), commands[j])
  {
    var longer := commands[..j + 1];
    assert longer[..|longer| - 1] == commands[..j] && longer[|longer| - 1] == commands[j];
  }

  lemma StepFollows(commands: seq<Command>, j: nat, m: nat)
    requires j < m <= |commands|
    ensures Follows(Apply(After(commands[..j]), commands[j]), After(commands[..m]))
  {
    AfterNext(commands, j);
    assert commands[..m][..j + 1] == commands[..j + 1];
    LaterFollows(commands[..m], j + 1);
  }

  lemma AcceptedEarlier(commands: seq<Command>, c: Command) returns (s: Store, t: Store)
    requires Repeated(commands, c)
    ensures Accepted(s, c) && t == Apply(s, c) && Follows(t, After(commands))
  {
    var j: nat :| AcceptedAt(commands, j, c);
    s, t := After(commands[..j]), After(commands[..j + 1]);
    AfterNext(commands, j);
    LaterFollows(commands, j + 1);
  }

  lemma RepeatedChangesNothing(commands: seq<Command>, c: Command)
    requires Repeated(commands, c)
    ensures Apply(After(commands), c) == After(commands)
  {
    var s, t := AcceptedEarlier(commands, c);
    AcceptedOnce(s, c, After(commands));
  }

  /** Delivering accepted commands again, at any later points and any number of times, yields the same store and log
      as delivering each once. */
  lemma {:induction false} DuplicatesDoNotMatter(commands: seq<Command>)
    ensures After(DropRepeats(commands)) == After(commands)
  {
    if commands != [] {
      var shorter, c := commands[..|commands| - 1], commands[|commands| - 1];
      DuplicatesDoNotMatter(shorter);
      if Repeated(shorter, c) {
        RepeatedChangesNothing(shorter, c);
      } else {
        var dropped := DropRepeats(shorter) + [c];
        assert dropped[..|dropped| - 1] == DropRepeats(shorter);
      }
    }
  }
}
