/** Transactions on one run's durable record, and the writes the services make inside them.

    A unit of work stages writes; `Commit` makes them durable, leaving it otherwise drops them.
    Every method is tied to the function of `RunStore` that says what it writes. */
module UnitsOfWork {
  import opened Collections
  import opened RunStates
  import opened Plans
  import opened RunStore

  class UnitOfWork {
    var durable: Store
    var staged: Store

    constructor (store: Store)
      ensures durable == store && staged == store
    {
      durable := store;
      staged := store;
    }

    method Commit()
      modifies this`durable
      ensures durable == staged
    {
      durable := staged;
    }

    /** Leaving the transaction without a commit. */
    method Leave()
      modifies this`staged
      ensures staged == durable
    {
      staged := durable;
    }

    /** `emit`. */
    method Append(e: Event)
      modifies this`staged
      ensures staged == Emit(old(staged), e)
    {
      staged := staged.(events := staged.events + [e]);
    }

    /** `set_actor_status` on the Orchestrator's actor. */
    method SetActorStatus(cause: Cause, status: ActorStatus)
      modifies this`staged
      ensures staged == SetActor(old(staged), cause, status)
    {
      var before := staged.actor;
      Append(ActorChanged(cause, before, status));
      staged := staged.(actor := status);
    }

    /** Saves a task's new status on its record. */
    method SaveTaskStatus(id: Uuid, status: TaskStatus)
      modifies this`staged
      ensures staged == old(staged).(tasks := WithStatus(old(staged).tasks, id, status))
    {
      var tasks: seq<Task> := [];
      var records := staged.tasks;
      for i := 0 to |records|
        invariant |tasks| == i && forall j :: 0 <= j < i ==> tasks[j] == WithStatus(records, id, status)[j]
      {
        var t := records[i];
        tasks := tasks + [if t.id == id then t.(progress := t.progress.(status := status)) else t];
      }
      assert tasks == WithStatus(records, id, status);
      staged := staged.(tasks := tasks);
    }

    // -------------------------------------------------------------------------------
    // Phases

    /** `update_phase`. */
    method UpdatePhase(command: string, status: TaskStatus, terminal: bool)
      modifies this`staged
      ensures staged == RunStore.UpdatePhase(old(staged), command, status, terminal)
    {
      var phases := staged.phases;
      var current := NewestOpen(phases);
      if current.Some? && (phases[current.value].name != staged.run.uiPhase || terminal) {
        var ended := if terminal then status else Succeeded;
        Append(PhaseEnded(command, current.value, ended));
        staged := staged.(phases := phases[current.value := phases[current.value].(status := ended, open := false)]);
        SameNamesCount(phases, staged.phases, staged.run.uiPhase);
        current := None;
      }
      if terminal {
        return;
      }
      if current.None? {
        var count := CountPhases(phases, staged.run.uiPhase);
        var phase := Phase(staged.run.uiPhase, 1 + count, status, true);
        Append(PhaseStarted(command, |staged.phases|, status));
        staged := staged.(phases := staged.phases + [phase]);
      } else if phases[current.value].status != status {
        staged := staged.(phases := phases[current.value := phases[current.value].(status := status)]);
        Append(PhaseChanged(command, current.value, phases[current.value].status, status));
      }
    }

    // -------------------------------------------------------------------------------
    // Task attempts

    /** `refresh_ready`. */
    method RefreshReady(cause: Cause)
      modifies this`staged
      ensures staged == RunStore.RefreshReady(old(staged), cause)
    {
      ghost var s := staged;
      var stored := GetPlan(staged, staged.run.planVersion);
      if stored.None? {
        return;
      }
      var plan := stored.value;
      for i := 0 to |plan.tasks|
        invariant staged == MarkReady(s, plan, plan.tasks[..i], cause)
      {
        var t := plan.tasks[i];
        assert plan.tasks[..i + 1][..i] == plan.tasks[..i];
        if t.progress.status == Pending && !HasEdgeOutside(plan.dependencies, t.id, SucceededIds(plan.tasks)) {
          SaveTaskStatus(t.id, Ready);
          Append(TaskReady(cause, t.id));
        }
      }
      assert plan.tasks[..|plan.tasks|] == plan.tasks;
    }

    /** `transition_in_transaction`, after its checks. */
    method TransitionAttempt(i: nat, status: TaskStatus, order: TaskCommand)
      requires i < |staged.attempts|
      modifies this`staged
      ensures staged == MoveAttempt(old(staged), i, status, order)
    {
      var attempt := staged.attempts[i];
      staged := staged.(attempts := staged.attempts[i := attempt.(status := status)]);
      SaveTaskStatus(attempt.task, status);
      Append(TaskMoved(order, attempt.id, status));
      if TaskEnds(status) {
        SetActorStatus(ByTask(order), if AnyActive(staged.attempts) then WaitingForDependency else ActorStatus.Working);
      }
      if status == Succeeded {
        RefreshReady(ByTask(order));
      }
    }

    /** `_cancel_pending`. */
    method CancelPending(command: string)
      modifies this`staged
      ensures staged == RunStore.CancelPending(old(staged), command)
    {
      ghost var s := staged;
      var attempts := staged.attempts;
      for i := 0 to |attempts|
        invariant staged == CancelAttempts(s, command, i)
      {
        if ActiveAttempt(attempts[i].status) {
          TransitionAttempt(i, Cancelled, Cancelling(command, attempts[i].id));
        }
      }
      ghost var quiet := staged;
      var stored := GetPlan(staged, staged.run.planVersion);
      if stored.None? {
        return;
      }
      var tasks := stored.value.tasks;
      for i := 0 to |tasks|
        invariant staged == CancelTasks(quiet, command, tasks[..i])
      {
        var t := tasks[i];
        assert tasks[..i + 1][..i] == tasks[..i];
        if t.progress.status in {Pending, Ready} {
          SaveTaskStatus(t.id, Cancelled);
          Append(TaskCancelled(command, t.id));
        }
      }
      assert tasks[..|tasks|] == tasks;
    }

    // -------------------------------------------------------------------------------
    // Approvals

    /** `set_approval_actor_status`. */
    method SetApprovalStatus(id: RequestId, status: ApprovalStatus)
      modifies this`staged
      ensures staged == ShowCheckpoint(old(staged), id, status)
    {
      if staged.actor in {Complete, ActorCancelled, ActorFailed} {
        return;
      }
      var target := if status == Rejected then ActorBlocked else WaitingForDependency;
      if staged.actor != target {
        SetActorStatus(ByApproval(id, status), target);
      }
    }

    /** `prepare_approval_request`: stages the request; the caller commits it. */
    method PrepareApproval(id: RequestId) returns (reply: Result<(Option<RequestId>, bool), Error>)
      modifies this`staged
      ensures Outcome(staged, reply) == PrepareRequest(old(staged), id)
    {
      if !Requires(staged, id.stage) {
        return Ok((None, false));
      }
      if !SubjectCurrent(staged, id.stage, id.version) {
        return Err(Conflict);
      }
      if id in staged.requests {
        return Ok((Some(id), false));
      }
      staged := staged.(requests := staged.requests + {id});
      Append(ApprovalRequested(id));
      SetApprovalStatus(id, ApprovalPending);
      return Ok((Some(id), true));
    }

    /** `require_approval`.  A request it has to create is committed on the spot, with everything staged so far;
        whenever it refuses, nothing else becomes durable. */
    method RequireApproval(id: RequestId) returns (reply: Result<(), Error>)
      modifies this
      ensures Outcome(staged, reply) == RunStore.RequireApproval(old(staged), id)
      ensures durable == if staged == old(staged) then old(durable) else staged
    {
      if !Requires(staged, id.stage) {
        return Ok(());
      }
      if !SubjectCurrent(staged, id.stage, id.version) {
        return Err(Conflict);
      }
      if id !in staged.requests {
        staged := staged.(requests := staged.requests + {id});
        Append(ApprovalRequested(id));
        SetApprovalStatus(id, ApprovalPending);
        Commit();
        assert id in staged.requests;
        return Err(PolicyDenied);
      }
      if StatusOf(staged, id) != Approved {
        return Err(PolicyDenied);
      }
      return Ok(());
    }
  }

  // ---------------------------------------------------------------------------------
  // Searches

  method NewestOpen(phases: seq<Phase>) returns (k: Option<nat>)
    ensures k == OpenPhase(phases)
  {
    var i := |phases|;
    assert phases[..i] == phases;
    while i > 0
      invariant 0 <= i <= |phases|
      invariant OpenPhase(phases) == OpenPhase(phases[..i])
    {
      assert phases[..i][..i - 1] == phases[..i - 1];
      i := i - 1;
      if phases[i].open {
        return Some(i);
      }
    }
    return None;
  }

  method CountPhases(phases: seq<Phase>, name: UiPhase) returns (count: nat)
    ensures count == CountNamed(phases, name)
  {
    count := 0;
    for i := 0 to |phases|
      invariant count == CountNamed(phases[..i], name)
    {
      assert phases[..i + 1][..i] == phases[..i];
      if phases[i].name == name {
        count := count + 1;
      }
    }
    assert phases[..|phases|] == phases;
  }

  lemma {:induction false} SameNamesCount(a: seq<Phase>, b: seq<Phase>, name: UiPhase)
    requires |a| == |b| && forall i :: 0 <= i < |a| ==> a[i].name == b[i].name
    ensures CountNamed(a, name) == CountNamed(b, name)
  {
    if a != [] {
      SameNamesCount(a[..|a| - 1], b[..|b| - 1], name);
    }
  }
}
