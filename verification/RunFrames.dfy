/** What the transactions of a run leave unchanged: facts about the functions of `RunStore`
    that the whole-run results build on. */
module RunFrames {
  import opened Collections
  import opened RunStates
  import opened Plans
  import opened RunStore

  ghost predicate SameContracts(a: seq<Task>, b: seq<Task>) {
    |a| <= |b| && forall i :: 0 <= i < |a| ==> Contract(a[i]) == Contract(b[i])
  }

  /** Events other than a run transition or a replanning for a new goal. */
  predicate Quiet(e: Event) { !e.Moved? && !(e.PlanRevised? && e.replanned) }

  ghost predicate Appended(before: seq<Event>, after: seq<Event>) {
    before <= after && forall i :: |before| <= i < |after| ==> Quiet(after[i])
  }

  ghost predicate KeepsAttempts(a: seq<Attempt>, b: seq<Attempt>) {
    |a| <= |b| && forall i :: 0 <= i < |a| ==> b[i].id == a[i].id && b[i].task == a[i].task
  }

  ghost predicate SameAttempts(a: seq<Attempt>, b: seq<Attempt>) {
    |a| == |b| && forall i :: 0 <= i < |a| ==> a[i].id == b[i].id && a[i].task == b[i].task
  }

  /** Only task progress, attempt states, the Orchestrator's actor and the log differ. */
  ghost predicate OnlyWork(s: Store, t: Store) {
    && t == s.(tasks := t.tasks, attempts := t.attempts, actor := t.actor, events := t.events)
    && SameContracts(s.tasks, t.tasks) && |t.tasks| == |s.tasks|
    && SameAttempts(s.attempts, t.attempts)
    && Appended(s.events, t.events)
  }

  lemma OnlyWorkTransitive(s: Store, t: Store, u: Store)
    requires OnlyWork(s, t) && OnlyWork(t, u)
    ensures OnlyWork(s, u)
  {
  }

  lemma WithStatusContracts(tasks: seq<Task>, id: Uuid, status: TaskStatus)
    ensures SameContracts(tasks, WithStatus(tasks, id, status)) && |WithStatus(tasks, id, status)| == |tasks|
  {
  }

  lemma {:induction false} MarkReadyOnlyWork(s: Store, plan: Plan, tasks: seq<Task>, cause: Cause)
    ensures OnlyWork(s, MarkReady(s, plan, tasks, cause)) && MarkReady(s, plan, tasks, cause).attempts == s.attempts
  {
    if tasks != [] {
      var before := MarkReady(s, plan, tasks[..|tasks| - 1], cause);
      MarkReadyOnlyWork(s, plan, tasks[..|tasks| - 1], cause);
      WithStatusContracts(before.tasks, tasks[|tasks| - 1].id, Ready);
    }
  }

  lemma RefreshReadyOnlyWork(s: Store, cause: Cause)
    ensures OnlyWork(s, RefreshReady(s, cause)) && RefreshReady(s, cause).attempts == s.attempts
  {
    var plan := GetPlan(s, s.run.planVersion);
    if plan.Some? {
      MarkReadyOnlyWork(s, plan.value, plan.value.tasks, cause);
    }
  }

  lemma MoveAttemptOnlyWork(s: Store, i: nat, status: TaskStatus, order: TaskCommand)
    requires i < |s.attempts|
    ensures OnlyWork(s, MoveAttempt(s, i, status, order))
    ensures MoveAttempt(s, i, status, order).attempts == s.attempts[i := s.attempts[i].(status := status)]
    ensures var events := MoveAttempt(s, i, status, order).events;
      |events| > |s.events| && events[|s.events|] == TaskMoved(order, s.attempts[i].id, status)
  {
    var a := s.attempts[i];
    WithStatusContracts(s.tasks, a.task, status);
    var moved := Emit(s.(attempts := s.attempts[i := a.(status := status)], tasks := WithStatus(s.tasks, a.task, status)),
                      TaskMoved(order, a.id, status));
    var reported :=
      if TaskEnds(status)
      then SetActor(moved, ByTask(order), if AnyActive(moved.attempts) then WaitingForDependency else ActorStatus.Working)
      else moved;
    assert OnlyWork(s, reported);
    assert reported.events[|s.events|] == TaskMoved(order, a.id, status);
    if status == Succeeded {
      RefreshReadyOnlyWork(reported, ByTask(order));
      OnlyWorkTransitive(s, reported, RefreshReady(reported, ByTask(order)));
    }
  }

  ghost predicate CancelledUpTo(before: seq<Attempt>, after: seq<Attempt>, n: nat) {
    && n <= |before| == |after|
    && (forall i :: 0 <= i < n ==>
          after[i] == if ActiveAttempt(before[i].status) then before[i].(status := Cancelled) else before[i])
    && (forall i :: n <= i < |before| ==> after[i] == before[i])
  }

  lemma CancelledOneMore(a: seq<Attempt>, before: seq<Attempt>, after: seq<Attempt>, n: nat)
    requires 0 < n && CancelledUpTo(a, before, n - 1) && n <= |a|
    requires after == if ActiveAttempt(a[n - 1].status) then before[n - 1 := before[n - 1].(status := Cancelled)] else before
    ensures CancelledUpTo(a, after, n)
  {
  }

  lemma {:induction false} CancelAttemptsOnlyWork(s: Store, command: string, n: nat)
    requires n <= |s.attempts|
    ensures OnlyWork(s, CancelAttempts(s, command, n))
    ensures CancelledUpTo(s.attempts, CancelAttempts(s, command, n).attempts, n)
  {
    if n > 0 {
      var before := CancelAttempts(s, command, n - 1);
      CancelAttemptsOnlyWork(s, command, n - 1);
      if ActiveAttempt(s.attempts[n - 1].status) {
        MoveAttemptOnlyWork(before, n - 1, Cancelled, Cancelling(command, s.attempts[n - 1].id));
        OnlyWorkTransitive(s, before, CancelAttempts(s, command, n));
      }
      CancelledOneMore(s.attempts, before.attempts, CancelAttempts(s, command, n).attempts, n);
    }
  }

  lemma {:induction false} CancelTasksOnlyWork(s: Store, command: string, tasks: seq<Task>)
    ensures OnlyWork(s, CancelTasks(s, command, tasks)) && CancelTasks(s, command, tasks).attempts == s.attempts
  {
    if tasks != [] {
      var before := CancelTasks(s, command, tasks[..|tasks| - 1]);
      CancelTasksOnlyWork(s, command, tasks[..|tasks| - 1]);
      WithStatusContracts(before.tasks, tasks[|tasks| - 1].id, Cancelled);
    }
  }

  /** Cancelling touches nothing but work, and leaves no attempt active. */
  lemma CancelPendingOnlyWork(s: Store, command: string)
    ensures OnlyWork(s, CancelPending(s, command)) && !AnyActive(CancelPending(s, command).attempts)
  {
    var quiet := CancelAttempts(s, command, |s.attempts|);
    CancelAttemptsOnlyWork(s, command, |s.attempts|);
    assert !AnyActive(quiet.attempts);
    var plan := GetPlan(quiet, quiet.run.planVersion);
    if plan.Some? {
      CancelTasksOnlyWork(quiet, command, plan.value.tasks);
      OnlyWorkTransitive(s, quiet, CancelPending(s, command));
    }
  }

  // ---------------------------------------------------------------------------------
  // Task records

  lemma {:induction false} LookupStable(a: seq<Task>, b: seq<Task>, t: Task)
    requires SameContracts(a, b) && Known(a, t.id)
    ensures Contract(Lookup(b, t)) == Contract(Lookup(a, t)) && Known(b, t.id)
    ensures Lookup(a, t).id == t.id
  {
    assert a[0].id == b[0].id by { assert Contract(a[0]) == Contract(b[0]); }
    if a[0].id != t.id {
      var i :| 0 <= i < |a| && a[i].id == t.id;
      assert a[1..][i - 1].id == t.id;
      LookupStable(a[1..], b[1..], t);
      var j :| 0 <= j < |b[1..]| && b[1..][j].id == t.id;
      assert b[j + 1].id == t.id;
    } else {
      assert b[0].id == t.id;
    }
  }

  lemma WithStatusRest(tasks: seq<Task>, id: Uuid, status: TaskStatus)
    requires tasks != []
    ensures WithStatus(tasks, id, status)[1..] == WithStatus(tasks[1..], id, status)
  {
  }

  lemma KnownBeyond(tasks: seq<Task>, id: Uuid)
    requires Known(tasks, id) && tasks[0].id != id
    ensures Known(tasks[1..], id)
  {
    var i :| 0 <= i < |tasks| && tasks[i].id == id;
    assert tasks[1..][i - 1].id == id;
  }

  lemma {:induction false} LookupWithStatus(tasks: seq<Task>, id: Uuid, status: TaskStatus, t: Task)
    requires Known(tasks, t.id)
    ensures Lookup(WithStatus(tasks, id, status), t) ==
      if t.id == id then Lookup(tasks, t).(progress := Lookup(tasks, t).progress.(status := status)) else Lookup(tasks, t)
  {
    if tasks[0].id != t.id {
      KnownBeyond(tasks, t.id);
      LookupWithStatus(tasks[1..], id, status, t);
      WithStatusRest(tasks, id, status);
    }
  }

  /** Every task of every stored plan has a record. */
  ghost predicate PlansRecorded(s: Store) {
    forall v :: v in s.plans ==>
      && v >= 1 && s.plans[v].version == v
      && forall i :: 0 <= i < |s.plans[v].tasks| ==> Known(s.tasks, s.plans[v].tasks[i].id)
  }

  /** The approval subject of a stored plan does not depend on the progress of its tasks. */
  lemma SubjectStable(s: Store, t: Store, v: nat)
    requires PlansRecorded(s) && v in s.plans && v in t.plans && t.plans[v] == s.plans[v]
    requires SameContracts(s.tasks, t.tasks)
    ensures PlanSubject(GetPlan(t, v).value) == PlanSubject(GetPlan(s, v).value)
  {
    var plan := s.plans[v];
    var a, b := GetPlan(s, v).value.tasks, GetPlan(t, v).value.tasks;
    forall i | 0 <= i < |plan.tasks|
      ensures Contract(a[i]) == Contract(b[i])
    {
      assert Known(s.tasks, plan.tasks[i].id);
      LookupStable(s.tasks, t.tasks, plan.tasks[i]);
    }
    assert Contracts(a) == Contracts(b);
  }

  lemma KnownAppended(a: seq<Task>, b: seq<Task>, id: Uuid)
    ensures Known(a + b, id) <==> Known(a, id) || Known(b, id)
  {
    if Known(a, id) {
      var k :| 0 <= k < |a| && a[k].id == id;
      assert (a + b)[k].id == id;
    }
    if Known(b, id) {
      var k :| 0 <= k < |b| && b[k].id == id;
      assert (a + b)[|a| + k].id == id;
    }
  }

  lemma {:induction false} NewTasksKnown(known: seq<Task>, tasks: seq<Task>, i: nat)
    requires i < |tasks|
    ensures Known(known + NewTasks(known, tasks), tasks[i].id)
  {
    var first, rest := if Known(known, tasks[0].id) then [] else [tasks[0]], NewTasks(known, tasks[1..]);
    KnownAppended(known, first + rest, tasks[i].id);
    KnownAppended(first, rest, tasks[i].id);
    if i == 0 {
      assert first != [] ==> first[0].id == tasks[0].id;
    } else {
      NewTasksKnown(known, tasks[1..], i - 1);
      KnownAppended(known, rest, tasks[i].id);
    }
  }

  lemma KnownLonger(a: seq<Task>, b: seq<Task>, id: Uuid)
    requires SameContracts(a, b) && Known(a, id)
    ensures Known(b, id)
  {
    var i :| 0 <= i < |a| && a[i].id == id;
    assert Contract(a[i]) == Contract(b[i]);
    assert b[i].id == id;
  }

  /** Saving a plan keeps every older plan and record, and records all tasks of the new one. */
  lemma SavePlanRecords(s: Store, plan: Plan)
    requires PlansRecorded(s) && plan.version >= 1 && SavePlan(s, plan).Some?
    ensures var t := SavePlan(s, plan).value;
      && PlansRecorded(t) && SameContracts(s.tasks, t.tasks)
      && forall v :: v in s.plans ==> v in t.plans && t.plans[v] == s.plans[v]
  {
    var t := SavePlan(s, plan).value;
    forall v, i | v in t.plans && 0 <= i < |t.plans[v].tasks|
      ensures Known(t.tasks, t.plans[v].tasks[i].id)
    {
      if v != plan.version {
        KnownLonger(s.tasks, t.tasks, s.plans[v].tasks[i].id);
      } else {
        NewTasksKnown(s.tasks, plan.tasks, i);
      }
    }
  }

  // ---------------------------------------------------------------------------------
  // Settled work

  predicate Settled(status: TaskStatus) { status !in {Pending, Ready} }

  /** No task of the current plan is pending or ready. */
  ghost predicate PlanSettled(s: Store) {
    var plan := GetPlan(s, s.run.planVersion);
    plan.Some? ==> forall i :: 0 <= i < |plan.value.tasks| ==> Settled(plan.value.tasks[i].progress.status)
  }

  lemma {:induction false} CancelTasksSettles(s: Store, command: string, tasks: seq<Task>, k: nat)
    requires k < |tasks| && Known(s.tasks, tasks[k].id)
    requires Settled(tasks[k].progress.status) ==> Settled(Lookup(s.tasks, tasks[k]).progress.status)
    ensures Settled(Lookup(CancelTasks(s, command, tasks).tasks, tasks[k]).progress.status)
  {
    var n := |tasks| - 1;
    var before := CancelTasks(s, command, tasks[..n]);
    CancelTasksOnlyWork(s, command, tasks[..n]);
    KnownLonger(s.tasks, before.tasks, tasks[k].id);
    if k < n {
      CancelTasksSettles(s, command, tasks[..n], k);
      LookupWithStatus(before.tasks, tasks[n].id, Cancelled, tasks[k]);
    } else if Settled(tasks[k].progress.status) {
      CancelTasksKeepsSettled(s, command, tasks[..n], tasks[k]);
    } else {
      LookupWithStatus(before.tasks, tasks[n].id, Cancelled, tasks[k]);
    }
  }

  lemma {:induction false} CancelTasksKeepsSettled(s: Store, command: string, tasks: seq<Task>, t: Task)
    requires Known(s.tasks, t.id) && Settled(Lookup(s.tasks, t).progress.status)
    ensures Settled(Lookup(CancelTasks(s, command, tasks).tasks, t).progress.status)
  {
    if tasks != [] {
      var n := |tasks| - 1;
      var before := CancelTasks(s, command, tasks[..n]);
      CancelTasksKeepsSettled(s, command, tasks[..n], t);
      CancelTasksOnlyWork(s, command, tasks[..n]);
      KnownLonger(s.tasks, before.tasks, t.id);
      LookupWithStatus(before.tasks, tasks[n].id, Cancelled, t);
    }
  }

  lemma {:induction false} LookupIsRecord(tasks: seq<Task>, t: Task)
    requires Known(tasks, t.id)
    ensures Lookup(tasks, t).id == t.id && Lookup(tasks, Lookup(tasks, t)) == Lookup(tasks, t)
    ensures forall u: Task :: u.id == t.id ==> Lookup(tasks, u) == Lookup(tasks, t)
  {
    if tasks[0].id != t.id {
      var i :| 0 <= i < |tasks| && tasks[i].id == t.id;
      assert tasks[1..][i - 1].id == t.id;
      LookupIsRecord(tasks[1..], t);
    }
  }

  /** After cancelling, no task of the current plan is pending or ready. */
  lemma CancelPendingSettles(s: Store, command: string)
    requires PlansRecorded(s)
    ensures PlanSettled(CancelPending(s, command))
  {
    var quiet := CancelAttempts(s, command, |s.attempts|);
    CancelAttemptsOnlyWork(s, command, |s.attempts|);
    if quiet.run.planVersion in quiet.plans {
      var plan := quiet.plans[quiet.run.planVersion];
      var tasks := GetPlan(quiet, quiet.run.planVersion).value.tasks;
      var after := CancelTasks(quiet, command, tasks);
      CancelTasksOnlyWork(quiet, command, tasks);
      forall i | 0 <= i < |plan.tasks|
        ensures Settled(Lookup(after.tasks, plan.tasks[i]).progress.status)
      {
        KnownLonger(s.tasks, quiet.tasks, plan.tasks[i].id);
        LookupIsRecord(quiet.tasks, plan.tasks[i]);
        CancelTasksSettles(quiet, command, tasks, i);
        KnownLonger(quiet.tasks, after.tasks, plan.tasks[i].id);
        LookupIsRecord(after.tasks, plan.tasks[i]);
      }
    }
  }
}
