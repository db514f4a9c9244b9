/** What must hold before a run is let into a state, and before a plan is installed, over every sequence of commands.

    Everything is said about the records themselves. */
module RunGates {
  import opened Collections
  import opened RunStates
  import opened Plans
  import opened RunStore
  import opened RunFrames
  import opened RunHistory
  import opened RunSteps
  import opened RunSafety
  import opened RunTheorems
  import opened RunStages
  import opened RunRecords
  import opened RunWork

  // ---------------------------------------------------------------------------------
  // Gates

  ghost predicate GatedBy(s: Store, stage: Stage) {
    exists gates :: s.policy == Some(Supervised(gates)) && stage in gates
  }

  /** An operator approved exactly this, if the run gates its stage. */
  ghost predicate Cleared(commands: seq<Command>, id: RequestId) {
    GatedBy(After(commands), id.stage) ==> ApprovedBefore(commands, id)
  }

  lemma PassedGate(commands: seq<Command>, id: RequestId)
    requires RequireApproval(After(commands), id).reply.Ok?
    ensures Cleared(commands, id)
  {
    var s := After(commands);
    if GatedBy(s, id.stage) {
      var j := DecisionWasTaken(commands, id);
    }
  }

  /** What a command that needs approval leaves and replies: it goes on when the gate is off or the operator approved
      exactly this while it is still current; it asks when nobody has asked; otherwise it is refused. */
  lemma RequireApprovalExactly(s: Store, id: RequestId)
    ensures var r := RequireApproval(s, id);
      if !GatedBy(s, id.stage) then r == Outcome(s, Ok(()))
      else if !Current(s, id.stage, id.version) then r == Outcome(s, Err(Conflict))
      else if id !in s.requests then OnlyRequest(s, r.store, id) && r.reply == Err(PolicyDenied)
      else if id in s.decisions && s.decisions[id].kind == Approve then r == Outcome(s, Ok(()))
      else r == Outcome(s, Err(PolicyDenied))
  {
    if id !in s.requests {
      AddRequestOnly(s, id);
    }
  }

  /** The version a request speaks of is the current one: of the goal for GOAL, of the plan otherwise, or no plan at
      all for preparatory work. */
  ghost predicate Current(s: Store, stage: Stage, version: nat) {
    if stage.GoalStage? then s.run.goal.Some? && s.run.goal.value in s.goals && s.goals[s.run.goal.value].version == version
    else (version == s.run.planVersion && version > 0) || (stage.TaskStage? && version == 0 && s.run.state == Analyzing)
  }

  /** Asking for approval without needing it: the request is on record afterwards, once, if the gate is on. */
  lemma PrepareRequestExactly(s: Store, id: RequestId)
    ensures var r := PrepareRequest(s, id);
      if !GatedBy(s, id.stage) then r == Outcome(s, Ok((None, false)))
      else if !Current(s, id.stage, id.version) then r == Outcome(s, Err(Conflict))
      else if id in s.requests then r == Outcome(s, Ok((Some(id), false)))
      else OnlyRequest(s, r.store, id) && r.reply == Ok((Some(id), true))
  {
    if id !in s.requests {
      AddRequestOnly(s, id);
    }
  }

  /** A decision is recorded exactly when the request is open, unchanged and current and the operator is named, with
      a reason to reject; the same decision by the same operator is answered again, and any other refused. */
  lemma DecideExactly(s: Store, id: RequestId, expected: Digest, decision: Decision)
    ensures var r := Decide(s, id, expected, decision);
      var wellFormed := && !Blank(decision.operator) && |decision.operator| <= 120
                        && (decision.kind == Reject ==> !Blank(decision.reason));
      var open := id in s.requests && id.digest == expected && Current(s, id.stage, id.version);
      var status := if decision.kind == Approve then Approved else Rejected;
      if !wellFormed then r == Outcome(s, Err(InputError))
      else if id !in s.requests then r == Outcome(s, Err(NotFound))
      else if !open then r == Outcome(s, Err(Conflict))
      else if id in s.decisions then
        var same := s.decisions[id].kind == decision.kind && s.decisions[id].operator == decision.operator;
        r == Outcome(s, if same then Ok(status) else Err(Conflict))
      else
        && r.reply == Ok(status) && r.store.decisions == s.decisions[id := decision]
        && r.store == s.(decisions := r.store.decisions, actor := r.store.actor, events := r.store.events)
        && s.events + [ApprovalDecided(id, decision)] <= r.store.events
  {
  }

  // ---------------------------------------------------------------------------------
  // Conditions of each state

  /** The newest report of this kind. */
  ghost predicate Newest(reports: seq<Report>, checkpoint: Checkpoint, report: Report) {
    exists i :: 0 <= i < |reports| && reports[i] == report && report.checkpoint == checkpoint
                && forall j :: i < j < |reports| ==> reports[j].checkpoint != checkpoint
  }

  lemma {:induction false} LastReportIsNewest(reports: seq<Report>, checkpoint: Checkpoint)
    ensures LastReport(reports, checkpoint).Some? ==> Newest(reports, checkpoint, LastReport(reports, checkpoint).value)
    ensures LastReport(reports, checkpoint).None? ==> forall i :: 0 <= i < |reports| ==> reports[i].checkpoint != checkpoint
  {
    if reports != [] {
      var n := |reports| - 1;
      LastReportIsNewest(reports[..n], checkpoint);
      if reports[n].checkpoint != checkpoint && LastReport(reports[..n], checkpoint).Some? {
        var r := LastReport(reports[..n], checkpoint).value;
        var i :| 0 <= i < n && reports[..n][i] == r && forall j :: i < j < n ==> reports[..n][j].checkpoint != checkpoint;
        forall j | i < j < |reports|
          ensures reports[j].checkpoint != checkpoint
        {
          assert j < n ==> reports[..n][j].checkpoint != checkpoint;
        }
        assert reports[i] == r;
      }
    }
  }

  lemma NewestIsLast(reports: seq<Report>, checkpoint: Checkpoint, report: Report)
    ensures Newest(reports, checkpoint, report) <==> LastReport(reports, checkpoint) == Some(report)
  {
    LastReportIsNewest(reports, checkpoint);
    if Newest(reports, checkpoint, report) {
      var i :| 0 <= i < |reports| && reports[i] == report && report.checkpoint == checkpoint
               && forall j :: i < j < |reports| ==> reports[j].checkpoint != checkpoint;
      assert LastReport(reports, checkpoint).Some?;
      var last := LastReport(reports, checkpoint).value;
      var k :| 0 <= k < |reports| && reports[k] == last && last.checkpoint == checkpoint
               && forall j :: k < j < |reports| ==> reports[j].checkpoint != checkpoint;
      assert i == k;
    }
  }

  /** The newest review. */
  function Latest(s: Store): Review
    requires s.records.reviews != []
  {
    s.records.reviews[|s.records.reviews| - 1]
  }

  /** The newest review passes, for the current goal, and no open finding blocks. */
  ghost predicate Accepted(s: Store) {
    && s.records.reviews != [] && Latest(s).passed && Latest(s).goal == s.run.goal
    && forall f :: f in s.findings ==> !(f.blocking && f.unresolved)
  }

  /** The newest implementation report certifies the reviewed tree. */
  ghost predicate Certified(s: Store) {
    && s.records.reviews != []
    && exists report :: Newest(s.records.reports, Implementation, report) && report.passed && report.tree == Latest(s).tree
  }

  /** The newest validation passes for the current goal, and the newest final report certifies the same tree. */
  ghost predicate Validated(s: Store, tree: string) {
    var v := s.records.validations;
    && v != [] && v[|v| - 1].passed && v[|v| - 1].goal == s.run.goal && v[|v| - 1].tree == tree
    && exists report :: Newest(s.records.reports, Final, report) && report.passed && report.tree == tree
  }

  ghost predicate CommitHolds(s: Store, tree: string) {
    s.records.commit.Some? && s.records.commit.value.attached && s.records.commit.value.sha != "" && s.records.commit.value.tree == tree
  }

  /** What delivery has to show for a state. */
  ghost predicate Shown(s: Store, target: RunState) {
    match target
    case ChangeGuard => Accepted(s)
    case Documenting => Accepted(s) && Certified(s)
    case DeliveryValidation => Accepted(s) && Certified(s) && s.records.documented
    case Committing => Accepted(s) && Certified(s) && s.records.documented && exists tree :: Validated(s, tree)
    case Pushing =>
      && Accepted(s) && Certified(s) && s.records.documented
      && exists tree :: Validated(s, tree) && CommitHolds(s, tree) && s.records.commit.value.push
    case MemoryFinalization => Finalizable(s)
    case Completed => Finalizable(s) && s.records.promoted
    case _ => true
  }

  ghost predicate Finalizable(s: Store) {
    && Accepted(s) && Certified(s) && s.records.documented
    && exists tree :: Validated(s, tree) && CommitHolds(s, tree) && (s.records.commit.value.push ==> s.records.commit.value.pushed)
  }

  lemma FindingsShown(findings: seq<Finding>)
    ensures BlockedByFinding(findings) <==> exists f :: f in findings && f.blocking && f.unresolved
  {
    if BlockedByFinding(findings) {
      var i :| 0 <= i < |findings| && findings[i].blocking && findings[i].unresolved;
      assert findings[i] in findings;
    }
  }

  lemma CertifiedShown(s: Store)
    ensures Certified(s) <==>
      var last := LastReport(s.records.reports, Implementation);
      s.records.reviews != [] && last.Some? && last.value.passed && last.value.tree == Latest(s).tree
  {
    var last := LastReport(s.records.reports, Implementation);
    if Certified(s) {
      var report :| Newest(s.records.reports, Implementation, report) && report.passed && report.tree == Latest(s).tree;
      NewestIsLast(s.records.reports, Implementation, report);
    }
    if last.Some? {
      NewestIsLast(s.records.reports, Implementation, last.value);
    }
  }

  lemma ValidatedShown(s: Store, tree: string)
    ensures Validated(s, tree) <==>
      var v, last := s.records.validations, LastReport(s.records.reports, Final);
      && v != [] && v[|v| - 1].passed && v[|v| - 1].goal == s.run.goal && v[|v| - 1].tree == tree
      && last.Some? && last.value.passed && last.value.tree == tree
  {
    var last := LastReport(s.records.reports, Final);
    if Validated(s, tree) {
      var report :| Newest(s.records.reports, Final, report) && report.passed && report.tree == tree;
      NewestIsLast(s.records.reports, Final, report);
    }
    if last.Some? {
      NewestIsLast(s.records.reports, Final, last.value);
    }
  }

  /** Only the tree of the newest validation can be validated. */
  lemma ValidatedTree(s: Store)
    ensures (exists tree :: Validated(s, tree)) <==>
      s.records.validations != [] && Validated(s, s.records.validations[|s.records.validations| - 1].tree)
    ensures forall tree :: Validated(s, tree) ==>
      s.records.validations != [] && tree == s.records.validations[|s.records.validations| - 1].tree
  {
  }

  /** The final report and the newest validation agree on this tree. */
  predicate FinalOn(r: DeliveryRecords, goal: Option<Uuid>, tree: string) {
    var final := LastReport(r.reports, Final);
    && r.validations != [] && r.validations[|r.validations| - 1].passed && r.validations[|r.validations| - 1].goal == goal
    && final.Some? && final.value.passed && final.value.tree == r.validations[|r.validations| - 1].tree == tree
  }

  lemma BeyondUnfolds(r: DeliveryRecords, goal: Option<Uuid>, target: RunState)
    ensures var implementation, final := LastReport(r.reports, Implementation), LastReport(r.reports, Final);
      BeyondChangeGuard(r, goal, target) <==>
        && implementation.Some? && implementation.value.passed
        && r.reviews != [] && implementation.value.tree == r.reviews[|r.reviews| - 1].tree
        && (target != Documenting ==> r.documented)
        && (target !in {Documenting, DeliveryValidation} ==>
              final.Some? && FinalOn(r, goal, final.value.tree)
              && (target != Committing ==> Committed(r.commit, final.value.tree, target)))
  {
  }

  lemma FinalShown(s: Store, tree: string)
    ensures FinalOn(s.records, s.run.goal, tree) <==> Validated(s, tree)
  {
    ValidatedShown(s, tree);
  }

  lemma AcceptedShown(s: Store)
    ensures Accepted(s) <==>
      !BlockedByFinding(s.findings) && s.records.reviews != [] && Latest(s).passed && Latest(s).goal == s.run.goal
  {
    FindingsShown(s.findings);
  }

  lemma EarlyShown(s: Store, target: RunState)
    requires target in {ChangeGuard, Documenting, DeliveryValidation}
    ensures DeliveryReady(s.records, s.run.goal, s.findings, target) <==> Shown(s, target)
  {
    AcceptedShown(s);
    CertifiedShown(s);
    BeyondUnfolds(s.records, s.run.goal, target);
  }

  lemma LateShown(s: Store, target: RunState)
    requires target in {Committing, Pushing, MemoryFinalization, Completed}
    ensures DeliveryReady(s.records, s.run.goal, s.findings, target) && (target == Completed ==> s.records.promoted) <==> Shown(s, target)
  {
    AcceptedShown(s);
    CertifiedShown(s);
    BeyondUnfolds(s.records, s.run.goal, target);
    ValidatedTree(s);
    var final := LastReport(s.records.reports, Final);
    if final.Some? {
      FinalShown(s, final.value.tree);
      CommittedShown(s, final.value.tree, target);
    }
    if s.records.validations != [] {
      FinalShown(s, s.records.validations[|s.records.validations| - 1].tree);
    }
  }

  lemma CommittedShown(s: Store, tree: string, target: RunState)
    requires target in {Pushing, MemoryFinalization, Completed, Committing}
    ensures Committed(s.records.commit, tree, target) <==>
      && CommitHolds(s, tree) && (target == Pushing ==> s.records.commit.value.push)
      && (target in {MemoryFinalization, Completed} ==> (s.records.commit.value.push ==> s.records.commit.value.pushed))
  {
  }

  lemma DeliveryShown(s: Store, target: RunState)
    ensures DeliveryReady(s.records, s.run.goal, s.findings, target) && (target == Completed ==> s.records.promoted) <==> Shown(s, target)
  {
    if target in {ChangeGuard, Documenting, DeliveryValidation} {
      EarlyShown(s, target);
    } else if target in {Committing, Pushing, MemoryFinalization, Completed} {
      LateShown(s, target);
    }
  }

  /** Every task of the current plan has succeeded or was skipped. */
  ghost predicate AllFinished(s: Store) {
    s.run.planVersion in s.plans && forall k :: 0 <= k < |s.tasks| && HasTask(s.plans[s.run.planVersion].tasks, s.tasks[k].id) ==>
      s.tasks[k].progress.status in {Succeeded, Skipped}
  }

  lemma FinishedIsRecorded(s: Store)
    requires PlansRecorded(s) && RecordsSound(s)
    ensures PlanFinished(s) <==> AllFinished(s)
  {
    if s.run.planVersion in s.plans {
      var planned, current := s.plans[s.run.planVersion].tasks, GetPlan(s, s.run.planVersion).value.tasks;
      forall i, k | 0 <= i < |planned| && 0 <= k < |s.tasks| && planned[i].id == s.tasks[k].id
        ensures current[i] == s.tasks[k]
      {
        LookupAt(s.tasks, planned[i], k);
      }
      if AllFinished(s) {
        forall i | 0 <= i < |planned|
          ensures current[i].progress.status in {Succeeded, Skipped}
        {
          assert Known(s.tasks, planned[i].id);
          var k :| 0 <= k < |s.tasks| && s.tasks[k].id == planned[i].id;
          assert HasTask(planned, s.tasks[k].id);
        }
      }
    }
  }

  /** The operator's approval of this is on record, and it is current, if its stage is gated. */
  ghost predicate Open(s: Store, id: RequestId) {
    GatedBy(s, id.stage) ==>
      Current(s, id.stage, id.version) && id in s.requests && id in s.decisions && s.decisions[id].kind == Approve
  }

  /** A delivery policy is bound; where DELIVERY is gated, by an approved request for the newest review's plan. */
  ghost predicate BoundTo(s: Store) {
    && s.records.binding.Some?
    && (GatedBy(s, DeliveryStage) ==>
          && s.records.binding.value.request.Some? && s.records.reviews != []
          && var id := s.records.binding.value.request.value;
             && id.stage == DeliveryStage && id.version == Latest(s).planVersion
             && id in s.requests && id in s.decisions && s.decisions[id].kind == Approve)
  }

  ghost predicate RequiredPass(s: Store) {
    && s.run.goal.Some? && s.run.goal.value in s.goals
    && forall c :: c in s.goals[s.run.goal.value].criteria && c.required ==> c.passed
  }

  ghost predicate FailedNow(s: Store) {
    s.records.reviews != [] && !Latest(s).passed && Latest(s).planVersion == s.run.planVersion && Latest(s).goal == s.run.goal
  }

  function RepairRequest(s: Store): RequestId
    requires s.records.reviews != []
  {
    RequestId(RepairStage, s.run.planVersion, OfReview(Latest(s)))
  }

  ghost predicate PlannedForGoal(s: Store) {
    s.run.planVersion in s.plans && s.run.goal == Some(s.plans[s.run.planVersion].goal)
  }

  /** All that a state demands of a run, but for an operator's approval. */
  ghost predicate Prepared(s: Store, target: RunState) {
    && Shown(s, target)
    && (target.ChangeGuard? ==> BoundTo(s) && RequiredPass(s))
    && (target.Completed? ==> AllFinished(s))
    && (target.RepairPlanning? ==> FailedNow(s))
    && (target.Executing? && s.run.state.RepairPlanning? ==>
          s.records.reviews != [] && s.run.planVersion == Latest(s).planVersion + 1)
    && (target in {Paused, BlockedRun, HumanReviewRequired} ==> forall a :: a in s.attempts ==> !a.status.Running?)
    && (target.GoalDefined? ==> s.run.goal.Some?)
    && (target in {Planned, Executing} ==> PlannedForGoal(s))
  }

  /** What an operator has to approve before a state is entered. */
  function Asked(s: Store, target: RunState): Option<RequestId> {
    if target.RepairPlanning? && s.records.reviews != [] then Some(RepairRequest(s))
    else if target.Executing? && s.run.planVersion in s.plans then Some(PlanRequest(s))
    else None
  }

  lemma SuspensionShown(s: Store)
    ensures (exists i :: 0 <= i < |s.attempts| && s.attempts[i].status == Running) <==> exists a :: a in s.attempts && a.status.Running?
  {
    if exists i :: 0 <= i < |s.attempts| && s.attempts[i].status == Running {
      var i :| 0 <= i < |s.attempts| && s.attempts[i].status == Running;
      assert s.attempts[i] in s.attempts;
    }
  }

  lemma CriteriaShown(s: Store)
    ensures RequiredCriteriaPass(s.run.goal, s.goals) <==> RequiredPass(s)
  {
    if s.run.goal.Some? && s.run.goal.value in s.goals {
      var criteria := s.goals[s.run.goal.value].criteria;
      assert forall i :: 0 <= i < |criteria| ==> criteria[i] in criteria;
    }
  }

  lemma BindingShown(s: Store)
    ensures Bound(s) <==> BoundTo(s)
  {
  }

  lemma PlanShown(s: Store)
    ensures PlanForGoal(s) <==> PlannedForGoal(s)
    ensures FailedReviewIsCurrent(s) <==> FailedNow(s)
  {
  }

  /** Exactly a prepared run with the approval it needs passes the guard. */
  ghost predicate Guarded(s: Store, target: RunState) {
    var r, id := Guard(s, target), Asked(s, target);
    if !Prepared(s, target) then r.reply.Err? && r.store == s
    else if id.None? then r == Outcome(s, Ok(()))
    else r == RequireApproval(s, id.value)
  }

  lemma GuardExactly(s: Store, target: RunState)
    requires PlansRecorded(s) && RecordsSound(s)
    ensures Guarded(s, target)
  {
    if target in DELIVERY_TARGETS {
      DeliveryGuarded(s, target);
    } else if target in {Planned, Executing, RepairPlanning, GoalDefined} {
      PlanGuarded(s, target);
    } else {
      SuspensionShown(s);
    }
  }

  lemma DeliveryGuarded(s: Store, target: RunState)
    requires PlansRecorded(s) && RecordsSound(s) && target in DELIVERY_TARGETS
    ensures Guarded(s, target)
  {
    DeliveryShown(s, target);
    if target == Completed {
      CompletionGuarded(s);
    } else if target == ChangeGuard {
      ChangeGuarded(s);
    } else {
      MiddleGuarded(s, target);
    }
  }

  lemma MiddleGuarded(s: Store, target: RunState)
    requires target in DELIVERY_TARGETS && target != ChangeGuard && target != Completed
    requires DeliveryReady(s.records, s.run.goal, s.findings, target) <==> Shown(s, target)
    ensures Guarded(s, target)
  {
    MiddleGuard(s, target);
    assert Prepared(s, target) <==> Shown(s, target);
    assert Asked(s, target).None?;
  }

  lemma MiddleGuard(s: Store, target: RunState)
    requires target in DELIVERY_TARGETS && target != ChangeGuard && target != Completed
    ensures Guard(s, target) == Outcome(s, if DeliveryReady(s.records, s.run.goal, s.findings, target) then Ok(()) else Err(PolicyDenied))
  {
  }

  lemma CompletionGuarded(s: Store)
    requires PlansRecorded(s) && RecordsSound(s)
    requires DeliveryReady(s.records, s.run.goal, s.findings, Completed) && s.records.promoted <==> Shown(s, Completed)
    ensures Guarded(s, Completed)
  {
    FinishedIsRecorded(s);
  }

  lemma ChangeGuarded(s: Store)
    requires DeliveryReady(s.records, s.run.goal, s.findings, ChangeGuard) <==> Shown(s, ChangeGuard)
    ensures Guarded(s, ChangeGuard)
  {
    CriteriaShown(s);
    BindingShown(s);
  }

  lemma PlanGuarded(s: Store, target: RunState)
    requires target in {Planned, Executing, RepairPlanning, GoalDefined}
    ensures Guarded(s, target)
  {
    PlanShown(s);
  }

  lemma AdvanceUnfolds(s: Store, target: RunState, key: string)
    requires FindMoved(s.events, key).None? && PlansRecorded(s)
    ensures Advance(s, target, key).reply.Ok? <==>
      ValidKey(key) && ValidTransition(s.run.state, target, s.run.resumeState) && Guard(s, target).reply.Ok?
    ensures ValidKey(key) && ValidTransition(s.run.state, target, s.run.resumeState) && Guard(s, target).reply.Err? ==>
      Advance(s, target, key) == Outcome(Guard(s, target).store, Err(Guard(s, target).reply.error))
  {
    if target == Planned && s.run.planVersion in s.plans {
      PlannedRequested(s, key);
    }
  }

  /** When an advance under a new key is accepted: from a state that leads there, with everything the state demands,
      and with the operator's approval where that is gated. */
  lemma AdvanceAccepted(commands: seq<Command>, target: RunState, key: string)
    requires FindMoved(After(commands).events, key).None?
    ensures var s := After(commands);
      Advance(s, target, key).reply.Ok? <==>
        && ValidKey(key) && ValidTransition(s.run.state, target, s.run.resumeState) && Prepared(s, target)
        && (Asked(s, target).Some? ==> Open(s, Asked(s, target).value))
  {
    var s := After(commands);
    AlwaysSound(commands);
    AlwaysRecorded(commands);
    AdvanceUnfolds(s, target, key);
    GuardPasses(s, target);
  }

  lemma GuardPasses(s: Store, target: RunState)
    requires PlansRecorded(s) && RecordsSound(s)
    ensures Guard(s, target).reply.Ok? <==> Prepared(s, target) && (Asked(s, target).Some? ==> Open(s, Asked(s, target).value))
  {
    GuardExactly(s, target);
    var id := Asked(s, target);
    if id.Some? {
      OpenPasses(s, id.value);
    }
  }

  lemma OpenPasses(s: Store, id: RequestId)
    ensures RequireApproval(s, id).reply.Ok? <==> Open(s, id)
  {
    RequireApprovalExactly(s, id);
  }

  lemma PlannedRequested(s: Store, key: string)
    requires PlansRecorded(s) && s.run.planVersion in s.plans
    ensures var moved := Move(s, Planned, key);
      moved.run.planVersion in moved.plans && PrepareRequest(moved, PlanRequest(moved)).reply.Ok?
  {
    MoveFrame(s, Planned, key);
    var moved := Move(s, Planned, key);
    PrepareRequestExactly(moved, PlanRequest(moved));
  }

  /** Entering PLANNED asks for the approval of the plan, if plans are gated, and asks for nothing else. */
  lemma PlannedAsks(commands: seq<Command>, key: string)
    requires Advance(After(commands), Planned, key).reply.Ok? && FindMoved(After(commands).events, key).None?
    ensures var s, t := After(commands), Advance(After(commands), Planned, key).store;
      && t.run.planVersion in t.plans
      && t.requests == if GatedBy(s, PlanStage) then s.requests + {PlanRequest(t)} else s.requests
  {
    AlwaysSound(commands);
    PlannedAsksAt(After(commands), key);
  }

  lemma PlannedAsksAt(s: Store, key: string)
    requires PlansRecorded(s) && Advance(s, Planned, key).reply.Ok? && FindMoved(s.events, key).None?
    ensures var t := Advance(s, Planned, key).store;
      && t.run.planVersion in t.plans
      && t.requests == if GatedBy(s, PlanStage) then s.requests + {PlanRequest(t)} else s.requests
  {
    PlannedGuarded(s, Planned);
    PlannedSettled(s, key);
    MoveFrame(s, Planned, key);
    PlanRequested(s, Move(s, Planned, key));
  }

  lemma PlanRequested(s: Store, moved: Store)
    requires PlansRecorded(moved) && moved.run.planVersion in moved.plans && moved.policy == s.policy && moved.requests == s.requests
    ensures PrepareRequest(moved, PlanRequest(moved)).store.requests ==
      if GatedBy(s, PlanStage) then s.requests + {PlanRequest(moved)} else s.requests
  {
    PrepareRequestExactly(moved, PlanRequest(moved));
  }

  lemma PlannedSettled(s: Store, key: string)
    requires Advance(s, Planned, key).reply.Ok? && FindMoved(s.events, key).None? && s.run.planVersion in s.plans
    ensures var moved, t := Move(s, Planned, key), Advance(s, Planned, key).store;
      && moved.run.planVersion in moved.plans && t.run.planVersion in t.plans
      && t == PrepareRequest(moved, PlanRequest(moved)).store && PrepareRequest(moved, PlanRequest(moved)).reply.Ok?
      && PlanRequest(t) == PlanRequest(moved)
  {
    MoveFrame(s, Planned, key);
    PrepareRequestSteady(Move(s, Planned, key), PlanRequest(Move(s, Planned, key)));
    SamePlanRequest(Move(s, Planned, key), Advance(s, Planned, key).store);
  }

  lemma SamePlanRequest(s: Store, t: Store)
    requires s.run.planVersion in s.plans && t.run == s.run && t.plans == s.plans && t.tasks == s.tasks
    ensures PlanRequest(t) == PlanRequest(s)
  {
  }

  /** An advance that lacks nothing but a request for approval asks for it, durably, and is refused. */
  lemma AdvanceAsks(commands: seq<Command>, target: RunState, key: string)
    requires var s := After(commands);
      && FindMoved(s.events, key).None? && ValidKey(key) && ValidTransition(s.run.state, target, s.run.resumeState)
      && Prepared(s, target) && Asked(s, target).Some?
      && GatedBy(s, Asked(s, target).value.stage) && Asked(s, target).value !in s.requests
    ensures var s, r := After(commands), Advance(After(commands), target, key);
      OnlyRequest(s, r.store, Asked(s, target).value) && r.reply == Err(PolicyDenied)
  {
    var s := After(commands);
    AlwaysSound(commands);
    AlwaysRecorded(commands);
    PlanIsThere(commands, target);
    GuardAsks(s, target);
    AdvanceUnfolds(s, target, key);
  }

  lemma PlanIsThere(commands: seq<Command>, target: RunState)
    requires var s := After(commands); ValidTransition(s.run.state, target, s.run.resumeState)
    requires target in {RepairPlanning, Executing}
    ensures After(commands).run.planVersion > 0
  {
    var s := After(commands);
    AlwaysOnPath(commands);
    AlwaysSound(commands);
    assert StagesBefore(ResumePoint(s.events)) >= 4;
  }

  lemma GuardAsks(s: Store, target: RunState)
    requires PlansRecorded(s) && RecordsSound(s) && Prepared(s, target) && Asked(s, target).Some? && s.run.planVersion > 0
    requires GatedBy(s, Asked(s, target).value.stage) && Asked(s, target).value !in s.requests
    ensures var r := Guard(s, target); OnlyRequest(s, r.store, Asked(s, target).value) && r.reply == Err(PolicyDenied)
  {
    GuardExactly(s, target);
    RequireApprovalExactly(s, Asked(s, target).value);
  }

  // ---------------------------------------------------------------------------------
  // Every entry, over whole runs

  lemma EnteredGuarded(s: Store, t: Store)
    requires Step(s, t) && t.run.state != s.run.state
    ensures Guard(s, t.run.state).reply.Ok?
  {
    var target, key :| Transition(s, t, target, key);
    MoveFrame(s, target, key);
  }

  lemma OpenCleared(commands: seq<Command>, id: RequestId)
    requires Open(After(commands), id)
    ensures Cleared(commands, id)
  {
    if GatedBy(After(commands), id.stage) {
      var j := DecisionWasTaken(commands, id);
    }
  }

  /** Whatever command takes a run into a state, the run had everything that state demands, and an operator had
      approved exactly what it asks to approve. */
  lemma EntryPrepared(commands: seq<Command>, c: Command)
    requires Apply(After(commands), c).run.state != After(commands).run.state
    ensures var s, target := After(commands), Apply(After(commands), c).run.state;
      && Prepared(s, target)
      && (Asked(s, target).Some? ==> Open(s, Asked(s, target).value) && Cleared(commands, Asked(s, target).value))
  {
    var s, target := After(commands), Apply(After(commands), c).run.state;
    AlwaysSound(commands);
    AlwaysRecorded(commands);
    SoundKept(s, c);
    EnteredGuarded(s, Apply(s, c));
    GuardPasses(s, target);
    if Asked(s, target).Some? {
      OpenCleared(commands, Asked(s, target).value);
    }
  }

  /** Whatever command takes a run into REPAIR_PLANNING, its newest review failed for the current plan version and
      goal; and where REPAIR is gated, an operator had approved repairing after exactly that review. */
  lemma ApprovedBeforeRepair(commands: seq<Command>, c: Command)
    requires After(commands).run.state != RepairPlanning && Apply(After(commands), c).run.state == RepairPlanning
    ensures var s := After(commands);
      && s.records.reviews != []
      && var review := s.records.reviews[|s.records.reviews| - 1];
         && !review.passed && review.planVersion == s.run.planVersion && review.goal == s.run.goal
         && (GatedBy(s, RepairStage) ==> ApprovedBefore(commands, RequestId(RepairStage, s.run.planVersion, OfReview(review))))
  {
    EntryPrepared(commands, c);
  }

  /** Whatever command takes a run into CHANGE_GUARD, a delivery policy is bound, every required criterion of the
      goal passes, and where DELIVERY is gated an operator had approved the bound request, for the plan reviewed last. */
  lemma ApprovedBeforeDelivery(commands: seq<Command>, c: Command)
    requires After(commands).run.state != ChangeGuard && Apply(After(commands), c).run.state == ChangeGuard
    ensures var s := After(commands);
      && Accepted(s) && RequiredPass(s) && s.records.binding.Some?
      && (GatedBy(s, DeliveryStage) ==>
            && s.records.binding.value.request.Some?
            && var id := s.records.binding.value.request.value;
               id.stage == DeliveryStage && id.version == Latest(s).planVersion && ApprovedBefore(commands, id))
  {
    EntryPrepared(commands, c);
    var s := After(commands);
    if GatedBy(s, DeliveryStage) {
      var j := DecisionWasTaken(commands, s.records.binding.value.request.value);
    }
  }

  // ---------------------------------------------------------------------------------
  // Installing a plan

  /** What a goal says, whatever has passed so far. */
  function GoalText(goal: Goal): Digest {
    OfGoal(goal.version, goal.text,
           seq(|goal.criteria|, i requires 0 <= i < |goal.criteria| => Criterion(goal.criteria[i].id, goal.criteria[i].required, false)))
  }

  /** The plan's tasks serve the goal: only criteria of the goal, and every required one. */
  ghost predicate Serves(plan: Plan, goal: Goal) {
    && (forall t, c :: t in plan.tasks && c in t.criteria ==> exists k :: k in goal.criteria && k.id == c)
    && (forall k :: k in goal.criteria && k.required ==> exists t :: t in plan.tasks && k.id in t.criteria)
  }

  lemma CoversServes(plan: Plan, goal: Goal)
    ensures Covers(plan.tasks, goal.criteria) <==> Serves(plan, goal)
  {
    if Covers(plan.tasks, goal.criteria) {
      CoverServes(plan, goal);
    }
    if Serves(plan, goal) {
      ServeCovers(plan, goal);
    }
  }

  lemma CoverServes(plan: Plan, goal: Goal)
    requires Covers(plan.tasks, goal.criteria)
    ensures Serves(plan, goal)
  {
    forall t, c | t in plan.tasks && c in t.criteria
      ensures exists k :: k in goal.criteria && k.id == c
    {
      var i :| 0 <= i < |plan.tasks| && plan.tasks[i] == t;
      var k :| 0 <= k < |goal.criteria| && goal.criteria[k].id == c;
      assert goal.criteria[k] in goal.criteria;
    }
    forall k | k in goal.criteria && k.required
      ensures exists t :: t in plan.tasks && k.id in t.criteria
    {
      var j :| 0 <= j < |goal.criteria| && goal.criteria[j] == k;
      var i :| 0 <= i < |plan.tasks| && goal.criteria[j].id in plan.tasks[i].criteria;
      assert plan.tasks[i] in plan.tasks;
    }
  }

  lemma ServeCovers(plan: Plan, goal: Goal)
    requires Serves(plan, goal)
    ensures Covers(plan.tasks, goal.criteria)
  {
    forall i, c | 0 <= i < |plan.tasks| && c in plan.tasks[i].criteria
      ensures exists k :: 0 <= k < |goal.criteria| && goal.criteria[k].id == c
    {
      assert plan.tasks[i] in plan.tasks;
      var k :| k in goal.criteria && k.id == c;
      var j :| 0 <= j < |goal.criteria| && goal.criteria[j] == k;
    }
    forall k | 0 <= k < |goal.criteria| && goal.criteria[k].required
      ensures exists i :: 0 <= i < |plan.tasks| && goal.criteria[k].id in plan.tasks[i].criteria
    {
      assert goal.criteria[k] in goal.criteria;
      var t :| t in plan.tasks && goal.criteria[k].id in t.criteria;
      var i :| 0 <= i < |plan.tasks| && plan.tasks[i] == t;
    }
  }

  /** Preparatory work that is on record already. */
  ghost predicate OnRecord(s: Store, t: Task) { t.planVersion == 0 && t in s.tasks }

  lemma {:induction false} PreparatoryTasks(tasks: seq<Task>)
    ensures forall t :: t in Preparatory(tasks) <==> t in tasks && t.planVersion == 0
  {
    if tasks != [] {
      PreparatoryTasks(tasks[1..]);
      assert tasks == [tasks[0]] + tasks[1..];
    }
  }

  /** What `install_plan` demands of a plan, preparatory work grafted on, apart from the operator's approval. */
  ghost predicate Admissible(s: Store, plan: Plan) {
    && s.run.state == GoalDefined && s.run.planVersion == 0 && plan.version == 1
    && s.run.goal == Some(plan.goal) && plan.goal in s.goals && Serves(plan, s.goals[plan.goal])
    && ValidPlan(plan)
    && (forall t :: t in plan.tasks && !OnRecord(s, t) ==>
          t.planVersion > 0 && t.progress.status == Pending && t.progress.attempts == 0)
  }

  /** A plan becomes the first one only if it is valid, serves the current goal and brings nothing but unstarted work
      of its own; and where GOAL is gated, an operator had approved exactly that goal. */
  lemma ApprovedBeforePlanning(commands: seq<Command>, given: Plan, key: string)
    requires InstallPlan(After(commands), given, key).store.plans != After(commands).plans
    ensures var s, t := After(commands), InstallPlan(After(commands), given, key).store;
      && 1 in t.plans && t.run.planVersion == 1 && t.plans == s.plans[1 := t.plans[1]] && Admissible(s, t.plans[1])
      && var goal := s.goals[t.plans[1].goal];
         GatedBy(s, GoalStage) ==> ApprovedBefore(commands, RequestId(GoalStage, goal.version, GoalText(goal)))
  {
    var s := After(commands);
    AlwaysSound(commands);
    InstallStep(s, given, key);
    InstalledAdmissible(s, given, key);
    var goal := s.goals[Grafted(s, given).goal];
    assert GoalSubject(goal) == GoalText(goal);
    PassedGate(commands, RequestId(GoalStage, goal.version, GoalText(goal)));
  }

  lemma InstalledAdmissible(s: Store, given: Plan, key: string)
    requires InstallPlan(s, given, key).store.plans != s.plans
    ensures var plan := Grafted(s, given);
      && Admissible(s, plan)
      && RequireApproval(s, RequestId(GoalStage, s.goals[plan.goal].version, GoalSubject(s.goals[plan.goal]))).reply.Ok?
  {
    var plan := Grafted(s, given);
    if InstallPlan(s, given, key).reply.Err? {
      InstallRefused(s, given, key);
      assert false;
    }
    CoversServes(plan, s.goals[plan.goal]);
    PreparatoryTasks(s.tasks);
    PreparatoryTasks(plan.tasks);
  }

  /** Work that is to be grafted on has succeeded. */
  ghost predicate PreparationDone(s: Store, given: Plan) {
    (forall t :: t in given.tasks ==> t.planVersion > 0) ==>
      forall p :: p in s.tasks && p.planVersion == 0 ==> p.progress.status == Succeeded
  }

  /** No task of the plan has an identity that is on record for another task. */
  ghost predicate RecordsAgree(s: Store, plan: Plan) {
    forall t, r :: t in plan.tasks && r in s.tasks && r.id == t.id ==> r == t
  }

  lemma SavableExactly(s: Store, plan: Plan)
    requires RecordsSound(s) && plan.version !in s.plans
    ensures SavePlan(s, plan).Some? <==> RecordsAgree(s, plan)
  {
    forall i, k | 0 <= i < |plan.tasks| && 0 <= k < |s.tasks| && s.tasks[k].id == plan.tasks[i].id
      ensures Lookup(s.tasks, plan.tasks[i]) == s.tasks[k]
    {
      LookupAt(s.tasks, plan.tasks[i], k);
    }
    forall i | 0 <= i < |plan.tasks| && !Known(s.tasks, plan.tasks[i].id)
      ensures Lookup(s.tasks, plan.tasks[i]) == plan.tasks[i]
    {
      LookupUnknown(s.tasks, plan.tasks[i]);
    }
  }

  lemma {:induction false} LookupUnknown(tasks: seq<Task>, t: Task)
    requires !Known(tasks, t.id)
    ensures Lookup(tasks, t) == t
  {
    if tasks != [] {
      assert forall i :: 0 <= i < |tasks[1..]| ==> tasks[1..][i] == tasks[i + 1];
      LookupUnknown(tasks[1..], t);
    }
  }

  /** When an installation under a new key is accepted. */
  lemma InstallAccepted(commands: seq<Command>, given: Plan, key: string)
    requires forall e :: e in After(commands).events ==> !(e.PlanCreated? && e.command == key)
    ensures var s := After(commands);
      var plan := Grafted(s, given);
      InstallPlan(s, given, key).reply.Ok? <==>
        && ValidKey(key) && PreparationDone(s, given) && Admissible(s, plan) && RecordsAgree(s, plan)
        && var goal := s.goals[plan.goal]; Open(s, RequestId(GoalStage, goal.version, GoalText(goal)))
  {
    var s := After(commands);
    AlwaysRecorded(commands);
    AlwaysNewest(commands);
    InstallUnfolds(s, given, key);
    PreparationShown(s, given);
    AdmissibleShown(s, Grafted(s, given));
    if Admissible(s, Grafted(s, given)) {
      GateShown(s, Grafted(s, given));
      SavableExactly(s, Grafted(s, given));
    }
  }

  lemma PreparationShown(s: Store, given: Plan)
    ensures PreparationDone(s, given) <==>
      !(Preparatory(s.tasks) != [] && Preparatory(given.tasks) == []
        && exists p :: p in Preparatory(s.tasks) && p.progress.status != Succeeded)
  {
    PreparatoryTasks(s.tasks);
    PreparatoryTasks(given.tasks);
    if Preparatory(given.tasks) != [] {
      assert Preparatory(given.tasks)[0] in given.tasks;
    }
  }

  lemma AdmissibleShown(s: Store, plan: Plan)
    ensures Admissible(s, plan) <==>
      ValidPlan(plan) && Installable(s, plan) && forall t :: t in Preparatory(plan.tasks) ==> t in Preparatory(s.tasks)
  {
    PreparatoryTasks(s.tasks);
    PreparatoryTasks(plan.tasks);
    if plan.goal in s.goals {
      CoversServes(plan, s.goals[plan.goal]);
    }
  }

  lemma GateShown(s: Store, plan: Plan)
    requires plan.goal in s.goals
    ensures var goal := s.goals[plan.goal];
      Open(s, RequestId(GoalStage, goal.version, GoalText(goal)))
      <==> RequireApproval(s, RequestId(GoalStage, goal.version, GoalSubject(goal))).reply.Ok?
  {
    var goal := s.goals[plan.goal];
    assert GoalSubject(goal) == GoalText(goal);
    OpenPasses(s, RequestId(GoalStage, goal.version, GoalText(goal)));
  }

  lemma InstallUnfolds(s: Store, given: Plan, key: string)
    requires forall e :: e in s.events ==> !(e.PlanCreated? && e.command == key)
    ensures var plan := Grafted(s, given);
      InstallPlan(s, given, key).reply.Ok? <==>
        && ValidKey(key)
        && !(Preparatory(s.tasks) != [] && Preparatory(given.tasks) == []
             && exists p :: p in Preparatory(s.tasks) && p.progress.status != Succeeded)
        && (forall t :: t in Preparatory(plan.tasks) ==> t in Preparatory(s.tasks))
        && ValidPlan(plan) && Installable(s, plan)
        && RequireApproval(s, RequestId(GoalStage, s.goals[plan.goal].version, GoalSubject(s.goals[plan.goal]))).reply.Ok?
        && SavePlan(s, plan).Some?
  {
    assert forall i :: 0 <= i < |s.events| ==> s.events[i] in s.events;
    AdmitUnfolds(s, Grafted(s, given), Preparatory(s.tasks), key);
    InstallAdmits(s, given, key);
  }

  lemma InstallAdmits(s: Store, given: Plan, key: string)
    requires forall i :: 0 <= i < |s.events| ==> !(s.events[i].PlanCreated? && s.events[i].command == key)
    ensures var plan := Grafted(s, given);
      InstallPlan(s, given, key).reply.Ok? <==>
        && ValidKey(key)
        && !(Preparatory(s.tasks) != [] && Preparatory(given.tasks) == []
             && exists p :: p in Preparatory(s.tasks) && p.progress.status != Succeeded)
        && (forall t :: t in Preparatory(plan.tasks) ==> t in Preparatory(s.tasks))
        && ValidPlan(plan) && AdmitPlan(s, plan, Preparatory(s.tasks), key).reply.Ok?
  {
  }

  lemma AdmitUnfolds(s: Store, plan: Plan, preparation: seq<Task>, key: string)
    ensures AdmitPlan(s, plan, preparation, key).reply.Ok? <==>
      && Installable(s, plan)
      && RequireApproval(s, RequestId(GoalStage, s.goals[plan.goal].version, GoalSubject(s.goals[plan.goal]))).reply.Ok?
      && SavePlan(s, plan).Some?
  {
  }
}
