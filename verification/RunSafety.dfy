/** What holds in every state a run reaches. */
module RunSafety {
  import opened Collections
  import opened RunStates
  import opened Plans
  import opened RunStore
  import opened RunFrames
  import opened RunHistory
  import opened RunSteps

  // ---------------------------------------------------------------------------------
  // Suspension

  /** Where the log says a run goes on: the last state entered that is no suspension, or PLANNED since a replanning. */
  function ResumePoint(events: seq<Event>): RunState {
    if events == [] then Received
    else
      var e := events[|events| - 1];
      if e.Moved? && !Suspended(e.target) then e.target
      else if e.PlanRevised? && e.replanned then Planned
      else ResumePoint(events[..|events| - 1])
  }

  lemma {:induction false} ResumePointAppended(a: seq<Event>, b: seq<Event>)
    requires Appended(a, b)
    ensures ResumePoint(b) == ResumePoint(a)
  {
    if |b| > |a| {
      assert Appended(a, b[..|b| - 1]);
      ResumePointAppended(a, b[..|b| - 1]);
    } else {
      assert a == b;
    }
  }

  lemma ResumePointGains(a: seq<Event>, b: seq<Event>, e: Event)
    requires LogGains(a, b, e)
    ensures ResumePoint(b) ==
      if e.Moved? && !Suspended(e.target) then e.target else if e.PlanRevised? && e.replanned then Planned else ResumePoint(a)
  {
    var middle :| Appended(a, middle) && Appended(middle + [e], b);
    ResumePointAppended(a, middle);
    ResumePointAppended(middle + [e], b);
    assert (middle + [e])[..|middle|] == middle;
  }

  /** A resume target is set exactly when the run is suspended, and is where the log says the run goes on. */
  ghost predicate SuspensionSound(s: Store) {
    var point := ResumePoint(s.events);
    && !Suspended(point)
    && if Suspended(s.run.state) then s.run.resumeState == Some(point) && !Terminal(point)
       else s.run.resumeState == None && s.run.state == point
  }

  lemma SuspensionKept(s: Store, t: Store)
    requires SuspensionSound(s) && Step(s, t)
    ensures SuspensionSound(t)
  {
    if Steady(s, t) {
      ResumePointAppended(s.events, t.events);
    } else if NewPlan(s, t) {
      if Replans(s.events, t.events) && t.run.resumeState == Some(Planned) && s.run.state in {Paused, HumanReviewRequired} {
        var key, version :| LogGains(s.events, t.events, PlanRevised(key, version, true));
        ResumePointGains(s.events, t.events, PlanRevised(key, version, true));
      } else {
        ResumePointAppended(s.events, t.events);
      }
    } else {
      var target, key :| Transition(s, t, target, key);
      MoveFrame(s, target, key);
      ResumePointGains(s.events, t.events, Moved(key, s.run.state, target));
    }
  }

  // ---------------------------------------------------------------------------------
  // Phases

  predicate Adjacent(phases: seq<Phase>, i: nat)
    requires i + 1 < |phases|
  {
    !phases[i].open && phases[i].name != phases[i + 1].name
  }

  predicate Numbered(phases: seq<Phase>, i: nat)
    requires i < |phases|
  {
    phases[i].iteration == 1 + CountNamed(phases[..i], phases[i].name)
  }

  /** Only the newest phase may be open, neighbours differ, and the i-th record of a name has iteration i. */
  ghost predicate Ledger(phases: seq<Phase>) {
    && (forall i: nat :: i + 1 < |phases| ==> Adjacent(phases, i))
    && (forall i: nat :: i < |phases| ==> Numbered(phases, i))
  }

  predicate LastOpen(phases: seq<Phase>) { phases != [] && phases[|phases| - 1].open }

  predicate AllClosed(phases: seq<Phase>) { forall i :: 0 <= i < |phases| ==> !phases[i].open }

  lemma LastReplaced(phases: seq<Phase>, p: Phase)
    requires Ledger(phases) && phases != [] && p.name == phases[|phases| - 1].name && p.iteration == phases[|phases| - 1].iteration
    ensures Ledger(phases[|phases| - 1 := p]) && (!p.open ==> AllClosed(phases[|phases| - 1 := p]))
  {
    var k := |phases| - 1;
    var after := phases[k := p];
    forall i: nat | i + 1 < |after|
      ensures Adjacent(after, i)
    {
      assert Adjacent(phases, i);
    }
    forall i: nat | i < |after|
      ensures Numbered(after, i)
    {
      assert Numbered(phases, i) && after[..i] == phases[..i];
    }
    forall i: nat | i < k
      ensures !after[i].open
    {
      assert Adjacent(phases, i);
    }
  }

  lemma PhaseStarted(phases: seq<Phase>, p: Phase)
    requires Ledger(phases) && AllClosed(phases)
    requires phases != [] ==> phases[|phases| - 1].name != p.name
    requires p.iteration == 1 + CountNamed(phases, p.name)
    ensures Ledger(phases + [p])
  {
    var after := phases + [p];
    forall i: nat | i + 1 < |after|
      ensures Adjacent(after, i)
    {
      if i + 1 < |phases| {
        assert Adjacent(phases, i);
      }
    }
    forall i: nat | i < |after|
      ensures Numbered(after, i)
    {
      assert after[..i] == phases[..i];
      if i < |phases| {
        assert Numbered(phases, i);
      } else {
        assert phases[..i] == phases;
      }
    }
  }

  lemma EndedLedger(s: Store, key: string, status: TaskStatus)
    requires Ledger(s.phases) && LastOpen(s.phases)
    ensures var phases := EndPhase(s, key, |s.phases| - 1, status).phases;
      && Ledger(phases) && AllClosed(phases) && phases != []
      && phases[|phases| - 1].name == s.phases[|s.phases| - 1].name
  {
    var k := |s.phases| - 1;
    LastReplaced(s.phases, s.phases[k].(status := status, open := false));
  }

  lemma StartedLedger(s: Store, key: string, status: TaskStatus)
    requires Ledger(s.phases) && AllClosed(s.phases)
    requires s.phases != [] ==> s.phases[|s.phases| - 1].name != s.run.uiPhase
    ensures PhaseShown(StartPhase(s, key, status), status)
  {
    PhaseStarted(s.phases, Phase(s.run.uiPhase, 1 + CountNamed(s.phases, s.run.uiPhase), status, true));
  }

  ghost predicate PhaseShown(s: Store, status: TaskStatus) {
    && Ledger(s.phases) && LastOpen(s.phases)
    && s.phases[|s.phases| - 1].name == s.run.uiPhase && s.phases[|s.phases| - 1].status == status
  }

  /** `update_phase` keeps the ledger; afterwards the newest phase is open under the run's phase name, or all are closed. */
  lemma UpdatePhaseLedger(s: Store, key: string, status: TaskStatus, terminal: bool)
    requires Ledger(s.phases) && (s.phases == [] || LastOpen(s.phases))
    ensures var t := UpdatePhase(s, key, status, terminal);
      if terminal then Ledger(t.phases) && AllClosed(t.phases) else PhaseShown(t, status)
  {
    var k := |s.phases| - 1;
    if s.phases == [] {
      StartedLedger(s, key, status);
    } else if terminal {
      EndedLedger(s, key, status);
    } else if s.phases[k].name != s.run.uiPhase {
      EndedLedger(s, key, Succeeded);
      StartedLedger(EndPhase(s, key, k, Succeeded), key, status);
    } else {
      LastReplaced(s.phases, s.phases[k].(status := status));
    }
  }

  /** While a run lives exactly its newest phase is open, named and marked as its state says; afterwards none is. */
  ghost predicate PhasesSound(s: Store) {
    && Ledger(s.phases)
    && if Terminal(s.run.state) then AllClosed(s.phases)
       else if s.phases == [] then s.run.state == Received
       else LastOpen(s.phases) && s.phases[|s.phases| - 1].name == s.run.uiPhase
            && s.phases[|s.phases| - 1].status == PhaseStatusFor(s.run.state)
  }

  lemma MovePhases(s: Store, target: RunState, key: string)
    requires PhasesSound(s) && !Terminal(s.run.state)
    ensures PhasesSound(Move(s, target, key))
  {
    var s1 := if Terminal(target) then CancelPending(s, key) else s;
    CancelPendingOnlyWork(s, key);
    var s3 := SetActor(Emit(s1.(run := MoveRun(s1.run, target)), Moved(key, s1.run.state, target)), ByRun(key), ActorFor(target));
    UpdatePhaseLedger(s3, key, PhaseStatusFor(target), Terminal(target));
    MoveFrame(s, target, key);
  }

  lemma PhasesKept(s: Store, t: Store)
    requires PhasesSound(s) && SuspensionSound(s) && Step(s, t)
    ensures PhasesSound(t)
  {
    if !Steady(s, t) && !NewPlan(s, t) {
      var target, key :| Transition(s, t, target, key);
      MovePhases(s, target, key);
    }
  }

  // ---------------------------------------------------------------------------------
  // The end of a run

  /** A run that has ended has no active attempt and no pending or ready task. */
  ghost predicate EndSound(s: Store) { Terminal(s.run.state) ==> !AnyActive(s.attempts) && PlanSettled(s) }

  lemma MoveEnds(s: Store, target: RunState, key: string)
    requires PlansRecorded(s) && Terminal(target)
    ensures EndSound(Move(s, target, key))
  {
    CancelPendingOnlyWork(s, key);
    CancelPendingSettles(s, key);
    var s1 := CancelPending(s, key);
    var s3 := SetActor(Emit(s1.(run := MoveRun(s1.run, target)), Moved(key, s1.run.state, target)), ByRun(key), ActorFor(target));
    UpdatePhaseFrame(s3, key, PhaseStatusFor(target), true);
  }

  lemma EndKept(s: Store, t: Store)
    requires PlansRecorded(s) && EndSound(s) && Step(s, t)
    ensures EndSound(t)
  {
    if !Steady(s, t) && !NewPlan(s, t) {
      var target, key :| Transition(s, t, target, key);
      MoveFrame(s, target, key);
      if Terminal(target) {
        MoveEnds(s, target, key);
      }
    }
  }

  // ---------------------------------------------------------------------------------
  // Approval

  predicate Builds(state: RunState) { state in {Executing, Integrating, Testing} }

  ghost predicate PlanApproved(s: Store) {
    s.run.planVersion in s.plans && (Requires(s, PlanStage) ==> StatusOf(s, PlanRequest(s)) == Approved)
  }

  /** While a run is building, or suspended from building, its exact plan stands approved if plans are gated. */
  ghost predicate ApprovalSound(s: Store) { Builds(ResumePoint(s.events)) ==> PlanApproved(s) }

  lemma ApprovedStill(s: Store, t: Store)
    requires PlansRecorded(s) && PlanApproved(s) && Follows(s, t)
    requires t.run.planVersion == s.run.planVersion && t.plans == s.plans && t.policy == s.policy
    ensures PlanApproved(t) && PlanRequest(t) == PlanRequest(s)
  {
    SubjectStable(s, t, s.run.planVersion);
  }

  /** No transition into EXECUTING is admitted without approval of the exact current plan, when plans are gated. */
  lemma ExecutingGuarded(s: Store)
    requires Guard(s, Executing).reply.Ok?
    ensures PlanForGoal(s) && PlanApproved(s)
  {
    if PlanForGoal(s) {
      RequireApprovalOnly(s, PlanRequest(s));
    }
  }

  lemma BuildingGoesOn(s: Store, target: RunState)
    requires SuspensionSound(s) && ValidTransition(s.run.state, target, s.run.resumeState)
    requires target in {Integrating, Testing}
    ensures Builds(ResumePoint(s.events))
  {
  }

  lemma TransitionApproved(s: Store, t: Store, target: RunState, key: string)
    requires PlansRecorded(s) && Follows(s, t) && SuspensionSound(s) && ApprovalSound(s) && Transition(s, t, target, key)
    ensures ApprovalSound(t)
  {
    MoveFrame(s, target, key);
    ResumePointGains(s.events, t.events, Moved(key, s.run.state, target));
    if Builds(ResumePoint(t.events)) {
      if target == Executing {
        ExecutingGuarded(s);
      } else if !Suspended(target) {
        BuildingGoesOn(s, target);
      }
      ApprovedStill(s, t);
    }
  }

  lemma ApprovalKept(s: Store, t: Store)
    requires PlansRecorded(s) && SuspensionSound(s) && ApprovalSound(s) && Step(s, t)
    ensures ApprovalSound(t)
  {
    if Steady(s, t) {
      ResumePointAppended(s.events, t.events);
      if Builds(ResumePoint(s.events)) {
        ApprovedStill(s, t);
      }
    } else if NewPlan(s, t) {
      SuspensionKept(s, t);
      if Appended(s.events, t.events) {
        ResumePointAppended(s.events, t.events);
      }
    } else {
      var target, key :| Transition(s, t, target, key);
      TransitionApproved(s, t, target, key);
    }
  }

  // ---------------------------------------------------------------------------------
  // Every reachable state

  ghost predicate Sound(s: Store) {
    PlansRecorded(s) && SuspensionSound(s) && PhasesSound(s) && EndSound(s) && ApprovalSound(s)
  }

  lemma SoundKept(s: Store, c: Command)
    requires Sound(s)
    ensures Sound(Apply(s, c)) && Step(s, Apply(s, c))
  {
    var t := Apply(s, c);
    ApplyStep(s, c);
    SuspensionKept(s, t);
    PhasesKept(s, t);
    EndKept(s, t);
    ApprovalKept(s, t);
  }

  /** Every reachable state is sound. */
  lemma {:induction false} AlwaysSound(commands: seq<Command>)
    ensures Sound(After(commands))
  {
    if commands != [] {
      AlwaysSound(commands[..|commands| - 1]);
      SoundKept(After(commands[..|commands| - 1]), commands[|commands| - 1]);
    }
  }

  /** What a longer run never takes back. */
  lemma {:induction false} LaterFollows(commands: seq<Command>, n: nat)
    requires n <= |commands|
    ensures Follows(After(commands[..n]), After(commands))
  {
    if n == |commands| {
      assert commands[..n] == commands;
    } else {
      var shorter := commands[..|commands| - 1];
      assert shorter[..n] == commands[..n];
      LaterFollows(shorter, n);
      AlwaysSound(shorter);
      SoundKept(After(shorter), commands[|commands| - 1]);
      FollowsTransitive(After(commands[..n]), After(shorter), After(commands));
    }
  }
}
