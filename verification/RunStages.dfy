/** No stage is skipped: what a run has been through when it reaches a state. */
module RunStages {
  import opened Collections
  import opened RunStates
  import opened Plans
  import opened RunStore
  import opened RunFrames
  import opened RunHistory
  import opened RunSteps
  import opened RunSafety
  import opened RunTheorems

  /** The stages of a run in order; repair planning follows a review, pushing a commit. */
  const PATH := [Received, ContextSync, Analyzing, GoalDefined, Planned, Executing, Integrating, Testing, Reviewing, ChangeGuard,
                 Documenting, DeliveryValidation, Committing, MemoryFinalization, Completed]

  /** How many stages come before a state. */
  function StagesBefore(state: RunState): nat {
    match state
    case Received => 0
    case ContextSync => 1
    case Analyzing => 2
    case GoalDefined => 3
    case Planned => 4
    case Executing => 5
    case Integrating => 6
    case Testing => 7
    case Reviewing => 8
    case RepairPlanning => 9
    case ChangeGuard => 9
    case Documenting => 10
    case DeliveryValidation => 11
    case Committing => 12
    case Pushing => 13
    case MemoryFinalization => 13
    case Completed => 14
    case _ => 0
  }

  lemma PathInOrder(k: nat)
    requires k < |PATH|
    ensures StagesBefore(PATH[k]) == k
  {
  }

  /** To repair and back, and by way of pushing. */
  predicate SideStep(previous: RunState, target: RunState) {
    || (target.RepairPlanning? && (previous.Reviewing? || previous.ChangeGuard?)) || (previous.RepairPlanning? && target.Executing?)
    || (previous.Committing? && target.Pushing?) || (previous.Pushing? && target.MemoryFinalization?)
  }

  ghost predicate OneOn(previous: RunState, target: RunState) {
    exists k :: 0 <= k < |PATH| - 1 && PATH[k] == previous && PATH[k + 1] == target
  }

  /** A run that has not ended may always stop or be suspended, anew or otherwise; a suspended one may go back to its
      resume point only, and any other one step along the path. */
  lemma TransitionsExactly(previous: RunState, target: RunState, resumeState: Option<RunState>)
    ensures ValidTransition(previous, target, resumeState) <==>
      && previous !in {Completed, FailedRun, CancelledRun}
      && if target in {CancelledRun, FailedRun, Paused, BlockedRun, HumanReviewRequired} then previous != target
         else if previous in {Paused, BlockedRun, HumanReviewRequired} then resumeState == Some(target)
         else OneOn(previous, target) || SideStep(previous, target)
  {
    SuccessorsExactly(previous, target);
  }

  lemma PathSuccessor(k: nat)
    requires k < |PATH| - 1
    ensures PATH[k + 1] in Successors(PATH[k])
  {
  }

  lemma SuccessorOnPath(previous: RunState, target: RunState)
    requires target in Successors(previous) && !SideStep(previous, target)
    ensures OneOn(previous, target)
  {
    var k := StagesBefore(previous);
    assert k < |PATH| - 1 && PATH[k] == previous && PATH[k + 1] == target;
  }

  lemma SideStepFollows(previous: RunState, target: RunState)
    requires SideStep(previous, target)
    ensures target in Successors(previous)
  {
  }

  lemma SuccessorsExactly(previous: RunState, target: RunState)
    ensures target in Successors(previous) <==> OneOn(previous, target) || SideStep(previous, target)
  {
    if OneOn(previous, target) {
      var k :| 0 <= k < |PATH| - 1 && PATH[k] == previous && PATH[k + 1] == target;
      PathSuccessor(k);
    } else if SideStep(previous, target) {
      SideStepFollows(previous, target);
    } else if target in Successors(previous) {
      SuccessorOnPath(previous, target);
    }
  }

  /** The run was in this state after some of the commands. */
  ghost predicate Visited(commands: seq<Command>, state: RunState) {
    exists n: nat :: n <= |commands| && StateAfter(commands, n) == state
  }

  ghost predicate VisitedUpTo(commands: seq<Command>, n: nat)
    requires n <= |PATH|
  {
    forall k :: 0 <= k < n ==> Visited(commands, PATH[k])
  }

  lemma VisitedLonger(commands: seq<Command>, n: nat)
    requires commands != [] && n <= |PATH| && VisitedUpTo(commands[..|commands| - 1], n)
    ensures VisitedUpTo(commands, n)
  {
    forall k | 0 <= k < n
      ensures Visited(commands, PATH[k])
    {
      var m: nat :| m <= |commands| - 1 && StateAfter(commands[..|commands| - 1], m) == PATH[k];
      ShorterState(commands, m);
    }
  }

  lemma VisitedNow(commands: seq<Command>)
    ensures Visited(commands, After(commands).run.state)
  {
    assert commands[..|commands|] == commands;
    assert StateAfter(commands, |commands|) == After(commands).run.state;
  }

  /** The stages a run has been through up to where the log says it goes on; there is a plan from PLANNED on. */
  ghost predicate PathSound(commands: seq<Command>, s: Store) {
    && VisitedUpTo(commands, StagesBefore(ResumePoint(s.events)))
    && (s.run.planVersion in s.plans ==> VisitedUpTo(commands, 4))
    && (StagesBefore(ResumePoint(s.events)) >= 4 ==> s.run.planVersion in s.plans)
  }

  lemma OneStageOn(previous: RunState, target: RunState)
    requires target in Successors(previous)
    ensures StagesBefore(target) <= StagesBefore(previous) || (StagesBefore(target) == StagesBefore(previous) + 1
                                                             && PATH[StagesBefore(previous)] == previous)
    ensures StagesBefore(target) >= 4 && StagesBefore(previous) < 4 ==> target == Planned
  {
  }

  lemma OneStageFurther(commands: seq<Command>, n: nat)
    requires commands != [] && n < |PATH| && VisitedUpTo(commands[..|commands| - 1], n)
    requires After(commands[..|commands| - 1]).run.state == PATH[n]
    ensures VisitedUpTo(commands, n + 1)
  {
    VisitedLonger(commands, n);
    VisitedNow(commands[..|commands| - 1]);
    var m: nat :| m <= |commands| - 1 && StateAfter(commands[..|commands| - 1], m) == PATH[n];
    ShorterState(commands, m);
    assert Visited(commands, PATH[n]);
  }

  /** Where a transition leads: to a suspension, an end, back to the point it resumes from, or to a successor. */
  ghost predicate Leads(s: Store, t: Store, p: RunState, q: RunState) {
    && t.plans == s.plans && t.run.planVersion == s.run.planVersion
    && (q == p || StagesBefore(q) == 0 || (s.run.state == p && q in Successors(p)))
    && (q == Planned ==> q == p || s.run.planVersion in s.plans)
  }

  lemma TransitionLeads(s: Store, t: Store, target: RunState, key: string)
    requires SuspensionSound(s) && Transition(s, t, target, key)
    ensures Leads(s, t, ResumePoint(s.events), ResumePoint(t.events))
  {
    MoveFrame(s, target, key);
    ResumePointGains(s.events, t.events, Moved(key, s.run.state, target));
    PlannedGuarded(s, target);
  }

  lemma PlannedGuarded(s: Store, target: RunState)
    requires Guard(s, target).reply.Ok?
    ensures target == Planned ==> s.run.planVersion in s.plans
  {
  }

  lemma PathGoesOn(commands: seq<Command>, p: RunState, q: RunState)
    requires commands != [] && VisitedUpTo(commands[..|commands| - 1], StagesBefore(p))
    requires q == p || StagesBefore(q) == 0 || (After(commands[..|commands| - 1]).run.state == p && q in Successors(p))
    ensures VisitedUpTo(commands, StagesBefore(q))
  {
    VisitedLonger(commands, StagesBefore(p));
    if q != p && StagesBefore(q) > 0 {
      OneStageOn(p, q);
      SuccessorVisited(commands, p, q);
    }
  }

  lemma SuccessorVisited(commands: seq<Command>, p: RunState, q: RunState)
    requires commands != [] && VisitedUpTo(commands[..|commands| - 1], StagesBefore(p)) && VisitedUpTo(commands, StagesBefore(p))
    requires After(commands[..|commands| - 1]).run.state == p
    requires StagesBefore(q) <= StagesBefore(p) || (StagesBefore(q) == StagesBefore(p) + 1 && PATH[StagesBefore(p)] == p)
    ensures VisitedUpTo(commands, StagesBefore(q))
  {
    if StagesBefore(q) > StagesBefore(p) {
      OneStageFurther(commands, StagesBefore(p));
    }
  }

  lemma PlanHeld(s: Store, t: Store, p: RunState, q: RunState)
    requires Leads(s, t, p, q) && (StagesBefore(p) >= 4 ==> s.run.planVersion in s.plans)
    ensures StagesBefore(q) >= 4 ==> t.run.planVersion in t.plans
  {
    if q in Successors(p) {
      OneStageOn(p, q);
    }
  }

  lemma PathAfterTransition(commands: seq<Command>, s: Store, t: Store, target: RunState, key: string)
    requires commands != [] && s == After(commands[..|commands| - 1])
    requires PathSound(commands[..|commands| - 1], s) && SuspensionSound(s) && Transition(s, t, target, key)
    ensures PathSound(commands, t)
  {
    TransitionLeads(s, t, target, key);
    PathGoesOn(commands, ResumePoint(s.events), ResumePoint(t.events));
    PlanHeld(s, t, ResumePoint(s.events), ResumePoint(t.events));
    if s.run.planVersion in s.plans {
      VisitedLonger(commands, 4);
    }
  }

  /** Without a transition the run goes on where it would have, or in PLANNED once there is another plan. */
  lemma PointOtherwise(s: Store, t: Store)
    requires Steady(s, t) || NewPlan(s, t)
    ensures ResumePoint(t.events) == ResumePoint(s.events) || (ResumePoint(t.events) == Planned && NewPlan(s, t))
  {
    if Appended(s.events, t.events) {
      ResumePointAppended(s.events, t.events);
    } else {
      var key, version :| LogGains(s.events, t.events, PlanRevised(key, version, true));
      ResumePointGains(s.events, t.events, PlanRevised(key, version, true));
    }
  }

  lemma PlanMeansDefined(commands: seq<Command>, s: Store)
    requires commands != [] && s == After(commands[..|commands| - 1]) && PathSound(commands[..|commands| - 1], s)
    requires s.run.planVersion in s.plans || (s.run.state == GoalDefined && ResumePoint(s.events) == GoalDefined)
    ensures VisitedUpTo(commands, 4)
  {
    if s.run.planVersion in s.plans {
      VisitedLonger(commands, 4);
    } else {
      OneStageFurther(commands, 3);
    }
  }

  /** The first plan comes when the goal is defined. */
  lemma FirstPlan(s: Store, t: Store)
    requires Steady(s, t) || NewPlan(s, t)
    requires t.run.planVersion in t.plans
    ensures s.run.planVersion in s.plans || s.run.state == GoalDefined
  {
  }

  /** What a step that is no transition means for the path. */
  ghost predicate StaysOnPath(s: Store, t: Store) {
    && (t.run.planVersion in t.plans ==>
          s.run.planVersion in s.plans || (s.run.state == GoalDefined && ResumePoint(s.events) == GoalDefined))
    && (s.run.planVersion in s.plans ==> t.run.planVersion in t.plans)
    && (ResumePoint(t.events) == ResumePoint(s.events) || (ResumePoint(t.events) == Planned && t.run.planVersion in t.plans))
  }

  lemma StepStaysOnPath(s: Store, t: Store)
    requires SuspensionSound(s) && (Steady(s, t) || NewPlan(s, t))
    ensures StaysOnPath(s, t)
  {
    PointOtherwise(s, t);
    PointIsState(s);
    if t.run.planVersion in t.plans {
      FirstPlan(s, t);
    }
  }

  lemma PathOtherwise(commands: seq<Command>, s: Store, t: Store)
    requires commands != [] && s == After(commands[..|commands| - 1])
    requires PathSound(commands[..|commands| - 1], s) && StaysOnPath(s, t)
    ensures PathSound(commands, t)
  {
    if t.run.planVersion in t.plans {
      PlanMeansDefined(commands, s);
    }
    VisitedLonger(commands, StagesBefore(ResumePoint(s.events)));
  }

  lemma {:induction false} AlwaysOnPath(commands: seq<Command>)
    ensures PathSound(commands, After(commands))
  {
    if commands != [] {
      var shorter := commands[..|commands| - 1];
      var s, t := After(shorter), After(commands);
      AlwaysOnPath(shorter);
      AlwaysSound(shorter);
      SoundKept(s, commands[|commands| - 1]);
      if Steady(s, t) || NewPlan(s, t) {
        StepStaysOnPath(s, t);
        PathOtherwise(commands, s, t);
      } else {
        var target, key :| Transition(s, t, target, key);
        PathAfterTransition(commands, s, t, target, key);
      }
    } else {
      assert StagesBefore(ResumePoint([])) == 0;
    }
  }

  /** Whatever commands a run receives, it has been in every earlier stage when it is in a state, and it has a plan
      from PLANNED on. */
  lemma NoStageSkipped(commands: seq<Command>, k: nat)
    requires k < StagesBefore(After(commands).run.state)
    ensures Visited(commands, PATH[k])
    ensures StagesBefore(After(commands).run.state) >= 4 ==> After(commands).run.planVersion in After(commands).plans
  {
    AlwaysOnPath(commands);
    AlwaysSound(commands);
    BeenThere(commands, After(commands), k);
  }

  lemma BeenThere(commands: seq<Command>, s: Store, k: nat)
    requires PathSound(commands, s) && SuspensionSound(s) && k < StagesBefore(s.run.state)
    ensures Visited(commands, PATH[k])
    ensures StagesBefore(s.run.state) >= 4 ==> s.run.planVersion in s.plans
  {
    PointIsState(s);
  }

  lemma PointIsState(s: Store)
    requires SuspensionSound(s)
    ensures StagesBefore(s.run.state) > 0 ==> ResumePoint(s.events) == s.run.state
  {
  }
}
