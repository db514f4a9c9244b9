/** One concrete delivery in which a step acts outside its own run state. */
module DeliveryExample {
  import opened Collections
  import opened RunStates
  import opened Plans
  import opened RunStore
  import opened Delivery
  import opened DeliverySafety
  import opened DeliveryCompletion

  const GOAL := Random(0)
  const ACCEPTED := RunStore.Review(Random(1), true, Some(GOAL), 1, "tree")
  const POLICY := DeliveryPolicy("policy", None, false)
  const BINDING := Binding(POLICY, None)
  const REPORT := Report(Implementation, true, "tree", map[])
  const WORLD := World(REPORT, Validation(true, Some(GOAL), "tree"), "sha", true)

  const RUN := Run(Reviewing, ReviewPhase, None, 1, Some(GOAL), true, false)
  const RECORDS := DeliveryRecords([ACCEPTED], [], false, [], None, false, None)
  const START := State(RUN, Surroundings(map[GOAL := Goal(1, "goal", [])], [Succeeded], []), None, {}, map[], RECORDS, [], [], {}, None)
  const REQUEST := RequestId(DeliveryStage, 1, OfDelivery(Some(GOAL), 1, Random(1), "tree", POLICY))

  function At(s: State, at: Position): State { s.(driver := Some(Driver(POLICY, at))) }

  /** Authorized and installed, the run in CHANGE_GUARD and the first step at work. */
  const BOUND := START.(records := RECORDS.(binding := Some(BINDING)))
  const INSTALLED := BOUND.(steps := FRESH_STEPS)
  const GUARDED := INSTALLED.(run := MoveRun(RUN, ChangeGuard), keys := {ChangeGuard})
  const WORKING := GUARDED.(attempts := [StepAttempt(0, Running)], steps := [Running] + FRESH_STEPS[1..])
  /** The inspection is recorded, the call is lost, and somebody else takes the run on to DOCUMENTING. */
  const INSPECTED := WORKING.(records := WORKING.records.(reports := [REPORT]))
  const MOVED_ON := INSPECTED.(run := MoveRun(INSPECTED.run, Documenting))

  const ACTIONS: seq<Action> := [
    Call(POLICY), Proceed(WORLD), Proceed(WORLD), Proceed(WORLD), Proceed(WORLD), Proceed(WORLD), Proceed(WORLD), Proceed(WORLD),
    Crash, Steer(Documenting), Call(POLICY), Proceed(WORLD), Proceed(WORLD), Proceed(WORLD), Proceed(WORLD)]

  const STATES: seq<State> := [
    START, At(START, Opening(REQUEST)), At(START, Authorized(None)), At(BOUND, Installing), At(INSTALLED, Loop(0)),
    At(INSTALLED, Admitted(0, Reviewing)), At(GUARDED, Starting(0)), At(WORKING, Acting(0, 0)),
    At(INSPECTED, Inspected(0, 0, REPORT)), INSPECTED, MOVED_ON, At(MOVED_ON, Installing), At(MOVED_ON, Loop(0)),
    At(MOVED_ON, Admitted(0, Documenting)), At(MOVED_ON, Starting(0)), At(MOVED_ON, Acting(0, 0))]

  lemma Opens(i: nat)
    requires i < 4
    ensures Next(STATES[i], ACTIONS[i]) == STATES[i + 1]
  {
  }

  lemma Visits()
    ensures Next(STATES[4], ACTIONS[4]) == STATES[5]
  {
  }

  lemma Enters()
    ensures Next(STATES[5], ACTIONS[5]) == STATES[6]
  {
  }

  lemma Works(i: nat)
    requires 6 <= i < 8
    ensures Next(STATES[i], ACTIONS[i]) == STATES[i + 1]
  {
  }

  lemma MovesOn(i: nat)
    requires 8 <= i < 11
    ensures Next(STATES[i], ACTIONS[i]) == STATES[i + 1]
  {
    assert LastReport([REPORT], Implementation) == Some(REPORT);
  }

  lemma WorksAgain(i: nat)
    requires 11 <= i < 15
    ensures Next(STATES[i], ACTIONS[i]) == STATES[i + 1]
  {
  }

  lemma Follows(i: nat)
    requires i < |ACTIONS|
    ensures Next(STATES[i], ACTIONS[i]) == STATES[i + 1]
  {
    if i < 4 {
      Opens(i);
    } else if i == 4 {
      Visits();
    } else if i == 5 {
      Enters();
    } else if i < 8 {
      Works(i);
    } else if i < 11 {
      MovesOn(i);
    } else {
      WorksAgain(i);
    }
  }

  lemma OneMore(i: nat)
    requires i < |ACTIONS|
    ensures After(START, ACTIONS[..i + 1]) == Next(After(START, ACTIONS[..i]), ACTIONS[i])
  {
    assert ACTIONS[..i + 1] == ACTIONS[..i] + [ACTIONS[i]];
    AfterOne(START, ACTIONS[..i], ACTIONS[i]);
  }

  lemma {:induction false} Reaches(i: nat)
    requires i <= |ACTIONS|
    ensures After(START, ACTIONS[..i]) == STATES[i]
  {
    if i > 0 {
      Reaches(i - 1);
      OneMore(i - 1);
      Follows(i - 1);
    }
  }

  /** The first step acts in DOCUMENTING: the run has left CHANGE_GUARD, and the repeated key does not bring it back. */
  lemma ActsOutside()
    ensures Undelivered(START)
    ensures var s := After(START, ACTIONS); ActsOn(s, IMPLEMENTATION) && s.run.state == Documenting
    ensures Documenting !in Home(IMPLEMENTATION)
    ensures EnterOnce(MOVED_ON, ChangeGuard) == Some(MOVED_ON)
  {
    assert ACTIONS[..15] == ACTIONS;
    Reaches(15);
  }

  /** A run that can be delivered, and a world that cooperates: nothing here stops at a step. */
  const CASE := Case(START, POLICY, REPORT, REPORT, WORLD.validation)

  lemma Delivers()
    ensures Deliverable(CASE)
    ensures Drive(Begin(START, POLICY), _ => WORLD).run.state == Completed
  {
    assert RequiredCriteriaPass(RUN.goal, START.around.goals);
    DeliversAccepted(CASE, _ => WORLD);
  }
}
