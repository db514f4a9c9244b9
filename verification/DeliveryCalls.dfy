/** A `finalize` call always ends; and the loops of `DeliveryCoordinator` over attempts, tasks and report paths. */
module DeliveryCalls {
  import opened Collections
  import opened RunStates
  import opened Plans
  import opened RunStore
  import opened Delivery
  import opened DeliverySafety

  /** How far a call still has to go. */
  function Remaining(at: Position): int {
    match at
    case Opening(_) => 103
    case Authorized(_) => 102
    case Installing => 101
    case Loop(k) => 16 * (STEP_COUNT - k) + 4
    case Admitted(k, _) => 16 * (STEP_COUNT - k) + 3
    case Starting(k) => 16 * (STEP_COUNT - k) + 2
    case Acting(k, _) => 16 * (STEP_COUNT - k) + 1
    case Inspected(k, _, _) => 16 * (STEP_COUNT - k)
    case Publishing(_, _) => 16 * (STEP_COUNT - GIT)
    case Sending(_) => 16 * (STEP_COUNT - GIT) - 1
    case Acted(k, _) => 16 * (STEP_COUNT - k) - 2
    case Failing(k, _) => 2
    case Blocking(_) => 1
  }

  predicate Advances(s: State, t: State)
    requires s.driver.Some?
  {
    t.driver.Some? ==> 0 <= Remaining(t.driver.value.at) < Remaining(s.driver.value.at)
  }

  lemma ActAdvances(s: State, k: nat, a: nat, world: World)
    requires Sound(s) && s.driver.Some? && s.driver.value.at == Acting(k, a)
    ensures Advances(s, Act(s, k, a, world))
  {
  }

  lemma VisitAdvances(s: State, k: nat)
    requires Sound(s) && s.driver.Some? && s.driver.value.at == Loop(k)
    ensures Advances(s, Visit(s, k))
  {
  }

  lemma MoveToAdvances(s: State, k: nat, seen: RunState)
    requires Sound(s) && s.driver.Some? && s.driver.value.at == Admitted(k, seen)
    ensures Advances(s, MoveTo(s, k, seen))
  {
  }

  lemma TakeUpAdvances(s: State, k: nat)
    requires Sound(s) && s.driver.Some? && s.driver.value.at == Starting(k)
    ensures Advances(s, TakeUp(s, k))
  {
  }

  lemma PublishAdvances(s: State, a: nat, seen: RunState)
    requires Sound(s) && s.driver.Some? && s.driver.value.at == Publishing(a, seen)
    ensures Advances(s, PublishWork(s, a, seen))
  {
  }

  lemma SucceedAdvances(s: State, k: nat, a: nat)
    requires Sound(s) && s.driver.Some? && s.driver.value.at == Acted(k, a)
    ensures Advances(s, Succeed(s, k, a))
  {
  }

  lemma BlockAdvances(s: State, k: nat, a: nat)
    requires Sound(s) && s.driver.Some? && s.driver.value.at == Failing(k, a)
    ensures Advances(s, Block(s, a))
  {
  }

  lemma BeginningAdvances(s: State, id: RequestId, request: Option<RequestId>)
    requires Sound(s) && s.driver.Some?
    ensures s.driver.value.at == Opening(id) ==> Advances(s, Authorize(s, id))
    ensures s.driver.value.at == Authorized(request) ==> Advances(s, Bind(s, request))
    ensures s.driver.value.at == Installing ==> Advances(s, Install(s))
  {
  }

  lemma ResultAdvances(s: State, k: nat, a: nat, report: Report, world: World)
    requires Sound(s) && s.driver.Some?
    ensures s.driver.value.at == Inspected(k, a, report) ==> Advances(s, CheckInspection(s, k, a, report))
    ensures s.driver.value.at == Sending(a) ==> Advances(s, Send(s, a, world))
  {
  }

  /** Every transaction brings the call nearer to its end. */
  lemma ContinueAdvances(s: State, world: World)
    requires Sound(s) && s.driver.Some?
    ensures Advances(s, Continue(s, world))
  {
    match s.driver.value.at
    case Opening(id) => BeginningAdvances(s, id, None);
    case Authorized(request) => BeginningAdvances(s, RequestId(DeliveryStage, 0, OfOther("")), request);
    case Installing => BeginningAdvances(s, RequestId(DeliveryStage, 0, OfOther("")), None);
    case Loop(k) => VisitAdvances(s, k);
    case Admitted(k, seen) => MoveToAdvances(s, k, seen);
    case Starting(k) => TakeUpAdvances(s, k);
    case Acting(k, a) => ActAdvances(s, k, a, world);
    case Inspected(k, a, report) => ResultAdvances(s, k, a, report, world);
    case Publishing(a, seen) => PublishAdvances(s, a, seen);
    case Sending(a) => ResultAdvances(s, GIT, a, world.report, world);
    case Acted(k, a) => SucceedAdvances(s, k, a);
    case Failing(k, a) => BlockAdvances(s, k, a);
    case Blocking(a) =>
  }

  class DeliveryCoordinator {
    var state: State

    constructor (state: State)
      ensures this.state == state
    {
      this.state := state;
    }

    /** A transition of the run.  Its end cancels, attempt by attempt and task by task, what is still active or pending. */
    method EnterState(target: RunState)
      modifies this
      ensures state == Enter(old(state), target)
    {
      ghost var s := state;
      if Terminal(target) {
        var steps, attempts := state.steps, state.attempts;
        for i := 0 to |attempts|
          invariant |attempts| == |s.attempts| && state == s
          invariant forall j :: 0 <= j < i ==> attempts[j] == Cancel(s).attempts[j]
          invariant forall j :: i <= j < |attempts| ==> attempts[j] == s.attempts[j]
        {
          if ActiveAttempt(attempts[i].status) {
            attempts := attempts[i := attempts[i].(status := Cancelled)];
          }
        }
        for k := 0 to |steps|
          invariant |steps| == |s.steps| && state == s
          invariant forall j :: 0 <= j < k ==> steps[j] == Cancel(s).steps[j]
          invariant forall j :: k <= j < |steps| ==> steps[j] == s.steps[j]
        {
          if steps[k] in {Pending, Ready} || ActiveOn(state.attempts, k) {
            steps := steps[k := Cancelled];
          }
        }
        assert steps == Cancel(s).steps && attempts == Cancel(s).attempts;
        state := state.(steps := steps, attempts := attempts);
      }
      state := state.(run := MoveRun(state.run, target));
    }

    /** `_check_report`, comparing path by path. */
    method CheckReport(report: Report, policy: DeliveryPolicy) returns (holds: bool)
      ensures holds <==> ReportHolds(state.records, report, policy)
    {
      var r := state.records;
      if !report.passed {
        return false;
      }
      if report.checkpoint == Implementation {
        return r.reviews != [] && report.tree == r.reviews[|r.reviews| - 1].tree;
      }
      var accepted := LastReport(r.reports, Implementation);
      if accepted.None? {
        return false;
      }
      var same := SameOutside(accepted.value.changes, report.changes, policy.documentationPath);
      if !same {
        return false;
      }
      return r.validations != [] && r.validations[|r.validations| - 1].tree == report.tree;
    }
  }

  method SameOutside(accepted: map<string, Option<string>>, final: map<string, Option<string>>, exempt: Option<string>)
    returns (same: bool)
    ensures same <==> Agrees(accepted, final, exempt)
  {
    var paths := accepted.Keys + final.Keys;
    while paths != {}
      invariant paths <= accepted.Keys + final.Keys
      invariant forall path :: path in accepted.Keys + final.Keys && path !in paths ==>
        Some(path) == exempt || Get(accepted, path) == Get(final, path)
      decreases |paths|
    {
      var path :| path in paths;
      if Some(path) != exempt && Get(accepted, path) != Get(final, path) {
        return false;
      }
      paths := paths - {path};
    }
    return true;
  }
}
