/** The operator's authorization of a delivery, and the reports it rests on. */
module DeliveryApproval {
  import opened Collections
  import opened RunStates
  import opened Plans
  import opened RunStore
  import opened Delivery
  import opened DeliverySafety

  // ---------------------------------------------------------------------------------
  // Approval

  /** The run gates DELIVERY. */
  predicate Gated(s: State) { Requires(AsStore(s), DeliveryStage) }

  /** The request is for the delivery of exactly this policy. */
  predicate Asks(id: RequestId, policy: DeliveryPolicy) {
    id.stage == DeliveryStage && id.digest.OfDelivery? && id.digest.policy == policy
  }

  /** That request is on record and approved. */
  predicate Authorizes(s: State, id: RequestId, policy: DeliveryPolicy) {
    Asks(id, policy) && id in s.requests && StatusOf(AsStore(s), id) == Approved
  }

  /** In a gated run a policy is bound only with an approved request for it, and a call goes on to bind one only then. */
  predicate ApprovalSound(s: State) {
    && (s.records.binding.Some? && Gated(s) ==>
          var binding := s.records.binding.value;
          binding.request.Some? && Authorizes(s, binding.request.value, binding.policy))
    && (s.driver.Some? && s.driver.value.at.Opening? ==> Asks(s.driver.value.at.request, s.driver.value.policy))
    && (s.driver.Some? && s.driver.value.at.Authorized? && Gated(s) ==>
          var approved := s.driver.value.at.approved;
          approved.Some? && Authorizes(s, approved.value, s.driver.value.policy))
  }

  /** Requests and decisions stay, and so does what they authorize. */
  predicate KeepsApprovals(s: State, t: State) {
    && t.policy == s.policy && s.requests <= t.requests
    && forall id :: id in s.decisions ==> id in t.decisions && t.decisions[id] == s.decisions[id]
  }

  lemma AuthorizesStill(s: State, t: State)
    requires KeepsApprovals(s, t)
    ensures Gated(t) <==> Gated(s)
    ensures forall id, policy :: Authorizes(s, id, policy) ==> Authorizes(t, id, policy)
  {
  }

  /** Neither a binding nor a pending authorization changes. */
  predicate ApprovalsAside(s: State, t: State) {
    && KeepsApprovals(s, t) && t.records.binding == s.records.binding
    && (t.driver.Some? && (t.driver.value.at.Opening? || t.driver.value.at.Authorized?) ==> t.driver == s.driver)
  }

  lemma AsideSound(s: State, t: State)
    requires ApprovalSound(s) && ApprovalsAside(s, t)
    ensures ApprovalSound(t)
  {
    AuthorizesStill(s, t);
  }

  lemma ActAside(s: State, k: nat, a: nat, world: World)
    requires s.driver.Some? && s.driver.value.at == Acting(k, a)
    ensures ApprovalsAside(s, Act(s, k, a, world))
  {
  }

  lemma EnterOnceAside(s: State, target: RunState)
    requires EnterOnce(s, target).Some?
    ensures ApprovalsAside(s, EnterOnce(s, target).value) && EnterOnce(s, target).value.driver == s.driver
  {
  }

  lemma MoveAside(s: State, k: nat, seen: RunState)
    requires s.driver.Some? && !s.driver.value.at.Opening? && !s.driver.value.at.Authorized? && k < STEP_COUNT
    ensures ApprovalsAside(s, MoveTo(s, k, seen))
  {
    if EnterOnce(s, Target(k)).Some? {
      EnterOnceAside(s, Target(k));
    }
  }

  lemma PublishAside(s: State, a: nat, seen: RunState)
    requires s.driver.Some? && !s.driver.value.at.Opening? && !s.driver.value.at.Authorized?
    ensures ApprovalsAside(s, PublishWork(s, a, seen))
  {
    if EnterOnce(s, Pushing).Some? {
      EnterOnceAside(s, Pushing);
    }
  }

  lemma VisitAside(s: State, k: nat)
    requires s.driver.Some?
    ensures ApprovalsAside(s, Visit(s, k))
  {
  }

  lemma ContinueAside(s: State, world: World)
    requires s.driver.Some? && !s.driver.value.at.Opening? && !s.driver.value.at.Authorized?
    ensures ApprovalsAside(s, Continue(s, world))
  {
    match s.driver.value.at
    case Loop(k) => VisitAside(s, k);
    case Admitted(k, seen) => if k < STEP_COUNT { MoveAside(s, k, seen); }
    case Acting(k, a) => ActAside(s, k, a, world);
    case Publishing(a, seen) => PublishAside(s, a, seen);
    case _ =>
  }

  lemma AuthorizeKept(s: State, id: RequestId)
    requires ApprovalSound(s) && s.driver.Some? && s.driver.value.at == Opening(id)
    ensures ApprovalSound(Authorize(s, id))
  {
    AuthorizesStill(s, Authorize(s, id));
  }

  lemma BindKept(s: State, request: Option<RequestId>)
    requires ApprovalSound(s) && s.driver.Some? && s.driver.value.at == Authorized(request)
    ensures ApprovalSound(Bind(s, request))
  {
    AuthorizesStill(s, Bind(s, request));
  }

  lemma BeginKept(s: State, policy: DeliveryPolicy)
    requires ApprovalSound(s)
    ensures ApprovalSound(Begin(s, policy))
  {
    AuthorizesStill(s, Begin(s, policy));
  }

  lemma OthersAside(s: State, a: Action)
    requires !a.Proceed? && !a.Call?
    ensures ApprovalsAside(s, Next(s, a))
  {
  }

  lemma ApprovalKept(s: State, a: Action)
    requires ApprovalSound(s)
    ensures ApprovalSound(Next(s, a))
  {
    if a.Call? {
      BeginKept(s, a.policy);
    } else if a.Proceed? {
      if s.driver.Some? {
        match s.driver.value.at
        case Opening(id) => AuthorizeKept(s, id);
        case Authorized(request) => BindKept(s, request);
        case _ => ContinueAside(s, a.world); AsideSound(s, Continue(s, a.world));
      }
    } else {
      OthersAside(s, a);
      AsideSound(s, Next(s, a));
    }
  }

  lemma {:induction false} AlwaysApproved(start: State, actions: seq<Action>)
    requires Undelivered(start)
    ensures ApprovalSound(After(start, actions))
  {
    if actions != [] {
      AlwaysApproved(start, actions[..|actions| - 1]);
      ApprovalKept(After(start, actions[..|actions| - 1]), actions[|actions| - 1]);
    }
  }

  /** In a run that gates DELIVERY no step acts unless the operator has approved a request for exactly the policy
      that is bound and carried by the call. */
  lemma ActsWhenApproved(start: State, actions: seq<Action>, k: nat)
    requires Undelivered(start) && ActsOn(After(start, actions), k) && Gated(After(start, actions))
    ensures var s := After(start, actions);
      && s.records.binding.Some? && s.records.binding.value.policy == s.driver.value.policy
      && s.records.binding.value.request.Some?
      && Authorizes(s, s.records.binding.value.request.value, s.driver.value.policy)
  {
    AlwaysSound(start, actions);
    AlwaysApproved(start, actions);
  }

  lemma NoStepsFromWork(s: State, k: nat, a: nat, world: World)
    requires s.driver.Some? && s.steps == []
    ensures Act(s, k, a, world).steps == [] && TakeUp(s, k).steps == []
    ensures Succeed(s, k, a).steps == [] && Block(s, a).steps == []
  {
    ActOnlyRecords(s, k, a, world);
  }

  lemma NoStepsFromMoves(s: State, k: nat, a: nat, seen: RunState)
    requires s.driver.Some? && s.steps == []
    ensures Visit(s, k).steps == [] && PublishWork(s, a, seen).steps == []
    ensures k < STEP_COUNT ==> MoveTo(s, k, seen).steps == []
  {
    assert forall target :: Enter(s, target).steps == [];
  }

  lemma StepsFromInstalling(s: State, world: World)
    requires s.driver.Some? && s.steps == [] && !s.driver.value.at.Installing?
    ensures Continue(s, world).steps == []
  {
    match s.driver.value.at
    case Loop(k) => NoStepsFromMoves(s, k, 0, s.run.state);
    case Admitted(k, seen) => NoStepsFromMoves(s, k, 0, seen);
    case Starting(k) => NoStepsFromWork(s, k, 0, world);
    case Acting(k, a) => NoStepsFromWork(s, k, a, world);
    case Publishing(a, seen) => NoStepsFromMoves(s, GIT, a, seen);
    case Acted(k, a) => NoStepsFromWork(s, k, a, world);
    case Failing(k, a) => NoStepsFromWork(s, k, a, world);
    case _ =>
  }

  /** The delivery steps come into being only while the binding is exact: for the newest review's plan version. */
  lemma InstalledWhenBound(s: State, a: Action)
    requires s.steps == [] && Next(s, a).steps != []
    ensures Bound(AsStore(s))
  {
    if a.Proceed? && s.driver.Some? && !s.driver.value.at.Installing? {
      StepsFromInstalling(s, a.world);
    }
  }

  /** Action `j` was the operator's decision on this request. */
  ghost predicate RuledAt(start: State, actions: seq<Action>, j: nat, id: RequestId, decision: Decision) {
    && j < |actions| && actions[j] == Rule(id, id.digest, decision)
    && id in After(start, actions[..j]).requests && !Blank(decision.operator)
  }

  lemma RulingRecorded(s: State, a: Action, id: RequestId)
    requires id in Next(s, a).decisions && id !in s.decisions
    ensures a == Rule(id, id.digest, Next(s, a).decisions[id]) && id in s.requests && !Blank(a.decision.operator)
  {
    if a.Proceed? && s.driver.Some? {
      if s.driver.value.at.Opening? || s.driver.value.at.Authorized? {
      } else {
        ContinueOnlyDelivers(s, a.world);
      }
    }
  }

  lemma RulingKept(s: State, a: Action, id: RequestId)
    requires id in s.decisions
    ensures id in Next(s, a).decisions && Next(s, a).decisions[id] == s.decisions[id]
  {
    if a.Proceed? && s.driver.Some? {
      ContinueOnlyDelivers(s, a.world);
    }
  }

  /** Every decision that was not there from the start was taken by the operator, on that very request. */
  lemma {:induction false} RulingWasMade(start: State, actions: seq<Action>, id: RequestId) returns (j: nat)
    requires id in After(start, actions).decisions && id !in start.decisions
    ensures RuledAt(start, actions, j, id, After(start, actions).decisions[id])
  {
    var last := |actions| - 1;
    var s := After(start, actions[..last]);
    if id in s.decisions {
      j := RulingWasMade(start, actions[..last], id);
      RulingKept(s, actions[last], id);
      assert actions[..last][..j] == actions[..j];
    } else {
      RulingRecorded(s, actions[last], id);
      j := last;
    }
  }

  /** What a call without a bound policy does where DELIVERY is gated: it asks for the delivery of exactly this policy
      at the reviewed tree, durably, and goes on only if the operator has approved it. */
  lemma AuthorizeExactly(s: State, id: RequestId)
    requires s.driver.Some? && s.driver.value.at == Opening(id) && id.stage == DeliveryStage
    ensures var t := Authorize(s, id);
      var current := id.version == s.run.planVersion && id.version > 0;
      && (!Gated(s) ==> t == Go(s, Authorized(None)))
      && (Gated(s) && !current ==> t == Leave(s))
      && (Gated(s) && current ==>
            && t == s.(requests := s.requests + {id}, driver := t.driver)
            && if id in s.decisions && s.decisions[id].kind == Approve then t.driver == Some(s.driver.value.(at := Authorized(Some(id))))
               else t.driver.None?)
  {
    assert id in s.requests ==> s.requests + {id} == s.requests;
  }

  /** The request names the run's goal and plan version, the newest review and its tree, and the policy. */
  lemma DeliveryRequestExactly(s: State, policy: DeliveryPolicy)
    requires s.driver.None? && s.records.binding.None? && Begin(s, policy).driver.Some?
    ensures s.records.reviews != []
    ensures var review := s.records.reviews[|s.records.reviews| - 1];
      Begin(s, policy).driver.value.at == Opening(RequestId(DeliveryStage, s.run.planVersion,
        OfDelivery(s.run.goal, s.run.planVersion, review.id, review.tree, policy)))
  {
  }
}
