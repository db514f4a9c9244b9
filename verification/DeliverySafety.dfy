/** What holds in every state of a delivery, whatever is interleaved, interrupted and repeated. */
module DeliverySafety {
  import opened Collections
  import opened RunStates
  import opened Plans
  import opened RunStore
  import opened Delivery

  // ---------------------------------------------------------------------------------
  // What every step keeps

  predicate DoneBefore(steps: seq<TaskStatus>, k: nat) {
    k <= |steps| && forall j :: 0 <= j < k ==> steps[j] == Succeeded
  }

  /** A task succeeds only after all before it. */
  predicate InOrder(steps: seq<TaskStatus>) {
    forall k: nat :: k < |steps| && steps[k] == Succeeded ==> DoneBefore(steps, k)
  }

  /** An active attempt is the only one of its step, and the step's task has its status. */
  predicate AttemptsMatch(s: State) {
    && (forall i :: 0 <= i < |s.attempts| ==> s.attempts[i].step < |s.steps|)
    && (forall i :: 0 <= i < |s.attempts| && ActiveAttempt(s.attempts[i].status) ==>
          s.steps[s.attempts[i].step] == s.attempts[i].status)
    && (forall i, j :: 0 <= i < j < |s.attempts| && ActiveAttempt(s.attempts[i].status) && ActiveAttempt(s.attempts[j].status) ==>
          s.attempts[i].step != s.attempts[j].step)
  }

  /** A passing implementation report certifies a reviewed tree. */
  predicate ImplementationAccepted(r: DeliveryRecords) {
    exists report :: report in r.reports && report.checkpoint == Implementation && report.passed
      && exists review :: review in r.reviews && review.tree == report.tree
  }

  predicate ValidationPassed(r: DeliveryRecords) {
    exists v :: v in r.validations && v.passed
  }

  /** A passing final report agrees with the accepted one outside documentation and with the last validated tree. */
  predicate FinalAccepted(r: DeliveryRecords) {
    && r.binding.Some?
    && exists report :: report in r.reports && report.checkpoint == Final && ReportHolds(r, report, r.binding.value.policy)
  }

  /** What the success of a step rests on. */
  predicate Evidence(r: DeliveryRecords, k: nat) {
    && (k == IMPLEMENTATION ==> ImplementationAccepted(r))
    && (k == VALIDATION ==> ValidationPassed(r))
    && (k == FINAL ==> FinalAccepted(r))
  }

  predicate AttemptOf(s: State, a: nat, k: nat) { a < |s.attempts| && s.attempts[a].step == k }

  predicate DriverSound(s: State) {
    s.driver.Some? ==>
      var d := s.driver.value;
      && (if d.at.Opening? || d.at.Authorized? then s.records.binding.None?
          else s.records.binding.Some? && s.records.binding.value.policy == d.policy)
      && match d.at
         case Opening(_) => true
         case Authorized(_) => true
         case Installing => true
         case Loop(k) => |s.steps| == STEP_COUNT && DoneBefore(s.steps, k)
         case Admitted(k, _) => |s.steps| == STEP_COUNT && k < STEP_COUNT && DoneBefore(s.steps, k)
         case Starting(k) => |s.steps| == STEP_COUNT && k < STEP_COUNT && DoneBefore(s.steps, k)
         case Acting(k, a) => AttemptOf(s, a, k) && DoneBefore(s.steps, k)
         case Inspected(k, a, report) =>
           && AttemptOf(s, a, k) && DoneBefore(s.steps, k) && report in s.records.reports
           && ((k == IMPLEMENTATION && report.checkpoint == Implementation) || (k == FINAL && report.checkpoint == Final))
         case Publishing(a, _) => AttemptOf(s, a, GIT) && DoneBefore(s.steps, GIT)
         case Sending(a) => AttemptOf(s, a, GIT) && DoneBefore(s.steps, GIT)
         case Acted(k, a) => AttemptOf(s, a, k) && DoneBefore(s.steps, k) && Evidence(s.records, k)
         case Failing(k, a) => AttemptOf(s, a, k)
         case Blocking(a) => a < |s.attempts|
  }

  predicate Sound(s: State) {
    && (s.steps == [] || |s.steps| == STEP_COUNT)
    && InOrder(s.steps) && AttemptsMatch(s) && DriverSound(s)
    && (forall k: nat :: k < |s.steps| && s.steps[k] == Succeeded ==> Evidence(s.records, k))
  }

  // ---------------------------------------------------------------------------------
  // Successes stay

  predicate SameSuccesses(a: seq<TaskStatus>, b: seq<TaskStatus>) {
    |a| == |b| && forall k :: 0 <= k < |a| ==> (a[k] == Succeeded <==> b[k] == Succeeded)
  }

  lemma OrderKept(a: seq<TaskStatus>, b: seq<TaskStatus>)
    requires InOrder(a) && SameSuccesses(a, b)
    ensures InOrder(b)
    ensures forall k :: DoneBefore(a, k) ==> DoneBefore(b, k)
  {
    forall k: nat | k < |b| && b[k] == Succeeded
      ensures DoneBefore(b, k)
    {
      assert DoneBefore(a, k);
    }
  }

  /** While a step runs, neither it nor any step after it has succeeded. */
  lemma NotYet(s: State, a: nat)
    requires InOrder(s.steps) && AttemptsMatch(s) && a < |s.attempts| && ActiveAttempt(s.attempts[a].status)
    ensures forall j: nat :: s.attempts[a].step <= j < |s.steps| ==> s.steps[j] != Succeeded
  {
    forall j: nat | s.attempts[a].step < j < |s.steps|
      ensures s.steps[j] != Succeeded
    {
      SucceedsAfter(s.steps, s.attempts[a].step, j);
    }
  }

  lemma SucceedsAfter(steps: seq<TaskStatus>, i: nat, j: nat)
    requires InOrder(steps) && i < j < |steps| && steps[i] != Succeeded
    ensures steps[j] != Succeeded
  {
    assert steps[j] == Succeeded ==> DoneBefore(steps, j);
  }

  lemma CancelSound(s: State)
    requires InOrder(s.steps) && AttemptsMatch(s)
    ensures SameSuccesses(s.steps, Cancel(s).steps) && AttemptsMatch(Cancel(s))
    ensures |Cancel(s).attempts| == |s.attempts|
    ensures forall i :: 0 <= i < |s.attempts| ==> Cancel(s).attempts[i].step == s.attempts[i].step
  {
    forall k: nat | k < |s.steps|
      ensures s.steps[k] == Succeeded <==> Cancel(s).steps[k] == Succeeded
    {
      if ActiveOn(s.attempts, k) {
        var i :| 0 <= i < |s.attempts| && s.attempts[i].step == k && ActiveAttempt(s.attempts[i].status);
      }
    }
  }

  /** A state that differs in no delivery task, or only as cancelling differs, is as sound. */
  lemma SoundLike(s: State, t: State)
    requires Sound(s) && SameSuccesses(s.steps, t.steps) && AttemptsMatch(t)
    requires |t.attempts| == |s.attempts|
    requires forall i :: 0 <= i < |s.attempts| ==> t.attempts[i].step == s.attempts[i].step
    requires t.records == s.records && t.driver == s.driver
    ensures Sound(t)
  {
    OrderKept(s.steps, t.steps);
  }

  lemma EnterSound(s: State, target: RunState)
    requires Sound(s)
    ensures Sound(Enter(s, target))
  {
    CancelSound(s);
    SoundLike(s, Enter(s, target));
  }

  // ---------------------------------------------------------------------------------
  // Evidence stays

  lemma EvidenceKept(r: DeliveryRecords, t: DeliveryRecords, k: nat)
    requires Evidence(r, k)
    requires t.reports == r.reports && t.validations == r.validations && r.reviews <= t.reviews
    requires r.binding.Some? ==> t.binding == r.binding
    ensures Evidence(t, k)
  {
    if k == IMPLEMENTATION {
      var report :| report in r.reports && report.checkpoint == Implementation && report.passed
                    && exists review :: review in r.reviews && review.tree == report.tree;
      assert exists review :: review in t.reviews && review.tree == report.tree;
    }
    if k == FINAL {
      var report :| report in r.reports && report.checkpoint == Final && ReportHolds(r, report, r.binding.value.policy);
      assert ReportHolds(t, report, t.binding.value.policy);
    }
  }

  lemma EvidenceGrows(r: DeliveryRecords, t: DeliveryRecords, k: nat)
    requires Evidence(r, k) && k != FINAL
    requires r.reports <= t.reports && r.validations <= t.validations && t.reviews == r.reviews
    ensures Evidence(t, k)
  {
    if k == IMPLEMENTATION {
      var report :| report in r.reports && report.checkpoint == Implementation && report.passed
                    && exists review :: review in r.reviews && review.tree == report.tree;
      assert report in t.reports;
    }
    if k == VALIDATION {
      var v :| v in r.validations && v.passed;
      assert v in t.validations;
    }
  }

  predicate AllEvidence(steps: seq<TaskStatus>, r: DeliveryRecords) {
    forall k: nat :: k < |steps| && steps[k] == Succeeded ==> Evidence(r, k)
  }

  lemma AllEvidenceKept(steps: seq<TaskStatus>, r: DeliveryRecords, t: DeliveryRecords)
    requires AllEvidence(steps, r)
    requires t.reports == r.reports && t.validations == r.validations && r.reviews <= t.reviews
    requires r.binding.Some? ==> t.binding == r.binding
    ensures AllEvidence(steps, t)
  {
    forall k: nat | k < |steps| && steps[k] == Succeeded
      ensures Evidence(t, k)
    {
      EvidenceKept(r, t, k);
    }
  }

  lemma AllEvidenceGrows(steps: seq<TaskStatus>, r: DeliveryRecords, t: DeliveryRecords)
    requires AllEvidence(steps, r) && (|steps| <= FINAL || steps[FINAL] != Succeeded)
    requires r.reports <= t.reports && r.validations <= t.validations && t.reviews == r.reviews
    ensures AllEvidence(steps, t)
  {
    forall k: nat | k < |steps| && steps[k] == Succeeded
      ensures Evidence(t, k)
    {
      EvidenceGrows(r, t, k);
    }
  }

  // ---------------------------------------------------------------------------------
  // Each transaction keeps the state sound

  /** The call moves to another position; the records may change where the evidence is kept. */
  lemma PositionSound(s: State, t: State)
    requires Sound(s) && t.steps == s.steps && t.attempts == s.attempts
    requires AllEvidence(t.steps, t.records) && DriverSound(t)
    ensures Sound(t)
  {
  }

  lemma AuthorizeSound(s: State, id: RequestId)
    requires Sound(s) && s.driver.Some? && s.driver.value.at == Opening(id)
    ensures Sound(Authorize(s, id))
  {
    PositionSound(s, Authorize(s, id));
  }

  lemma BindSound(s: State, request: Option<RequestId>)
    requires Sound(s) && s.driver.Some? && s.driver.value.at == Authorized(request)
    ensures Sound(Bind(s, request))
  {
    AllEvidenceKept(s.steps, s.records, Bind(s, request).records);
    PositionSound(s, Bind(s, request));
  }

  lemma InstallSound(s: State)
    requires Sound(s) && s.driver.Some? && s.driver.value.at.Installing?
    ensures Sound(Install(s))
  {
  }

  lemma VisitSound(s: State, k: nat)
    requires Sound(s) && s.driver.Some? && s.driver.value.at == Loop(k)
    ensures Sound(Visit(s, k))
  {
    if k >= |s.steps| {
      EnterSound(s, Completed);
    }
  }

  lemma EnterOnceSound(s: State, target: RunState)
    requires Sound(s) && EnterOnce(s, target).Some?
    ensures var t := EnterOnce(s, target).value; Sound(t) && t.driver == s.driver
  {
    if target !in s.keys {
      EnterSound(s, target);
    }
  }

  lemma MoveToSound(s: State, k: nat, seen: RunState)
    requires Sound(s) && s.driver.Some? && s.driver.value.at == Admitted(k, seen)
    ensures Sound(MoveTo(s, k, seen))
  {
    if EnterOnce(s, Target(k)).Some? {
      EnterOnceSound(s, Target(k));
      PositionSound(EnterOnce(s, Target(k)).value, EnterOnce(s, Target(k)).value.(driver := Some(s.driver.value.(at := Starting(k)))));
    }
  }

  lemma TakeUpSound(s: State, k: nat)
    requires Sound(s) && s.driver.Some? && s.driver.value.at == Starting(k)
    ensures Sound(TakeUp(s, k))
  {
    if RunningAttempt(s.attempts, k).None? && Startable(s, k) {
      OrderKept(s.steps, Start(s, k).steps);
    }
  }

  lemma InspectSound(s: State, k: nat, a: nat, world: World)
    requires Sound(s) && s.driver.Some? && s.driver.value.at == Acting(k, a) && s.attempts[a].status == Running
    requires k == IMPLEMENTATION || k == FINAL
    ensures Sound(Inspect(s, k, a, world))
  {
    NotYet(s, a);
    AllEvidenceGrows(s.steps, s.records, Inspect(s, k, a, world).records);
    PositionSound(s, Inspect(s, k, a, world));
  }

  lemma ValidateSound(s: State, k: nat, a: nat, world: World)
    requires Sound(s) && s.driver.Some? && s.driver.value.at == Acting(k, a) && s.attempts[a].status == Running
    requires k == VALIDATION
    ensures Sound(ValidateFinally(s, k, a, world))
  {
    NotYet(s, a);
    var t := ValidateFinally(s, k, a, world);
    AllEvidenceGrows(s.steps, s.records, t.records);
    if world.ok && world.validation.passed {
      assert world.validation in t.records.validations;
    }
    PositionSound(s, t);
  }

  lemma OtherActSound(s: State, k: nat, a: nat, world: World)
    requires Sound(s) && s.driver.Some? && s.driver.value.at == Acting(k, a) && s.attempts[a].status == Running
    requires k != IMPLEMENTATION && k != FINAL && k != VALIDATION
    ensures Sound(Act(s, k, a, world))
  {
    var t := Act(s, k, a, world);
    AllEvidenceKept(s.steps, s.records, t.records);
    PositionSound(s, t);
  }

  lemma ActSound(s: State, k: nat, a: nat, world: World)
    requires Sound(s) && s.driver.Some? && s.driver.value.at == Acting(k, a)
    ensures Sound(Act(s, k, a, world))
  {
    if s.attempts[a].status != Running {
      PositionSound(s, Act(s, k, a, world));
    } else if k == IMPLEMENTATION || k == FINAL {
      InspectSound(s, k, a, world);
    } else if k == VALIDATION {
      ValidateSound(s, k, a, world);
    } else {
      OtherActSound(s, k, a, world);
    }
  }

  lemma CheckSound(s: State, world: World)
    requires Sound(s) && s.driver.Some? && s.driver.value.at.Inspected?
    ensures Sound(Continue(s, world))
  {
    var d := s.driver.value;
    if ReportHolds(s.records, d.at.report, d.policy) && d.at.inspected == IMPLEMENTATION {
      assert exists review :: review in s.records.reviews && review.tree == d.at.report.tree by {
        assert s.records.reviews[|s.records.reviews| - 1] in s.records.reviews;
      }
    }
    PositionSound(s, Continue(s, world));
  }

  lemma PublishSound(s: State, a: nat, seen: RunState)
    requires Sound(s) && s.driver.Some? && s.driver.value.at == Publishing(a, seen)
    ensures Sound(PublishWork(s, a, seen))
  {
    if EnterOnce(s, Pushing).Some? {
      var t := EnterOnce(s, Pushing).value;
      EnterOnceSound(s, Pushing);
      EnterKeepsAttempts(s, Pushing);
      PositionSound(t, Go(t, Sending(a)));
    }
    PositionSound(s, Go(s, Failing(GIT, a)));
  }

  lemma EnterKeepsAttempts(s: State, target: RunState)
    requires EnterOnce(s, target).Some? && !Terminal(target)
    ensures var t := EnterOnce(s, target).value; t.attempts == s.attempts && t.steps == s.steps && t.records == s.records
  {
  }

  lemma PushSound(s: State, a: nat, world: World)
    requires Sound(s) && s.driver.Some? && s.driver.value.at == Sending(a)
    ensures Sound(Push(s, a, world))
  {
    AllEvidenceKept(s.steps, s.records, Push(s, a, world).records);
    PositionSound(s, Push(s, a, world));
  }

  lemma SettleSound(s: State, a: nat, status: TaskStatus)
    requires InOrder(s.steps) && AttemptsMatch(s) && a < |s.attempts| && ActiveAttempt(s.attempts[a].status)
    requires status != Succeeded || DoneBefore(s.steps, s.attempts[a].step)
    ensures InOrder(Settle(s, a, status).steps) && AttemptsMatch(Settle(s, a, status))
    ensures forall j :: 0 <= j < |s.steps| && j != s.attempts[a].step ==> Settle(s, a, status).steps[j] == s.steps[j]
  {
    var t := Settle(s, a, status);
    NotYet(s, a);
    forall j: nat | j < |t.steps| && t.steps[j] == Succeeded
      ensures DoneBefore(t.steps, j)
    {
      if j != s.attempts[a].step {
        assert DoneBefore(s.steps, j);
      }
    }
  }

  lemma ReadySound(s: State, step: nat)
    requires InOrder(s.steps) && AttemptsMatch(s)
    ensures var t := s.(steps := ReadyNext(s.steps, step));
      SameSuccesses(s.steps, t.steps) && InOrder(t.steps) && AttemptsMatch(t)
  {
    OrderKept(s.steps, ReadyNext(s.steps, step));
  }

  lemma SucceedSound(s: State, k: nat, a: nat)
    requires Sound(s) && s.driver.Some? && s.driver.value.at == Acted(k, a)
    ensures Sound(Succeed(s, k, a))
  {
    if Transitable(s, a, Succeeded) {
      SettleSound(s, a, Succeeded);
      ReadySound(Settle(s, a, Succeeded), k);
    }
  }

  lemma BlockSound(s: State, k: nat, a: nat)
    requires Sound(s) && s.driver.Some? && s.driver.value.at == Failing(k, a)
    ensures Sound(Block(s, a))
  {
    if Transitable(s, a, Blocked) {
      SettleSound(s, a, Blocked);
    }
  }

  lemma RecoverSound(s: State, a: nat)
    requires Sound(s)
    ensures Sound(Recover(s, a))
  {
    var t := Recover(s, a);
    if t != s {
      NotYet(s, a);
      assert SameSuccesses(s.steps, t.steps);
      OrderKept(s.steps, t.steps);
    }
  }

  lemma EarlySound(s: State, world: World)
    requires Sound(s) && s.driver.Some?
    requires s.driver.value.at.Opening? || s.driver.value.at.Authorized? || s.driver.value.at.Installing?
    ensures Sound(Continue(s, world))
  {
    match s.driver.value.at
    case Opening(id) => AuthorizeSound(s, id);
    case Authorized(request) => BindSound(s, request);
    case Installing => InstallSound(s);
  }

  lemma BeforeWorkSound(s: State, world: World)
    requires Sound(s) && s.driver.Some?
    requires s.driver.value.at.Loop? || s.driver.value.at.Admitted? || s.driver.value.at.Starting?
    ensures Sound(Continue(s, world))
  {
    match s.driver.value.at
    case Loop(k) => VisitSound(s, k);
    case Admitted(k, seen) => MoveToSound(s, k, seen);
    case Starting(k) => TakeUpSound(s, k);
  }

  lemma AfterWorkSound(s: State, world: World)
    requires Sound(s) && s.driver.Some?
    requires s.driver.value.at.Acted? || s.driver.value.at.Failing? || s.driver.value.at.Blocking?
    ensures Sound(Continue(s, world))
  {
    match s.driver.value.at
    case Acted(k, a) => SucceedSound(s, k, a);
    case Failing(k, a) => BlockSound(s, k, a);
    case Blocking(a) => EnterSound(s, BlockedRun);
  }

  lemma ContinueSound(s: State, world: World)
    requires Sound(s) && s.driver.Some?
    ensures Sound(Continue(s, world))
  {
    match s.driver.value.at
    case Acting(k, a) => ActSound(s, k, a, world);
    case Inspected(_, _, _) => CheckSound(s, world);
    case Publishing(a, seen) => PublishSound(s, a, seen);
    case Sending(a) => SendSound(s, a, world);
    case Opening(_) => EarlySound(s, world);
    case Authorized(_) => EarlySound(s, world);
    case Installing => EarlySound(s, world);
    case Loop(_) => BeforeWorkSound(s, world);
    case Admitted(_, _) => BeforeWorkSound(s, world);
    case Starting(_) => BeforeWorkSound(s, world);
    case _ => AfterWorkSound(s, world);
  }

  lemma SendSound(s: State, a: nat, world: World)
    requires Sound(s) && s.driver.Some? && s.driver.value.at == Sending(a)
    ensures Sound(Send(s, a, world))
  {
    PushSound(s, a, world);
    PositionSound(s, Go(s, Failing(GIT, a)));
  }

  lemma NextSound(s: State, a: Action)
    requires Sound(s)
    ensures Sound(Next(s, a))
  {
    match a
    case Call(policy) =>
    case Proceed(world) => if s.driver.Some? { ContinueSound(s, world); }
    case Crash =>
    case Steer(target) => EnterSound(s, target);
    case Ask(request) => SoundLike(s, Next(s, a));
    case Rule(request, expected, decision) => SoundLike(s, Next(s, a));
    case Retry(attempt) => RecoverSound(s, attempt);
    case Elsewhere(_, _, _) => SoundLike(s, Next(s, a));
    case Review(review) =>
      AllEvidenceKept(s.steps, s.records, Next(s, a).records);
  }

  /** Every reachable state is sound, whatever is interleaved, interrupted and repeated. */
  lemma {:induction false} AlwaysSound(start: State, actions: seq<Action>)
    requires Undelivered(start)
    ensures Sound(After(start, actions))
  {
    if actions != [] {
      AlwaysSound(start, actions[..|actions| - 1]);
      NextSound(After(start, actions[..|actions| - 1]), actions[|actions| - 1]);
    }
  }

  // ---------------------------------------------------------------------------------
  // Results

  /** The next transaction of the call performs the external action of step `k`: an inspection, the documentation,
      the validation, the commit, the push or the promotion of memory. */
  predicate ActsOn(s: State, k: nat) {
    s.driver.Some? && match s.driver.value.at
                      case Acting(j, a) => j == k && a < |s.attempts| && s.attempts[a].status == Running
                      case Sending(a) => k == GIT && a < |s.attempts| && s.attempts[a].status == Running
                      case _ => false
  }

  /** A step acts only when the tasks of all earlier steps have succeeded and its own has not, and only for the
      authorized policy. */
  lemma ActsInOrder(start: State, actions: seq<Action>, k: nat)
    requires Undelivered(start) && ActsOn(After(start, actions), k)
    ensures var s := After(start, actions);
      && k < |s.steps| && s.steps[k] == Running && DoneBefore(s.steps, k)
      && s.records.binding.Some? && s.records.binding.value.policy == s.driver.value.policy
  {
    AlwaysSound(start, actions);
  }

  /** Successes and the authorization are never undone. */
  ghost predicate Lasting(s: State, t: State) {
    && (forall k: nat :: k < |s.steps| && s.steps[k] == Succeeded ==> k < |t.steps| && t.steps[k] == Succeeded)
    && (s.records.binding.Some? ==> t.records.binding == s.records.binding)
  }

  lemma LastingStep(s: State, a: Action)
    requires Sound(s)
    ensures Lasting(s, Next(s, a))
  {
    match a
    case Steer(target) => LastingEnter(s, target);
    case Ask(_) =>
    case Rule(_, _, _) =>
    case Proceed(world) => if s.driver.Some? { LastingContinue(s, world); }
    case Retry(_) =>
    case Call(_) =>
    case Crash =>
    case Review(_) =>
    case Elsewhere(_, _, _) =>
  }

  lemma LastingEnter(s: State, target: RunState)
    requires Sound(s)
    ensures Lasting(s, Enter(s, target))
  {
    CancelSound(s);
  }

  /** An external action changes neither the tasks nor the run. */
  lemma ActOnlyRecords(s: State, k: nat, a: nat, world: World)
    requires s.driver.Some?
    ensures var t := Act(s, k, a, world);
      t.steps == s.steps && t.run == s.run && t.records.binding == s.records.binding
  {
  }

  lemma LastingMove(s: State)
    requires Sound(s) && s.driver.Some?
    ensures forall k: nat, seen | k < STEP_COUNT :: Lasting(s, MoveTo(s, k, seen))
    ensures forall a: nat, seen :: Lasting(s, PublishWork(s, a, seen))
    ensures forall k: nat :: Lasting(s, Visit(s, k))
  {
    forall target
      ensures Lasting(s, Enter(s, target))
    {
      LastingEnter(s, target);
    }
  }

  lemma LastingTask(s: State, k: nat, a: nat)
    requires Sound(s) && s.driver.Some?
    ensures Lasting(s, TakeUp(s, k)) && Lasting(s, Succeed(s, k, a)) && Lasting(s, Block(s, a))
  {
  }

  lemma LastingContinue(s: State, world: World)
    requires Sound(s) && s.driver.Some?
    ensures Lasting(s, Continue(s, world))
  {
    match s.driver.value.at
    case Opening(id) =>
    case Authorized(request) =>
    case Installing =>
    case Loop(k) => LastingMove(s);
    case Admitted(k, seen) => LastingMove(s);
    case Starting(k) => LastingTask(s, k, 0);
    case Acting(k, a) => ActOnlyRecords(s, k, a, world);
    case Inspected(_, _, _) =>
    case Publishing(a, seen) => LastingMove(s);
    case Sending(a) =>
    case Acted(k, a) => LastingTask(s, k, a);
    case Failing(k, a) => LastingTask(s, k, a);
    case Blocking(a) => LastingEnter(s, BlockedRun);
  }

  lemma {:induction false} LastingRun(start: State, actions: seq<Action>, n: nat)
    requires Undelivered(start) && n <= |actions|
    ensures Lasting(After(start, actions[..n]), After(start, actions))
  {
    if n == |actions| {
      assert actions[..n] == actions;
    } else {
      var shorter := actions[..|actions| - 1];
      assert shorter[..n] == actions[..n];
      LastingRun(start, shorter, n);
      AlwaysSound(start, shorter);
      LastingStep(After(start, shorter), actions[|actions| - 1]);
    }
  }

  /** No step acts again once its task has succeeded, over any number of interrupted and repeated calls. */
  lemma NoSecondAct(start: State, actions: seq<Action>, n: nat, k: nat)
    requires Undelivered(start) && n <= |actions|
    requires var s := After(start, actions[..n]); k < |s.steps| && s.steps[k] == Succeeded
    ensures !ActsOn(After(start, actions), k)
  {
    LastingRun(start, actions, n);
    if ActsOn(After(start, actions), k) {
      ActsInOrder(start, actions, k);
      assert false;
    }
  }

  /** The bound policy never changes, and no call proceeds under another one. */
  lemma PolicyStays(start: State, actions: seq<Action>, n: nat)
    requires Undelivered(start) && n <= |actions| && After(start, actions[..n]).records.binding.Some?
    ensures var bound, t := After(start, actions[..n]).records.binding, After(start, actions);
      t.records.binding == bound && (t.driver.Some? ==> t.driver.value.policy == bound.value.policy)
  {
    LastingRun(start, actions, n);
    AlwaysSound(start, actions);
  }

  /** The commit record changes only while the Git step acts, after a passing final report that agrees with the
      accepted implementation report outside the documentation path and with the last validated tree; the newest
      final report then passes on that same tree. */
  lemma GitAfterFinalReport(start: State, actions: seq<Action>, a: Action)
    requires Undelivered(start)
    requires Next(After(start, actions), a).records.commit != After(start, actions).records.commit
    ensures var s := After(start, actions);
      && ActsOn(s, GIT) && |s.steps| == STEP_COUNT && DoneBefore(s.steps, GIT)
      && FinalAccepted(s.records) && ImplementationAccepted(s.records) && ValidationPassed(s.records)
      && FinalIsNewest(s.records)
  {
    AlwaysSound(start, actions);
    var s := After(start, actions);
    CommitChangesInGit(s, a);
    assert s.steps[FINAL] == Succeeded && s.steps[VALIDATION] == Succeeded && s.steps[IMPLEMENTATION] == Succeeded;
    GuardedOnFinal(s);
  }

  lemma ActChangesCommit(s: State, k: nat, a: nat, world: World)
    requires s.driver.Some? && Act(s, k, a, world).records.commit != s.records.commit
    ensures k == GIT && MayCommit(s) && a < |s.attempts| && s.attempts[a].status == Running
  {
  }

  lemma ContinueChangesCommit(s: State, world: World)
    requires s.driver.Some? && Continue(s, world).records.commit != s.records.commit
    ensures ActsOn(s, GIT) && (MayCommit(s) || MayPush(s))
  {
    match s.driver.value.at
    case Acting(k, a) => ActChangesCommit(s, k, a, world);
    case Sending(a) => SendChangesCommit(s, a, world);
    case Loop(k) => OthersKeepCommit(s, k, 0, s.run.state);
    case Admitted(k, seen) => OthersKeepCommit(s, k, 0, seen);
    case Publishing(a, seen) => OthersKeepCommit(s, 0, a, seen);
    case _ =>
  }

  lemma SendChangesCommit(s: State, a: nat, world: World)
    requires s.driver.Some? && Send(s, a, world).records.commit != s.records.commit
    ensures MayPush(s) && a < |s.attempts| && s.attempts[a].status == Running
  {
  }

  lemma OthersKeepCommit(s: State, k: nat, a: nat, seen: RunState)
    requires s.driver.Some?
    ensures Visit(s, k).records == s.records && PublishWork(s, a, seen).records == s.records
    ensures k < STEP_COUNT ==> MoveTo(s, k, seen).records == s.records
  {
  }

  lemma CommitChangesInGit(s: State, a: Action)
    requires Next(s, a).records.commit != s.records.commit
    ensures ActsOn(s, GIT) && (MayCommit(s) || MayPush(s))
  {
    if a.Proceed? && s.driver.Some? {
      ContinueChangesCommit(s, a.world);
    }
  }

  /** The newest final report passes on the tree validated last. */
  predicate FinalIsNewest(r: DeliveryRecords) {
    var final := LastReport(r.reports, Final);
    && final.Some? && final.value.passed
    && r.validations != [] && final.value.tree == r.validations[|r.validations| - 1].tree
  }

  lemma GuardedOnFinal(s: State)
    ensures MayCommit(s) || MayPush(s) ==> FinalIsNewest(s.records)
  {
  }

  /** A run completes only when all six delivery tasks have succeeded and all other tasks of its plan are finished. */
  lemma CompletesWhenDelivered(start: State, actions: seq<Action>)
    requires Undelivered(start) && start.run.state != Completed && After(start, actions).run.state == Completed
    ensures AllSucceeded(After(start, actions).steps) && Finished(After(start, actions).around.others)
  {
    if actions != [] {
      var shorter := actions[..|actions| - 1];
      var s := After(start, shorter);
      AlwaysSound(start, shorter);
      if s.run.state == Completed {
        CompletesWhenDelivered(start, shorter);
        LastingStep(s, actions[|actions| - 1]);
        OthersStay(s, actions[|actions| - 1]);
        AlwaysSound(start, actions);
      } else {
        CompletedEntered(s, actions[|actions| - 1]);
      }
    }
  }

  /** A call decides nothing and moves no other task. */
  lemma ContinueOnlyDelivers(s: State, world: World)
    requires s.driver.Some?
    ensures var t := Continue(s, world); t.decisions == s.decisions && t.around == s.around
  {
    match s.driver.value.at
    case Acting(k, a) => ActOnlyDelivers(s, k, a, world);
    case Loop(k) => VisitOnlyDelivers(s, k);
    case Admitted(k, seen) => MoveOnlyDelivers(s, k, seen);
    case Publishing(a, seen) => PublishOnlyDelivers(s, a, seen);
    case _ =>
  }

  lemma VisitOnlyDelivers(s: State, k: nat)
    requires s.driver.Some?
    ensures Visit(s, k).decisions == s.decisions && Visit(s, k).around == s.around
  {
  }

  lemma MoveOnlyDelivers(s: State, k: nat, seen: RunState)
    requires s.driver.Some?
    ensures k < STEP_COUNT ==> MoveTo(s, k, seen).decisions == s.decisions && MoveTo(s, k, seen).around == s.around
  {
  }

  lemma PublishOnlyDelivers(s: State, a: nat, seen: RunState)
    requires s.driver.Some?
    ensures PublishWork(s, a, seen).decisions == s.decisions && PublishWork(s, a, seen).around == s.around
  {
  }

  lemma ActOnlyDelivers(s: State, k: nat, a: nat, world: World)
    requires s.driver.Some?
    ensures Act(s, k, a, world).decisions == s.decisions && Act(s, k, a, world).around == s.around
  {
  }

  lemma OthersStay(s: State, a: Action)
    requires s.run.state == Completed
    ensures Next(s, a).around == s.around
  {
    if a.Proceed? && s.driver.Some? {
      ContinueOnlyDelivers(s, a.world);
    }
  }

  lemma EnteredCompleted(s: State)
    requires Sound(s) && MayEnter(s, Completed)
    ensures AllSucceeded(Enter(s, Completed).steps) && Finished(Enter(s, Completed).around.others)
  {
    CancelSound(s);
  }

  lemma CompletedEntered(s: State, a: Action)
    requires Sound(s) && s.run.state != Completed && Next(s, a).run.state == Completed
    ensures AllSucceeded(Next(s, a).steps) && Finished(Next(s, a).around.others)
  {
    if a.Proceed? && s.driver.Some? {
      ContinueCompletes(s, a.world);
    } else if a.Steer? {
      EnteredCompleted(s);
    }
  }

  lemma MovesShort(s: State, k: nat, a: nat, seen: RunState)
    requires s.driver.Some? && s.run.state != Completed
    ensures k < STEP_COUNT ==> MoveTo(s, k, seen).run.state != Completed
    ensures PublishWork(s, a, seen).run.state != Completed
    ensures TakeUp(s, k).run == s.run && Succeed(s, k, a).run == s.run && Block(s, a).run == s.run
  {
  }

  lemma ContinueCompletes(s: State, world: World)
    requires Sound(s) && s.driver.Some? && s.run.state != Completed && Continue(s, world).run.state == Completed
    ensures AllSucceeded(Continue(s, world).steps) && Finished(Continue(s, world).around.others)
  {
    match s.driver.value.at
    case Loop(k) => if MayEnter(s, Completed) { EnteredCompleted(s); }
    case Admitted(k, seen) => MovesShort(s, k, 0, seen);
    case Starting(k) => MovesShort(s, k, 0, s.run.state);
    case Acting(k, a) => ActOnlyRecords(s, k, a, world);
    case Publishing(a, seen) => MovesShort(s, GIT, a, seen);
    case Acted(k, a) => MovesShort(s, k, a, s.run.state);
    case Failing(k, a) => MovesShort(s, k, a, s.run.state);
    case _ =>
  }

  // ---------------------------------------------------------------------------------
  // Every passing final report agrees with the accepted implementation

  predicate AgreesWithAccepted(r: DeliveryRecords, report: Report) {
    var accepted := LastReport(r.reports, Implementation);
    && accepted.Some? && r.binding.Some?
    && Agrees(accepted.value.changes, report.changes, r.binding.value.policy.documentationPath)
  }

  /** Passing final reports agree with the newest implementation report; there are none before that is accepted. */
  ghost predicate FinalsSound(s: State) {
    && (forall r :: r in s.records.reports && r.checkpoint == Final && r.passed ==> AgreesWithAccepted(s.records, r))
    && (s.steps == [] || s.steps[IMPLEMENTATION] != Succeeded ==> NoFinals(s.records.reports))
  }

  ghost predicate NoFinals(reports: seq<Report>) { forall r :: r in reports ==> r.checkpoint != Final }

  lemma FinalsKept(s: State, t: State)
    requires FinalsSound(s) && Lasting(s, t) && t.records.reports == s.records.reports
    ensures FinalsSound(t)
  {
  }

  lemma LastOfKept(reports: seq<Report>, report: Report, checkpoint: Checkpoint)
    requires report.checkpoint != checkpoint
    ensures LastReport(Kept(reports, report), checkpoint) == LastReport(reports, checkpoint)
  {
    assert (reports + [report])[..|reports|] == reports;
  }

  lemma InspectKeepsFinals(s: State, k: nat, a: nat, world: World)
    requires Sound(s) && FinalsSound(s) && s.driver.Some? && s.driver.value.at == Acting(k, a) && s.attempts[a].status == Running
    requires k == IMPLEMENTATION || k == FINAL
    ensures FinalsSound(Inspect(s, k, a, world))
  {
    NotYet(s, a);
    var t := Inspect(s, k, a, world);
    if t.records != s.records && k == FINAL {
      var added := t.records.reports[|t.records.reports| - 1];
      LastOfKept(s.records.reports, added, Implementation);
    }
  }

  lemma OtherActKeepsReports(s: State, k: nat, a: nat, world: World)
    requires s.driver.Some? && ((k != IMPLEMENTATION && k != FINAL) || a >= |s.attempts| || s.attempts[a].status != Running)
    ensures Act(s, k, a, world).records.reports == s.records.reports
  {
  }

  lemma ContinueKeepsReports(s: State, world: World)
    requires s.driver.Some? && !s.driver.value.at.Acting?
    ensures Continue(s, world).records.reports == s.records.reports
  {
  }

  lemma NextKeepsFinals(s: State, a: Action)
    requires Sound(s) && FinalsSound(s)
    ensures FinalsSound(Next(s, a))
  {
    LastingStep(s, a);
    if a.Proceed? && s.driver.Some? {
      match s.driver.value.at
      case Acting(k, at) =>
        if (k == IMPLEMENTATION || k == FINAL) && s.attempts[at].status == Running {
          InspectKeepsFinals(s, k, at, a.world);
        } else {
          OtherActKeepsReports(s, k, at, a.world);
          FinalsKept(s, Next(s, a));
        }
      case _ =>
        ContinueKeepsReports(s, a.world);
        FinalsKept(s, Next(s, a));
    } else {
      FinalsKept(s, Next(s, a));
    }
  }

  lemma {:induction false} AlwaysFinal(start: State, actions: seq<Action>)
    requires Undelivered(start) && NoFinals(start.records.reports)
    ensures FinalsSound(After(start, actions))
  {
    if actions != [] {
      AlwaysFinal(start, actions[..|actions| - 1]);
      AlwaysSound(start, actions[..|actions| - 1]);
      NextKeepsFinals(After(start, actions[..|actions| - 1]), actions[|actions| - 1]);
    }
  }

  lemma {:induction false} LastIsReport(reports: seq<Report>, checkpoint: Checkpoint)
    ensures LastReport(reports, checkpoint).Some? ==>
      LastReport(reports, checkpoint).value in reports && LastReport(reports, checkpoint).value.checkpoint == checkpoint
  {
    if reports != [] {
      LastIsReport(reports[..|reports| - 1], checkpoint);
    }
  }

  /** In a run that starts without final reports, whenever the commit record changes the newest final report itself
      passes, agrees with the accepted implementation report outside the documentation path and is of the tree
      validated last. */
  lemma GitAfterNewestFinal(start: State, actions: seq<Action>, a: Action)
    requires Undelivered(start) && NoFinals(start.records.reports)
    requires Next(After(start, actions), a).records.commit != After(start, actions).records.commit
    ensures var r := After(start, actions).records;
      && r.binding.Some? && LastReport(r.reports, Final).Some?
      && ReportHolds(r, LastReport(r.reports, Final).value, r.binding.value.policy)
  {
    GitAfterFinalReport(start, actions, a);
    AlwaysFinal(start, actions);
    LastIsReport(After(start, actions).records.reports, Final);
  }

  // ---------------------------------------------------------------------------------
  // What single transactions do

  /** When a call gets past its first transaction: at a delivery checkpoint, with no other call under way, under the
      bound policy or, before one is bound, after a passing review. */
  lemma BeginExactly(s: State, policy: DeliveryPolicy)
    requires s.driver.None?
    ensures var t, r := Begin(s, policy), s.records.reviews;
      var checkpoint := s.run.state in {Reviewing, ChangeGuard, Documenting, DeliveryValidation, Committing, Pushing,
                                         MemoryFinalization, Completed};
      && t == s.(driver := t.driver)
      && (t.driver.Some? <==>
            checkpoint && if s.records.binding.Some? then s.records.binding.value.policy == policy else r != [] && r[|r| - 1].passed)
      && (t.driver.Some? ==> t.driver.value.policy == policy)
  {
  }

  /** A report holds when it passes and, for the implementation, is of the tree reviewed last; for the final state,
      agrees with the newest implementation report and is of the tree validated last. */
  lemma ReportHoldsExactly(r: DeliveryRecords, report: Report, policy: DeliveryPolicy)
    ensures ReportHolds(r, report, policy) <==>
      && report.passed
      && match report.checkpoint
         case Implementation => r.reviews != [] && report.tree == r.reviews[|r.reviews| - 1].tree
         case Final =>
           && r.validations != [] && report.tree == r.validations[|r.validations| - 1].tree
           && var accepted := LastReport(r.reports, Implementation);
              accepted.Some? && forall path :: Some(path) != policy.documentationPath ==>
                InTree(Present(accepted.value.changes), path) == InTree(Present(report.changes), path)
  {
    var accepted := LastReport(r.reports, Implementation);
    if accepted.Some? {
      AgreesExactly(accepted.value.changes, report.changes, policy.documentationPath);
    }
  }

  /** The changed paths that still exist, with their digests. */
  function Present(changes: map<string, Option<string>>): map<string, string> {
    map path | path in changes && changes[path].Some? :: changes[path].value
  }

  lemma AgreesExactly(accepted: map<string, Option<string>>, final: map<string, Option<string>>, exempt: Option<string>)
    ensures Agrees(accepted, final, exempt) <==>
      forall path :: Some(path) != exempt ==> InTree(Present(accepted), path) == InTree(Present(final), path)
  {
    forall path
      ensures Get(accepted, path) == InTree(Present(accepted), path) && Get(final, path) == InTree(Present(final), path)
    {
    }
    if forall path :: Some(path) != exempt ==> InTree(Present(accepted), path) == InTree(Present(final), path) {
      forall path | path in accepted.Keys + final.Keys
        ensures Some(path) == exempt || Get(accepted, path) == Get(final, path)
      {
      }
    }
    if Agrees(accepted, final, exempt) {
      forall path | Some(path) != exempt
        ensures InTree(Present(accepted), path) == InTree(Present(final), path)
      {
        assert path in accepted.Keys + final.Keys || (path !in accepted && path !in final);
      }
    }
  }

  /** The action of step `k` fails in the run's own state. */
  predicate FailsAt(s: State, k: nat, a: nat, world: World) {
    && s.driver.Some? && s.driver.value.at == Acting(k, a) && a < |s.attempts| && s.attempts[a].status == Running
    && !world.ok && (k == GIT ==> s.run.state == Committing)
  }

  lemma ActFails(s: State, k: nat, a: nat, world: World)
    requires FailsAt(s, k, a, world)
    ensures var t := Act(s, k, a, world);
      t == s.(records := t.records, driver := t.driver) && t.driver == Some(s.driver.value.(at := Failing(k, a)))
  {
  }

  /** A failed action blocks its attempt and its step, then the run, unless some other attempt is still running, and
      ends the call; what the run resumes into is the state it failed in. */
  lemma FailureBlocks(start: State, actions: seq<Action>, k: nat, a: nat, first: World, second: World, third: World)
    requires Undelivered(start) && FailsAt(After(start, actions), k, a, first)
    requires ExecutionState(After(start, actions).run.state)
    ensures var s := After(start, actions);
      k < |s.steps| && s.attempts[a].step == k
      && var t := Continue(s, first);
         t.driver.Some?
         && var u := Continue(t, second);
            u.driver.Some? && u.steps == s.steps[k := Blocked] && u.attempts == s.attempts[a := StepAttempt(k, Blocked)]
            && var v := Continue(u, third);
               && v.driver.None? && v.steps == u.steps && v.attempts == u.attempts
               && (!AnyRunning(u.attempts) ==> v.run.state == BlockedRun && v.run.resumeState == Some(s.run.state))
  {
    AlwaysSound(start, actions);
    ActFails(After(start, actions), k, a, first);
    BlockingEnds(After(start, actions), k, a, first, second, third);
  }

  lemma BlockingEnds(s: State, k: nat, a: nat, first: World, second: World, third: World)
    requires Sound(s) && FailsAt(s, k, a, first) && ExecutionState(s.run.state)
    requires var t := Act(s, k, a, first);
      t == s.(records := t.records, driver := t.driver) && t.driver == Some(s.driver.value.(at := Failing(k, a)))
    ensures k < |s.steps| && s.attempts[a].step == k
    ensures var t := Continue(s, first);
      t.driver.Some?
      && var u := Continue(t, second);
         u.driver.Some? && u.steps == s.steps[k := Blocked] && u.attempts == s.attempts[a := StepAttempt(k, Blocked)]
         && var v := Continue(u, third);
            && v.driver.None? && v.steps == u.steps && v.attempts == u.attempts
            && (!AnyRunning(u.attempts) ==> v.run.state == BlockedRun && v.run.resumeState == Some(s.run.state))
  {
    var t := Act(s, k, a, first);
    assert Continue(s, first) == t;
    assert Transitable(t, a, Blocked);
    var u := Go(Settle(t, a, Blocked), Blocking(a));
    assert Continue(t, second) == u;
    assert !Terminal(u.run.state) && !Suspended(u.run.state);
    if !AnyRunning(u.attempts) {
      BlockedEntered(u);
    }
  }

  lemma BlockedEntered(u: State)
    requires !Terminal(u.run.state) && !Suspended(u.run.state) && !AnyRunning(u.attempts)
    ensures MayEnter(u, BlockedRun) && Enter(u, BlockedRun) == u.(run := MoveRun(u.run, BlockedRun))
    ensures MoveRun(u.run, BlockedRun).resumeState == Some(u.run.state)
  {
  }

  /** Recovery fails an attempt that is under way and makes its step ready to be tried again, as long as no call holds
      the run and it neither has ended nor awaits human review; otherwise it does nothing. */
  lemma RecoverExactly(s: State, a: nat)
    requires a < |s.attempts| ==> s.attempts[a].step < |s.steps|
    ensures Next(s, Retry(a)) ==
      if s.driver.None? && s.run.state !in {Completed, FailedRun, CancelledRun, HumanReviewRequired}
         && a < |s.attempts| && s.attempts[a].status in {Running, Waiting, Blocked}
      then s.(attempts := s.attempts[a := StepAttempt(s.attempts[a].step, Failed)], steps := s.steps[s.attempts[a].step := Ready])
      else s
  {
  }

  /** A running attempt at a step whose action the world carries out. */
  predicate ActsWell(s: State, k: nat, a: nat, world: World) {
    && s.driver.Some? && s.driver.value.at == Acting(k, a) && a < |s.attempts| && s.attempts[a].status == Running && world.ok
  }

  /** An inspection records its report once; the report passes if the inspection does and, for the final state, if it
      agrees with the accepted implementation. */
  lemma InspectExactly(s: State, k: nat, a: nat, world: World)
    requires ActsWell(s, k, a, world) && (k == IMPLEMENTATION || k == FINAL)
    ensures var t, accepted := Act(s, k, a, world), LastReport(s.records.reports, Implementation);
      if k == FINAL && accepted.None? then t == Go(s, Failing(k, a))
      else
        var agrees := k == IMPLEMENTATION || Agrees(accepted.value.changes, world.report.changes, s.driver.value.policy.documentationPath);
        var report := Report(if k == IMPLEMENTATION then Implementation else Final, world.report.passed && agrees,
                             world.report.tree, world.report.changes);
        && t.driver == Some(s.driver.value.(at := Inspected(k, a, report)))
        && t == s.(driver := t.driver, records := s.records.(reports := t.records.reports))
        && report in t.records.reports
        && (t.records.reports == s.records.reports || t.records.reports == s.records.reports + [report])
  {
  }

  /** Documentation needs an accepted implementation; a final validation is recorded whatever it says and goes on only
      if it passes; promotion is recorded. */
  lemma RecordsExactly(s: State, k: nat, a: nat, world: World)
    requires ActsWell(s, k, a, world) && k !in {IMPLEMENTATION, FINAL, GIT}
    ensures var t, r := Act(s, k, a, world), s.records;
      if k == DOCUMENTATION then
        if LastReport(r.reports, Implementation).None? then t == Go(s, Failing(k, a))
        else t == Go(s.(records := r.(documented := true)), Acted(k, a))
      else if k == VALIDATION then
        && t == Go(s.(records := r.(validations := t.records.validations)), if world.validation.passed then Acted(k, a) else Failing(k, a))
        && world.validation in t.records.validations
        && (t.records.validations == r.validations || t.records.validations == r.validations + [world.validation])
      else t == Go(s.(records := r.(promoted := true)), Acted(k, a))
  {
  }

  /** A commit record keeps its tree and whether it is to be pushed; once it is attached, pushed or has a hash, that
      stays. */
  ghost predicate CommitKept(before: Option<Commit>, after: Option<Commit>) {
    before.Some? ==>
      && after.Some? && after.value.tree == before.value.tree && after.value.push == before.value.push
      && (before.value.sha != "" ==> after.value.sha == before.value.sha)
      && (before.value.attached ==> after.value.attached) && (before.value.pushed ==> after.value.pushed)
  }

  lemma CommitStep(s: State, a: Action)
    ensures CommitKept(s.records.commit, Next(s, a).records.commit)
  {
    if a.Proceed? && s.driver.Some? && s.driver.value.at.Acting? {
      ActKeepsCommit(s, s.driver.value.at.acting, s.driver.value.at.attempt, a.world);
    } else if a.Proceed? && s.driver.Some? {
      OthersKeepTheCommit(s, a.world);
    }
  }

  lemma ActKeepsCommit(s: State, k: nat, a: nat, world: World)
    requires s.driver.Some?
    ensures CommitKept(s.records.commit, Act(s, k, a, world).records.commit)
  {
  }

  lemma OthersKeepTheCommit(s: State, world: World)
    requires s.driver.Some? && !s.driver.value.at.Acting?
    ensures CommitKept(s.records.commit, Continue(s, world).records.commit)
  {
  }

  /** A run commits one tree once: whatever is interrupted and repeated later, the commit record keeps its tree, its
      hash and what has been done with it. */
  lemma {:induction false} CommittedOnce(start: State, actions: seq<Action>, later: seq<Action>)
    ensures CommitKept(After(start, actions).records.commit, After(start, actions + later).records.commit)
  {
    if later == [] {
      assert actions + later == actions;
    } else {
      var n := |later| - 1;
      CommittedOnce(start, actions, later[..n]);
      assert (actions + later)[..|actions + later| - 1] == actions + later[..n];
      CommitStep(After(start, actions + later[..n]), later[n]);
    }
  }

  /** Committing: the intent names the finally reported tree and the policy's choice to push; the hash is the one the
      world gives, unless there is one already. */
  lemma CommitExactly(s: State, a: nat, world: World)
    requires ActsWell(s, GIT, a, world) && s.run.state == Committing && MayCommit(s) && s.records.commit.None?
    ensures Act(s, GIT, a, world) ==
      Go(s.(records := s.records.(commit :=
           Some(Commit(true, world.sha, LastReport(s.records.reports, Final).value.tree, s.driver.value.policy.push, false)))),
         Publishing(a, Committing))
  {
  }
}
