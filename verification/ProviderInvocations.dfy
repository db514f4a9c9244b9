/** The two-transaction provider protocol (src/orqalis/agents/service.py, `invoke` and `_finish`).

    A first transaction records the invocation as RUNNING, the provider then runs without any
    lock held, and a second transaction settles the record.  Callers crash, overlap and retry;
    the run and its attempts change in between; recovery interrupts invocations. */
module ProviderInvocations {
  import opened Collections
  import opened RunStates
  import opened Plans

  datatype ErrorCode = Unavailable | Authentication | RateLimit | Timeout | CancelledCall | InvalidOutput | Refused
    | Budget | Transport | Interrupted | Internal

  datatype InvocationStatus = InvRunning | InvSucceeded | InvFailed | InvCancelled | InvInterrupted

  datatype Invocation = Invocation(requestHash: string, execution: Uuid, deadline: int, status: InvocationStatus,
                                   result: Option<string>, error: Option<ErrorCode>)

  /** The durable records the protocol reads and writes.  Invocations are identified by their key. */
  datatype Store = Store(run: RunState, attempts: map<Uuid, TaskStatus>, invocations: map<string, Invocation>)

  predicate Active(s: RunState) {
    s in {Analyzing, Executing, Testing, Reviewing, ChangeGuard, Documenting}
  }

  predicate Working(store: Store, execution: Uuid) {
    Active(store.run) && execution in store.attempts && store.attempts[execution] == Running
  }

  /** What a call asks for: `permitted` stands for the checks before the record is looked up, `currentGoal` for
      preparatory work or a plan of the current goal. */
  datatype Request = Request(key: string, execution: Uuid, hash: string, timeout: nat, permitted: bool, currentGoal: bool)

  datatype Denial = NotPermitted | DifferentRequest | InProgress | NotActive | Provider(code: ErrorCode)

  /** The outcome of the first transaction. */
  datatype Admission = Replayed(result: string) | Denied(why: Denial) | Admitted

  // ---------------------------------------------------------------------------------
  // The two transactions

  function StatusFor(error: Option<ErrorCode>): InvocationStatus {
    match error
    case None => InvSucceeded
    case Some(CancelledCall) => InvCancelled
    case Some(Interrupted) => InvInterrupted
    case Some(_) => InvFailed
  }

  /** `_finish`. */
  function Settle(inv: Invocation, result: Option<string>, error: Option<ErrorCode>): Invocation {
    inv.(status := StatusFor(error), result := result, error := error)
  }

  function ErrorOr(error: Option<ErrorCode>, default: ErrorCode): ErrorCode {
    if error.Some? then error.value else default
  }

  function Begin(store: Store, request: Request, now: int): (Store, Admission) {
    var key := request.key;
    if !request.permitted then (store, Denied(NotPermitted))
    else if key in store.invocations then
      var existing := store.invocations[key];
      if existing.requestHash != request.hash then (store, Denied(DifferentRequest))
      else if existing.status == InvSucceeded && existing.result.Some? then (store, Replayed(existing.result.value))
      else if existing.status == InvRunning then
        if existing.deadline >= now then (store, Denied(InProgress))
        else (store.(invocations := store.invocations[key := Settle(existing, None, Some(Interrupted))]),
              Denied(Provider(Interrupted)))
      else (store, Denied(Provider(ErrorOr(existing.error, Internal))))
    else if !Working(store, request.execution) || !request.currentGoal then (store, Denied(NotActive))
    else
      var inv := Invocation(request.hash, request.execution, now + request.timeout, InvRunning, None, None);
      (store.(invocations := store.invocations[key := inv]), Admitted)
  }

  /** How the provider call ended: a validated result, or an error; `CancelledCall` also when the caller was cancelled. */
  type Answer = Result<string, ErrorCode>

  /** The second transaction; the second component is what the caller gets. */
  function Finish(store: Store, key: string, execution: Uuid, answer: Answer): (Store, Result<string, ErrorCode>)
    requires key in store.invocations
  {
    var current := store.invocations[key];
    if current.status != InvRunning then (store, Err(ErrorOr(current.error, Interrupted)))
    else
      var outcome: Answer := if Working(store, execution) then answer else Err(CancelledCall);
      var settled := match outcome
        case Ok(result) => Settle(current, Some(result), None)
        case Err(error) => Settle(current, None, Some(error));
      (store.(invocations := store.invocations[key := settled]),
       if answer == Err(CancelledCall) then answer else outcome)
  }

  /** Recovery marks the running invocations of an attempt as interrupted (src/orqalis/core/recovery.py, lines 101-114). */
  function Recover(store: Store, execution: Uuid): Store {
    store.(invocations := map key | key in store.invocations ::
      var inv := store.invocations[key];
      if inv.execution == execution && inv.status == InvRunning
      then inv.(status := InvInterrupted, error := Some(Interrupted)) else inv)
  }

  /** The service over its store. */
  class AgentExecutionService {
    var run: RunState
    var attempts: map<Uuid, TaskStatus>
    var invocations: map<string, Invocation>

    ghost function Value(): Store
      reads this
    {
      Store(run, attempts, invocations)
    }

    constructor (store: Store)
      ensures Value() == store
    {
      run, attempts, invocations := store.run, store.attempts, store.invocations;
    }

    method Save(key: string, inv: Invocation, result: Option<string>, error: Option<ErrorCode>)
      modifies this
      ensures Value() == old(Value()).(invocations := old(invocations)[key := Settle(inv, result, error)])
    {
      var status :=
        if error.None? then InvSucceeded
        else if error.value == CancelledCall then InvCancelled
        else if error.value == Interrupted then InvInterrupted
        else InvFailed;
      invocations := invocations[key := inv.(status := status, result := result, error := error)];
    }

    /** `invoke` up to its first commit. */
    method BeginInvocation(request: Request, now: int) returns (admission: Admission)
      modifies this
      ensures (Value(), admission) == Begin(old(Value()), request, now)
    {
      if !request.permitted {
        return Denied(NotPermitted);
      }
      if request.key in invocations {
        var existing := invocations[request.key];
        if existing.requestHash != request.hash {
          return Denied(DifferentRequest);
        }
        if existing.status == InvSucceeded && existing.result.Some? {
          return Replayed(existing.result.value);
        }
        if existing.status == InvRunning {
          if existing.deadline >= now {
            return Denied(InProgress);
          }
          Save(request.key, existing, None, Some(Interrupted));
          return Denied(Provider(Interrupted));
        }
        return Denied(Provider(if existing.error.Some? then existing.error.value else Internal));
      }
      var attempt := if request.execution in attempts then Some(attempts[request.execution]) else None;
      if !Active(run) || attempt != Some(Running) || !request.currentGoal {
        return Denied(NotActive);
      }
      var inv := Invocation(request.hash, request.execution, now + request.timeout, InvRunning, None, None);
      invocations := invocations[request.key := inv];
      return Admitted;
    }

    /** `invoke` after the provider answered. */
    method FinishInvocation(key: string, execution: Uuid, answer: Answer) returns (reply: Result<string, ErrorCode>)
      requires key in invocations
      modifies this
      ensures (Value(), reply) == Finish(old(Value()), key, execution, answer)
    {
      var result := if answer.Ok? then Some(answer.value) else None;
      var error := if answer.Ok? then None else Some(answer.error);
      var cancelled := answer == Err(CancelledCall);
      var current := invocations[key];
      if current.status != InvRunning {
        return Err(if current.error.Some? then current.error.value else Interrupted);
      }
      var attempt := if execution in attempts then Some(attempts[execution]) else None;
      if !Active(run) || attempt != Some(Running) {
        result, error := None, Some(CancelledCall);
      }
      Save(key, current, result, error);
      if cancelled {
        return Err(CancelledCall);
      }
      if error.Some? {
        return Err(error.value);
      }
      return Ok(result.value);
    }
  }

  // ---------------------------------------------------------------------------------
  // Runs

  /** Where one call of `invoke` stands; `hash` is the digest of the request it was made for. */
  datatype Call =
    | Prepared(key: string, hash: string, execution: Uuid)
    | Awaiting(key: string, hash: string, execution: Uuid)
    | Answered(key: string, hash: string, execution: Uuid, answer: Answer)
    | Returned(key: string, hash: string, result: string)
    | Raised(why: Denial)
    | Crashed

  /** `started` lists the keys in the order their providers started; `owner` names the call that created a record. */
  datatype State = State(store: Store, calls: map<nat, Call>, started: seq<string>, owner: map<string, nat>)

  datatype Action =
    | Arrive(call: nat, request: Request, now: int)
    | StartProvider(call: nat)
    | ProviderAnswers(call: nat, answer: Answer)
    | Complete(call: nat)
    | Crash(call: nat)
    | RecoverAttempt(execution: Uuid)
    | RunBecomes(run: RunState)
    | AttemptBecomes(execution: Uuid, status: TaskStatus)

  function Arrived(s: State, call: nat, request: Request, now: int): State {
    var (store, admission) := Begin(s.store, request, now);
    match admission
    case Admitted =>
      State(store, s.calls[call := Prepared(request.key, request.hash, request.execution)], s.started,
            s.owner[request.key := call])
    case Replayed(result) => s.(calls := s.calls[call := Returned(request.key, request.hash, result)])
    case Denied(why) => s.(store := store, calls := s.calls[call := Raised(why)])
  }

  function Completed(s: State, call: nat): State
    requires call in s.calls && s.calls[call].Answered? && s.calls[call].key in s.store.invocations
  {
    var c := s.calls[call];
    var (store, reply) := Finish(s.store, c.key, c.execution, c.answer);
    s.(store := store, calls := s.calls[call := if reply.Ok? then Returned(c.key, c.hash, reply.value)
                                                else Raised(Provider(reply.error))])
  }

  function Next(s: State, a: Action): State {
    match a
    case Arrive(call, request, now) => if call in s.calls then s else Arrived(s, call, request, now)
    case StartProvider(call) =>
      if call in s.calls && s.calls[call].Prepared?
      then s.(calls := s.calls[call := Awaiting(s.calls[call].key, s.calls[call].hash, s.calls[call].execution)],
              started := s.started + [s.calls[call].key])
      else s
    case ProviderAnswers(call, answer) =>
      if call in s.calls && s.calls[call].Awaiting?
      then s.(calls := s.calls[call := Answered(s.calls[call].key, s.calls[call].hash, s.calls[call].execution, answer)])
      else s
    case Complete(call) =>
      if call in s.calls && s.calls[call].Answered? && s.calls[call].key in s.store.invocations
      then Completed(s, call) else s
    case Crash(call) =>
      if call in s.calls && (s.calls[call].Prepared? || s.calls[call].Awaiting? || s.calls[call].Answered?)
      then s.(calls := s.calls[call := Crashed]) else s
    case RecoverAttempt(execution) => s.(store := Recover(s.store, execution))
    case RunBecomes(run) => s.(store := s.store.(run := run))
    case AttemptBecomes(execution, status) => s.(store := s.store.(attempts := s.store.attempts[execution := status]))
  }

  const START := State(Store(Received, map[], map[]), map[], [], map[])

  function Run(actions: seq<Action>): State {
    if actions == [] then START else Next(Run(actions[..|actions| - 1]), actions[|actions| - 1])
  }

  // ---------------------------------------------------------------------------------
  // Invariant

  ghost predicate Coherent(inv: Invocation) {
    && (inv.status == InvRunning ==> inv.result.None? && inv.error.None?)
    && (inv.status == InvSucceeded <==> inv.result.Some?)
    && (inv.status == InvSucceeded ==> inv.error.None?)
  }

  ghost predicate Holds(s: State, call: nat) {
    call in s.calls && (s.calls[call].Prepared? || s.calls[call].Awaiting? || s.calls[call].Answered?)
  }

  ghost predicate RecordsCoherent(s: State) {
    && s.owner.Keys == s.store.invocations.Keys
    && forall key :: key in s.store.invocations ==> Coherent(s.store.invocations[key])
  }

  /** Whoever is between the transactions owns the record of its key. */
  ghost predicate Owned(s: State) {
    && (forall c :: Holds(s, c) ==> s.calls[c].key in s.owner && s.owner[s.calls[c].key] == c)
    && (forall key :: key in s.owner ==> s.owner[key] in s.calls)
  }

  /** The provider started at most once per key: not before its owner left the prepared stage, and before any answer. */
  ghost predicate StartedOnce(s: State) {
    && (forall key :: multiset(s.started)[key] <= 1)
    && (forall key :: key in s.started ==> key in s.owner)
    && (forall c :: c in s.calls && s.calls[c].Prepared? ==> s.calls[c].key !in s.started)
    && (forall c :: c in s.calls && (s.calls[c].Awaiting? || s.calls[c].Answered?) ==> s.calls[c].key in s.started)
  }

  /** Whoever returned normally returned the recorded result. */
  ghost predicate ReturnsRecorded(s: State) {
    forall c :: c in s.calls && s.calls[c].Returned? ==>
      && s.calls[c].key in s.store.invocations
      && s.store.invocations[s.calls[c].key].result == Some(s.calls[c].result)
  }

  ghost predicate Inv(s: State) {
    RecordsCoherent(s) && Owned(s) && StartedOnce(s) && ReturnsRecorded(s)
  }

  /** A record that has left RUNNING never changes; a record's request and attempt never change. */
  ghost predicate Extends(before: Store, after: Store) {
    forall key :: key in before.invocations ==>
      && key in after.invocations
      && (before.invocations[key].status != InvRunning ==> after.invocations[key] == before.invocations[key])
      && after.invocations[key].requestHash == before.invocations[key].requestHash
      && after.invocations[key].execution == before.invocations[key].execution
  }

  lemma BeginExtends(store: Store, request: Request, now: int)
    ensures Extends(store, Begin(store, request, now).0)
  {
  }

  lemma FinishExtends(store: Store, key: string, execution: Uuid, answer: Answer)
    requires key in store.invocations
    ensures Extends(store, Finish(store, key, execution, answer).0)
  {
  }

  lemma NextExtends(s: State, a: Action)
    requires RecordsCoherent(s)
    ensures Extends(s.store, Next(s, a).store)
  {
    match a
    case Arrive(call, request, now) => BeginExtends(s.store, request, now);
    case Complete(call) =>
      if call in s.calls && s.calls[call].Answered? && s.calls[call].key in s.store.invocations {
        var c := s.calls[call];
        FinishExtends(s.store, c.key, c.execution, c.answer);
      }
    case _ =>
  }

  lemma BeginCoherent(s: State, call: nat, request: Request, now: int)
    requires RecordsCoherent(s)
    ensures RecordsCoherent(Arrived(s, call, request, now))
    ensures Begin(s.store, request, now).1.Admitted? ==> request.key !in s.owner
  {
  }

  lemma BeginOwned(s: State, call: nat, request: Request, now: int)
    requires RecordsCoherent(s) && Owned(s) && call !in s.calls
    ensures Owned(Arrived(s, call, request, now))
  {
    var t := Arrived(s, call, request, now);
    forall c | Holds(t, c)
      ensures t.calls[c].key in t.owner && t.owner[t.calls[c].key] == c
    {
      if c != call {
        assert Holds(s, c);
      }
    }
  }

  lemma BeginStarted(s: State, call: nat, request: Request, now: int)
    requires RecordsCoherent(s) && StartedOnce(s) && call !in s.calls
    ensures StartedOnce(Arrived(s, call, request, now))
  {
    BeginCoherent(s, call, request, now);
  }

  lemma BeginReturns(s: State, call: nat, request: Request, now: int)
    requires RecordsCoherent(s) && ReturnsRecorded(s) && call !in s.calls
    ensures ReturnsRecorded(Arrived(s, call, request, now))
  {
    var t := Arrived(s, call, request, now);
    forall c | c in t.calls && t.calls[c].Returned?
      ensures t.calls[c].key in t.store.invocations
      ensures t.store.invocations[t.calls[c].key].result == Some(t.calls[c].result)
    {
      if c != call {
        assert s.calls[c].Returned?;
        assert s.store.invocations[t.calls[c].key].status == InvSucceeded;
      }
    }
  }

  lemma BeginKeepsInv(s: State, call: nat, request: Request, now: int)
    requires Inv(s) && call !in s.calls
    ensures Inv(Arrived(s, call, request, now))
  {
    BeginCoherent(s, call, request, now);
    BeginOwned(s, call, request, now);
    BeginStarted(s, call, request, now);
    BeginReturns(s, call, request, now);
  }

  lemma FinishCoherent(store: Store, key: string, execution: Uuid, answer: Answer)
    requires key in store.invocations && Coherent(store.invocations[key])
    ensures var (after, reply) := Finish(store, key, execution, answer);
      && after.invocations.Keys == store.invocations.Keys
      && (forall k :: k in store.invocations && k != key ==> after.invocations[k] == store.invocations[k])
      && Coherent(after.invocations[key])
      && (store.invocations[key].status != InvRunning ==> after == store)
      && (reply.Ok? ==> after.invocations[key].result == Some(reply.value))
  {
  }

  lemma CompleteReturns(s: State, call: nat)
    requires RecordsCoherent(s) && ReturnsRecorded(s)
    requires call in s.calls && s.calls[call].Answered? && s.calls[call].key in s.store.invocations
    ensures ReturnsRecorded(Completed(s, call))
  {
    var t, k := Completed(s, call), s.calls[call];
    FinishCoherent(s.store, k.key, k.execution, k.answer);
    forall c | c in t.calls && t.calls[c].Returned?
      ensures t.calls[c].key in t.store.invocations
      ensures t.store.invocations[t.calls[c].key].result == Some(t.calls[c].result)
    {
      if c != call {
        assert s.calls[c].Returned?;
        assert s.store.invocations[t.calls[c].key].status == InvSucceeded;
      }
    }
  }

  lemma CompleteKeepsInv(s: State, call: nat)
    requires Inv(s) && call in s.calls && s.calls[call].Answered?
    ensures s.calls[call].key in s.store.invocations && Inv(Completed(s, call))
  {
    assert Holds(s, call);
    var t, k := Completed(s, call), s.calls[call];
    FinishCoherent(s.store, k.key, k.execution, k.answer);
    assert RecordsCoherent(t);
    assert Owned(t) by {
      assert forall c :: Holds(t, c) ==> Holds(s, c);
    }
    assert StartedOnce(t);
    CompleteReturns(s, call);
  }

  lemma StartKeepsInv(s: State, call: nat)
    requires Inv(s) && call in s.calls && s.calls[call].Prepared?
    ensures Inv(Next(s, StartProvider(call)))
  {
    var t := Next(s, StartProvider(call));
    var key := s.calls[call].key;
    assert multiset(t.started) == multiset(s.started) + multiset{key};
    assert key !in multiset(s.started);
    forall c | c in t.calls && t.calls[c].Prepared?
      ensures t.calls[c].key !in t.started
    {
      assert Holds(s, c) && Holds(s, call);
    }
  }

  lemma NextKeepsInv(s: State, a: Action)
    requires Inv(s)
    ensures Inv(Next(s, a))
  {
    match a {
      case Arrive(call, request, now) =>
        if call !in s.calls {
          BeginKeepsInv(s, call, request, now);
        }
      case StartProvider(call) =>
        if call in s.calls && s.calls[call].Prepared? {
          StartKeepsInv(s, call);
        }
      case Complete(call) =>
        if call in s.calls && s.calls[call].Answered? {
          CompleteKeepsInv(s, call);
        }
      case ProviderAnswers(call, answer) => AnswerKeepsInv(s, call, answer);
      case Crash(call) => CrashKeepsInv(s, call);
      case _ => OutsideKeepsInv(s, a);
    }
  }

  lemma AnswerKeepsInv(s: State, call: nat, answer: Answer)
    requires Inv(s)
    ensures Inv(Next(s, ProviderAnswers(call, answer)))
  {
  }

  lemma CrashKeepsInv(s: State, call: nat)
    requires Inv(s)
    ensures Inv(Next(s, Crash(call)))
  {
  }

  lemma OutsideKeepsInv(s: State, a: Action)
    requires Inv(s) && (a.RecoverAttempt? || a.RunBecomes? || a.AttemptBecomes?)
    ensures Inv(Next(s, a))
  {
  }

  lemma {:induction false} RunKeepsInv(actions: seq<Action>)
    ensures Inv(Run(actions))
  {
    if actions != [] {
      RunKeepsInv(actions[..|actions| - 1]);
      NextKeepsInv(Run(actions[..|actions| - 1]), actions[|actions| - 1]);
    }
  }

  // ---------------------------------------------------------------------------------
  // Results

  /** Under any interleaving the provider starts at most once per invocation key. */
  lemma AtMostOnce(actions: seq<Action>, key: string)
    ensures multiset(Run(actions).started)[key] <= 1
  {
    RunKeepsInv(actions);
  }

  lemma ExtendsTransitive(a: Store, b: Store, c: Store)
    requires Extends(a, b) && Extends(b, c)
    ensures Extends(a, c)
  {
  }

  lemma OneMoreExtends(actions: seq<Action>, a: Action)
    ensures Extends(Run(actions).store, Run(actions + [a]).store)
  {
    RunKeepsInv(actions);
    NextExtends(Run(actions), a);
    assert (actions + [a])[..|actions|] == actions;
  }

  /** A record leaves RUNNING once: whatever happens later, a settled record stays as it is. */
  lemma {:induction false} SettledForever(actions: seq<Action>, later: seq<Action>)
    ensures Extends(Run(actions).store, Run(actions + later).store)
  {
    if later == [] {
      assert actions + later == actions;
    } else {
      var front, last := later[..|later| - 1], later[|later| - 1];
      assert actions + later == (actions + front) + [last];
      SettledForever(actions, front);
      OneMoreExtends(actions + front, last);
      ExtendsTransitive(Run(actions).store, Run(actions + front).store, Run(actions + later).store);
    }
  }

  /** Calls for the same key that return normally return the same result. */
  lemma SameResult(actions: seq<Action>, c: nat, d: nat)
    ensures var s := Run(actions);
      c in s.calls && d in s.calls && s.calls[c].Returned? && s.calls[d].Returned? && s.calls[c].key == s.calls[d].key ==>
        s.calls[c].result == s.calls[d].result
  {
    RunKeepsInv(actions);
  }

  /** `a` is the second transaction that settles `key` as SUCCEEDED with its owner's answer. */
  ghost predicate SettlesWorking(s: State, a: Action, key: string, settled: Invocation) {
    && a.Complete? && a.call in s.calls && s.calls[a.call].Answered? && s.calls[a.call].key == key
    && Working(s.store, s.calls[a.call].execution)
    && settled.result.Some? && s.calls[a.call].answer == Ok(settled.result.value)
    && key in s.owner && s.owner[key] == a.call && key in s.started
  }

  /** A record becomes SUCCEEDED only in a second transaction that finds the run and the attempt active,
      and then holds the answer of the provider its owner started. */
  lemma SucceedsOnlyWhileWorking(actions: seq<Action>, a: Action, key: string)
    requires Succeeds(Run(actions).store, Next(Run(actions), a).store, key)
    ensures SettlesWorking(Run(actions), a, key, Next(Run(actions), a).store.invocations[key])
  {
    RunKeepsInv(actions);
    BecomesSucceeded(Run(actions), a, key);
  }

  /** `key` has become SUCCEEDED from `before` to `after`. */
  ghost predicate Succeeds(before: Store, after: Store, key: string) {
    && key in after.invocations && after.invocations[key].status == InvSucceeded
    && (key !in before.invocations || before.invocations[key].status != InvSucceeded)
  }

  lemma OthersDoNotSucceed(s: State, a: Action, key: string)
    requires !a.Complete?
    ensures !Succeeds(s.store, Next(s, a).store, key)
  {
  }

  lemma BecomesSucceeded(s: State, a: Action, key: string)
    requires Inv(s) && Succeeds(s.store, Next(s, a).store, key)
    ensures SettlesWorking(s, a, key, Next(s, a).store.invocations[key])
  {
    if a.Complete? {
      if a.call in s.calls && s.calls[a.call].Answered? {
        assert Holds(s, a.call);
        var c := s.calls[a.call];
        FinishCoherent(s.store, c.key, c.execution, c.answer);
      }
    } else {
      OthersDoNotSucceed(s, a, key);
    }
  }

  // ---------------------------------------------------------------------------------
  // What each transaction answers

  /** The record of a call's key, if it has one, was made for the same request. */
  ghost predicate SameRequest(store: Store, c: Call) {
    c.Prepared? || c.Awaiting? || c.Answered? || c.Returned? ==>
      c.key in store.invocations && store.invocations[c.key].requestHash == c.hash
  }

  ghost predicate RequestsKept(s: State) { forall c :: c in s.calls ==> SameRequest(s.store, s.calls[c]) }

  lemma RequestsStayKept(s: State, t: State)
    requires RequestsKept(s) && Extends(s.store, t.store)
    requires forall c :: c in t.calls && (c !in s.calls || t.calls[c] != s.calls[c]) ==> SameRequest(t.store, t.calls[c])
    ensures RequestsKept(t)
  {
    forall c | c in t.calls
      ensures SameRequest(t.store, t.calls[c])
    {
      if c in s.calls && t.calls[c] == s.calls[c] {
        assert SameRequest(s.store, s.calls[c]);
      }
    }
  }

  lemma ArrivalKeepsRequests(s: State, call: nat, request: Request, now: int)
    requires RequestsKept(s) && call !in s.calls
    ensures RequestsKept(Arrived(s, call, request, now))
  {
    BeginExtends(s.store, request, now);
    RequestsStayKept(s, Arrived(s, call, request, now));
  }

  lemma CompletionKeepsRequests(s: State, call: nat)
    requires RequestsKept(s) && call in s.calls && s.calls[call].Answered? && s.calls[call].key in s.store.invocations
    ensures RequestsKept(Completed(s, call))
  {
    var c := s.calls[call];
    FinishExtends(s.store, c.key, c.execution, c.answer);
    assert SameRequest(s.store, c);
    RequestsStayKept(s, Completed(s, call));
  }

  lemma NextKeepsRequests(s: State, a: Action)
    requires Inv(s) && RequestsKept(s)
    ensures RequestsKept(Next(s, a))
  {
    if a.Arrive? {
      if a.call !in s.calls {
        ArrivalKeepsRequests(s, a.call, a.request, a.now);
      }
    } else if a.Complete? {
      if Holds(s, a.call) && s.calls[a.call].Answered? {
        CompletionKeepsRequests(s, a.call);
      }
    } else {
      NextExtends(s, a);
      if (a.StartProvider? || a.ProviderAnswers?) && a.call in s.calls {
        assert SameRequest(s.store, s.calls[a.call]);
      }
      RequestsStayKept(s, Next(s, a));
    }
  }

  /** No call is ever answered for another request: whoever is under way or returned asked what its key's record was
      made for. */
  lemma EachForItsRequest(actions: seq<Action>, call: nat)
    ensures var s := Run(actions);
      call in s.calls && !s.calls[call].Raised? && !s.calls[call].Crashed? ==>
        && s.calls[call].key in s.store.invocations
        && s.store.invocations[s.calls[call].key].requestHash == s.calls[call].hash
  {
    RunKeepsRequests(actions);
    var s := Run(actions);
    assert call in s.calls ==> SameRequest(s.store, s.calls[call]);
  }

  lemma {:induction false} RunKeepsRequests(actions: seq<Action>)
    ensures RequestsKept(Run(actions))
  {
    if actions != [] {
      RunKeepsRequests(actions[..|actions| - 1]);
      RunKeepsInv(actions[..|actions| - 1]);
      NextKeepsRequests(Run(actions[..|actions| - 1]), actions[|actions| - 1]);
    }
  }

  /** A permitted call under a key that is taken.  For another request it is refused.  For the same request it gets
      the recorded result, or the recorded error; while the record is running it is refused up to the deadline, and
      afterwards settles the record as interrupted.  It never starts the provider. */
  lemma RepeatedCallExactly(actions: seq<Action>, call: nat, request: Request, now: int)
    requires call !in Run(actions).calls && request.permitted && request.key in Run(actions).store.invocations
    ensures var s, t := Run(actions), Next(Run(actions), Arrive(call, request, now));
      var record := s.store.invocations[request.key];
      && t.started == s.started && t.owner == s.owner
      && if record.requestHash != request.hash then t == s.(calls := s.calls[call := Raised(DifferentRequest)])
         else
           match record.status
           case InvSucceeded =>
             record.result.Some? && t == s.(calls := s.calls[call := Returned(request.key, request.hash, record.result.value)])
           case InvRunning =>
             if now <= record.deadline then t == s.(calls := s.calls[call := Raised(InProgress)])
             else
               && t.calls == s.calls[call := Raised(Provider(Interrupted))]
               && t.store == s.store.(invocations := s.store.invocations[request.key :=
                    record.(status := InvInterrupted, error := Some(Interrupted))])
           case _ =>
             t == s.(calls := s.calls[call := Raised(Provider(if record.error.Some? then record.error.value else Internal))])
  {
    RunKeepsInv(actions);
    assert Coherent(Run(actions).store.invocations[request.key]);
  }

  /** A call under a new key is admitted exactly when it is permitted and run, attempt and goal are current; its
      record then carries its request, its attempt and its deadline. */
  lemma NewCallExactly(actions: seq<Action>, call: nat, request: Request, now: int)
    requires call !in Run(actions).calls && request.key !in Run(actions).store.invocations
    ensures var s, t := Run(actions), Next(Run(actions), Arrive(call, request, now));
      var working := && s.store.run in {Analyzing, Executing, Testing, Reviewing, ChangeGuard, Documenting}
                     && request.execution in s.store.attempts && s.store.attempts[request.execution] == Running;
      if !request.permitted then t == s.(calls := s.calls[call := Raised(NotPermitted)])
      else if !working || !request.currentGoal then t == s.(calls := s.calls[call := Raised(NotActive)])
      else
        && t.calls == s.calls[call := Prepared(request.key, request.hash, request.execution)]
        && t.started == s.started && t.owner == s.owner[request.key := call]
        && t.store == s.store.(invocations := s.store.invocations[request.key :=
             Invocation(request.hash, request.execution, now + request.timeout, InvRunning, None, None)])
  {
  }

  /** What the second transaction does.  A record that is no longer running is left alone and its error returned.  A
      running one is settled: by the answer while run and attempt are active, as cancelled otherwise; the caller gets
      the result or the error, and its own cancellation in any case. */
  lemma CompleteExactly(actions: seq<Action>, call: nat)
    requires call in Run(actions).calls && Run(actions).calls[call].Answered?
    ensures var s, t := Run(actions), Next(Run(actions), Complete(call));
      var c := s.calls[call];
      && c.key in s.store.invocations
      && var record := s.store.invocations[c.key];
         if record.status != InvRunning then
           t == s.(calls := s.calls[call := Raised(Provider(if record.error.Some? then record.error.value else Interrupted))])
         else
           var working := && s.store.run in {Analyzing, Executing, Testing, Reviewing, ChangeGuard, Documenting}
                          && c.execution in s.store.attempts && s.store.attempts[c.execution] == Running;
           && SettledBy(record, t.store.invocations[c.key], if working then c.answer else Err(CancelledCall))
           && t.store == s.store.(invocations := s.store.invocations[c.key := t.store.invocations[c.key]])
           && t.calls == s.calls[call := if working && c.answer.Ok? then Returned(c.key, c.hash, c.answer.value)
                                         else Raised(Provider(if working then c.answer.error else CancelledCall))]
  {
    RunKeepsInv(actions);
    var s := Run(actions);
    assert Holds(s, call);
    assert Coherent(s.store.invocations[s.calls[call].key]);
    FinishExactly(s.store, s.calls[call].key, s.calls[call].execution, s.calls[call].answer);
  }

  lemma FinishExactly(store: Store, key: string, execution: Uuid, answer: Answer)
    requires key in store.invocations && Coherent(store.invocations[key])
    ensures var (t, reply) := Finish(store, key, execution, answer);
      var record := store.invocations[key];
      if record.status != InvRunning then
        t == store && reply == Err(if record.error.Some? then record.error.value else Interrupted)
      else
        var working := && store.run in {Analyzing, Executing, Testing, Reviewing, ChangeGuard, Documenting}
                       && execution in store.attempts && store.attempts[execution] == Running;
        && key in t.invocations
        && SettledBy(record, t.invocations[key], if working then answer else Err(CancelledCall))
        && t == store.(invocations := store.invocations[key := t.invocations[key]])
        && reply == if working then answer else Err(CancelledCall)
  {
  }

  /** A running record settled by this outcome of its provider: request, attempt and deadline stay. */
  ghost predicate SettledBy(before: Invocation, after: Invocation, outcome: Answer)
    requires before.status == InvRunning
  {
    && after == before.(status := after.status, result := after.result, error := after.error)
    && (outcome.Ok? ==> after.status == InvSucceeded && after.result == Some(outcome.value) && after.error == None)
    && (outcome.Err? ==>
          && after.result == None && after.error == Some(outcome.error)
          && (after.status == InvCancelled <==> outcome.error == CancelledCall)
          && (after.status == InvInterrupted <==> outcome.error == Interrupted)
          && after.status in {InvFailed, InvCancelled, InvInterrupted})
  }

  /** Recovery interrupts the running records of its attempt, and nothing else. */
  lemma RecoverExactly(actions: seq<Action>, execution: Uuid, key: string)
    requires key in Run(actions).store.invocations
    ensures var s, t := Run(actions), Next(Run(actions), RecoverAttempt(execution));
      var record := s.store.invocations[key];
      && t.calls == s.calls && t.store.invocations.Keys == s.store.invocations.Keys
      && t.store.invocations[key] ==
         if record.execution == execution && record.status == InvRunning
         then record.(status := InvInterrupted, error := Some(Interrupted)) else record
  {
  }
}
