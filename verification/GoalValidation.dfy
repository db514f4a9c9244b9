/** Goal versions and the validation protocol (src/orqalis/core/goals.py, `revise`, `define_initial`, `validate`).

    A validation records its start in one transaction, evaluates without a lock, and attaches its
    evidence in a second transaction.  Validations of many callers overlap with each other, with
    goal revisions, with cancellations and with the reviewer's own evidence. */
module GoalValidation {
  import opened Collections
  import opened RunStates

  datatype Kind = Machine(name: string) | Review | Manual

  datatype Status = Pending | Testing | Pass | Fail

  /** A criterion belongs to one goal version; its identity is new in every version. */
  datatype CriterionId = CriterionId(goal: nat, key: string)

  /** Evidence identities are derived from the criterion and the caller's key, or from a review. */
  datatype EvidenceId = ByKey(criterion: CriterionId, key: string) | ByReview(review: nat, of: CriterionId)

  datatype Criterion = Criterion(kind: Kind, status: Status, attempts: nat, refs: seq<EvidenceId>)

  /** `goal` is the current version (0: none); `started` are the validations whose start is in the event log. */
  datatype Store = Store(run: RunState, goal: nat, delivering: bool, criteria: map<CriterionId, Criterion>,
                         evidence: map<EvidenceId, bool>, started: set<EvidenceId>)

  // ---------------------------------------------------------------------------------
  // Transactions

  datatype Admission = Replayed(passed: bool) | Refused | Admitted(id: EvidenceId)

  /** `attempt` is the caller's task attempt: none given, or whether it is running. */
  function Begin(store: Store, criterion: string, key: string, attempt: Option<bool>): (Store, Admission) {
    var c := CriterionId(store.goal, criterion);
    var id := ByKey(c, key);
    if Blank(key) || store.goal == 0 || c !in store.criteria then (store, Refused)
    else if id in store.evidence then (store, Replayed(store.evidence[id]))
    else if id in store.started || attempt == Some(false) then (store, Refused)
    else
      (store.(criteria := store.criteria[c := store.criteria[c].(status := Status.Testing)], started := store.started + {id}),
       Admitted(id))
  }

  function Verdict(store: Store, kind: Kind, passed: bool): Status {
    if kind.Review? || kind.Manual? || store.run in {CancelledRun, FailedRun} then Pending
    else if passed then Pass else Fail
  }

  /** Stores a piece of evidence and its verdict with the criterion. */
  function Attach(store: Store, c: CriterionId, id: EvidenceId, status: Status, passed: bool): Store
    requires c in store.criteria
  {
    var current := store.criteria[c];
    var updated := Criterion(current.kind, status, current.attempts + 1, current.refs + [id]);
    store.(criteria := store.criteria[c := updated], evidence := store.evidence[id := passed])
  }

  /** The second transaction: refused when the goal has moved on. */
  function Record(store: Store, id: EvidenceId, passed: bool): Option<Store>
    requires id.ByKey?
  {
    var c := id.criterion;
    if store.goal != c.goal || c !in store.criteria then None
    else Some(Attach(store, c, id, Verdict(store, store.criteria[c].kind, passed), passed))
  }

  function Fresh(draft: map<string, Kind>, goal: nat): map<CriterionId, Criterion> {
    map c: CriterionId | c in (set k | k in draft :: CriterionId(goal, k)) :: Criterion(draft[c.key], Pending, 0, [])
  }

  /** `define_initial` creates version 1, `revise` the next one; the caller names the version it has seen. */
  function Revise(store: Store, expected: nat, draft: map<string, Kind>): Option<Store> {
    if store.goal == 0 then
      if store.run != Analyzing || expected != 0 then None
      else Some(store.(goal := 1, criteria := store.criteria + Fresh(draft, 1)))
    else if store.run !in {Received, Analyzing, GoalDefined, Paused, HumanReviewRequired}
            || store.delivering || expected != store.goal then None
    else Some(store.(goal := store.goal + 1, criteria := store.criteria + Fresh(draft, store.goal + 1)))
  }

  /** The independent reviewer's own evidence (src/orqalis/execution/review.py, lines 111-203): a PASS only for
      review criteria, never for manual ones; a FAIL for any. */
  function ReviewRecord(store: Store, review: nat, c: CriterionId, passed: bool): Option<Store> {
    var id := ByReview(review, c);
    if c.goal != store.goal || c !in store.criteria || id in store.evidence then None
    else if passed && store.criteria[c].kind != Review then None
    else Some(Attach(store, c, id, if passed then Pass else Fail, passed))
  }

  class GoalService {
    var run: RunState
    var goal: nat
    var delivering: bool
    var criteria: map<CriterionId, Criterion>
    var evidence: map<EvidenceId, bool>
    var started: set<EvidenceId>

    ghost function Value(): Store
      reads this
    {
      Store(run, goal, delivering, criteria, evidence, started)
    }

    constructor (store: Store)
      ensures Value() == store
    {
      run, goal, delivering := store.run, store.goal, store.delivering;
      criteria, evidence, started := store.criteria, store.evidence, store.started;
    }

    /** `validate` up to its first commit. */
    method BeginValidation(criterion: string, key: string, attempt: Option<bool>) returns (admission: Admission)
      modifies this
      ensures (Value(), admission) == Begin(old(Value()), criterion, key, attempt)
    {
      if Blank(key) {
        return Refused;
      }
      if goal == 0 {
        return Refused;
      }
      var c := CriterionId(goal, criterion);
      if c !in criteria {
        return Refused;
      }
      var id := ByKey(c, key);
      if id in evidence {
        return Replayed(evidence[id]);
      }
      if id in started {
        return Refused;
      }
      if attempt.Some? && !attempt.value {
        return Refused;
      }
      criteria := criteria[c := criteria[c].(status := Status.Testing)];
      started := started + {id};
      return Admitted(id);
    }

    /** `validate` after the evaluation. */
    method RecordEvidence(id: EvidenceId, passed: bool) returns (recorded: bool)
      requires id.ByKey?
      modifies this
      ensures var spec := Record(old(Value()), id, passed);
        recorded == spec.Some? && Value() == if recorded then spec.value else old(Value())
    {
      if goal != id.criterion.goal || id.criterion !in criteria {
        return false;
      }
      var current := criteria[id.criterion];
      var status := if passed then Pass else Fail;
      if current.kind.Review? || current.kind.Manual? {
        status := Pending;
      }
      if run == CancelledRun || run == FailedRun {
        status := Pending;
      }
      var updated := current.(status := status, attempts := current.attempts + 1, refs := current.refs + [id]);
      evidence := evidence[id := passed];
      criteria := criteria[id.criterion := updated];
      return true;
    }
  }

  // ---------------------------------------------------------------------------------
  // Runs

  datatype Call =
    | Prepared(id: EvidenceId)
    | Evaluating(id: EvidenceId)
    | Observed(id: EvidenceId, passed: bool, failed: bool)
    | Returned(id: EvidenceId, passed: bool)
    | Raised
    | Crashed

  /** `evaluated` lists the validations in the order their evaluators were invoked; `owner` names the starting call. */
  datatype State = State(store: Store, calls: map<nat, Call>, evaluated: seq<EvidenceId>, owner: map<EvidenceId, nat>)

  datatype Action =
    | Validate(call: nat, criterion: string, key: string, attempt: Option<bool>)
    | Evaluate(call: nat)
    | Observe(call: nat, passed: bool, failed: bool)
    | Conclude(call: nat)
    | Crash(call: nat)
    | ReviseGoal(expected: nat, draft: map<string, Kind>)
    | ReviewWrites(review: nat, of: CriterionId, passed: bool)
    | RunBecomes(run: RunState)
    | DeliveryStarts

  function Arrived(s: State, call: nat, criterion: string, key: string, attempt: Option<bool>): State {
    var (store, admission) := Begin(s.store, criterion, key, attempt);
    match admission
    case Admitted(id) => State(store, s.calls[call := Prepared(id)], s.evaluated, s.owner[id := call])
    case Replayed(passed) =>
      s.(calls := s.calls[call := Returned(ByKey(CriterionId(s.store.goal, criterion), key), passed)])
    case Refused => s.(calls := s.calls[call := Raised])
  }

  /** A failed evaluation is recorded as not passed, and the caller still gets the failure. */
  function Attached(s: State, call: nat): State
    requires call in s.calls && s.calls[call].Observed? && s.calls[call].id.ByKey?
  {
    var c := s.calls[call];
    var store := Record(s.store, c.id, c.passed);
    if store.None? then s.(calls := s.calls[call := Raised])
    else s.(store := store.value, calls := s.calls[call := if c.failed then Raised else Returned(c.id, c.passed)])
  }

  function OrSame(store: Option<Store>, s: State): State {
    if store.Some? then s.(store := store.value) else s
  }

  function Next(s: State, a: Action): State {
    match a
    case Validate(call, criterion, key, attempt) => if call in s.calls then s else Arrived(s, call, criterion, key, attempt)
    case Evaluate(call) =>
      if call in s.calls && s.calls[call].Prepared?
      then s.(calls := s.calls[call := Evaluating(s.calls[call].id)], evaluated := s.evaluated + [s.calls[call].id])
      else s
    case Observe(call, passed, failed) =>
      if call in s.calls && s.calls[call].Evaluating?
      then s.(calls := s.calls[call := Observed(s.calls[call].id, passed && !failed, failed)])
      else s
    case Conclude(call) =>
      if call in s.calls && s.calls[call].Observed? && s.calls[call].id.ByKey? then Attached(s, call) else s
    case Crash(call) =>
      if call in s.calls && (s.calls[call].Prepared? || s.calls[call].Evaluating? || s.calls[call].Observed?)
      then s.(calls := s.calls[call := Crashed]) else s
    case ReviseGoal(expected, draft) => OrSame(Revise(s.store, expected, draft), s)
    case ReviewWrites(review, c, passed) => OrSame(ReviewRecord(s.store, review, c, passed), s)
    case RunBecomes(run) => s.(store := s.store.(run := run))
    case DeliveryStarts => s.(store := s.store.(delivering := true))
  }

  const START := State(Store(Received, 0, false, map[], map[], {}), map[], [], map[])

  function Run(actions: seq<Action>): State {
    if actions == [] then START else Next(Run(actions[..|actions| - 1]), actions[|actions| - 1])
  }

  // ---------------------------------------------------------------------------------
  // Invariant

  ghost predicate Distinct(refs: seq<EvidenceId>) {
    forall i, j :: 0 <= i < j < |refs| ==> refs[i] != refs[j]
  }

  function About(id: EvidenceId): CriterionId { if id.ByKey? then id.criterion else id.of }

  /** Every attempt left one piece of evidence, and a PASS or FAIL is what the newest one says: from the evaluator
      of a machine-checked criterion or from the reviewer, who passes review criteria only. */
  ghost predicate Counted(store: Store, c: CriterionId, k: Criterion) {
    && k.attempts == |k.refs| && Distinct(k.refs)
    && (forall i :: 0 <= i < |k.refs| ==> k.refs[i] in store.evidence && About(k.refs[i]) == c)
    && (k.status in {Pass, Fail} ==> k.refs != [] && Decides(store, k, k.refs[|k.refs| - 1]))
  }

  ghost predicate Decides(store: Store, k: Criterion, newest: EvidenceId) {
    && newest in store.evidence && (k.status == Pass <==> store.evidence[newest])
    && (newest.ByKey? ==> k.kind.Machine?) && (newest.ByReview? && k.status == Pass ==> k.kind.Review?)
  }

  ghost predicate StoreOk(store: Store) {
    && (forall c :: c in store.criteria ==> 1 <= c.goal <= store.goal && Counted(store, c, store.criteria[c]))
    && (forall id :: id in store.evidence && id.ByKey? ==> id in store.started)
  }

  ghost predicate Holds(s: State, call: nat) {
    call in s.calls && (s.calls[call].Prepared? || s.calls[call].Evaluating? || s.calls[call].Observed?)
  }

  /** Whoever is between the transactions owns its validation, and that has no evidence yet. */
  ghost predicate Owned(s: State) {
    && s.owner.Keys == s.store.started
    && (forall c :: Holds(s, c) ==> s.calls[c].id in s.owner && s.owner[s.calls[c].id] == c && s.calls[c].id.ByKey?)
    && (forall c :: Holds(s, c) ==> s.calls[c].id !in s.store.evidence)
    && (forall id :: id in s.owner ==> s.owner[id] in s.calls)
  }

  ghost predicate EvaluatedOnce(s: State) {
    && (forall id :: multiset(s.evaluated)[id] <= 1)
    && (forall id :: id in s.evaluated ==> id in s.owner)
    && (forall c :: c in s.calls && s.calls[c].Prepared? ==> s.calls[c].id !in s.evaluated)
  }

  ghost predicate Inv(s: State) {
    StoreOk(s.store) && Owned(s) && EvaluatedOnce(s)
  }

  /** One transaction: evidence lists only grow, and only while their goal version is current. */
  ghost predicate Grows(before: Store, after: Store) {
    && before.goal <= after.goal <= before.goal + 1
    && (forall c :: c in before.criteria ==>
          && c in after.criteria
          && before.criteria[c].refs <= after.criteria[c].refs
          && before.criteria[c].kind == after.criteria[c].kind)
    && (forall c :: c in before.criteria && c.goal != before.goal ==> after.criteria[c] == before.criteria[c])
    && (forall id :: id in before.evidence ==> id in after.evidence && after.evidence[id] == before.evidence[id])
  }

  lemma CountedLonger(before: Store, after: Store, c: CriterionId, k: Criterion)
    requires Counted(before, c, k)
    requires forall id :: id in before.evidence ==> id in after.evidence && after.evidence[id] == before.evidence[id]
    ensures Counted(after, c, k)
  {
  }

  /** A verdict this piece of evidence may give. */
  predicate Earned(kind: Kind, id: EvidenceId, status: Status, passed: bool) {
    status in {Pass, Fail} ==>
      && (status == Pass <==> passed) && (id.ByKey? ==> kind.Machine?) && (id.ByReview? && passed ==> kind.Review?)
  }

  lemma AttachCounted(store: Store, c: CriterionId, id: EvidenceId, status: Status, passed: bool)
    requires c in store.criteria && Counted(store, c, store.criteria[c])
    requires id !in store.evidence && About(id) == c
    requires Earned(store.criteria[c].kind, id, status, passed)
    ensures Counted(Attach(store, c, id, status, passed), c, Attach(store, c, id, status, passed).criteria[c])
  {
    var k := store.criteria[c];
    assert forall i :: 0 <= i < |k.refs| ==> k.refs[i] != id;
  }

  lemma AttachGrows(store: Store, c: CriterionId, id: EvidenceId, status: Status, passed: bool)
    requires StoreOk(store) && c in store.criteria && c.goal == store.goal
    requires id !in store.evidence && About(id) == c && (id.ByKey? ==> id in store.started)
    requires Earned(store.criteria[c].kind, id, status, passed)
    ensures StoreOk(Attach(store, c, id, status, passed)) && Grows(store, Attach(store, c, id, status, passed))
  {
    var t := Attach(store, c, id, status, passed);
    AttachCounted(store, c, id, status, passed);
    forall d | d in t.criteria
      ensures 1 <= d.goal <= t.goal && Counted(t, d, t.criteria[d])
    {
      if d != c {
        CountedLonger(store, t, d, store.criteria[d]);
      }
    }
  }

  lemma RecordGrows(store: Store, id: EvidenceId, passed: bool)
    requires StoreOk(store) && id.ByKey? && id !in store.evidence && id in store.started
    ensures var t := Record(store, id, passed); t.Some? ==> StoreOk(t.value) && Grows(store, t.value)
  {
    if Record(store, id, passed).Some? {
      AttachGrows(store, id.criterion, id, Verdict(store, store.criteria[id.criterion].kind, passed), passed);
    }
  }

  lemma ReviewGrows(store: Store, review: nat, of: CriterionId, passed: bool)
    requires StoreOk(store)
    ensures var t := ReviewRecord(store, review, of, passed); t.Some? ==> StoreOk(t.value) && Grows(store, t.value)
  {
    if ReviewRecord(store, review, of, passed).Some? {
      AttachGrows(store, of, ByReview(review, of), if passed then Pass else Fail, passed);
    }
  }

  lemma FreshCounted(store: Store, draft: map<string, Kind>, goal: nat)
    ensures forall c :: c in Fresh(draft, goal) ==> c.goal == goal && Counted(store, c, Fresh(draft, goal)[c])
  {
  }

  lemma ReviseGrows(store: Store, expected: nat, draft: map<string, Kind>)
    requires StoreOk(store)
    ensures var t := Revise(store, expected, draft);
      t.Some? ==> StoreOk(t.value) && Grows(store, t.value) && t.value.goal == store.goal + 1 && expected == store.goal
  {
    var t := Revise(store, expected, draft);
    if t.Some? {
      ReviseCounted(store, t.value, expected, draft);
    }
  }

  lemma ReviseCounted(store: Store, t: Store, expected: nat, draft: map<string, Kind>)
    requires StoreOk(store) && Revise(store, expected, draft) == Some(t)
    ensures forall c :: c in t.criteria ==> 1 <= c.goal <= t.goal && Counted(t, c, t.criteria[c])
  {
    FreshCounted(t, draft, store.goal + 1);
    forall c | c in t.criteria
      ensures 1 <= c.goal <= t.goal && Counted(t, c, t.criteria[c])
    {
      if c in store.criteria {
        CountedLonger(store, t, c, store.criteria[c]);
      }
    }
  }

  lemma BeginGrows(store: Store, criterion: string, key: string, attempt: Option<bool>)
    requires StoreOk(store)
    ensures var (t, admission) := Begin(store, criterion, key, attempt);
      && StoreOk(t) && Grows(store, t) && t.evidence == store.evidence
      && (admission.Admitted? ==> admission.id.ByKey? && admission.id !in store.evidence && admission.id !in store.started
                                  && t.started == store.started + {admission.id})
      && (!admission.Admitted? ==> t == store)
  {
    var (t, admission) := Begin(store, criterion, key, attempt);
    forall c | c in t.criteria
      ensures Counted(t, c, t.criteria[c])
    {
      assert Counted(store, c, store.criteria[c]);
    }
  }

  lemma ValidateKeepsInv(s: State, call: nat, criterion: string, key: string, attempt: Option<bool>)
    requires Inv(s) && call !in s.calls
    ensures Inv(Arrived(s, call, criterion, key, attempt))
  {
    BeginGrows(s.store, criterion, key, attempt);
    var t := Arrived(s, call, criterion, key, attempt);
    forall c | Holds(t, c)
      ensures t.calls[c].id in t.owner && t.owner[t.calls[c].id] == c && t.calls[c].id.ByKey?
      ensures t.calls[c].id !in t.store.evidence
    {
      if c != call {
        assert Holds(s, c);
      }
    }
    assert Owned(t);
    assert EvaluatedOnce(t);
  }

  lemma EvaluateKeepsInv(s: State, call: nat)
    requires Inv(s) && call in s.calls && s.calls[call].Prepared?
    ensures Inv(Next(s, Evaluate(call)))
  {
    var t, id := Next(s, Evaluate(call)), s.calls[call].id;
    assert Holds(s, call);
    assert multiset(t.evaluated) == multiset(s.evaluated) + multiset{id};
    assert id !in multiset(s.evaluated);
    assert forall c :: Holds(t, c) ==> Holds(s, c);
    assert Owned(t);
    assert EvaluatedOnce(t);
  }

  lemma AttachKeepsInv(s: State, call: nat)
    requires Inv(s) && call in s.calls && s.calls[call].Observed?
    ensures Inv(Next(s, Conclude(call))) && Grows(s.store, Next(s, Conclude(call)).store)
  {
    assert Holds(s, call);
    var c, t := s.calls[call], Next(s, Conclude(call));
    RecordGrows(s.store, c.id, c.passed);
    forall d | Holds(t, d)
      ensures Holds(s, d) && s.calls[d] == t.calls[d] && t.calls[d].id != c.id
    {
      assert d != call;
      assert Holds(s, d);
    }
    assert Owned(t);
    assert EvaluatedOnce(t);
  }

  lemma StoreUnchanged(before: Store, after: Store)
    requires StoreOk(before)
    requires after == before.(run := after.run, delivering := after.delivering)
    ensures StoreOk(after) && Grows(before, after)
  {
    forall c | c in after.criteria
      ensures Counted(after, c, after.criteria[c])
    {
      assert Counted(before, c, before.criteria[c]);
    }
  }

  lemma StoreStepKeepsInv(s: State, store: Store)
    requires Inv(s) && StoreOk(store) && store.started == s.store.started
    requires forall id :: id in store.evidence && id.ByKey? ==> id in s.store.evidence
    ensures Inv(s.(store := store))
  {
    var t := s.(store := store);
    assert forall c :: Holds(t, c) ==> Holds(s, c);
  }

  lemma CallStepKeepsInv(s: State, call: nat, after: Call)
    requires Inv(s) && Holds(s, call) && !after.Prepared?
    requires after == Crashed || (after.Observed? && s.calls[call].Evaluating? && after.id == s.calls[call].id)
    ensures Inv(s.(calls := s.calls[call := after]))
  {
    var t := s.(calls := s.calls[call := after]);
    assert forall c :: Holds(t, c) ==> Holds(s, c);
  }

  predicate ByCall(a: Action) { a.Validate? || a.Evaluate? || a.Conclude? || a.Observe? || a.Crash? }

  lemma NextKeepsInv(s: State, a: Action)
    requires Inv(s)
    ensures Inv(Next(s, a)) && Grows(s.store, Next(s, a).store)
  {
    if ByCall(a) {
      CallKeepsInv(s, a);
    } else {
      OthersKeepInv(s, a);
    }
  }

  lemma CallKeepsInv(s: State, a: Action)
    requires Inv(s) && ByCall(a)
    ensures Inv(Next(s, a)) && Grows(s.store, Next(s, a).store)
  {
    StoreUnchanged(s.store, s.store);
    match a {
      case Validate(call, criterion, key, attempt) =>
        if call !in s.calls {
          BeginGrows(s.store, criterion, key, attempt);
          ValidateKeepsInv(s, call, criterion, key, attempt);
        }
      case Evaluate(call) =>
        if call in s.calls && s.calls[call].Prepared? {
          EvaluateKeepsInv(s, call);
        }
      case Conclude(call) =>
        if call in s.calls && s.calls[call].Observed? {
          AttachKeepsInv(s, call);
        }
      case Observe(call, passed, failed) =>
        if call in s.calls && s.calls[call].Evaluating? {
          CallStepKeepsInv(s, call, Observed(s.calls[call].id, passed && !failed, failed));
        }
      case Crash(call) =>
        if Holds(s, call) {
          CallStepKeepsInv(s, call, Crashed);
        }
    }
  }

  lemma OthersKeepInv(s: State, a: Action)
    requires Inv(s) && !ByCall(a)
    ensures Inv(Next(s, a)) && Grows(s.store, Next(s, a).store)
  {
    match a {
      case ReviseGoal(expected, draft) =>
        ReviseGrows(s.store, expected, draft);
        StoreStepKeepsInv(s, Next(s, a).store);
      case ReviewWrites(review, c, passed) =>
        ReviewGrows(s.store, review, c, passed);
        StoreStepKeepsInv(s, Next(s, a).store);
      case RunBecomes(run) =>
        StoreUnchanged(s.store, Next(s, a).store);
        StoreStepKeepsInv(s, Next(s, a).store);
      case DeliveryStarts =>
        StoreUnchanged(s.store, Next(s, a).store);
        StoreStepKeepsInv(s, Next(s, a).store);
    }
  }

  lemma {:induction false} RunKeepsInv(actions: seq<Action>)
    ensures Inv(Run(actions))
  {
    if actions != [] {
      RunKeepsInv(actions[..|actions| - 1]);
      NextKeepsInv(Run(actions[..|actions| - 1]), actions[|actions| - 1]);
    }
  }

  // ---------------------------------------------------------------------------------
  // Results

  /** Under any interleaving the evaluator is invoked at most once per criterion and key. */
  lemma EvaluatorAtMostOnce(actions: seq<Action>, criterion: CriterionId, key: string)
    ensures multiset(Run(actions).evaluated)[ByKey(criterion, key)] <= 1
  {
    RunKeepsInv(actions);
  }

  /** No update is lost: every criterion counts exactly its pieces of evidence, all distinct and its own, and PASS
      means that the newest one passed, from an evaluator for machine-checked criteria only. */
  lemma EveryAttemptCounted(actions: seq<Action>, c: CriterionId)
    ensures var store := Run(actions).store;
      c in store.criteria ==> Counted(store, c, store.criteria[c])
  {
    RunKeepsInv(actions);
  }

  /** Evidence is attached only while its goal version is current, and never detached. */
  lemma EvidenceOnlyOnCurrentGoal(actions: seq<Action>, a: Action)
    ensures Grows(Run(actions).store, Run(actions + [a]).store)
  {
    RunKeepsInv(actions);
    NextKeepsInv(Run(actions), a);
    assert (actions + [a])[..|actions|] == actions;
  }

  /** Two revisions based on the same version cannot both succeed. */
  lemma RevisionsDoNotCollide(store: Store, expected: nat, first: map<string, Kind>, second: map<string, Kind>)
    requires StoreOk(store) && Revise(store, expected, first).Some?
    ensures Revise(Revise(store, expected, first).value, expected, second).None?
  {
    ReviseGrows(store, expected, first);
  }

  // ---------------------------------------------------------------------------------
  // What each transaction answers

  /** Whoever is between the transactions validates a criterion on record; whoever returned, returned the evidence. */
  ghost predicate CallsSound(s: State) {
    && (forall c :: Holds(s, c) ==> s.calls[c].id.ByKey? && s.calls[c].id.criterion in s.store.criteria)
    && (forall c :: c in s.calls && s.calls[c].Returned? ==> ReturnsEvidence(s.store, s.calls[c].id, s.calls[c].passed))
  }

  ghost predicate ReturnsEvidence(store: Store, id: EvidenceId, passed: bool) {
    id in store.evidence && store.evidence[id] == passed
  }

  /** Calls that stand where they stood stay sound. */
  lemma OthersStaySound(s: State, t: State)
    requires CallsSound(s) && Grows(s.store, t.store)
    requires forall c :: c in t.calls && (c !in s.calls || t.calls[c] != s.calls[c]) ==>
      && (Holds(t, c) ==> t.calls[c].id.ByKey? && t.calls[c].id.criterion in t.store.criteria)
      && (t.calls[c].Returned? ==> ReturnsEvidence(t.store, t.calls[c].id, t.calls[c].passed))
    ensures CallsSound(t)
  {
    forall c | Holds(t, c)
      ensures t.calls[c].id.ByKey? && t.calls[c].id.criterion in t.store.criteria
    {
      if c in s.calls && t.calls[c] == s.calls[c] {
        assert Holds(s, c);
      }
    }
    forall c | c in t.calls && t.calls[c].Returned?
      ensures ReturnsEvidence(t.store, t.calls[c].id, t.calls[c].passed)
    {
      if c in s.calls && t.calls[c] == s.calls[c] {
        assert ReturnsEvidence(s.store, s.calls[c].id, s.calls[c].passed);
      }
    }
  }

  lemma NextCallsSound(s: State, a: Action)
    requires Inv(s) && CallsSound(s)
    ensures CallsSound(Next(s, a))
  {
    NextKeepsInv(s, a);
    if a.Validate? {
      if a.call !in s.calls {
        AdmittedSoundly(s, a.call, a.criterion, a.key, a.attempt);
      }
    } else if a.Evaluate? || a.Observe? || a.Crash? {
      CarriedOn(s, a);
      OthersStaySound(s, Next(s, a));
    } else if a.Conclude? {
      ConcludedSoundly(s, a.call);
    } else {
      OthersStaySound(s, Next(s, a));
    }
  }

  lemma AdmittedSoundly(s: State, call: nat, criterion: string, key: string, attempt: Option<bool>)
    requires Inv(s) && CallsSound(s) && call !in s.calls && Grows(s.store, Arrived(s, call, criterion, key, attempt).store)
    ensures CallsSound(Arrived(s, call, criterion, key, attempt))
  {
    OthersStaySound(s, Arrived(s, call, criterion, key, attempt));
  }

  lemma CarriedOn(s: State, a: Action)
    requires CallsSound(s) && (a.Evaluate? || a.Observe? || a.Crash?)
    ensures var t := Next(s, a);
      forall c :: c in t.calls && (c !in s.calls || t.calls[c] != s.calls[c]) ==>
        && (Holds(t, c) ==> t.calls[c].id.ByKey? && t.calls[c].id.criterion in t.store.criteria)
        && !t.calls[c].Returned?
  {
    var t := Next(s, a);
    forall c | Holds(t, c)
      ensures t.calls[c].id.ByKey? && t.calls[c].id.criterion in t.store.criteria
    {
      assert Holds(s, c);
    }
  }

  lemma ConcludedSoundly(s: State, call: nat)
    requires CallsSound(s) && Grows(s.store, Next(s, Conclude(call)).store)
    ensures CallsSound(Next(s, Conclude(call)))
  {
    OthersStaySound(s, Next(s, Conclude(call)));
  }

  lemma {:induction false} RunCallsSound(actions: seq<Action>)
    ensures Inv(Run(actions)) && CallsSound(Run(actions))
  {
    RunKeepsInv(actions);
    if actions != [] {
      RunCallsSound(actions[..|actions| - 1]);
      NextCallsSound(Run(actions[..|actions| - 1]), actions[|actions| - 1]);
    }
  }

  /** A call that returns normally returns what its evidence says. */
  lemma ReturnsWhatIsRecorded(actions: seq<Action>, call: nat)
    ensures var s := Run(actions);
      call in s.calls && s.calls[call].Returned? ==>
        s.calls[call].id in s.store.evidence && s.store.evidence[s.calls[call].id] == s.calls[call].passed
  {
    RunCallsSound(actions);
  }

  /** A verdict is what the newest piece of evidence says. */
  lemma VerdictIsNewest(actions: seq<Action>, c: CriterionId)
    ensures var store := Run(actions).store;
      c in store.criteria && store.criteria[c].status in {Pass, Fail} ==>
        var refs := store.criteria[c].refs;
        && refs != [] && refs[|refs| - 1] in store.evidence
        && (store.criteria[c].status == Pass <==> store.evidence[refs[|refs| - 1]])
  {
    EveryAttemptCounted(actions, c);
  }

  /** What a call has observed is what its evaluator answered; a failed evaluation has not passed. */
  lemma {:induction false} ObservedWasAnswered(actions: seq<Action>, call: nat) returns (j: nat)
    requires call in Run(actions).calls && Run(actions).calls[call].Observed?
    ensures j < |actions| && actions[j].Observe? && actions[j].call == call
    ensures var c := Run(actions).calls[call];
      c.failed == actions[j].failed && (c.passed <==> actions[j].passed && !actions[j].failed)
  {
    var last := |actions| - 1;
    var before := Run(actions[..last]);
    if call in before.calls && before.calls[call].Observed? {
      assert Run(actions).calls[call] == before.calls[call];
      j := ObservedWasAnswered(actions[..last], call);
    } else {
      j := last;
    }
  }

  /** What the second transaction does.  A goal that has moved on is left alone and the caller gets a conflict.
      Otherwise the observation becomes the newest evidence of its criterion, and decides it if it is checked by
      machine in a run neither cancelled nor failed; the caller gets the evidence, or the failure of the evaluation. */
  lemma ConcludeExactly(actions: seq<Action>, call: nat)
    requires call in Run(actions).calls && Run(actions).calls[call].Observed?
    ensures var s, t := Run(actions), Next(Run(actions), Conclude(call));
      var id, passed := s.calls[call].id, s.calls[call].passed;
      && id.ByKey? && id.criterion in s.store.criteria && id !in s.store.evidence
      && if s.store.goal != id.criterion.goal then t == s.(calls := s.calls[call := Raised])
         else
           var k := s.store.criteria[id.criterion];
           var decided := k.kind.Machine? && s.store.run != CancelledRun && s.store.run != FailedRun;
           var status := if !decided then Pending else if passed then Pass else Fail;
           && t.store == s.store.(evidence := s.store.evidence[id := passed],
                                  criteria := s.store.criteria[id.criterion := Criterion(k.kind, status, k.attempts + 1, k.refs + [id])])
           && t.calls == s.calls[call := if s.calls[call].failed then Raised else Returned(id, passed)]
  {
    RunCallsSound(actions);
    assert Holds(Run(actions), call);
  }

  lemma ArrivalExactly(s: State, call: nat, criterion: string, key: string, attempt: Option<bool>)
    requires StoreOk(s.store) && call !in s.calls
    ensures var t := Arrived(s, call, criterion, key, attempt);
      var c := CriterionId(s.store.goal, criterion);
      var id := ByKey(c, key);
      var asked := !Blank(key) && c in s.store.criteria;
      if asked && id in s.store.evidence then t == s.(calls := s.calls[call := Returned(id, s.store.evidence[id])])
      else if asked && id !in s.store.started && attempt != Some(false) then
        && t.calls == s.calls[call := Prepared(id)] && t.evaluated == s.evaluated
        && t.store == s.store.(started := s.store.started + {id},
                               criteria := s.store.criteria[c := s.store.criteria[c].(status := Status.Testing)])
      else t == s.(calls := s.calls[call := Raised])
  {
  }

  /** What a validation is answered at first: the evidence it left before; admission, with its criterion under test
      and its start on record, if the criterion is one of the current goal, this validation has not been started, and
      the caller's attempt, if any, is running; a refusal otherwise. */
  lemma ValidateExactly(actions: seq<Action>, call: nat, criterion: string, key: string, attempt: Option<bool>)
    requires call !in Run(actions).calls
    ensures var s, t := Run(actions), Next(Run(actions), Validate(call, criterion, key, attempt));
      var c := CriterionId(s.store.goal, criterion);
      var id := ByKey(c, key);
      var asked := !Blank(key) && c in s.store.criteria;
      if asked && id in s.store.evidence then t == s.(calls := s.calls[call := Returned(id, s.store.evidence[id])])
      else if asked && id !in s.store.started && attempt != Some(false) then
        && t.calls == s.calls[call := Prepared(id)] && t.evaluated == s.evaluated
        && t.store == s.store.(started := s.store.started + {id},
                               criteria := s.store.criteria[c := s.store.criteria[c].(status := Status.Testing)])
      else t == s.(calls := s.calls[call := Raised])
  {
    RunKeepsInv(actions);
    ArrivalExactly(Run(actions), call, criterion, key, attempt);
  }

  /** When a goal may be set or revised: by a caller who has seen the current version, while the state allows it, and
      before delivery has begun. */
  lemma ReviseAccepted(store: Store, expected: nat, draft: map<string, Kind>)
    ensures Revise(store, expected, draft).Some? <==>
      && expected == store.goal
      && (if expected == 0 then store.run == Analyzing
          else store.run in {Received, Analyzing, GoalDefined, Paused, HumanReviewRequired} && !store.delivering)
  {
  }

  /** What an accepted revision leaves: the next version with fresh criteria, and the old ones. */
  lemma ReviseExactly(store: Store, expected: nat, draft: map<string, Kind>, c: CriterionId)
    requires Revise(store, expected, draft).Some? && forall d :: d in store.criteria ==> d.goal <= store.goal
    ensures var t, goal := Revise(store, expected, draft).value, expected + 1;
      && t == store.(goal := goal, criteria := t.criteria)
      && (c in t.criteria <==> c in store.criteria || (c.goal == goal && c.key in draft))
      && (c in store.criteria ==> t.criteria[c] == store.criteria[c])
      && (c in t.criteria && c !in store.criteria ==> t.criteria[c] == Criterion(draft[c.key], Pending, 0, []))
  {
    FreshExactly(draft, expected + 1, c);
  }

  lemma FreshExactly(draft: map<string, Kind>, goal: nat, c: CriterionId)
    ensures c in Fresh(draft, goal) <==> c.goal == goal && c.key in draft
    ensures c in Fresh(draft, goal) ==> Fresh(draft, goal)[c] == Criterion(draft[c.key], Pending, 0, [])
  {
    if c.goal == goal && c.key in draft {
      assert c == CriterionId(goal, c.key);
    }
  }

  /** The reviewer passes review criteria of the current goal only, fails any of them, and each once per review. */
  lemma ReviewExactly(store: Store, review: nat, c: CriterionId, passed: bool)
    ensures ReviewRecord(store, review, c, passed).Some? <==>
      && c.goal == store.goal && c in store.criteria && ByReview(review, c) !in store.evidence
      && (passed ==> store.criteria[c].kind.Review?)
    ensures ReviewRecord(store, review, c, passed).Some? ==>
      var t, k, id := ReviewRecord(store, review, c, passed).value, store.criteria[c], ByReview(review, c);
      t == store.(evidence := store.evidence[id := passed],
                  criteria := store.criteria[c := Criterion(k.kind, if passed then Pass else Fail, k.attempts + 1, k.refs + [id])])
  {
  }
}
