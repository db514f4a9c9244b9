/** The canonical identity of a plan (src/orqalis/core/planning.py, `plan_identity`) and the
    digest an operator approves (src/orqalis/core/approval_subjects.py, `plan_subject`). */
module PlanIdentity {
  import opened Plans
  import RunStore
  import opened Texts

  // ---------------------------------------------------------------------------------
  // Sorting by a total order

  ghost predicate TotalOrder<T(!new)>(le: (T, T) -> bool) {
    && (forall a, b :: le(a, b) || le(b, a))
    && (forall a, b :: le(a, b) && le(b, a) ==> a == b)
    && (forall a, b, c :: le(a, b) && le(b, c) ==> le(a, c))
  }

  function Insert<T>(x: T, s: seq<T>, le: (T, T) -> bool): seq<T> {
    if s == [] || le(x, s[0]) then [x] + s else [s[0]] + Insert(x, s[1..], le)
  }

  /** Stands for the library `sorted` of the source. */
  function Sort<T>(s: seq<T>, le: (T, T) -> bool): seq<T> {
    if s == [] then [] else Insert(s[0], Sort(s[1..], le), le)
  }

  ghost predicate Sorted<T>(s: seq<T>, le: (T, T) -> bool) {
    forall i, j :: 0 <= i < j < |s| ==> le(s[i], s[j])
  }

  lemma PrependSorted<T(!new)>(x: T, s: seq<T>, le: (T, T) -> bool)
    requires Sorted(s, le) && forall y :: y in s ==> le(x, y)
    ensures Sorted([x] + s, le)
  {
    forall i, j | 0 <= i < j < |s| + 1
      ensures le(([x] + s)[i], ([x] + s)[j])
    {
      assert s[j - 1] in s;
    }
  }

  lemma {:induction false} InsertSorts<T(!new)>(x: T, s: seq<T>, le: (T, T) -> bool)
    requires TotalOrder(le) && Sorted(s, le)
    ensures Sorted(Insert(x, s, le), le)
    ensures multiset(Insert(x, s, le)) == multiset{x} + multiset(s)
    ensures forall y :: y in Insert(x, s, le) <==> y == x || y in s
  {
    if s == [] || le(x, s[0]) {
      forall y | y in s
        ensures le(x, y)
      {
        var k :| 0 <= k < |s| && s[k] == y;
        assert k == 0 || le(s[0], s[k]);
      }
      PrependSorted(x, s, le);
    } else {
      InsertSorts(x, s[1..], le);
      assert s == [s[0]] + s[1..];
      forall y | y in Insert(x, s[1..], le)
        ensures le(s[0], y)
      {
        if y != x {
          var k :| 0 <= k < |s[1..]| && s[1..][k] == y;
          assert le(s[0], s[k + 1]);
        }
      }
      PrependSorted(s[0], Insert(x, s[1..], le), le);
    }
  }

  lemma {:induction false} SortSorts<T(!new)>(s: seq<T>, le: (T, T) -> bool)
    requires TotalOrder(le)
    ensures Sorted(Sort(s, le), le) && multiset(Sort(s, le)) == multiset(s)
  {
    if s != [] {
      SortSorts(s[1..], le);
      InsertSorts(s[0], Sort(s[1..], le), le);
      assert s == [s[0]] + s[1..];
    }
  }

  lemma LeastIsFirst<T(!new)>(a: seq<T>, b: seq<T>, le: (T, T) -> bool)
    requires TotalOrder(le) && Sorted(a, le) && Sorted(b, le)
    requires a != [] && b != [] && a[0] in b && b[0] in a
    ensures a[0] == b[0]
  {
    var i :| 0 <= i < |b| && b[i] == a[0];
    var j :| 0 <= j < |a| && a[j] == b[0];
    assert i == 0 || le(b[0], b[i]);
    assert j == 0 || le(a[0], a[j]);
  }

  /** Two sorted sequences with the same elements are the same sequence. */
  lemma {:induction false} SortedUnique<T(!new)>(a: seq<T>, b: seq<T>, le: (T, T) -> bool)
    requires TotalOrder(le) && Sorted(a, le) && Sorted(b, le) && multiset(a) == multiset(b)
    ensures a == b
  {
    assert |a| == |multiset(a)| == |multiset(b)| == |b|;
    if a != [] {
      assert a[0] in multiset(b) && b[0] in multiset(a);
      LeastIsFirst(a, b, le);
      WithoutFirst(a);
      WithoutFirst(b);
      SortedUnique(a[1..], b[1..], le);
      assert a == [a[0]] + a[1..] && b == [b[0]] + b[1..];
    }
  }

  lemma WithoutFirst<T>(s: seq<T>)
    requires s != []
    ensures multiset(s[1..]) == multiset(s) - multiset{s[0]}
  {
    assert s == [s[0]] + s[1..];
  }

  /** Sorting forgets exactly the order. */
  lemma SortForgetsOrder<T(!new)>(a: seq<T>, b: seq<T>, le: (T, T) -> bool)
    requires TotalOrder(le)
    ensures Sort(a, le) == Sort(b, le) <==> multiset(a) == multiset(b)
  {
    SortSorts(a, le);
    SortSorts(b, le);
    if multiset(a) == multiset(b) {
      SortedUnique(Sort(a, le), Sort(b, le), le);
    }
  }

  function Map<A, B>(s: seq<A>, f: A -> B): (r: seq<B>)
    ensures |r| == |s| && forall i :: 0 <= i < |s| ==> r[i] == f(s[i])
  {
    seq(|s|, i requires 0 <= i < |s| => f(s[i]))
  }

  lemma {:induction false} CountMapped<A, B>(s: seq<A>, f: A -> B, x: A)
    requires forall y :: y in s && f(y) == f(x) ==> y == x
    ensures multiset(Map(s, f))[f(x)] == multiset(s)[x]
  {
    if s != [] {
      CountMapped(s[1..], f, x);
      CountFirst(s, x);
      assert Map(s, f)[1..] == Map(s[1..], f);
      CountFirst(Map(s, f), f(x));
    }
  }

  lemma CountFirst<T>(s: seq<T>, x: T)
    requires s != []
    ensures multiset(s)[x] == (if s[0] == x then 1 else 0) + multiset(s[1..])[x]
  {
    assert s == [s[0]] + s[1..];
  }

  /** An injective relabelling preserves and reflects equality of multisets. */
  lemma MappedMultisets<A, B>(s: seq<A>, t: seq<A>, f: A -> B)
    requires forall x, y :: (x in s || x in t) && (y in s || y in t) && f(x) == f(y) ==> x == y
    ensures multiset(Map(s, f)) == multiset(Map(t, f)) <==> multiset(s) == multiset(t)
  {
    forall x | x in s || x in t
      ensures multiset(Map(s, f))[f(x)] == multiset(s)[x] && multiset(Map(t, f))[f(x)] == multiset(t)[x]
    {
      CountMapped(s, f, x);
      CountMapped(t, f, x);
    }
    if multiset(Map(s, f)) == multiset(Map(t, f)) {
      forall x
        ensures multiset(s)[x] == multiset(t)[x]
      {
        if x in s || x in t {
          assert multiset(s)[x] == multiset(Map(s, f))[f(x)];
        } else {
          assert x !in multiset(s) && x !in multiset(t);
        }
      }
    }
    if multiset(s) == multiset(t) {
      forall y | y in Map(t, f)
        ensures y in Map(s, f)
      {
        var i :| 0 <= i < |t| && Map(t, f)[i] == y;
        assert t[i] in multiset(s);
        var k :| 0 <= k < |s| && s[k] == t[i];
        assert Map(s, f)[k] == y;
      }
      forall y
        ensures multiset(Map(s, f))[y] == multiset(Map(t, f))[y]
      {
        if y in Map(s, f) {
          var i :| 0 <= i < |s| && Map(s, f)[i] == y;
          assert s[i] in s;
        } else {
          assert y !in multiset(Map(s, f)) && y !in multiset(Map(t, f));
        }
      }
    }
  }

  predicate PairLe(a: (string, string), b: (string, string)) {
    if a.0 == b.0 then TextLe(a.1, b.1) else TextLe(a.0, b.0)
  }

  lemma OrdersAreTotal()
    ensures TotalOrder(TextLe) && TotalOrder(PairLe)
  {
    forall a, b
      ensures TextLe(a, b) || TextLe(b, a)
      ensures TextLe(a, b) && TextLe(b, a) ==> a == b
    {
      TextTotal(a, b);
    }
    forall a, b, c | TextLe(a, b) && TextLe(b, c)
      ensures TextLe(a, c)
    {
      TextTransitive(a, b, c);
    }
  }

  // ---------------------------------------------------------------------------------
  // Plan identity

  /** The JSON texts of the source: of an identifier, of a task without its runtime fields, of an edge. */
  datatype Codec = Codec(idText: Uuid -> string, taskText: Task -> string, edgeText: Dependency -> string)

  /** JSON serialization is faithful: equal texts come from equal values. */
  ghost predicate Faithful(codec: Codec) {
    && (forall a, b :: codec.taskText(a) == codec.taskText(b) <==> Contract(a) == Contract(b))
    && (forall a, b :: codec.edgeText(a) == codec.edgeText(b) ==> a == b)
  }

  datatype Identity = Identity(run: Uuid, goal: Uuid, version: nat, tasks: seq<(string, string)>, edges: seq<string>)

  function TaskEntry(codec: Codec): Task -> (string, string) {
    (t: Task) => (codec.idText(t.id), codec.taskText(t))
  }

  function IdentityOf(codec: Codec, plan: Plan): Identity {
    Identity(plan.run, plan.goal, plan.version,
             Sort(Map(plan.tasks, TaskEntry(codec)), PairLe),
             Sort(Map(plan.dependencies, codec.edgeText), TextLe))
  }

  /** SHA-256 is taken to be injective. */
  datatype Digest = Sha256(of: Identity)

  function PlanSubject(codec: Codec, plan: Plan): Digest { Sha256(IdentityOf(codec, plan)) }

  /** The same run, goal, version, task contracts and dependencies, in any order and at any progress. */
  ghost predicate SamePlan(p: Plan, q: Plan) {
    && p.run == q.run && p.goal == q.goal && p.version == q.version
    && multiset(Map(p.tasks, Contract)) == multiset(Map(q.tasks, Contract))
    && multiset(p.dependencies) == multiset(q.dependencies)
  }

  lemma EntriesOfContracts(codec: Codec, tasks: seq<Task>)
    requires Faithful(codec)
    ensures Map(tasks, TaskEntry(codec)) == Map(Map(tasks, Contract), TaskEntry(codec))
  {
    forall t
      ensures TaskEntry(codec)(t) == TaskEntry(codec)(Contract(t))
    {
      assert Contract(Contract(t)) == Contract(t);
    }
  }

  /** The digest an operator approves is the same for two plans exactly when they are the same plan. */
  lemma SubjectsAgree(codec: Codec, p: Plan, q: Plan)
    requires Faithful(codec)
    ensures PlanSubject(codec, p) == PlanSubject(codec, q) <==> SamePlan(p, q)
  {
    OrdersAreTotal();
    var entry := TaskEntry(codec);
    SortForgetsOrder(Map(p.tasks, entry), Map(q.tasks, entry), PairLe);
    SortForgetsOrder(Map(p.dependencies, codec.edgeText), Map(q.dependencies, codec.edgeText), TextLe);
    MappedMultisets(p.dependencies, q.dependencies, codec.edgeText);
    EntriesOfContracts(codec, p.tasks);
    EntriesOfContracts(codec, q.tasks);
    var ps, qs := Map(p.tasks, Contract), Map(q.tasks, Contract);
    forall x, y | (x in ps || x in qs) && (y in ps || y in qs) && entry(x) == entry(y)
      ensures x == y
    {
      assert Contract(x) == x && Contract(y) == y;
    }
    MappedMultisets(ps, qs, entry);
  }

  /** No progress of the tasks can invalidate a decision. */
  lemma ProgressKeepsSubject(codec: Codec, p: Plan, q: Plan)
    requires Faithful(codec)
    requires q.run == p.run && q.goal == p.goal && q.version == p.version && q.dependencies == p.dependencies
    requires |q.tasks| == |p.tasks| && forall i :: 0 <= i < |p.tasks| ==> q.tasks[i] == p.tasks[i].(progress := q.tasks[i].progress)
    ensures PlanSubject(codec, p) == PlanSubject(codec, q)
  {
    assert Map(p.tasks, Contract) == Map(q.tasks, Contract);
    SubjectsAgree(codec, p, q);
  }

  /** The subjects that the run store uses in place of digests tell apart exactly the same plans. */
  lemma StoreSubjectsAgree(codec: Codec, p: Plan, q: Plan)
    requires Faithful(codec)
    ensures RunStore.PlanSubject(p) == RunStore.PlanSubject(q) <==> PlanSubject(codec, p) == PlanSubject(codec, q)
  {
    SubjectsAgree(codec, p, q);
    assert Map(p.tasks, Contract) == RunStore.Contracts(p.tasks);
    assert Map(q.tasks, Contract) == RunStore.Contracts(q.tasks);
  }
}
