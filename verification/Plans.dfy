/** Task plans and their dependency graphs (src/orqalis/domain/task.py, src/orqalis/domain/plan.py). */
module Plans {
  import opened Collections

  /** A random identifier (version 4) or one derived from a namespace and a name (version 5,
      section 5.5 of RFC 9562); derived identifiers are taken to be injective. */
  datatype Uuid = Random(n: nat) | Named(space: Uuid, name: string)

  datatype TaskStatus = Pending | Ready | Running | Waiting | Blocked | Succeeded | Failed | Cancelled | Skipped

  /** The runtime fields of a task; everything else in a task record never changes. */
  datatype Progress = Progress(status: TaskStatus, readyAt: Option<int>, startedAt: Option<int>,
                               completedAt: Option<int>, attempts: nat)

  datatype Task = Task(id: Uuid, run: Uuid, planVersion: nat, text: string, role: string,
                       criteria: seq<Uuid>, progress: Progress)

  const UNSTARTED := Progress(Pending, None, None, None, 0)

  /** Everything in a task record but its runtime fields. */
  function Contract(t: Task): Task { t.(progress := UNSTARTED) }

  datatype Dependency = Dependency(task: Uuid, dependsOn: Uuid, kind: string)

  const FINISH_TO_START := "finish_to_start"

  datatype Plan = Plan(run: Uuid, goal: Uuid, version: nat, tasks: seq<Task>, dependencies: seq<Dependency>)

  // ---------------------------------------------------------------------------------
  // Dependency graphs

  ghost predicate Direct(edges: seq<Dependency>, a: Uuid, b: Uuid) {
    exists e :: e in edges && e.task == a && e.dependsOn == b
  }

  /** A chain of at least one dependency, each link from a task to one it waits for. */
  ghost predicate Chain(edges: seq<Dependency>, p: seq<Uuid>) {
    |p| >= 2 && forall i :: 0 <= i < |p| - 1 ==> Direct(edges, p[i], p[i + 1])
  }

  ghost predicate ChainBetween(edges: seq<Dependency>, p: seq<Uuid>, a: Uuid, b: Uuid) {
    Chain(edges, p) && p[0] == a && p[|p| - 1] == b
  }

  /** `a` waits for `b`, directly or through other tasks. */
  ghost predicate DependsOn(edges: seq<Dependency>, a: Uuid, b: Uuid) {
    exists p :: ChainBetween(edges, p, a, b)
  }

  ghost predicate Acyclic(edges: seq<Dependency>) {
    forall a :: !DependsOn(edges, a, a)
  }

  ghost predicate HasTask(tasks: seq<Task>, id: Uuid) {
    exists i :: 0 <= i < |tasks| && tasks[i].id == id
  }

  ghost predicate DistinctIds(tasks: seq<Task>) {
    forall i, j :: 0 <= i < j < |tasks| ==> tasks[i].id != tasks[j].id
  }

  ghost predicate DistinctEdges(edges: seq<Dependency>) {
    forall i, j :: 0 <= i < j < |edges| ==> (edges[i].task, edges[i].dependsOn) != (edges[j].task, edges[j].dependsOn)
  }

  ghost predicate KnownEnds(tasks: seq<Task>, edges: seq<Dependency>) {
    forall e :: e in edges ==> HasTask(tasks, e.task) && HasTask(tasks, e.dependsOn) && e.kind == FINISH_TO_START
  }

  /** What building a `TaskPlan` checks: field bounds and `validate_dag`. */
  ghost predicate ValidPlan(plan: Plan) {
    && plan.version >= 1 && plan.tasks != []
    && DistinctIds(plan.tasks)
    && (forall t :: t in plan.tasks ==> t.run == plan.run && t.planVersion <= plan.version)
    && DistinctEdges(plan.dependencies)
    && KnownEnds(plan.tasks, plan.dependencies)
    && Acyclic(plan.dependencies)
  }

  lemma DirectDepends(edges: seq<Dependency>, a: Uuid, b: Uuid)
    requires Direct(edges, a, b)
    ensures DependsOn(edges, a, b)
  {
    assert ChainBetween(edges, [a, b], a, b);
  }

  lemma DependsTransitive(edges: seq<Dependency>, a: Uuid, b: Uuid, c: Uuid)
    requires DependsOn(edges, a, b) && DependsOn(edges, b, c)
    ensures DependsOn(edges, a, c)
  {
    var p :| ChainBetween(edges, p, a, b);
    var q :| ChainBetween(edges, q, b, c);
    var r := p + q[1..];
    forall i | 0 <= i < |r| - 1
      ensures Direct(edges, r[i], r[i + 1])
    {
      if i >= |p| - 1 {
        assert r[i] == q[i - (|p| - 1)];
        assert Direct(edges, q[i - (|p| - 1)], q[i - (|p| - 1) + 1]);
      } else {
        assert Direct(edges, p[i], p[i + 1]);
      }
    }
    assert ChainBetween(edges, r, a, c);
  }

  lemma DependsMonotone(edges: seq<Dependency>, more: seq<Dependency>, a: Uuid, b: Uuid)
    requires forall e :: e in edges ==> e in more
    requires DependsOn(edges, a, b)
    ensures DependsOn(more, a, b)
  {
    var p :| ChainBetween(edges, p, a, b);
    forall i | 0 <= i < |p| - 1
      ensures Direct(more, p[i], p[i + 1])
    {
      assert Direct(edges, p[i], p[i + 1]);
    }
    assert ChainBetween(more, p, a, b);
  }

  /** Every edge of `edges` either belongs to `base` and does not climb, or strictly descends. */
  ghost predicate Layered(base: seq<Dependency>, edges: seq<Dependency>, level: Uuid -> int) {
    forall e :: e in edges ==>
      || level(e.task) > level(e.dependsOn)
      || (e in base && level(e.task) == level(e.dependsOn))
  }

  lemma {:induction false} LevelsDescend(base: seq<Dependency>, edges: seq<Dependency>, level: Uuid -> int, p: seq<Uuid>)
    requires Layered(base, edges, level) && Chain(edges, p)
    ensures level(p[0]) >= level(p[|p| - 1])
    ensures level(p[0]) == level(p[|p| - 1]) ==> Chain(base, p)
  {
    var e :| e in edges && e.task == p[0] && e.dependsOn == p[1] by { assert Direct(edges, p[0], p[1]); }
    if |p| > 2 {
      var q := p[1..];
      forall i | 0 <= i < |q| - 1
        ensures Direct(edges, q[i], q[i + 1])
      {
        assert Direct(edges, p[i + 1], p[i + 1 + 1]);
      }
      LevelsDescend(base, edges, level, q);
      if level(p[0]) == level(p[|p| - 1]) {
        forall i | 0 <= i < |p| - 1
          ensures Direct(base, p[i], p[i + 1])
        {
          if i > 0 {
            assert Direct(base, q[i - 1], q[i - 1 + 1]);
          }
        }
      }
    }
  }

  /** Adding edges that strictly descend between layers creates no cycle. */
  lemma LayersStayAcyclic(base: seq<Dependency>, edges: seq<Dependency>, level: Uuid -> int)
    requires Acyclic(base) && Layered(base, edges, level)
    ensures Acyclic(edges)
  {
    forall a
      ensures !DependsOn(edges, a, a)
    {
      if DependsOn(edges, a, a) {
        var p :| ChainBetween(edges, p, a, a);
        LevelsDescend(base, edges, level, p);
        assert ChainBetween(base, p, a, a);
        assert DependsOn(base, a, a);
      }
    }
  }

  ghost predicate Root(edges: seq<Dependency>, id: Uuid) {
    forall e :: e in edges ==> e.task != id
  }

  ghost function Ids(tasks: seq<Task>): set<Uuid> { set t | t in tasks :: t.id }

  /** In a finite acyclic graph every task is a root or waits for one.  `seen` are the tasks walked through. */
  lemma {:induction false} ReachesRoot(tasks: seq<Task>, edges: seq<Dependency>, id: Uuid, seen: set<Uuid>) returns (root: Uuid)
    requires Acyclic(edges) && KnownEnds(tasks, edges) && HasTask(tasks, id)
    requires seen <= Ids(tasks) && id !in seen
    requires forall s :: s in seen ==> DependsOn(edges, s, id)
    ensures HasTask(tasks, root) && Root(edges, root)
    ensures root == id || DependsOn(edges, id, root)
    decreases Ids(tasks) - seen
  {
    if Root(edges, id) {
      return id;
    }
    var e :| e in edges && e.task == id;
    var next := e.dependsOn;
    assert Direct(edges, id, next);
    DirectDepends(edges, id, next);
    var seen' := seen + {id};
    assert id in Ids(tasks) by {
      var i :| 0 <= i < |tasks| && tasks[i].id == id;
      assert tasks[i] in tasks;
    }
    forall s | s in seen'
      ensures DependsOn(edges, s, next)
    {
      if s != id {
        DependsTransitive(edges, s, id, next);
      }
    }
    assert !DependsOn(edges, next, next);
    root := ReachesRoot(tasks, edges, next, seen');
    if root != next {
      DependsTransitive(edges, id, next, root);
    }
  }
}
