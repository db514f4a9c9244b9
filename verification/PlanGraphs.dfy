/** Rewrites of a plan's dependency graph: the preparatory graft of `install_plan`
    (src/orqalis/core/orchestrator.py), the delivery extension (src/orqalis/core/delivery_plan.py)
    and the editable copy (src/orqalis/core/plan_draft.py). */
module PlanGraphs {
  import opened Collections
  import opened Plans

  /** One dependency from every task of `later` to every task of `earlier`. */
  function Links(later: seq<Task>, earlier: seq<Task>): seq<Dependency> {
    if later == [] then []
    else LinksFrom(later[0].id, earlier) + Links(later[1..], earlier)
  }

  function LinksFrom(id: Uuid, earlier: seq<Task>): seq<Dependency> {
    seq(|earlier|, i requires 0 <= i < |earlier| => Dependency(id, earlier[i].id, FINISH_TO_START))
  }

  lemma {:induction false} LinksContents(later: seq<Task>, earlier: seq<Task>)
    ensures forall e :: e in Links(later, earlier) ==>
      HasTask(later, e.task) && HasTask(earlier, e.dependsOn) && e.kind == FINISH_TO_START
    ensures forall i, j :: 0 <= i < |later| && 0 <= j < |earlier| ==>
      Dependency(later[i].id, earlier[j].id, FINISH_TO_START) in Links(later, earlier)
  {
    if later != [] {
      LinksContents(later[1..], earlier);
      var first := LinksFrom(later[0].id, earlier);
      forall e | e in Links(later, earlier)
        ensures HasTask(later, e.task) && HasTask(earlier, e.dependsOn) && e.kind == FINISH_TO_START
      {
        if e in first {
          var j :| 0 <= j < |first| && first[j] == e;
          assert later[0].id == e.task && earlier[j].id == e.dependsOn;
        } else {
          var i :| 0 <= i < |later[1..]| && later[1..][i].id == e.task;
          assert later[i + 1].id == e.task;
        }
      }
      forall i, j | 0 <= i < |later| && 0 <= j < |earlier|
        ensures Dependency(later[i].id, earlier[j].id, FINISH_TO_START) in Links(later, earlier)
      {
        if i == 0 {
          assert first[j] in first;
        } else {
          assert later[i] == later[1..][i - 1];
        }
      }
    }
  }

  lemma {:induction false} LinksDistinct(later: seq<Task>, earlier: seq<Task>)
    requires DistinctIds(later) && DistinctIds(earlier)
    ensures DistinctEdges(Links(later, earlier))
  {
    if later != [] {
      LinksDistinct(later[1..], earlier);
      LinksContents(later[1..], earlier);
      var first, rest := LinksFrom(later[0].id, earlier), Links(later[1..], earlier);
      forall j | 0 <= j < |rest|
        ensures rest[j].task != later[0].id
      {
        assert rest[j] in rest;
        var i :| 0 <= i < |later[1..]| && later[1..][i].id == rest[j].task;
        assert later[i + 1].id == rest[j].task;
      }
    }
  }

  // ---------------------------------------------------------------------------------
  // Preparatory graft

  predicate IsRoot(t: Task, edges: seq<Dependency>) {
    forall i :: 0 <= i < |edges| ==> edges[i].task != t.id
  }

  function Roots(tasks: seq<Task>, edges: seq<Dependency>): seq<Task> {
    if tasks == [] then []
    else (if IsRoot(tasks[0], edges) then [tasks[0]] else []) + Roots(tasks[1..], edges)
  }

  /** `install_plan`: preparatory tasks go first and every root waits for all of them. */
  function Graft(plan: Plan, preparation: seq<Task>): Plan {
    plan.(tasks := preparation + plan.tasks,
          dependencies := plan.dependencies + Links(Roots(plan.tasks, plan.dependencies), preparation))
  }

  lemma {:induction false} RootsContents(tasks: seq<Task>, edges: seq<Dependency>)
    ensures forall t :: t in Roots(tasks, edges) <==> t in tasks && IsRoot(t, edges)
    ensures DistinctIds(tasks) ==> DistinctIds(Roots(tasks, edges))
  {
    if tasks != [] {
      RootsContents(tasks[1..], edges);
      assert tasks == [tasks[0]] + tasks[1..];
      if DistinctIds(tasks) {
        var rest := Roots(tasks[1..], edges);
        forall i | 0 <= i < |rest|
          ensures rest[i].id != tasks[0].id
        {
          assert rest[i] in rest;
          var k :| 0 <= k < |tasks[1..]| && tasks[1..][k] == rest[i];
          assert tasks[k + 1] == rest[i];
        }
      }
    }
  }

  lemma HasTaskIn(tasks: seq<Task>, t: Task)
    requires t in tasks
    ensures HasTask(tasks, t.id)
  {
    var i :| 0 <= i < |tasks| && tasks[i] == t;
  }

  /** The preparatory records: version 0, of this run, pairwise distinct. */
  ghost predicate Preparation(plan: Plan, preparation: seq<Task>) {
    && DistinctIds(preparation)
    && forall p :: p in preparation ==> p.run == plan.run && p.planVersion == 0
  }

  ghost predicate Disjoint(a: seq<Task>, b: seq<Task>) {
    forall i, j :: 0 <= i < |a| && 0 <= j < |b| ==> a[i].id != b[j].id
  }

  lemma GraftEdges(plan: Plan, preparation: seq<Task>)
    requires ValidPlan(plan) && Preparation(plan, preparation) && Disjoint(preparation, plan.tasks)
    ensures KnownEnds(Graft(plan, preparation).tasks, Graft(plan, preparation).dependencies)
    ensures DistinctEdges(Graft(plan, preparation).dependencies)
    ensures forall e :: e in Links(Roots(plan.tasks, plan.dependencies), preparation) ==>
      HasTask(plan.tasks, e.task) && HasTask(preparation, e.dependsOn)
  {
    var roots := Roots(plan.tasks, plan.dependencies);
    var added := Links(roots, preparation);
    RootsContents(plan.tasks, plan.dependencies);
    LinksContents(roots, preparation);
    LinksDistinct(roots, preparation);
    forall id | HasTask(roots, id)
      ensures HasTask(plan.tasks, id)
    {
      var i :| 0 <= i < |roots| && roots[i].id == id;
      assert roots[i] in roots;
      HasTaskIn(plan.tasks, roots[i]);
    }
    forall id | HasTask(plan.tasks, id) || HasTask(preparation, id)
      ensures HasTask(preparation + plan.tasks, id)
    {
      if HasTask(preparation, id) {
        var i :| 0 <= i < |preparation| && preparation[i].id == id;
        assert (preparation + plan.tasks)[i].id == id;
      } else {
        var i :| 0 <= i < |plan.tasks| && plan.tasks[i].id == id;
        assert (preparation + plan.tasks)[|preparation| + i].id == id;
      }
    }
    forall i, j | 0 <= i < |plan.dependencies| && 0 <= j < |added|
      ensures plan.dependencies[i].dependsOn != added[j].dependsOn
    {
      assert plan.dependencies[i] in plan.dependencies && added[j] in added;
      assert HasTask(plan.tasks, plan.dependencies[i].dependsOn);
    }
  }

  /** The re-validation of a grafted plan fails only when a planned task reuses a preparatory identity. */
  lemma GraftValid(plan: Plan, preparation: seq<Task>)
    requires ValidPlan(plan) && Preparation(plan, preparation)
    ensures ValidPlan(Graft(plan, preparation)) <==> Disjoint(preparation, plan.tasks)
  {
    var graft := Graft(plan, preparation);
    if Disjoint(preparation, plan.tasks) {
      GraftEdges(plan, preparation);
      var level := (id: Uuid) => if HasTask(preparation, id) then 0 else 1;
      forall e | e in graft.dependencies
        ensures level(e.task) > level(e.dependsOn) || (e in plan.dependencies && level(e.task) == level(e.dependsOn))
      {
        assert HasTask(plan.tasks, e.task);
        assert !HasTask(preparation, e.task);
        if e in plan.dependencies {
          assert !HasTask(preparation, e.dependsOn);
        }
      }
      LayersStayAcyclic(plan.dependencies, graft.dependencies, level);
    } else {
      var i, j :| 0 <= i < |preparation| && 0 <= j < |plan.tasks| && preparation[i].id == plan.tasks[j].id;
      assert graft.tasks[i].id == graft.tasks[|preparation| + j].id;
    }
  }

  lemma RootWaits(plan: Plan, preparation: seq<Task>, root: Uuid, p: Task)
    requires HasTask(plan.tasks, root) && Root(plan.dependencies, root) && p in preparation
    ensures Direct(Graft(plan, preparation).dependencies, root, p.id)
  {
    var roots := Roots(plan.tasks, plan.dependencies);
    var i :| 0 <= i < |plan.tasks| && plan.tasks[i].id == root;
    RootsContents(plan.tasks, plan.dependencies);
    assert IsRoot(plan.tasks[i], plan.dependencies) by {
      assert forall e :: e in plan.dependencies ==> e.task != root;
    }
    assert plan.tasks[i] in roots;
    LinksContents(roots, preparation);
    var k :| 0 <= k < |roots| && roots[k] == plan.tasks[i];
    var j :| 0 <= j < |preparation| && preparation[j] == p;
    assert Dependency(roots[k].id, preparation[j].id, FINISH_TO_START) in Links(roots, preparation);
  }

  /** Every planned task waits, directly or transitively, for every preparatory task. */
  lemma GraftWaitsForPreparation(plan: Plan, preparation: seq<Task>, t: Task, p: Task)
    requires ValidPlan(plan) && t in plan.tasks && p in preparation
    ensures DependsOn(Graft(plan, preparation).dependencies, t.id, p.id)
  {
    var edges := Graft(plan, preparation).dependencies;
    HasTaskIn(plan.tasks, t);
    var root := ReachesRoot(plan.tasks, plan.dependencies, t.id, {});
    RootWaits(plan, preparation, root, p);
    DirectDepends(edges, root, p.id);
    if root != t.id {
      DependsMonotone(plan.dependencies, edges, t.id, root);
      DependsTransitive(edges, t.id, root, p.id);
    }
  }

  lemma {:induction false} LinksExactly(later: seq<Task>, earlier: seq<Task>, e: Dependency)
    ensures e in Links(later, earlier) <==>
      e.kind == FINISH_TO_START && exists t, p :: t in later && p in earlier && e.task == t.id && e.dependsOn == p.id
  {
    LinksContents(later, earlier);
    if e in Links(later, earlier) {
      var i :| 0 <= i < |later| && later[i].id == e.task;
      var j :| 0 <= j < |earlier| && earlier[j].id == e.dependsOn;
      assert later[i] in later && earlier[j] in earlier;
    }
    if e.kind == FINISH_TO_START && exists t, p :: t in later && p in earlier && e.task == t.id && e.dependsOn == p.id {
      var t, p :| t in later && p in earlier && e.task == t.id && e.dependsOn == p.id;
      var i :| 0 <= i < |later| && later[i] == t;
      var j :| 0 <= j < |earlier| && earlier[j] == p;
      assert Dependency(later[i].id, earlier[j].id, FINISH_TO_START) in Links(later, earlier);
    }
  }

  /** The graft puts the preparatory tasks first and adds nothing but edges from the tasks that waited for nothing. */
  lemma GraftExactly(plan: Plan, preparation: seq<Task>, e: Dependency)
    ensures var graft := Graft(plan, preparation);
      && graft == plan.(tasks := preparation + plan.tasks, dependencies := graft.dependencies)
      && plan.dependencies <= graft.dependencies
      && (e in graft.dependencies <==>
            || e in plan.dependencies
            || (e.kind == FINISH_TO_START
                && exists t, p :: t in plan.tasks && p in preparation && e.task == t.id && e.dependsOn == p.id
                                  && forall d :: d in plan.dependencies ==> d.task != t.id))
  {
    var roots := Roots(plan.tasks, plan.dependencies);
    RootsContents(plan.tasks, plan.dependencies);
    LinksExactly(roots, preparation, e);
    forall t | t in plan.tasks
      ensures t in roots <==> forall d :: d in plan.dependencies ==> d.task != t.id
    {
      if !IsRoot(t, plan.dependencies) {
        var i :| 0 <= i < |plan.dependencies| && plan.dependencies[i].task == t.id;
        assert plan.dependencies[i] in plan.dependencies;
      }
    }
  }

  // ---------------------------------------------------------------------------------
  // Delivery extension

  datatype Step = Step(name: string, role: string, description: string)

  const DELIVERY_STEPS: seq<Step> := [
    Step("implementation", "CHANGE_GUARDIAN", "Inspect accepted implementation"),
    Step("documentation", "DOCUMENTATION", "Document accepted changes"),
    Step("validation", "TESTER", "Validate final deliverable"),
    Step("final", "CHANGE_GUARDIAN", "Inspect final deliverable"),
    Step("git", "GITOPS", "Deliver validated changes to Git"),
    Step("memory", "MEMORY_CURATOR", "Curate accepted project knowledge")
  ]

  function StepId(run: Uuid, name: string): Uuid { Named(run, "delivery-task:" + name) }

  function StepTask(current: Plan, k: nat): Task
    requires k < 6
  {
    var step := DELIVERY_STEPS[k];
    Task(StepId(current.run, step.name), current.run, current.version + 1, step.description, step.role, [], UNSTARTED)
  }

  function StepTasks(current: Plan): (tasks: seq<Task>)
    ensures |tasks| == 6 && forall k :: 0 <= k < 6 ==> tasks[k] == StepTask(current, k)
  {
    seq(6, k requires 0 <= k < 6 => StepTask(current, k))
  }

  function SucceededTasks(tasks: seq<Task>): seq<Task> {
    if tasks == [] then []
    else (if tasks[0].progress.status == Succeeded then [tasks[0]] else []) + SucceededTasks(tasks[1..])
  }

  /** Each step waits for the one before it. */
  function StepLinks(steps: seq<Task>): seq<Dependency>
    requires |steps| == 6
  {
    seq(5, k requires 0 <= k < 5 => Dependency(steps[k + 1].id, steps[k].id, FINISH_TO_START))
  }

  function DeliveryPlan(current: Plan): Plan {
    var steps := StepTasks(current);
    Plan(current.run, current.goal, current.version + 1, current.tasks + steps,
         current.dependencies + Links([steps[0]], SucceededTasks(current.tasks)) + StepLinks(steps))
  }

  lemma {:induction false} SucceededContents(tasks: seq<Task>)
    ensures forall t :: t in SucceededTasks(tasks) <==> t in tasks && t.progress.status == Succeeded
    ensures DistinctIds(tasks) ==> DistinctIds(SucceededTasks(tasks))
  {
    if tasks != [] {
      SucceededContents(tasks[1..]);
      assert tasks == [tasks[0]] + tasks[1..];
      if DistinctIds(tasks) {
        var rest := SucceededTasks(tasks[1..]);
        forall i | 0 <= i < |rest|
          ensures rest[i].id != tasks[0].id
        {
          assert rest[i] in rest;
          var k :| 0 <= k < |tasks[1..]| && tasks[1..][k] == rest[i];
          assert tasks[k + 1] == rest[i];
        }
      }
    }
  }

  /** The six names differ, so the six derived identities do. */
  lemma StepIdsDistinct(run: Uuid, j: nat, k: nat)
    requires j < 6 && k < 6 && StepId(run, DELIVERY_STEPS[j].name) == StepId(run, DELIVERY_STEPS[k].name)
    ensures j == k
  {
    var prefix := "delivery-task:";
    var a, b := DELIVERY_STEPS[j].name, DELIVERY_STEPS[k].name;
    assert prefix + a == prefix + b;
    assert a == (prefix + a)[|prefix|..] && b == (prefix + b)[|prefix|..];
    assert |"implementation"| == 14 && |"documentation"| == 13 && |"validation"| == 10;
    assert |"final"| == 5 && |"git"| == 3 && |"memory"| == 6;
    assert |a| == |b|;
  }

  /** What `PlanRevisionService._install` demands of a revision of `current`
      (src/orqalis/core/plan_revision.py, lines 85-105). */
  ghost predicate AdditiveRevision(current: Plan, revised: Plan) {
    KeepsHistory(current, revised) && AddsFreshTasks(current, revised)
  }

  /** All tasks and dependencies stay, and no old task waits for anything new. */
  ghost predicate KeepsHistory(current: Plan, revised: Plan) {
    && (forall t :: t in current.tasks ==> t in revised.tasks)
    && (forall e :: e in current.dependencies ==> e in revised.dependencies)
    && (forall e :: e in revised.dependencies && e !in current.dependencies ==> !HasTask(current.tasks, e.task))
  }

  /** There are new tasks, all of the new version and unstarted. */
  ghost predicate AddsFreshTasks(current: Plan, revised: Plan) {
    && (exists t :: t in revised.tasks && !HasTask(current.tasks, t.id))
    && (forall t :: t in revised.tasks && !HasTask(current.tasks, t.id) ==>
          t.progress.status == Pending && t.progress.attempts == 0 && t.planVersion == revised.version)
  }

  /** No delivery step is in the plan yet. */
  ghost predicate NoSteps(current: Plan) {
    forall k :: 0 <= k < 6 ==> !HasTask(current.tasks, StepId(current.run, DELIVERY_STEPS[k].name))
  }

  ghost function StepLevel(current: Plan): Uuid -> int {
    id => if exists k :: 0 <= k < 6 && id == StepId(current.run, DELIVERY_STEPS[k].name)
          then 1 + StepIndex(current.run, id) else 0
  }

  ghost function StepIndex(run: Uuid, id: Uuid): (k: nat)
    requires exists k :: 0 <= k < 6 && id == StepId(run, DELIVERY_STEPS[k].name)
    ensures k < 6 && id == StepId(run, DELIVERY_STEPS[k].name)
  {
    var k :| 0 <= k < 6 && id == StepId(run, DELIVERY_STEPS[k].name); k
  }

  lemma LevelOfStep(current: Plan, k: nat)
    requires k < 6
    ensures StepLevel(current)(StepTask(current, k).id) == 1 + k
  {
    StepIdsDistinct(current.run, StepIndex(current.run, StepTask(current, k).id), k);
  }

  lemma LevelOfOld(current: Plan, id: Uuid)
    requires NoSteps(current) && HasTask(current.tasks, id)
    ensures StepLevel(current)(id) == 0
  {
  }

  lemma HasTaskAppended(front: seq<Task>, back: seq<Task>, id: Uuid)
    ensures HasTask(front + back, id) <==> HasTask(front, id) || HasTask(back, id)
  {
    if HasTask(front, id) {
      var i :| 0 <= i < |front| && front[i].id == id;
      assert (front + back)[i].id == id;
    }
    if HasTask(back, id) {
      var i :| 0 <= i < |back| && back[i].id == id;
      assert (front + back)[|front| + i].id == id;
    }
    if HasTask(front + back, id) {
      var i :| 0 <= i < |front + back| && (front + back)[i].id == id;
      assert if i < |front| then front[i].id == id else back[i - |front|].id == id;
    }
  }

  lemma OldEdge(current: Plan, e: Dependency)
    requires ValidPlan(current) && NoSteps(current) && e in current.dependencies
    ensures HasTask(DeliveryPlan(current).tasks, e.task) && HasTask(DeliveryPlan(current).tasks, e.dependsOn)
    ensures StepLevel(current)(e.task) == StepLevel(current)(e.dependsOn) == 0
  {
    HasTaskAppended(current.tasks, StepTasks(current), e.task);
    HasTaskAppended(current.tasks, StepTasks(current), e.dependsOn);
    LevelOfOld(current, e.task);
    LevelOfOld(current, e.dependsOn);
  }

  lemma EntryEdge(current: Plan, e: Dependency)
    requires ValidPlan(current) && NoSteps(current)
    requires e in Links([StepTask(current, 0)], SucceededTasks(current.tasks))
    ensures HasTask(DeliveryPlan(current).tasks, e.task) && HasTask(DeliveryPlan(current).tasks, e.dependsOn)
    ensures e.task == StepTask(current, 0).id && HasTask(current.tasks, e.dependsOn) && e.kind == FINISH_TO_START
    ensures StepLevel(current)(e.task) == 1 && StepLevel(current)(e.dependsOn) == 0
  {
    var succeeded := SucceededTasks(current.tasks);
    SucceededContents(current.tasks);
    LinksContents([StepTask(current, 0)], succeeded);
    var j :| 0 <= j < |succeeded| && succeeded[j].id == e.dependsOn;
    assert succeeded[j] in succeeded;
    HasTaskIn(current.tasks, succeeded[j]);
    HasTaskIn(StepTasks(current), StepTasks(current)[0]);
    HasTaskAppended(current.tasks, StepTasks(current), e.task);
    HasTaskAppended(current.tasks, StepTasks(current), e.dependsOn);
    LevelOfStep(current, 0);
    LevelOfOld(current, e.dependsOn);
  }

  lemma StepEdge(current: Plan, k: nat)
    requires k < 5
    ensures var e := StepLinks(StepTasks(current))[k];
      && HasTask(DeliveryPlan(current).tasks, e.task) && HasTask(DeliveryPlan(current).tasks, e.dependsOn)
      && StepLevel(current)(e.task) == k + 2 && StepLevel(current)(e.dependsOn) == k + 1
  {
    var steps := StepTasks(current);
    HasTaskIn(steps, steps[k]);
    HasTaskIn(steps, steps[k + 1]);
    HasTaskAppended(current.tasks, steps, steps[k].id);
    HasTaskAppended(current.tasks, steps, steps[k + 1].id);
    LevelOfStep(current, k);
    LevelOfStep(current, k + 1);
  }

  /** The three groups of edges of the delivery plan, and the layers they run between. */
  lemma DeliveryEdge(current: Plan, e: Dependency)
    requires ValidPlan(current) && NoSteps(current) && e in DeliveryPlan(current).dependencies
    ensures HasTask(DeliveryPlan(current).tasks, e.task) && HasTask(DeliveryPlan(current).tasks, e.dependsOn)
    ensures e.kind == FINISH_TO_START
    ensures e in current.dependencies ==> StepLevel(current)(e.task) == StepLevel(current)(e.dependsOn) == 0
    ensures e !in current.dependencies ==> StepLevel(current)(e.task) > StepLevel(current)(e.dependsOn) >= 0
  {
    if e in current.dependencies {
      OldEdge(current, e);
    } else if e in Links([StepTask(current, 0)], SucceededTasks(current.tasks)) {
      EntryEdge(current, e);
    } else {
      var k := LinkOfSteps(current, e);
      StepEdge(current, k);
    }
  }

  lemma LinkOfSteps(current: Plan, e: Dependency) returns (k: nat)
    requires e in DeliveryPlan(current).dependencies && e !in current.dependencies
    requires e !in Links([StepTask(current, 0)], SucceededTasks(current.tasks))
    ensures k < 5 && e == StepLinks(StepTasks(current))[k]
  {
    assert e in StepLinks(StepTasks(current));
    k :| 0 <= k < |StepLinks(StepTasks(current))| && StepLinks(StepTasks(current))[k] == e;
  }

  lemma DeliveryTasks(current: Plan)
    requires ValidPlan(current) && NoSteps(current)
    ensures DistinctIds(DeliveryPlan(current).tasks)
    ensures forall t :: t in DeliveryPlan(current).tasks ==> t.run == current.run && t.planVersion <= current.version + 1
  {
    var tasks, n := DeliveryPlan(current).tasks, |current.tasks|;
    var steps := StepTasks(current);
    forall i, j | 0 <= i < j < |tasks|
      ensures tasks[i].id != tasks[j].id
    {
      if j >= n {
        assert tasks[j] == steps[j - n];
        if i >= n {
          if steps[i - n].id == steps[j - n].id {
            StepIdsDistinct(current.run, i - n, j - n);
          }
        } else {
          assert HasTask(current.tasks, tasks[i].id);
        }
      }
    }
  }

  lemma DistinctAppended(a: seq<Dependency>, b: seq<Dependency>)
    requires DistinctEdges(a) && DistinctEdges(b)
    requires forall e, f :: e in a && f in b ==> e.task != f.task
    ensures DistinctEdges(a + b)
  {
    assert forall i :: 0 <= i < |a| ==> a[i] in a;
    assert forall i :: 0 <= i < |b| ==> b[i] in b;
  }

  lemma DeliveryEdgesDistinct(current: Plan)
    requires ValidPlan(current) && NoSteps(current)
    ensures DistinctEdges(DeliveryPlan(current).dependencies)
  {
    var steps := StepTasks(current);
    var entry, links := Links([steps[0]], SucceededTasks(current.tasks)), StepLinks(steps);
    var level := StepLevel(current);
    SucceededContents(current.tasks);
    LinksDistinct([steps[0]], SucceededTasks(current.tasks));
    forall e | e in current.dependencies
      ensures level(e.task) == 0
    {
      OldEdge(current, e);
    }
    forall e | e in entry
      ensures level(e.task) == 1
    {
      EntryEdge(current, e);
    }
    forall k | 0 <= k < 5
      ensures level(links[k].task) == k + 2
    {
      StepEdge(current, k);
    }
    DistinctAppended(current.dependencies, entry);
    DistinctAppended(current.dependencies + entry, links);
  }

  /** The delivery plan passes plan validation exactly when no delivery step is in the plan yet. */
  lemma DeliveryPlanValid(current: Plan)
    requires ValidPlan(current)
    ensures ValidPlan(DeliveryPlan(current)) <==> NoSteps(current)
  {
    var plan := DeliveryPlan(current);
    var steps := StepTasks(current);
    if NoSteps(current) {
      DeliveryTasks(current);
      DeliveryEdgesDistinct(current);
      forall e | e in plan.dependencies
        ensures HasTask(plan.tasks, e.task) && HasTask(plan.tasks, e.dependsOn) && e.kind == FINISH_TO_START
        ensures e in current.dependencies ==> StepLevel(current)(e.task) == StepLevel(current)(e.dependsOn)
        ensures e !in current.dependencies ==> StepLevel(current)(e.task) > StepLevel(current)(e.dependsOn)
      {
        DeliveryEdge(current, e);
      }
      LayersStayAcyclic(current.dependencies, plan.dependencies, StepLevel(current));
    } else {
      var k :| 0 <= k < 6 && HasTask(current.tasks, StepId(current.run, DELIVERY_STEPS[k].name));
      var i :| 0 <= i < |current.tasks| && current.tasks[i].id == steps[k].id;
      assert plan.tasks[i].id == plan.tasks[|current.tasks| + k].id;
    }
  }

  lemma NewEdgeOfStep(current: Plan, e: Dependency)
    requires ValidPlan(current) && NoSteps(current) && e in DeliveryPlan(current).dependencies && e !in current.dependencies
    ensures !HasTask(current.tasks, e.task)
  {
    DeliveryEdge(current, e);
    if HasTask(current.tasks, e.task) {
      LevelOfOld(current, e.task);
    }
  }

  lemma NewTaskIsStep(current: Plan, t: Task)
    requires t in DeliveryPlan(current).tasks && !HasTask(current.tasks, t.id)
    ensures t in StepTasks(current)
  {
    if t in current.tasks {
      HasTaskIn(current.tasks, t);
    }
  }

  lemma DeliveryKeepsHistory(current: Plan)
    requires ValidPlan(current) && NoSteps(current)
    ensures KeepsHistory(current, DeliveryPlan(current))
  {
    forall e | e in DeliveryPlan(current).dependencies && e !in current.dependencies
      ensures !HasTask(current.tasks, e.task)
    {
      NewEdgeOfStep(current, e);
    }
  }

  lemma DeliveryAddsSteps(current: Plan)
    requires NoSteps(current)
    ensures AddsFreshTasks(current, DeliveryPlan(current))
  {
    var plan := DeliveryPlan(current);
    var steps := StepTasks(current);
    assert plan.tasks[|current.tasks|] == steps[0] && steps[0] in plan.tasks;
    forall t | t in plan.tasks && !HasTask(current.tasks, t.id)
      ensures t in steps
    {
      NewTaskIsStep(current, t);
    }
  }

  /** The delivery plan is a revision its installer accepts: history and old dependencies are untouched. */
  lemma DeliveryPlanInstallable(current: Plan)
    requires ValidPlan(current) && NoSteps(current)
    ensures AdditiveRevision(current, DeliveryPlan(current))
  {
    DeliveryKeepsHistory(current);
    DeliveryAddsSteps(current);
  }

  /** Every delivery step waits for all steps before it and for every task that has succeeded. */
  lemma {:induction false} StepsWait(current: Plan, k: nat)
    requires k < 6
    ensures forall j :: 0 <= j < k ==>
      DependsOn(DeliveryPlan(current).dependencies, StepTask(current, k).id, StepTask(current, j).id)
    ensures forall t :: t in current.tasks && t.progress.status == Succeeded ==>
      DependsOn(DeliveryPlan(current).dependencies, StepTask(current, k).id, t.id)
  {
    var edges := DeliveryPlan(current).dependencies;
    var steps := StepTasks(current);
    var succeeded := SucceededTasks(current.tasks);
    if k == 0 {
      SucceededContents(current.tasks);
      LinksContents([steps[0]], succeeded);
      forall t | t in current.tasks && t.progress.status == Succeeded
        ensures DependsOn(edges, steps[0].id, t.id)
      {
        assert t in succeeded;
        var j :| 0 <= j < |succeeded| && succeeded[j] == t;
        assert Dependency([steps[0]][0].id, succeeded[j].id, FINISH_TO_START) in edges;
        DirectDepends(edges, steps[0].id, t.id);
      }
    } else {
      StepsWait(current, k - 1);
      assert StepLinks(steps)[k - 1] in edges;
      assert Direct(edges, steps[k].id, steps[k - 1].id);
      DirectDepends(edges, steps[k].id, steps[k - 1].id);
      forall b | DependsOn(edges, steps[k - 1].id, b)
        ensures DependsOn(edges, steps[k].id, b)
      {
        DependsTransitive(edges, steps[k].id, steps[k - 1].id, b);
      }
    }
  }

  /** The delivery plan adds six unstarted tasks of the next version, a chain whose first task waits for every
      succeeded task, and nothing else. */
  lemma DeliveryPlanExactly(current: Plan, e: Dependency)
    ensures var plan, steps := DeliveryPlan(current), StepTasks(current);
      && plan == Plan(current.run, current.goal, current.version + 1, current.tasks + steps, plan.dependencies)
      && (forall k :: 0 <= k < 6 ==> steps[k].id == Named(current.run, "delivery-task:" + DELIVERY_STEPS[k].name)
                                     && steps[k].planVersion == current.version + 1 && steps[k].progress == UNSTARTED)
      && (e in plan.dependencies <==>
            || e in current.dependencies
            || (exists t :: t in current.tasks && t.progress.status == Succeeded && e == Dependency(steps[0].id, t.id, FINISH_TO_START))
            || (exists k :: 0 <= k < 5 && e == Dependency(steps[k + 1].id, steps[k].id, FINISH_TO_START)))
  {
    FirstStepLinks(current.tasks, StepTasks(current)[0], e);
    ChainLinks(StepTasks(current), e);
  }

  lemma FirstStepLinks(tasks: seq<Task>, first: Task, e: Dependency)
    ensures e in Links([first], SucceededTasks(tasks)) <==>
      exists t :: t in tasks && t.progress.status == Succeeded && e == Dependency(first.id, t.id, FINISH_TO_START)
  {
    var done := SucceededTasks(tasks);
    SucceededContents(tasks);
    LinksExactly([first], done, e);
    if e in Links([first], done) {
      var t, p :| t in [first] && p in done && e.task == t.id && e.dependsOn == p.id;
      assert p in tasks && e == Dependency(first.id, p.id, FINISH_TO_START);
    }
    if exists t :: t in tasks && t.progress.status == Succeeded && e == Dependency(first.id, t.id, FINISH_TO_START) {
      var t :| t in tasks && t.progress.status == Succeeded && e == Dependency(first.id, t.id, FINISH_TO_START);
      assert first in [first] && t in done;
    }
  }

  lemma ChainLinks(steps: seq<Task>, e: Dependency)
    requires |steps| == 6
    ensures e in StepLinks(steps) <==> exists k :: 0 <= k < 5 && e == Dependency(steps[k + 1].id, steps[k].id, FINISH_TO_START)
  {
    var links := StepLinks(steps);
    if e in links {
      var k :| 0 <= k < |links| && links[k] == e;
      assert e == Dependency(steps[k + 1].id, steps[k].id, FINISH_TO_START);
    }
    if exists k :: 0 <= k < 5 && e == Dependency(steps[k + 1].id, steps[k].id, FINISH_TO_START) {
      var k :| 0 <= k < 5 && e == Dependency(steps[k + 1].id, steps[k].id, FINISH_TO_START);
      assert links[k] == e;
    }
  }

  // ---------------------------------------------------------------------------------
  // Editable copy of a plan

  function Active(tasks: seq<Task>): seq<Task> {
    if tasks == [] then []
    else (if tasks[0].planVersion > 0 then [tasks[0]] else []) + Active(tasks[1..])
  }

  /** One new random identity for each active task. */
  ghost predicate FreshIdentities(current: Plan, renamed: map<Uuid, Uuid>) {
    && (forall id :: id in renamed <==> HasTask(Active(current.tasks), id))
    && (forall a, b :: a in renamed && b in renamed && renamed[a] == renamed[b] ==> a == b)
  }

  function Copy(t: Task, renamed: map<Uuid, Uuid>, version: nat): Task {
    t.(id := if t.id in renamed then renamed[t.id] else t.id, planVersion := version, progress := UNSTARTED)
  }

  function CopyEdges(edges: seq<Dependency>, renamed: map<Uuid, Uuid>): seq<Dependency> {
    if edges == [] then []
    else
      (if edges[0].task in renamed && edges[0].dependsOn in renamed
       then [Dependency(renamed[edges[0].task], renamed[edges[0].dependsOn], edges[0].kind)] else [])
      + CopyEdges(edges[1..], renamed)
  }

  function DraftReplacement(current: Plan, renamed: map<Uuid, Uuid>): Plan {
    var active := Active(current.tasks);
    Plan(current.run, current.goal, current.version + 1,
         seq(|active|, i requires 0 <= i < |active| => Copy(active[i], renamed, current.version + 1)),
         CopyEdges(current.dependencies, renamed))
  }

  lemma {:induction false} ActiveContents(tasks: seq<Task>)
    ensures forall t :: t in Active(tasks) <==> t in tasks && t.planVersion > 0
    ensures DistinctIds(tasks) ==> DistinctIds(Active(tasks))
  {
    if tasks != [] {
      ActiveContents(tasks[1..]);
      assert tasks == [tasks[0]] + tasks[1..];
      if DistinctIds(tasks) {
        var rest := Active(tasks[1..]);
        forall i | 0 <= i < |rest|
          ensures rest[i].id != tasks[0].id
        {
          assert rest[i] in rest;
          var k :| 0 <= k < |tasks[1..]| && tasks[1..][k] == rest[i];
          assert tasks[k + 1] == rest[i];
        }
      }
    }
  }

  /** The copied edges are exactly the images of the edges between active tasks, without duplicates. */
  lemma {:induction false} CopiedEdges(edges: seq<Dependency>, renamed: map<Uuid, Uuid>)
    requires forall a, b :: a in renamed && b in renamed && renamed[a] == renamed[b] ==> a == b
    ensures forall e :: e in CopyEdges(edges, renamed) <==>
      exists f :: f in edges && f.task in renamed && f.dependsOn in renamed
                  && e == Dependency(renamed[f.task], renamed[f.dependsOn], f.kind)
    ensures DistinctEdges(edges) ==> DistinctEdges(CopyEdges(edges, renamed))
  {
    if edges != [] {
      CopiedEdges(edges[1..], renamed);
      assert edges == [edges[0]] + edges[1..];
      var rest := CopyEdges(edges[1..], renamed);
      if DistinctEdges(edges) && edges[0].task in renamed && edges[0].dependsOn in renamed {
        var first := Dependency(renamed[edges[0].task], renamed[edges[0].dependsOn], edges[0].kind);
        forall i | 0 <= i < |rest|
          ensures (rest[i].task, rest[i].dependsOn) != (first.task, first.dependsOn)
        {
          assert rest[i] in rest;
          var f :| f in edges[1..] && f.task in renamed && f.dependsOn in renamed
                   && rest[i] == Dependency(renamed[f.task], renamed[f.dependsOn], f.kind);
          var k :| 0 <= k < |edges[1..]| && edges[1..][k] == f;
          assert edges[k + 1] == f;
        }
      }
    }
  }

  /** The draft is an isomorphic copy of the active part of the plan. */
  lemma DraftIsomorphic(current: Plan, renamed: map<Uuid, Uuid>, a: Uuid, b: Uuid)
    requires FreshIdentities(current, renamed) && a in renamed && b in renamed
    ensures Direct(DraftReplacement(current, renamed).dependencies, renamed[a], renamed[b])
        <==> Direct(current.dependencies, a, b)
  {
    var copied := DraftReplacement(current, renamed).dependencies;
    CopiedEdges(current.dependencies, renamed);
    if Direct(copied, renamed[a], renamed[b]) {
      var e :| e in copied && e.task == renamed[a] && e.dependsOn == renamed[b];
      var f :| f in current.dependencies && f.task in renamed && f.dependsOn in renamed
               && e == Dependency(renamed[f.task], renamed[f.dependsOn], f.kind);
      assert f.task == a && f.dependsOn == b;
    }
    if Direct(current.dependencies, a, b) {
      var f :| f in current.dependencies && f.task == a && f.dependsOn == b;
      assert Dependency(renamed[a], renamed[b], f.kind) in copied;
    }
  }

  /** The first link of a chain in the draft is the image of a link in the plan. */
  lemma DraftLink(current: Plan, renamed: map<Uuid, Uuid>, p: seq<Uuid>) returns (a: Uuid, b: Uuid)
    requires FreshIdentities(current, renamed) && Chain(DraftReplacement(current, renamed).dependencies, p)
    ensures Direct(current.dependencies, a, b) && a in renamed && b in renamed && renamed[a] == p[0] && renamed[b] == p[1]
  {
    var copied := DraftReplacement(current, renamed).dependencies;
    CopiedEdges(current.dependencies, renamed);
    assert Direct(copied, p[0], p[0 + 1]);
    var e :| e in copied && e.task == p[0] && e.dependsOn == p[1];
    var f :| f in current.dependencies && f.task in renamed && f.dependsOn in renamed
             && e == Dependency(renamed[f.task], renamed[f.dependsOn], f.kind);
    a, b := f.task, f.dependsOn;
  }

  /** A chain in the draft is the image of a chain in the plan. */
  lemma {:induction false} DraftChain(current: Plan, renamed: map<Uuid, Uuid>, p: seq<Uuid>) returns (q: seq<Uuid>)
    requires FreshIdentities(current, renamed) && Chain(DraftReplacement(current, renamed).dependencies, p)
    ensures |q| == |p| && Chain(current.dependencies, q)
    ensures forall i :: 0 <= i < |p| ==> q[i] in renamed && renamed[q[i]] == p[i]
  {
    var copied := DraftReplacement(current, renamed).dependencies;
    var a, b := DraftLink(current, renamed, p);
    if |p| == 2 {
      q := [a, b];
    } else {
      var rest := p[1..];
      forall i | 0 <= i < |rest| - 1
        ensures Direct(copied, rest[i], rest[i + 1])
      {
        assert Direct(copied, p[i + 1], p[i + 1 + 1]);
      }
      var r := DraftChain(current, renamed, rest);
      assert r[0] == b;
      q := [a] + r;
      forall i | 0 <= i < |q| - 1
        ensures Direct(current.dependencies, q[i], q[i + 1])
      {
        if i > 0 {
          assert Direct(current.dependencies, r[i - 1], r[i - 1 + 1]);
        }
      }
    }
  }

  lemma DraftEnds(current: Plan, renamed: map<Uuid, Uuid>, e: Dependency)
    requires ValidPlan(current) && FreshIdentities(current, renamed) && e in DraftReplacement(current, renamed).dependencies
    ensures HasTask(DraftReplacement(current, renamed).tasks, e.task)
    ensures HasTask(DraftReplacement(current, renamed).tasks, e.dependsOn) && e.kind == FINISH_TO_START
  {
    var draft := DraftReplacement(current, renamed);
    var active := Active(current.tasks);
    CopiedEdges(current.dependencies, renamed);
    var f :| f in current.dependencies && f.task in renamed && f.dependsOn in renamed
             && e == Dependency(renamed[f.task], renamed[f.dependsOn], f.kind);
    var i :| 0 <= i < |active| && active[i].id == f.task;
    var j :| 0 <= j < |active| && active[j].id == f.dependsOn;
    assert draft.tasks[i].id == e.task && draft.tasks[j].id == e.dependsOn;
  }

  lemma DraftAcyclic(current: Plan, renamed: map<Uuid, Uuid>)
    requires Acyclic(current.dependencies) && FreshIdentities(current, renamed)
    ensures Acyclic(DraftReplacement(current, renamed).dependencies)
  {
    var copied := DraftReplacement(current, renamed).dependencies;
    forall a
      ensures !DependsOn(copied, a, a)
    {
      if DependsOn(copied, a, a) {
        var p :| ChainBetween(copied, p, a, a);
        var q := DraftChain(current, renamed, p);
        assert !DependsOn(current.dependencies, q[0], q[0]);
        assert ChainBetween(current.dependencies, q, q[0], q[0]);
      }
    }
  }

  lemma DraftTasks(current: Plan, renamed: map<Uuid, Uuid>)
    requires ValidPlan(current) && FreshIdentities(current, renamed)
    ensures DistinctIds(DraftReplacement(current, renamed).tasks)
    ensures DraftReplacement(current, renamed).tasks != [] <==> exists t :: t in current.tasks && t.planVersion > 0
  {
    var draft := DraftReplacement(current, renamed);
    var active := Active(current.tasks);
    ActiveContents(current.tasks);
    assert active != [] ==> active[0] in active;
    forall i | 0 <= i < |active|
      ensures active[i].id in renamed && draft.tasks[i].id == renamed[active[i].id]
    {
      assert HasTask(active, active[i].id);
    }
  }

  lemma DraftKnownEnds(current: Plan, renamed: map<Uuid, Uuid>)
    requires ValidPlan(current) && FreshIdentities(current, renamed)
    ensures var draft := DraftReplacement(current, renamed);
      KnownEnds(draft.tasks, draft.dependencies) && DistinctEdges(draft.dependencies)
  {
    var draft := DraftReplacement(current, renamed);
    CopiedEdges(current.dependencies, renamed);
    forall e | e in draft.dependencies
      ensures HasTask(draft.tasks, e.task) && HasTask(draft.tasks, e.dependsOn) && e.kind == FINISH_TO_START
    {
      DraftEnds(current, renamed, e);
    }
  }

  lemma DraftFits(current: Plan, renamed: map<Uuid, Uuid>, t: Task)
    requires ValidPlan(current) && t in DraftReplacement(current, renamed).tasks
    ensures t.run == current.run && t.planVersion == current.version + 1
  {
    var tasks := DraftReplacement(current, renamed).tasks;
    ActiveContents(current.tasks);
    var i :| 0 <= i < |tasks| && tasks[i] == t;
    assert Active(current.tasks)[i] in current.tasks;
  }

  /** The draft of a valid plan is a valid plan, unless nothing but preparatory work is left to copy. */
  lemma DraftValid(current: Plan, renamed: map<Uuid, Uuid>)
    requires ValidPlan(current) && FreshIdentities(current, renamed)
    ensures ValidPlan(DraftReplacement(current, renamed)) <==> exists t :: t in current.tasks && t.planVersion > 0
  {
    var draft := DraftReplacement(current, renamed);
    DraftTasks(current, renamed);
    DraftAcyclic(current, renamed);
    DraftKnownEnds(current, renamed);
    forall t | t in draft.tasks
      ensures t.run == draft.run && t.planVersion <= draft.version
    {
      DraftFits(current, renamed, t);
    }
  }

  ghost function Covered(tasks: seq<Task>): set<Uuid> {
    set t, c | t in tasks && c in t.criteria :: c
  }

  /** The draft covers the criteria of the active tasks, and everything in it is new and unstarted. */
  lemma DraftCoverage(current: Plan, renamed: map<Uuid, Uuid>)
    requires FreshIdentities(current, renamed)
    ensures Covered(DraftReplacement(current, renamed).tasks) == Covered(Active(current.tasks))
    ensures forall t :: t in DraftReplacement(current, renamed).tasks ==>
      t.progress == UNSTARTED && t.planVersion == current.version + 1 && t.id in renamed.Values
  {
    var draft := DraftReplacement(current, renamed);
    var active := Active(current.tasks);
    forall i | 0 <= i < |active|
      ensures draft.tasks[i].criteria == active[i].criteria && active[i].id in renamed
    {
      assert HasTask(active, active[i].id);
    }
    forall c
      ensures c in Covered(draft.tasks) <==> c in Covered(active)
    {
      if c in Covered(active) {
        var t :| t in active && c in t.criteria;
        var i :| 0 <= i < |active| && active[i] == t;
        assert draft.tasks[i] in draft.tasks;
      }
    }
  }

  /** The draft is the next version for the same goal: one copy of each active task, in order, with a new identity and
      no progress, and otherwise as it was. */
  lemma DraftExactly(current: Plan, renamed: map<Uuid, Uuid>)
    requires FreshIdentities(current, renamed)
    ensures var draft, active := DraftReplacement(current, renamed), Active(current.tasks);
      && draft == Plan(current.run, current.goal, current.version + 1, draft.tasks, draft.dependencies)
      && |draft.tasks| == |active| && (forall t :: t in active <==> t in current.tasks && t.planVersion > 0)
      && forall i :: 0 <= i < |active| ==>
           && active[i].id in renamed && draft.tasks[i].id == renamed[active[i].id]
           && draft.tasks[i] == Task(draft.tasks[i].id, active[i].run, current.version + 1, active[i].text, active[i].role,
                                     active[i].criteria, UNSTARTED)
  {
    ActiveContents(current.tasks);
    var active := Active(current.tasks);
    forall i | 0 <= i < |active|
      ensures active[i].id in renamed
    {
      assert HasTask(active, active[i].id);
    }
  }
}
