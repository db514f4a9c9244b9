/** Link centrality by power iteration (src/orqalis/context/builder.py, `_centrality`).

    Ranks are modelled over `real`.  `PowerStep` states one iteration as an equation
    per node; `Centrality` runs the loops of the source and is proved against it, and
    the step is shown to conserve the total rank of 1, dangling nodes included. */
module ContextCentrality {
  import opened ContextDistances

  type Rank = map<string, real>

  /** The share of rank that follows links; the rest is teleported. */
  function Damp(x: real): real { 0.85 * x }

  const TELEPORT := 0.15

  // ---------------------------------------------------------------------------------
  // Finite sums

  ghost function Pick(s: set<string>): (x: string)
    requires s != {}
    ensures x in s
  {
    var x :| x in s; x
  }

  ghost function Sum(s: set<string>, f: string -> real): real {
    if s == {} then 0.0 else f(Pick(s)) + Sum(s - {Pick(s)}, f)
  }

  lemma {:induction false} SumPick(s: set<string>, f: string -> real, y: string)
    requires y in s
    ensures Sum(s, f) == f(y) + Sum(s - {y}, f)
  {
    var x := Pick(s);
    if x != y {
      SumPick(s - {x}, f, y);
      SumPick(s - {y}, f, x);
      assert s - {x} - {y} == s - {y} - {x};
    }
  }

  lemma {:induction false} SumExt(s: set<string>, f: string -> real, g: string -> real)
    requires forall x :: x in s ==> f(x) == g(x)
    ensures Sum(s, f) == Sum(s, g)
  {
    if s != {} {
      var x := Pick(s);
      SumPick(s, f, x);
      SumPick(s, g, x);
      SumExt(s - {x}, f, g);
    }
  }

  lemma {:induction false} SumPlus(s: set<string>, f: string -> real, g: string -> real, h: string -> real)
    requires forall x :: x in s ==> h(x) == f(x) + g(x)
    ensures Sum(s, h) == Sum(s, f) + Sum(s, g)
  {
    if s != {} {
      var x := Pick(s);
      SumPick(s, f, x);
      SumPick(s, g, x);
      SumPick(s, h, x);
      SumPlus(s - {x}, f, g, h);
    }
  }

  ghost function Repeat(n: nat, c: real): real { if n == 0 then 0.0 else c + Repeat(n - 1, c) }

  lemma {:induction false} RepeatIsProduct(n: nat, c: real)
    ensures Repeat(n, c) == n as real * c
  {
    if n > 0 {
      RepeatIsProduct(n - 1, c);
      assert n as real * c == (n - 1) as real * c + c;
    }
  }

  lemma {:induction false} SumConstant(s: set<string>, f: string -> real, c: real)
    requires forall x :: x in s ==> f(x) == c
    ensures Sum(s, f) == Repeat(|s|, c)
  {
    if s != {} {
      var x := Pick(s);
      SumPick(s, f, x);
      SumConstant(s - {x}, f, c);
      assert |s| == |s - {x}| + 1;
    }
  }

  lemma {:induction false} SumDamped(s: set<string>, f: string -> real, g: string -> real)
    requires forall x :: x in s ==> g(x) == Damp(f(x))
    ensures Sum(s, g) == Damp(Sum(s, f))
  {
    if s != {} {
      var x := Pick(s);
      SumPick(s, f, x);
      SumPick(s, g, x);
      SumDamped(s - {x}, f, g);
    }
  }

  /** A sum over the members satisfying a condition is the sum of the values masked by it. */
  lemma {:induction false} SumMasked(s: set<string>, t: set<string>, f: string -> real, g: string -> real)
    requires t <= s
    requires forall x :: x in s ==> g(x) == (if x in t then f(x) else 0.0)
    ensures Sum(s, g) == Sum(t, f)
  {
    if s != {} {
      var x := Pick(s);
      SumPick(s, g, x);
      if x in t {
        SumPick(t, f, x);
        SumMasked(s - {x}, t - {x}, f, g);
      } else {
        SumMasked(s - {x}, t, f, g);
      }
    }
  }

  ghost function Row(f: (string, string) -> real, x: string): string -> real { y => f(x, y) }

  ghost function Column(f: (string, string) -> real, y: string): string -> real { x => f(x, y) }

  ghost function RowSums(t: set<string>, f: (string, string) -> real): string -> real { x => Sum(t, Row(f, x)) }

  ghost function ColumnSums(s: set<string>, f: (string, string) -> real): string -> real { y => Sum(s, Column(f, y)) }

  /** Interchange of two finite sums. */
  lemma {:induction false} SumSwap(s: set<string>, t: set<string>, f: (string, string) -> real)
    ensures Sum(s, RowSums(t, f)) == Sum(t, ColumnSums(s, f))
  {
    if s == {} {
      SumConstant(t, ColumnSums(s, f), 0.0);
      RepeatIsProduct(|t|, 0.0);
    } else {
      var a := Pick(s);
      SumPick(s, RowSums(t, f), a);
      SumSwap(s - {a}, t, f);
      forall y | y in t
        ensures ColumnSums(s, f)(y) == Row(f, a)(y) + ColumnSums(s - {a}, f)(y)
      {
        SumPick(s, Column(f, y), a);
      }
      SumPlus(t, Row(f, a), ColumnSums(s - {a}, f), ColumnSums(s, f));
    }
  }

  // ---------------------------------------------------------------------------------
  // One iteration

  /** Links between known nodes only; every known node has an entry. */
  ghost predicate Graph(ids: set<string>, outgoing: Adjacency) {
    && ids != {}
    && outgoing.Keys == ids
    && forall u :: u in ids ==> outgoing[u] <= ids
  }

  ghost predicate Distribution(ids: set<string>, rank: Rank) {
    && rank.Keys == ids
    && (forall v :: v in ids ==> rank[v] >= 0.0)
    && Sum(ids, At(rank)) == 1.0
  }

  ghost function At(rank: Rank): string -> real {
    v => if v in rank then rank[v] else 0.0
  }

  ghost function Dangling(ids: set<string>, outgoing: Adjacency): set<string>
    requires outgoing.Keys == ids
  {
    set u | u in ids && outgoing[u] == {}
  }

  /** What `u` passes along each of its links. */
  ghost function Share(outgoing: Adjacency, rank: Rank, u: string): real {
    if Neighbours(outgoing, u) == {} then 0.0
    else Damp(At(rank)(u)) / |Neighbours(outgoing, u)| as real
  }

  /** The flow along the link from the first node to the second. */
  ghost function Passed(outgoing: Adjacency, rank: Rank): (string, string) -> real {
    (u, v) => if v in Neighbours(outgoing, u) then Share(outgoing, rank, u) else 0.0
  }

  /** The part of the next rank that every node receives: teleport plus an even split of dangling rank. */
  ghost function Base(ids: set<string>, outgoing: Adjacency, rank: Rank): real
    requires Graph(ids, outgoing)
  {
    TELEPORT / |ids| as real + Damp(Sum(Dangling(ids, outgoing), At(rank)) / |ids| as real)
  }

  /** What `v` receives over its links from the nodes in `sources`. */
  ghost function Inflow(passed: (string, string) -> real, sources: set<string>, v: string): real {
    Sum(sources, Column(passed, v))
  }

  /** What every node holds after one iteration from `rank`. */
  ghost function NextAt(ids: set<string>, outgoing: Adjacency, rank: Rank, v: string): real
    requires Graph(ids, outgoing)
  {
    Base(ids, outgoing, rank) + Inflow(Passed(outgoing, rank), ids, v)
  }

  ghost predicate PowerStep(ids: set<string>, outgoing: Adjacency, rank: Rank, next: Rank)
    requires Graph(ids, outgoing)
  {
    next.Keys == ids && forall v {:trigger NextAt(ids, outgoing, rank, v)} :: v in next ==> next[v] == NextAt(ids, outgoing, rank, v)
  }

  ghost function Uniform(ids: set<string>): Rank
    requires ids != {}
  {
    map v | v in ids :: 1.0 / |ids| as real
  }

  /** The ranks of a whole computation, from the uniform start to the last round. */
  ghost predicate PowerRun(ids: set<string>, outgoing: Adjacency, ranks: seq<Rank>)
    requires Graph(ids, outgoing)
  {
    && ranks != []
    && ranks[0] == Uniform(ids)
    && forall i :: 0 <= i < |ranks| - 1 ==> PowerStep(ids, outgoing, ranks[i], ranks[i + 1])
  }

  lemma UniformIsDistribution(ids: set<string>)
    requires ids != {}
    ensures Distribution(ids, Uniform(ids))
  {
    SumConstant(ids, At(Uniform(ids)), 1.0 / |ids| as real);
    RepeatIsProduct(|ids|, 1.0 / |ids| as real);
  }

  /** The rank a node has to hand out: none when it dangles. */
  ghost function Linked(ids: set<string>, outgoing: Adjacency, rank: Rank): string -> real
    requires outgoing.Keys == ids
  {
    u => if u in Dangling(ids, outgoing) then 0.0 else At(rank)(u)
  }

  /** Everything `u` hands out adds up to its damped rank, or to nothing when it dangles. */
  lemma PassedOnByNode(ids: set<string>, outgoing: Adjacency, rank: Rank, u: string)
    requires Graph(ids, outgoing) && u in ids && rank.Keys == ids
    ensures Sum(ids, Row(Passed(outgoing, rank), u)) == Damp(Linked(ids, outgoing, rank)(u))
  {
    var share := Share(outgoing, rank, u);
    var k := |outgoing[u]|;
    SumMasked(ids, outgoing[u], v => share, Row(Passed(outgoing, rank), u));
    SumConstant(outgoing[u], v => share, share);
    RepeatIsProduct(k, share);
    if outgoing[u] == {} {
      assert u in Dangling(ids, outgoing);
    } else {
      assert k > 0 && u !in Dangling(ids, outgoing);
      assert share == Damp(rank[u]) / k as real;
      assert k as real * (Damp(rank[u]) / k as real) == Damp(rank[u]);
    }
  }

  lemma LinkedIsTheRest(ids: set<string>, outgoing: Adjacency, rank: Rank)
    requires outgoing.Keys == ids
    ensures Sum(ids, Linked(ids, outgoing, rank)) == Sum(ids, At(rank)) - Sum(Dangling(ids, outgoing), At(rank))
  {
    var dangling := u => if u in Dangling(ids, outgoing) then At(rank)(u) else 0.0;
    SumPlus(ids, Linked(ids, outgoing, rank), dangling, At(rank));
    SumMasked(ids, Dangling(ids, outgoing), At(rank), dangling);
  }

  lemma PassedOnInTotal(ids: set<string>, outgoing: Adjacency, rank: Rank)
    requires Graph(ids, outgoing) && rank.Keys == ids
    ensures Sum(ids, ColumnSums(ids, Passed(outgoing, rank))) == Damp(Sum(ids, Linked(ids, outgoing, rank)))
  {
    var passed := Passed(outgoing, rank);
    SumSwap(ids, ids, passed);
    forall u | u in ids
      ensures RowSums(ids, passed)(u) == Damp(Linked(ids, outgoing, rank)(u))
    {
      PassedOnByNode(ids, outgoing, rank, u);
    }
    SumDamped(ids, Linked(ids, outgoing, rank), RowSums(ids, passed));
  }

  lemma {:induction false} SumNonNegative(s: set<string>, f: string -> real)
    requires forall x :: x in s ==> f(x) >= 0.0
    ensures Sum(s, f) >= 0.0
  {
    if s != {} {
      var x := Pick(s);
      SumPick(s, f, x);
      SumNonNegative(s - {x}, f);
    }
  }

  lemma EvenSplit(n: nat, lost: real, base: real)
    requires n > 0 && lost >= 0.0
    requires base == TELEPORT / n as real + Damp(lost / n as real)
    ensures Repeat(n, base) == TELEPORT + Damp(lost)
    ensures base > 0.0
  {
    var k := n as real;
    assert k * (lost / k) == lost;
    assert k * (TELEPORT / k) == TELEPORT;
    RepeatIsProduct(n, base);
  }

  lemma ReceivedNonNegative(ids: set<string>, outgoing: Adjacency, rank: Rank, v: string)
    requires forall u :: u in rank ==> rank[u] >= 0.0
    ensures Sum(ids, Column(Passed(outgoing, rank), v)) >= 0.0
  {
    forall u
      ensures Share(outgoing, rank, u) >= 0.0
    {
      var k := |Neighbours(outgoing, u)| as real;
      if k > 0.0 {
        assert Damp(At(rank)(u)) >= 0.0;
      }
    }
    SumNonNegative(ids, Column(Passed(outgoing, rank), v));
  }

  lemma NextAtPositive(ids: set<string>, outgoing: Adjacency, rank: Rank, v: string)
    requires Graph(ids, outgoing) && Distribution(ids, rank)
    ensures NextAt(ids, outgoing, rank, v) > 0.0
  {
    SumNonNegative(Dangling(ids, outgoing), At(rank));
    EvenSplit(|ids|, Sum(Dangling(ids, outgoing), At(rank)), Base(ids, outgoing, rank));
    ReceivedNonNegative(ids, outgoing, rank, v);
  }

  lemma BaseAndReceived(ids: set<string>, outgoing: Adjacency, rank: Rank, next: Rank)
    requires Graph(ids, outgoing) && Distribution(ids, rank) && PowerStep(ids, outgoing, rank, next)
    ensures Sum(ids, At(next)) == Repeat(|ids|, Base(ids, outgoing, rank)) + Sum(ids, ColumnSums(ids, Passed(outgoing, rank)))
  {
    var base := Base(ids, outgoing, rank);
    var received := ColumnSums(ids, Passed(outgoing, rank));
    forall v | v in ids
      ensures At(next)(v) == base + received(v)
    {
      assert next[v] == NextAt(ids, outgoing, rank, v);
    }
    SumConstant(ids, v => base, base);
    SumPlus(ids, v => base, received, At(next));
  }

  lemma TotalNextRank(ids: set<string>, outgoing: Adjacency, rank: Rank, next: Rank)
    requires Graph(ids, outgoing) && Distribution(ids, rank)
    requires PowerStep(ids, outgoing, rank, next)
    ensures Sum(ids, At(next)) == 1.0
  {
    BaseAndReceived(ids, outgoing, rank, next);
    PassedOnInTotal(ids, outgoing, rank);
    LinkedIsTheRest(ids, outgoing, rank);
    SumNonNegative(Dangling(ids, outgoing), At(rank));
    EvenSplit(|ids|, Sum(Dangling(ids, outgoing), At(rank)), Base(ids, outgoing, rank));
  }

  ghost predicate Positive(rank: Rank) {
    forall v :: v in rank ==> rank[v] > 0.0
  }

  /** One iteration turns a distribution into a distribution, and leaves no node without rank. */
  lemma StepConservesMass(ids: set<string>, outgoing: Adjacency, rank: Rank, next: Rank)
    requires Graph(ids, outgoing) && Distribution(ids, rank)
    requires PowerStep(ids, outgoing, rank, next)
    ensures Distribution(ids, next) && Positive(next)
  {
    TotalNextRank(ids, outgoing, rank, next);
    forall v | v in next
      ensures next[v] > 0.0
    {
      NextAtPositive(ids, outgoing, rank, v);
      assert next[v] == NextAt(ids, outgoing, rank, v);
    }
  }

  /** In every round of every graph the ranks are non-negative and sum to exactly 1. */
  lemma {:induction false} PowerConservesMass(ids: set<string>, outgoing: Adjacency, ranks: seq<Rank>, round: nat)
    requires Graph(ids, outgoing) && PowerRun(ids, outgoing, ranks)
    requires round < |ranks|
    ensures Distribution(ids, ranks[round])
    ensures round > 0 ==> Positive(ranks[round])
  {
    if round == 0 {
      UniformIsDistribution(ids);
    } else {
      PowerConservesMass(ids, outgoing, ranks, round - 1);
      assert PowerStep(ids, outgoing, ranks[round - 1], ranks[round - 1 + 1]);
      StepConservesMass(ids, outgoing, ranks[round - 1], ranks[round]);
    }
  }

  // ---------------------------------------------------------------------------------
  // The loops of the source

  /** Links whose two ends are known nodes; every known node gets an entry. */
  method BuildOutgoing(ids: set<string>, edges: seq<Edge>) returns (outgoing: Adjacency)
    ensures outgoing.Keys == ids
    ensures forall u, v :: u in ids ==> (v in outgoing[u] <==> v in ids && Edge(u, v) in edges)
  {
    outgoing := map u | u in ids :: {};
    for i := 0 to |edges|
      invariant outgoing.Keys == ids
      invariant forall u, v :: u in ids ==> (v in outgoing[u] <==> v in ids && Edge(u, v) in edges[..i])
    {
      var e := edges[i];
      assert edges[..i + 1] == edges[..i] + [e];
      if e.source in ids && e.target in ids {
        outgoing := outgoing[e.source := outgoing[e.source] + {e.target}];
      }
    }
    assert edges[..|edges|] == edges;
  }

  method DanglingRank(ids: set<string>, outgoing: Adjacency, rank: Rank) returns (total: real)
    requires outgoing.Keys == ids && rank.Keys == ids
    ensures total == Sum(Dangling(ids, outgoing), At(rank))
  {
    total := 0.0;
    var rest := ids;
    ghost var counted: set<string> := {};
    while rest != {}
      invariant rest <= ids
      invariant counted == Dangling(ids, outgoing) - rest
      invariant total == Sum(counted, At(rank))
      decreases rest
    {
      var u :| u in rest;
      rest := rest - {u};
      if outgoing[u] == {} {
        total := total + rank[u];
        ghost var before := counted;
        counted := counted + {u};
        SumPick(counted, At(rank), u);
        assert counted - {u} == before;
      }
    }
    assert counted == Dangling(ids, outgoing);
  }

  /** Adds `amount` to the rank of every target. */
  method AddToAll(rank: Rank, targets: set<string>, amount: real) returns (next: Rank)
    requires targets <= rank.Keys
    ensures next.Keys == rank.Keys
    ensures forall v :: v in rank ==> next[v] == rank[v] + (if v in targets then amount else 0.0)
  {
    next := rank;
    var rest := targets;
    while rest != {}
      invariant rest <= targets
      invariant next.Keys == rank.Keys
      invariant forall v :: v in rank ==> next[v] == rank[v] + (if v in targets - rest then amount else 0.0)
      decreases rest
    {
      var v :| v in rest;
      rest := rest - {v};
      next := next[v := next[v] + amount];
    }
  }

  /** `next` holds the base and everything passed on by the sources in `done`. */
  ghost predicate PassedSoFar(ids: set<string>, base: real, passed: (string, string) -> real,
                              done: set<string>, next: Rank) {
    next.Keys == ids && forall v {:trigger Inflow(passed, done, v)} :: v in next ==> next[v] == base + Inflow(passed, done, v)
  }

  lemma PassedOneMore(ids: set<string>, base: real, passed: (string, string) -> real, done: set<string>,
                      source: string, before: Rank, next: Rank)
    requires PassedSoFar(ids, base, passed, done, before) && source !in done
    requires next.Keys == ids && forall v :: v in next ==> next[v] == before[v] + passed(source, v)
    ensures PassedSoFar(ids, base, passed, done + {source}, next)
  {
    forall v | v in next
      ensures next[v] == base + Inflow(passed, done + {source}, v)
    {
      assert before[v] == base + Inflow(passed, done, v);
      SumPick(done + {source}, Column(passed, v), source);
      assert done + {source} - {source} == done;
    }
  }

  /** The contribution of one source to the next ranks. */
  method PassFrom(outgoing: Adjacency, rank: Rank, source: string, before: Rank) returns (next: Rank)
    requires source in outgoing && source in rank && outgoing[source] <= before.Keys
    ensures next.Keys == before.Keys
    ensures forall v :: v in next ==> next[v] == before[v] + Passed(outgoing, rank)(source, v)
  {
    var targets := outgoing[source];
    if targets == {} {
      return before;
    }
    next := AddToAll(before, targets, Damp(rank[source]) / |targets| as real);
  }

  method PassAll(ids: set<string>, outgoing: Adjacency, rank: Rank, start: Rank, ghost base: real) returns (next: Rank)
    requires Graph(ids, outgoing) && rank.Keys == ids
    requires PassedSoFar(ids, base, Passed(outgoing, rank), {}, start)
    ensures PassedSoFar(ids, base, Passed(outgoing, rank), ids, next)
  {
    next := start;
    var rest := ids;
    ghost var done: set<string> := {};
    ghost var passed := Passed(outgoing, rank);
    while rest != {}
      invariant done + rest == ids && done !! rest
      invariant PassedSoFar(ids, base, passed, done, next)
      decreases rest
    {
      var source :| source in rest;
      ghost var before := next;
      next := PassFrom(outgoing, rank, source, next);
      PassedOneMore(ids, base, passed, done, source, before, next);
      rest, done := rest - {source}, done + {source};
    }
    assert done == ids;
  }

  lemma StartsAtBase(ids: set<string>, outgoing: Adjacency, rank: Rank, dangling: real, start: Rank)
    requires Graph(ids, outgoing) && start.Keys == ids
    requires dangling == Sum(Dangling(ids, outgoing), At(rank))
    requires forall v :: v in start ==> start[v] == TELEPORT / |ids| as real + Damp(dangling / |ids| as real)
    ensures PassedSoFar(ids, Base(ids, outgoing, rank), Passed(outgoing, rank), {}, start)
  {
  }

  /** One round of the power iteration. */
  method Iterate(ids: set<string>, outgoing: Adjacency, rank: Rank) returns (next: Rank)
    requires Graph(ids, outgoing) && rank.Keys == ids
    ensures PowerStep(ids, outgoing, rank, next)
  {
    var start: Rank := map v | v in ids :: TELEPORT / |ids| as real;
    var dangling := DanglingRank(ids, outgoing, rank);
    start := AddToAll(start, ids, Damp(dangling / |ids| as real));
    StartsAtBase(ids, outgoing, rank, dangling, start);
    next := PassAll(ids, outgoing, rank, start, Base(ids, outgoing, rank));
  }

  lemma RunGrows(ids: set<string>, outgoing: Adjacency, ranks: seq<Rank>, next: Rank)
    requires Graph(ids, outgoing) && PowerRun(ids, outgoing, ranks)
    requires PowerStep(ids, outgoing, ranks[|ranks| - 1], next)
    ensures PowerRun(ids, outgoing, ranks + [next])
  {
    var longer := ranks + [next];
    forall i | 0 <= i < |longer| - 1
      ensures PowerStep(ids, outgoing, longer[i], longer[i + 1])
    {
      if i < |ranks| - 1 {
        assert longer[i + 1] == ranks[i + 1];
      }
    }
  }

  /** Eight rounds from the uniform start. */
  method Rounds(ids: set<string>, outgoing: Adjacency) returns (rank: Rank, ghost ranks: seq<Rank>)
    requires Graph(ids, outgoing)
    ensures |ranks| == 9 && PowerRun(ids, outgoing, ranks)
    ensures rank == ranks[8] && rank.Keys == ids
  {
    rank := map v | v in ids :: 1.0 / |ids| as real;
    ranks := [rank];
    for round := 0 to 8
      invariant |ranks| == round + 1 && PowerRun(ids, outgoing, ranks)
      invariant rank == ranks[round] && rank.Keys == ids
    {
      rank := Iterate(ids, outgoing, rank);
      RunGrows(ids, outgoing, ranks, rank);
      ranks := ranks + [rank];
    }
  }

  method Maximum(rank: Rank) returns (top: string)
    requires rank.Keys != {}
    ensures top in rank && forall v :: v in rank ==> rank[v] <= rank[top]
  {
    top :| top in rank.Keys;
    var rest := rank.Keys - {top};
    while rest != {}
      invariant rest <= rank.Keys && top in rank
      invariant forall v :: v in rank.Keys - rest ==> rank[v] <= rank[top]
      decreases rest
    {
      var v :| v in rest;
      rest := rest - {v};
      if rank[v] > rank[top] {
        top := v;
      }
    }
  }

  /** `scores` are the ranks after eight rounds over `outgoing`, divided by the largest of them. */
  ghost predicate Scores(ids: set<string>, outgoing: Adjacency, ranks: seq<Rank>, top: string, scores: Rank) {
    && Graph(ids, outgoing)
    && |ranks| == 9 && PowerRun(ids, outgoing, ranks)
    && ranks[8].Keys == ids == scores.Keys && top in ids && ranks[8][top] > 0.0
    && (forall v :: v in ids ==> ranks[8][v] <= ranks[8][top])
    && (forall v :: v in ids ==> scores[v] == ranks[8][v] / ranks[8][top])
  }

  /** `_centrality`: every score lies in (0, 1] and some node scores exactly 1.  The ghost results
      are the deduplicated links, the ranks of each round and a node of largest final rank. */
  method Centrality(ids: set<string>, edges: seq<Edge>)
    returns (scores: Rank, ghost outgoing: Adjacency, ghost ranks: seq<Rank>, ghost top: string)
    ensures scores.Keys == ids
    ensures forall v :: v in ids ==> 0.0 < scores[v] <= 1.0
    ensures ids != {} ==> exists v :: v in ids && scores[v] == 1.0
    ensures ids != {} ==> Scores(ids, outgoing, ranks, top, scores)
    ensures ids != {} ==> forall u, v :: u in ids ==> (v in outgoing[u] <==> v in ids && Edge(u, v) in edges)
  {
    outgoing, ranks, top := map[], [], "";
    if ids == {} {
      return map[], outgoing, ranks, top;
    }
    var links := BuildOutgoing(ids, edges);
    outgoing := links;
    var rank;
    rank, ranks := Rounds(ids, links);
    PowerConservesMass(ids, links, ranks, 8);
    var best := Maximum(rank);
    top := best;
    scores := Normalise(rank, best);
  }

  method Normalise(rank: Rank, top: string) returns (scores: Rank)
    requires top in rank && Positive(rank)
    requires forall v :: v in rank ==> rank[v] <= rank[top]
    ensures scores.Keys == rank.Keys
    ensures forall v :: v in rank ==> scores[v] == rank[v] / rank[top] && 0.0 < scores[v] <= 1.0
    ensures scores[top] == 1.0
  {
    var maximum := rank[top];
    scores := map v | v in rank :: rank[v] / maximum;
    forall v | v in rank
      ensures 0.0 < rank[v] / maximum <= 1.0
    {
      QuotientRange(rank[v], maximum);
    }
    SelfQuotient(maximum);
  }

  lemma SelfQuotient(x: real)
    requires x > 0.0
    ensures x / x == 1.0
  {
  }

  lemma QuotientRange(x: real, y: real)
    requires 0.0 < x <= y
    ensures 0.0 < x / y <= 1.0
  {
    assert x / y * y == x;
  }

  /** A node without links to it holds, after every round, its share of the teleport and of the dangling rank. */
  lemma UnlinkedRank(ids: set<string>, outgoing: Adjacency, rank: Rank, next: Rank, v: string)
    requires Graph(ids, outgoing) && PowerStep(ids, outgoing, rank, next) && v in ids
    requires forall u :: u in ids ==> v !in outgoing[u]
    ensures var dangling := set u | u in ids && outgoing[u] == {};
      next[v] == (0.15 + 0.85 * Sum(dangling, At(rank))) / |ids| as real
  {
    BaseShare(ids, outgoing, rank);
    NothingFlows(ids, outgoing, rank, v);
    assert next[v] == NextAt(ids, outgoing, rank, v);
    assert Dangling(ids, outgoing) == set u | u in ids && outgoing[u] == {};
  }

  lemma BaseShare(ids: set<string>, outgoing: Adjacency, rank: Rank)
    requires Graph(ids, outgoing)
    ensures Base(ids, outgoing, rank) == (0.15 + 0.85 * Sum(Dangling(ids, outgoing), At(rank))) / |ids| as real
  {
    SharesAdd(0.15, 0.85, Sum(Dangling(ids, outgoing), At(rank)), |ids| as real);
  }

  lemma NothingFlows(ids: set<string>, outgoing: Adjacency, rank: Rank, v: string)
    requires Graph(ids, outgoing) && forall u :: u in ids ==> v !in outgoing[u]
    ensures Inflow(Passed(outgoing, rank), ids, v) == 0.0
  {
    SumNothing(ids, Column(Passed(outgoing, rank), v));
  }

  lemma SharesAdd(a: real, b: real, d: real, n: real)
    requires n > 0.0
    ensures a / n + b * (d / n) == (a + b * d) / n
  {
    assert (a / n + b * (d / n)) * n == a + b * d;
  }

  lemma {:induction false} SumNothing(s: set<string>, f: string -> real)
    requires forall x :: x in s ==> f(x) == 0.0
    ensures Sum(s, f) == 0.0
    decreases |s|
  {
    if s != {} {
      SumNothing(s - {Pick(s)}, f);
    }
  }

  /** A node with one link passes 85 percent of its rank along it. */
  lemma SoleLinkPasses(outgoing: Adjacency, rank: Rank, u: string, v: string)
    requires u in outgoing && outgoing[u] == {v} && u in rank
    ensures Passed(outgoing, rank)(u, v) == 0.85 * rank[u]
  {
  }
}
