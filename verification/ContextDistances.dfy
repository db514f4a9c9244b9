/** Bounded breadth-first distances over the project graph
    (src/orqalis/context/builder.py, `_adjacency` and `_distances`).

    `Distance` is the reference definition: the least number of hops from the
    seed set.  `Distances` runs the queue loop and is proved exact against it. */
module ContextDistances {

  datatype Edge = Edge(source: string, target: string)

  /** The source keeps a `defaultdict(set)`: a missing node has no neighbours. */
  type Adjacency = map<string, set<string>>

  function Neighbours(adjacent: Adjacency, node: string): set<string> {
    if node in adjacent then adjacent[node] else {}
  }

  ghost predicate Linked(edges: seq<Edge>, a: string, b: string) {
    exists e :: e in edges && (e == Edge(a, b) || e == Edge(b, a))
  }

  /** `node` can be reached from a seed by a walk of exactly `hops` edges. */
  ghost predicate Reach(adjacent: Adjacency, seeds: set<string>, node: string, hops: nat)
    decreases hops
  {
    if hops == 0 then node in seeds
    else exists before :: Reach(adjacent, seeds, before, hops - 1) && node in Neighbours(adjacent, before)
  }

  /** `hops` is the true shortest distance of `node` from the seed set. */
  ghost predicate Distance(adjacent: Adjacency, seeds: set<string>, node: string, hops: nat) {
    && Reach(adjacent, seeds, node, hops)
    && forall fewer: nat :: fewer < hops ==> !Reach(adjacent, seeds, node, fewer)
  }

  function Bound(limit: int): nat { if limit < 0 then 0 else limit }

  method BuildAdjacency(edges: seq<Edge>) returns (adjacent: Adjacency)
    ensures forall a, b :: b in Neighbours(adjacent, a) <==> Linked(edges, a, b)
  {
    adjacent := map[];
    for i := 0 to |edges|
      invariant forall a, b :: b in Neighbours(adjacent, a) <==> Linked(edges[..i], a, b)
    {
      var e := edges[i];
      ghost var before := adjacent;
      adjacent := adjacent[e.source := Neighbours(adjacent, e.source) + {e.target}];
      adjacent := adjacent[e.target := Neighbours(adjacent, e.target) + {e.source}];
      assert edges[..i + 1] == edges[..i] + [e];
      forall a, b
        ensures b in Neighbours(adjacent, a) <==> Linked(edges[..i + 1], a, b)
      {
        assert b in Neighbours(adjacent, a) <==>
          b in Neighbours(before, a) || e == Edge(a, b) || e == Edge(b, a);
        if Linked(edges[..i], a, b) {
          var f :| f in edges[..i] && (f == Edge(a, b) || f == Edge(b, a));
          assert f in edges[..i + 1];
        }
        if e == Edge(a, b) || e == Edge(b, a) {
          assert e in edges[..i + 1];
        }
      }
    }
    assert edges[..|edges|] == edges;
  }

  method SeedQueue(seeds: set<string>) returns (queue: seq<string>)
    ensures forall n :: n in queue <==> n in seeds
    ensures |queue| == |seeds|
  {
    queue := [];
    var rest := seeds;
    while rest != {}
      invariant rest <= seeds
      invariant forall n :: n in queue <==> n in seeds - rest
      invariant |queue| + |rest| == |seeds|
      decreases rest
    {
      var n :| n in rest;
      rest := rest - {n};
      queue := queue + [n];
    }
  }

  /** Every recorded distance is witnessed by a walk and stays within the bound. */
  ghost predicate Sound(adjacent: Adjacency, seeds: set<string>, limit: int, distances: map<string, nat>) {
    && (forall n :: n in seeds ==> n in distances && distances[n] == 0)
    && (forall n :: n in distances ==> Reach(adjacent, seeds, n, distances[n]) && distances[n] <= Bound(limit))
  }

  /** The queue is ascending and no recorded distance exceeds its head by more than one. */
  ghost predicate Ordered(queue: seq<string>, distances: map<string, nat>) {
    && (forall n :: n in queue ==> n in distances)
    && (forall i, j :: 0 <= i < j < |queue| ==> distances[queue[i]] <= distances[queue[j]])
    && (queue != [] ==> forall n :: n in distances ==> distances[n] <= distances[queue[0]] + 1)
  }

  /** All neighbours of `n` are recorded at most one hop further. */
  ghost predicate Expanded(adjacent: Adjacency, distances: map<string, nat>, n: string)
    requires n in distances
  {
    forall m :: m in Neighbours(adjacent, n) ==> m in distances && distances[m] <= distances[n] + 1
  }

  ghost predicate Closed(adjacent: Adjacency, limit: int, distances: map<string, nat>, open: seq<string>) {
    forall n :: n in distances && n !in open && distances[n] < limit ==> Expanded(adjacent, distances, n)
  }

  /** Once nothing is open, every node within the limit is recorded at most at its walk length. */
  lemma {:induction false} RecordedWithin(adjacent: Adjacency, seeds: set<string>, limit: int,
                                          distances: map<string, nat>, node: string, hops: nat)
    requires Sound(adjacent, seeds, limit, distances)
    requires Closed(adjacent, limit, distances, [])
    requires Reach(adjacent, seeds, node, hops) && hops <= Bound(limit)
    ensures node in distances && distances[node] <= hops
    decreases hops
  {
    if hops > 0 {
      var before :| Reach(adjacent, seeds, before, hops - 1) && node in Neighbours(adjacent, before);
      RecordedWithin(adjacent, seeds, limit, distances, before, hops - 1);
      assert Expanded(adjacent, distances, before);
    }
  }

  lemma ExactWhenClosed(adjacent: Adjacency, seeds: set<string>, limit: int, distances: map<string, nat>)
    requires Sound(adjacent, seeds, limit, distances)
    requires Closed(adjacent, limit, distances, [])
    ensures forall n, d: nat ::
      (n in distances && distances[n] == d) <==> (Distance(adjacent, seeds, n, d) && d <= Bound(limit))
  {
    forall n, d: nat
      ensures (n in distances && distances[n] == d) <==> (Distance(adjacent, seeds, n, d) && d <= Bound(limit))
    {
      if n in distances && distances[n] == d {
        forall fewer: nat | fewer < d
          ensures !Reach(adjacent, seeds, n, fewer)
        {
          if Reach(adjacent, seeds, n, fewer) {
            RecordedWithin(adjacent, seeds, limit, distances, n, fewer);
          }
        }
      }
      if Distance(adjacent, seeds, n, d) && d <= Bound(limit) {
        RecordedWithin(adjacent, seeds, limit, distances, n, d);
      }
    }
  }

  /** The nodes a search can ever record; the termination measure counts the unrecorded ones. */
  ghost function Universe(adjacent: Adjacency, seeds: set<string>): set<string> {
    seeds + set n, m | n in adjacent && m in adjacent[n] :: m
  }

  lemma NewlyReached(adjacent: Adjacency, seeds: set<string>, limit: int, distances: map<string, nat>, source: string, target: string)
    requires Sound(adjacent, seeds, limit, distances) && target in Neighbours(adjacent, source) && target !in distances
    requires source in distances && distances[source] < limit
    ensures Sound(adjacent, seeds, limit, distances[target := distances[source] + 1])
    ensures target in Universe(adjacent, seeds)
  {
    assert Reach(adjacent, seeds, source, distances[source]);
    assert Reach(adjacent, seeds, target, distances[source] + 1);
  }

  /** One pass over the neighbours of a dequeued node. */
  method Expand(adjacent: Adjacency, source: string, queue: seq<string>, distances: map<string, nat>,
                ghost seeds: set<string>, ghost limit: int)
    returns (queue': seq<string>, distances': map<string, nat>)
    requires Sound(adjacent, seeds, limit, distances)
    requires distances.Keys <= Universe(adjacent, seeds)
    requires source in distances && distances[source] < limit
    requires Ordered([source] + queue, distances)
    ensures Sound(adjacent, seeds, limit, distances')
    ensures distances'.Keys <= Universe(adjacent, seeds)
    ensures forall n :: n in distances ==> n in distances' && distances'[n] == distances[n]
    ensures Ordered(queue', distances')
    ensures Expanded(adjacent, distances', source)
    ensures forall n :: n in queue' <==> n in queue || n in distances'.Keys - distances.Keys
    ensures distances'.Keys == distances.Keys ==> queue' == queue
    ensures distances.Keys <= distances'.Keys
  {
    queue', distances' := queue, distances;
    var distance := distances[source];
    var rest := Neighbours(adjacent, source);
    assert distance == distances[([source] + queue)[0]];
    assert forall i :: 0 <= i < |queue| ==> ([source] + queue)[i + 1] == queue[i];
    while rest != {}
      invariant rest <= Neighbours(adjacent, source)
      invariant Sound(adjacent, seeds, limit, distances')
      invariant distances'.Keys <= Universe(adjacent, seeds)
      invariant forall n :: n in distances ==> n in distances' && distances'[n] == distances[n]
      invariant forall n :: n in distances' ==> distances'[n] <= distance + 1
      invariant forall n :: n in queue' <==> n in queue || n in distances'.Keys - distances.Keys
      invariant forall i :: 0 <= i < |queue'| ==> queue'[i] in distances' && distance <= distances'[queue'[i]]
      invariant forall i, j :: 0 <= i < j < |queue'| ==> distances'[queue'[i]] <= distances'[queue'[j]]
      invariant forall m :: m in Neighbours(adjacent, source) - rest ==> m in distances'
      invariant distances'.Keys == distances.Keys ==> queue' == queue
      decreases rest
    {
      var target :| target in rest;
      rest := rest - {target};
      if target !in distances' {
        NewlyReached(adjacent, seeds, limit, distances', source, target);
        distances' := distances'[target := distance + 1];
        queue' := queue' + [target];
        assert target in distances'.Keys - distances.Keys;
      }
    }
  }

  lemma StaysClosed(adjacent: Adjacency, limit: int, before: map<string, nat>, source: string, open: seq<string>,
                    after: map<string, nat>, open': seq<string>)
    requires Closed(adjacent, limit, before, [source] + open)
    requires forall n :: n in before ==> n in after && after[n] == before[n]
    requires forall n :: n in open' <==> n in open || n in after.Keys - before.Keys
    requires source in after && Expanded(adjacent, after, source)
    ensures Closed(adjacent, limit, after, open')
  {
    forall n | n in after && n !in open' && after[n] < limit
      ensures Expanded(adjacent, after, n)
    {
      if n != source {
        assert n in before && n !in [source] + open;
        assert Expanded(adjacent, before, n);
      }
    }
  }

  lemma SkippingKeepsClosed(adjacent: Adjacency, limit: int, distances: map<string, nat>, source: string, open: seq<string>)
    requires Closed(adjacent, limit, distances, [source] + open) && Ordered([source] + open, distances)
    requires source in distances && distances[source] >= limit
    ensures Closed(adjacent, limit, distances, open) && Ordered(open, distances)
  {
    var queue := [source] + open;
    assert forall i :: 0 <= i < |open| ==> queue[i + 1] == open[i];
    assert queue[0] == source;
    forall n | n in distances && n !in open && distances[n] < limit
      ensures Expanded(adjacent, distances, n)
    {
      assert n !in queue;
    }
  }

  /** `_distances`: for every graph, seed set and limit the result holds exactly the nodes whose
      true distance is within the limit, each at its true distance.  A negative limit still records the seeds. */
  method Distances(adjacent: Adjacency, seeds: set<string>, limit: int) returns (distances: map<string, nat>)
    ensures forall n, d: nat ::
      (n in distances && distances[n] == d) <==> (Distance(adjacent, seeds, n, d) && d <= Bound(limit))
  {
    distances := map n | n in seeds :: 0;
    var queue := SeedQueue(seeds);
    while queue != []
      invariant Sound(adjacent, seeds, limit, distances)
      invariant distances.Keys <= Universe(adjacent, seeds)
      invariant Ordered(queue, distances)
      invariant Closed(adjacent, limit, distances, queue)
      decreases Universe(adjacent, seeds) - distances.Keys, |queue|
    {
      var source := queue[0];
      ghost var open, recorded := queue[1..], distances;
      assert queue == [source] + open;
      assert Closed(adjacent, limit, recorded, [source] + open);
      queue := queue[1..];
      if distances[source] >= limit {
        SkippingKeepsClosed(adjacent, limit, distances, source, queue);
        continue;
      }
      queue, distances := Expand(adjacent, source, queue, distances, seeds, limit);
      StaysClosed(adjacent, limit, recorded, source, open, distances, queue);
    }
    ExactWhenClosed(adjacent, seeds, limit, distances);
  }
}
