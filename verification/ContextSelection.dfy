/** Greedy selection of context candidates (src/orqalis/context/builder.py,
    `build_with_graph`, lines 155-248).

    Candidates of four kinds are ordered by descending score, then kind, then size, and
    taken while they fit.  A memory record is offered twice, in full and as a preview. */
module ContextSelection {
  import opened Collections
  import opened ContextPack

  datatype Item = OfGraph(g: GraphItem) | OfMemory(m: MemoryItem) | OfPreview(p: Preview) | OfTask(t: TaskItem)

  datatype Candidate = Candidate(item: Item, score: real, size: nat)

  /** Order of the kind names "graph", "memory", "memory_preview", "task". */
  function KindRank(item: Item): nat {
    match item
    case OfGraph(_) => 0
    case OfMemory(_) => 1
    case OfPreview(_) => 2
    case OfTask(_) => 3
  }

  predicate NotAfter(a: Candidate, b: Candidate) {
    || a.score > b.score
    || (a.score == b.score && (|| KindRank(a.item) < KindRank(b.item)
                               || (KindRank(a.item) == KindRank(b.item) && a.size <= b.size)))
  }

  ghost predicate Sorted(candidates: seq<Candidate>) {
    forall i, j :: 0 <= i < j < |candidates| ==> NotAfter(candidates[i], candidates[j])
  }

  function Insert(c: Candidate, sorted: seq<Candidate>): seq<Candidate> {
    if sorted == [] || NotAfter(c, sorted[0]) then [c] + sorted
    else [sorted[0]] + Insert(c, sorted[1..])
  }

  /** Stands for the stable library sort of the source. */
  function Sort(candidates: seq<Candidate>): seq<Candidate> {
    if candidates == [] then [] else Insert(candidates[0], Sort(candidates[1..]))
  }

  lemma {:induction false} InsertContents(c: Candidate, sorted: seq<Candidate>)
    ensures multiset(Insert(c, sorted)) == multiset(sorted) + multiset{c}
    ensures forall x :: x in Insert(c, sorted) <==> x == c || x in sorted
  {
    if sorted != [] {
      InsertContents(c, sorted[1..]);
      assert sorted == [sorted[0]] + sorted[1..];
    }
  }

  lemma {:induction false} InsertSorts(c: Candidate, sorted: seq<Candidate>)
    requires Sorted(sorted)
    ensures Sorted(Insert(c, sorted))
  {
    if sorted != [] && !NotAfter(c, sorted[0]) {
      var rest := Insert(c, sorted[1..]);
      InsertSorts(c, sorted[1..]);
      InsertContents(c, sorted[1..]);
      forall j | 0 <= j < |rest|
        ensures NotAfter(sorted[0], rest[j])
      {
        assert rest[j] in rest;
      }
    }
  }

  lemma {:induction false} SortSorts(candidates: seq<Candidate>)
    ensures Sorted(Sort(candidates))
    ensures multiset(Sort(candidates)) == multiset(candidates)
    ensures forall x :: x in Sort(candidates) <==> x in candidates
  {
    if candidates != [] {
      SortSorts(candidates[1..]);
      InsertSorts(candidates[0], Sort(candidates[1..]));
      InsertContents(candidates[0], Sort(candidates[1..]));
      assert candidates == [candidates[0]] + candidates[1..];
    }
  }

  /** The source sorts by score, kind and size alone: candidates that agree in all three are tied. */
  predicate Tied(a: Candidate, b: Candidate) {
    a.score == b.score && KindRank(a.item) == KindRank(b.item) && a.size == b.size
  }

  function TiedWith(candidates: seq<Candidate>, a: Candidate): seq<Candidate> {
    if candidates == [] then [] else (if Tied(candidates[0], a) then [candidates[0]] else []) + TiedWith(candidates[1..], a)
  }

  lemma {:induction false} InsertKeepsTies(c: Candidate, sorted: seq<Candidate>, a: Candidate)
    ensures TiedWith(Insert(c, sorted), a) == (if Tied(c, a) then [c] else []) + TiedWith(sorted, a)
  {
    if sorted != [] && !NotAfter(c, sorted[0]) {
      InsertKeepsTies(c, sorted[1..], a);
      assert Insert(c, sorted)[1..] == Insert(c, sorted[1..]);
    } else {
      assert Insert(c, sorted)[1..] == sorted;
    }
  }

  /** The sort is stable. */
  lemma {:induction false} SortKeepsTies(candidates: seq<Candidate>, a: Candidate)
    ensures TiedWith(Sort(candidates), a) == TiedWith(candidates, a)
  {
    if candidates != [] {
      SortKeepsTies(candidates[1..], a);
      InsertKeepsTies(candidates[0], Sort(candidates[1..]), a);
    }
  }

  /** By falling score, then by kind, then by rising size. */
  predicate Before(a: Candidate, b: Candidate) {
    && a.score >= b.score
    && (a.score == b.score ==>
          && KindRank(a.item) <= KindRank(b.item)
          && (KindRank(a.item) == KindRank(b.item) ==> a.size <= b.size))
  }

  /** A stable sort of these candidates. */
  ghost predicate SortOf(sorted: seq<Candidate>, candidates: seq<Candidate>) {
    && multiset(sorted) == multiset(candidates)
    && (forall i, j :: 0 <= i < j < |sorted| ==> Before(sorted[i], sorted[j]))
    && forall a :: TiedWith(sorted, a) == TiedWith(candidates, a)
  }

  // ---------------------------------------------------------------------------------
  // One pass over the candidates

  /** The score an item has as a candidate: memory entries are lifted by one half. */
  function ScoreOf(item: Item): real {
    match item
    case OfGraph(g) => g.score
    case OfMemory(m) => m.score + 0.5
    case OfPreview(p) => p.score + 0.5
    case OfTask(t) => t.score
  }

  function SizeOf(item: Item): nat {
    match item
    case OfGraph(g) => g.size
    case OfMemory(m) => m.size
    case OfPreview(p) => p.size
    case OfTask(t) => t.size
  }

  function Offer(item: Item): Candidate { Candidate(item, ScoreOf(item), SizeOf(item)) }

  /** What has been taken, in the order of the candidates. */
  datatype Picked = Picked(taken: seq<Item>, size: nat, truncated: bool)

  /** The preview of a record that is already selected in full. */
  predicate Redundant(taken: seq<Item>, item: Item) {
    item.OfPreview? && exists i :: 0 <= i < |taken| && taken[i].OfMemory? && taken[i].m.record == item.p.record
  }

  /** What becomes of one candidate at its turn. */
  function Consider(picked: Picked, c: Candidate, budget: nat): Picked {
    if Redundant(picked.taken, c.item) then picked
    else if picked.size + c.size > budget then picked.(truncated := true)
    else Picked(picked.taken + [c.item], picked.size + c.size, picked.truncated)
  }

  function Select(start: Picked, candidates: seq<Candidate>, budget: nat): Picked {
    if candidates == [] then start
    else Consider(Select(start, candidates[..|candidates| - 1], budget), candidates[|candidates| - 1], budget)
  }

  function Sizes(items: seq<Item>): nat {
    if items == [] then 0 else Sizes(items[..|items| - 1]) + SizeOf(items[|items| - 1])
  }

  /** The taken items of one kind, in order. */
  function OfKind<T>(taken: seq<Item>, pick: Item -> Option<T>): seq<T> {
    if taken == [] then []
    else
      var last := pick(taken[|taken| - 1]);
      OfKind(taken[..|taken| - 1], pick) + if last.Some? then [last.value] else []
  }

  function AsGraph(item: Item): Option<GraphItem> { if item.OfGraph? then Some(item.g) else None }
  function AsMemory(item: Item): Option<MemoryItem> { if item.OfMemory? then Some(item.m) else None }
  function AsPreview(item: Item): Option<Preview> { if item.OfPreview? then Some(item.p) else None }
  function AsTask(item: Item): Option<TaskItem> { if item.OfTask? then Some(item.t) else None }

  /** The four lists of the source are the taken items of each kind. */
  function ContentOf(base: Content, picked: Picked): Content {
    var graph, memory := OfKind(picked.taken, AsGraph), OfKind(picked.taken, AsMemory);
    Content(base.header, graph, memory, OfKind(picked.taken, AsPreview), OfKind(picked.taken, AsTask),
            RelevantFiles(graph, memory), Decisions(memory), picked.truncated)
  }

  // ---------------------------------------------------------------------------------
  // Nothing that fits is left out

  /** The items of the marked candidates, in order. */
  function Marked(candidates: seq<Candidate>, marks: seq<bool>): seq<Item>
    requires |marks| == |candidates|
  {
    if candidates == [] then []
    else Marked(candidates[..|candidates| - 1], marks[..|marks| - 1])
         + if marks[|marks| - 1] then [candidates[|candidates| - 1].item] else []
  }

  /** Candidate `k` is the preview of a record whose full entry is marked before it. */
  ghost predicate Covered(candidates: seq<Candidate>, marks: seq<bool>, k: nat)
    requires |marks| == |candidates| && k < |candidates|
  {
    candidates[k].item.OfPreview?
    && exists j :: 0 <= j < k && marks[j] && candidates[j].item.OfMemory? && candidates[j].item.m.record == candidates[k].item.p.record
  }

  /** Candidate `k` still fits beside the base and everything marked before it. */
  ghost predicate HasRoom(candidates: seq<Candidate>, marks: seq<bool>, k: nat, base: nat, budget: nat)
    requires |marks| == |candidates| && k < |candidates|
  {
    base + Sizes(Marked(candidates[..k], marks[..k])) + candidates[k].size <= budget
  }

  /** Exactly what has room at its turn is marked, but no preview of a record that is marked in full. */
  ghost predicate TakesAllThatFits(candidates: seq<Candidate>, marks: seq<bool>, base: nat, budget: nat) {
    && |marks| == |candidates|
    && forall k: nat :: k < |candidates| ==>
         (marks[k] <==> !Covered(candidates, marks, k) && HasRoom(candidates, marks, k, base, budget))
  }

  /** Some candidate other than a covered preview was left out: for want of room. */
  ghost predicate LeavesOut(candidates: seq<Candidate>, marks: seq<bool>)
    requires |marks| == |candidates|
  {
    exists k: nat :: k < |candidates| && !marks[k] && !Covered(candidates, marks, k)
  }

  lemma MarksShorter(candidates: seq<Candidate>, marks: seq<bool>, mark: bool, k: nat, base: nat, budget: nat)
    requires candidates != [] && |marks| == |candidates| - 1 && k < |marks|
    ensures var front := candidates[..|marks|];
      && (Covered(candidates, marks + [mark], k) <==> Covered(front, marks, k))
      && (HasRoom(candidates, marks + [mark], k, base, budget) <==> HasRoom(front, marks, k, base, budget))
  {
    assert candidates[..|marks|][..k] == candidates[..k] && (marks + [mark])[..k] == marks[..k];
  }

  lemma OneMoreMark(candidates: seq<Candidate>, marks: seq<bool>, mark: bool, base: nat, budget: nat)
    requires candidates != [] && |marks| == |candidates| - 1
    requires TakesAllThatFits(candidates[..|marks|], marks, base, budget)
    requires var all, k := marks + [mark], |marks|;
      mark <==> !Covered(candidates, all, k) && HasRoom(candidates, all, k, base, budget)
    ensures TakesAllThatFits(candidates, marks + [mark], base, budget)
    ensures LeavesOut(candidates, marks + [mark]) <==>
      LeavesOut(candidates[..|marks|], marks) || (!mark && !Covered(candidates, marks + [mark], |marks|))
  {
    var front, all := candidates[..|marks|], marks + [mark];
    forall k: nat | k < |marks|
      ensures Covered(candidates, all, k) <==> Covered(front, marks, k)
      ensures HasRoom(candidates, all, k, base, budget) <==> HasRoom(front, marks, k, base, budget)
    {
      MarksShorter(candidates, marks, mark, k, base, budget);
    }
    if LeavesOut(front, marks) {
      var k: nat :| k < |front| && !marks[k] && !Covered(front, marks, k);
      assert !all[k] && !Covered(candidates, all, k);
    }
    if LeavesOut(candidates, all) {
      var k: nat :| k < |candidates| && !all[k] && !Covered(candidates, all, k);
      assert k < |marks| ==> !marks[k] && !Covered(front, marks, k);
    }
  }

  ghost predicate MarkedAt(candidates: seq<Candidate>, marks: seq<bool>, x: Item)
    requires |marks| == |candidates|
  {
    exists j :: 0 <= j < |marks| && marks[j] && candidates[j].item == x
  }

  lemma MarkedAtOneMore(candidates: seq<Candidate>, marks: seq<bool>, x: Item)
    requires |marks| == |candidates| > 0
    ensures var n := |candidates| - 1;
      MarkedAt(candidates, marks, x) <==> MarkedAt(candidates[..n], marks[..n], x) || (marks[n] && candidates[n].item == x)
  {
    var n := |candidates| - 1;
    if MarkedAt(candidates[..n], marks[..n], x) {
      var j :| 0 <= j < n && marks[..n][j] && candidates[..n][j].item == x;
      assert marks[j] && candidates[j].item == x;
    }
    if MarkedAt(candidates, marks, x) {
      var j :| 0 <= j < |marks| && marks[j] && candidates[j].item == x;
      assert j < n ==> marks[..n][j] && candidates[..n][j].item == x;
    }
  }

  lemma {:induction false} MarkedSplits(candidates: seq<Candidate>, marks: seq<bool>, x: Item)
    requires |marks| == |candidates|
    ensures x in Marked(candidates, marks) <==> MarkedAt(candidates, marks, x)
  {
    if candidates != [] {
      MarkedSplits(candidates[..|candidates| - 1], marks[..|candidates| - 1], x);
      MarkedAtOneMore(candidates, marks, x);
    }
  }

  lemma CoveredByTaken(candidates: seq<Candidate>, marks: seq<bool>, k: nat)
    requires |marks| == |candidates| && k < |candidates|
    ensures Covered(candidates, marks, k) <==> Redundant(Marked(candidates[..k], marks[..k]), candidates[k].item)
  {
    var taken := Marked(candidates[..k], marks[..k]);
    if Covered(candidates, marks, k) {
      var j :| 0 <= j < k && marks[j] && candidates[j].item.OfMemory? && candidates[j].item.m.record == candidates[k].item.p.record;
      assert marks[..k][j] && candidates[..k][j].item == candidates[j].item;
      MarkedSplits(candidates[..k], marks[..k], candidates[j].item);
      var i :| 0 <= i < |taken| && taken[i] == candidates[j].item;
    }
    if Redundant(taken, candidates[k].item) {
      var i :| 0 <= i < |taken| && taken[i].OfMemory? && taken[i].m.record == candidates[k].item.p.record;
      MarkedSplits(candidates[..k], marks[..k], taken[i]);
      var j :| 0 <= j < k && marks[..k][j] && candidates[..k][j].item == taken[i];
      assert marks[j] && candidates[j].item == taken[i];
    }
  }

  /** The selection takes, in turn, everything that fits, and says so when something did not. */
  lemma {:induction false} SelectionTakesAllThatFits(start: Picked, candidates: seq<Candidate>, budget: nat) returns (marks: seq<bool>)
    requires start.taken == [] && start.size <= budget
    requires forall c :: c in candidates ==> c == Offer(c.item)
    ensures TakesAllThatFits(candidates, marks, start.size, budget)
    ensures var picked := Select(start, candidates, budget);
      && picked.taken == Marked(candidates, marks)
      && (picked.truncated <==> start.truncated || LeavesOut(candidates, marks))
  {
    marks := [];
    if candidates != [] {
      var n := |candidates| - 1;
      var front, c := candidates[..n], candidates[n];
      marks := SelectionTakesAllThatFits(start, front, budget);
      SelectionAccounted(start, front, budget);
      var before := Select(start, front, budget);
      var mark := !Redundant(before.taken, c.item) && before.size + c.size <= budget;
      assert (marks + [mark])[..n] == marks;
      CoveredByTaken(candidates, marks + [mark], n);
      OneMoreMark(candidates, marks, mark, start.size, budget);
      marks := marks + [mark];
    }
  }

  // ---------------------------------------------------------------------------------
  // What a selection keeps

  /** The selection never exceeds the budget, and its size is the base plus the sizes of what was taken. */
  lemma {:induction false} SelectionAccounted(start: Picked, candidates: seq<Candidate>, budget: nat)
    requires start.taken == [] && start.size <= budget
    requires forall c :: c in candidates ==> c == Offer(c.item)
    ensures var picked := Select(start, candidates, budget);
            picked.size == start.size + Sizes(picked.taken) <= budget
  {
    if candidates != [] {
      var front, c := candidates[..|candidates| - 1], candidates[|candidates| - 1];
      SelectionAccounted(start, front, budget);
      var before := Select(start, front, budget);
      assert c == Offer(c.item);
      assert (before.taken + [c.item])[..|before.taken|] == before.taken;
    }
  }

  ghost predicate InOrder(taken: seq<Item>, t: real) {
    && (forall i, j :: 0 <= i <= j < |taken| ==> ScoreOf(taken[i]) >= ScoreOf(taken[j]))
    && (forall i :: 0 <= i < |taken| ==> ScoreOf(taken[i]) >= t)
  }

  /** Items are taken in descending order of their candidate score. */
  lemma {:induction false} SelectionInOrder(start: Picked, candidates: seq<Candidate>, budget: nat, t: real)
    requires start.taken == [] && Sorted(candidates)
    requires forall c :: c in candidates ==> c == Offer(c.item)
    requires candidates != [] ==> t <= candidates[|candidates| - 1].score
    ensures InOrder(Select(start, candidates, budget).taken, t)
  {
    if candidates != [] {
      var n := |candidates| - 1;
      var c := candidates[n];
      assert n > 0 ==> NotAfter(candidates[n - 1], c);
      SelectionInOrder(start, candidates[..n], budget, c.score);
      assert c == Offer(c.item);
    }
  }

  ghost predicate DescendingBy<T>(list: seq<T>, score: T -> real, t: real) {
    && (forall i, j {:trigger list[i], list[j]} :: 0 <= i <= j < |list| ==> score(list[i]) >= score(list[j]))
    && (forall i {:trigger list[i]} :: 0 <= i < |list| ==> score(list[i]) >= t)
  }

  lemma {:induction false} KindDescends<T>(taken: seq<Item>, pick: Item -> Option<T>, score: T -> real, t: real)
    requires InOrder(taken, t)
    requires forall x :: pick(x).Some? ==> ScoreOf(x) == score(pick(x).value)
    ensures DescendingBy(OfKind(taken, pick), score, t)
  {
    if taken != [] {
      var front, last := taken[..|taken| - 1], taken[|taken| - 1];
      KindDescends(front, pick, score, ScoreOf(last));
      var before, list := OfKind(front, pick), OfKind(taken, pick);
      assert ScoreOf(last) >= t;
      if pick(last).Some? {
        assert list == before + [pick(last).value];
        assert score(pick(last).value) == ScoreOf(last);
      } else {
        assert list == before;
      }
    }
  }

  /** Each of the four lists keeps the descending order. */
  lemma ListsDescend(base: Content, picked: Picked, t: real)
    requires InOrder(picked.taken, t)
    ensures Descending(ContentOf(base, picked))
  {
    var content := ContentOf(base, picked);
    assert DescendingBy(content.graph, (g: GraphItem) => g.score, t) by {
      KindDescends(picked.taken, AsGraph, (g: GraphItem) => g.score, t);
    }
    assert DescendingBy(content.memory, (m: MemoryItem) => m.score + 0.5, t) by {
      KindDescends(picked.taken, AsMemory, (m: MemoryItem) => m.score + 0.5, t);
    }
    assert DescendingBy(content.previews, (p: Preview) => p.score + 0.5, t) by {
      KindDescends(picked.taken, AsPreview, (p: Preview) => p.score + 0.5, t);
    }
    assert DescendingBy(content.tasks, (k: TaskItem) => k.score, t) by {
      KindDescends(picked.taken, AsTask, (k: TaskItem) => k.score, t);
    }
  }

  lemma {:induction false} KindMembers<T>(taken: seq<Item>, pick: Item -> Option<T>)
    ensures forall y :: y in OfKind(taken, pick) ==> exists i :: 0 <= i < |taken| && pick(taken[i]) == Some(y)
  {
    if taken != [] {
      var front := taken[..|taken| - 1];
      KindMembers(front, pick);
      forall y | y in OfKind(front, pick)
        ensures exists i :: 0 <= i < |taken| && pick(taken[i]) == Some(y)
      {
        var i :| 0 <= i < |front| && pick(front[i]) == Some(y);
        assert pick(taken[i]) == Some(y);
      }
    }
  }

  lemma ListsApart(base: Content, picked: Picked)
    requires RecordsApart(picked.taken)
    ensures NoRecordTwice(ContentOf(base, picked))
  {
    KindMembers(picked.taken, AsMemory);
    KindMembers(picked.taken, AsPreview);
  }

  /** No preview of a record is offered before the record itself. */
  ghost predicate PreviewsFollow(candidates: seq<Candidate>) {
    forall i, j :: 0 <= i < j < |candidates| && candidates[i].item.OfPreview? && candidates[j].item.OfMemory? ==>
      candidates[i].item.p.record != candidates[j].item.m.record
  }

  ghost predicate RecordsApart(taken: seq<Item>) {
    forall i, j :: 0 <= i < |taken| && 0 <= j < |taken| && taken[i].OfPreview? && taken[j].OfMemory? ==>
      taken[i].p.record != taken[j].m.record
  }

  lemma {:induction false} SelectionKeepsApart(start: Picked, candidates: seq<Candidate>, budget: nat)
    requires start.taken == [] && PreviewsFollow(candidates)
    ensures
      var taken := Select(start, candidates, budget).taken;
      && RecordsApart(taken)
      && forall x :: x in taken ==> exists i :: 0 <= i < |candidates| && candidates[i].item == x
  {
    if candidates != [] {
      var n := |candidates| - 1;
      SelectionKeepsApart(start, candidates[..n], budget);
      var before := Select(start, candidates[..n], budget).taken;
      forall i | 0 <= i < |before|
        ensures exists k :: 0 <= k < n && candidates[k].item == before[i]
      {
        assert before[i] in before;
        var k :| 0 <= k < |candidates[..n]| && candidates[..n][k].item == before[i];
        assert candidates[k].item == before[i];
      }
    }
  }

  /** The preview of a record carries the score of the record. */
  ghost predicate SameScores(candidates: seq<Candidate>) {
    forall c, d :: c in candidates && d in candidates && c.item.OfPreview? && d.item.OfMemory? ==>
      c.item.p.record == d.item.m.record ==> c.item.p.score == d.item.m.score
  }

  /** In the sorted order a record comes before its own preview, because both have the same score. */
  lemma SortedPreviewsFollow(candidates: seq<Candidate>)
    requires Sorted(candidates)
    requires forall c :: c in candidates ==> c == Offer(c.item)
    requires SameScores(candidates)
    ensures PreviewsFollow(candidates)
  {
    forall i, j | 0 <= i < j < |candidates| && candidates[i].item.OfPreview? && candidates[j].item.OfMemory?
      ensures candidates[i].item.p.record != candidates[j].item.m.record
    {
      assert candidates[i] in candidates && candidates[j] in candidates;
      assert NotAfter(candidates[i], candidates[j]);
    }
  }

  // ---------------------------------------------------------------------------------
  // The whole selection

  function PreviewOf(m: MemoryItem, previewSize: MemoryItem -> nat): Preview {
    Preview(m.record, m.score, previewSize(m))
  }

  function Candidates(graph: seq<GraphItem>, memory: seq<MemoryItem>, tasks: seq<TaskItem>,
                      previewSize: MemoryItem -> nat): seq<Candidate> {
    seq(|graph|, i requires 0 <= i < |graph| => Offer(OfGraph(graph[i]))) +
    seq(|memory|, i requires 0 <= i < |memory| => Offer(OfMemory(memory[i]))) +
    seq(|memory|, i requires 0 <= i < |memory| => Offer(OfPreview(PreviewOf(memory[i], previewSize)))) +
    seq(|tasks|, i requires 0 <= i < |tasks| => Offer(OfTask(tasks[i])))
  }

  ghost predicate DistinctRecords(memory: seq<MemoryItem>) {
    forall i, j :: 0 <= i < j < |memory| ==> memory[i].record != memory[j].record
  }

  lemma CandidatesOffered(graph: seq<GraphItem>, memory: seq<MemoryItem>, tasks: seq<TaskItem>, previewSize: MemoryItem -> nat)
    requires DistinctRecords(memory)
    ensures forall c :: c in Candidates(graph, memory, tasks, previewSize) ==> c == Offer(c.item)
    ensures SameScores(Candidates(graph, memory, tasks, previewSize))
  {
  }

  /** Every graph item, record, preview of a record and task is offered once, memory entries lifted by one half. */
  lemma EverythingOffered(graph: seq<GraphItem>, memory: seq<MemoryItem>, tasks: seq<TaskItem>, previewSize: MemoryItem -> nat)
    ensures var offered, g, m := Candidates(graph, memory, tasks, previewSize), |graph|, |memory|;
      && |offered| == g + 2 * m + |tasks|
      && (forall i :: 0 <= i < g ==> offered[i] == Candidate(OfGraph(graph[i]), graph[i].score, graph[i].size))
      && (forall i :: 0 <= i < m ==> offered[g + i] == Candidate(OfMemory(memory[i]), memory[i].score + 0.5, memory[i].size))
      && (forall i :: 0 <= i < m ==>
            var preview := Preview(memory[i].record, memory[i].score, previewSize(memory[i]));
            offered[g + m + i] == Candidate(OfPreview(preview), preview.score + 0.5, preview.size))
      && (forall i :: 0 <= i < |tasks| ==> offered[g + 2 * m + i] == Candidate(OfTask(tasks[i]), tasks[i].score, tasks[i].size))
  {
  }

  lemma {:induction false} KindsCount(taken: seq<Item>)
    ensures |OfKind(taken, AsGraph)| + |OfKind(taken, AsMemory)| + |OfKind(taken, AsPreview)| + |OfKind(taken, AsTask)| == |taken|
  {
    if taken != [] {
      KindsCount(taken[..|taken| - 1]);
    }
  }

  lemma {:induction false} KindHolds<T>(taken: seq<Item>, pick: Item -> Option<T>)
    ensures forall x :: x in taken && pick(x).Some? ==> pick(x).value in OfKind(taken, pick)
  {
    if taken != [] {
      var n := |taken| - 1;
      KindHolds(taken[..n], pick);
      forall x | x in taken && pick(x).Some?
        ensures pick(x).value in OfKind(taken, pick)
      {
        if x != taken[n] {
          assert x in taken[..n];
        }
      }
    }
  }

  /** The pack carries everything taken, each item in the list of its kind, and nothing else. */
  lemma ContentHoldsTaken(base: Content, picked: Picked)
    ensures var content := ContentOf(base, picked);
      && Items(content) == |picked.taken| && content.header == base.header && content.truncated == picked.truncated
      && forall x :: x in picked.taken ==>
           match x
           case OfGraph(g) => g in content.graph
           case OfMemory(m) => m in content.memory
           case OfPreview(p) => p in content.previews
           case OfTask(k) => k in content.tasks
  {
    KindsCount(picked.taken);
    KindHolds(picked.taken, AsGraph);
    KindHolds(picked.taken, AsMemory);
    KindHolds(picked.taken, AsPreview);
    KindHolds(picked.taken, AsTask);
    forall x | x in picked.taken
      ensures match x
              case OfGraph(g) => g in OfKind(picked.taken, AsGraph)
              case OfMemory(m) => m in OfKind(picked.taken, AsMemory)
              case OfPreview(p) => p in OfKind(picked.taken, AsPreview)
              case OfTask(k) => k in OfKind(picked.taken, AsTask)
    {
      match x
      case OfGraph(g) => assert AsGraph(x) == Some(g);
      case OfMemory(m) => assert AsMemory(x) == Some(m);
      case OfPreview(p) => assert AsPreview(x) == Some(p);
      case OfTask(k) => assert AsTask(x) == Some(k);
    }
  }

  ghost predicate Split(taken: seq<Item>, graph: seq<GraphItem>, memory: seq<MemoryItem>, previews: seq<Preview>, tasks: seq<TaskItem>) {
    && graph == OfKind(taken, AsGraph) && memory == OfKind(taken, AsMemory)
    && previews == OfKind(taken, AsPreview) && tasks == OfKind(taken, AsTask)
  }

  lemma SelectNext(start: Picked, candidates: seq<Candidate>, k: nat, budget: nat)
    requires k < |candidates|
    ensures Select(start, candidates[..k + 1], budget) == Consider(Select(start, candidates[..k], budget), candidates[k], budget)
  {
    assert candidates[..k + 1][..k] == candidates[..k];
  }

  function Alone<T>(item: Option<T>): seq<T> { if item.Some? then [item.value] else [] }

  lemma KindTaken<T>(taken: seq<Item>, item: Item, pick: Item -> Option<T>)
    ensures OfKind(taken + [item], pick) == OfKind(taken, pick) + Alone(pick(item))
  {
    assert (taken + [item])[..|taken|] == taken;
  }

  /** Taking an item extends the list of its kind. */
  lemma TakenOne(taken: seq<Item>, item: Item, graph: seq<GraphItem>, memory: seq<MemoryItem>, previews: seq<Preview>,
                 tasks: seq<TaskItem>)
    requires Split(taken, graph, memory, previews, tasks)
    ensures item.OfGraph? ==> Split(taken + [item], graph + [item.g], memory, previews, tasks)
    ensures item.OfMemory? ==> Split(taken + [item], graph, memory + [item.m], previews, tasks)
    ensures item.OfPreview? ==> Split(taken + [item], graph, memory, previews + [item.p], tasks)
    ensures item.OfTask? ==> Split(taken + [item], graph, memory, previews, tasks + [item.t])
  {
    KindTaken(taken, item, AsGraph);
    KindTaken(taken, item, AsMemory);
    KindTaken(taken, item, AsPreview);
    KindTaken(taken, item, AsTask);
  }

  /** The selection loop, over the four lists of the source: each candidate that fits at its turn goes to the list of
      its kind. */
  method SelectLoop(base: Content, start: Picked, candidates: seq<Candidate>, budget: nat)
    returns (content: Content, size: nat, ghost marks: seq<bool>)
    requires start.taken == [] && start.size <= budget
    requires forall c :: c in candidates ==> c == Offer(c.item)
    ensures TakesAllThatFits(candidates, marks, start.size, budget)
    ensures size == start.size + Sizes(Marked(candidates, marks)) <= budget
    ensures content == ContentOf(base, Picked(Marked(candidates, marks), size, start.truncated || LeavesOut(candidates, marks)))
    ensures Picked(Marked(candidates, marks), size, start.truncated || LeavesOut(candidates, marks))
         == Select(start, candidates, budget)
  {
    marks := SelectionTakesAllThatFits(start, candidates, budget);
    SelectionAccounted(start, candidates, budget);
    var graph: seq<GraphItem>, memory: seq<MemoryItem>, previews: seq<Preview>, tasks: seq<TaskItem> := [], [], [], [];
    size := start.size;
    var truncated := start.truncated;
    ghost var picked := start;
    for k := 0 to |candidates|
      invariant picked == Select(start, candidates[..k], budget)
      invariant picked.size == size && picked.truncated == truncated
      invariant Split(picked.taken, graph, memory, previews, tasks)
    {
      var c := candidates[k];
      SelectNext(start, candidates, k, budget);
      RedundantByList(picked.taken, c.item);
      if c.item.OfPreview? && Listed(memory, c.item.p.record) {
        continue;
      }
      if size + c.size > budget {
        truncated := true;
        picked := picked.(truncated := true);
        continue;
      }
      size := size + c.size;
      TakenOne(picked.taken, c.item, graph, memory, previews, tasks);
      picked := Picked(picked.taken + [c.item], size, truncated);
      match c.item {
        case OfGraph(g) => graph := graph + [g];
        case OfMemory(m) => memory := memory + [m];
        case OfPreview(p) => previews := previews + [p];
        case OfTask(t) => tasks := tasks + [t];
      }
    }
    assert candidates[..|candidates|] == candidates;
    content := Content(base.header, graph, memory, previews, tasks, RelevantFiles(graph, memory), Decisions(memory), truncated);
  }

  predicate Listed(memory: seq<MemoryItem>, record: string) {
    exists i :: 0 <= i < |memory| && memory[i].record == record
  }

  /** Looking a record up among the selected memory items is looking it up among everything taken. */
  lemma {:induction false} RedundantByList(taken: seq<Item>, item: Item)
    ensures Redundant(taken, item) <==> item.OfPreview? && Listed(OfKind(taken, AsMemory), item.p.record)
  {
    if taken != [] {
      var front, last := taken[..|taken| - 1], taken[|taken| - 1];
      RedundantByList(front, item);
      var before, memory := OfKind(front, AsMemory), OfKind(taken, AsMemory);
      assert Redundant(taken, item) <==>
        Redundant(front, item) || (item.OfPreview? && last.OfMemory? && last.m.record == item.p.record) by {
        assert forall i :: 0 <= i < |front| ==> front[i] == taken[i];
      }
      assert memory == before + if last.OfMemory? then [last.m] else [];
      if item.OfPreview? {
        assert Listed(memory, item.p.record) <==>
          Listed(before, item.p.record) || (last.OfMemory? && last.m.record == item.p.record) by {
          assert forall i :: 0 <= i < |before| ==> before[i] == memory[i];
          assert last.OfMemory? ==> memory[|before|] == last.m;
        }
      }
    }
  }

  /** `build_with_graph` from the candidate list on.  `Err(TaskExceedsBudget)` is decided by the bare metadata alone;
      otherwise the greedy selection has its lowest-scoring tails cut off, no more than needed, carries no record twice,
      and is returned, exactly as long as it says, if and only if it fits; it is refused with items left only where
      the cutting stops too early. */
  method BuildPack(rest: Content -> nat, base: Content, graph: seq<GraphItem>, memory: seq<MemoryItem>,
                   tasks: seq<TaskItem>, previewSize: MemoryItem -> nat, budget: nat)
    returns (result: Result<Pack, Error>, ghost sorted: seq<Candidate>, ghost marks: seq<bool>, ghost selected: Picked,
             ghost kept: Content, ghost before: Content)
    requires 1000 <= budget <= 200_000
    requires DistinctRecords(memory)
    ensures result == Err(TaskExceedsBudget) <==> rest(base) + 1 > budget
    ensures SortOf(sorted, Candidates(graph, memory, tasks, previewSize))
    ensures rest(base) + 1 <= budget ==>
      && TakesAllThatFits(sorted, marks, rest(base) + 1, budget)
      && selected.taken == Marked(sorted, marks)
      && (selected.truncated <==> base.truncated || LeavesOut(sorted, marks))
    ensures rest(base) + 1 <= budget ==>
      var pack := Pack(ContentOf(base, selected), selected.size, budget);
      && selected.size == rest(base) + 1 + Sizes(selected.taken) <= budget
      && kept == Greedy(rest, pack.content, Room(pack))
      && NoRecordTwice(kept) && Derived(kept)
      && TrimmedFrom(pack.content, kept) && ScoreDominant(pack.content, kept) && CutNoFurther(rest, pack, kept, before)
      && (result.Ok? <==> Fits(rest, kept, budget))
      && (result.Err? && !Empty(kept) <==> StopsTooEarly(rest, pack))
    ensures result.Ok? ==> result.value.content == kept && result.value.sizeChars == Length(rest, result.value) <= budget
  {
    var baseSize := rest(base) + Digits(0);
    var start := Picked([], baseSize, base.truncated);
    var ranked := Sort(Candidates(graph, memory, tasks, previewSize));
    sorted, marks, selected := ranked, [], start;
    RankedAsOffered(graph, memory, tasks, previewSize);
    if baseSize > budget {
      return Err(TaskExceedsBudget), sorted, marks, selected, base, base;
    }
    var content, size;
    content, size, marks, selected := SelectRanked(base, start, ranked, graph, memory, tasks, previewSize, budget);
    result, kept, before := Fit(rest, Pack(content, size, budget));
    CutsKeepApart(content, kept);
  }

  /** The loop over the ranked candidates, with what `_fit` relies on. */
  method SelectRanked(base: Content, start: Picked, ranked: seq<Candidate>, ghost graph: seq<GraphItem>,
                      ghost memory: seq<MemoryItem>, ghost tasks: seq<TaskItem>, ghost previewSize: MemoryItem -> nat, budget: nat)
    returns (content: Content, size: nat, ghost marks: seq<bool>, ghost selected: Picked)
    requires start.taken == [] && start.size <= budget && start.truncated == base.truncated && DistinctRecords(memory)
    requires ranked == Sort(Candidates(graph, memory, tasks, previewSize))
    ensures TakesAllThatFits(ranked, marks, start.size, budget)
    ensures selected.taken == Marked(ranked, marks) && (selected.truncated <==> base.truncated || LeavesOut(ranked, marks))
    ensures selected.size == size == start.size + Sizes(selected.taken) <= budget
    ensures content == ContentOf(base, selected)
    ensures Descending(content) && Derived(content) && NoRecordTwice(content)
  {
    RankedAsOffered(graph, memory, tasks, previewSize);
    SelectedForFit(base, start, graph, memory, tasks, previewSize, budget);
    content, size, marks := SelectLoop(base, start, ranked, budget);
    selected := Picked(Marked(ranked, marks), size, base.truncated || LeavesOut(ranked, marks));
  }

  lemma RankedAsOffered(graph: seq<GraphItem>, memory: seq<MemoryItem>, tasks: seq<TaskItem>, previewSize: MemoryItem -> nat)
    requires DistinctRecords(memory)
    ensures var candidates := Candidates(graph, memory, tasks, previewSize);
      SortOf(Sort(candidates), candidates) && forall c :: c in Sort(candidates) ==> c == Offer(c.item)
  {
    var candidates := Candidates(graph, memory, tasks, previewSize);
    CandidatesOffered(graph, memory, tasks, previewSize);
    SortSorts(candidates);
    forall a {
      SortKeepsTies(candidates, a);
    }
  }

  /** What `_fit` relies on, and the selection's own promises. */
  lemma SelectedForFit(base: Content, start: Picked, graph: seq<GraphItem>, memory: seq<MemoryItem>,
                       tasks: seq<TaskItem>, previewSize: MemoryItem -> nat, budget: nat)
    requires start.taken == [] && start.size <= budget && DistinctRecords(memory)
    ensures var selected := Select(start, Sort(Candidates(graph, memory, tasks, previewSize)), budget);
      && selected.size == start.size + Sizes(selected.taken) <= budget
      && Descending(ContentOf(base, selected)) && Derived(ContentOf(base, selected)) && NoRecordTwice(ContentOf(base, selected))
  {
    var candidates := Candidates(graph, memory, tasks, previewSize);
    var sorted := Sort(candidates);
    var selected := Select(start, sorted, budget);
    CandidatesOffered(graph, memory, tasks, previewSize);
    SortSorts(candidates);
    SelectionAccounted(start, sorted, budget);
    SelectionInOrder(start, sorted, budget, if sorted == [] then 0.0 else sorted[|sorted| - 1].score);
    ListsDescend(base, selected, if sorted == [] then 0.0 else sorted[|sorted| - 1].score);
    SortedPreviewsFollow(sorted);
    SelectionKeepsApart(start, sorted, budget);
    ListsApart(base, selected);
  }

  lemma CutsKeepApart(all: Content, kept: Content)
    requires NoRecordTwice(all) && TrimmedFrom(all, kept)
    ensures NoRecordTwice(kept)
  {
  }
}
