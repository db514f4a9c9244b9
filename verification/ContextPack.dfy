/** Selecting and trimming a context pack (src/orqalis/context/builder.py,
    `build_with_graph` from the candidate list on, and `_fit`).

    A pack is its content plus the self-describing field `size_chars`.  The length of
    its JSON text is `rest(content) + Digits(sizeChars)`, for an arbitrary function
    `rest` that gives the length of everything but the digits of that field. */
module ContextPack {
  import opened Collections

  datatype GraphItem = GraphItem(node: string, file: Option<string>, score: real, size: nat)
  datatype MemoryItem = MemoryItem(record: string, paths: set<string>, decision: bool, score: real, size: nat)
  datatype Preview = Preview(record: string, score: real, size: nat)
  datatype TaskItem = TaskItem(id: string, score: real, size: nat)

  datatype Content = Content(
    header: string, graph: seq<GraphItem>, memory: seq<MemoryItem>, previews: seq<Preview>, tasks: seq<TaskItem>,
    relevantFiles: set<string>, decisions: seq<string>, truncated: bool)

  datatype Pack = Pack(content: Content, sizeChars: nat, maxChars: nat)

  datatype Error = TaskExceedsBudget | MetadataExceedsBudget

  function Digits(n: nat): nat { if n < 10 then 1 else 1 + Digits(n / 10) }

  function Length(rest: Content -> nat, pack: Pack): nat { rest(pack.content) + Digits(pack.sizeChars) }

  // ---------------------------------------------------------------------------------
  // The size field reaches its fixed point

  function Pow10(k: nat): nat { if k == 0 then 1 else 10 * Pow10(k - 1) }

  lemma {:induction false} DigitsBounds(n: nat)
    ensures Digits(n) >= 1
    ensures n < Pow10(Digits(n))
    ensures n > 0 ==> Pow10(Digits(n) - 1) <= n
  {
    if n >= 10 {
      DigitsBounds(n / 10);
    } else {
      assert Pow10(1) == 10 * Pow10(0);
    }
  }

  lemma {:induction false} Pow10Monotone(j: nat, k: nat)
    requires j <= k
    ensures Pow10(j) <= Pow10(k)
    decreases k
  {
    if j < k {
      Pow10Monotone(j, k - 1);
    }
  }

  lemma Pow10Below(j: nat, k: nat)
    ensures j < k ==> Pow10(j) <= Pow10(k - 1)
  {
    if j < k {
      Pow10Monotone(j, k - 1);
    }
  }

  lemma {:induction false} Pow10Large(k: nat)
    ensures 9 * Pow10(k) > k
  {
    if k > 0 {
      Pow10Large(k - 1);
    }
  }

  lemma {:induction false} DigitsMonotone(m: nat, n: nat)
    requires m <= n
    ensures Digits(m) <= Digits(n)
  {
    if m >= 10 {
      DigitsMonotone(m / 10, n / 10);
    }
  }

  /** The size after so many rounds of measuring the text and writing the measure into it. */
  function Restamped(r: nat, start: nat, rounds: nat): nat {
    if rounds == 0 then start else r + Digits(Restamped(r, start, rounds - 1))
  }

  /** Writing a longer number can lengthen the text only twice before the length stops growing. */
  lemma GrowsAtMostTwice(r: nat, d0: nat, d1: nat, d2: nat)
    requires 1 <= d0 <= d1 == Digits(r + d0) && d1 <= d2 == Digits(r + d1)
    ensures d0 == d1 || d1 == d2 || Digits(r + d2) == d2
  {
    var d3 := Digits(r + d2);
    DigitsMonotone(r + d1, r + d2);
    DigitsBounds(r + d0);
    DigitsBounds(r + d2);
    Pow10Large(d2 - 1);
    assert Pow10(d2) == 10 * Pow10(d2 - 1);
    Pow10Below(d1, d2);
    Pow10Below(d2, d3);
  }

  /** Starting from at most six digits, the text can shrink only once. */
  lemma ShrinksAtMostOnce(r: nat, d0: nat, d1: nat, d2: nat)
    requires 6 >= d0 >= d1 == Digits(r + d0) && d1 >= d2 == Digits(r + d1)
    ensures d1 == d2 || Digits(r + d2) == d2
  {
    var d3 := Digits(r + d2);
    DigitsMonotone(r + d2, r + d1);
    DigitsBounds(r + d0);
    DigitsBounds(r + d1);
    DigitsBounds(r + d2);
    assert Pow10(d2) == 10 * Pow10(d2 - 1);
    assert Pow10(1) == 10 * Pow10(0);
    Pow10Below(d2, d1);
    Pow10Below(d3, d2);
    Pow10Below(1, d2);
  }

  /** Four rounds are enough from any start below a million, whatever the rest of the text measures. */
  lemma FourRoundsSettle(r: nat, start: nat)
    requires start < 1_000_000
    ensures Restamped(r, start, 4) == r + Digits(Restamped(r, start, 4))
  {
    var d0 := Digits(start);
    var d1 := Digits(r + d0);
    var d2 := Digits(r + d1);
    assert Restamped(r, start, 1) == r + d0;
    assert Restamped(r, start, 2) == r + d1;
    assert Restamped(r, start, 3) == r + d2;
    DigitsBounds(start);
    DigitsMonotone(start, 999_999);
    if d0 <= d1 {
      DigitsMonotone(r + d0, r + d1);
      GrowsAtMostTwice(r, d0, d1, d2);
    } else {
      DigitsMonotone(r + d1, r + d0);
      ShrinksAtMostOnce(r, d0, d1, d2);
    }
  }

  lemma {:induction false} SettledStays(r: nat, start: nat, j: nat, k: nat)
    requires j <= k
    requires Restamped(r, start, j) == r + Digits(Restamped(r, start, j))
    ensures Restamped(r, start, k) == Restamped(r, start, j)
    decreases k
  {
    if j < k {
      SettledStays(r, start, j, k - 1);
    }
  }

  lemma {:induction false} Pow10Step(j: nat, k: nat)
    ensures Pow10(j + k) >= Pow10(j) + k
  {
    if k > 0 {
      Pow10Step(j, k - 1);
      Pow10Monotone(0, j + k - 1);
    }
  }

  /** A number that measures its own text exceeds a bound exactly when the bound, written in its place, would not fit. */
  lemma SettledExceeds(r: nat, size: nat, bound: nat)
    requires size == r + Digits(size) && r + Digits(bound) > bound
    ensures size > bound
  {
    if size <= bound {
      var k := Digits(bound) - Digits(size);
      DigitsBounds(size);
      DigitsBounds(bound);
      Pow10Step(Digits(size), k - 1);
    }
  }

  lemma {:induction false} RestampedWithin(r: nat, start: nat, rounds: nat, bound: nat)
    requires start <= bound && r + Digits(bound) <= bound
    ensures Restamped(r, start, rounds) <= bound
  {
    if rounds > 0 {
      RestampedWithin(r, start, rounds - 1, bound);
      DigitsMonotone(Restamped(r, start, rounds - 1), bound);
    }
  }

  /** The four-round loop of `_fit`: the field always ends equal to the length of the text holding it. */
  method StampSize(r: nat, start: nat) returns (size: nat)
    requires start < 1_000_000
    ensures size == r + Digits(size)
    ensures size == Restamped(r, start, 4)
  {
    size := start;
    for round := 0 to 4
      invariant size == Restamped(r, start, round)
    {
      var actual := r + Digits(size);
      if size == actual {
        SettledStays(r, start, round, 4);
        return;
      }
      size := actual;
    }
    FourRoundsSettle(r, start);
  }

  // ---------------------------------------------------------------------------------
  // Derived fields and order

  function RelevantFiles(graph: seq<GraphItem>, memory: seq<MemoryItem>): set<string> {
    (set item | item in graph && item.file.Some? :: item.file.value) +
    (set item, path | item in memory && path in item.paths :: path)
  }

  function Decisions(memory: seq<MemoryItem>): seq<string> {
    if memory == [] then []
    else Decisions(memory[..|memory| - 1]) + if memory[|memory| - 1].decision then [memory[|memory| - 1].record] else []
  }

  /** The files of the graph items and the paths of the memory items. */
  lemma RelevantFilesListed(graph: seq<GraphItem>, memory: seq<MemoryItem>, path: string)
    ensures path in RelevantFiles(graph, memory) <==>
      (exists g :: g in graph && g.file == Some(path)) || (exists m :: m in memory && path in m.paths)
  {
  }

  /** The records of the decisions among the memory items, as often as there are. */
  lemma {:induction false} DecisionsListed(memory: seq<MemoryItem>, record: string)
    ensures record in Decisions(memory) <==> exists i :: 0 <= i < |memory| && memory[i].decision && memory[i].record == record
    ensures |Decisions(memory)| <= |memory|
  {
    if memory != [] {
      var n := |memory| - 1;
      DecisionsListed(memory[..n], record);
      if exists i :: 0 <= i < |memory| && memory[i].decision && memory[i].record == record {
        var i :| 0 <= i < |memory| && memory[i].decision && memory[i].record == record;
        assert i < n ==> memory[..n][i].record == record;
      }
    }
  }

  /** `relevant_files` and `decisions` are what the kept items say. */
  ghost predicate Derived(content: Content) {
    && content.relevantFiles == RelevantFiles(content.graph, content.memory)
    && content.decisions == Decisions(content.memory)
  }

  ghost predicate Descending(content: Content) {
    && (forall i, j :: 0 <= i <= j < |content.graph| ==> content.graph[i].score >= content.graph[j].score)
    && (forall i, j :: 0 <= i <= j < |content.memory| ==> content.memory[i].score >= content.memory[j].score)
    && (forall i, j :: 0 <= i <= j < |content.previews| ==> content.previews[i].score >= content.previews[j].score)
    && (forall i, j :: 0 <= i <= j < |content.tasks| ==> content.tasks[i].score >= content.tasks[j].score)
  }

  /** No record is carried both in full and as a preview. */
  ghost predicate NoRecordTwice(content: Content) {
    forall m, p :: m in content.memory && p in content.previews ==> m.record != p.record
  }

  // ---------------------------------------------------------------------------------
  // Trimming

  predicate Empty(content: Content) {
    content.graph == [] && content.memory == [] && content.previews == [] && content.tasks == []
  }

  /** Every kept item scores at least `t`. */
  ghost predicate KeptAbove(kept: Content, t: real) {
    && (forall i :: 0 <= i < |kept.graph| ==> kept.graph[i].score >= t)
    && (forall i :: 0 <= i < |kept.memory| ==> kept.memory[i].score >= t)
    && (forall i :: 0 <= i < |kept.previews| ==> kept.previews[i].score >= t)
    && (forall i :: 0 <= i < |kept.tasks| ==> kept.tasks[i].score >= t)
  }

  /** Every item of `all` that `kept` lacks scores at most `t`. */
  ghost predicate DroppedBelow(all: Content, kept: Content, t: real) {
    && (forall i :: |kept.graph| <= i < |all.graph| ==> all.graph[i].score <= t)
    && (forall i :: |kept.memory| <= i < |all.memory| ==> all.memory[i].score <= t)
    && (forall i :: |kept.previews| <= i < |all.previews| ==> all.previews[i].score <= t)
    && (forall i :: |kept.tasks| <= i < |all.tasks| ==> all.tasks[i].score <= t)
  }

  /** `kept` is `all` with tails cut off its lists and nothing else but the derived fields and the flag changed. */
  ghost predicate TrimmedFrom(all: Content, kept: Content) {
    && kept.graph <= all.graph && kept.memory <= all.memory
    && kept.previews <= all.previews && kept.tasks <= all.tasks
    && kept.header == all.header
  }

  function Items(content: Content): nat {
    |content.graph| + |content.memory| + |content.previews| + |content.tasks|
  }

  datatype Tail = GraphTail | MemoryTail | PreviewTail | TaskTail

  /** The list whose last item scores lowest; ties go by the kind's name, as the tuple comparison of the source does. */
  function LowestTail(content: Content): (kind: Tail)
    requires !Empty(content)
    ensures kind == GraphTail ==> content.graph != []
    ensures kind == MemoryTail ==> content.memory != []
    ensures kind == PreviewTail ==> content.previews != []
    ensures kind == TaskTail ==> content.tasks != []
    ensures content.graph != [] ==> TailScore(content, kind) <= content.graph[|content.graph| - 1].score
    ensures content.memory != [] ==> TailScore(content, kind) <= content.memory[|content.memory| - 1].score
    ensures content.previews != [] ==> TailScore(content, kind) <= content.previews[|content.previews| - 1].score
    ensures content.tasks != [] ==> TailScore(content, kind) <= content.tasks[|content.tasks| - 1].score
  {
    var first := if content.graph != [] then Some(GraphTail) else None;
    var second := Lower(content, first, if content.memory != [] then Some(MemoryTail) else None);
    var third := Lower(content, second, if content.previews != [] then Some(PreviewTail) else None);
    Lower(content, third, if content.tasks != [] then Some(TaskTail) else None).value
  }

  function Lower(content: Content, best: Option<Tail>, next: Option<Tail>): Option<Tail> {
    if next.None? then best
    else if best.None? || TailScore(content, next.value) < TailScore(content, best.value) then next
    else best
  }

  predicate HasTail(content: Content, kind: Tail) {
    match kind
    case GraphTail => content.graph != []
    case MemoryTail => content.memory != []
    case PreviewTail => content.previews != []
    case TaskTail => content.tasks != []
  }

  /** No other tail is lower, and none of the same score comes earlier by name. */
  lemma LowestTailByScoreThenName(content: Content, other: Tail)
    requires !Empty(content) && HasTail(content, other) && other != LowestTail(content)
    ensures HasTail(content, LowestTail(content))
    ensures var lowest := LowestTail(content);
      || TailScore(content, lowest) < TailScore(content, other)
      || (TailScore(content, lowest) == TailScore(content, other)
          && (lowest == GraphTail || other == TaskTail || (lowest == MemoryTail && other == PreviewTail)))
  {
  }

  function TailScore(content: Content, kind: Tail): real {
    match kind
    case GraphTail => if content.graph == [] then 0.0 else content.graph[|content.graph| - 1].score
    case MemoryTail => if content.memory == [] then 0.0 else content.memory[|content.memory| - 1].score
    case PreviewTail => if content.previews == [] then 0.0 else content.previews[|content.previews| - 1].score
    case TaskTail => if content.tasks == [] then 0.0 else content.tasks[|content.tasks| - 1].score
  }

  /** The content without its lowest tail, its derived fields recomputed. */
  function CutOnce(content: Content): (cut: Content)
    requires !Empty(content)
    ensures Items(cut) == Items(content) - 1
  {
    var kind := LowestTail(content);
    var graph := if kind == GraphTail then content.graph[..|content.graph| - 1] else content.graph;
    var memory := if kind == MemoryTail then content.memory[..|content.memory| - 1] else content.memory;
    var previews := if kind == PreviewTail then content.previews[..|content.previews| - 1] else content.previews;
    var tasks := if kind == TaskTail then content.tasks[..|content.tasks| - 1] else content.tasks;
    Content(content.header, graph, memory, previews, tasks, RelevantFiles(graph, memory), Decisions(memory), true)
  }

  /** So many cuts, as long as anything is left to cut. */
  function Cuts(content: Content, n: nat): Content
    decreases n
  {
    if n == 0 || Empty(content) then content else Cuts(CutOnce(content), n - 1)
  }

  /** The content at which cutting stops: the first whose length is within `room`, or the empty one. */
  function Greedy(rest: Content -> nat, content: Content, room: int): Content
    decreases Items(content)
  {
    if rest(content) <= room || Empty(content) then content else Greedy(rest, CutOnce(content), room)
  }

  /** The room the trimming loop allows: it measures with the number that is in the size field already. */
  function Room(pack: Pack): int { pack.maxChars - Digits(pack.sizeChars) }

  /** Cuts the lowest tail and recomputes the derived fields. */
  method CutLowest(content: Content) returns (cut: Content, ghost score: real)
    requires !Empty(content) && Descending(content)
    ensures cut == CutOnce(content)
    ensures score == TailScore(content, LowestTail(content))
    ensures TrimmedFrom(content, cut)
    ensures KeptAbove(content, score) && DroppedBelow(content, cut, score)
    ensures forall t :: KeptAbove(content, t) ==> t <= score
  {
    var kind := LowestTail(content);
    score := TailScore(content, kind);
    match kind {
      case GraphTail => cut := content.(graph := content.graph[..|content.graph| - 1]);
      case MemoryTail => cut := content.(memory := content.memory[..|content.memory| - 1]);
      case PreviewTail => cut := content.(previews := content.previews[..|content.previews| - 1]);
      case TaskTail => cut := content.(tasks := content.tasks[..|content.tasks| - 1]);
    }
    cut := cut.(relevantFiles := RelevantFiles(cut.graph, cut.memory), decisions := Decisions(cut.memory), truncated := true);
  }

  lemma DroppedChain(all: Content, before: Content, after: Content, old_t: real, t: real)
    requires TrimmedFrom(all, before) && TrimmedFrom(before, after)
    requires DroppedBelow(all, before, old_t) && KeptAbove(before, old_t)
    requires KeptAbove(before, t) && DroppedBelow(before, after, t)
    requires old_t <= t
    ensures TrimmedFrom(all, after) && DroppedBelow(all, after, t) && KeptAbove(after, t)
  {
    assert before.graph == all.graph[..|before.graph|];
    assert before.memory == all.memory[..|before.memory|];
    assert before.previews == all.previews[..|before.previews|];
    assert before.tasks == all.tasks[..|before.tasks|];
  }

  /** Everything dropped scores at most everything kept. */
  ghost predicate ScoreDominant(all: Content, kept: Content) {
    exists t :: DroppedBelow(all, kept, t) && KeptAbove(kept, t)
  }

  /** Cutting stopped as soon as the text fitted: one cut fewer was still too long. */
  ghost predicate CutNoFurther(rest: Content -> nat, pack: Pack, kept: Content, before: Content) {
    || kept == pack.content
    || (&& TrimmedFrom(before, kept) && Items(before) == Items(kept) + 1 && TrimmedFrom(pack.content, before)
        && Length(rest, pack.(content := before)) > pack.maxChars)
  }

  /** What the trimming loop keeps: `t` separates what is dropped from what is kept. */
  ghost predicate TrimmedSoFar(all: Content, kept: Content, t: real) {
    && TrimmedFrom(all, kept) && Descending(kept) && Derived(kept)
    && DroppedBelow(all, kept, t) && KeptAbove(kept, t)
    && (kept == all || kept.truncated)
  }

  lemma TrimmedOneMore(all: Content, before: Content, kept: Content, t: real, score: real)
    requires TrimmedSoFar(all, before, t) && t <= score
    requires TrimmedFrom(before, kept) && Derived(kept) && kept.truncated
    requires KeptAbove(before, score) && DroppedBelow(before, kept, score)
    ensures TrimmedSoFar(all, kept, score)
  {
    DroppedChain(all, before, kept, t, score);
  }

  /** The trimming loop of `_fit`. */
  method Trim(rest: Content -> nat, pack: Pack) returns (kept: Content, ghost before: Content)
    requires Descending(pack.content) && Derived(pack.content)
    ensures kept == Greedy(rest, pack.content, Room(pack))
    ensures TrimmedFrom(pack.content, kept) && ScoreDominant(pack.content, kept) && Derived(kept)
    ensures kept == pack.content || kept.truncated
    ensures CutNoFurther(rest, pack, kept, before)
  {
    kept, before := pack.content, pack.content;
    ghost var t := if Empty(kept) then 0.0 else TailScore(kept, LowestTail(kept));
    while Length(rest, pack.(content := kept)) > pack.maxChars && !Empty(kept)
      invariant TrimmedSoFar(pack.content, kept, t)
      invariant CutNoFurther(rest, pack, kept, before)
      invariant Greedy(rest, pack.content, Room(pack)) == Greedy(rest, kept, Room(pack))
      decreases Items(kept)
    {
      before := kept;
      ghost var score;
      kept, score := CutLowest(kept);
      TrimmedOneMore(pack.content, before, kept, t, score);
      t := score;
    }
  }

  /** `_fit`.  A returned pack describes its own length exactly and is within the budget; its content is the
      selection with the lowest-scoring tails cut off, no more of them than needed.  Whether it is returned depends
      on where the cutting stops. */
  method Fit(rest: Content -> nat, pack: Pack)
    returns (result: Result<Pack, Error>, ghost kept: Content, ghost before: Content)
    requires Descending(pack.content) && Derived(pack.content)
    requires pack.sizeChars <= pack.maxChars <= 200_000
    ensures kept == Greedy(rest, pack.content, Room(pack))
    ensures TrimmedFrom(pack.content, kept) && ScoreDominant(pack.content, kept) && Derived(kept)
    ensures kept == pack.content || kept.truncated
    ensures CutNoFurther(rest, pack, kept, before)
    ensures result.Ok? ==>
      && result.value.content == kept
      && result.value.maxChars == pack.maxChars
      && result.value.sizeChars == Length(rest, result.value) <= pack.maxChars
    ensures result.Err? ==> result.error == MetadataExceedsBudget
    ensures result.Ok? <==> Fits(rest, Greedy(rest, pack.content, Room(pack)), pack.maxChars)
    ensures result.Err? && !Empty(kept) <==> StopsTooEarly(rest, pack)
  {
    var content;
    content, before := Trim(rest, pack);
    kept := content;
    StopsWithin(rest, pack.content, Room(pack));
    var size := StampSize(rest(content), pack.sizeChars);
    if rest(content) + Digits(pack.maxChars) <= pack.maxChars {
      RestampedWithin(rest(content), pack.sizeChars, 4, pack.maxChars);
    } else {
      SettledExceeds(rest(content), size, pack.maxChars);
    }
    GapExactly(rest, pack);
    if size > pack.maxChars {
      return Err(MetadataExceedsBudget), kept, before;
    }
    result := Ok(Pack(content, size, pack.maxChars));
  }

  // ---------------------------------------------------------------------------------
  // When a pack is refused although something is left to cut

  /** The text fits the budget with a number as long as the budget's in the size field. */
  predicate Fits(rest: Content -> nat, content: Content, maxChars: nat) { rest(content) + Digits(maxChars) <= maxChars }

  lemma {:induction false} StopsWithin(rest: Content -> nat, content: Content, room: int)
    ensures var kept := Greedy(rest, content, room); rest(kept) <= room || Empty(kept)
    decreases Items(content)
  {
    if rest(content) > room && !Empty(content) {
      StopsWithin(rest, CutOnce(content), room);
    }
  }

  /** After `n` cuts the text is in the gap: within the room the old number leaves, not within what the budget's
      digits leave, with something left to cut. */
  predicate InGap(rest: Content -> nat, pack: Pack, n: nat) {
    var content := Cuts(pack.content, n);
    !Empty(content) && pack.maxChars - Digits(pack.maxChars) < rest(content) <= Room(pack)
  }

  /** The first text that cutting brings within the room is in the gap. */
  ghost predicate StopsTooEarly(rest: Content -> nat, pack: Pack) {
    exists n: nat :: InGap(rest, pack, n) && forall m: nat :: m < n ==> rest(Cuts(pack.content, m)) > Room(pack)
  }

  /** Cutting stops after the least number of cuts that brings the text within the room, or leaves nothing to cut. */
  lemma {:induction false} GreedyIsFirst(rest: Content -> nat, content: Content, room: int) returns (n: nat)
    ensures Greedy(rest, content, room) == Cuts(content, n)
    ensures forall m: nat :: m < n ==> rest(Cuts(content, m)) > room && !Empty(Cuts(content, m))
    decreases Items(content)
  {
    if rest(content) <= room || Empty(content) {
      n := 0;
    } else {
      n := GreedyIsFirst(rest, CutOnce(content), room);
      n := n + 1;
      forall m: nat | m < n
        ensures rest(Cuts(content, m)) > room && !Empty(Cuts(content, m))
      {
        if m > 0 {
          assert Cuts(content, m) == Cuts(CutOnce(content), m - 1);
        }
      }
    }
  }

  /** What the trimming loop keeps does not fit, and is not empty, exactly when the first text within the room is in
      the gap. */
  lemma GapExactly(rest: Content -> nat, pack: Pack)
    ensures StopsTooEarly(rest, pack) <==>
      var kept := Greedy(rest, pack.content, Room(pack)); !Empty(kept) && !Fits(rest, kept, pack.maxChars)
  {
    var room := Room(pack);
    var n := GreedyIsFirst(rest, pack.content, room);
    var kept := Cuts(pack.content, n);
    StopsWithin(rest, pack.content, room);
    if !Empty(kept) && !Fits(rest, kept, pack.maxChars) {
      assert InGap(rest, pack, n);
    }
    if StopsTooEarly(rest, pack) {
      var k: nat :| InGap(rest, pack, k) && forall m: nat :: m < k ==> rest(Cuts(pack.content, m)) > room;
      assert rest(Cuts(pack.content, k)) <= room;
      if n < k {
        EmptyStays(pack.content, n, k);
      }
    }
  }

  lemma {:induction false} EmptyStays(content: Content, n: nat, k: nat)
    requires n <= k && !Empty(Cuts(content, k))
    ensures !Empty(Cuts(content, n))
    decreases n
  {
    if n > 0 {
      EmptyStays(CutOnce(content), n - 1, k - 1);
    }
  }

  /** A size field as long as the budget leaves no gap: then a pack is refused only when nothing is left to cut. */
  lemma NoGapAtFullLength(rest: Content -> nat, pack: Pack)
    requires Digits(pack.sizeChars) == Digits(pack.maxChars)
    ensures !StopsTooEarly(rest, pack)
  {
    assert forall n: nat :: !InGap(rest, pack, n);
  }

  /** A pack that is refused although one more cut would fit: the text is 10000 characters long with the four-digit
      9990 in place and 10001 with its true size, for a budget of 10000; without its task it is 9005 long. */
  lemma RefusedWithItemsLeft(item: TaskItem)
    ensures
      var rest := (content: Content) => 9000 + 996 * |content.tasks|;
      var content := Content("", [], [], [], [item], {}, [], false);
      var pack := Pack(content, 9990, 10_000);
      && Descending(content) && Derived(content)
      && StopsTooEarly(rest, pack) && Greedy(rest, content, Room(pack)) == content
      && Restamped(rest(content), pack.sizeChars, 4) == 10_001
      && Fits(rest, CutOnce(content), pack.maxChars)
  {
    var rest := (content: Content) => 9000 + 996 * |content.tasks|;
    var content := Content("", [], [], [], [item], {}, [], false);
    assert Digits(9990) == 4;
    assert Digits(10_000) == 5;
    assert Digits(10_001) == 5;
    assert Restamped(9996, 9990, 1) == 10_000;
    assert Restamped(9996, 9990, 2) == 10_001;
    SettledStays(9996, 9990, 2, 4);
    assert LowestTail(content) == TaskTail;
    GapExactly(rest, Pack(content, 9990, 10_000));
  }
}
