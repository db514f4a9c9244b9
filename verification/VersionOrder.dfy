/** Version comparison of the launcher's `update` command (packages/npm/lib/update.js, `compareVersions`). */
module VersionOrder {
  import opened Collections
  import opened Texts

  // ---------------------------------------------------------------------------------
  // The version pattern

  predicate IsDigit(c: char) { '0' <= c <= '9' }

  predicate IsTagChar(c: char) { IsDigit(c) || 'A' <= c <= 'Z' || 'a' <= c <= 'z' || c == '.' || c == '-' }

  ghost predicate AllOf(s: string, p: char -> bool) { forall i :: 0 <= i < |s| ==> p(s[i]) }

  datatype Match = Match(major: string, minor: string, patch: string, pre: Option<string>, build: Option<string>)

  function Marked(mark: string, tag: Option<string>): string { if tag.Some? then mark + tag.value else "" }

  function Text(m: Match): string {
    m.major + "." + (m.minor + "." + (m.patch + (Marked("-", m.pre) + Marked("+", m.build))))
  }

  /** The groups of the regular expression: three digit runs, an optional pre-release tag, an optional build tag. */
  ghost predicate Groups(m: Match) {
    && m.major != "" && AllOf(m.major, IsDigit)
    && m.minor != "" && AllOf(m.minor, IsDigit)
    && m.patch != "" && AllOf(m.patch, IsDigit)
    && (m.pre.Some? ==> m.pre.value != "" && AllOf(m.pre.value, IsTagChar))
    && (m.build.Some? ==> m.build.value != "" && AllOf(m.build.value, IsTagChar))
  }

  /** Length of the longest prefix of characters satisfying `p`. */
  function Span(s: string, p: char -> bool): (n: nat)
    ensures n <= |s|
  {
    if s == "" || !p(s[0]) then 0 else 1 + Span(s[1..], p)
  }

  lemma {:induction false} SpanStops(a: string, b: string, p: char -> bool)
    requires AllOf(a, p) && (b == "" || !p(b[0]))
    ensures Span(a + b, p) == |a|
  {
    if a == "" {
      assert a + b == b;
    } else {
      assert (a + b)[1..] == a[1..] + b;
      SpanStops(a[1..], b, p);
    }
  }

  lemma {:induction false} SpanHolds(s: string, p: char -> bool)
    ensures AllOf(s[..Span(s, p)], p)
  {
    if s != "" && p(s[0]) {
      SpanHolds(s[1..], p);
      assert s[..Span(s, p)] == [s[0]] + s[1..][..Span(s[1..], p)];
    }
  }

  /** A nonempty digit run and what follows it. */
  function Number(s: string): Option<(string, string)> {
    var n := Span(s, IsDigit);
    if n == 0 then None else Some((s[..n], s[n..]))
  }

  /** A nonempty digit run with the dot that ends it. */
  function Dotted(s: string): Option<(string, string)> {
    var n := Number(s);
    if n.None? || n.value.1 == "" || n.value.1[0] != '.' then None else Some((n.value.0, n.value.1[1..]))
  }

  /** An optional tag introduced by `mark`. */
  function Tag(s: string, mark: char): Option<(Option<string>, string)> {
    if s == "" || s[0] != mark then Some((None, s))
    else
      var n := Span(s[1..], IsTagChar);
      if n == 0 then None else Some((Some(s[1..][..n]), s[1..][n..]))
  }

  function Tags(s: string): Option<(Option<string>, Option<string>)> {
    var pre := Tag(s, '-');
    if pre.None? then None else
    var build := Tag(pre.value.1, '+');
    if build.None? || build.value.1 != "" then None else Some((pre.value.0, build.value.0))
  }

  /** `pattern.exec`. */
  function Parse(s: string): Option<Match> {
    var a := Dotted(s);
    if a.None? then None else
    var b := Dotted(a.value.1);
    if b.None? then None else
    var c := Number(b.value.1);
    if c.None? then None else
    var tags := Tags(c.value.1);
    if tags.None? then None else Some(Match(a.value.0, b.value.0, c.value.0, tags.value.0, tags.value.1))
  }

  lemma NumberStops(a: string, rest: string)
    requires a != "" && AllOf(a, IsDigit) && (rest == "" || !IsDigit(rest[0]))
    ensures Number(a + rest) == Some((a, rest))
  {
    SpanStops(a, rest, IsDigit);
  }

  lemma DottedStops(a: string, rest: string)
    requires a != "" && AllOf(a, IsDigit)
    ensures Dotted(a + "." + rest) == Some((a, rest))
  {
    assert a + "." + rest == a + ("." + rest);
    NumberStops(a, "." + rest);
  }

  lemma TagStops(tag: Option<string>, mark: char, rest: string)
    requires tag.Some? ==> tag.value != "" && AllOf(tag.value, IsTagChar)
    requires rest == "" || (!IsTagChar(rest[0]) && rest[0] != mark)
    ensures Tag(Marked([mark], tag) + rest, mark) == Some((tag, rest))
  {
    if tag.Some? {
      assert ([mark] + tag.value + rest)[1..] == tag.value + rest;
      SpanStops(tag.value, rest, IsTagChar);
    } else {
      assert "" + rest == rest;
    }
  }

  lemma TagsStop(pre: Option<string>, build: Option<string>)
    requires pre.Some? ==> pre.value != "" && AllOf(pre.value, IsTagChar)
    requires build.Some? ==> build.value != "" && AllOf(build.value, IsTagChar)
    ensures Tags(Marked("-", pre) + Marked("+", build)) == Some((pre, build))
    ensures var tail := Marked("-", pre) + Marked("+", build); tail == "" || !IsDigit(tail[0])
  {
    TagStops(pre, '-', Marked("+", build));
    TagStops(build, '+', "");
    assert Marked("+", build) + "" == Marked("+", build);
  }

  /** The parser finds exactly the groups of a text, so a text has at most one reading. */
  lemma ParseText(m: Match)
    requires Groups(m)
    ensures Parse(Text(m)) == Some(m)
  {
    var tail := Marked("-", m.pre) + Marked("+", m.build);
    TagsStop(m.pre, m.build);
    NumberStops(m.patch, tail);
    DottedStops(m.minor, m.patch + tail);
    DottedStops(m.major, m.minor + "." + (m.patch + tail));
  }

  lemma NumberSplits(s: string)
    requires Number(s).Some?
    ensures s == Number(s).value.0 + Number(s).value.1 && Number(s).value.0 != "" && AllOf(Number(s).value.0, IsDigit)
  {
    SpanHolds(s, IsDigit);
  }

  lemma DottedSplits(s: string)
    requires Dotted(s).Some?
    ensures s == Dotted(s).value.0 + "." + Dotted(s).value.1
    ensures Dotted(s).value.0 != "" && AllOf(Dotted(s).value.0, IsDigit)
  {
    NumberSplits(s);
    assert Number(s).value.1 == "." + Number(s).value.1[1..];
  }

  lemma TagSplits(s: string, mark: char)
    requires Tag(s, mark).Some?
    ensures s == Marked([mark], Tag(s, mark).value.0) + Tag(s, mark).value.1
    ensures var tag := Tag(s, mark).value.0; tag.Some? ==> tag.value != "" && AllOf(tag.value, IsTagChar)
  {
    var (tag, rest) := Tag(s, mark).value;
    if tag.Some? {
      SpanHolds(s[1..], IsTagChar);
      assert s == [mark] + s[1..];
      assert s[1..] == tag.value + rest;
    }
  }

  /** Whatever parses is the text of its groups. */
  lemma ParseSound(s: string)
    requires Parse(s).Some?
    ensures Groups(Parse(s).value) && Text(Parse(s).value) == s
  {
    DottedSplits(s);
    var s1 := Dotted(s).value.1;
    DottedSplits(s1);
    var s2 := Dotted(s1).value.1;
    NumberSplits(s2);
    var tail := Number(s2).value.1;
    TagSplits(tail, '-');
    var rest := Tag(tail, '-').value.1;
    TagSplits(rest, '+');
    assert rest == Marked("+", Tag(rest, '+').value.0);
  }

  // ---------------------------------------------------------------------------------
  // Precedence

  /** Numbers are modelled without the rounding of JavaScript doubles. */
  function Value(digits: string): nat
    requires AllOf(digits, IsDigit)
  {
    if digits == "" then 0
    else 10 * Value(digits[..|digits| - 1]) + (digits[|digits| - 1] - '0') as nat
  }

  predicate Numeric(id: string) { id != "" && forall i :: 0 <= i < |id| ==> IsDigit(id[i]) }

  function Split(s: string): (parts: seq<string>)
    ensures parts != []
  {
    if s == "" then [""]
    else
      var rest := Split(s[1..]);
      if s[0] == '.' then [""] + rest else [[s[0]] + rest[0]] + rest[1..]
  }

  /** One identifier ranks below another: numbers by value, below texts, which rank by character codes. */
  ghost predicate IdBelow(x: string, y: string) {
    if Numeric(x) && Numeric(y) then Value(x) < Value(y)
    else if Numeric(x) || Numeric(y) then Numeric(x)
    else TextLe(x, y) && x != y
  }

  ghost predicate IdTies(x: string, y: string) { !IdBelow(x, y) && !IdBelow(y, x) }

  /** The first difference decides; without one the shorter list ranks below. */
  ghost predicate TagBelow(p: seq<string>, q: seq<string>) {
    exists k: nat :: TagBelowAt(p, q, k)
  }

  ghost predicate TagBelowAt(p: seq<string>, q: seq<string>, k: nat) {
    && k <= |p| && k < |q|
    && (forall j :: 0 <= j < k ==> IdTies(p[j], q[j]))
    && (k == |p| || IdBelow(p[k], q[k]))
  }

  datatype Version = Version(major: nat, minor: nat, patch: nat, pre: Option<seq<string>>)

  function VersionOf(m: Match): Version
    requires Groups(m)
  {
    Version(Value(m.major), Value(m.minor), Value(m.patch), if m.pre.Some? then Some(Split(m.pre.value)) else None)
  }

  ghost predicate CoreBelow(a: Version, b: Version) {
    || a.major < b.major
    || (a.major == b.major && a.minor < b.minor)
    || (a.major == b.major && a.minor == b.minor && a.patch < b.patch)
  }

  ghost predicate SameCore(a: Version, b: Version) {
    a.major == b.major && a.minor == b.minor && a.patch == b.patch
  }

  /** Lower precedence, as in section 11 of Semantic Versioning 2.0.0; build tags do not take part. */
  ghost predicate Below(a: Version, b: Version) {
    || CoreBelow(a, b)
    || (&& SameCore(a, b) && a.pre.Some?
        && (b.pre.None? || TagBelow(a.pre.value, b.pre.value)))
  }

  /** The three-way result of a comparison. */
  ghost predicate Ranks(a: Version, b: Version, order: int) {
    && (order == -1 <==> Below(a, b))
    && (order == 1 <==> Below(b, a))
    && -1 <= order <= 1
  }

  lemma IdOrder(x: string, y: string, z: string)
    ensures !(IdBelow(x, y) && IdBelow(y, x))
    ensures IdBelow(x, y) && IdBelow(y, z) ==> IdBelow(x, z)
    ensures IdTies(x, y) && IdTies(y, z) ==> IdTies(x, z)
    ensures IdBelow(x, y) && IdTies(y, z) ==> IdBelow(x, z)
    ensures IdTies(x, y) && IdBelow(y, z) ==> IdBelow(x, z)
  {
    TextTotal(x, y);
    TextTotal(y, z);
    TextTotal(x, z);
    if TextLe(x, y) && TextLe(y, z) {
      TextTransitive(x, y, z);
    }
    if TextLe(z, y) && TextLe(y, x) {
      TextTransitive(z, y, x);
    }
  }

  lemma TagAsymmetric(p: seq<string>, q: seq<string>)
    ensures !(TagBelow(p, q) && TagBelow(q, p))
  {
    if TagBelow(p, q) && TagBelow(q, p) {
      var k: nat :| TagBelowAt(p, q, k);
      var l: nat :| TagBelowAt(q, p, l);
      var m := if k < l then k else l;
      if m < |p| && m < |q| {
        IdOrder(p[m], q[m], p[m]);
      }
    }
  }

  /** The first difference of two lists in both directions: below, above, or a tie throughout. */
  lemma {:induction false} TagCompared(p: seq<string>, q: seq<string>, k: nat)
    requires k <= |p| && k <= |q| && forall j :: 0 <= j < k ==> IdTies(p[j], q[j])
    ensures TagBelow(p, q) || TagBelow(q, p) || (|p| == |q| && forall j :: 0 <= j < |p| ==> IdTies(p[j], q[j]))
    decreases |p| - k
  {
    if k == |p| && k < |q| {
      assert TagBelowAt(p, q, k);
    } else if k == |q| && k < |p| {
      assert TagBelowAt(q, p, k);
    } else if k < |p| {
      if IdBelow(p[k], q[k]) {
        assert TagBelowAt(p, q, k);
      } else if IdBelow(q[k], p[k]) {
        assert TagBelowAt(q, p, k);
      } else {
        TagCompared(p, q, k + 1);
      }
    }
  }

  /** Not below, in this order, is transitive: the comparison is a total preorder. */
  lemma TagBelowChain(p: seq<string>, q: seq<string>, r: seq<string>)
    requires TagBelow(p, q) && !TagBelow(r, q)
    ensures TagBelow(p, r)
  {
    var k: nat :| TagBelowAt(p, q, k);
    TagCompared(q, r, 0);
    var l := if TagBelow(q, r) then var l: nat :| TagBelowAt(q, r, l); l else |q|;
    var m := if k < l then k else l;
    forall j | 0 <= j < m
      ensures IdTies(p[j], r[j])
    {
      IdOrder(p[j], q[j], r[j]);
    }
    if m < |p| && m < |q| && m < |r| {
      IdOrder(p[m], q[m], r[m]);
    }
    assert TagBelowAt(p, r, m);
  }

  /** Antisymmetric in sign. */
  lemma BelowAsymmetric(a: Version, b: Version)
    ensures !(Below(a, b) && Below(b, a))
  {
    if a.pre.Some? && b.pre.Some? {
      TagAsymmetric(a.pre.value, b.pre.value);
    }
  }

  /** If `a` ranks below `b` and `c` does not, then `a` ranks below `c`: precedence is a strict weak order. */
  lemma BelowChain(a: Version, b: Version, c: Version)
    requires Below(a, b) && !Below(c, b)
    ensures Below(a, c)
  {
    if SameCore(a, b) && SameCore(b, c) && a.pre.Some? && b.pre.Some? && c.pre.Some? {
      TagBelowChain(a.pre.value, b.pre.value, c.pre.value);
    }
  }

  // ---------------------------------------------------------------------------------
  // Well-formed versions

  /** Numbers carry no leading zero. */
  predicate ZeroFree(id: string) { Numeric(id) && |id| > 1 ==> id[0] != '0' }

  /** What Semantic Versioning asks of a version beyond the pattern. */
  ghost predicate WellFormed(v: Version) {
    v.pre.Some? ==> forall i :: 0 <= i < |v.pre.value| ==> v.pre.value[i] != "" && ZeroFree(v.pre.value[i])
  }

  lemma {:induction false} ValuePositive(d: string)
    requires Numeric(d) && d[0] != '0'
    ensures Value(d) >= 1
  {
    if |d| > 1 {
      ValuePositive(d[..|d| - 1]);
    } else {
      assert d[..0] == "";
    }
  }

  lemma {:induction false} ValueUnique(x: string, y: string)
    requires Numeric(x) && Numeric(y) && ZeroFree(x) && ZeroFree(y)
    requires Value(x) == Value(y)
    ensures x == y
    decreases |x|
  {
    var x', y' := x[..|x| - 1], y[..|y| - 1];
    assert x == x' + [x[|x| - 1]] && y == y' + [y[|y| - 1]];
    assert x[|x| - 1] == y[|y| - 1] && Value(x') == Value(y');
    if |x| > 1 {
      ValuePositive(x');
    }
    if |y| > 1 {
      ValuePositive(y');
    }
    if |x| > 1 && |y| > 1 {
      ValueUnique(x', y');
    }
  }

  /** Two well-formed versions tie only when they agree in everything but the build tag. */
  lemma WellFormedTies(a: Version, b: Version)
    requires WellFormed(a) && WellFormed(b) && !Below(a, b) && !Below(b, a)
    ensures a == b
  {
    if a.pre.Some? && b.pre.Some? {
      var p, q := a.pre.value, b.pre.value;
      TagCompared(p, q, 0);
      forall j | 0 <= j < |p|
        ensures p[j] == q[j]
      {
        TextTotal(p[j], q[j]);
        if Numeric(p[j]) && Numeric(q[j]) {
          ValueUnique(p[j], q[j]);
        }
      }
      assert p == q;
    }
  }

  // ---------------------------------------------------------------------------------
  // The comparison

  method CompareCores(a: Version, b: Version) returns (order: int)
    ensures order == -1 <==> CoreBelow(a, b)
    ensures order == 1 <==> CoreBelow(b, a)
    ensures order == 0 <==> SameCore(a, b)
    ensures -1 <= order <= 1
  {
    var left, right := [a.major, a.minor, a.patch], [b.major, b.minor, b.patch];
    for index := 0 to 3
      invariant forall j :: 0 <= j < index ==> left[j] == right[j]
    {
      assert (index > 0 ==> left[0] == right[0]) && (index > 1 ==> left[1] == right[1]);
      if left[index] != right[index] {
        return if left[index] < right[index] then -1 else 1;
      }
    }
    assert left[0] == right[0] && left[1] == right[1] && left[2] == right[2];
    order := 0;
  }

  method CompareIds(x: string, y: string) returns (order: int)
    ensures order == -1 <==> IdBelow(x, y)
    ensures order == 1 <==> IdBelow(y, x)
    ensures -1 <= order <= 1
  {
    TextTotal(x, y);
    var xNumeric, yNumeric := Numeric(x), Numeric(y);
    if xNumeric && yNumeric {
      var difference := Value(x) - Value(y);
      return if difference < 0 then -1 else if difference > 0 then 1 else 0;
    } else if xNumeric != yNumeric {
      return if xNumeric then -1 else 1;
    }
    order := if x != y && TextLe(x, y) then -1 else if x != y then 1 else 0;
  }

  method CompareTags(p: seq<string>, q: seq<string>) returns (order: int)
    ensures order == -1 <==> TagBelow(p, q)
    ensures order == 1 <==> TagBelow(q, p)
    ensures -1 <= order <= 1
  {
    TagAsymmetric(p, q);
    var index := 0;
    while index < |p| || index < |q|
      invariant index <= |p| && index <= |q|
      invariant forall j :: 0 <= j < index ==> IdTies(p[j], q[j])
      decreases |p| - index
    {
      if index == |p| {
        assert TagBelowAt(p, q, index);
        return -1;
      }
      if index == |q| {
        assert TagBelowAt(q, p, index);
        return 1;
      }
      var here := CompareIds(p[index], q[index]);
      if here != 0 {
        assert here == -1 ==> TagBelowAt(p, q, index);
        assert here == 1 ==> TagBelowAt(q, p, index);
        return here;
      }
      index := index + 1;
    }
    order := 0;
  }

  /** `compareVersions`: defined exactly on the texts of the pattern, and the sign of their precedence. */
  method CompareVersions(left: string, right: string) returns (result: Result<int, string>)
    ensures result.Err? <==> Parse(left).None? || Parse(right).None?
    ensures result.Ok? ==>
      && Groups(Parse(left).value) && Groups(Parse(right).value)
      && Ranks(VersionOf(Parse(left).value), VersionOf(Parse(right).value), result.value)
  {
    var m, n := Parse(left), Parse(right);
    if m.None? || n.None? {
      return Err("Cannot compare installed and registry versions.");
    }
    ParseSound(left);
    ParseSound(right);
    var a, b := VersionOf(m.value), VersionOf(n.value);
    BelowAsymmetric(a, b);
    var core := CompareCores(a, b);
    if core != 0 {
      return Ok(core);
    }
    if a.pre.None? && b.pre.None? {
      return Ok(0);
    }
    if a.pre.None? {
      return Ok(1);
    }
    if b.pre.None? {
      return Ok(-1);
    }
    var order := CompareTags(a.pre.value, b.pre.value);
    result := Ok(order);
  }

  /** The chain of section 11 of Semantic Versioning 2.0.0, each version below the next. */
  const RISING: seq<Version> := [
    Version(1, 0, 0, Some(["alpha"])), Version(1, 0, 0, Some(["alpha", "1"])), Version(1, 0, 0, Some(["alpha", "beta"])),
    Version(1, 0, 0, Some(["beta"])), Version(1, 0, 0, Some(["beta", "2"])), Version(1, 0, 0, Some(["beta", "11"])),
    Version(1, 0, 0, Some(["rc", "1"])), Version(1, 0, 0, None), Version(1, 0, 9, None), Version(1, 2, 0, None),
    Version(1, 10, 0, None), Version(2, 0, 0, Some(["0"])), Version(2, 0, 0, None)]

  lemma PrecedenceRises(i: nat)
    requires i + 1 < |RISING|
    ensures Below(RISING[i], RISING[i + 1])
  {
    var a, b := RISING[i], RISING[i + 1];
    if i < 6 {
      TagRises(i);
    }
  }

  lemma TagRises(i: nat)
    requires i < 6
    ensures TagBelow(RISING[i].pre.value, RISING[i + 1].pre.value)
  {
    var p, q := RISING[i].pre.value, RISING[i + 1].pre.value;
    Identifiers();
    var k := if i in {0, 1, 3, 4} then 1 else 0;
    assert TagBelowAt(p, q, k);
  }

  lemma Identifiers()
    ensures IdBelow("1", "beta") && IdBelow("2", "11") && IdBelow("alpha", "beta") && IdBelow("beta", "rc")
    ensures IdTies("alpha", "alpha") && IdTies("beta", "beta")
  {
    assert !IsDigit("alpha"[0]) && !IsDigit("beta"[0]) && !IsDigit("rc"[0]);
    assert "2"[..0] == "" && "11"[..1] == "1" && "1"[..0] == "";
    assert Value("") == 0 && Value("1") == 1 && Value("2") == 2 && Value("11") == 11;
  }
}
