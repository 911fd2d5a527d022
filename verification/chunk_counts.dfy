/** How many parents hierarchical_chunks makes of a text, and texts that reach that number: engine/knowledge.py. */
module ChunkCounts {
  import opened Text
  import opened Chunking

  /** Characters and separators the paragraphs take up. */
  function Length(parts: seq<string>): nat {
    if parts == [] then 0 else |parts[0]| + 2 + Length(parts[1..])
  }

  lemma {:induction false} LengthConcat(a: seq<string>, b: seq<string>)
    ensures Length(a + b) == Length(a) + Length(b)
  {
    if a == [] {
      assert a + b == b;
    } else {
      assert (a + b)[1..] == a[1..] + b;
      LengthConcat(a[1..], b);
    }
  }

  lemma {:induction false} SplitLength(s: string, i: nat)
    requires i <= |s|
    ensures Length(SplitParagraphs(s, i)) <= |s| + 2
    decreases |s|, |s| - i
  {
    if i < |s| {
      if MatchEnd(s, i) == 0 {
        SplitLength(s, i + 1);
      } else {
        SplitLength(s[MatchEnd(s, i)..], 0);
        LengthConcat([s[..i]], SplitParagraphs(s[MatchEnd(s, i)..]));
      }
    }
  }

  lemma {:induction false} StrippedLength(parts: seq<string>)
    ensures Length(Stripped(parts)) <= Length(parts)
  {
    if parts != [] {
      StrippedLength(parts[1..]);
      LengthConcat(Kept(Strip(parts[0])), Stripped(parts[1..]));
    }
  }

  lemma {:induction false} UnixNewlinesLength(s: string)
    ensures |UnixNewlines(s)| <= |s|
  {
    if s != "" {
      UnixNewlinesLength(if s[0] == '\r' && |s| > 1 && s[1] == '\n' then s[2..] else s[1..]);
    }
  }

  lemma ParagraphsLength(text: string)
    ensures Length(Paragraphs(text)) <= |text| + 2
  {
    UnixNewlinesLength(text);
    SplitLength(Strip(UnixNewlines(text)), 0);
    StrippedLength(SplitParagraphs(Strip(UnixNewlines(text))));
  }

  /** Twice the characters n pieces of a long text take: all but the last take half a size, the last two a whole one. */
  function Span(n: nat, size: nat): nat {
    if n <= 2 then 2 * size + 2 else Span(n - 1, size) + size + 3
  }

  lemma WindowSpan(text: string, start: nat, size: nat)
    requires size >= 3 && start < |text|
    ensures var end := WindowEnd(text, start, size);
            if |text| - start <= size then end == |text| else 2 * (end - start) >= size + 3
  {
  }

  lemma PiecesLength(text: string, start: nat, size: nat)
    requires size > 0 && start < |text|
    ensures var end := WindowEnd(text, start, size);
            |Pieces(text, start, size, 0)| <= 1 + if end >= |text| then 0 else |Pieces(text, end, size, 0)|
  {
  }

  lemma {:induction false} PiecesCount(text: string, start: nat, size: nat, n: nat)
    requires size >= 3 && start < |text| && n == |Pieces(text, start, size, 0)|
    ensures if |text| - start <= size then n <= 1 else Span(n, size) <= 2 * (|text| - start)
    decreases |text| - start
  {
    var end := WindowEnd(text, start, size);
    WindowSpan(text, start, size);
    PiecesLength(text, start, size);
    if end < |text| {
      var more := |Pieces(text, end, size, 0)|;
      PiecesCount(text, end, size, more);
      SpanGrows(n, more + 1, size);
    }
  }

  lemma {:induction false} SpanGrows(m: nat, n: nat, size: nat)
    requires m <= n
    ensures Span(m, size) <= Span(n, size)
  {
    if m < n { SpanGrows(m, n - 1, size); }
  }

  /** n * (size + 6), three times the characters of n parents. */
  function Need(n: nat, size: nat): nat {
    if n == 0 then 0 else Need(n - 1, size) + size + 6
  }

  lemma {:induction false} NeedSum(k: nat, n: nat, size: nat)
    ensures Need(k + n, size) == Need(k, size) + Need(n, size)
  {
    if n > 0 { NeedSum(k, n - 1, size); }
  }

  lemma {:induction false} NeedProduct(n: nat, size: nat)
    ensures Need(n, size) == n * (size + 6)
  {
    if n > 0 { NeedProduct(n - 1, size); }
  }

  lemma {:induction false} NeedSpan(n: nat, size: nat)
    requires size >= 3
    ensures n <= 2 ==> 2 * Need(n, size) <= 4 * size + 24
    ensures n >= 2 ==> 2 * Need(n, size) <= 3 * Span(n, size) + 18 - 2 * size
  {
    if n >= 3 {
      NeedSpan(n - 1, size);
    } else if n == 2 {
      assert Need(1, size) == size + 6;
    }
  }

  /** A bound on (size + 6) times the pieces of a text of this length. */
  function Cost(length: nat, size: nat): int {
    if length <= size then size + 6 else 3 * length + 9 - size
  }

  lemma HardSplitCount(text: string, size: nat)
    requires size >= 3 && text != ""
    ensures Need(|HardSplit(text, size, 0)|, size) <= Cost(|text|, size)
  {
    if |text| <= size {
      assert Need(1, size) == size + 6;
    } else {
      PiecesCount(text, 0, size, |Pieces(text, 0, size, 0)|);
      NeedSpan(|Pieces(text, 0, size, 0)|, size);
    }
  }

  /** The costs of all that packing splits, when `length` characters are already gathered. */
  function Costs(length: nat, paragraphs: seq<string>, size: nat): int
    decreases |paragraphs|
  {
    if paragraphs == [] then Cost(length, size)
    else if length + 2 + |paragraphs[0]| > size then Cost(length, size) + Costs(|paragraphs[0]|, paragraphs[1..], size)
    else Costs(length + 2 + |paragraphs[0]|, paragraphs[1..], size)
  }

  ghost predicate Affords(texts: seq<string>, cost: int, size: nat) {
    Need(|texts|, size) <= cost
  }

  lemma AffordsConcat(a: seq<string>, b: seq<string>, x: int, y: int, size: nat)
    requires Affords(a, x, size) && Affords(b, y, size)
    ensures Affords(a + b, x + y, size)
  {
    NeedSum(|a|, |b|, size);
  }

  lemma PackFlush(current: string, paragraphs: seq<string>, size: nat)
    requires size >= 3 && current != "" && paragraphs != [] && |current| + 2 + |paragraphs[0]| > size
    requires Affords(Pack(paragraphs[0], paragraphs[1..], size), Costs(|paragraphs[0]|, paragraphs[1..], size), size)
    ensures Affords(Pack(current, paragraphs, size), Costs(|current|, paragraphs, size), size)
  {
    HardSplitCount(current, size);
    AffordsConcat(HardSplit(current, size, 0), Pack(paragraphs[0], paragraphs[1..], size),
                  Cost(|current|, size), Costs(|paragraphs[0]|, paragraphs[1..], size), size);
  }

  lemma {:induction false} PackCosts(current: string, paragraphs: seq<string>, size: nat)
    requires size >= 3 && current != "" && "" !in paragraphs
    ensures Affords(Pack(current, paragraphs, size), Costs(|current|, paragraphs, size), size)
    decreases |paragraphs|
  {
    if paragraphs == [] {
      HardSplitCount(current, size);
    } else {
      var p, rest := paragraphs[0], paragraphs[1..];
      assert p in paragraphs && ("" in rest ==> "" in paragraphs);
      if |current| + 2 + |p| > size {
        PackCosts(p, rest, size);
        PackFlush(current, paragraphs, size);
      } else {
        PackCosts(Appended(current, p), rest, size);
      }
    }
  }

  /** Gathered characters pay for the next parent: three units each. */
  lemma {:induction false} CostsBound(length: nat, paragraphs: seq<string>, size: nat)
    requires size >= 3 && length > 0 && "" !in paragraphs
    ensures Costs(length, paragraphs, size) <= 3 * (length + Length(paragraphs))
            + if size > 3 * length then size + 6 - 3 * length else 6
    decreases |paragraphs|
  {
    if paragraphs != [] {
      var p, rest := paragraphs[0], paragraphs[1..];
      assert p in paragraphs && ("" in rest ==> "" in paragraphs);
      CostsBound(if length + 2 + |p| > size then |p| else length + 2 + |p|, rest, size);
    }
  }

  /** At most three parents per parentSize + 6 characters. */
  lemma ParentsCount(text: string, size: nat)
    requires size >= 3
    ensures |Pack("", Paragraphs(text), size)| * (size + 6) <= 3 * |text| + size + 3
  {
    ParagraphsLength(text);
    ParagraphsKeepInk(text);
    var ps := Paragraphs(text);
    NeedProduct(|Pack("", ps, size)|, size);
    if ps != [] {
      assert Blank("") && ps[0] in ps && ("" in ps[1..] ==> "" in ps);
      PackCosts(ps[0], ps[1..], size);
      CostsBound(|ps[0]|, ps[1..], size);
    }
  }

  // ------------------------------------------------------------ texts made of given paragraphs

  /** Non-empty, without white space at its ends, carriage returns or blank lines inside. */
  ghost predicate Clean(p: string) {
    && p != "" && !IsSpace(p[0]) && !IsSpace(p[|p| - 1]) && '\r' !in p
    && forall i, k :: !GapAt(p, i, k)
  }

  ghost predicate AllClean(paragraphs: seq<string>) {
    forall k | 0 <= k < |paragraphs| :: Clean(paragraphs[k])
  }

  lemma GapIsMatch(s: string, i: nat)
    requires i < |s| && MatchEnd(s, i) > 0
    ensures GapAt(s, i, MatchEnd(s, i) - 1)
  {
    var tail := s[i + 1..];
    LeadingSpacesCut(tail);
    forall j | i < j < MatchEnd(s, i) ensures IsSpace(s[j]) { assert s[j] == s[i..MatchEnd(s, i)][j - i]; }
  }

  lemma SkipOne(s: string, i: nat)
    requires i < |s| && MatchEnd(s, i) == 0
    ensures SplitParagraphs(s, i) == SplitParagraphs(s, i + 1)
  {
  }

  lemma SkipTo(s: string, i: nat, n: nat)
    requires i <= n <= |s| && forall j | i <= j < n :: MatchEnd(s, j) == 0
    ensures SplitParagraphs(s, i) == SplitParagraphs(s, n)
  {
    for k := i to n
      invariant SplitParagraphs(s, i) == SplitParagraphs(s, k)
    {
      SkipOne(s, k);
    }
  }

  /** No match begins inside a clean paragraph, whatever follows it. */
  lemma NoMatchInside(p: string, more: string, i: nat)
    requires Clean(p) && i < |p|
    ensures MatchEnd(p + more, i) == 0
  {
    var s := p + more;
    if MatchEnd(s, i) > 0 {
      var k := MatchEnd(s, i) - 1;
      GapIsMatch(s, i);
      var last := |p| - 1;
      assert s[last] == p[last] && !IsSpace(s[last]);
      assert k < |p|;
      assert GapAt(p, i, k) by { forall j | i < j < k ensures IsSpace(p[j]) { assert p[j] == s[j]; } }
    }
  }

  lemma GapBetween(p: string, rest: string)
    requires rest != "" && !IsSpace(rest[0])
    ensures MatchEnd(p + "\n\n" + rest, |p|) == |p| + 2
  {
    var s := p + "\n\n" + rest;
    assert GapAt(s, |p|, |p| + 1);
    MatchIsGap(s, |p|, |p| + 1);
    GapIsMatch(s, |p|);
    assert s[|p| + 2] == rest[0];
  }

  lemma {:induction false} JoinedEnds(ps: seq<string>)
    requires AllClean(ps) && ps != []
    ensures var s := Joined(ps); s != "" && !IsSpace(s[0]) && !IsSpace(s[|s| - 1]) && '\r' !in s
  {
    if |ps| > 1 {
      JoinedEnds(ps[1..]);
      var s, t := Joined(ps), Joined(ps[1..]);
      assert s == ps[0] + ("\n\n" + t);
      assert s[|s| - 1] == t[|t| - 1];
    }
  }

  lemma SplitLast(p: string)
    requires Clean(p)
    ensures SplitParagraphs(p) == [p]
  {
    forall j | 0 <= j < |p| ensures MatchEnd(p, j) == 0 {
      assert p + "" == p;
      NoMatchInside(p, "", j);
    }
    SkipTo(p, 0, |p|);
  }

  lemma SplitFirst(p: string, t: string)
    requires Clean(p) && t != "" && !IsSpace(t[0])
    ensures SplitParagraphs(p + "\n\n" + t) == [p] + SplitParagraphs(t)
  {
    var s := p + "\n\n" + t;
    assert s == p + ("\n\n" + t);
    forall j | 0 <= j < |p| ensures MatchEnd(s, j) == 0 { NoMatchInside(p, "\n\n" + t, j); }
    SkipTo(s, 0, |p|);
    GapBetween(p, t);
    assert s[..|p|] == p && s[|p| + 2..] == t;
  }

  lemma {:induction false} SplitJoined(ps: seq<string>)
    requires AllClean(ps) && ps != []
    ensures SplitParagraphs(Joined(ps)) == ps
  {
    var rest := ps[1..];
    assert Clean(ps[0]);
    if rest == [] {
      SplitLast(ps[0]);
    } else {
      JoinedEnds(rest);
      SplitJoined(rest);
      SplitFirst(ps[0], Joined(rest));
      assert ps == [ps[0]] + rest;
    }
  }

  lemma {:induction false} StrippedClean(ps: seq<string>)
    requires AllClean(ps)
    ensures Stripped(ps) == ps
  {
    if ps != [] { StrippedClean(ps[1..]); }
  }

  lemma {:induction false} UnixAlready(s: string)
    requires '\r' !in s
    ensures UnixNewlines(s) == s
  {
    if s != "" { UnixAlready(s[1..]); }
  }

  /** Splitting into paragraphs undoes joining them with blank lines. */
  lemma ParagraphsOfJoined(ps: seq<string>)
    requires AllClean(ps) && ps != []
    ensures Paragraphs(Joined(ps)) == ps
  {
    JoinedEnds(ps);
    UnixAlready(Joined(ps));
    SplitJoined(ps);
    StrippedClean(ps);
  }

  // ------------------------------------------------------------ the texts with the most parents

  function Letters(n: nat): (s: string)
    ensures |s| == n && forall i | 0 <= i < n :: s[i] == 'x'
  {
    seq(n, i => 'x')
  }

  /** `pairs` times a short paragraph and one a character longer than a parent may be. */
  function ShortAndLong(pairs: nat, size: nat): seq<string> {
    if pairs == 0 then [] else ["x", Letters(size + 1)] + ShortAndLong(pairs - 1, size)
  }

  function DenseText(pairs: nat, size: nat): string {
    Joined([Letters(size + 1)] + ShortAndLong(pairs, size))
  }

  lemma LettersClean(n: nat)
    requires n > 0
    ensures Clean(Letters(n)) && Clean("x")
  {
    assert forall i, k :: !GapAt(Letters(n), i, k);
    assert forall i, k :: !GapAt("x", i, k);
  }

  lemma {:induction false} DenseShape(pairs: nat, size: nat)
    ensures AllClean([Letters(size + 1)] + ShortAndLong(pairs, size))
    ensures |DenseText(pairs, size)| == pairs * (size + 6) + size + 1
    ensures forall c | c in DenseText(pairs, size) :: c == 'x' || c == '\n'
  {
    var long := Letters(size + 1);
    var ps := [long] + ShortAndLong(pairs, size);
    LettersClean(size + 1);
    if pairs > 0 {
      DenseShape(pairs - 1, size);
      var rest := [long] + ShortAndLong(pairs - 1, size);
      assert ps == [long, "x"] + rest;
      assert ps[1..] == ["x"] + rest && ps[1..][1..] == rest;
      assert Joined(ps) == long + "\n\n" + Joined(["x"] + rest);
      assert (["x"] + rest)[1..] == rest;
      assert Joined(["x"] + rest) == "x" + "\n\n" + Joined(rest);
    }
  }

  lemma LongSplits(size: nat)
    requires size > 0
    ensures |HardSplit(Letters(size + 1), size, 0)| == 2
  {
    var t := Letters(size + 1);
    assert WindowEnd(t, 0, size) == size;
    assert Pieces(t, size, size, 0) == Kept(Strip(t[size..size + 1]));
    assert Pieces(t, 0, size, 0) == Kept(Strip(t[0..size])) + Pieces(t, size, size, 0);
    assert t[0..size] == Letters(size) && t[size..size + 1] == Letters(1);
  }

  lemma {:induction false} DensePack(pairs: nat, size: nat)
    requires size > 0
    ensures |Pack(Letters(size + 1), ShortAndLong(pairs, size), size)| == 3 * pairs + 2
  {
    var long, ps := Letters(size + 1), ShortAndLong(pairs, size);
    LongSplits(size);
    if pairs > 0 {
      DensePack(pairs - 1, size);
      var rest := ShortAndLong(pairs - 1, size);
      assert ps[0] == "x" && ps[1..] == [long] + rest && ps[1..][0] == long && ps[1..][1..] == rest;
      assert Pack("x", ps[1..], size) == HardSplit("x", size, 0) + Pack(long, rest, size);
    }
  }

  /**
   * The bound is reached up to less than one parent: this text gives three parents per size + 6 characters, and two
   * more.
   */
  lemma DenseTextParents(pairs: nat, size: nat)
    requires size > 0
    ensures |DenseText(pairs, size)| == pairs * (size + 6) + size + 1
    ensures |Pack("", Paragraphs(DenseText(pairs, size)), size)| == 3 * pairs + 2
  {
    var ps := [Letters(size + 1)] + ShortAndLong(pairs, size);
    DenseShape(pairs, size);
    ParagraphsOfJoined(ps);
    assert ps[1..] == ShortAndLong(pairs, size);
    DensePack(pairs, size);
  }
}
