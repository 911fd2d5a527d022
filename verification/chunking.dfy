/** Hierarchical chunking of a document: engine/knowledge.py. */
module Chunking {
  import opened Text

  // ------------------------------------------------------------ library calls

  /** re.sub(r"\r\n?", "\n", s) */
  function UnixNewlines(s: string): string {
    if s == "" then ""
    else if s[0] != '\r' then [s[0]] + UnixNewlines(s[1..])
    else ['\n'] + UnixNewlines(if |s| > 1 && s[1] == '\n' then s[2..] else s[1..])
  }

  /** Each of "\r\n", "\r" and "\n" becomes one "\n", and every other character stays: piece by piece. */
  lemma UnixNewlinesOf(c: char)
    ensures UnixNewlines("") == "" && UnixNewlines("\r\n") == "\n"
    ensures UnixNewlines([c]) == if c == '\r' then "\n" else [c]
  {
  }

  /** How many characters make the first line break or other character. */
  function FirstUnit(s: string): (n: nat)
    requires s != ""
    ensures 0 < n <= |s|
  {
    if |s| > 1 && s[0] == '\r' && s[1] == '\n' then 2 else 1
  }

  lemma UnixStep(s: string)
    requires s != ""
    ensures UnixNewlines(s) == [if s[0] == '\r' then '\n' else s[0]] + UnixNewlines(s[FirstUnit(s)..])
  {
  }

  /** Wherever a text is cut, except inside a "\r\n", the parts can be done one by one. */
  lemma {:induction false} UnixNewlinesConcat(a: string, b: string)
    requires a == "" || b == "" || !(a[|a| - 1] == '\r' && b[0] == '\n')
    ensures UnixNewlines(a + b) == UnixNewlines(a) + UnixNewlines(b)
    decreases |a|
  {
    if a == "" {
      assert a + b == b;
    } else {
      var n := FirstUnit(a);
      UnixStep(a);
      UnixStep(a + b);
      assert FirstUnit(a + b) == n && (a + b)[n..] == a[n..] + b;
      UnixNewlinesConcat(a[n..], b);
    }
  }

  /** s.rfind(c, lo, hi): the last position of c in s[lo..hi], or -1. */
  function RFind(s: string, c: char, lo: nat, hi: nat): (k: int)
    requires lo <= hi <= |s|
    ensures k == -1 || (lo <= k < hi && s[k] == c)
    decreases hi
  {
    if lo == hi then -1
    else if s[hi - 1] == c then hi - 1
    else RFind(s, c, lo, hi - 1)
  }

  /** A match of \n\s*\n that begins at i ends here: \s* is greedy, so at the last newline of the run. 0 if none. */
  function MatchEnd(s: string, i: nat): (e: nat)
    requires i < |s|
    ensures e == 0 || (i + 1 < e <= |s| && Blank(s[i..e]))
  {
    if s[i] != '\n' then 0 else
      var run := i + 1 + LeadingSpaces(s[i + 1..]);
      var k := RFind(s, '\n', i + 1, run);
      LeadingSpacesCut(s[i + 1..]);
      assert forall j | i + 1 <= j < run :: s[j] == s[i + 1..][j - (i + 1)];
      if k < 0 then 0 else k + 1
  }

  /** re.split(r"\n\s*\n", s), scanning from i. */
  function SplitParagraphs(s: string, i: nat := 0): (parts: seq<string>)
    requires i <= |s|
    decreases |s|, |s| - i
  {
    if i == |s| then [s]
    else if MatchEnd(s, i) == 0 then SplitParagraphs(s, i + 1)
    else [s[..i]] + SplitParagraphs(s[MatchEnd(s, i)..])
  }

  /** "".join(parts) */
  function Join(parts: seq<string>): string {
    if parts == [] then "" else parts[0] + Join(parts[1..])
  }

  function Stripped(parts: seq<string>): seq<string> {
    if parts == [] then []
    else (if Strip(parts[0]) == "" then [] else [Strip(parts[0])]) + Stripped(parts[1..])
  }

  // ------------------------------------------------------------ _hard_split

  predicate ValidSizes(size: int, overlap: int) {
    size > 0 && 0 <= overlap < size
  }

  /**
   * Where the window that starts here ends: after the last newline or full stop of its second half, if there is one.
   */
  function WindowEnd(text: string, start: nat, size: nat): (end: nat)
    requires start < |text| && size > 0
    ensures start < end <= start + size && end <= |text|
  {
    var hard := if start + size < |text| then start + size else |text|;
    if hard == |text| then hard else
      var line, stop := RFind(text, '\n', start, hard), RFind(text, '\U{3002}', start, hard);
      var boundary := if line > stop then line else stop;
      if boundary > start + size / 2 then boundary + 1 else hard
  }

  function NextStart(start: nat, end: nat, overlap: nat): (next: nat)
    requires start < end
    ensures start < next <= end
    ensures overlap == 0 ==> next == end
  {
    if end - overlap > start + 1 then end - overlap else start + 1
  }

  /** The stripped, non-blank windows from start on. */
  function Pieces(text: string, start: nat, size: nat, overlap: nat): seq<string>
    requires size > 0
    decreases |text| - start
  {
    if start >= |text| then [] else
      var end := WindowEnd(text, start, size);
      Kept(Strip(text[start..end]))
        + if end >= |text| then [] else Pieces(text, NextStart(start, end, overlap), size, overlap)
  }

  function Kept(value: string): seq<string> {
    if value == "" then [] else [value]
  }

  /** _hard_split for valid sizes. */
  function HardSplit(text: string, size: nat, overlap: nat): seq<string>
    requires ValidSizes(size, overlap)
  {
    if |text| <= size then [Strip(text)] else Pieces(text, 0, size, overlap)
  }

  /** None is the ValueError. */
  method HardSplitLoop(text: string, size: int, overlap: int) returns (chunks: Option<seq<string>>)
    ensures chunks.Some? <==> size > 0 && 0 <= overlap < size
    ensures chunks.Some? ==> chunks.value == HardSplit(text, size, overlap)
  {
    if size <= 0 || overlap < 0 || overlap >= size { return None; }
    if |text| <= size { return Some([Strip(text)]); }
    var out: seq<string> := [];
    var start: nat := 0;
    while start < |text|
      invariant out + Pieces(text, start, size, overlap) == Pieces(text, 0, size, overlap)
      decreases |text| - start
    {
      PiecesStep(text, start, size, overlap, out);
      var end := WindowEnd(text, start, size);
      var value := Strip(text[start..end]);
      if value != "" { out := out + [value]; }
      if end >= |text| { return Some(out); }
      start := NextStart(start, end, overlap);
    }
    return Some(out);
  }

  lemma PiecesStep(text: string, start: nat, size: nat, overlap: nat, out: seq<string>)
    requires size > 0 && start < |text|
    ensures var end := WindowEnd(text, start, size);
            var out' := if Strip(text[start..end]) == "" then out else out + [Strip(text[start..end])];
            out + Pieces(text, start, size, overlap)
            == if end >= |text| then out' else out' + Pieces(text, NextStart(start, end, overlap), size, overlap)
  {
    var end := WindowEnd(text, start, size);
    var kept := Kept(Strip(text[start..end]));
    var rest := if end >= |text| then [] else Pieces(text, NextStart(start, end, overlap), size, overlap);
    Reassociate(out, kept, rest);
    assert Pieces(text, start, size, overlap) == kept + rest;
  }

  lemma Reassociate(a: seq<string>, b: seq<string>, c: seq<string>)
    ensures a + (b + c) == (a + b) + c && a + [] == a && (a + b) + [] == a + b
  {
  }

  // ------------------------------------------------------------ what hard splitting keeps

  /** Every piece is non-empty and fits; there are fewer pieces than characters. */
  lemma {:induction false} PiecesFit(text: string, start: nat, size: nat, overlap: nat)
    requires size > 0
    ensures forall p | p in Pieces(text, start, size, overlap) :: 0 < |p| <= size
    ensures |Pieces(text, start, size, overlap)| <= if start < |text| then |text| - start else 0
    decreases |text| - start
  {
    if start < |text| && WindowEnd(text, start, size) < |text| {
      PiecesFit(text, NextStart(start, WindowEnd(text, start, size), overlap), size, overlap);
    }
  }

  /** The windows from start on, blank ones included. */
  function Windows(text: string, start: nat, size: nat, overlap: nat): seq<(nat, nat)>
    requires size > 0
    decreases |text| - start
  {
    if start >= |text| then [] else
      var end := WindowEnd(text, start, size);
      [(start, end)] + if end >= |text| then [] else Windows(text, NextStart(start, end, overlap), size, overlap)
  }

  predicate InText(text: string, windows: seq<(nat, nat)>) {
    forall k | 0 <= k < |windows| :: windows[k].0 < windows[k].1 <= |text|
  }

  /** The stripped, non-blank contents of the windows, in order. */
  function Cut(text: string, windows: seq<(nat, nat)>): seq<string>
    requires InText(text, windows)
  {
    if windows == [] then [] else Kept(Strip(text[windows[0].0..windows[0].1])) + Cut(text, windows[1..])
  }

  predicate IsBoundary(c: char) {
    c == '\n' || c == '\U{3002}'
  }

  /**
   * A window ends at the end of the text if that is in reach; otherwise after the last newline or full stop in its
   * second half; and without one after `size` characters.
   */
  ghost predicate RightEnd(text: string, start: nat, end: nat, size: nat) {
    && start < end <= |text| && end <= start + size
    && if start + size >= |text| then end == |text|
       else if exists j :: start + size / 2 < j < start + size && IsBoundary(text[j]) then
         && start + size / 2 < end - 1 && IsBoundary(text[end - 1])
         && forall j | end <= j < start + size :: !IsBoundary(text[j])
       else end == start + size
  }

  /**
   * Windows of at most `size` characters lead from start to the end of the text. Each begins `overlap` characters
   * before the end of the one before it, or one character after its start if that is later.
   */
  ghost predicate Contiguous(text: string, windows: seq<(nat, nat)>, start: nat, size: nat, overlap: nat) {
    && InText(text, windows)
    && windows != [] && windows[0].0 == start
    && (forall k | 0 <= k < |windows| :: windows[k].1 == |text| <==> k == |windows| - 1)
    && (forall k | 0 <= k < |windows| :: RightEnd(text, windows[k].0, windows[k].1, size))
    && (forall k | 0 < k < |windows| ::
          windows[k].0 == if windows[k - 1].1 - overlap > windows[k - 1].0 then windows[k - 1].1 - overlap
                          else windows[k - 1].0 + 1)
  }

  /** Neighbouring windows share exactly `overlap` characters whenever the earlier one is longer than that. */
  lemma WindowsOverlap(text: string, windows: seq<(nat, nat)>, start: nat, size: nat, overlap: nat, k: nat)
    requires Contiguous(text, windows, start, size, overlap) && 0 < k < |windows|
    requires windows[k - 1].1 - windows[k - 1].0 > overlap
    ensures windows[k - 1].1 - windows[k].0 == overlap && windows[k - 1].0 < windows[k].0
  {
  }

  /** A text is cut in one way only. */
  lemma {:induction false} OneWayToCut(text: string, a: seq<(nat, nat)>, b: seq<(nat, nat)>, start: nat, size: nat,
                                       overlap: nat, k: nat)
    requires Contiguous(text, a, start, size, overlap) && Contiguous(text, b, start, size, overlap)
    requires k < |a| && k < |b|
    ensures a[k] == b[k]
  {
    if k > 0 { OneWayToCut(text, a, b, start, size, overlap, k - 1); }
    SameEnd(text, a[k].0, a[k].1, b[k].1, size);
  }

  lemma SameEnd(text: string, start: nat, end: nat, other: nat, size: nat)
    requires RightEnd(text, start, end, size) && RightEnd(text, start, other, size)
    ensures end == other
  {
  }

  lemma {:induction false} RFindLast(s: string, c: char, lo: nat, hi: nat, j: nat)
    requires lo <= j < hi <= |s| && s[j] == c
    ensures RFind(s, c, lo, hi) >= j
    decreases hi
  {
    if s[hi - 1] != c { RFindLast(s, c, lo, hi - 1, j); }
  }

  /** The window's end is the right one. */
  lemma WindowEndIsRight(text: string, start: nat, size: nat)
    requires start < |text| && size > 0
    ensures RightEnd(text, start, WindowEnd(text, start, size), size)
  {
    if start + size < |text| {
      forall j | start <= j < start + size && IsBoundary(text[j])
        ensures j <= RFind(text, '\n', start, start + size) || j <= RFind(text, '\U{3002}', start, start + size)
      {
        if text[j] == '\n' {
          RFindLast(text, '\n', start, start + size, j);
        } else {
          RFindLast(text, '\U{3002}', start, start + size, j);
        }
      }
    }
  }

  lemma ContiguousStep(text: string, start: nat, end: nat, more: seq<(nat, nat)>, size: nat, overlap: nat)
    requires RightEnd(text, start, end, size)
    requires end == |text| <==> more == []
    requires more != [] ==> Contiguous(text, more, NextStart(start, end, overlap), size, overlap)
    ensures Contiguous(text, [(start, end)] + more, start, size, overlap)
  {
    var all := [(start, end)] + more;
    forall k | 0 < k < |all| ensures all[k] == more[k - 1] {}
    assert more != [] ==> more[0].0 == NextStart(start, end, overlap);
  }

  lemma CutStep(text: string, w: (nat, nat), more: seq<(nat, nat)>)
    requires InText(text, more) && w.0 < w.1 <= |text|
    ensures InText(text, [w] + more) && Cut(text, [w] + more) == Kept(Strip(text[w.0..w.1])) + Cut(text, more)
  {
    var all := [w] + more;
    forall k | 0 < k < |all| ensures all[k] == more[k - 1] {}
    assert all[1..] == more;
  }

  /** The pieces are the windows' contents, and the windows leave no gap. */
  lemma {:induction false} PiecesAreWindows(text: string, start: nat, size: nat, overlap: nat)
    requires size > 0 && start < |text|
    ensures Contiguous(text, Windows(text, start, size, overlap), start, size, overlap)
    ensures Pieces(text, start, size, overlap) == Cut(text, Windows(text, start, size, overlap))
    decreases |text| - start
  {
    var end := WindowEnd(text, start, size);
    var more := if end >= |text| then [] else Windows(text, NextStart(start, end, overlap), size, overlap);
    if end < |text| { PiecesAreWindows(text, NextStart(start, end, overlap), size, overlap); }
    WindowEndIsRight(text, start, size);
    ContiguousStep(text, start, end, more, size, overlap);
    CutStep(text, (start, end), more);
  }

  /** The window that holds position p. */
  lemma {:induction false} WindowOf(text: string, windows: seq<(nat, nat)>, start: nat, size: nat, overlap: nat, p: nat,
                                    n: nat)
    returns (k: nat)
    requires Contiguous(text, windows, start, size, overlap) && n < |windows| && start <= p < windows[n].1
    ensures k < |windows| && windows[k].0 <= p < windows[k].1
  {
    if windows[n].0 <= p {
      k := n;
    } else {
      k := WindowOf(text, windows, start, size, overlap, p, n - 1);
    }
  }

  lemma {:induction false} CutAt(text: string, windows: seq<(nat, nat)>, k: nat)
    requires InText(text, windows) && k < |windows| && Strip(text[windows[k].0..windows[k].1]) != ""
    ensures |Cut(text, windows[..k])| < |Cut(text, windows)|
    ensures Cut(text, windows)[|Cut(text, windows[..k])|] == Strip(text[windows[k].0..windows[k].1])
  {
    if k > 0 {
      assert windows[..k][1..] == windows[1..][..k - 1];
      CutAt(text, windows[1..], k - 1);
    }
  }

  /** The character at p, if it is no white space, stands in a piece that is the slice a..b of the text. */
  lemma InkLiesInItsPiece(text: string, size: nat, overlap: nat, p: nat) returns (k: nat, a: nat, b: nat)
    requires ValidSizes(size, overlap) && p < |text| && !IsSpace(text[p])
    ensures var windows := Windows(text, 0, size, overlap);
            && Contiguous(text, windows, 0, size, overlap)
            && k < |windows| && windows[k].0 <= a <= p < b <= windows[k].1
            && |Cut(text, windows[..k])| < |HardSplit(text, size, overlap)|
            && HardSplit(text, size, overlap)[|Cut(text, windows[..k])|] == text[a..b]
  {
    var windows := Windows(text, 0, size, overlap);
    HardSplitCuts(text, size, overlap);
    k := WindowOf(text, windows, 0, size, overlap, p, |windows| - 1);
    a, b := StripAround(text, windows[k].0, windows[k].1, p);
    CutAt(text, windows, k);
  }

  lemma StripAround(text: string, lo: nat, hi: nat, p: nat) returns (a: nat, b: nat)
    requires lo <= p < hi <= |text| && !IsSpace(text[p])
    ensures lo <= a <= p < b <= hi && Strip(text[lo..hi]) == text[a..b]
  {
    var w := text[lo..hi];
    var c, d := StripCut(w);
    assert w[p - lo] == text[p];
    SliceOfSlice(text, lo, hi, c, d);
    a, b := lo + c, lo + d;
  }

  lemma HardSplitCuts(text: string, size: nat, overlap: nat)
    requires ValidSizes(size, overlap) && !Blank(text)
    ensures Contiguous(text, Windows(text, 0, size, overlap), 0, size, overlap)
    ensures HardSplit(text, size, overlap) == Cut(text, Windows(text, 0, size, overlap))
  {
    PiecesAreWindows(text, 0, size, overlap);
    if |text| <= size {
      BlankStrip(text);
      assert text[0..|text|] == text;
      assert Pieces(text, 0, size, overlap) == Kept(Strip(text)) + [];
    }
  }

  /** The pieces of a text are what lies in its windows, however those are found. */
  lemma HardSplitIsTheCut(text: string, size: nat, overlap: nat, windows: seq<(nat, nat)>)
    requires ValidSizes(size, overlap) && !Blank(text) && Contiguous(text, windows, 0, size, overlap)
    ensures HardSplit(text, size, overlap) == Cut(text, windows)
  {
    HardSplitCuts(text, size, overlap);
    var others := Windows(text, 0, size, overlap);
    var n := if |windows| < |others| then |windows| else |others|;
    forall k | 0 <= k < n ensures windows[k] == others[k] {
      OneWayToCut(text, windows, others, 0, size, overlap, k);
    }
    assert windows[n - 1].1 == others[n - 1].1;
    assert windows == others;
  }

  lemma SliceOfSlice(s: string, lo: nat, hi: nat, a: nat, b: nat)
    requires lo <= hi <= |s| && a <= b <= hi - lo
    ensures s[lo..hi][a..b] == s[lo + a..lo + b]
  {
    forall i | 0 <= i < b - a ensures s[lo..hi][a..b][i] == s[lo + a..lo + b][i] {}
  }

  lemma {:induction false} JoinConcat(a: seq<string>, b: seq<string>)
    ensures Join(a + b) == Join(a) + Join(b)
  {
    if a == [] {
      assert a + b == b;
    } else {
      assert (a + b)[1..] == a[1..] + b;
      JoinConcat(a[1..], b);
    }
  }

  /** Ink of joined chunks. */
  function InkOf(chunks: seq<string>): string {
    Ink(Join(chunks))
  }

  lemma InkOfConcat(a: seq<string>, b: seq<string>)
    ensures InkOf(a + b) == InkOf(a) + InkOf(b)
  {
    JoinConcat(a, b);
    InkConcat(Join(a), Join(b));
  }

  lemma InkOfKept(value: string)
    ensures InkOf(Kept(value)) == Ink(value) && InkOf([value]) == Ink(value)
  {
    assert Join([value]) == value;
  }

  lemma InkOfKeptThen(value: string, rest: seq<string>)
    ensures InkOf(Kept(value) + rest) == Ink(value) + InkOf(rest)
    ensures InkOf([value] + rest) == Ink(value) + InkOf(rest)
  {
    InkOfKept(value);
    InkOfConcat(Kept(value), rest);
    InkOfConcat([value], rest);
  }

  lemma InkSuffix(text: string, start: nat, end: nat)
    requires start <= end <= |text|
    ensures Ink(text[start..]) == Ink(text[start..end]) + Ink(text[end..])
  {
    assert text[start..] == text[start..end] + text[end..];
    InkConcat(text[start..end], text[end..]);
  }

  /** Without overlap the pieces keep all ink, once and in order. */
  lemma {:induction false} PiecesKeepInk(text: string, start: nat, size: nat)
    requires size > 0 && start <= |text|
    ensures InkOf(Pieces(text, start, size, 0)) == Ink(text[start..])
    decreases |text| - start
  {
    if start < |text| {
      var end := WindowEnd(text, start, size);
      var rest := if end >= |text| then [] else Pieces(text, end, size, 0);
      if end < |text| { PiecesKeepInk(text, end, size); }
      InkStrip(text[start..end]);
      InkSuffix(text, start, end);
      InkOfKeptThen(Strip(text[start..end]), rest);
    }
  }

  lemma HardSplitKeepsInk(text: string, size: nat)
    requires size > 0
    ensures InkOf(HardSplit(text, size, 0)) == Ink(text)
  {
    if |text| <= size {
      InkStrip(text);
      InkOfKept(Strip(text));
    } else {
      PiecesKeepInk(text, 0, size);
      assert text[0..] == text;
    }
  }

  lemma HardSplitFits(text: string, size: nat, overlap: nat)
    requires ValidSizes(size, overlap) && !Blank(text)
    ensures forall p | p in HardSplit(text, size, overlap) :: 0 < |p| <= size
    ensures |HardSplit(text, size, overlap)| <= |text|
  {
    BlankStrip(text);
    PiecesFit(text, 0, size, overlap);
  }

  // ------------------------------------------------------------ paragraphs and packing

  lemma {:induction false} UnixNewlinesKeepInk(s: string)
    ensures Ink(UnixNewlines(s)) == Ink(s)
  {
    if s != "" {
      if s[0] == '\r' && |s| > 1 && s[1] == '\n' {
        UnixNewlinesKeepInk(s[2..]);
        assert s[1..][1..] == s[2..];
      } else {
        UnixNewlinesKeepInk(s[1..]);
      }
    }
  }

  lemma CutOut(s: string, i: nat, e: nat)
    requires i <= e <= |s| && Blank(s[i..e])
    ensures Ink(s) == Ink(s[..i]) + Ink(s[e..])
  {
    ThreeParts(s, i, e);
    InkGap(s[..i], s[i..e], s[e..]);
  }

  lemma ThreeParts(s: string, i: nat, e: nat)
    requires i <= e <= |s|
    ensures s[..i] + s[i..e] + s[e..] == s
  {
  }

  lemma {:induction false} SplitKeepsInk(s: string, i: nat)
    requires i <= |s|
    ensures InkOf(SplitParagraphs(s, i)) == Ink(s)
    decreases |s|, |s| - i
  {
    if i == |s| {
      InkOfKept(s);
    } else if MatchEnd(s, i) == 0 {
      SplitKeepsInk(s, i + 1);
    } else {
      var e := MatchEnd(s, i);
      SplitKeepsInk(s[e..], 0);
      InkOfKept(s[..i]);
      InkOfConcat([s[..i]], SplitParagraphs(s[e..]));
      CutOut(s, i, e);
    }
  }

  lemma {:induction false} StrippedKeepsInk(parts: seq<string>)
    ensures InkOf(Stripped(parts)) == InkOf(parts)
    ensures forall p | p in Stripped(parts) :: !Blank(p)
  {
    if parts != [] {
      StrippedKeepsInk(parts[1..]);
      InkStrip(parts[0]);
      InkOfKept(parts[0]);
      InkOfKept(Strip(parts[0]));
      InkOfConcat(Kept(Strip(parts[0])), Stripped(parts[1..]));
      InkOfConcat([parts[0]], parts[1..]);
      assert parts == [parts[0]] + parts[1..];
      BlankStrip(parts[0]);
      BlankStrip(Strip(parts[0]));
      InkBlankOnly(Strip(parts[0]));
      InkBlankOnly(parts[0]);
    }
  }

  lemma {:induction false} InkBlankOnly(s: string)
    ensures Ink(s) == "" <==> Blank(s)
  {
    if s != "" {
      InkBlankOnly(s[1..]);
      if Blank(s[1..]) && IsSpace(s[0]) {
        forall i | 0 <= i < |s| ensures IsSpace(s[i]) { assert i > 0 ==> s[i] == s[1..][i - 1]; }
      }
      if Blank(s) { assert Blank(s[1..]); }
    }
  }

  function Paragraphs(text: string): seq<string> {
    Stripped(SplitParagraphs(Strip(UnixNewlines(text))))
  }

  lemma ParagraphsKeepInk(text: string)
    ensures InkOf(Paragraphs(text)) == Ink(text)
    ensures forall p | p in Paragraphs(text) :: !Blank(p)
    ensures Strip(UnixNewlines(text)) == "" <==> Blank(text)
  {
    UnixNewlinesKeepInk(text);
    InkStrip(UnixNewlines(text));
    SplitKeepsInk(Strip(UnixNewlines(text)), 0);
    StrippedKeepsInk(SplitParagraphs(Strip(UnixNewlines(text))));
    BlankStrip(UnixNewlines(text));
    InkBlankOnly(text);
    InkBlankOnly(UnixNewlines(text));
  }

  /** Two newlines with nothing but white space between them. */
  ghost predicate GapAt(s: string, i: nat, k: nat) {
    i < k < |s| && s[i] == '\n' && s[k] == '\n' && forall j | i < j < k :: IsSpace(s[j])
  }

  lemma MatchIsGap(s: string, i: nat, k: nat)
    requires GapAt(s, i, k)
    ensures MatchEnd(s, i) > k
  {
    var tail := s[i + 1..];
    LeadingSpacesCut(tail);
    var run := i + 1 + LeadingSpaces(tail);
    assert forall j | 0 <= j < |tail| :: tail[j] == s[i + 1 + j];
    assert run > k;
    RFindLast(s, '\n', i + 1, run, k);
  }

  lemma GapInSlice(s: string, lo: nat, hi: nat, i: nat, k: nat)
    requires lo <= hi <= |s| && GapAt(s[lo..hi], i, k)
    ensures GapAt(s, lo + i, lo + k)
  {
    forall j | lo + i < j < lo + k ensures IsSpace(s[j]) { assert s[j] == s[lo..hi][j - lo]; }
  }

  lemma {:induction false} SplitLeavesNoGap(s: string, at: nat, part: string, i: nat, k: nat)
    requires at <= |s| && forall j | 0 <= j < at :: MatchEnd(s, j) == 0
    requires part in SplitParagraphs(s, at)
    ensures !GapAt(part, i, k)
    decreases |s|, |s| - at
  {
    if at == |s| {
      if GapAt(s, i, k) { MatchIsGap(s, i, k); }
    } else if MatchEnd(s, at) == 0 {
      SplitLeavesNoGap(s, at + 1, part, i, k);
    } else if part == s[..at] {
      assert s[0..at] == s[..at];
      if GapAt(part, i, k) {
        GapInSlice(s, 0, at, i, k);
        MatchIsGap(s, i, k);
      }
    } else {
      SplitLeavesNoGap(s[MatchEnd(s, at)..], 0, part, i, k);
    }
  }

  lemma {:induction false} StrippedOrigin(parts: seq<string>, p: string)
    requires p in Stripped(parts)
    ensures exists part | part in parts :: p == Strip(part)
  {
    if p != Strip(parts[0]) { StrippedOrigin(parts[1..], p); }
  }

  /** A paragraph has no blank line inside: splitting happens at every one. */
  lemma ParagraphsHaveNoGap(text: string, p: string, i: nat, k: nat)
    requires p in Paragraphs(text)
    ensures !GapAt(p, i, k)
  {
    var cleaned := Strip(UnixNewlines(text));
    StrippedOrigin(SplitParagraphs(cleaned), p);
    var part :| part in SplitParagraphs(cleaned) && p == Strip(part);
    StrippedPartHasNoGap(cleaned, part, i, k);
  }

  lemma StrippedPartHasNoGap(s: string, part: string, i: nat, k: nat)
    requires part in SplitParagraphs(s)
    ensures !GapAt(Strip(part), i, k)
  {
    var lo, hi := StripCut(part);
    if GapAt(Strip(part), i, k) {
      GapInSlice(part, lo, hi, i, k);
      SplitLeavesNoGap(s, 0, part, lo + i, lo + k);
    }
  }

  function Appended(current: string, paragraph: string): string {
    if current == "" then paragraph else current + "\n\n" + paragraph
  }

  /** Greedy packing of paragraphs into parents of at most `size` characters. */
  function Pack(current: string, paragraphs: seq<string>, size: nat): seq<string>
    requires size > 0
    decreases |paragraphs|
  {
    if paragraphs == [] then (if current == "" then [] else HardSplit(current, size, 0))
    else if current != "" && |Appended(current, paragraphs[0])| > size then
      HardSplit(current, size, 0) + Pack(paragraphs[0], paragraphs[1..], size)
    else Pack(Appended(current, paragraphs[0]), paragraphs[1..], size)
  }

  /** "\n\n".join(paragraphs) */
  function Joined(paragraphs: seq<string>): string {
    if paragraphs == [] then "" else if |paragraphs| == 1 then paragraphs[0]
      else paragraphs[0] + "\n\n" + Joined(paragraphs[1..])
  }

  /** Paragraphs that share a parent fit in it. */
  ghost predicate FitsTogether(group: seq<string>, size: nat) {
    group != [] && (|group| > 1 ==> |Joined(group)| <= size)
  }

  /** The group could not have taken the first paragraph of the next one as well. */
  ghost predicate Full(group: seq<string>, next: seq<string>, size: nat) {
    next != [] && |Joined(group + [next[0]])| > size
  }

  ghost predicate Greedy(groups: seq<seq<string>>, size: nat) {
    && (forall g {:trigger FitsTogether(groups[g], size)} | 0 <= g < |groups| :: FitsTogether(groups[g], size))
    && (forall g {:trigger Full(groups[g - 1], groups[g], size)} | 0 < g < |groups| ::
          Full(groups[g - 1], groups[g], size))
  }

  function Ungrouped(groups: seq<seq<string>>): seq<string> {
    if groups == [] then [] else groups[0] + Ungrouped(groups[1..])
  }

  /** Each group makes one parent, or several if a paragraph alone is too long. */
  function ParentsOf(groups: seq<seq<string>>, size: nat): seq<string>
    requires size > 0
  {
    if groups == [] then [] else HardSplit(Joined(groups[0]), size, 0) + ParentsOf(groups[1..], size)
  }

  lemma {:induction false} JoinedSnoc(done: seq<string>, p: string)
    requires done != []
    ensures Joined(done + [p]) == Joined(done) + "\n\n" + p
  {
    if |done| > 1 {
      JoinedSnoc(done[1..], p);
      assert (done + [p])[1..] == done[1..] + [p];
      Reassociated(done[0], Joined(done[1..]), p);
    }
  }

  lemma Reassociated(a: string, b: string, c: string)
    ensures a + "\n\n" + (b + "\n\n" + c) == (a + "\n\n" + b) + "\n\n" + c
  {
  }

  lemma {:induction false} JoinedIsText(ps: seq<string>)
    requires ps != [] && ps[0] != ""
    ensures Joined(ps) != ""
  {
  }

  ghost predicate NonEmpty(paragraphs: seq<string>) {
    forall i | 0 <= i < |paragraphs| :: paragraphs[i] != ""
  }

  /** The groups begin with done, hold the paragraphs, and make the parents that packing makes. */
  ghost predicate Packs(done: seq<string>, paragraphs: seq<string>, size: nat, groups: seq<seq<string>>)
    requires size > 0
  {
    && groups != [] && done <= groups[0] && Ungrouped(groups) == done + paragraphs && Greedy(groups, size)
    && Pack(Joined(done), paragraphs, size) == ParentsOf(groups, size)
  }

  lemma PackEnds(done: seq<string>, size: nat)
    requires size > 0 && done != [] && done[0] != "" && (|done| > 1 ==> |Joined(done)| <= size)
    ensures Packs(done, [], size, [done])
  {
    JoinedIsText(done);
    assert [done][1..] == [] && done + [] == done;
    assert HardSplit(Joined(done), size, 0) + [] == HardSplit(Joined(done), size, 0);
  }

  lemma GreedyFlush(done: seq<string>, more: seq<seq<string>>, size: nat)
    requires FitsTogether(done, size) && more != [] && Greedy(more, size) && Full(done, more[0], size)
    ensures Greedy([done] + more, size)
  {
    var groups := [done] + more;
    forall g | 0 <= g < |groups| ensures FitsTogether(groups[g], size) {
      if g > 0 { assert groups[g] == more[g - 1]; }
    }
    forall g | 0 < g < |groups| ensures Full(groups[g - 1], groups[g], size) {
      if g > 1 {
        var h := g - 1;
        assert groups[g - 1] == more[h - 1] && groups[g] == more[h] && Full(more[h - 1], more[h], size);
      }
    }
  }

  lemma UngroupFirst(done: seq<string>, more: seq<seq<string>>, size: nat)
    requires size > 0
    ensures Ungrouped([done] + more) == done + Ungrouped(more)
    ensures ParentsOf([done] + more, size) == HardSplit(Joined(done), size, 0) + ParentsOf(more, size)
  {
    assert ([done] + more)[1..] == more;
  }

  lemma FlushStep(current: string, paragraphs: seq<string>, size: nat)
    requires size > 0 && current != "" && paragraphs != [] && |Appended(current, paragraphs[0])| > size
    ensures Pack(current, paragraphs, size) == HardSplit(current, size, 0) + Pack(paragraphs[0], paragraphs[1..], size)
  {
  }

  lemma PackFlushes(done: seq<string>, paragraphs: seq<string>, size: nat, more: seq<seq<string>>)
    requires size > 0 && done != [] && done[0] != "" && (|done| > 1 ==> |Joined(done)| <= size)
    requires paragraphs != [] && |Joined(done + [paragraphs[0]])| > size
    requires Packs([paragraphs[0]], paragraphs[1..], size, more)
    ensures Packs(done, paragraphs, size, [done] + more)
  {
    var p := paragraphs[0];
    JoinedIsText(done);
    JoinedSnoc(done, p);
    assert more[0][0] == [p][0];
    GreedyFlush(done, more, size);
    UngroupFirst(done, more, size);
    FlushStep(Joined(done), paragraphs, size);
    assert [p] + paragraphs[1..] == paragraphs;
  }

  lemma TakeFirst(done: seq<string>, paragraphs: seq<string>, group: seq<string>)
    requires paragraphs != [] && done + [paragraphs[0]] <= group
    ensures done <= group && done + paragraphs == done + [paragraphs[0]] + paragraphs[1..]
  {
  }

  lemma PackAppends(done: seq<string>, paragraphs: seq<string>, size: nat, groups: seq<seq<string>>)
    requires size > 0 && done != [] && done[0] != "" && paragraphs != [] && |Joined(done + [paragraphs[0]])| <= size
    requires Packs(done + [paragraphs[0]], paragraphs[1..], size, groups)
    ensures Packs(done, paragraphs, size, groups)
  {
    JoinedIsText(done);
    JoinedSnoc(done, paragraphs[0]);
    TakeFirst(done, paragraphs, groups[0]);
    assert Joined(done + [paragraphs[0]]) == Appended(Joined(done), paragraphs[0]);
  }

  /** Packing goes on from a group that is not full yet. */
  lemma {:induction false} PackFrom(done: seq<string>, paragraphs: seq<string>, size: nat)
    returns (groups: seq<seq<string>>)
    requires size > 0 && done != [] && done[0] != "" && NonEmpty(paragraphs)
    requires |done| > 1 ==> |Joined(done)| <= size
    ensures Packs(done, paragraphs, size, groups)
    decreases |paragraphs|
  {
    if paragraphs == [] {
      groups := [done];
      PackEnds(done, size);
    } else if |Joined(done + [paragraphs[0]])| > size {
      var more := PackFrom([paragraphs[0]], paragraphs[1..], size);
      groups := [done] + more;
      PackFlushes(done, paragraphs, size, more);
    } else {
      groups := PackFrom(done + [paragraphs[0]], paragraphs[1..], size);
      PackAppends(done, paragraphs, size, groups);
    }
  }

  /** Parents are the paragraphs in order, as many to a parent as fit, with blank lines between. */
  lemma PackIsGreedy(paragraphs: seq<string>, size: nat) returns (groups: seq<seq<string>>)
    requires size > 0 && NonEmpty(paragraphs)
    ensures Ungrouped(groups) == paragraphs && Greedy(groups, size)
    ensures Pack("", paragraphs, size) == ParentsOf(groups, size)
  {
    groups := [];
    if paragraphs != [] {
      groups := PackFrom([paragraphs[0]], paragraphs[1..], size);
      assert [paragraphs[0]] + paragraphs[1..] == paragraphs;
      assert Joined([paragraphs[0]]) == paragraphs[0];
      assert Pack("", paragraphs, size) == Pack(paragraphs[0], paragraphs[1..], size);
    }
  }

  lemma AppendedInk(current: string, paragraph: string)
    ensures Ink(Appended(current, paragraph)) == Ink(current) + Ink(paragraph)
  {
    if current != "" {
      var gap := "\n\n";
      assert Blank(gap);
      InkGap(current, gap, paragraph);
    }
  }

  lemma HardSplitThen(current: string, size: nat, rest: seq<string>)
    requires size > 0
    ensures InkOf(HardSplit(current, size, 0) + rest) == Ink(current) + InkOf(rest)
  {
    HardSplitKeepsInk(current, size);
    InkOfConcat(HardSplit(current, size, 0), rest);
  }

  lemma InkOfHead(parts: seq<string>)
    requires parts != []
    ensures InkOf(parts) == Ink(parts[0]) + InkOf(parts[1..])
  {
    assert parts == [parts[0]] + parts[1..];
    InkOfKeptThen(parts[0], parts[1..]);
  }

  lemma Associate(a: string, b: string, c: string)
    ensures a + (b + c) == (a + b) + c
  {
  }

  lemma {:induction false} PackKeepsInk(current: string, paragraphs: seq<string>, size: nat)
    requires size > 0
    ensures InkOf(Pack(current, paragraphs, size)) == Ink(current) + InkOf(paragraphs)
    decreases |paragraphs|
  {
    if paragraphs == [] {
      if current != "" { HardSplitKeepsInk(current, size); }
    } else {
      var p, rest := paragraphs[0], paragraphs[1..];
      InkOfHead(paragraphs);
      Associate(Ink(current), Ink(p), InkOf(rest));
      if current != "" && |Appended(current, p)| > size {
        PackKeepsInk(p, rest, size);
        HardSplitThen(current, size, Pack(p, rest, size));
      } else {
        AppendedInk(current, p);
        PackKeepsInk(Appended(current, p), rest, size);
      }
    }
  }

  lemma {:induction false} PackFits(current: string, paragraphs: seq<string>, size: nat)
    requires size > 0 && (current == "" || !Blank(current))
    requires forall p | p in paragraphs :: !Blank(p)
    ensures forall p | p in Pack(current, paragraphs, size) :: 0 < |p| <= size && !Blank(p)
    decreases |paragraphs|
  {
    if current != "" { HardSplitFits(current, size, 0); HardSplitNonBlank(current, size, 0); }
    if paragraphs != [] {
      var p := paragraphs[0];
      AppendedInk(current, p);
      InkBlankOnly(p);
      InkBlankOnly(Appended(current, p));
      if current != "" && |Appended(current, p)| > size {
        PackFits(p, paragraphs[1..], size);
      } else {
        PackFits(Appended(current, p), paragraphs[1..], size);
      }
    }
  }

  lemma {:induction false} PiecesNonBlank(text: string, start: nat, size: nat, overlap: nat)
    requires size > 0
    ensures forall p | p in Pieces(text, start, size, overlap) :: !Blank(p)
    decreases |text| - start
  {
    if start < |text| {
      var end := WindowEnd(text, start, size);
      BlankStrip(text[start..end]);
      InkStrip(text[start..end]);
      InkBlankOnly(text[start..end]);
      InkBlankOnly(Strip(text[start..end]));
      if end < |text| { PiecesNonBlank(text, NextStart(start, end, overlap), size, overlap); }
    }
  }

  lemma HardSplitNonBlank(text: string, size: nat, overlap: nat)
    requires ValidSizes(size, overlap) && !Blank(text)
    ensures forall p | p in HardSplit(text, size, overlap) :: !Blank(p)
  {
    InkStrip(text);
    InkBlankOnly(text);
    InkBlankOnly(Strip(text));
    PiecesNonBlank(text, 0, size, overlap);
  }

  // ------------------------------------------------------------ hierarchical_chunks

  datatype Child = Child(index: nat, content: string, tokens: nat)
  datatype Parent = Parent(index: nat, content: string, tokens: nat, children: seq<Child>)

  /** The smallest number of fours that cover the text, and at least one. */
  lemma TokensCover(text: string)
    ensures Tokens(text) >= 1 && 4 * (Tokens(text) - 1) <= |text| <= 4 * Tokens(text)
    ensures text != "" ==> 4 * (Tokens(text) - 1) < |text|
  {
  }

  /** max(1, ceil(len(text) / 4)) */
  function Tokens(text: string): nat {
    if |text| == 0 then 1 else (|text| + 3) / 4
  }

  function Contents(parents: seq<Parent>): (r: seq<string>)
    ensures |r| == |parents|
  {
    seq(|parents|, i requires 0 <= i < |parents| => parents[i].content)
  }

  /** The children are the chunks in order, all of them, numbered from 0. */
  ghost predicate Numbers(children: seq<Child>, chunks: seq<string>) {
    |children| == |chunks|
    && forall k | 0 <= k < |children| :: children[k] == Child(k, chunks[k], Tokens(chunks[k]))
  }

  /** A parent that fits, with children that fit, are numbered 0, 1, ... and are cut from it without a gap. */
  ghost predicate GoodParent(p: Parent, parentSize: int, childSize: int, overlap: int) {
    && 0 < |p.content| <= parentSize && p.tokens == Tokens(p.content)
    && ValidSizes(childSize, overlap) && Numbers(p.children, HardSplit(p.content, childSize, overlap))
    && 0 < |p.children| <= |p.content|
    && (forall k | 0 <= k < |p.children| :: 0 < |p.children[k].content| <= childSize)
    && Contiguous(p.content, Windows(p.content, 0, childSize, overlap), 0, childSize, overlap)
    && Numbers(p.children, Cut(p.content, Windows(p.content, 0, childSize, overlap)))
  }

  method Children(parent: string, childSize: int, overlap: int) returns (children: seq<Child>)
    requires ValidSizes(childSize, overlap) && !Blank(parent)
    ensures Numbers(children, HardSplit(parent, childSize, overlap))
  {
    var texts := HardSplitLoop(parent, childSize, overlap);
    HardSplitNonBlank(parent, childSize, overlap);
    children := [];
    for k := 0 to |texts.value|
      invariant |children| == k
      invariant forall j | 0 <= j < k :: children[j] == Child(j, texts.value[j], Tokens(texts.value[j]))
    {
      var value := texts.value[k];
      BlankStrip(value);
      if Strip(value) != "" {
        children := children + [Child(k, value, Tokens(value))];
      }
    }
  }

  method ParentTexts(paragraphs: seq<string>, parentSize: int) returns (texts: seq<string>)
    requires parentSize > 0
    ensures texts == Pack("", paragraphs, parentSize)
  {
    texts := [];
    var current := "";
    for k := 0 to |paragraphs|
      invariant texts + Pack(current, paragraphs[k..], parentSize) == Pack("", paragraphs, parentSize)
    {
      assert paragraphs[k..][0] == paragraphs[k] && paragraphs[k..][1..] == paragraphs[k + 1..];
      var candidate := Appended(current, paragraphs[k]);
      if current != "" && |candidate| > parentSize {
        var split := HardSplitLoop(current, parentSize, 0);
        texts := texts + split.value;
        current := paragraphs[k];
      } else {
        current := candidate;
      }
    }
    if current != "" {
      var split := HardSplitLoop(current, parentSize, 0);
      texts := texts + split.value;
    }
  }

  /** None is the ValueError for invalid sizes; blank text never reaches it. */
  method HierarchicalChunks(text: string, parentSize: int, childSize: int, overlap: int)
    returns (parents: Option<seq<Parent>>)
    ensures parents.Some? <==> Blank(text) || (parentSize > 0 && childSize > 0 && 0 <= overlap < childSize)
    ensures parents.Some? ==> InkOf(Contents(parents.value)) == Ink(text) && (parents.value == [] <==> Blank(text))
    ensures parents.Some? && !Blank(text) ==> Contents(parents.value) == Pack("", Paragraphs(text), parentSize)
    ensures parents.Some? ==> forall i | 0 <= i < |parents.value| ::
              parents.value[i].index == i && GoodParent(parents.value[i], parentSize, childSize, overlap)
  {
    ParagraphsKeepInk(text);
    InkBlankOnly(text);
    if Strip(UnixNewlines(text)) == "" {
      InkBlank(text);
      return Some([]);
    }
    if !ValidSizes(parentSize, 0) || !ValidSizes(childSize, overlap) { return None; }
    var texts := ParentTexts(Paragraphs(text), parentSize);
    PackKeepsInk("", Paragraphs(text), parentSize);
    PackFits("", Paragraphs(text), parentSize);
    var out := BuildParents(texts, parentSize, childSize, overlap);
    assert Contents(out) == texts;
    return Some(out);
  }

  method BuildParents(texts: seq<string>, parentSize: int, childSize: int, overlap: int) returns (parents: seq<Parent>)
    requires ValidSizes(childSize, overlap) && forall t | t in texts :: 0 < |t| <= parentSize && !Blank(t)
    ensures |parents| == |texts|
    ensures forall i | 0 <= i < |texts| ::
              && parents[i].index == i && parents[i].content == texts[i]
              && GoodParent(parents[i], parentSize, childSize, overlap)
  {
    parents := [];
    for i := 0 to |texts|
      invariant |parents| == i
      invariant forall j | 0 <= j < i ::
                  && parents[j].index == j && parents[j].content == texts[j]
                  && GoodParent(parents[j], parentSize, childSize, overlap)
    {
      var children := Children(texts[i], childSize, overlap);
      var parent := Parent(i, texts[i], Tokens(texts[i]), children);
      ParentIsGood(parent, parentSize, childSize, overlap);
      if children != [] {
        parents := parents + [parent];
      }
    }
  }

  lemma ParentIsGood(p: Parent, parentSize: int, childSize: int, overlap: int)
    requires 0 < |p.content| <= parentSize && !Blank(p.content) && p.tokens == Tokens(p.content)
    requires ValidSizes(childSize, overlap) && Numbers(p.children, HardSplit(p.content, childSize, overlap))
    ensures GoodParent(p, parentSize, childSize, overlap)
  {
    HardSplitFits(p.content, childSize, overlap);
    HardSplitCuts(p.content, childSize, overlap);
    var i: nat :| i < |p.content| && !IsSpace(p.content[i]);
    var k, a, b := InkLiesInItsPiece(p.content, childSize, overlap, i);
  }
}
