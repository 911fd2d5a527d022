/** Python string primitives the modelled code relies on. */
module Text {

  datatype Option<+T> = None | Some(value: T)

  /** str.isspace() for one character; `\s` in a str pattern matches the same set. */
  predicate IsSpace(c: char) {
    || '\t' <= c <= '\r'
    || '\U{1c}' <= c <= ' '
    || c == '\U{85}' || c == '\U{a0}' || c == '\U{1680}'
    || '\U{2000}' <= c <= '\U{200a}'
    || c == '\U{2028}' || c == '\U{2029}' || c == '\U{202f}' || c == '\U{205f}' || c == '\U{3000}'
  }

  predicate Blank(s: string) {
    forall i | 0 <= i < |s| :: IsSpace(s[i])
  }

  /** Length of the leading run of white space. */
  function LeadingSpaces(s: string): (n: nat)
    ensures n <= |s|
  {
    if s == "" || !IsSpace(s[0]) then 0 else 1 + LeadingSpaces(s[1..])
  }

  /** str.strip() */
  function Strip(s: string): (r: string)
    ensures |r| <= |s|
  {
    if s == "" then ""
    else if IsSpace(s[0]) then Strip(s[1..])
    else if IsSpace(s[|s| - 1]) then Strip(s[..|s| - 1])
    else s
  }

  lemma {:induction false} LeadingSpacesCut(s: string)
    ensures var n := LeadingSpaces(s); n < |s| ==> !IsSpace(s[n])
    ensures forall i | 0 <= i < LeadingSpaces(s) :: IsSpace(s[i])
  {
    if s != "" && IsSpace(s[0]) {
      LeadingSpacesCut(s[1..]);
      forall i | 1 <= i < LeadingSpaces(s) ensures IsSpace(s[i]) { assert s[i] == s[1..][i - 1]; }
    }
  }

  /** strip() removes white space at both ends and nothing else. */
  lemma {:induction false} StripCut(s: string) returns (lo: nat, hi: nat)
    ensures lo <= hi <= |s| && Strip(s) == s[lo..hi]
    ensures forall i | 0 <= i < |s| && !(lo <= i < hi) :: IsSpace(s[i])
    ensures lo < hi ==> !IsSpace(s[lo]) && !IsSpace(s[hi - 1])
  {
    if s == "" {
      lo, hi := 0, 0;
    } else if IsSpace(s[0]) {
      lo, hi := StripCut(s[1..]);
      forall i | 1 <= i < |s| && !(lo + 1 <= i < hi + 1) ensures IsSpace(s[i]) { assert s[i] == s[1..][i - 1]; }
      assert s[1..][lo..hi] == s[lo + 1..hi + 1];
      lo, hi := lo + 1, hi + 1;
    } else if IsSpace(s[|s| - 1]) {
      lo, hi := StripCut(s[..|s| - 1]);
      forall i | 0 <= i < |s| - 1 && !(lo <= i < hi) ensures IsSpace(s[i]) { assert s[i] == s[..|s| - 1][i]; }
      assert s[..|s| - 1][lo..hi] == s[lo..hi];
    } else {
      lo, hi := 0, |s|;
      assert s[0..|s|] == s;
    }
  }

  /** The characters of s that are not white space, in order. */
  function Ink(s: string): (r: string) {
    if s == "" then "" else (if IsSpace(s[0]) then "" else [s[0]]) + Ink(s[1..])
  }

  lemma {:induction false} InkConcat(a: string, b: string)
    ensures Ink(a + b) == Ink(a) + Ink(b)
  {
    if a == "" {
      assert a + b == b;
    } else {
      assert (a + b)[1..] == a[1..] + b;
      InkConcat(a[1..], b);
    }
  }

  lemma {:induction false} InkBlank(s: string)
    requires Blank(s)
    ensures Ink(s) == ""
  {
    if s != "" {
      assert Blank(s[1..]);
      InkBlank(s[1..]);
    }
  }

  lemma InkGap(a: string, gap: string, b: string)
    requires Blank(gap)
    ensures Ink(a + gap + b) == Ink(a) + Ink(b)
  {
    InkConcat(a + gap, b);
    InkConcat(a, gap);
    InkBlank(gap);
  }

  lemma BlankStrip(s: string)
    ensures Strip(s) == "" <==> Blank(s)
  {
    var lo, hi := StripCut(s);
    assert Strip(s) == "" <==> lo == hi;
  }

  /** Stripping removes no ink. */
  lemma InkStrip(s: string)
    ensures Ink(Strip(s)) == Ink(s)
  {
    var lo, hi := StripCut(s);
    assert s == s[..lo] + s[lo..hi] + s[hi..];
    InkConcat(s[..lo] + s[lo..hi], s[hi..]);
    InkConcat(s[..lo], s[lo..hi]);
    InkBlank(s[..lo]);
    InkBlank(s[hi..]);
  }

  // ---------------------------------------------------------------- ordering of str values

  /** str comparison: lexicographic by code point. */
  predicate StrLess(a: string, b: string) {
    if b == "" then false
    else if a == "" then true
    else a[0] < b[0] || (a[0] == b[0] && StrLess(a[1..], b[1..]))
  }

  lemma {:induction false} StrLessIrreflexive(a: string)
    ensures !StrLess(a, a)
  {
    if a != "" { StrLessIrreflexive(a[1..]); }
  }

  /** The order is total on distinct strings and never holds both ways. */
  lemma {:induction false} StrLessTotal(a: string, b: string)
    ensures a != b ==> StrLess(a, b) || StrLess(b, a)
    ensures !(StrLess(a, b) && StrLess(b, a))
  {
    if a != "" && b != "" {
      StrLessTotal(a[1..], b[1..]);
      if a[0] == b[0] && a[1..] == b[1..] {
        assert a == [a[0]] + a[1..] && b == [b[0]] + b[1..];
      }
    }
  }

  lemma {:induction false} StrLessTransitive(a: string, b: string, c: string)
    requires StrLess(a, b) && StrLess(b, c)
    ensures StrLess(a, c)
  {
    if a != "" && a[0] == b[0] == c[0] {
      StrLessTransitive(a[1..], b[1..], c[1..]);
    }
  }

  /** b goes on where a ends, or has the larger character at the first place where they differ. */
  ghost predicate DifferAt(a: string, b: string, k: nat) {
    k <= |a| && k < |b| && a[..k] == b[..k] && (k == |a| || a[k] < b[k])
  }

  /** Lexicographic order. */
  lemma {:induction false} StrLessIff(a: string, b: string)
    ensures StrLess(a, b) <==> exists k: nat :: DifferAt(a, b, k)
  {
    if a == "" || b == "" {
      if b != "" { assert DifferAt(a, b, 0); }
    } else if a[0] != b[0] {
      if a[0] < b[0] { assert DifferAt(a, b, 0); }
      forall k: nat | k > 0 ensures !DifferAt(a, b, k) {
        if k <= |a| && k < |b| { assert a[..k][0] == a[0] && b[..k][0] == b[0]; }
      }
    } else {
      StrLessIff(a[1..], b[1..]);
      forall k: nat ensures DifferAt(a[1..], b[1..], k) <==> DifferAt(a, b, k + 1) {
        if k < |a| && k + 1 < |b| {
          assert a[..k + 1] == [a[0]] + a[1..][..k];
          assert b[..k + 1] == [b[0]] + b[1..][..k];
          assert a[..k + 1][1..] == a[1..][..k] && b[..k + 1][1..] == b[1..][..k];
        }
      }
      assert !DifferAt(a, b, 0);
      if k: nat :| DifferAt(a, b, k) { assert DifferAt(a[1..], b[1..], k - 1); }
    }
  }

  predicate StrictlySorted(s: seq<string>) {
    forall i, j | 0 <= i < j < |s| :: StrLess(s[i], s[j])
  }

  /** sorted() of a set of strings. */
  method SortedStrings(items: set<string>) returns (r: seq<string>)
    ensures StrictlySorted(r)
    ensures forall x :: x in r <==> x in items
  {
    r := SortedBy(items, x => x);
  }

  /** sorted() of a set by a string key that tells its members apart. */
  method SortedBy<T(==)>(items: set<T>, key: T -> string) returns (r: seq<T>)
    requires forall x, y | x in items && y in items && x != y :: key(x) != key(y)
    ensures forall i, j | 0 <= i < j < |r| :: StrLess(key(r[i]), key(r[j]))
    ensures forall x :: x in r <==> x in items
  {
    r := [];
    var rest := items;
    while rest != {}
      invariant rest <= items
      invariant forall i, j | 0 <= i < j < |r| :: StrLess(key(r[i]), key(r[j]))
      invariant forall x :: x in r <==> x in items && x !in rest
      invariant forall i, y | 0 <= i < |r| && y in rest :: StrLess(key(r[i]), key(y))
      decreases rest
    {
      var least := Least(rest, key);
      r := r + [least];
      rest := rest - {least};
    }
  }

  method Least<T(==)>(items: set<T>, key: T -> string) returns (least: T)
    requires items != {}
    requires forall x, y | x in items && y in items && x != y :: key(x) != key(y)
    ensures least in items
    ensures forall x | x in items && x != least :: StrLess(key(least), key(x))
  {
    least :| least in items;
    var rest := items - {least};
    while rest != {}
      invariant least in items && least !in rest && rest <= items
      invariant forall x | x in items && x !in rest && x != least :: StrLess(key(least), key(x))
      decreases rest
    {
      var x :| x in rest;
      StrLessTotal(key(x), key(least));
      if StrLess(key(x), key(least)) {
        forall y | y in items && y !in rest && y != least ensures StrLess(key(x), key(y)) {
          StrLessTransitive(key(x), key(least), key(y));
        }
        least := x;
      }
      rest := rest - {x};
    }
  }

  // ---------------------------------------------------------------- str(int)

  /** str(n) */
  function Decimal(n: nat): string {
    (if n < 10 then "" else Decimal(n / 10)) + [('0' as int + n % 10) as char]
  }

  function DecimalValue(s: string): int {
    if s == "" then 0 else 10 * DecimalValue(s[..|s| - 1]) + s[|s| - 1] as int - '0' as int
  }

  lemma {:induction false} DecimalRoundTrip(n: nat)
    ensures DecimalValue(Decimal(n)) == n
  {
    var s := Decimal(n);
    if n >= 10 {
      DecimalRoundTrip(n / 10);
      assert s[..|s| - 1] == Decimal(n / 10);
    } else {
      assert s[..|s| - 1] == "";
    }
  }

  /** Digits only, and no leading zero but in "0": with DecimalRoundTrip this tells the whole numeral. */
  lemma {:induction false} DecimalDigits(n: nat)
    ensures var s := Decimal(n);
            s != "" && (forall i | 0 <= i < |s| :: '0' <= s[i] <= '9') && (|s| > 1 ==> s[0] != '0')
            && (s[0] == '0' ==> n == 0)
  {
    if n >= 10 { DecimalDigits(n / 10); }
  }
}
