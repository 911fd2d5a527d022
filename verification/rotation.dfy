/**
 * How often a cursor that advances in fixed steps lands on each place of a ring: the arithmetic behind ModelRouting.
 */
module Rotation {

  /** Greatest common divisor. */
  function Gcd(a: nat, b: nat): (g: nat)
    requires a + b > 0
    ensures g > 0
    decreases b
  {
    if b == 0 then a else Gcd(b, a % b)
  }

  lemma ModUnique(a: int, w: nat, q: nat, z: int)
    requires q < w && a == q + w * z
    ensures a % w == q && a / w == z
  {
    var e := z - a / w;
    assert w * e == w * z - w * (a / w) == a % w - q;
    AtLeastOnce(w, e);
  }

  lemma AtLeastOnce(w: nat, e: int)
    ensures e >= 1 ==> w * e >= w
    ensures e <= -1 ==> w * e <= -(w as int)
  {
  }

  lemma Multiple(w: nat, z: int)
    requires w > 0
    ensures (w * z) % w == 0 && (w * z) / w == z
  {
    ModUnique(w * z, w, 0, z);
  }

  lemma SumOfMultiples(g: nat, a: int, b: int, q: int)
    requires g > 0 && a % g == 0 && b % g == 0
    ensures (q * a + b) % g == 0
  {
    var u, v := a / g, b / g;
    assert a == g * u && b == g * v;
    assert q * a + b == g * (q * u + v) by { assert q * (g * u) == g * (q * u); }
    Multiple(g, q * u + v);
  }

  /** Gcd divides both numbers and is a combination of them. */
  lemma {:induction false} Bezout(a: nat, b: nat) returns (x: int, y: int)
    requires a + b > 0
    ensures a % Gcd(a, b) == 0 && b % Gcd(a, b) == 0
    ensures x * a + y * b == Gcd(a, b)
    decreases b
  {
    if b == 0 {
      x, y := 1, 0;
      Multiple(a, 1);
    } else {
      var r, s := Bezout(b, a % b);
      var g, c := Gcd(b, a % b), a / b;
      SumOfMultiples(g, b, a % b, c);
      x, y := s, r - c * s;
      BezoutStep(a, b, c, a % b, r, s);
    }
  }

  lemma BezoutStep(a: int, b: int, c: int, m: int, r: int, s: int)
    requires a == c * b + m
    ensures s * a + (r - c * s) * b == r * b + s * m
  {
    assert s * a == s * (c * b) + s * m;
    assert (c * s) * b == s * (c * b);
  }

  // ------------------------------------------------------------ one place of the ring

  /** The cursor at call t, moving step places per call. */
  function Cursor(start: nat, step: nat, t: nat): nat {
    if t == 0 then start else Cursor(start, step, t - 1) + step
  }

  lemma {:induction false} CursorIs(start: nat, step: nat, t: nat)
    ensures Cursor(start, step, t) == start + step * t
  {
    if t > 0 {
      CursorIs(start, step, t - 1);
      Distribute(step, t, 1);
    }
  }

  /** a % w by repeated subtraction. */
  function Mod(a: nat, w: nat): (q: nat)
    requires w > 0
    ensures q < w
  {
    if a < w then a else Mod(a - w, w)
  }

  lemma {:induction false} ModIs(a: nat, w: nat)
    requires w > 0
    ensures Mod(a, w) == a % w
  {
    if a < w {
      ModUnique(a, w, a, 0);
    } else {
      ModIs(a - w, w);
      Distribute(w, (a - w) / w, 1);
      ModUnique(a, w, (a - w) % w, (a - w) / w + 1);
    }
  }

  /** Where on a ring of w places the cursor stands at call t. */
  function Place(start: nat, step: nat, t: nat, w: nat): nat
    requires w > 0
  {
    Mod(Cursor(start, step, t), w)
  }

  /** How many of the first n calls find the cursor at place q. */
  function Hits(start: nat, step: nat, w: nat, q: nat, n: nat): nat
    requires w > 0
  {
    if n == 0 then 0 else Hits(start, step, w, q, n - 1) + if Place(start, step, n - 1, w) == q then 1 else 0
  }

  lemma Combine(x: int, k: int, y: int, v: int, t: int)
    requires x * k + y * v == 1
    ensures x * (k * t) + v * (y * t) == t
  {
    assert x * (k * t) == (x * k) * t;
    assert v * (y * t) == (y * v) * t;
    assert (x * k) * t + (y * v) * t == (x * k + y * v) * t;
  }

  lemma Swap(a: int, b: int, c: int)
    ensures a * (b * c) == b * (a * c)
  {
  }

  lemma Distribute(a: int, b: int, c: int)
    ensures a * (b + c) == a * b + a * c
    ensures a * (b - c) == a * b - a * c
  {
  }

  /**
   * Writing step = d k and w = d v with x k + y v = 1: the calls that reach a place at distance d m are those congruent
   * to x m modulo v.
   */
  lemma HitForward(start: int, k: int, d: int, v: int, x: int, y: int, q: int, t: int, z: int, m: int)
    requires x * k + y * v == 1
    requires start + d * (k * t) == q + d * (v * z) && m == k * t - v * z
    ensures q - start == d * m && t == x * m + v * (y * t + x * z)
  {
    Distribute(d, k * t, v * z);
    Distribute(x, k * t, v * z);
    Distribute(v, y * t, x * z);
    Combine(x, k, y, v, t);
    Swap(x, v, z);
  }

  lemma HitBackward(start: int, k: int, d: int, v: int, x: int, y: int, q: int, t: int, u: int, m: int)
    requires x * k + y * v == 1
    requires q - start == d * m && t == x * m + v * u
    ensures start + d * (k * t) == q + d * (v * (k * u - y * m))
  {
    Distribute(k, x * m, v * u);
    Swap(k, x, m);
    Combine(x, k, y, v, m);
    Swap(k, v, u);
    Distribute(v, k * u, y * m);
    Distribute(d, m, v * (k * u - y * m));
  }

  lemma PlaceQuotient(start: nat, k: nat, d: nat, t: nat, w: nat) returns (z: int)
    requires w > 0
    ensures start + d * (k * t) == Place(start, d * k, t, w) + w * z
  {
    assert d * k * t == d * (k * t);
    CursorIs(start, d * k, t);
    ModIs(start + d * (k * t), w);
    z := (start + d * (k * t)) / w;
  }

  lemma HitOnly(start: nat, k: nat, d: nat, v: nat, x: int, y: int, q: nat, t: nat)
    requires d > 0 && v > 0 && x * k + y * v == 1 && q < d * v
    requires Place(start, d * k, t, d * v) == q
    ensures (q - start) % d == 0 && t % v == (x * ((q - start) / d)) % v
  {
    var z := PlaceQuotient(start, k, d, t, d * v);
    assert (d * v) * z == d * (v * z);
    var m := k * t - v * z;
    HitForward(start, k, d, v, x, y, q, t, z, m);
    Multiple(d, m);
    SameResidue(t, x * m, v, y * t + x * z);
  }

  lemma HitWhen(start: nat, k: nat, d: nat, v: nat, x: int, y: int, q: nat, t: nat)
    requires d > 0 && v > 0 && x * k + y * v == 1 && q < d * v
    requires (q - start) % d == 0 && t % v == (x * ((q - start) / d)) % v
    ensures Place(start, d * k, t, d * v) == q
  {
    var m := (q - start) / d;
    var u := t / v - (x * m) / v;
    Distribute(v, t / v, (x * m) / v);
    HitBackward(start, k, d, v, x, y, q, t, u, m);
    var z := k * u - y * m;
    assert d * (v * z) == (d * v) * z;
    var z' := PlaceQuotient(start, k, d, t, d * v);
    Unique(d * v, q, Place(start, d * k, t, d * v), z, z');
  }

  lemma Unique(w: nat, p: nat, q: nat, z: int, z': int)
    requires p < w && q < w && p + w * z == q + w * z'
    ensures p == q
  {
    ModUnique(p + w * z, w, p, z);
    ModUnique(q + w * z', w, q, z');
  }

  lemma SameResidue(a: int, b: int, v: nat, z: int)
    requires v > 0 && a == b + v * z
    ensures a % v == b % v
  {
    Distribute(v, b / v, z);
    ModUnique(a, v, b % v, b / v + z);
  }

  // ------------------------------------------------------------ counting over one turn of the ring

  /** Calls 0 .. n-1 that lie in residue class r modulo v. */
  function InClass(r: nat, v: nat, n: nat): nat
    requires v > 0
  {
    if n == 0 then 0 else InClass(r, v, n - 1) + if (n - 1) % v == r then 1 else 0
  }

  lemma {:induction false} InClassWithin(r: nat, v: nat, j: nat, i: nat)
    requires r < v && i <= v
    ensures InClass(r, v, j * v + i) == InClass(r, v, j * v) + if r < i then 1 else 0
  {
    if i > 0 {
      InClassWithin(r, v, j, i - 1);
      ModUnique(j * v + i - 1, v, i - 1, j);
    }
  }

  lemma {:induction false} InClassTurns(r: nat, v: nat, j: nat)
    requires r < v
    ensures InClass(r, v, j * v) == j
  {
    if j > 0 {
      InClassTurns(r, v, j - 1);
      InClassWithin(r, v, j - 1, v);
      assert j * v == (j - 1) * v + v;
    } else {
      assert j * v == 0;
    }
  }

  lemma {:induction false} HitsAreAClass(start: nat, k: nat, d: nat, v: nat, x: int, y: int, q: nat, n: nat)
    requires d > 0 && v > 0 && x * k + y * v == 1 && q < d * v
    ensures Hits(start, d * k, d * v, q, n) ==
            if (q - start) % d == 0 then InClass((x * ((q - start) / d)) % v, v, n) else 0
  {
    if n > 0 {
      HitsAreAClass(start, k, d, v, x, y, q, n - 1);
      if Place(start, d * k, n - 1, d * v) == q { HitOnly(start, k, d, v, x, y, q, n - 1); }
      if (q - start) % d == 0 && (n - 1) % v == (x * ((q - start) / d)) % v { HitWhen(start, k, d, v, x, y, q, n - 1); }
    }
  }

  lemma Reduced(step: nat, w: nat) returns (d: nat, k: nat, v: nat, x: int, y: int)
    requires w > 0
    ensures d == Gcd(step, w) && step == d * k && w == d * v && v > 0 && x * k + y * v == 1
  {
    d := Gcd(step, w);
    x, y := Bezout(step, w);
    k, v := step / d, w / d;
    assert step == d * k && w == d * v;
    Swap(x, d, k);
    Swap(y, d, v);
    Distribute(d, x * k, y * v);
    Cancel(d, x * k + y * v);
  }

  /**
   * In w calls a place is reached Gcd(step, w) times if its distance from the start is a multiple of that gcd, else
   * never.
   */
  lemma HitsInOneTurn(start: nat, step: nat, w: nat, q: nat)
    requires q < w
    ensures Hits(start, step, w, q, w) == if (q - start) % Gcd(step, w) == 0 then Gcd(step, w) else 0
  {
    var d, k, v, x, y := Reduced(step, w);
    HitsAreAClass(start, k, d, v, x, y, q, w);
    if (q - start) % d == 0 {
      InClassTurns((x * ((q - start) / d)) % v, v, d);
    }
  }

  lemma Cancel(d: nat, a: int)
    requires d > 0 && d * a == d
    ensures a == 1
  {
    AtLeastOnce(d, a - 1);
    Distribute(d, a, 1);
  }

  // ------------------------------------------------------------ a block of places

  /** How many of the first n calls find the cursor in places lo .. hi-1. */
  function BlockHits(start: nat, step: nat, w: nat, lo: nat, hi: nat, n: nat): nat
    requires w > 0
  {
    if n == 0 then 0 else
      BlockHits(start, step, w, lo, hi, n - 1) + if lo <= Place(start, step, n - 1, w) < hi then 1 else 0
  }

  /** How many of the first n calls p holds of. */
  function Holding(p: nat -> bool, n: nat): nat {
    if n == 0 then 0 else Holding(p, n - 1) + if p(n - 1) then 1 else 0
  }

  lemma {:induction false} HoldingSame(p: nat -> bool, q: nat -> bool, n: nat)
    requires forall t: nat {:trigger p(t)} | t < n :: p(t) == q(t)
    ensures Holding(p, n) == Holding(q, n)
  {
    if n > 0 { HoldingSame(p, q, n - 1); }
  }

  lemma {:induction false} BlockHolding(start: nat, step: nat, w: nat, lo: nat, hi: nat, n: nat)
    requires w > 0
    ensures BlockHits(start, step, w, lo, hi, n) == Holding((t: nat) => lo <= Place(start, step, t, w) < hi, n)
  {
    if n > 0 { BlockHolding(start, step, w, lo, hi, n - 1); }
  }

  lemma {:induction false} BlockGrows(start: nat, step: nat, w: nat, lo: nat, hi: nat, n: nat)
    requires w > 0 && lo <= hi
    ensures BlockHits(start, step, w, lo, hi + 1, n) == BlockHits(start, step, w, lo, hi, n)
            + Hits(start, step, w, hi, n)
    ensures BlockHits(start, step, w, lo, lo, n) == 0
  {
    if n > 0 { BlockGrows(start, step, w, lo, hi, n - 1); }
  }

  /** Places lo .. hi-1 whose distance from start is a multiple of d. */
  function Aligned(start: nat, d: nat, lo: nat, hi: nat): nat
    requires d > 0 && lo <= hi
  {
    if hi == lo then 0 else Aligned(start, d, lo, hi - 1) + if (hi - 1 - start) % d == 0 then 1 else 0
  }

  lemma {:induction false} BlockInOneTurn(start: nat, step: nat, w: nat, lo: nat, hi: nat)
    requires lo <= hi <= w && w > 0
    ensures BlockHits(start, step, w, lo, hi, w) == Gcd(step, w) * Aligned(start, Gcd(step, w), lo, hi)
  {
    var d := Gcd(step, w);
    if lo == hi {
      BlockGrows(start, step, w, lo, hi, w);
    } else {
      BlockInOneTurn(start, step, w, lo, hi - 1);
      BlockGrows(start, step, w, lo, hi - 1, w);
      HitsInOneTurn(start, step, w, hi - 1);
      Distribute(d, Aligned(start, d, lo, hi - 1), 1);
    }
  }

  lemma AlignedAt(start: nat, d: nat, p: nat, off: nat, i: nat, z: int)
    requires off < d && i < d && p - start == i - off + d * z
    ensures (p - start) % d == 0 <==> i == off
  {
    if i < off {
      Distribute(d, z, 1);
      ModUnique(p - start, d, d + i - off, z - 1);
    } else {
      ModUnique(p - start, d, i - off, z);
    }
  }

  lemma AlignedPlace(start: nat, d: nat, lo: nat, mid: nat, a: nat, i: nat)
    requires d > 0 && i < d && mid == lo + d * a
    ensures (mid + i - start) % d == 0 <==> i == (start - lo) % d
  {
    var b := (start - lo) / d;
    Distribute(d, a, b);
    AlignedAt(start, d, mid + i, (start - lo) % d, i, a - b);
  }

  lemma {:induction false} AlignedWithin(start: nat, d: nat, lo: nat, mid: nat, a: nat, i: nat)
    requires d > 0 && i <= d && mid == lo + d * a
    ensures Aligned(start, d, lo, mid + i) == Aligned(start, d, lo, mid) + if (start - lo) % d < i then 1 else 0
  {
    if i > 0 {
      AlignedWithin(start, d, lo, mid, a, i - 1);
      AlignedPlace(start, d, lo, mid, a, i - 1);
    }
  }

  lemma {:induction false} AlignedBlocks(start: nat, d: nat, lo: nat, hi: nat, j: nat)
    requires d > 0 && hi == lo + d * j
    ensures Aligned(start, d, lo, hi) == j
  {
    if j > 0 {
      Distribute(d, j, 1);
      AlignedBlocks(start, d, lo, hi - d, j - 1);
      AlignedWithin(start, d, lo, hi - d, j - 1, d);
    }
  }

  /** A block gets exactly its size in hits over one turn when, and only when, gcd(step, w) divides its size. */
  lemma ExactShareIff(start: nat, step: nat, w: nat, lo: nat, hi: nat)
    requires lo <= hi <= w && w > 0
    ensures BlockHits(start, step, w, lo, hi, w) == hi - lo <==> (hi - lo) % Gcd(step, w) == 0
  {
    var d := Gcd(step, w);
    BlockInOneTurn(start, step, w, lo, hi);
    Shared(start, d, lo, hi);
  }

  lemma Shared(start: nat, d: nat, lo: nat, hi: nat)
    requires d > 0 && lo <= hi
    ensures d * Aligned(start, d, lo, hi) == hi - lo <==> (hi - lo) % d == 0
  {
    Multiple(d, Aligned(start, d, lo, hi));
    if (hi - lo) % d == 0 { AlignedBlocks(start, d, lo, hi, (hi - lo) / d); }
  }
}
