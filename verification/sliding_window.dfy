/** Queues of times that are trimmed from the front, as the plugin supervisor and the plugin broker keep them. */
module SlidingWindow {

  /** Whether a time is still in the window that ends now; inclusive says if one exactly window old is. */
  predicate Within(x: real, now: real, window: real, inclusive: bool) {
    now - x < window || (inclusive && now - x == window)
  }

  /** Times that have left the window are dropped from the front of the queue. */
  function Trimmed(q: seq<real>, now: real, window: real, inclusive: bool): seq<real> {
    if q != [] && !Within(q[0], now, window, inclusive) then Trimmed(q[1..], now, window, inclusive) else q
  }

  /** Those of the first n times of h that are in the window. */
  function InWindowOf(h: seq<real>, now: real, window: real, inclusive: bool, n: nat): seq<real>
    requires n <= |h|
  {
    if n == 0 then [] else
      var r := InWindowOf(h, now, window, inclusive, n - 1);
      if Within(h[n - 1], now, window, inclusive) then r + [h[n - 1]] else r
  }

  function InWindow(h: seq<real>, now: real, window: real, inclusive: bool): seq<real> {
    InWindowOf(h, now, window, inclusive, |h|)
  }

  predicate Sorted(h: seq<real>) {
    forall i, j | 0 <= i < j < |h| :: h[i] <= h[j]
  }

  predicate AtMost(h: seq<real>, bound: real) {
    forall i | 0 <= i < |h| :: h[i] <= bound
  }

  lemma {:induction false} InWindowPrefix(h: seq<real>, x: real, now: real, window: real, inclusive: bool, n: nat)
    requires n <= |h|
    ensures InWindowOf(h + [x], now, window, inclusive, n) == InWindowOf(h, now, window, inclusive, n)
  {
    if n > 0 { InWindowPrefix(h, x, now, window, inclusive, n - 1); }
  }

  lemma InWindowSnoc(h: seq<real>, x: real, now: real, window: real, inclusive: bool)
    ensures InWindow(h + [x], now, window, inclusive) ==
            if Within(x, now, window, inclusive) then InWindow(h, now, window, inclusive) + [x]
              else InWindow(h, now, window, inclusive)
  {
    InWindowPrefix(h, x, now, window, inclusive, |h|);
  }

  lemma {:induction false} InWindowAll(h: seq<real>, now: real, window: real, inclusive: bool, n: nat)
    requires n <= |h| && forall i | 0 <= i < n :: Within(h[i], now, window, inclusive)
    ensures InWindowOf(h, now, window, inclusive, n) == h[..n]
  {
    if n > 0 {
      InWindowAll(h, now, window, inclusive, n - 1);
      assert h[..n] == h[..n - 1] + [h[n - 1]];
    }
  }

  /** What has left the window by one time has left it at any later time. */
  lemma LeftForGood(x: real, then': real, now: real, window: real, inclusive: bool)
    requires then' <= now && Within(x, now, window, inclusive)
    ensures Within(x, then', window, inclusive)
  {
  }

  /** Looking again later is looking once at the later time. */
  lemma {:induction false} InWindowTwice(h: seq<real>, then': real, now: real, window: real, inclusive: bool, n: nat)
    requires n <= |h| && then' <= now
    ensures InWindow(InWindowOf(h, then', window, inclusive, n), now, window, inclusive)
         == InWindowOf(h, now, window, inclusive, n)
  {
    if n > 0 {
      var r, x := InWindowOf(h, then', window, inclusive, n - 1), h[n - 1];
      InWindowTwice(h, then', now, window, inclusive, n - 1);
      if Within(x, then', window, inclusive) {
        InWindowSnoc(r, x, now, window, inclusive);
      } else if Within(x, now, window, inclusive) {
        LeftForGood(x, then', now, window, inclusive);
        assert false;
      }
    }
  }

  lemma {:induction false} InWindowSorted(h: seq<real>, now: real, window: real, inclusive: bool, n: nat)
    requires n <= |h| && Sorted(h)
    ensures var r := InWindowOf(h, now, window, inclusive, n); Sorted(r) && (n > 0 ==> AtMost(r, h[n - 1]))
  {
    if n > 0 { InWindowSorted(h, now, window, inclusive, n - 1); }
  }

  lemma {:induction false} InWindowDropsFirst(q: seq<real>, now: real, window: real, inclusive: bool, n: nat)
    requires 0 < n <= |q| && !Within(q[0], now, window, inclusive)
    ensures InWindowOf(q, now, window, inclusive, n) == InWindowOf(q[1..], now, window, inclusive, n - 1)
  {
    if n > 1 { InWindowDropsFirst(q, now, window, inclusive, n - 1); }
  }

  /** On a sorted queue dropping from the front is dropping everything that has left the window. */
  lemma {:induction false} TrimmedIsInWindow(q: seq<real>, now: real, window: real, inclusive: bool)
    requires Sorted(q)
    ensures Trimmed(q, now, window, inclusive) == InWindow(q, now, window, inclusive)
  {
    if q != [] {
      if Within(q[0], now, window, inclusive) {
        InWindowAll(q, now, window, inclusive, |q|);
      } else {
        TrimmedIsInWindow(q[1..], now, window, inclusive);
        InWindowDropsFirst(q, now, window, inclusive, |q|);
      }
    }
  }

  /** A queue that held the window's part of h at one time holds it at a later time once it is trimmed. */
  lemma TrimmedCatchesUp(h: seq<real>, then': real, now: real, window: real, inclusive: bool)
    requires Sorted(h) && then' <= now
    ensures Trimmed(InWindow(h, then', window, inclusive), now, window, inclusive)
            == InWindow(h, now, window, inclusive)
  {
    InWindowSorted(h, then', window, inclusive, |h|);
    TrimmedIsInWindow(InWindow(h, then', window, inclusive), now, window, inclusive);
    InWindowTwice(h, then', now, window, inclusive, |h|);
  }

  lemma SortedSnoc(h: seq<real>, x: real)
    requires Sorted(h) && AtMost(h, x)
    ensures Sorted(h + [x]) && AtMost(h + [x], x)
  {
  }

  lemma {:induction false} TrimmedSnoc(q: seq<real>, x: real, now: real, window: real, inclusive: bool)
    requires Within(x, now, window, inclusive)
    ensures Trimmed(q + [x], now, window, inclusive) == Trimmed(q, now, window, inclusive) + [x]
  {
    if q != [] && !Within(q[0], now, window, inclusive) {
      TrimmedSnoc(q[1..], x, now, window, inclusive);
      assert (q + [x])[1..] == q[1..] + [x];
    }
  }
}
