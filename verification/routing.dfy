/** Weighted channel rotation with failover: infrastructure/model_routing.py. */
module ModelRouting {
  import opened Rotation
  import opened Text

  datatype Purpose = CHAT | MEMORY | EMBEDDING | VISION

  /** ModelChannel validates weight >= 1. */
  type Weight = w: int | w >= 1 witness 1

  datatype Channel = Channel(name: string, url: string, priority: nat, weight: Weight, tier: string, enabled: bool,
                             models: map<Purpose, string>)

  const DEFAULT_TIER := "default"

  // ------------------------------------------------------------ which channels, in which order
  // A function with a parameter n works on the first n elements of its sequence.

  function Where(channels: seq<Channel>, keep: Channel -> bool, n: nat): seq<Channel>
    requires n <= |channels|
  {
    if n == 0 then [] else
      var r := Where(channels, keep, n - 1);
      if keep(channels[n - 1]) then r + [channels[n - 1]] else r
  }

  function Filter(channels: seq<Channel>, keep: Channel -> bool): seq<Channel> {
    Where(channels, keep, |channels|)
  }

  /**
   * Enabled channels for the purpose, from the tier asked for; failing that from the default tier; failing that any.
   */
  function Eligible(channels: seq<Channel>, purpose: Purpose, tier: string): seq<Channel> {
    var usable := Filter(channels, (c: Channel) => c.enabled && purpose in c.models);
    var matching := Filter(usable, (c: Channel) => c.tier == tier);
    var defaults := Filter(usable, (c: Channel) => c.tier == DEFAULT_TIER);
    if matching != [] then matching
    else if tier != DEFAULT_TIER && defaults != [] then defaults
    else usable
  }

  lemma {:induction false} WhereIn(channels: seq<Channel>, keep: Channel -> bool, n: nat, c: Channel)
    requires n <= |channels|
    ensures c in Where(channels, keep, n) <==> c in channels[..n] && keep(c)
  {
    if n > 0 {
      WhereIn(channels, keep, n - 1, c);
      assert channels[..n] == channels[..n - 1] + [channels[n - 1]];
    }
  }

  lemma FilterIn(channels: seq<Channel>, keep: Channel -> bool)
    ensures forall c :: c in Filter(channels, keep) <==> c in channels && keep(c)
  {
    forall c
      ensures c in Filter(channels, keep) <==> c in channels && keep(c)
    {
      WhereIn(channels, keep, |channels|, c);
    }
    assert channels[..|channels|] == channels;
  }

  predicate Usable(channels: seq<Channel>, purpose: Purpose, c: Channel) {
    c in channels && c.enabled && purpose in c.models
  }

  /** A request falls back only as far as it must: to the default tier, then to every tier. */
  lemma EligibleIff(channels: seq<Channel>, purpose: Purpose, tier: string, c: Channel)
    ensures c in Eligible(channels, purpose, tier) <==>
            && Usable(channels, purpose, c)
            && (c.tier == tier
                || (!(exists d :: Usable(channels, purpose, d) && d.tier == tier)
                    && (c.tier == DEFAULT_TIER || tier == DEFAULT_TIER
                       || !(exists d :: Usable(channels, purpose, d) && d.tier == DEFAULT_TIER))))
  {
    var usable := Filter(channels, (x: Channel) => x.enabled && purpose in x.models);
    FilterIn(channels, (x: Channel) => x.enabled && purpose in x.models);
    FilterIn(usable, (x: Channel) => x.tier == tier);
    FilterIn(usable, (x: Channel) => x.tier == DEFAULT_TIER);
    Present(Filter(usable, (x: Channel) => x.tier == tier));
    Present(Filter(usable, (x: Channel) => x.tier == DEFAULT_TIER));
  }

  lemma Present(s: seq<Channel>)
    ensures s != [] <==> exists d :: d in s
  {
    if s != [] { assert s[0] in s; }
  }

  function First<T>(s: seq<T>, n: nat): seq<T>
    requires n <= |s|
  {
    if n == 0 then [] else First(s, n - 1) + [s[n - 1]]
  }

  function InsertPriority(p: nat, s: seq<nat>, n: nat): seq<nat>
    requires n <= |s|
  {
    if n == 0 || s[n - 1] < p then First(s, n) + [p]
    else if s[n - 1] == p then First(s, n)
    else InsertPriority(p, s, n - 1) + [s[n - 1]]
  }

  function PrioritySet(channels: seq<Channel>, n: nat): seq<nat>
    requires n <= |channels|
  {
    if n == 0 then [] else
      var r := PrioritySet(channels, n - 1);
      InsertPriority(channels[n - 1].priority, r, |r|)
  }

  /** sorted({channel.priority for channel in channels}) */
  function Priorities(channels: seq<Channel>): seq<nat> {
    PrioritySet(channels, |channels|)
  }

  function InsertByName(c: Channel, s: seq<Channel>, n: nat): seq<Channel>
    requires n <= |s|
  {
    if n == 0 || !StrLess(c.name, s[n - 1].name) then First(s, n) + [c]
    else InsertByName(c, s, n - 1) + [s[n - 1]]
  }

  function LevelOf(channels: seq<Channel>, priority: nat, n: nat): seq<Channel>
    requires n <= |channels|
  {
    if n == 0 then [] else
      var r := LevelOf(channels, priority, n - 1);
      if channels[n - 1].priority == priority then InsertByName(channels[n - 1], r, |r|) else r
  }

  /** The channels of one priority under sorted(..., key=lambda channel: channel.name), which is stable. */
  function Level(channels: seq<Channel>, priority: nat): seq<Channel> {
    LevelOf(channels, priority, |channels|)
  }

  function Copies(c: Channel, n: nat): seq<Channel> {
    if n == 0 then [] else Copies(c, n - 1) + [c]
  }

  function PoolOf(level: seq<Channel>, n: nat): seq<Channel>
    requires n <= |level|
  {
    if n == 0 then [] else PoolOf(level, n - 1) + Copies(level[n - 1], level[n - 1].weight)
  }

  /** Every channel of the level, repeated weight times. */
  function Pool(level: seq<Channel>): seq<Channel> {
    PoolOf(level, |level|)
  }

  /** First occurrences among n places of the pool, read round from place start. */
  function Seen(pool: seq<Channel>, start: nat, n: nat): seq<Channel>
    requires pool != []
  {
    if n == 0 then [] else
      var r := Seen(pool, start, n - 1);
      var c := pool[Mod(start + n - 1, |pool|)];
      if Count(r, c, |r|) > 0 then r else r + [c]
  }

  /** One level's order when the purpose's cursor stands at start. */
  function Turn(pool: seq<Channel>, start: nat): seq<Channel> {
    if pool == [] then [] else Seen(pool, start, |pool|)
  }

  /** The orders of the first n levels; each takes the next value of the cursor. */
  function Turns(channels: seq<Channel>, ps: seq<nat>, n: nat, cursor: nat): (r: seq<seq<Channel>>)
    requires n <= |ps|
    ensures |r| == n
  {
    if n == 0 then [] else Turns(channels, ps, n - 1, cursor) + [Turn(Pool(Level(channels, ps[n - 1])), cursor + n - 1)]
  }

  function Flatten(turns: seq<seq<Channel>>, n: nat): seq<Channel>
    requires n <= |turns|
  {
    if n == 0 then [] else Flatten(turns, n - 1) + turns[n - 1]
  }

  /** The order tried by one call when the purpose's cursor is at cursor. */
  function Order(channels: seq<Channel>, cursor: nat): seq<Channel> {
    var ps := Priorities(channels);
    var turns := Turns(channels, ps, |ps|, cursor);
    Flatten(turns, |turns|)
  }

  lemma {:induction false} TurnsAt(channels: seq<Channel>, ps: seq<nat>, n: nat, cursor: nat, m: nat)
    requires m < n <= |ps|
    ensures Turns(channels, ps, n, cursor)[m] == Turn(Pool(Level(channels, ps[m])), cursor + m)
  {
    if m < n - 1 { TurnsAt(channels, ps, n - 1, cursor, m); }
  }

  // ------------------------------------------------------------ every candidate once

  function Count(s: seq<Channel>, c: Channel, n: nat): nat
    requires n <= |s|
  {
    if n == 0 then 0 else Count(s, c, n - 1) + if s[n - 1] == c then 1 else 0
  }

  function Total(s: seq<Channel>, c: Channel): nat {
    Count(s, c, |s|)
  }

  lemma {:induction false} CountPrefix(a: seq<Channel>, b: seq<Channel>, c: Channel, n: nat)
    requires n <= |a|
    ensures Count(a + b, c, n) == Count(a, c, n)
  {
    if n > 0 { CountPrefix(a, b, c, n - 1); }
  }

  lemma {:induction false} CountConcatTo(a: seq<Channel>, b: seq<Channel>, c: Channel, m: nat)
    requires m <= |b|
    ensures Count(a + b, c, |a| + m) == Total(a, c) + Count(b, c, m)
  {
    if m == 0 { CountPrefix(a, b, c, |a|); } else { CountConcatTo(a, b, c, m - 1); }
  }

  lemma CountConcat(a: seq<Channel>, b: seq<Channel>, c: Channel)
    ensures Total(a + b, c) == Total(a, c) + Total(b, c)
  {
    CountConcatTo(a, b, c, |b|);
  }

  lemma CountOneMore(s: seq<Channel>, x: Channel, c: Channel)
    ensures Total(s + [x], c) == Total(s, c) + if x == c then 1 else 0
  {
    CountPrefix(s, [x], c, |s|);
  }

  lemma {:induction false} CountAt(s: seq<Channel>, c: Channel, n: nat, i: nat)
    requires i < n <= |s| && s[i] == c
    ensures Count(s, c, n) > 0
  {
    if i < n - 1 { CountAt(s, c, n - 1, i); }
  }

  lemma {:induction false} CountFinds(s: seq<Channel>, c: Channel, n: nat) returns (i: nat)
    requires n <= |s| && Count(s, c, n) > 0
    ensures i < n && s[i] == c
  {
    if s[n - 1] == c { i := n - 1; } else { i := CountFinds(s, c, n - 1); }
  }

  lemma CountIn(s: seq<Channel>, c: Channel)
    ensures Total(s, c) > 0 <==> c in s
  {
    if Total(s, c) > 0 { var i := CountFinds(s, c, |s|); }
    if c in s {
      var i :| 0 <= i < |s| && s[i] == c;
      CountAt(s, c, |s|, i);
    }
  }

  lemma {:induction false} FirstCount(s: seq<Channel>, c: Channel, n: nat)
    requires n <= |s|
    ensures Total(First(s, n), c) == Count(s, c, n)
  {
    if n > 0 {
      FirstCount(s, c, n - 1);
      CountOneMore(First(s, n - 1), s[n - 1], c);
    }
  }

  lemma {:induction false} InsertByNameCount(x: Channel, s: seq<Channel>, n: nat, c: Channel)
    requires n <= |s|
    ensures Total(InsertByName(x, s, n), c) == Count(s, c, n) + if x == c then 1 else 0
  {
    if n == 0 || !StrLess(x.name, s[n - 1].name) {
      FirstCount(s, c, n);
      CountOneMore(First(s, n), x, c);
    } else {
      InsertByNameCount(x, s, n - 1, c);
      CountOneMore(InsertByName(x, s, n - 1), s[n - 1], c);
    }
  }

  lemma {:induction false} LevelOfCount(channels: seq<Channel>, priority: nat, n: nat, c: Channel)
    requires n <= |channels|
    ensures Total(LevelOf(channels, priority, n), c) == if c.priority == priority then Count(channels, c, n) else 0
  {
    if n > 0 {
      var r := LevelOf(channels, priority, n - 1);
      LevelOfCount(channels, priority, n - 1, c);
      if channels[n - 1].priority == priority { InsertByNameCount(channels[n - 1], r, |r|, c); }
    }
  }

  lemma LevelCount(channels: seq<Channel>, priority: nat, c: Channel)
    ensures Total(Level(channels, priority), c) == if c.priority == priority then Total(channels, c) else 0
  {
    LevelOfCount(channels, priority, |channels|, c);
  }

  /** No name before a smaller one. */
  ghost predicate ByName(s: seq<Channel>, n: nat)
    requires n <= |s|
  {
    n <= 1 || (!StrLess(s[n - 1].name, s[n - 2].name) && ByName(s, n - 1))
  }

  lemma {:induction false} ByNamePrefix(a: seq<Channel>, b: seq<Channel>, n: nat)
    requires n <= |a|
    ensures ByName(a + b, n) <==> ByName(a, n)
  {
    if n > 1 { ByNamePrefix(a, b, n - 1); }
  }

  lemma {:induction false} FirstByName(s: seq<Channel>, n: nat)
    requires n <= |s| && ByName(s, n)
    ensures |First(s, n)| == n && ByName(First(s, n), n) && (n > 0 ==> First(s, n)[n - 1] == s[n - 1])
  {
    if n > 0 {
      FirstByName(s, n - 1);
      ByNamePrefix(First(s, n - 1), [s[n - 1]], n - 1);
    }
  }

  lemma {:induction false} InsertedByName(x: Channel, s: seq<Channel>, n: nat)
    requires n <= |s| && ByName(s, n)
    ensures var r := InsertByName(x, s, n);
            && |r| == n + 1 && ByName(r, n + 1)
            && r[n] == if n > 0 && StrLess(x.name, s[n - 1].name) then s[n - 1] else x
  {
    if n == 0 || !StrLess(x.name, s[n - 1].name) {
      FirstByName(s, n);
      ByNamePrefix(First(s, n), [x], n);
    } else {
      InsertedByName(x, s, n - 1);
      ByNamePrefix(InsertByName(x, s, n - 1), [s[n - 1]], n);
      StrLessTotal(x.name, s[n - 1].name);
    }
  }

  /** The channels of one priority stand in the order of their names. */
  lemma {:induction false} LevelByName(channels: seq<Channel>, priority: nat, n: nat)
    requires n <= |channels|
    ensures var r := LevelOf(channels, priority, n); ByName(r, |r|)
  {
    if n > 0 {
      LevelByName(channels, priority, n - 1);
      var r := LevelOf(channels, priority, n - 1);
      InsertedByName(channels[n - 1], r, |r|);
    }
  }

  lemma {:induction false} CopiesCount(x: Channel, n: nat, c: Channel)
    ensures Total(Copies(x, n), c) == (if x == c then n else 0) && |Copies(x, n)| == n
  {
    if n > 0 {
      CopiesCount(x, n - 1, c);
      CountOneMore(Copies(x, n - 1), x, c);
    }
  }

  /** The pool holds each channel of the level weight times. */
  lemma {:induction false} PoolCount(level: seq<Channel>, c: Channel, n: nat)
    requires n <= |level|
    ensures Total(PoolOf(level, n), c) == c.weight * Count(level, c, n)
  {
    if n > 0 {
      var last := level[n - 1];
      PoolCount(level, c, n - 1);
      CopiesCount(last, last.weight, c);
      CountConcat(PoolOf(level, n - 1), Copies(last, last.weight), c);
      Distribute(c.weight, Count(level, c, n - 1), 1);
    }
  }

  /** How many of n places, read round from start, hold c. */
  function Places(pool: seq<Channel>, start: nat, c: Channel, n: nat): nat
    requires pool != []
  {
    if n == 0 then 0 else Places(pool, start, c, n - 1) + if pool[Mod(start + n - 1, |pool|)] == c then 1 else 0
  }

  lemma {:induction false} SeenCount(pool: seq<Channel>, start: nat, c: Channel, n: nat)
    requires pool != []
    ensures Total(Seen(pool, start, n), c) == if Places(pool, start, c, n) > 0 then 1 else 0
  {
    if n > 0 {
      SeenCount(pool, start, c, n - 1);
      CountOneMore(Seen(pool, start, n - 1), pool[Mod(start + n - 1, |pool|)], c);
    }
  }

  lemma {:induction false} PlacesAt(pool: seq<Channel>, start: nat, c: Channel, n: nat, i: nat)
    requires pool != [] && i < n && pool[Mod(start + i, |pool|)] == c
    ensures Places(pool, start, c, n) > 0
  {
    if i < n - 1 { PlacesAt(pool, start, c, n - 1, i); }
  }

  lemma {:induction false} PlacesCount(pool: seq<Channel>, start: nat, c: Channel, n: nat)
    requires pool != [] && Places(pool, start, c, n) > 0
    ensures Total(pool, c) > 0
  {
    var q := Mod(start + n - 1, |pool|);
    if pool[q] == c { CountAt(pool, c, |pool|, q); } else { PlacesCount(pool, start, c, n - 1); }
  }

  lemma {:induction false} ModReach(start: nat, w: nat, q: nat) returns (i: nat)
    requires q < w
    ensures i < w && Mod(start + i, w) == q
  {
    if start >= w {
      i := ModReach(start - w, w, q);
    } else {
      i := if q >= start then q - start else q + w - start;
    }
  }

  lemma TurnCount(pool: seq<Channel>, start: nat, c: Channel)
    ensures Total(Turn(pool, start), c) == if Total(pool, c) > 0 then 1 else 0
  {
    if pool != [] {
      SeenCount(pool, start, c, |pool|);
      if Places(pool, start, c, |pool|) > 0 { PlacesCount(pool, start, c, |pool|); }
      if Total(pool, c) > 0 {
        var q := CountFinds(pool, c, |pool|);
        var i := ModReach(start, |pool|, q);
        PlacesAt(pool, start, c, |pool|, i);
      }
    }
  }

  lemma TurnOfLevel(channels: seq<Channel>, p: nat, start: nat, c: Channel)
    ensures Total(Turn(Pool(Level(channels, p)), start), c)
            == if c.priority == p && Total(channels, c) > 0 then 1 else 0
  {
    var level := Level(channels, p);
    TurnCount(Pool(level), start, c);
    PoolCount(level, c, |level|);
    AtLeastOnce(c.weight, Total(level, c));
    LevelCount(channels, p, c);
  }

  ghost predicate Ascending(s: seq<nat>, n: nat)
    requires n <= |s|
  {
    n <= 1 || (s[n - 2] < s[n - 1] && Ascending(s, n - 1))
  }

  predicate Among(p: nat, ps: seq<nat>, n: nat)
    requires n <= |ps|
  {
    n > 0 && (ps[n - 1] == p || Among(p, ps, n - 1))
  }

  lemma {:induction false} AmongBelow(p: nat, ps: seq<nat>, n: nat)
    requires n < |ps| && Ascending(ps, n + 1) && Among(p, ps, n)
    ensures p < ps[n]
  {
    if ps[n - 1] != p { AmongBelow(p, ps, n - 1); }
  }

  /** Turns of different priorities, together, list a channel once if one of them does. */
  lemma {:induction false} ListedOnce(turns: seq<seq<Channel>>, ps: seq<nat>, n: nat, c: Channel, present: bool)
    requires n <= |ps| == |turns| && Ascending(ps, n)
    requires forall m | 0 <= m < n :: Total(turns[m], c) == if c.priority == ps[m] && present then 1 else 0
    ensures Total(Flatten(turns, n), c) == if Among(c.priority, ps, n) && present then 1 else 0
  {
    if n > 0 {
      ListedOnce(turns, ps, n - 1, c, present);
      CountConcat(Flatten(turns, n - 1), turns[n - 1], c);
      if c.priority == ps[n - 1] && Among(c.priority, ps, n - 1) { AmongBelow(c.priority, ps, n - 1); }
    }
  }

  lemma {:induction false} AscendingPrefix(a: seq<nat>, b: seq<nat>, n: nat)
    requires n <= |a| && Ascending(a, n)
    ensures Ascending(a + b, n)
  {
    if n > 1 { AscendingPrefix(a, b, n - 1); }
  }

  lemma {:induction false} AmongPrefix(a: seq<nat>, b: seq<nat>, x: nat, n: nat)
    requires n <= |a|
    ensures Among(x, a + b, n) <==> Among(x, a, n)
  {
    if n > 0 { AmongPrefix(a, b, x, n - 1); }
  }

  lemma {:induction false} FirstAscends(s: seq<nat>, n: nat, x: nat)
    requires n <= |s|
    ensures |First(s, n)| == n
    ensures Ascending(s, n) ==> Ascending(First(s, n), n)
    ensures Among(x, First(s, n), n) <==> Among(x, s, n)
    ensures n > 0 ==> First(s, n)[n - 1] == s[n - 1]
  {
    if n > 0 {
      FirstAscends(s, n - 1, x);
      AmongPrefix(First(s, n - 1), [s[n - 1]], x, n - 1);
      if Ascending(s, n) { AscendingPrefix(First(s, n - 1), [s[n - 1]], n - 1); }
    }
  }

  lemma {:induction false} InsertedPriority(p: nat, s: seq<nat>, n: nat, x: nat)
    requires n <= |s| && Ascending(s, n)
    ensures var r := InsertPriority(p, s, n);
            && r != [] && Ascending(r, |r|) && (Among(x, r, |r|) <==> x == p || Among(x, s, n))
            && r[|r| - 1] == if n > 0 && s[n - 1] > p then s[n - 1] else p
  {
    if n == 0 || s[n - 1] <= p {
      FirstAscends(s, n, x);
      AmongPrefix(First(s, n), [p], x, n);
      AscendingPrefix(First(s, n), [p], n);
    } else {
      var r := InsertPriority(p, s, n - 1);
      InsertedPriority(p, s, n - 1, x);
      AmongPrefix(r, [s[n - 1]], x, |r|);
      AscendingPrefix(r, [s[n - 1]], |r|);
    }
  }

  lemma {:induction false} PrioritySetHolds(channels: seq<Channel>, n: nat, x: nat)
    requires n <= |channels|
    ensures var ps := PrioritySet(channels, n);
            Ascending(ps, |ps|) && (Among(x, ps, |ps|) <==> exists i :: 0 <= i < n && channels[i].priority == x)
  {
    if n > 0 {
      PrioritySetHolds(channels, n - 1, x);
      var r := PrioritySet(channels, n - 1);
      InsertedPriority(channels[n - 1].priority, r, |r|, x);
    }
  }

  /** Every order lists every candidate exactly once, wherever the cursor stands. */
  lemma EachListedOnce(channels: seq<Channel>, cursor: nat, c: Channel)
    ensures Total(Order(channels, cursor), c) == if c in channels then 1 else 0
  {
    var ps := Priorities(channels);
    PrioritySetHolds(channels, |channels|, c.priority);
    var turns := Turns(channels, ps, |ps|, cursor);
    forall m | 0 <= m < |ps|
      ensures Total(turns[m], c) == if c.priority == ps[m] && Total(channels, c) > 0 then 1 else 0
    {
      TurnsAt(channels, ps, |ps|, cursor, m);
      TurnOfLevel(channels, ps[m], cursor + m, c);
    }
    ListedOnce(turns, ps, |ps|, c, Total(channels, c) > 0);
    CountIn(channels, c);
  }

  ghost predicate AllOf(s: seq<Channel>, p: nat) {
    forall k | 0 <= k < |s| :: s[k].priority == p
  }

  lemma TurnPriority(channels: seq<Channel>, p: nat, start: nat)
    ensures AllOf(Turn(Pool(Level(channels, p)), start), p)
  {
    var turn := Turn(Pool(Level(channels, p)), start);
    forall k | 0 <= k < |turn| ensures turn[k].priority == p {
      CountAt(turn, turn[k], |turn|, k);
      TurnOfLevel(channels, p, start, turn[k]);
    }
  }

  /** Place i of flattened turns comes from one of them, and later places from later turns. */
  lemma {:induction false} FlattenAt(turns: seq<seq<Channel>>, ps: seq<nat>, n: nat, i: nat) returns (m: nat)
    requires n <= |ps| == |turns| && Ascending(ps, n) && i < |Flatten(turns, n)|
    requires forall m | 0 <= m < n :: AllOf(turns[m], ps[m])
    ensures m < n && Flatten(turns, n)[i].priority == ps[m]
    ensures |Flatten(turns, m)| <= i < |Flatten(turns, m + 1)|
  {
    var before := |Flatten(turns, n - 1)|;
    if i < before {
      m := FlattenAt(turns, ps, n - 1, i);
    } else {
      m := n - 1;
      assert turns[m][i - before].priority == ps[m];
    }
  }

  lemma {:induction false} FlattenGrows(turns: seq<seq<Channel>>, m: nat, n: nat)
    requires m <= n <= |turns|
    ensures |Flatten(turns, m)| <= |Flatten(turns, n)|
  {
    if m < n { FlattenGrows(turns, m, n - 1); }
  }

  lemma {:induction false} AscendingAt(ps: seq<nat>, n: nat, a: nat, b: nat)
    requires a <= b < n <= |ps| && Ascending(ps, n)
    ensures ps[a] <= ps[b]
  {
    if b < n - 1 { AscendingAt(ps, n - 1, a, b); } else if a < b { AscendingAt(ps, n - 1, a, b - 1); }
  }

  /** Every turn holds channels of its own priority only, and the priorities ascend. */
  ghost predicate ByPriority(turns: seq<seq<Channel>>, ps: seq<nat>) {
    |turns| == |ps| && Ascending(ps, |ps|) && forall m | 0 <= m < |ps| :: AllOf(turns[m], ps[m])
  }

  lemma TurnsByPriority(channels: seq<Channel>, cursor: nat)
    ensures ByPriority(Turns(channels, Priorities(channels), |Priorities(channels)|, cursor), Priorities(channels))
  {
    var ps := Priorities(channels);
    var turns := Turns(channels, ps, |ps|, cursor);
    PrioritySetHolds(channels, |channels|, 0);
    forall m | 0 <= m < |ps| ensures AllOf(turns[m], ps[m]) {
      TurnsAt(channels, ps, |ps|, cursor, m);
      TurnPriority(channels, ps[m], cursor + m);
    }
  }

  /** Better priorities come first. */
  lemma BetterFirst(channels: seq<Channel>, cursor: nat, i: nat, j: nat)
    requires i < j < |Order(channels, cursor)|
    ensures Order(channels, cursor)[i].priority <= Order(channels, cursor)[j].priority
  {
    TurnsByPriority(channels, cursor);
    var ps := Priorities(channels);
    BetterTurnsFirst(Turns(channels, ps, |ps|, cursor), ps, i, j);
  }

  lemma BetterTurnsFirst(turns: seq<seq<Channel>>, ps: seq<nat>, i: nat, j: nat)
    requires ByPriority(turns, ps) && i < j < |Flatten(turns, |turns|)|
    ensures Flatten(turns, |turns|)[i].priority <= Flatten(turns, |turns|)[j].priority
  {
    var a := FlattenAt(turns, ps, |ps|, i);
    var b := FlattenAt(turns, ps, |ps|, j);
    if b < a { FlattenGrows(turns, b + 1, a); }
    AscendingAt(ps, |ps|, a, b);
  }

  // ------------------------------------------------------------ fairness

  /** The first channel of a priority among the first n of an order. */
  function FirstOf(order: seq<Channel>, priority: nat, n: nat): Option<Channel>
    requires n <= |order|
  {
    if n == 0 then None else
      var earlier := FirstOf(order, priority, n - 1);
      if earlier.Some? then earlier else if order[n - 1].priority == priority then Some(order[n - 1]) else None
  }

  function Leader(order: seq<Channel>, priority: nat): Option<Channel> {
    FirstOf(order, priority, |order|)
  }

  lemma {:induction false} FirstOfPrefix(a: seq<Channel>, b: seq<Channel>, priority: nat, n: nat)
    requires n <= |a|
    ensures FirstOf(a + b, priority, n) == FirstOf(a, priority, n)
  {
    if n > 0 { FirstOfPrefix(a, b, priority, n - 1); }
  }

  lemma {:induction false} FirstOfConcat(a: seq<Channel>, b: seq<Channel>, priority: nat, m: nat)
    requires m <= |b|
    ensures FirstOf(a + b, priority, |a| + m) ==
            if Leader(a, priority).Some? then Leader(a, priority) else FirstOf(b, priority, m)
  {
    if m == 0 { FirstOfPrefix(a, b, priority, |a|); } else { FirstOfConcat(a, b, priority, m - 1); }
  }

  lemma {:induction false} FirstOfCounted(order: seq<Channel>, priority: nat, n: nat)
    requires n <= |order| && FirstOf(order, priority, n).Some?
    ensures var c := FirstOf(order, priority, n).value; c.priority == priority && Count(order, c, n) > 0
  {
    if FirstOf(order, priority, n - 1).Some? { FirstOfCounted(order, priority, n - 1); }
  }

  lemma {:induction false} FirstOfHead(order: seq<Channel>, priority: nat, n: nat)
    requires 0 < n <= |order| && order[0].priority == priority
    ensures FirstOf(order, priority, n) == Some(order[0])
  {
    if n > 1 { FirstOfHead(order, priority, n - 1); }
  }

  lemma {:induction false} SeenHead(pool: seq<Channel>, start: nat, n: nat)
    requires pool != [] && n > 0
    ensures Seen(pool, start, n) != [] && Seen(pool, start, n)[0] == pool[Mod(start, |pool|)]
  {
    if n > 1 { SeenHead(pool, start, n - 1); }
  }

  lemma TurnLeader(channels: seq<Channel>, p: nat, start: nat)
    requires Pool(Level(channels, p)) != []
    ensures var pool := Pool(Level(channels, p));
            Leader(Turn(pool, start), p) == Some(pool[Mod(start, |pool|)])
  {
    var pool := Pool(Level(channels, p));
    SeenHead(pool, start, |pool|);
    TurnPriority(channels, p, start);
    FirstOfHead(Turn(pool, start), p, |Turn(pool, start)|);
  }

  lemma {:induction false} NoLeader(order: seq<Channel>, p: nat, q: nat, n: nat)
    requires n <= |order| && AllOf(order, p) && p != q
    ensures FirstOf(order, q, n) == None
  {
    if n > 0 { NoLeader(order, p, q, n - 1); }
  }

  lemma {:induction false} FlattenLeader(turns: seq<seq<Channel>>, ps: seq<nat>, n: nat, i: nat)
    requires i < |ps| && n <= |ps| && ByPriority(turns, ps)
    ensures Leader(Flatten(turns, n), ps[i]) == if i < n then Leader(turns[i], ps[i]) else None
  {
    if n > 0 {
      FlattenLeader(turns, ps, n - 1, i);
      FirstOfConcat(Flatten(turns, n - 1), turns[n - 1], ps[i], |turns[n - 1]|);
      if n - 1 != i {
        Different(ps, n - 1, i);
        NoLeader(turns[n - 1], ps[n - 1], ps[i], |turns[n - 1]|);
      }
    }
  }

  lemma Different(ps: seq<nat>, a: nat, b: nat)
    requires a < |ps| && b < |ps| && a != b && Ascending(ps, |ps|)
    ensures ps[a] != ps[b]
  {
    if a < b { StrictlyAt(ps, |ps|, a, b); } else { StrictlyAt(ps, |ps|, b, a); }
  }

  lemma {:induction false} StrictlyAt(ps: seq<nat>, n: nat, a: nat, b: nat)
    requires a < b < n <= |ps| && Ascending(ps, n)
    ensures ps[a] < ps[b]
  {
    if b < n - 1 { StrictlyAt(ps, n - 1, a, b); } else { AscendingAt(ps, n - 1, a, b - 1); }
  }

  lemma OrderLeader(channels: seq<Channel>, cursor: nat, i: nat)
    requires i < |Priorities(channels)|
    ensures var p := Priorities(channels)[i];
            Leader(Order(channels, cursor), p) == Leader(Turn(Pool(Level(channels, p)), cursor + i), p)
  {
    var ps := Priorities(channels);
    TurnsByPriority(channels, cursor);
    TurnsAt(channels, ps, |ps|, cursor, i);
    FlattenLeader(Turns(channels, ps, |ps|, cursor), ps, |ps|, i);
  }

  /** Level i is led by the channel at place cursor + i of its pool. */
  lemma LevelLeader(channels: seq<Channel>, cursor: nat, i: nat)
    requires i < |Priorities(channels)| && Pool(Level(channels, Priorities(channels)[i])) != []
    ensures var p := Priorities(channels)[i];
            var pool := Pool(Level(channels, p));
            Leader(Order(channels, cursor), p) == Some(pool[Mod(cursor + i, |pool|)])
  {
    OrderLeader(channels, cursor, i);
    TurnLeader(channels, Priorities(channels)[i], cursor + i);
  }

  /** How often leads holds over n consecutive calls, each of which moves the cursor on by k. */
  function Leads(leads: nat -> bool, cursor: nat, k: nat, n: nat): nat {
    Holding((t: nat) => leads(Cursor(cursor, k, t)), n)
  }

  /** Whether a channel leads its priority, by the cursor. */
  function Leading(channels: seq<Channel>, c: Channel): nat -> bool {
    (cursor: nat) => Leader(Order(channels, cursor), c.priority) == Some(c)
  }

  /** The places of the pool taken by the first j channels of a level. */
  function Taken(level: seq<Channel>, j: nat): nat
    requires j <= |level|
  {
    if j == 0 then 0 else Taken(level, j - 1) + level[j - 1].weight
  }

  lemma {:induction false} PoolSize(level: seq<Channel>, n: nat)
    requires n <= |level|
    ensures |PoolOf(level, n)| == Taken(level, n)
  {
    if n > 0 {
      PoolSize(level, n - 1);
      CopiesCount(level[n - 1], level[n - 1].weight, level[n - 1]);
    }
  }

  lemma {:induction false} TakenFits(level: seq<Channel>, j: nat, n: nat)
    requires j < n <= |level|
    ensures Taken(level, j) + level[j].weight <= Taken(level, n)
  {
    if j < n - 1 { TakenFits(level, j, n - 1); }
  }

  lemma {:induction false} CopiesAt(c: Channel, n: nat, q: nat)
    requires q < n
    ensures |Copies(c, n)| == n && Copies(c, n)[q] == c
  {
    if q < n - 1 { CopiesAt(c, n - 1, q); } else { CopiesCount(c, n - 1, c); }
  }

  lemma NotInPool(level: seq<Channel>, c: Channel, n: nat, q: nat)
    requires n <= |level| && Count(level, c, n) == 0 && q < |PoolOf(level, n)|
    ensures PoolOf(level, n)[q] != c
  {
    PoolCount(level, c, n);
    if PoolOf(level, n)[q] == c { CountAt(PoolOf(level, n), c, |PoolOf(level, n)|, q); }
  }

  /** A channel that is listed once occupies one block of the pool. */
  lemma {:induction false} PoolBlock(level: seq<Channel>, j: nat, n: nat, q: nat)
    requires j < n <= |level| && q < |PoolOf(level, n)| && Count(level, level[j], n) == 1
    ensures PoolOf(level, n)[q] == level[j] <==> Taken(level, j) <= q < Taken(level, j) + level[j].weight
  {
    var last, size := level[n - 1], |PoolOf(level, n - 1)|;
    PoolSize(level, n - 1);
    CopiesCount(last, last.weight, last);
    if q >= size { CopiesAt(last, last.weight, q - size); }
    if j == n - 1 {
      if q < size { NotInPool(level, last, n - 1, q); }
    } else {
      CountAt(level, level[j], n - 1, j);
      TakenFits(level, j, n - 1);
      if q < size { PoolBlock(level, j, n - 1, q); }
    }
  }

  /** Whether a channel that is listed once leads its level depends on the place of the cursor alone. */
  lemma LeadsAt(channels: seq<Channel>, i: nat, level: seq<Channel>, j: nat, cursor: nat)
    requires i < |Priorities(channels)| && level == Level(channels, Priorities(channels)[i])
    requires j < |level| && Total(level, level[j]) == 1
    ensures level[j].priority == Priorities(channels)[i] && |Pool(level)| > 0
    ensures Leader(Order(channels, cursor), level[j].priority) == Some(level[j]) <==>
            Taken(level, j) <= Mod(cursor + i, |Pool(level)|) < Taken(level, j) + level[j].weight
  {
    var ps := Priorities(channels);
    LevelCount(channels, ps[i], level[j]);
    PoolSize(level, |level|);
    TakenFits(level, j, |level|);
    LevelLeader(channels, cursor, i);
    PoolBlock(level, j, |level|, Mod(cursor + i, |Pool(level)|));
  }

  lemma {:induction false} CursorShift(cursor: nat, i: nat, k: nat, t: nat)
    ensures Cursor(cursor + i, k, t) == Cursor(cursor, k, t) + i
  {
    if t > 0 { CursorShift(cursor, i, k, t - 1); }
  }

  lemma LeadsAreHits(leads: nat -> bool, i: nat, w: nat, lo: nat, hi: nat, cursor: nat, k: nat, n: nat)
    requires w > 0 && forall at: nat {:trigger leads(at)} :: leads(at) <==> lo <= Mod(at + i, w) < hi
    ensures Leads(leads, cursor, k, n) == BlockHits(cursor + i, k, w, lo, hi, n)
  {
    var p, q := (t: nat) => leads(Cursor(cursor, k, t)), (t: nat) => lo <= Place(cursor + i, k, t, w) < hi;
    forall t: nat ensures p(t) == q(t) { CursorShift(cursor, i, k, t); }
    HoldingSame(p, q, n);
    BlockHolding(cursor + i, k, w, lo, hi, n);
  }

  lemma {:induction false} AmongFinds(x: nat, ps: seq<nat>, n: nat) returns (i: nat)
    requires n <= |ps| && Among(x, ps, n)
    ensures i < n && ps[i] == x
  {
    if ps[n - 1] == x { i := n - 1; } else { i := AmongFinds(x, ps, n - 1); }
  }

  lemma Locate(channels: seq<Channel>, c: Channel) returns (i: nat, j: nat)
    requires Total(channels, c) == 1
    ensures i < |Priorities(channels)| && Priorities(channels)[i] == c.priority
    ensures var level := Level(channels, c.priority); j < |level| && level[j] == c && Total(level, c) == 1
  {
    var at := CountFinds(channels, c, |channels|);
    PrioritySetHolds(channels, |channels|, c.priority);
    i := AmongFinds(c.priority, Priorities(channels), |Priorities(channels)|);
    LevelCount(channels, c.priority, c);
    j := CountFinds(Level(channels, c.priority), c, |Level(channels, c.priority)|);
  }

  /**
   * Over as many consecutive calls as its priority's total weight, a channel leads its priority exactly weight times
   * if and only if the greatest common divisor of the number of priorities and that total weight divides its weight.
   */
  lemma ExactShare(channels: seq<Channel>, c: Channel, cursor: nat)
    requires Total(channels, c) == 1
    ensures var k, w := |Priorities(channels)|, |Pool(Level(channels, c.priority))|;
            w > 0 && (Leads(Leading(channels, c), cursor, k, w) == c.weight <==> c.weight % Gcd(k, w) == 0)
  {
    var i, j := Locate(channels, c);
    var level, k, leads := Level(channels, c.priority), |Priorities(channels)|, Leading(channels, c);
    var w, lo := |Pool(level)|, Taken(level, j);
    PoolSize(level, |level|);
    TakenFits(level, j, |level|);
    forall at: nat ensures leads(at) <==> lo <= Mod(at + i, w) < lo + c.weight {
      LeadsAt(channels, i, level, j, at);
    }
    LeadsAreHits(leads, i, w, lo, lo + c.weight, cursor, k, w);
    ExactShareIff(cursor + i, k, w, lo, lo + c.weight);
  }

  /** With a single priority the rotation is exactly fair for every channel. */
  lemma OnePriorityIsFair(channels: seq<Channel>, c: Channel, cursor: nat)
    requires Total(channels, c) == 1 && |Priorities(channels)| == 1
    ensures Leads(Leading(channels, c), cursor, 1, |Pool(Level(channels, c.priority))|) == c.weight
  {
    ExactShare(channels, c, cursor);
    GcdOne(|Pool(Level(channels, c.priority))|);
  }

  lemma GcdOne(w: nat)
    ensures Gcd(1, w) == 1
  {
    var x, y := Bezout(1, w);
    var g := Gcd(1, w);
    AtLeastOnce(g, 1 / g);
    AtLeastOnce(1 / g, g);
  }

  lemma {:induction false} HoldingNever(p: nat -> bool, n: nat)
    requires forall t: nat :: !p(t)
    ensures Holding(p, n) == 0
  {
    if n > 0 { HoldingNever(p, n - 1); }
  }

  /** With a worse priority behind them, two equal channels do not share: the same one leads for ever. */
  lemma TwoPrioritiesStarve(a: Channel, b: Channel, z: Channel, cursor: nat, n: nat)
    requires StrLess(a.name, b.name) && a.priority == b.priority < z.priority && a.weight == b.weight == 1
    ensures |Priorities([a, b, z])| == 2
    ensures Leads(Leading([a, b, z], if cursor % 2 == 0 then b else a), cursor, 2, n) == 0
  {
    SamplePriorities(a, b, z);
    var c := if cursor % 2 == 0 then b else a;
    var leads := Leading([a, b, z], c);
    var p := (t: nat) => leads(Cursor(cursor, 2, t));
    forall t: nat ensures !p(t) {
      CursorIs(cursor, 2, t);
      SampleLeader(a, b, z, Cursor(cursor, 2, t));
    }
    HoldingNever(p, n);
  }

  lemma SampleLeader(a: Channel, b: Channel, z: Channel, cursor: nat)
    requires StrLess(a.name, b.name) && a.priority == b.priority < z.priority && a.weight == b.weight == 1
    ensures Leader(Order([a, b, z], cursor), a.priority) == Some(if cursor % 2 == 0 then a else b) && a != b
  {
    StrLessTotal(a.name, b.name);
    SamplePriorities(a, b, z);
    SamplePool(a, b, z);
    LevelLeader([a, b, z], cursor, 0);
    ModIs(cursor, 2);
  }

  lemma SamplePriorities(a: Channel, b: Channel, z: Channel)
    requires a.priority == b.priority < z.priority
    ensures Priorities([a, b, z]) == [a.priority, z.priority]
  {
    var s, p := [a, b, z], [a.priority];
    assert PrioritySet(s, 1) == p;
    assert First(p, 1) == p;
    assert PrioritySet(s, 2) == p;
    assert InsertPriority(z.priority, p, 1) == [a.priority, z.priority];
  }

  lemma SamplePool(a: Channel, b: Channel, z: Channel)
    requires !StrLess(b.name, a.name) && a.priority == b.priority != z.priority && a.weight == b.weight == 1
    ensures Pool(Level([a, b, z], a.priority)) == [a, b]
  {
    var s, p := [a, b, z], a.priority;
    assert LevelOf(s, p, 1) == [a];
    assert First([a], 1) == [a];
    assert InsertByName(b, [a], 1) == [a, b];
    assert LevelOf(s, p, 2) == [a, b];
    SampleCopies(a, b);
  }

  lemma SampleCopies(a: Channel, b: Channel)
    requires a.weight == b.weight == 1
    ensures Pool([a, b]) == [a, b]
  {
    assert Copies(a, 1) == [a];
    assert Copies(b, 1) == [b];
    assert PoolOf([a, b], 1) == [a];
  }

  // ------------------------------------------------------------ cooldowns and failover

  type Expiry = map<(string, Purpose), real>

  predicate Cooling(expiry: Expiry, name: string, purpose: Purpose, now: real) {
    (if (name, purpose) in expiry then expiry[(name, purpose)] else 0.0) > now
  }

  /** The channels among the first n of an order that are not cooling down. */
  function Available(order: seq<Channel>, n: nat, expiry: Expiry, purpose: Purpose, now: real): seq<Channel>
    requires n <= |order|
  {
    if n == 0 then [] else
      var r := Available(order, n - 1, expiry, purpose, now);
      if Cooling(expiry, order[n - 1].name, purpose, now) then r else r + [order[n - 1]]
  }

  function NotCooling(order: seq<Channel>, expiry: Expiry, purpose: Purpose, now: real): seq<Channel> {
    Available(order, |order|, expiry, purpose, now)
  }

  lemma {:induction false} AvailableHolds(order: seq<Channel>, n: nat, expiry: Expiry, purpose: Purpose, now: real,
                                          c: Channel)
    requires n <= |order|
    ensures Total(Available(order, n, expiry, purpose, now), c) ==
            if Cooling(expiry, c.name, purpose, now) then 0 else Count(order, c, n)
  {
    if n > 0 {
      AvailableHolds(order, n - 1, expiry, purpose, now, c);
      CountOneMore(Available(order, n - 1, expiry, purpose, now), order[n - 1], c);
    }
  }

  /** The cooldowns after the first n channels tried have failed, each at the time its failure was seen. */
  function Cooled(expiry: Expiry, tried: seq<Channel>, n: nat, purpose: Purpose, clock: Channel -> real,
                  ttl: real): Expiry
    requires n <= |tried|
  {
    if n == 0 then expiry else
      Cooled(expiry, tried, n - 1, purpose, clock, ttl)[(tried[n - 1].name, purpose) := clock(tried[n - 1]) + ttl]
  }

  /**
   * A failed channel cools down for exactly ttl from its last failure; other names and other purposes are left alone.
   */
  lemma {:induction false} CooledExactly(expiry: Expiry, tried: seq<Channel>, n: nat, purpose: Purpose,
                                         clock: Channel -> real, ttl: real, name: string, q: Purpose, now: real)
    requires n <= |tried|
    ensures var after := Cooled(expiry, tried, n, purpose, clock, ttl);
            && (forall j | 0 <= j < n && tried[j].name == name && (forall k | j < k < n :: tried[k].name != name) ::
                  Cooling(after, name, purpose, now) <==> now < clock(tried[j]) + ttl)
            && ((forall j | 0 <= j < n :: tried[j].name != name) || q != purpose ==>
                  (Cooling(after, name, q, now) <==> Cooling(expiry, name, q, now)))
  {
    if n > 0 {
      CooledExactly(expiry, tried, n - 1, purpose, clock, ttl, name, q, now);
      if tried[n - 1].name == name {
        assert Cooled(expiry, tried, n, purpose, clock, ttl)[(name, purpose)] == clock(tried[n - 1]) + ttl;
      }
    }
  }

  /** What a call does: answer, raise an LlmError, or end in any other exception, cancellation included. */
  datatype Reply = Answer(text: string) | Failure(retryable: bool, error: string) | Breaks(error: string)

  datatype Outcome =
    | Answered(channel: Channel, text: string)
    | Raised(retryable: bool, error: string)
    | Escaped(error: string)

  function CursorOf(cursors: map<Purpose, nat>, purpose: Purpose): nat {
    if purpose in cursors then cursors[purpose] else 0
  }

  predicate Fails(r: Reply) {
    r.Failure? && r.retryable
  }

  /**
   * Which channels one request tries: tried of them fail and the next, if any, settles the outcome. An attempt is
   * recorded of every channel called, except of one that breaks the request off.
   */
  ghost predicate Served(order: seq<Channel>, calls: Channel -> Reply, tried: nat, attempts: seq<Channel>,
                         outcome: Outcome)
  {
    && tried <= |order| && (forall j | 0 <= j < tried :: Fails(calls(order[j])))
    && if tried < |order| then
         && !Fails(calls(order[tried]))
         && attempts == order[..tried] + (if calls(order[tried]).Breaks? then [] else [order[tried]])
         && outcome == match calls(order[tried])
                       case Answer(text) => Answered(order[tried], text)
                       case Failure(retryable, error) => Raised(retryable, error)
                       case Breaks(error) => Escaped(error)
       else
         && attempts == order
         && outcome == Raised(true, if order == [] then NO_CHANNEL else Error(calls(order[tried - 1])))
  }

  const NO_CHANNEL := "no available model channel"

  function Error(r: Reply): string {
    if r.Failure? then r.error else ""
  }

  /** The cursors after one request: one step for every priority that has candidates. */
  function Moved(cursors: map<Purpose, nat>, candidates: seq<Channel>, purpose: Purpose): map<Purpose, nat> {
    if candidates == [] then cursors else cursors[purpose := CursorOf(cursors, purpose) + |Priorities(candidates)|]
  }
}
