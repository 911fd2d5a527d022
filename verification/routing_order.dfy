/** What a request gets to try, and in which order: the result of the router's candidate loops, and runs of requests. */
module CallOrder {
  import opened ModelRouting
  import opened Rotation
  import opened Text

  // ------------------------------------------------------------ leaving channels out keeps the order

  /** kept are the channels that stand at the places at, in the order of those places, which are the good ones. */
  ghost predicate Picks(order: seq<Channel>, kept: seq<Channel>, at: seq<nat>, good: Channel -> bool) {
    && |at| == |kept|
    && (forall k | 0 <= k < |at| :: at[k] < |order| && order[at[k]] == kept[k] && good(kept[k]))
    && (forall k, l | 0 <= k < l < |at| :: at[k] < at[l])
    && (forall i: nat | i < |order| && good(order[i]) :: i in at)
  }

  lemma PicksNext(order: seq<Channel>, n: nat, kept: seq<Channel>, at: seq<nat>, good: Channel -> bool)
    requires n < |order| && Picks(order[..n], kept, at, good)
    ensures if good(order[n]) then Picks(order[..n + 1], kept + [order[n]], at + [n], good)
            else Picks(order[..n + 1], kept, at, good)
  {
    var more := at + [n];
    forall i: nat | i < n && good(order[i]) ensures i in at && i in more {
      assert order[..n][i] == order[i];
      var k :| 0 <= k < |at| && at[k] == i;
      assert more[k] == i;
    }
    assert more[|at|] == n;
  }

  lemma {:induction false} WherePicks(channels: seq<Channel>, keep: Channel -> bool, n: nat) returns (at: seq<nat>)
    requires n <= |channels|
    ensures Picks(channels[..n], Where(channels, keep, n), at, keep)
  {
    at := [];
    if n > 0 {
      at := WherePicks(channels, keep, n - 1);
      PicksNext(channels, n - 1, Where(channels, keep, n - 1), at, keep);
      if keep(channels[n - 1]) { at := at + [n - 1]; }
    }
  }

  function Ready(expiry: Expiry, purpose: Purpose, now: real): Channel -> bool {
    (c: Channel) => !Cooling(expiry, c.name, purpose, now)
  }

  lemma {:induction false} AvailablePicks(order: seq<Channel>, n: nat, expiry: Expiry, purpose: Purpose, now: real)
    returns (at: seq<nat>)
    requires n <= |order|
    ensures Picks(order[..n], Available(order, n, expiry, purpose, now), at, Ready(expiry, purpose, now))
  {
    at := [];
    if n > 0 {
      at := AvailablePicks(order, n - 1, expiry, purpose, now);
      PicksNext(order, n - 1, Available(order, n - 1, expiry, purpose, now), at, Ready(expiry, purpose, now));
      if !Cooling(expiry, order[n - 1].name, purpose, now) { at := at + [n - 1]; }
    }
  }

  /** The channels that are not cooling down, in the order they stood in. */
  lemma NotCoolingPicks(order: seq<Channel>, expiry: Expiry, purpose: Purpose, now: real) returns (at: seq<nat>)
    ensures Picks(order, NotCooling(order, expiry, purpose, now), at, Ready(expiry, purpose, now))
  {
    at := AvailablePicks(order, |order|, expiry, purpose, now);
    assert order[..|order|] == order;
  }

  lemma PicksTwice(s: seq<Channel>, t: seq<Channel>, u: seq<Channel>, at: seq<nat>, within: seq<nat>,
                   p: Channel -> bool, q: Channel -> bool)
    returns (all: seq<nat>)
    requires Picks(s, t, at, p) && Picks(t, u, within, q)
    ensures Picks(s, u, all, (c: Channel) => p(c) && q(c))
  {
    all := seq(|u|, k requires 0 <= k < |u| => at[within[k]]);
    forall i: nat | i < |s| && p(s[i]) && q(s[i]) ensures i in all {
      var k: nat :| k < |at| && at[k] == i;
      assert k in within;
      var l :| 0 <= l < |within| && within[l] == k;
      assert all[l] == i;
    }
  }

  lemma FilterPicks(channels: seq<Channel>, keep: Channel -> bool) returns (at: seq<nat>)
    ensures Picks(channels, Filter(channels, keep), at, keep)
    ensures forall c :: c in Filter(channels, keep) <==> c in channels && keep(c)
  {
    at := WherePicks(channels, keep, |channels|);
    assert channels[..|channels|] == channels;
    FilterIn(channels, keep);
  }

  lemma PicksMembers(s: seq<Channel>, t: seq<Channel>, u: seq<Channel>, at: seq<nat>, within: seq<nat>,
                     p: Channel -> bool, q: Channel -> bool)
    returns (all: seq<nat>)
    requires Picks(s, t, at, p) && Picks(t, u, within, q) && forall c | c in u :: p(c) && q(c)
    ensures Picks(s, u, all, (c: Channel) => c in u)
  {
    all := PicksTwice(s, t, u, at, within, p, q);
  }

  /** The eligible channels, which EligibleIff tells, stand in the order of the configured list. */
  lemma EligiblePicks(channels: seq<Channel>, purpose: Purpose, tier: string) returns (at: seq<nat>)
    ensures Picks(channels, Eligible(channels, purpose, tier), at,
                  (c: Channel) => c in Eligible(channels, purpose, tier))
  {
    var able, asked := (c: Channel) => c.enabled && purpose in c.models, (c: Channel) => c.tier == tier;
    var usable, default := Filter(channels, able), (c: Channel) => c.tier == DEFAULT_TIER;
    at := FilterPicks(channels, able);
    if Filter(usable, asked) != [] {
      var within := FilterPicks(usable, asked);
      at := PicksMembers(channels, usable, Filter(usable, asked), at, within, able, asked);
    } else if tier != DEFAULT_TIER && Filter(usable, default) != [] {
      var within := FilterPicks(usable, default);
      at := PicksMembers(channels, usable, Filter(usable, default), at, within, able, default);
    }
  }

  // ------------------------------------------------------------ the order within one priority

  /** Going round the pool from place start, c is met and d is not met up to there. */
  ghost predicate MetFirst(pool: seq<Channel>, start: nat, c: Channel, d: Channel) {
    pool != [] && exists q: nat :: q < |pool| && MetAt(pool, start, c, d, q)
  }

  ghost predicate MetAt(pool: seq<Channel>, start: nat, c: Channel, d: Channel, q: nat)
    requires pool != []
  {
    PlaceAt(pool, start, q) == c && forall u: nat | u <= q :: PlaceAt(pool, start, u) != d
  }

  /** The channel q places further round. */
  function PlaceAt(pool: seq<Channel>, start: nat, q: nat): Channel
    requires pool != []
  {
    pool[(start + q) % |pool|]
  }

  lemma {:induction false} SeenAt(pool: seq<Channel>, start: nat, n: nat, i: nat) returns (q: nat)
    requires pool != [] && i < |Seen(pool, start, n)|
    ensures q < n && Seen(pool, start, n)[i] == PlaceAt(pool, start, q)
  {
    ModIs(start + n - 1, |pool|);
    if i < |Seen(pool, start, n - 1)| { q := SeenAt(pool, start, n - 1, i); } else { q := n - 1; }
  }

  lemma {:induction false} SeenInOrder(pool: seq<Channel>, start: nat, n: nat, i: nat, j: nat) returns (q: nat)
    requires pool != [] && i < j < |Seen(pool, start, n)|
    ensures q < n && MetAt(pool, start, Seen(pool, start, n)[i], Seen(pool, start, n)[j], q)
  {
    var r := Seen(pool, start, n - 1);
    if j < |r| {
      q := SeenInOrder(pool, start, n - 1, i, j);
    } else {
      q := SeenAt(pool, start, n - 1, i);
      var d := pool[Mod(start + n - 1, |pool|)];
      SeenCount(pool, start, d, n - 1);
      forall u: nat | u <= q ensures PlaceAt(pool, start, u) != d {
        ModIs(start + u, |pool|);
        if PlaceAt(pool, start, u) == d { PlacesAt(pool, start, d, n - 1, u); }
      }
    }
  }

  lemma TurnInOrder(pool: seq<Channel>, start: nat, i: nat, j: nat)
    requires i < j < |Turn(pool, start)|
    ensures MetFirst(pool, start, Turn(pool, start)[i], Turn(pool, start)[j])
  {
    var q := SeenInOrder(pool, start, |pool|, i, j);
  }

  lemma {:induction false} FlattenHolds(turns: seq<seq<Channel>>, m: nat, n: nat, i: nat)
    requires m < n <= |turns| && |Flatten(turns, m)| <= i < |Flatten(turns, m + 1)|
    ensures i < |Flatten(turns, n)| && i - |Flatten(turns, m)| < |turns[m]|
    ensures Flatten(turns, n)[i] == turns[m][i - |Flatten(turns, m)|]
  {
    if m < n - 1 { FlattenHolds(turns, m, n - 1, i); }
  }

  /**
   * A better priority comes first; within priority number l the channel comes first that the cursor, moved on by l,
   * meets first going round the priority's pool.
   */
  ghost predicate Sooner(all: seq<Channel>, cursor: nat, c: Channel, d: Channel) {
    || c.priority < d.priority
    || (c.priority == d.priority && exists l: nat :: l < |Priorities(all)| && Priorities(all)[l] == c.priority
                                                     && MetFirst(Pool(Level(all, c.priority)), cursor + l, c, d))
  }

  lemma OrderInOrder(all: seq<Channel>, cursor: nat, i: nat, j: nat)
    requires i < j < |Order(all, cursor)|
    ensures Sooner(all, cursor, Order(all, cursor)[i], Order(all, cursor)[j])
  {
    BetterFirst(all, cursor, i, j);
    var order := Order(all, cursor);
    if order[i].priority == order[j].priority { SameLevelInOrder(all, cursor, i, j); }
  }

  lemma SameLevelInOrder(all: seq<Channel>, cursor: nat, i: nat, j: nat)
    requires i < j < |Order(all, cursor)|
    requires Order(all, cursor)[i].priority == Order(all, cursor)[j].priority
    ensures Sooner(all, cursor, Order(all, cursor)[i], Order(all, cursor)[j])
  {
    var ps := Priorities(all);
    var turns := Turns(all, ps, |ps|, cursor);
    TurnsByPriority(all, cursor);
    var m := FlattenAt(turns, ps, |ps|, i);
    var l := FlattenAt(turns, ps, |ps|, j);
    if m != l { Different(ps, m, l); }
    var before := |Flatten(turns, m)|;
    FlattenHolds(turns, m, |ps|, i);
    FlattenHolds(turns, m, |ps|, j);
    TurnsAt(all, ps, |ps|, cursor, m);
    TurnInOrder(Pool(Level(all, ps[m])), cursor + m, i - before, j - before);
  }

  /** What a request gets to try: all channels that are ready and no other, each sooner than the ones behind it. */
  ghost predicate Preferred(all: seq<Channel>, cursor: nat, good: Channel -> bool, listed: seq<Channel>) {
    && (forall c :: c in listed <==> c in all && good(c))
    && (forall i: nat, j: nat | i < j < |listed| :: Sooner(all, cursor, listed[i], listed[j]))
  }

  /** Nobody is listed twice: a channel is not sooner than itself. */
  lemma SoonerIsStrict(all: seq<Channel>, cursor: nat, c: Channel)
    ensures !Sooner(all, cursor, c, c)
  {
    forall pool: seq<Channel>, start: nat, q: nat | pool != [] ensures !MetAt(pool, start, c, c, q) {
      var there := PlaceAt(pool, start, q);
    }
  }

  lemma ListedInOrder(all: seq<Channel>, cursor: nat, expiry: Expiry, purpose: Purpose, now: real)
    ensures Preferred(all, cursor, Ready(expiry, purpose, now),
                      NotCooling(Order(all, cursor), expiry, purpose, now))
  {
    var order, good := Order(all, cursor), Ready(expiry, purpose, now);
    var listed := NotCooling(order, expiry, purpose, now);
    var at := NotCoolingPicks(order, expiry, purpose, now);
    forall c ensures c in listed <==> c in all && good(c) {
      EachListedOnce(all, cursor, c);
      CountIn(order, c);
      if c in order && good(c) {
        var i: nat :| i < |order| && order[i] == c;
        assert i in at;
      }
    }
    forall i: nat, j: nat | i < j < |listed| ensures Sooner(all, cursor, listed[i], listed[j]) {
      assert order[at[i]] == listed[i] && order[at[j]] == listed[j];
      OrderInOrder(all, cursor, at[i], at[j]);
    }
  }

  // ------------------------------------------------------------ the pool

  /** The pool goes through the level, and gives every channel as many places as its weight says. */
  lemma {:induction false} PoolAt(level: seq<Channel>, j: nat, n: nat, q: nat)
    requires j < n <= |level| && Taken(level, j) <= q < Taken(level, j) + level[j].weight
    ensures |PoolOf(level, n)| == Taken(level, n) > q && PoolOf(level, n)[q] == level[j]
  {
    PoolSize(level, n - 1);
    PoolSize(level, n);
    if j < n - 1 {
      PoolAt(level, j, n - 1, q);
    } else {
      CopiesAt(level[j], level[j].weight, q - Taken(level, j));
    }
  }

  function Named(name: string): Channel -> bool {
    (c: Channel) => c.name == name
  }

  lemma {:induction false} WherePrefix(a: seq<Channel>, b: seq<Channel>, keep: Channel -> bool, n: nat)
    requires n <= |a|
    ensures Where(a + b, keep, n) == Where(a, keep, n)
  {
    if n > 0 { WherePrefix(a, b, keep, n - 1); }
  }

  lemma WhereMore(s: seq<Channel>, c: Channel, keep: Channel -> bool)
    ensures Filter(s + [c], keep) == Filter(s, keep) + if keep(c) then [c] else []
  {
    WherePrefix(s, [c], keep, |s|);
  }

  lemma {:induction false} FirstWhere(s: seq<Channel>, n: nat, keep: Channel -> bool)
    requires n <= |s|
    ensures Filter(First(s, n), keep) == Where(s, keep, n)
  {
    if n > 0 {
      FirstWhere(s, n - 1, keep);
      WhereMore(First(s, n - 1), s[n - 1], keep);
    }
  }

  lemma {:induction false} InsertIsStable(c: Channel, s: seq<Channel>, n: nat, name: string)
    requires n <= |s|
    ensures Filter(InsertByName(c, s, n), Named(name))
            == Where(s, Named(name), n) + if c.name == name then [c] else []
  {
    if n == 0 || !StrLess(c.name, s[n - 1].name) {
      FirstWhere(s, n, Named(name));
      WhereMore(First(s, n), c, Named(name));
    } else {
      InsertIsStable(c, s, n - 1, name);
      WhereMore(InsertByName(c, s, n - 1), s[n - 1], Named(name));
      StrLessIrreflexive(c.name);
    }
  }

  /** Channels of one name keep the order of the list: with LevelByName this tells the whole level. */
  lemma {:induction false} LevelIsStable(channels: seq<Channel>, priority: nat, n: nat, name: string)
    requires n <= |channels|
    ensures Filter(LevelOf(channels, priority, n), Named(name))
            == Where(channels, (c: Channel) => c.priority == priority && c.name == name, n)
  {
    if n > 0 {
      LevelIsStable(channels, priority, n - 1, name);
      var r := LevelOf(channels, priority, n - 1);
      if channels[n - 1].priority == priority { InsertIsStable(channels[n - 1], r, |r|, name); }
    }
  }

  // ------------------------------------------------------------ runs of requests

  /** One request: its eligible channels, and the cooldowns and the time it finds. */
  datatype Request = Request(purpose: Purpose, candidates: seq<Channel>, expiry: Expiry, now: real)

  /** The cursors that request n finds. */
  function CursorsAt(cursors: map<Purpose, nat>, requests: seq<Request>, n: nat): map<Purpose, nat>
    requires n <= |requests|
  {
    if n == 0 then cursors else
      Moved(CursorsAt(cursors, requests, n - 1), requests[n - 1].candidates, requests[n - 1].purpose)
  }

  /** What request n gets to try. */
  function Listed(cursors: map<Purpose, nat>, requests: seq<Request>, n: nat): seq<Channel>
    requires n < |requests|
  {
    var r := requests[n];
    NotCooling(Order(r.candidates, CursorOf(CursorsAt(cursors, requests, n), r.purpose)), r.expiry, r.purpose, r.now)
  }

  function RequestsFor(requests: seq<Request>, purpose: Purpose, n: nat): nat
    requires n <= |requests|
  {
    if n == 0 then 0 else
      RequestsFor(requests, purpose, n - 1) + if requests[n - 1].purpose == purpose then 1 else 0
  }

  /** Every request for the purpose has the candidates all, and none of them is cooling down. */
  ghost predicate Steady(requests: seq<Request>, purpose: Purpose, all: seq<Channel>) {
    forall n | 0 <= n < |requests| && requests[n].purpose == purpose ::
      requests[n].candidates == all
        && forall c | c in all :: !Cooling(requests[n].expiry, c.name, purpose, requests[n].now)
  }

  /** How many requests for the purpose, among the first n, who holds of. */
  function HowMany(requests: seq<Request>, purpose: Purpose, who: nat -> bool, n: nat): nat
    requires n <= |requests|
  {
    if n == 0 then 0 else
      HowMany(requests, purpose, who, n - 1) + if requests[n - 1].purpose == purpose && who(n - 1) then 1 else 0
  }

  /** Whether a request's list has c before every other channel of its priority. */
  function LedBy(cursors: map<Purpose, nat>, requests: seq<Request>, c: Channel): nat -> bool {
    (n: nat) => n < |requests| && Leader(Listed(cursors, requests, n), c.priority) == Some(c)
  }

  /** Whether a request tries c before any other channel. */
  function FirstTried(cursors: map<Purpose, nat>, requests: seq<Request>, c: Channel): nat -> bool {
    (n: nat) => n < |requests| && Listed(cursors, requests, n) != [] && Listed(cursors, requests, n)[0] == c
  }

  lemma CursorNext(cursors: map<Purpose, nat>, candidates: seq<Channel>, asked: Purpose, purpose: Purpose, step: nat)
    requires asked == purpose ==> step == |Priorities(candidates)|
    ensures CursorOf(Moved(cursors, candidates, asked), purpose)
            == CursorOf(cursors, purpose) + if asked == purpose then step else 0
  {
    if candidates == [] { assert Priorities(candidates) == []; }
  }

  lemma CursorMoves(cursors: map<Purpose, nat>, requests: seq<Request>, purpose: Purpose, all: seq<Channel>, n: nat)
    requires n < |requests| && Steady(requests, purpose, all)
    ensures CursorOf(CursorsAt(cursors, requests, n + 1), purpose)
            == CursorOf(CursorsAt(cursors, requests, n), purpose)
               + if requests[n].purpose == purpose then |Priorities(all)| else 0
  {
    var r := requests[n];
    assert r.purpose == purpose ==> r.candidates == all;
    CursorNext(CursorsAt(cursors, requests, n), r.candidates, r.purpose, purpose, |Priorities(all)|);
  }

  /** Requests for other purposes leave a purpose's cursor alone; its own move it on by the number of priorities. */
  lemma {:induction false} CursorOnly(cursors: map<Purpose, nat>, requests: seq<Request>, purpose: Purpose,
                                      all: seq<Channel>, n: nat)
    requires n <= |requests| && Steady(requests, purpose, all)
    ensures CursorOf(CursorsAt(cursors, requests, n), purpose)
            == Cursor(CursorOf(cursors, purpose), |Priorities(all)|, RequestsFor(requests, purpose, n))
  {
    if n > 0 {
      CursorOnly(cursors, requests, purpose, all, n - 1);
      CursorMoves(cursors, requests, purpose, all, n - 1);
    }
  }

  lemma {:induction false} AllReady(order: seq<Channel>, n: nat, expiry: Expiry, purpose: Purpose, now: real)
    requires n <= |order| && forall c | c in order[..n] :: !Cooling(expiry, c.name, purpose, now)
    ensures Available(order, n, expiry, purpose, now) == order[..n]
  {
    if n > 0 {
      forall c | c in order[..n - 1] ensures !Cooling(expiry, c.name, purpose, now) { assert c in order[..n]; }
      AllReady(order, n - 1, expiry, purpose, now);
      assert order[n - 1] in order[..n];
    }
  }

  lemma ListedIsOrder(cursors: map<Purpose, nat>, requests: seq<Request>, purpose: Purpose, all: seq<Channel>, n: nat)
    requires n < |requests| && requests[n].purpose == purpose && Steady(requests, purpose, all)
    ensures Listed(cursors, requests, n)
            == Order(all, Cursor(CursorOf(cursors, purpose), |Priorities(all)|, RequestsFor(requests, purpose, n)))
  {
    CursorOnly(cursors, requests, purpose, all, n);
    var order := Order(all, CursorOf(CursorsAt(cursors, requests, n), purpose));
    forall c | c in order ensures c in all {
      EachListedOnce(all, CursorOf(CursorsAt(cursors, requests, n), purpose), c);
      CountIn(order, c);
    }
    assert order[..|order|] == order;
    AllReady(order, |order|, requests[n].expiry, purpose, requests[n].now);
  }

  lemma {:induction false} CountedByCursor(requests: seq<Request>, purpose: Purpose, who: nat -> bool,
                                           leads: nat -> bool, cursor: nat, k: nat, n: nat)
    requires n <= |requests|
    requires forall t: nat | t < |requests| && requests[t].purpose == purpose ::
               who(t) == leads(Cursor(cursor, k, RequestsFor(requests, purpose, t)))
    ensures HowMany(requests, purpose, who, n) == Leads(leads, cursor, k, RequestsFor(requests, purpose, n))
  {
    if n > 0 { CountedByCursor(requests, purpose, who, leads, cursor, k, n - 1); }
  }

  lemma LedIsLeads(cursors: map<Purpose, nat>, requests: seq<Request>, purpose: Purpose, all: seq<Channel>, c: Channel)
    requires Steady(requests, purpose, all)
    ensures HowMany(requests, purpose, LedBy(cursors, requests, c), |requests|) == Leads(Leading(all, c),
              CursorOf(cursors, purpose), |Priorities(all)|, RequestsFor(requests, purpose, |requests|))
  {
    var who, leads, cursor, k := LedBy(cursors, requests, c), Leading(all, c), CursorOf(cursors, purpose),
      |Priorities(all)|;
    forall t: nat | t < |requests| && requests[t].purpose == purpose
      ensures who(t) == leads(Cursor(cursor, k, RequestsFor(requests, purpose, t)))
    {
      ListedIsOrder(cursors, requests, purpose, all, t);
    }
    CountedByCursor(requests, purpose, who, leads, cursor, k, |requests|);
  }

  /**
   * In a run of requests in which a purpose always has the same candidates, ready all of them, and is asked for as
   * often as the total weight of c's priority, whatever is asked for in between: c is listed before the others of its
   * priority exactly weight times if and only if the greatest common divisor of that total and of the number of
   * priorities divides its weight.
   */
  lemma FairOverRequests(cursors: map<Purpose, nat>, requests: seq<Request>, purpose: Purpose, all: seq<Channel>,
                         c: Channel)
    requires Steady(requests, purpose, all) && Total(all, c) == 1
    requires RequestsFor(requests, purpose, |requests|) == |Pool(Level(all, c.priority))|
    ensures var k, w := |Priorities(all)|, |Pool(Level(all, c.priority))|;
            w > 0 && (HowMany(requests, purpose, LedBy(cursors, requests, c), |requests|) == c.weight <==>
              c.weight % Gcd(k, w) == 0)
  {
    LedIsLeads(cursors, requests, purpose, all, c);
    ExactShare(all, c, CursorOf(cursors, purpose));
  }

  /** The first channel listed is the leader of its priority, and a channel of the best priority leads only there. */
  lemma BestIsFirst(all: seq<Channel>, cursor: nat, c: Channel)
    requires c in all && forall d | d in all :: c.priority <= d.priority
    ensures Order(all, cursor) != []
    ensures Leader(Order(all, cursor), c.priority) == Some(c) <==> Order(all, cursor)[0] == c
  {
    var order := Order(all, cursor);
    EachListedOnce(all, cursor, c);
    CountIn(order, c);
    EachListedOnce(all, cursor, order[0]);
    CountIn(order, order[0]);
    var i: nat :| i < |order| && order[i] == c;
    if i > 0 { BetterFirst(all, cursor, 0, i); }
    FirstOfHead(order, c.priority, |order|);
  }

  lemma {:induction false} SameNumber(requests: seq<Request>, purpose: Purpose, p: nat -> bool, q: nat -> bool, n: nat)
    requires n <= |requests|
    requires forall t: nat {:trigger p(t)} | t < |requests| && requests[t].purpose == purpose :: p(t) == q(t)
    ensures HowMany(requests, purpose, p, n) == HowMany(requests, purpose, q, n)
  {
    if n > 0 { SameNumber(requests, purpose, p, q, n - 1); }
  }

  lemma FirstIsLed(cursors: map<Purpose, nat>, requests: seq<Request>, purpose: Purpose, all: seq<Channel>, c: Channel)
    requires Steady(requests, purpose, all) && c in all && forall d | d in all :: c.priority <= d.priority
    ensures HowMany(requests, purpose, FirstTried(cursors, requests, c), |requests|)
            == HowMany(requests, purpose, LedBy(cursors, requests, c), |requests|)
  {
    var p, q := FirstTried(cursors, requests, c), LedBy(cursors, requests, c);
    forall t: nat {:trigger p(t)} | t < |requests| && requests[t].purpose == purpose ensures p(t) == q(t) {
      ListedIsOrder(cursors, requests, purpose, all, t);
      BestIsFirst(all, Cursor(CursorOf(cursors, purpose), |Priorities(all)|, RequestsFor(requests, purpose, t)), c);
    }
    SameNumber(requests, purpose, p, q, |requests|);
  }

  /** The same of a channel of the best priority and of being tried before any other. */
  lemma FirstTriedShare(cursors: map<Purpose, nat>, requests: seq<Request>, purpose: Purpose, all: seq<Channel>,
                        c: Channel)
    requires Steady(requests, purpose, all) && Total(all, c) == 1 && forall d | d in all :: c.priority <= d.priority
    requires RequestsFor(requests, purpose, |requests|) == |Pool(Level(all, c.priority))|
    ensures var k, w := |Priorities(all)|, |Pool(Level(all, c.priority))|;
            && w > 0
            && (HowMany(requests, purpose, FirstTried(cursors, requests, c), |requests|) == c.weight <==>
               c.weight % Gcd(k, w) == 0)
  {
    CountIn(all, c);
    FairOverRequests(cursors, requests, purpose, all, c);
    FirstIsLed(cursors, requests, purpose, all, c);
  }

  /** With a worse priority behind them, one of two equal channels is never tried first in any such run. */
  lemma NeverTriedFirst(cursors: map<Purpose, nat>, requests: seq<Request>, purpose: Purpose,
                                           a: Channel, b: Channel, z: Channel)
    requires StrLess(a.name, b.name) && a.priority == b.priority < z.priority && a.weight == b.weight == 1
    requires Steady(requests, purpose, [a, b, z])
    ensures var c := if CursorOf(cursors, purpose) % 2 == 0 then b else a;
            HowMany(requests, purpose, FirstTried(cursors, requests, c), |requests|) == 0
  {
    var cursor := CursorOf(cursors, purpose);
    var c := if cursor % 2 == 0 then b else a;
    TwoPrioritiesStarve(a, b, z, cursor, RequestsFor(requests, purpose, |requests|));
    LedIsLeads(cursors, requests, purpose, [a, b, z], c);
    FirstIsLed(cursors, requests, purpose, [a, b, z], c);
  }
}
