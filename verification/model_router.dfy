/** The router object: infrastructure/model_routing.py, its candidate loops and its failover loop. */
module ModelRouters {
  import opened CallOrder
  import opened ModelRouting
  import opened Rotation
  import opened Text

  class ModelRouter {
    var cursors: map<Purpose, nat>
    var expiry: Expiry
    const cooldown: real

    constructor (cooldown: real)
      ensures cursors == map[] && expiry == map[] && this.cooldown == cooldown
    {
      cursors, expiry, this.cooldown := map[], map[], cooldown;
    }

    method IsCooling(name: string, purpose: Purpose, now: real) returns (cooling: bool)
      ensures cooling <==> Cooling(expiry, name, purpose, now)
    {
      var until := 0.0;
      if (name, purpose) in expiry { until := expiry[(name, purpose)]; }
      return until > now;
    }

    method Candidates(channels: seq<Channel>, purpose: Purpose, tier: string, now: real)
      returns (available: seq<Channel>)
      modifies this`cursors
      ensures var all := Eligible(channels, purpose, tier);
              && available == NotCooling(Order(all, CursorOf(old(cursors), purpose)), expiry, purpose, now)
              && Preferred(all, CursorOf(old(cursors), purpose), Ready(expiry, purpose, now), available)
              && cursors == Moved(old(cursors), all, purpose)
    {
      var all := Eligible(channels, purpose, tier);
      var ordered, next := OrderLevels(all, CursorOf(cursors, purpose));
      NoPriorities(all);
      ListedInOrder(all, CursorOf(cursors, purpose), expiry, purpose, now);
      if next > CursorOf(cursors, purpose) { cursors := cursors[purpose := next]; }
      ghost var moved := cursors;
      available := [];
      for i := 0 to |ordered|
        invariant available == Available(ordered, i, expiry, purpose, now)
        invariant cursors == moved
      {
        var cooling := IsCooling(ordered[i].name, purpose, now);
        if !cooling { available := available + [ordered[i]]; }
      }
    }

    /**
     * One request: calls is what each channel would reply, clock when its failure would be seen, tried how many failed.
     */
    method Complete(channels: seq<Channel>, purpose: Purpose, tier: string, now: real, calls: Channel -> Reply,
                    clock: Channel -> real)
      returns (outcome: Outcome, attempts: seq<Channel>, ghost tried: nat)
      modifies this
      ensures var all := Eligible(channels, purpose, tier);
              var order := NotCooling(Order(all, CursorOf(old(cursors), purpose)), old(expiry), purpose, now);
              && Served(order, calls, tried, attempts, outcome)
              && Preferred(all, CursorOf(old(cursors), purpose), Ready(old(expiry), purpose, now), order)
              && (attempts != [] ==> order != [] && attempts[0] == order[0])
              && expiry == Cooled(old(expiry), order, tried, purpose, clock, cooldown)
              && cursors == Moved(old(cursors), all, purpose)
    {
      var order := Candidates(channels, purpose, tier, now);
      var after;
      outcome, attempts, after, tried := TryEach(order, expiry, purpose, calls, clock, cooldown);
      expiry := after;
    }
  }

  /** The failover loop. */
  method TryEach(order: seq<Channel>, expiry: Expiry, purpose: Purpose, calls: Channel -> Reply, clock: Channel -> real,
                 cooldown: real)
    returns (outcome: Outcome, attempts: seq<Channel>, after: Expiry, ghost tried: nat)
    ensures Served(order, calls, tried, attempts, outcome)
    ensures after == Cooled(expiry, order, tried, purpose, clock, cooldown)
  {
    var lastError: Option<string> := None;
    attempts, after, tried := [], expiry, 0;
    for i := 0 to |order|
      invariant tried == i && attempts == order[..i]
      invariant forall j | 0 <= j < i :: Fails(calls(order[j]))
      invariant after == Cooled(expiry, order, i, purpose, clock, cooldown)
      invariant lastError == if i == 0 then None else Some(Error(calls(order[i - 1])))
    {
      match calls(order[i])
      case Breaks(error) =>
        outcome := Escaped(error);
        return;
      case Answer(text) =>
        attempts := attempts + [order[i]];
        outcome := Answered(order[i], text);
        return;
      case Failure(retryable, error) =>
        attempts := attempts + [order[i]];
        lastError := Some(error);
        if !retryable {
          outcome := Raised(false, error);
          return;
        }
        after := after[(order[i].name, purpose) := clock(order[i]) + cooldown];
        tried := i + 1;
    }
    outcome := Raised(true, if lastError.Some? then lastError.value else NO_CHANNEL);
  }

  /** The loop over the priorities, which moves the cursor once per priority. */
  method OrderLevels(all: seq<Channel>, cursor: nat) returns (ordered: seq<Channel>, next: nat)
    ensures ordered == Order(all, cursor) && next == cursor + |Priorities(all)|
  {
    var ps := Priorities(all);
    ordered, next := [], cursor;
    for i := 0 to |ps|
      invariant ordered == Flatten(Turns(all, ps, |ps|, cursor), i)
      invariant next == cursor + i
    {
      ordered := OrderLevel(all, ps, i, next, ordered, cursor);
      next := next + 1;
    }
  }

  method OrderLevel(all: seq<Channel>, ps: seq<nat>, i: nat, start: nat, earlier: seq<Channel>, ghost first: nat)
    returns (ordered: seq<Channel>)
    requires ps == Priorities(all) && i < |ps| && start == first + i
    requires earlier == Flatten(Turns(all, ps, |ps|, first), i)
    ensures ordered == Flatten(Turns(all, ps, |ps|, first), i + 1)
  {
    ghost var turns := Turns(all, ps, |ps|, first);
    TurnsByPriority(all, first);
    TurnsAt(all, ps, |ps|, first, i);
    LevelNotEmpty(all, i);
    NewLevel(all, turns, ps, i);
    ordered := Rotate(earlier, Pool(Level(all, ps[i])), start);
  }

  lemma LevelNotEmpty(channels: seq<Channel>, i: nat)
    requires i < |Priorities(channels)|
    ensures Pool(Level(channels, Priorities(channels)[i])) != []
  {
    var ps := Priorities(channels);
    PrioritySetHolds(channels, |channels|, ps[i]);
    AmongAt(ps, |ps|, i);
    var at :| 0 <= at < |channels| && channels[at].priority == ps[i];
    var c := channels[at];
    CountAt(channels, c, |channels|, at);
    LevelCount(channels, ps[i], c);
    PoolCount(Level(channels, ps[i]), c, |Level(channels, ps[i])|);
    AtLeastOnce(c.weight, Total(Level(channels, ps[i]), c));
  }

  lemma {:induction false} AmongAt(ps: seq<nat>, n: nat, i: nat)
    requires i < n <= |ps|
    ensures Among(ps[i], ps, n)
  {
    if i < n - 1 { AmongAt(ps, n - 1, i); }
  }

  lemma NoPriorities(channels: seq<Channel>)
    ensures Priorities(channels) == [] <==> channels == []
  {
    if channels != [] {
      PrioritySetHolds(channels, |channels|, channels[0].priority);
    }
  }

  /** No channel of the next level has been ordered yet. */
  lemma NewLevel(channels: seq<Channel>, turns: seq<seq<Channel>>, ps: seq<nat>, i: nat)
    requires ps == Priorities(channels) && i < |ps| && ByPriority(turns, ps)
    ensures forall c | c in Pool(Level(channels, ps[i])) :: c !in Flatten(turns, i)
  {
    forall c | c in Pool(Level(channels, ps[i])) ensures c !in Flatten(turns, i) {
      PoolPriority(channels, ps[i], c);
      NotOrdered(turns, ps, i, c);
    }
  }

  lemma PoolPriority(channels: seq<Channel>, p: nat, c: Channel)
    requires c in Pool(Level(channels, p))
    ensures c.priority == p
  {
    CountIn(Pool(Level(channels, p)), c);
    PoolCount(Level(channels, p), c, |Level(channels, p)|);
    LevelCount(channels, p, c);
  }

  lemma NotOrdered(turns: seq<seq<Channel>>, ps: seq<nat>, i: nat, c: Channel)
    requires i < |ps| && ByPriority(turns, ps) && c.priority == ps[i]
    ensures c !in Flatten(turns, i)
  {
    if c in Flatten(turns, i) {
      var k: nat :| k < |Flatten(turns, i)| && Flatten(turns, i)[k] == c;
      var m := FlattenAtPrefix(turns, ps, i, k);
      StrictlyAt(ps, |ps|, m, i);
    }
  }

  lemma FlattenAtPrefix(turns: seq<seq<Channel>>, ps: seq<nat>, n: nat, i: nat) returns (m: nat)
    requires n <= |ps| && ByPriority(turns, ps) && i < |Flatten(turns, n)|
    ensures m < n && Flatten(turns, n)[i].priority == ps[m]
  {
    AscendingFirst(ps, |ps|, n);
    m := FlattenAt(turns, ps, n, i);
  }

  lemma {:induction false} AscendingFirst(ps: seq<nat>, n: nat, m: nat)
    requires m <= n <= |ps| && Ascending(ps, n)
    ensures Ascending(ps, m)
  {
    if m < n { AscendingFirst(ps, n - 1, m); }
  }

  /** The loop over the places of one pool. */
  method Rotate(earlier: seq<Channel>, pool: seq<Channel>, start: nat) returns (ordered: seq<Channel>)
    requires pool != [] && forall c | c in pool :: c !in earlier
    ensures ordered == earlier + Turn(pool, start)
  {
    ordered := earlier;
    var cursor := start % |pool|;
    for offset := 0 to |pool|
      invariant ordered == earlier + Seen(pool, start, offset)
    {
      ModShift(start, offset, |pool|);
      var channel := pool[(cursor + offset) % |pool|];
      CountIn(Seen(pool, start, offset), channel);
      if channel !in ordered { ordered := ordered + [channel]; }
    }
  }

  lemma {:induction false} ModShift(start: nat, offset: nat, w: nat)
    requires w > 0
    ensures (start % w + offset) % w == Mod(start + offset, w)
  {
    ModIs(start, w);
    ModIs(start % w + offset, w);
    if start >= w {
      ModIs(start - w, w);
      ModShift(start - w, offset, w);
    }
  }
}
