/** Conversation leases: infrastructure/leases.py. Times are milliseconds. */
module Leases {
  import opened Text

  datatype Lease = Lease(token: string, expiry: nat)

  type Table = map<string, Lease>

  // ------------------------------------------------------------ the three backend operations

  predicate Held(table: Table, key: string, now: nat) {
    key in table && table[key].expiry > now
  }

  predicate Owns(table: Table, key: string, token: string) {
    key in table && table[key].token == token
  }

  function Put(table: Table, key: string, token: string, expiry: nat): Table {
    table[key := Lease(token, expiry)]
  }

  class MemoryLeaseBackend {
    var now: nat
    var leases: Table

    constructor ()
      ensures leases == map[] && now == 0
    {
      now, leases := 0, map[];
    }

    method Acquire(key: string, token: string, ttl: nat) returns (acquired: bool)
      modifies `leases
      ensures acquired <==> !Held(old(leases), key, now)
      ensures leases == if acquired then Put(old(leases), key, token, now + ttl) else old(leases)
    {
      if key in leases && leases[key].expiry > now { return false; }
      leases := leases[key := Lease(token, now + ttl)];
      return true;
    }

    method Renew(key: string, token: string, ttl: nat) returns (owned: bool)
      modifies `leases
      ensures owned <==> Owns(old(leases), key, token) && Held(old(leases), key, now)
      ensures leases == if owned then Put(old(leases), key, token, now + ttl) else old(leases)
    {
      if key !in leases || leases[key].token != token || leases[key].expiry <= now { return false; }
      leases := leases[key := Lease(token, now + ttl)];
      return true;
    }

    method Release(key: string, token: string) returns (released: bool)
      modifies `leases
      ensures released <==> Owns(old(leases), key, token)
      ensures leases == if released then old(leases) - {key} else old(leases)
    {
      if key !in leases || leases[key].token != token { return false; }
      leases := leases - {key};
      return true;
    }

    /** Time passes. */
    method Wait(elapsed: nat)
      modifies `now
      ensures now == old(now) + elapsed
    {
      now := now + elapsed;
    }
  }

  class LeaseManager {
    const backend: MemoryLeaseBackend
    const ttl: nat
    const waitTimeout: nat
    const retryInterval: nat

    constructor (backend: MemoryLeaseBackend, ttl: nat, waitTimeout: nat, retryInterval: nat)
      ensures this.backend == backend && this.ttl == ttl && this.waitTimeout == waitTimeout
      ensures this.retryInterval == retryInterval
    {
      this.backend, this.ttl, this.waitTimeout, this.retryInterval := backend, ttl, waitTimeout, retryInterval;
    }

    /**
     * The waiting loop of run(): false is the TimeoutError. others is what the other workers make of the table during a
     * sleep that ends at the given time; seen is the table the last attempt found.
     */
    method WaitForLease(key: string, token: string, others: (nat, Table) -> Table)
      returns (acquired: bool, ghost seen: Table)
      requires retryInterval > 0
      modifies backend
      ensures backend.now >= old(backend.now)
      ensures acquired <==> !Held(seen, key, backend.now)
      ensures backend.leases == if acquired then Put(seen, key, token, backend.now + ttl) else seen
      ensures !acquired ==> backend.now >= old(backend.now) + waitTimeout
      ensures backend.now < old(backend.now) + waitTimeout + retryInterval || backend.now == old(backend.now)
      ensures backend.now == old(backend.now) ==> seen == old(backend.leases)
    {
      var deadline := backend.now + waitTimeout;
      while true
        invariant old(backend.now) <= backend.now
        invariant backend.now < deadline + retryInterval
        invariant backend.now == old(backend.now) ==> backend.leases == old(backend.leases)
        decreases deadline + retryInterval - backend.now
      {
        seen := backend.leases;
        acquired := backend.Acquire(key, token, ttl);
        if acquired { return; }
        if backend.now >= deadline { return; }
        backend.Wait(retryInterval);
        backend.leases := others(backend.now, backend.leases);
      }
    }
  }

  // ------------------------------------------------------------ workers sharing one lease table

  /** How work() ends. */
  datatype Ending = Returns | IsCancelled | Raises(error: string)

  /** How run() ends: WorkRaised is work()'s own exception, Cancelled the CancelledError. */
  datatype Outcome = Returned | LeaseLost | TimedOut | Cancelled | WorkRaised(error: string) | AcquireRaised

  /**
   * What a worker that got into work() left behind; held says whether it still owned an unexpired lease when work()
   * ended.
   */
  datatype Past = Past(lost: bool, ending: Ending, held: bool)

  datatype Stage =
    | Waiting(deadline: nat)
    | Working(lastOk: nat, lost: bool)     // inside work(); lastOk is the last successful acquire or renew
    | Releasing(past: Past)                // work() is over, release() is not
    | Ended(outcome: Outcome, worked: Option<Past>, interrupted: bool)  // interrupted: cancelled during the cleanup

  datatype Worker = Worker(key: string, token: string, stage: Stage)

  datatype System = System(ttl: nat, now: nat, table: Table, workers: map<nat, Worker>)

  datatype Action =
    | Arrive(w: nat, key: string, token: string, timeout: nat)
    | TryAcquire(w: nat)
    | AcquireFails(w: nat, landed: bool, cancelled: bool)  // raises or is cancelled; the write may have happened
    | Renew(w: nat)
    | RenewRaises(w: nat, landed: bool)
    | EndWork(w: nat, ending: Ending)
    | Release(w: nat)
    | ReleaseRaises(w: nat, landed: bool)                  // the exception is logged
    | CleanupCancelled(w: nat, landed: bool)               // cancelled while the renewer or release() is awaited
    | Tick(elapsed: nat)

  /** What run() ends with once work() has ended, unless its cleanup is cancelled. */
  function OutcomeOf(past: Past): Outcome {
    match past.ending
    case Returns => if past.lost then LeaseLost else Returned
    case IsCancelled => if past.lost then LeaseLost else Cancelled
    case Raises(error) => WorkRaised(error)
  }

  function SetStage(s: System, w: nat, stage: Stage): System
    requires w in s.workers
  {
    s.(workers := s.workers[w := s.workers[w].(stage := stage)])
  }

  function RenewTable(s: System, w: nat): Table
    requires w in s.workers
  {
    var x := s.workers[w];
    if Owns(s.table, x.key, x.token) && Held(s.table, x.key, s.now) then Put(s.table, x.key, x.token, s.now + s.ttl)
      else s.table
  }

  function ReleaseTable(s: System, w: nat): Table
    requires w in s.workers
  {
    var x := s.workers[w];
    if Owns(s.table, x.key, x.token) then s.table - {x.key} else s.table
  }

  /** The end of run(): release() may or may not land, and a cancellation of the cleanup replaces the outcome. */
  function Finish(s: System, w: nat, landed: bool, interrupted: bool): System {
    if w in s.workers && s.workers[w].stage.Releasing? then
      var past := s.workers[w].stage.past;
      SetStage(s, w, Ended(if interrupted then Cancelled else OutcomeOf(past), Some(past), interrupted))
        .(table := if landed then ReleaseTable(s, w) else s.table)
    else s
  }

  function Next(s: System, a: Action): System {
    match a
    case Arrive(w, key, token, timeout) =>
      if w in s.workers || (exists v | v in s.workers :: s.workers[v].token == token) then s else
      s.(workers := s.workers[w := Worker(key, token, Waiting(s.now + timeout))])
    case TryAcquire(w) =>
      if w in s.workers && s.workers[w].stage.Waiting? then
        var x := s.workers[w];
        if !Held(s.table, x.key, s.now) then
          SetStage(s, w, Working(s.now, false)).(table := Put(s.table, x.key, x.token, s.now + s.ttl))
        else if s.now >= x.stage.deadline then SetStage(s, w, Ended(TimedOut, None, false))
        else s
      else s
    case AcquireFails(w, landed, cancelled) =>
      if w in s.workers && s.workers[w].stage.Waiting? then
        var x := s.workers[w];
        SetStage(s, w, Ended(if cancelled then Cancelled else AcquireRaised, None, false))
          .(table := if landed && !Held(s.table, x.key, s.now) then Put(s.table, x.key, x.token, s.now + s.ttl)
            else s.table)
      else s
    case Renew(w) =>
      if w in s.workers && s.workers[w].stage.Working? && !s.workers[w].stage.lost then
        var x := s.workers[w];
        var owned := Owns(s.table, x.key, x.token) && Held(s.table, x.key, s.now);
        SetStage(s, w, if owned then Working(s.now, false) else x.stage.(lost := true)).(table := RenewTable(s, w))
      else s
    case RenewRaises(w, landed) =>
      if w in s.workers && s.workers[w].stage.Working? && !s.workers[w].stage.lost then
        SetStage(s, w, s.workers[w].stage.(lost := true)).(table := if landed then RenewTable(s, w) else s.table)
      else s
    case EndWork(w, ending) =>
      if w in s.workers && s.workers[w].stage.Working? then
        var x := s.workers[w];
        var held := Owns(s.table, x.key, x.token) && Held(s.table, x.key, s.now);
        SetStage(s, w, Releasing(Past(x.stage.lost, ending, held)))
      else s
    case Release(w) => Finish(s, w, true, false)
    case ReleaseRaises(w, landed) => Finish(s, w, landed, false)
    case CleanupCancelled(w, landed) => Finish(s, w, landed, true)
    case Tick(elapsed) => s.(now := s.now + elapsed)
  }

  function Run(s: System, actions: seq<Action>): System {
    if actions == [] then s else Next(Run(s, actions[..|actions| - 1]), actions[|actions| - 1])
  }

  // ------------------------------------------------------------ mutual exclusion

  /** Time never reaches ttl after the last success of a worker that is still inside work(). */
  ghost predicate TimelyStep(s: System, a: Action) {
    a.Tick? ==> forall w | w in s.workers && s.workers[w].stage.Working? ::
      s.now + a.elapsed < s.workers[w].stage.lastOk + s.ttl
  }

  ghost predicate TimelyRun(s: System, actions: seq<Action>) {
    actions == [] ||
      (TimelyRun(s, actions[..|actions| - 1]) && TimelyStep(Run(s, actions[..|actions| - 1]), actions[|actions| - 1]))
  }

  ghost predicate DistinctTokens(s: System) {
    forall v, w | v in s.workers && w in s.workers && v != w :: s.workers[v].token != s.workers[w].token
  }

  ghost predicate Safe(s: System, w: nat) {
    w in s.workers && s.workers[w].stage.Working? ==>
      var x := s.workers[w];
      Owns(s.table, x.key, x.token) && x.stage.lastOk <= s.now < x.stage.lastOk + s.ttl <= s.table[x.key].expiry
  }

  /** Whoever is inside work() owns an unexpired lease. */
  ghost predicate Protected(s: System) {
    forall w {:trigger Safe(s, w)} | w in s.workers :: Safe(s, w)
  }

  ghost predicate MutuallyExclusive(s: System) {
    forall v, w | v in s.workers && w in s.workers && s.workers[v].stage.Working? && s.workers[w].stage.Working?
                  && s.workers[v].key == s.workers[w].key :: v == w
  }

  lemma NextDistinct(s: System, a: Action)
    requires DistinctTokens(s)
    ensures DistinctTokens(Next(s, a))
  {
  }

  lemma NextSafe(s: System, a: Action, w: nat)
    requires s.ttl > 0 && DistinctTokens(s) && Safe(s, w) && TimelyStep(s, a)
    ensures Safe(Next(s, a), w)
  {
    if !a.Tick? && a.w in s.workers && w in s.workers && a.w != w {
      assert s.workers[a.w].token != s.workers[w].token;
    }
  }

  lemma NextProtected(s: System, a: Action)
    requires s.ttl > 0 && DistinctTokens(s) && Protected(s) && TimelyStep(s, a)
    ensures DistinctTokens(Next(s, a)) && Protected(Next(s, a)) && Next(s, a).ttl == s.ttl
  {
    NextDistinct(s, a);
    forall w | w in Next(s, a).workers ensures Safe(Next(s, a), w) {
      assert w in s.workers ==> Safe(s, w);
      NextSafe(s, a, w);
    }
  }

  lemma {:induction false} RunProtected(s: System, actions: seq<Action>)
    requires s.ttl > 0 && s.workers == map[] && TimelyRun(s, actions)
    ensures var s' := Run(s, actions); s'.ttl == s.ttl && DistinctTokens(s') && Protected(s')
  {
    if actions != [] {
      RunProtected(s, actions[..|actions| - 1]);
      NextProtected(Run(s, actions[..|actions| - 1]), actions[|actions| - 1]);
    }
  }

  /** In every timely run two work() sections for one key never overlap, whatever else the table held at the start. */
  lemma WorkNeverOverlaps(s: System, actions: seq<Action>)
    requires s.ttl > 0 && s.workers == map[] && TimelyRun(s, actions)
    ensures MutuallyExclusive(Run(s, actions))
  {
    RunProtected(s, actions);
    var s' := Run(s, actions);
    forall v, w | v in s'.workers && w in s'.workers && s'.workers[v].stage.Working? && s'.workers[w].stage.Working?
                  && s'.workers[v].key == s'.workers[w].key ensures v == w {
      assert Safe(s', v) && Safe(s', w);
    }
  }

  /** Timeliness is needed: once a lease lapses under a worker, any waiting worker can join it. */
  lemma LateRenewalOverlaps(s: System, v: nat, w: nat, elapsed: nat)
    requires v in s.workers && s.workers[v].stage.Working? && w in s.workers && s.workers[w].stage.Waiting?
    requires s.workers[v].key == s.workers[w].key && s.workers[v].key in s.table
    requires s.now + elapsed >= s.table[s.workers[v].key].expiry
    ensures !MutuallyExclusive(Run(s, [Tick(elapsed), TryAcquire(w)]))
  {
    var s1 := Next(s, Tick(elapsed));
    var s2 := Next(s1, TryAcquire(w));
    assert [Tick(elapsed), TryAcquire(w)][..1] == [Tick(elapsed)] && [Tick(elapsed)][..0] == [];
    assert Run(s, [Tick(elapsed)]) == s1;
    assert s2.workers[v].stage.Working? && s2.workers[w].stage.Working? && v != w;
  }

  // ------------------------------------------------------------ stale tokens

  /** A worker past its waiting loop whose lease has gone to another token. */
  ghost predicate Replaced(s: System, w: nat) {
    && w in s.workers && !s.workers[w].stage.Waiting?
    && !Owns(s.table, s.workers[w].key, s.workers[w].token)
  }

  ghost predicate By(a: Action, w: nat) {
    match a
    case Tick(_) => false
    case _ => a.w == w
  }

  /** In any run, timely or not, a replaced token stays replaced and none of its calls touches the table. */
  lemma {:induction false} ReplacedForever(s: System, actions: seq<Action>, w: nat)
    requires DistinctTokens(s) && Replaced(s, w)
    ensures DistinctTokens(Run(s, actions)) && Replaced(Run(s, actions), w)
    ensures forall a | By(a, w) :: Next(Run(s, actions), a).table == Run(s, actions).table
  {
    if actions != [] {
      var before := Run(s, actions[..|actions| - 1]);
      ReplacedForever(s, actions[..|actions| - 1], w);
      NextReplaced(before, actions[|actions| - 1], w);
    }
    var s' := Run(s, actions);
    forall a | By(a, w) ensures Next(s', a).table == s'.table {}
  }

  lemma NextReplaced(s: System, a: Action, w: nat)
    requires DistinctTokens(s) && Replaced(s, w)
    ensures DistinctTokens(Next(s, a)) && Replaced(Next(s, a), w)
  {
    NextDistinct(s, a);
    if !a.Tick? && a.w in s.workers && a.w != w { assert s.workers[a.w].token != s.workers[w].token; }
  }

  // ------------------------------------------------------------ what run() reports

  /** A worker whose renewal has failed. */
  ghost predicate Lost(s: System, w: nat) {
    w in s.workers && match s.workers[w].stage
                      case Working(_, lost) => lost
                      case Releasing(past) => past.lost
                      case Ended(_, worked, _) => worked.Some? && worked.value.lost
                      case Waiting(_) => false
  }

  ghost predicate Consistent(s: System, w: nat) {
    w in s.workers && s.workers[w].stage.Ended? && s.workers[w].stage.worked.Some? ==>
      s.workers[w].stage.outcome
        == if s.workers[w].stage.interrupted then Cancelled else OutcomeOf(s.workers[w].stage.worked.value)
  }

  lemma {:induction false} LostForGood(s: System, actions: seq<Action>, w: nat)
    requires Lost(s, w) && Consistent(s, w)
    ensures Lost(Run(s, actions), w) && Consistent(Run(s, actions), w)
  {
    if actions != [] { LostForGood(s, actions[..|actions| - 1], w); }
  }

  /**
   * Once a renewal has failed, a run() that ends raises LeaseLostError if and only if work() returned or was cancelled
   * and the cleanup was not cancelled; work()'s own exception, or the cancellation of the cleanup, takes its place.
   */
  lemma LostIsReported(s: System, actions: seq<Action>, w: nat)
    requires Lost(s, w) && s.workers[w].stage.Working?
    ensures var s' := Run(s, actions);
            w in s'.workers && s'.workers[w].stage.Ended? ==>
              var e := s'.workers[w].stage;
              && e.worked.Some? && e.worked.value.lost
              && (e.outcome == LeaseLost <==> !e.worked.value.ending.Raises? && !e.interrupted)
              && (e.outcome != LeaseLost ==>
                 e.outcome == if e.interrupted then Cancelled else WorkRaised(e.worked.value.ending.error))
  {
    LostForGood(s, actions, w);
  }

  /**
   * A run, from nothing, in which the lease is lost and run() ends with work()'s own exception, not with
   * LeaseLostError.
   */
  lemma LostBehindAnException(ttl: nat, key: string, token: string, timeout: nat, error: string)
    requires ttl > 0
    ensures var start := [Arrive(0, key, token, timeout), TryAcquire(0), Tick(ttl)];
            var s := Run(System(ttl, 0, map[], map[]), start + [Renew(0), EndWork(0, Raises(error)), Release(0)]);
            0 in s.workers && Lost(s, 0) && s.workers[0].stage.Ended? && s.workers[0].stage.outcome == WorkRaised(error)
  {
    var start := [Arrive(0, key, token, timeout), TryAcquire(0), Tick(ttl)];
    var s := System(ttl, 0, map[], map[]);
    LeaseLapses(ttl, key, token, timeout);
    WorkFailsAfterLoss(Run(s, start), 0, error);
    RunConcat(s, start, [Renew(0), EndWork(0, Raises(error)), Release(0)]);
  }

  lemma {:induction false} RunConcat(s: System, a: seq<Action>, b: seq<Action>)
    ensures Run(s, a + b) == Run(Run(s, a), b)
  {
    if b == [] {
      assert a + b == a;
    } else {
      RunConcat(s, a, b[..|b| - 1]);
      assert (a + b)[..|a + b| - 1] == a + b[..|b| - 1];
    }
  }

  lemma RunThree(s: System, x: Action, y: Action, z: Action)
    ensures Run(s, [x, y, z]) == Next(Next(Next(s, x), y), z)
  {
    assert [x, y, z][..2] == [x, y] && [x, y][..1] == [x] && [x][..0] == [];
    assert Run(s, [x]) == Next(s, x);
    assert Run(s, [x, y]) == Next(Next(s, x), y);
  }

  lemma LeaseLapses(ttl: nat, key: string, token: string, timeout: nat)
    requires ttl > 0
    ensures var s := Run(System(ttl, 0, map[], map[]), [Arrive(0, key, token, timeout), TryAcquire(0), Tick(ttl)]);
            0 in s.workers && s.workers[0].stage == Working(0, false) && !Held(s.table, s.workers[0].key, s.now)
  {
    RunThree(System(ttl, 0, map[], map[]), Arrive(0, key, token, timeout), TryAcquire(0), Tick(ttl));
  }

  lemma WorkFailsAfterLoss(s: System, w: nat, error: string)
    requires w in s.workers && s.workers[w].stage.Working? && !s.workers[w].stage.lost
    requires !Held(s.table, s.workers[w].key, s.now)
    ensures var s' := Run(s, [Renew(w), EndWork(w, Raises(error)), Release(w)]);
            w in s'.workers && Lost(s', w) && s'.workers[w].stage.Ended?
              && s'.workers[w].stage.outcome == WorkRaised(error)
  {
    RunThree(s, Renew(w), EndWork(w, Raises(error)), Release(w));
  }

  /** Every work() that began has not ended, or ended while its worker held its own unexpired lease. */
  ghost predicate HeldToTheEnd(s: System) {
    forall w {:trigger s.workers[w]} | w in s.workers ::
      && (s.workers[w].stage.Releasing? ==> s.workers[w].stage.past.held)
      && (s.workers[w].stage.Ended? && s.workers[w].stage.worked.Some? ==> s.workers[w].stage.worked.value.held)
      && (s.workers[w].stage.Ended? && s.workers[w].stage.outcome == Returned ==> s.workers[w].stage.worked.Some?)
  }

  lemma NextHeld(s: System, a: Action)
    requires Protected(s) && HeldToTheEnd(s)
    ensures HeldToTheEnd(Next(s, a))
  {
    if a.EndWork? && a.w in s.workers { assert Safe(s, a.w); }
  }

  lemma {:induction false} RunHeld(s: System, actions: seq<Action>)
    requires s.ttl > 0 && s.workers == map[] && TimelyRun(s, actions)
    ensures HeldToTheEnd(Run(s, actions))
  {
    if actions != [] {
      var before := actions[..|actions| - 1];
      RunHeld(s, before);
      RunProtected(s, before);
      NextHeld(Run(s, before), actions[|actions| - 1]);
    }
  }

  /** In a timely run a run() that returned held its own unexpired lease when work() ended, and never lost it. */
  lemma ReturnedWhileHolding(s: System, actions: seq<Action>, w: nat)
    requires s.ttl > 0 && s.workers == map[] && TimelyRun(s, actions)
    requires w in Run(s, actions).workers && Run(s, actions).workers[w].stage.Ended?
    requires Run(s, actions).workers[w].stage.outcome == Returned
    ensures var e := Run(s, actions).workers[w].stage; e.worked.Some? && e.worked.value.held && !e.worked.value.lost
  {
    RunHeld(s, actions);
    RunConsistent(s, actions, w);
  }

  lemma {:induction false} RunConsistent(s: System, actions: seq<Action>, w: nat)
    requires s.workers == map[]
    ensures Consistent(Run(s, actions), w)
  {
    if actions != [] { RunConsistent(s, actions[..|actions| - 1], w); }
  }
}
