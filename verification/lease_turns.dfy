/** Who gets a lease, who keeps it, and what run() ends with: infrastructure/leases.py. */
module LeaseTurns {
  import opened Leases
  import opened Text

  // ------------------------------------------------------------ getting in

  ghost predicate Inside(s: System, v: nat, key: string) {
    v in s.workers && s.workers[v].key == key && (s.workers[v].stage.Working? || s.workers[v].stage.Releasing?)
  }

  /** Every write that raises or is cancelled did not happen, but for a release, which did. */
  ghost predicate Tidy(actions: seq<Action>) {
    forall i | 0 <= i < |actions| :: TidyStep(actions[i])
  }

  ghost predicate TidyStep(a: Action) {
    match a
    case AcquireFails(_, landed, _) => !landed
    case ReleaseRaises(_, landed) => landed
    case CleanupCancelled(_, landed) => landed
    case _ => true
  }

  ghost predicate HasOwner(s: System, key: string) {
    exists v :: Inside(s, v, key) && key in s.table && s.table[key].token == s.workers[v].token
  }

  /** Every lease in the table is that of a worker inside work() or about to release it. */
  ghost predicate NoneLeft(s: System) {
    DistinctTokens(s) && forall key | key in s.table :: HasOwner(s, key)
  }

  lemma OwnerStays(s: System, a: Action, key: string, v: nat)
    requires NoneLeft(s) && TidyStep(a) && Inside(s, v, key) && key in s.table
    requires s.table[key].token == s.workers[v].token && key in Next(s, a).table
    ensures HasOwner(Next(s, a), key)
  {
    var s' := Next(s, a);
    if !a.Tick? && a.w in s.workers && a.w != v { assert s.workers[a.w].token != s.workers[v].token; }
    if s'.table[key] == s.table[key] || (!a.Tick? && a.w == v) {
      assert Inside(s', v, key);
    } else {
      assert Inside(s', a.w, key) && s'.table[key].token == s'.workers[a.w].token;
    }
  }

  lemma NoneLeftStep(s: System, a: Action)
    requires NoneLeft(s) && TidyStep(a)
    ensures NoneLeft(Next(s, a))
  {
    var s' := Next(s, a);
    NextDistinct(s, a);
    forall key | key in s'.table ensures HasOwner(s', key) {
      if key in s.table {
        assert HasOwner(s, key);
        var v :| Inside(s, v, key) && s.table[key].token == s.workers[v].token;
        OwnerStays(s, a, key, v);
      } else {
        assert a.TryAcquire? && Inside(s', a.w, key);
      }
    }
  }

  lemma {:induction false} RunLeavesNone(s: System, actions: seq<Action>)
    requires s.workers == map[] && s.table == map[] && Tidy(actions)
    ensures NoneLeft(Run(s, actions))
  {
    if actions != [] {
      RunLeavesNone(s, actions[..|actions| - 1]);
      NoneLeftStep(Run(s, actions[..|actions| - 1]), actions[|actions| - 1]);
    }
  }

  /**
   * A release frees its lease at once: in every run, timely or not, whose failing writes had no effect, a worker that
   * tries while nobody is inside work() or about to release for its key gets in, for ttl.
   */
  lemma NobodyInsideMeansFree(s: System, actions: seq<Action>, w: nat)
    requires s.workers == map[] && s.table == map[] && Tidy(actions)
    requires var t := Run(s, actions); w in t.workers && t.workers[w].stage.Waiting?
                                       && forall v :: !Inside(t, v, t.workers[w].key)
    ensures var t, t' := Run(s, actions), Run(s, actions + [TryAcquire(w)]);
            && w in t'.workers && t'.workers[w].stage == Working(t.now, false)
            && t'.table == t.table[t.workers[w].key := Lease(t.workers[w].token, t.now + t.ttl)]
  {
    RunLeavesNone(s, actions);
    RunNext(s, actions, TryAcquire(w));
    var t := Run(s, actions);
    assert t.workers[w].key in t.table ==> HasOwner(t, t.workers[w].key);
  }

  lemma RunNext(s: System, actions: seq<Action>, a: Action)
    ensures Run(s, actions + [a]) == Next(Run(s, actions), a)
  {
    assert (actions + [a])[..|actions|] == actions;
  }

  /** In a timely run a worker that tries while another is inside work() for its key waits on, or is out of time. */
  lemma SomeoneInsideMeansTaken(s: System, actions: seq<Action>, v: nat, w: nat)
    requires s.ttl > 0 && s.workers == map[] && TimelyRun(s, actions)
    requires var t := Run(s, actions); w in t.workers && t.workers[w].stage.Waiting?
                                       && v in t.workers && t.workers[v].stage.Working?
                                       && t.workers[v].key == t.workers[w].key
    ensures var t, t' := Run(s, actions), Run(s, actions + [TryAcquire(w)]);
            && w in t'.workers && t'.table == t.table
            && t'.workers[w].stage == if t.now >= t.workers[w].stage.deadline then Ended(TimedOut, None, false)
                                      else t.workers[w].stage
  {
    RunProtected(s, actions);
    RunNext(s, actions, TryAcquire(w));
    assert Safe(Run(s, actions), v);
  }

  // ------------------------------------------------------------ keeping it

  /** The worker goes on, and its lease lasts ttl from now on. */
  ghost predicate Extended(t: System, t': System, w: nat)
    requires w in t.workers
  {
    && w in t'.workers && t'.workers[w].stage == Working(t.now, false)
    && t'.table == t.table[t.workers[w].key := Lease(t.workers[w].token, t.now + t.ttl)]
  }

  lemma RenewExtends(t: System, w: nat)
    requires w in t.workers && t.workers[w].stage.Working? && !t.workers[w].stage.lost && Safe(t, w)
    ensures Extended(t, Next(t, Renew(w)), w)
  {
  }

  /** A renewal that comes in time succeeds. */
  lemma RenewedInTime(s: System, actions: seq<Action>, w: nat)
    requires s.ttl > 0 && s.workers == map[] && TimelyRun(s, actions)
    requires w in Run(s, actions).workers && Run(s, actions).workers[w].stage.Working?
    requires !Run(s, actions).workers[w].stage.lost
    ensures Extended(Run(s, actions), Run(s, actions + [Renew(w)]), w)
  {
    RunProtected(s, actions);
    RunNext(s, actions, Renew(w));
    RenewExtends(Run(s, actions), w);
  }

  ghost predicate Sound(s: System, w: nat) {
    w in s.workers ==> match s.workers[w].stage
                       case Working(_, lost) => !lost
                       case Releasing(past) => !past.lost
                       case Ended(_, worked, _) => worked.Some? ==> !worked.value.lost
                       case Waiting(_) => true
  }

  /** In a timely run whose renewals do not raise nobody loses the lease. */
  lemma {:induction false} KeptInTime(s: System, actions: seq<Action>, w: nat)
    requires s.ttl > 0 && s.workers == map[] && TimelyRun(s, actions)
    requires forall i | 0 <= i < |actions| :: !(actions[i].RenewRaises? && actions[i].w == w)
    ensures Sound(Run(s, actions), w)
  {
    if actions != [] {
      var before, a := actions[..|actions| - 1], actions[|actions| - 1];
      KeptInTime(s, before, w);
      RunProtected(s, before);
      var t := Run(s, before);
      if w in t.workers { assert Safe(t, w); }
      assert !(a.RenewRaises? && a.w == w);
    }
  }

  // ------------------------------------------------------------ what run() ends with

  /** Every ending of work(), with the lease lost or not, and what run() makes of it. */
  ghost predicate EndsAs(past: Past, interrupted: bool, outcome: Outcome) {
    && (interrupted ==> outcome == Cancelled)
    && (!interrupted && past.ending.Raises? ==> outcome == WorkRaised(past.ending.error))
    && (!interrupted && past.ending.Returns? && !past.lost ==> outcome == Returned)
    && (!interrupted && past.ending.IsCancelled? && !past.lost ==> outcome == Cancelled)
    && (!interrupted && !past.ending.Raises? && past.lost ==> outcome == LeaseLost)
  }

  lemma RunEndsAs(s: System, actions: seq<Action>, w: nat)
    requires s.workers == map[]
    requires w in Run(s, actions).workers && Run(s, actions).workers[w].stage.Ended?
    requires Run(s, actions).workers[w].stage.worked.Some?
    ensures var e := Run(s, actions).workers[w].stage; EndsAs(e.worked.value, e.interrupted, e.outcome)
  {
    RunConsistent(s, actions, w);
  }

  /**
   * A run() that returned did so in a worker that got in, whose work() returned, and whose cleanup was not cancelled.
   */
  lemma ReturnedIff(s: System, actions: seq<Action>, w: nat)
    requires s.workers == map[]
    requires w in Run(s, actions).workers && Run(s, actions).workers[w].stage.Ended?
    ensures var e := Run(s, actions).workers[w].stage;
            e.outcome == Returned <==>
            e.worked.Some? && e.worked.value.ending.Returns? && !e.worked.value.lost && !e.interrupted
  {
    RunConsistent(s, actions, w);
    NeverIn(s, actions, w);
  }

  lemma {:induction false} NeverIn(s: System, actions: seq<Action>, w: nat)
    requires s.workers == map[]
    ensures var t := Run(s, actions);
            w in t.workers && t.workers[w].stage.Ended? && t.workers[w].stage.worked.None? ==>
              t.workers[w].stage.outcome in {TimedOut, Cancelled, AcquireRaised}
  {
    if actions != [] { NeverIn(s, actions[..|actions| - 1], w); }
  }
}
