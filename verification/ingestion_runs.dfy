/**
 * Workers on one document over whole runs: what the generation, the status and the lease guarantee, and what they do
 * not.
 */
module IngestionRuns {
  import opened Text
  import opened Chunking
  import opened ChunkRows
  import opened Ingestion

  ghost predicate Current(s: State, id: Id, generation: nat) {
    id in s.db.documents && s.db.documents[id].generation == generation
  }

  /** The document has a later generation or was deleted. */
  ghost predicate Passed(s: State, id: Id, generation: nat) {
    id in s.used && (id in s.db.documents ==> s.db.documents[id].generation > generation)
  }

  ghost predicate Has(s: State, id: Id, generation: nat, status: Status) {
    Current(s, id, generation) && s.db.documents[id].status == status
  }

  /** Claimed at time t and not touched since. */
  ghost predicate Held(s: State, id: Id, generation: nat, t: int) {
    Has(s, id, generation, PROCESSING) && s.db.documents[id].updatedAt == t
  }

  ghost predicate WorkerStep(a: Action, id: Id, generation: nat) {
    (a.Claiming? || a.Completing? || a.Failing?) && a.id == id && a.generation == generation
  }

  /** The claim is granted. */
  ghost predicate Acquires(s: State, a: Action, cfg: Config, id: Id, generation: nat) {
    a.Claiming? && WorkerStep(a, id, generation) && Claim(s.db, id, generation, s.now, cfg.lease).1 == ACQUIRED
  }

  /** The completion is committed. */
  ghost predicate Succeeds(s: State, a: Action, cfg: Config, id: Id, generation: nat) {
    a.Completing? && WorkerStep(a, id, generation)
    && Complete(s.db, id, generation, a.text, a.parents, a.vectors, a.model, s.now, cfg.accepts).1 == Some(true)
  }

  ghost predicate Fails(a: Action, id: Id, generation: nat) {
    a.Failing? && WorkerStep(a, id, generation)
  }

  // ------------------------------------------------------------ generations

  lemma PassedKeeps(s: State, a: Action, cfg: Config, id: Id, generation: nat)
    requires Possible(s, a) && Passed(s, id, generation)
    ensures Passed(Step(s, a, cfg), id, generation)
    ensures WorkerStep(a, id, generation) ==> Step(s, a, cfg) == s
  {
  }

  lemma {:induction false} PassedForever(states: seq<State>, actions: seq<Action>, cfg: Config, m: nat, n: nat, id: Id,
                                         generation: nat)
    requires IsRun(states, actions, cfg) && m <= n < |states| && Passed(states[m], id, generation)
    ensures Passed(states[n], id, generation)
    decreases n - m
  {
    if m < n {
      PassedForever(states, actions, cfg, m, n - 1, id, generation);
      assert StepAt(states, actions, cfg, n - 1);
      PassedKeeps(states[n - 1], actions[n - 1], cfg, id, generation);
    }
  }

  /** Once a document is requeued or deleted no step of a worker with the old generation changes anything, ever. */
  lemma StaleForever(states: seq<State>, actions: seq<Action>, cfg: Config, m: nat, n: nat, id: Id, generation: nat)
    requires IsRun(states, actions, cfg) && m < n < |states|
    requires Current(states[m], id, generation) && (actions[m] == Requeueing(id) || actions[m] == Deleting(id))
    ensures Claim(states[n].db, id, generation, states[n].now, cfg.lease) == (states[n].db, TERMINAL)
    ensures !Completable(states[n].db, id, generation)
    ensures n < |actions| && WorkerStep(actions[n], id, generation) ==> states[n + 1] == states[n]
  {
    RunKeeps(states, actions, cfg, m);
    assert StepAt(states, actions, cfg, m);
    PassedForever(states, actions, cfg, m + 1, n, id, generation);
    if n < |actions| {
      assert StepAt(states, actions, cfg, n);
      PassedKeeps(states[n], actions[n], cfg, id, generation);
    }
  }

  lemma StepFrom(s: State, a: Action, cfg: Config, id: Id, generation: nat)
    requires Possible(s, a) && Tables(s) && Current(s, id, generation)
    ensures Current(Step(s, a, cfg), id, generation) || Passed(Step(s, a, cfg), id, generation)
    ensures Step(s, a, cfg).now >= s.now
  {
  }

  lemma {:induction false} CurrentOrPassed(states: seq<State>, actions: seq<Action>, cfg: Config, m: nat, n: nat,
                                           id: Id, generation: nat)
    requires IsRun(states, actions, cfg) && m <= n < |states| && Current(states[m], id, generation)
    ensures Current(states[n], id, generation) || Passed(states[n], id, generation)
    decreases n - m
  {
    if m < n {
      CurrentOrPassed(states, actions, cfg, m, n - 1, id, generation);
      RunKeeps(states, actions, cfg, n - 1);
      assert StepAt(states, actions, cfg, n - 1);
      if Current(states[n - 1], id, generation) {
        StepFrom(states[n - 1], actions[n - 1], cfg, id, generation);
      } else {
        PassedKeeps(states[n - 1], actions[n - 1], cfg, id, generation);
      }
    }
  }

  /** A generation that is current at two moments is current all the time between them. */
  lemma CurrentBetween(states: seq<State>, actions: seq<Action>, cfg: Config, m: nat, k: nat, n: nat, id: Id,
                       generation: nat)
    requires IsRun(states, actions, cfg) && m <= k <= n < |states|
    requires Current(states[m], id, generation) && Current(states[n], id, generation)
    ensures Current(states[k], id, generation)
  {
    CurrentOrPassed(states, actions, cfg, m, k, id, generation);
    if Passed(states[k], id, generation) { PassedForever(states, actions, cfg, k, n, id, generation); }
  }

  lemma {:induction false} TimeGrows(states: seq<State>, actions: seq<Action>, cfg: Config, m: nat, n: nat)
    requires IsRun(states, actions, cfg) && m <= n < |states|
    ensures states[m].now <= states[n].now
    decreases n - m
  {
    if m < n {
      TimeGrows(states, actions, cfg, m, n - 1);
      assert StepAt(states, actions, cfg, n - 1);
    }
  }

  // ------------------------------------------------------------ what ends READY

  lemma StepOutOfReady(s: State, a: Action, cfg: Config, id: Id, generation: nat)
    requires Possible(s, a) && Tables(s) && Has(s, id, generation, READY) && Current(Step(s, a, cfg), id, generation)
    ensures Has(Step(s, a, cfg), id, generation, if Fails(a, id, generation) then FAILED else READY)
  {
  }

  /** In any run, a READY document whose generation goes on becomes FAILED at exactly the failure reports for it. */
  lemma ReadyEndsIff(states: seq<State>, actions: seq<Action>, cfg: Config, k: nat, id: Id, generation: nat)
    requires IsRun(states, actions, cfg) && k < |actions| && Has(states[k], id, generation, READY)
    requires Current(states[k + 1], id, generation)
    ensures Has(states[k + 1], id, generation, if Fails(actions[k], id, generation) then FAILED else READY)
  {
    RunKeeps(states, actions, cfg, k);
    assert StepAt(states, actions, cfg, k);
    StepOutOfReady(states[k], actions[k], cfg, id, generation);
  }

  /** Within one generation only fail_ingestion ends READY. */
  lemma {:induction false} LeavesReady(states: seq<State>, actions: seq<Action>, cfg: Config, m: nat, n: nat, id: Id,
                                       generation: nat)
    returns (k: nat)
    requires IsRun(states, actions, cfg) && m <= n < |states| && Has(states[m], id, generation, READY)
    requires Current(states[n], id, generation) && !Has(states[n], id, generation, READY)
    ensures m <= k < n && Fails(actions[k], id, generation) && Has(states[k], id, generation, READY)
    decreases n - m
  {
    CurrentBetween(states, actions, cfg, m, n - 1, n, id, generation);
    if Has(states[n - 1], id, generation, READY) {
      k := n - 1;
      ReadyEndsIff(states, actions, cfg, k, id, generation);
    } else {
      k := LeavesReady(states, actions, cfg, m, n - 1, id, generation);
    }
  }

  /** Between two committed completions of one generation fail_ingestion was called for it. */
  lemma SecondCompletionNeedsFailure(states: seq<State>, actions: seq<Action>, cfg: Config, i: nat, j: nat, id: Id,
                                     generation: nat)
    returns (k: nat)
    requires IsRun(states, actions, cfg) && i < j < |actions|
    requires Succeeds(states[i], actions[i], cfg, id, generation)
    requires Succeeds(states[j], actions[j], cfg, id, generation)
    ensures i < k < j && Fails(actions[k], id, generation) && Has(states[k], id, generation, READY)
  {
    assert StepAt(states, actions, cfg, i);
    k := LeavesReady(states, actions, cfg, i + 1, j, id, generation);
  }

  // ------------------------------------------------------------ how long a claim holds

  /** The steps that end a claim. */
  ghost predicate Ends(s: State, a: Action, cfg: Config, id: Id, generation: nat) {
    Succeeds(s, a, cfg, id, generation) || Fails(a, id, generation) || a == Requeueing(id) || a == Deleting(id)
  }

  lemma HeldKeeps(s: State, a: Action, cfg: Config, id: Id, generation: nat, t: int)
    requires Possible(s, a) && Tables(s) && Held(s, id, generation, t) && s.now <= t + cfg.lease
    ensures Ends(s, a, cfg, id, generation) || Held(Step(s, a, cfg), id, generation, t)
    ensures !Acquires(s, a, cfg, id, generation)
    ensures Claim(s.db, id, generation, s.now, cfg.lease) == (s.db, BUSY)
  {
  }

  lemma {:induction false} HeldOrEnded(states: seq<State>, actions: seq<Action>, cfg: Config, i: nat, n: nat, id: Id,
                                       generation: nat)
    returns (k: nat)
    requires IsRun(states, actions, cfg) && i < n < |states| && Acquires(states[i], actions[i], cfg, id, generation)
    requires states[n].now <= states[i].now + cfg.lease
    ensures Held(states[n], id, generation, states[i].now)
            || (i < k < n && Ends(states[k], actions[k], cfg, id, generation)
                                                               && Held(states[k], id, generation, states[i].now))
    decreases n
  {
    k := n - 1;
    assert StepAt(states, actions, cfg, k);
    if i < k {
      TimeGrows(states, actions, cfg, k, n);
      var before := HeldOrEnded(states, actions, cfg, i, k, id, generation);
      if Held(states[k], id, generation, states[i].now) {
        RunKeeps(states, actions, cfg, k);
        HeldKeeps(states[k], actions[k], cfg, id, generation, states[i].now);
      } else {
        k := before;
      }
    }
  }

  /**
   * A claimed document is BUSY for everyone until its lease ends, unless a completion, failure, requeue or deletion
   * came first.
   */
  lemma BusyUntilEnded(states: seq<State>, actions: seq<Action>, cfg: Config, i: nat, n: nat, id: Id, generation: nat)
    returns (k: nat)
    requires IsRun(states, actions, cfg) && i < n < |states| && Acquires(states[i], actions[i], cfg, id, generation)
    requires states[n].now <= states[i].now + cfg.lease
    ensures Claim(states[n].db, id, generation, states[n].now, cfg.lease) == (states[n].db, BUSY)
            || (i < k < n && Ends(states[k], actions[k], cfg, id, generation))
  {
    k := HeldOrEnded(states, actions, cfg, i, n, id, generation);
  }

  /** Two claims of one generation are granted within a lease only if fail_ingestion was called between them. */
  lemma SecondClaimNeedsFailure(states: seq<State>, actions: seq<Action>, cfg: Config, i: nat, n: nat, id: Id,
                                generation: nat)
    returns (k: nat)
    requires IsRun(states, actions, cfg) && i < n < |actions|
    requires Acquires(states[i], actions[i], cfg, id, generation)
    requires Acquires(states[n], actions[n], cfg, id, generation)
    requires states[n].now <= states[i].now + cfg.lease
    ensures i < k < n && Fails(actions[k], id, generation)
  {
    k := HeldOrEnded(states, actions, cfg, i, n, id, generation);
    RunKeeps(states, actions, cfg, n);
    if Held(states[n], id, generation, states[i].now) {
      HeldKeeps(states[n], actions[n], cfg, id, generation, states[i].now);
    } else if Succeeds(states[k], actions[k], cfg, id, generation) {
      assert StepAt(states, actions, cfg, k);
      k := LeavesReady(states, actions, cfg, k + 1, n, id, generation);
    } else if !Fails(actions[k], id, generation) {
      StaleForever(states, actions, cfg, k, n, id, generation);
    }
  }

  /** After a failure report both happen: two claims at one moment, and two committed completions. */
  lemma TwiceAfterFailure(cfg: Config, id: Id, d: Document, text: string, parents: seq<Parent>, vectors: seq<Vector>,
                          model: string)
    returns (states: seq<State>, actions: seq<Action>)
    requires d.status == QUEUED && Accepted(text, parents, vectors, d.generation, model, cfg.accepts)
    ensures IsRun(states, actions, cfg) && |actions| == 6
    ensures Acquires(states[1], actions[1], cfg, id, d.generation)
    ensures Acquires(states[4], actions[4], cfg, id, d.generation)
    ensures Succeeds(states[2], actions[2], cfg, id, d.generation)
    ensures Succeeds(states[5], actions[5], cfg, id, d.generation)
    ensures Fails(actions[3], id, d.generation) && states[6].now == states[1].now
  {
    var g := d.generation;
    var complete := Completing(id, g, text, parents, vectors, model);
    actions := [Creating(id, d, None), Claiming(id, g), complete, Failing(id, g, "TimeoutError"), Claiming(id, g),
                complete];
    var s1 := Step(INITIAL, actions[0], cfg);
    var s2 := Step(s1, actions[1], cfg);
    var s3 := Step(s2, actions[2], cfg);
    var s4 := Step(s3, actions[3], cfg);
    var s5 := Step(s4, actions[4], cfg);
    states := [INITIAL, s1, s2, s3, s4, s5, Step(s5, actions[5], cfg)];
  }

  // ------------------------------------------------------------ workers that keep to their lease

  /** The steps with which a worker is done. */
  ghost predicate Finishes(s: State, a: Action, cfg: Config) {
    (a.Completing? || a.Failing?) && (Succeeds(s, a, cfg, a.id, a.generation) || Fails(a, a.id, a.generation))
  }

  /**
   * Each finishing step belongs to a claim of its own, granted earlier for the same generation and not longer ago than
   * the lease.
   */
  ghost predicate Punctual(states: seq<State>, actions: seq<Action>, cfg: Config, claimOf: seq<nat>)
    requires IsRun(states, actions, cfg)
  {
    && |claimOf| == |actions|
    && (forall j | 0 <= j < |actions| && Finishes(states[j], actions[j], cfg) ::
       OwnClaim(states, actions, cfg, claimOf[j], j))
    && (forall j, j' {:trigger claimOf[j], claimOf[j']} | 0 <= j < |actions| && 0 <= j' < |actions|
          && Finishes(states[j], actions[j], cfg) && Finishes(states[j'], actions[j'], cfg)
          && claimOf[j] == claimOf[j'] :: j == j')
  }

  ghost predicate OwnClaim(states: seq<State>, actions: seq<Action>, cfg: Config, c: nat, j: nat)
    requires IsRun(states, actions, cfg) && j < |actions| && (actions[j].Completing? || actions[j].Failing?)
  {
    c < j && Acquires(states[c], actions[c], cfg, actions[j].id, actions[j].generation)
      && states[j].now <= states[c].now + cfg.lease
  }

  /** At moment n a worker on this generation has claimed and will finish at j. */
  ghost predicate Pending(states: seq<State>, actions: seq<Action>, cfg: Config, claimOf: seq<nat>, n: nat, j: nat,
                          id: Id, generation: nat)
    requires IsRun(states, actions, cfg) && Punctual(states, actions, cfg, claimOf)
  {
    n <= j < |actions| && Finishes(states[j], actions[j], cfg) && WorkerStep(actions[j], id, generation)
      && claimOf[j] < n
  }

  /** A pending worker's claim is still held one step later, unless it was made in that very step. */
  lemma StillHeld(states: seq<State>, actions: seq<Action>, cfg: Config, claimOf: seq<nat>, last: nat, j: nat,
                  id: Id, generation: nat)
    requires IsRun(states, actions, cfg) && Punctual(states, actions, cfg, claimOf) && last < |actions|
    requires Pending(states, actions, cfg, claimOf, last, j, id, generation) && last < j
    requires Held(states[last], id, generation, states[claimOf[j]].now)
    ensures !Acquires(states[last], actions[last], cfg, id, generation)
    ensures Ends(states[last], actions[last], cfg, id, generation)
         || Held(states[last + 1], id, generation, states[claimOf[j]].now)
  {
    assert OwnClaim(states, actions, cfg, claimOf[j], j);
    RunKeeps(states, actions, cfg, last);
    assert StepAt(states, actions, cfg, last);
    TimeGrows(states, actions, cfg, last, j);
    HeldKeeps(states[last], actions[last], cfg, id, generation, states[claimOf[j]].now);
  }

  /** At any moment at most one worker is on the current generation, and the document is claimed by it. */
  lemma {:induction false} OneWorker(states: seq<State>, actions: seq<Action>, cfg: Config, claimOf: seq<nat>, n: nat,
                                     j: nat, j': nat, id: Id, generation: nat)
    requires IsRun(states, actions, cfg) && Punctual(states, actions, cfg, claimOf)
    requires n < |states| && Current(states[n], id, generation)
    requires Pending(states, actions, cfg, claimOf, n, j, id, generation)
    requires Pending(states, actions, cfg, claimOf, n, j', id, generation)
    ensures j == j' && Held(states[n], id, generation, states[claimOf[j]].now)
    decreases n
  {
    var c, c', last := claimOf[j], claimOf[j'], n - 1;
    assert OwnClaim(states, actions, cfg, c, j) && OwnClaim(states, actions, cfg, c', j');
    CurrentBetween(states, actions, cfg, c, last, n, id, generation);
    assert StepAt(states, actions, cfg, last);
    if c < last {
      OneWorker(states, actions, cfg, claimOf, last, j, j, id, generation);
      StillHeld(states, actions, cfg, claimOf, last, j, id, generation);
      if Ends(states[last], actions[last], cfg, id, generation) {
        LastIsPending(states, actions, cfg, claimOf, last, id, generation);
        OneWorker(states, actions, cfg, claimOf, last, j, last, id, generation);
      }
    }
    if c' < last {
      OneWorker(states, actions, cfg, claimOf, last, j', j', id, generation);
      StillHeld(states, actions, cfg, claimOf, last, j', id, generation);
      if c < last { OneWorker(states, actions, cfg, claimOf, last, j, j', id, generation); }
    }
  }

  lemma LastIsPending(states: seq<State>, actions: seq<Action>, cfg: Config, claimOf: seq<nat>, last: nat, id: Id,
                      generation: nat)
    requires IsRun(states, actions, cfg) && Punctual(states, actions, cfg, claimOf) && last < |actions|
    requires Current(states[last], id, generation) && Current(states[last + 1], id, generation)
    requires Ends(states[last], actions[last], cfg, id, generation)
    ensures Pending(states, actions, cfg, claimOf, last, last, id, generation)
  {
    assert StepAt(states, actions, cfg, last);
    assert Finishes(states[last], actions[last], cfg);
    assert OwnClaim(states, actions, cfg, claimOf[last], last);
  }

  /** If every worker finishes within its lease, a failure report never meets a READY document. */
  lemma PunctualFailure(states: seq<State>, actions: seq<Action>, cfg: Config, claimOf: seq<nat>, k: nat, id: Id,
                        generation: nat)
    requires IsRun(states, actions, cfg) && Punctual(states, actions, cfg, claimOf) && k < |actions|
    requires Fails(actions[k], id, generation) && Current(states[k], id, generation)
    ensures Held(states[k], id, generation, states[claimOf[k]].now)
  {
    assert Finishes(states[k], actions[k], cfg);
    assert OwnClaim(states, actions, cfg, claimOf[k], k);
    OneWorker(states, actions, cfg, claimOf, k, k, k, id, generation);
  }

  /** If every worker finishes within its lease, READY lasts as long as the generation. */
  lemma ReadyLasts(states: seq<State>, actions: seq<Action>, cfg: Config, claimOf: seq<nat>, m: nat, n: nat, id: Id,
                   generation: nat)
    requires IsRun(states, actions, cfg) && Punctual(states, actions, cfg, claimOf) && m <= n < |states|
    requires Has(states[m], id, generation, READY) && Current(states[n], id, generation)
    ensures Has(states[n], id, generation, READY)
  {
    if !Has(states[n], id, generation, READY) {
      var k := LeavesReady(states, actions, cfg, m, n, id, generation);
      PunctualFailure(states, actions, cfg, claimOf, k, id, generation);
    }
  }

  lemma ReadyStepKeepsChunks(s: State, a: Action, cfg: Config, id: Id, generation: nat)
    requires Possible(s, a) && Inv(s) && Has(s, id, generation, READY) && Has(Step(s, a, cfg), id, generation, READY)
    ensures id in Step(s, a, cfg).db.chunks && Step(s, a, cfg).db.chunks[id] == s.db.chunks[id]
  {
  }

  /** Nor do its chunks change. */
  lemma {:induction false} ReadyKeepsChunks(states: seq<State>, actions: seq<Action>, cfg: Config, claimOf: seq<nat>,
                                            m: nat, n: nat, id: Id, generation: nat)
    requires IsRun(states, actions, cfg) && Punctual(states, actions, cfg, claimOf) && m <= n < |states|
    requires Has(states[m], id, generation, READY) && Current(states[n], id, generation)
    ensures id in states[m].db.chunks && id in states[n].db.chunks && states[n].db.chunks[id] == states[m].db.chunks[id]
    decreases n
  {
    RunKeeps(states, actions, cfg, m);
    if m < n {
      CurrentBetween(states, actions, cfg, m, n - 1, n, id, generation);
      ReadyKeepsChunks(states, actions, cfg, claimOf, m, n - 1, id, generation);
      ReadyLasts(states, actions, cfg, claimOf, m, n - 1, id, generation);
      ReadyLasts(states, actions, cfg, claimOf, m, n, id, generation);
      RunKeeps(states, actions, cfg, n - 1);
      assert StepAt(states, actions, cfg, n - 1);
      ReadyStepKeepsChunks(states[n - 1], actions[n - 1], cfg, id, generation);
    }
  }

  /** And each generation is completed at most once. */
  lemma CompletedOnce(states: seq<State>, actions: seq<Action>, cfg: Config, claimOf: seq<nat>, i: nat, j: nat, id: Id,
                      generation: nat)
    requires IsRun(states, actions, cfg) && Punctual(states, actions, cfg, claimOf) && i <= j < |actions|
    requires Succeeds(states[i], actions[i], cfg, id, generation)
    requires Succeeds(states[j], actions[j], cfg, id, generation)
    ensures i == j
  {
    assert StepAt(states, actions, cfg, i);
    if i < j { ReadyLasts(states, actions, cfg, claimOf, i + 1, j, id, generation); }
  }
}
