/** How often a handler can succeed for one dedupe key, with any number of consumers. */
module StreamSuccesses {
  import opened Text
  import opened Streams
  import opened StreamProtocol
  import opened StreamAttempts

  ghost predicate AwaitsMarker(p: Phase, k: string) {
    p.Busy? && p.stage == Succeeded(k)
  }

  /** The consumer's handler is running for this key, or has returned and its marker is the next thing to be set. */
  ghost predicate AtWork(p: Phase, k: string) {
    (p.Busy? && p.stage == Running(Some(k))) || AwaitsMarker(p, k)
  }

  /** The step starts a handler for the key while another consumer is at work on it. */
  ghost predicate OverlapStart(cfg: Config, w: World, a: Action, k: string) {
    && a.Advance? && PhaseOf(w, a.c).Busy? && PhaseOf(w, a.c).stage.Checked?
    && cfg.dedupe(PhaseOf(w, a.c).row.payload) == Key(k) && !Marked(w.once, k, w.now)
    && exists d :: d in w.phases && AtWork(w.phases[d], k)
  }

  ghost function OverlapStarts(cfg: Config, actions: seq<Action>, k: string): nat {
    if actions == [] then 0 else
      var before := actions[..|actions| - 1];
      OverlapStarts(cfg, before, k)
        + if OverlapStart(cfg, Run(cfg, START, before), actions[|actions| - 1], k) then 1 else 0
  }

  // ------------------------------------------------------------ counting the consumers at work on a key

  ghost function Runs(p: Phase, k: string): nat {
    if p.Busy? && p.stage == Running(Some(k)) then 1 else 0
  }

  ghost function Works(p: Phase, k: string): nat {
    if AtWork(p, k) then 1 else 0
  }

  ghost function RunningOn(w: World, k: string): nat {
    Sum(w.phases, (p: Phase) => Runs(p, k))
  }

  ghost function WorkingOn(w: World, k: string): nat {
    Sum(w.phases, (p: Phase) => Works(p, k))
  }

  lemma {:induction false} SumPositive(phases: map<string, Phase>, f: Phase -> nat)
    ensures Sum(phases, f) > 0 <==> exists c :: c in phases && f(phases[c]) > 0
    decreases |phases|
  {
    if c :| c in phases && f(phases[c]) > 0 { SumAtLeast(phases, f, c); }
    if Sum(phases, f) > 0 {
      var c :| c in phases && Sum(phases, f) == f(phases[c]) + Sum(phases - {c}, f);
      assert (phases - {c}).Keys == phases.Keys - {c};
      SumPositive(phases - {c}, f);
    }
  }

  lemma WorkingIff(w: World, k: string)
    ensures WorkingOn(w, k) > 0 <==> exists c :: c in w.phases && AtWork(w.phases[c], k)
  {
    var f := (p: Phase) => Works(p, k);
    SumPositive(w.phases, f);
    if c :| c in w.phases && AtWork(w.phases[c], k) { assert f(w.phases[c]) > 0; }
  }

  /** The key is marked, or somebody is at work on it. */
  ghost function Live(w: World, k: string): nat {
    if Marked(w.once, k, w.now) || WorkingOn(w, k) > 0 then 1 else 0
  }

  /** Every success, and every handler running, is paid for: by the live key, a lost marker or an overlapping start. */
  ghost predicate Paid(w: World, k: string, overlaps: nat) {
    Count(w.past.wins, k) + RunningOn(w, k) <= Count(w.past.voids, k) + overlaps + Live(w, k)
  }

  // ------------------------------------------------------------ the steps

  /** Moving one consumer changes the two sums by that consumer's share. */
  lemma MovedOn(w: World, w': World, c: string, p: Phase, k: string)
    requires w'.phases == w.phases[c := p]
    ensures RunningOn(w', k) + Runs(PhaseOf(w, c), k) == RunningOn(w, k) + Runs(p, k)
    ensures WorkingOn(w', k) + Works(PhaseOf(w, c), k) == WorkingOn(w, k) + Works(p, k)
  {
    SumMove(w.phases, (q: Phase) => Runs(q, k), c, p);
    SumMove(w.phases, (q: Phase) => Works(q, k), c, p);
  }

  /**
   * A step of one consumer that moves it to p; whoever stops working on an unmarked key leaves a lost marker or no
   * success.
   */
  lemma ConsumerPaid(w: World, w': World, c: string, p: Phase, k: string, overlaps: nat)
    requires Paid(w, k, overlaps) && w'.phases == w.phases[c := p] && w'.now == w.now
    requires Count(w'.past.wins, k) + Runs(p, k) <= Count(w.past.wins, k) + Runs(PhaseOf(w, c), k)
    requires Count(w'.past.voids, k) >= Count(w.past.voids, k)
    requires Marked(w.once, k, w.now) ==> Marked(w'.once, k, w.now)
    requires Works(PhaseOf(w, c), k) > Works(p, k) ==>
               || Marked(w'.once, k, w.now) || Count(w'.past.voids, k) > Count(w.past.voids, k)
               || Count(w'.past.wins, k) + Runs(p, k) < Count(w.past.wins, k) + Runs(PhaseOf(w, c), k)
    ensures Paid(w', k, overlaps)
  {
    MovedOn(w, w', c, p, k);
  }

  lemma BeginPaid(cfg: Config, w: World, c: string, k: string, overlaps: nat)
    requires Paid(w, k, overlaps) && PhaseOf(w, c).Busy? && PhaseOf(w, c).stage.Checked?
    requires cfg.dedupe(PhaseOf(w, c).row.payload) == Key(k) && !Marked(w.once, k, w.now)
    ensures Paid(Begin(w, c, PhaseOf(w, c), Some(k)), k, overlaps
            + if OverlapStart(cfg, w, Advance(c), k) then 1 else 0)
  {
    var p := PhaseOf(w, c);
    var w' := Begin(w, c, p, Some(k));
    WorkingIff(w, k);
    MovedOn(w, w', c, p.(stage := Running(Some(k))), k);
  }

  lemma CheckedPaid(cfg: Config, w: World, c: string, k: string, overlaps: nat)
    requires Paid(w, k, overlaps) && PhaseOf(w, c).Busy? && PhaseOf(w, c).stage.Checked?
    ensures Paid(Progress(cfg, w, c), k, overlaps + if OverlapStart(cfg, w, Advance(c), k) then 1 else 0)
  {
    var p := PhaseOf(w, c);
    match cfg.dedupe(p.row.payload) {
      case Raises => ConsumerPaid(w, SetPhase(w, c, p.(stage := Dying)), c, p.(stage := Dying), k, overlaps);
      case NoKey => ConsumerPaid(w, Begin(w, c, p, None), c, p.(stage := Running(None)), k, overlaps);
      case Key(key) =>
        if Marked(w.once, key, w.now) {
          ConsumerPaid(w, Skip(w, c, p), c, p.(stage := Done), k, overlaps);
        } else if key == k {
          BeginPaid(cfg, w, c, k, overlaps);
        } else {
          ConsumerPaid(w, Begin(w, c, p, Some(key)), c, p.(stage := Running(Some(key))), k, overlaps);
        }
    }
  }

  lemma MarkPaid(cfg: Config, w: World, c: string, key: string, k: string, overlaps: nat)
    requires Paid(w, k, overlaps) && AwaitsMarker(PhaseOf(w, c), key)
    ensures Paid(Progress(cfg, w, c), k, overlaps)
  {
    var p := PhaseOf(w, c).(stage := Done);
    ConsumerPaid(w, SetMarker(SetPhase(w, c, p), key, cfg.ttlSeconds), c, p, k, overlaps);
  }

  lemma StagePaid(cfg: Config, w: World, c: string, k: string, overlaps: nat)
    requires Paid(w, k, overlaps) && PhaseOf(w, c).Busy? && !PhaseOf(w, c).stage.Checked?
    ensures Paid(Progress(cfg, w, c), k, overlaps)
  {
    var p := PhaseOf(w, c);
    match p.stage {
      case Checked(_) =>
      case Running(_) =>
      case Succeeded(key) => MarkPaid(cfg, w, c, key, k, overlaps);
      case Dying =>
        ConsumerPaid(w, SetPhase(Bury(w, p.row, cfg.deadMaxlen), c, p.(stage := Done)), c, p.(stage := Done), k,
                     overlaps);
      case Done =>
        var rest := Batch(p.stale, p.todo);
        ConsumerPaid(w, SetPhase(Acknowledge(w, p.row.id), c, rest), c, rest, k, overlaps);
    }
  }

  lemma BatchPaid(cfg: Config, w: World, c: string, k: string, overlaps: nat)
    requires Paid(w, k, overlaps) && !PhaseOf(w, c).Busy?
    ensures Paid(Progress(cfg, w, c), k, overlaps)
  {
    var p, w' := PhaseOf(w, c), Progress(cfg, w, c);
    if p.Batch? { ConsumerPaid(w, w', c, w'.phases[c], k, overlaps); }
  }

  lemma FinishPaid(cfg: Config, w: World, c: string, ok: bool, k: string, overlaps: nat)
    requires Paid(w, k, overlaps) && PhaseOf(w, c).Busy? && PhaseOf(w, c).stage.Running?
    ensures Paid(Next(cfg, w, Finish(c, ok)), k, overlaps)
  {
    var p, w' := PhaseOf(w, c), Next(cfg, w, Finish(c, ok));
    assert ok ==> Count(w'.past.wins, k) == Count(w.past.wins, k) + if p.stage.key == Some(k) then 1 else 0;
    ConsumerPaid(w, w', c, w'.phases[c], k, overlaps);
  }

  lemma StopPaid(w: World, c: string, k: string, overlaps: nat)
    requires Paid(w, k, overlaps)
    ensures Paid(Stop(w, c), k, overlaps)
  {
    ConsumerPaid(w, Stop(w, c), c, Idle, k, overlaps);
  }

  /** Steps of nobody: a marker vanishes only with one more void. */
  lemma OutsidePaid(w: World, w': World, k: string, overlaps: nat)
    requires Paid(w, k, overlaps) && w'.phases == w.phases && w'.past.wins == w.past.wins
    requires Count(w'.past.voids, k) >= Count(w.past.voids, k)
    requires Marked(w.once, k, w.now) && !Marked(w'.once, k, w'.now) ==>
             Count(w'.past.voids, k) > Count(w.past.voids, k)
    ensures Paid(w', k, overlaps)
  {
  }

  lemma NextPaid(cfg: Config, w: World, a: Action, k: string, overlaps: nat)
    requires Paid(w, k, overlaps)
    ensures Paid(Next(cfg, w, a), k, overlaps + if OverlapStart(cfg, w, a, k) then 1 else 0)
  {
    match a {
      case Tick(elapsed) => OutsidePaid(w, Elapse(w, elapsed), k, overlaps);
      case Publish(payload, maxlen) => OutsidePaid(w, Send(w, payload, maxlen), k, overlaps);
      case Replay(letter, maxlen, dedupeKey) => OutsidePaid(w, Resend(w, letter, maxlen, dedupeKey), k, overlaps);
      case Start(c, order) =>
        if PhaseOf(w, c).Idle? && Lists(order, w.group.pending.Keys) {
          var w' := ClaimBatch(cfg, w, c, order);
          ConsumerPaid(w, w', c, w'.phases[c], k, overlaps);
        }
      case Advance(c) => AdvancePaid(cfg, w, c, k, overlaps);
      case Finish(c, ok) =>
        if PhaseOf(w, c).Busy? && PhaseOf(w, c).stage.Running? { FinishPaid(cfg, w, c, ok, k, overlaps); }
      case Crash(c) => StopPaid(w, c, k, overlaps);
    }
  }

  lemma AdvancePaid(cfg: Config, w: World, c: string, k: string, overlaps: nat)
    requires Paid(w, k, overlaps)
    ensures Paid(Progress(cfg, w, c), k, overlaps + if OverlapStart(cfg, w, Advance(c), k) then 1 else 0)
  {
    if PhaseOf(w, c).Busy? && PhaseOf(w, c).stage.Checked? {
      CheckedPaid(cfg, w, c, k, overlaps);
    } else if PhaseOf(w, c).Busy? {
      StagePaid(cfg, w, c, k, overlaps);
    } else {
      BatchPaid(cfg, w, c, k, overlaps);
    }
  }

  lemma {:induction false} RunPaid(cfg: Config, actions: seq<Action>, k: string)
    ensures Paid(Run(cfg, START, actions), k, OverlapStarts(cfg, actions, k))
  {
    if actions != [] {
      var before := actions[..|actions| - 1];
      RunPaid(cfg, before, k);
      NextPaid(cfg, Run(cfg, START, before), actions[|actions| - 1], k, OverlapStarts(cfg, before, k));
    }
  }

  /**
   * In every run, with any number of consumers, a key's handler succeeds once, plus once for every time its marker was
   * lost and for every start made while another consumer was at work on the key.
   */
  lemma SuccessesBounded(cfg: Config, actions: seq<Action>, k: string)
    ensures var past := Run(cfg, START, actions).past;
            Count(past.wins, k) <= 1 + Count(past.voids, k) + OverlapStarts(cfg, actions, k)
  {
    RunPaid(cfg, actions, k);
  }

  // ------------------------------------------------------------ what loses a marker

  lemma ProgressVoids(cfg: Config, w: World, c: string)
    requires !(PhaseOf(w, c).Busy? && PhaseOf(w, c).stage.Succeeded?)
    ensures Progress(cfg, w, c).past.voids == w.past.voids
  {
    match PhaseOf(w, c)
    case Idle =>
    case Batch(stale, todo) =>
      assert ReadBatch(cfg, w, c).past.voids == w.past.voids;
      assert todo != [] ==> Take(cfg, w, c, stale, todo[0], todo[1..]).past.voids == w.past.voids;
    case Busy(stale, todo, row, stage) =>
      var p := PhaseOf(w, c);
      assert forall key :: Begin(w, c, p, key).past.voids == w.past.voids;
      assert Skip(w, c, p).past.voids == w.past.voids;
      assert Acknowledge(w, row.id).past.voids == w.past.voids;
      assert Bury(w, row, cfg.deadMaxlen).past.voids == w.past.voids;
  }

  /** The only steps that void a key: expiry of its marker, an operator removing it, a crash before it is set. */
  lemma WhatVoids(cfg: Config, w: World, a: Action, k: string)
    requires Count(Next(cfg, w, a).past.voids, k) != Count(w.past.voids, k)
    ensures
      || (a.Tick? && Marked(w.once, k, w.now) && !Marked(w.once, k, w.now + a.elapsed))
      || (a.Replay? && a.dedupeKey == Some(k))
      || (a.Crash? && AwaitsMarker(PhaseOf(w, a.c), k))
      || (a.Advance? && AwaitsMarker(PhaseOf(w, a.c), k) && cfg.ttlSeconds == 0)
  {
    if a.Advance? {
      var p := PhaseOf(w, a.c);
      if p.Busy? && p.stage.Succeeded? {
        assert AwaitsMarker(p, p.stage.marker);
      } else {
        ProgressVoids(cfg, w, a.c);
      }
    }
  }
}
