/** How often a handler can be started for one entry, with any number of consumers. */
module StreamAttempts {
  import opened Text
  import opened Streams
  import opened StreamProtocol

  /** A fresh entry is handled without looking at max_attempts. */
  function Limit(cfg: Config): nat {
    if cfg.maxAttempts == 0 then 1 else cfg.maxAttempts
  }

  /** The step starts the handler for an entry whose delivery count was read as 0, because it was no longer pending. */
  ghost predicate OrphanStart(cfg: Config, w: World, a: Action, id: nat) {
    && a.Advance? && PhaseOf(w, a.c).Busy? && PhaseOf(w, a.c).row.id == id
    && PhaseOf(w, a.c).stale && PhaseOf(w, a.c).stage == Checked(0)
    && Count(Next(cfg, w, a).past.starts, id) > Count(w.past.starts, id)
  }

  ghost function OrphanStarts(cfg: Config, actions: seq<Action>, id: nat): nat {
    if actions == [] then 0 else
      var before := actions[..|actions| - 1];
      OrphanStarts(cfg, before, id)
        + if OrphanStart(cfg, Run(cfg, START, before), actions[|actions| - 1], id) then 1 else 0
  }

  // ------------------------------------------------------------ sums over the consumers

  ghost function Sum(phases: map<string, Phase>, f: Phase -> nat): nat
    decreases |phases|
  {
    if phases == map[] then 0 else
      var c :| c in phases;
      assert |phases - {c}| < |phases| by { assert (phases - {c}).Keys == phases.Keys - {c}; }
      f(phases[c]) + Sum(phases - {c}, f)
  }

  lemma {:induction false} SumPick(phases: map<string, Phase>, f: Phase -> nat, c: string)
    requires c in phases
    ensures Sum(phases, f) == f(phases[c]) + Sum(phases - {c}, f)
    decreases |phases|
  {
    var d :| d in phases && Sum(phases, f) == f(phases[d]) + Sum(phases - {d}, f);
    if d != c {
      assert (phases - {d}).Keys == phases.Keys - {d};
      SumPick(phases - {d}, f, c);
      assert (phases - {c}).Keys == phases.Keys - {c};
      SumPick(phases - {c}, f, d);
      assert phases - {d} - {c} == phases - {c} - {d};
    }
  }

  /** Moving one consumer changes the sum by that consumer's share. */
  lemma SumMove(phases: map<string, Phase>, f: Phase -> nat, c: string, p: Phase)
    requires f(Idle) == 0
    ensures Sum(phases[c := p], f) + f(if c in phases then phases[c] else Idle) == Sum(phases, f) + f(p)
  {
    SumPick(phases[c := p], f, c);
    if c in phases {
      SumPick(phases, f, c);
      assert phases[c := p] - {c} == phases - {c};
    } else {
      assert phases[c := p] - {c} == phases;
    }
  }

  lemma SumAtLeast(phases: map<string, Phase>, f: Phase -> nat, c: string)
    requires c in phases
    ensures Sum(phases, f) >= f(phases[c])
  {
    SumPick(phases, f, c);
  }

  // ------------------------------------------------------------ what a consumer still may start

  function Among(todo: seq<Row>, id: nat): nat {
    if todo == [] then 0 else (if todo[0].id == id then 1 else 0) + Among(todo[1..], id)
  }

  lemma {:induction false} AmongDistinct(todo: seq<Row>, id: nat)
    requires forall i, j | 0 <= i < j < |todo| :: todo[i].id != todo[j].id
    ensures Among(todo, id) == if id in Ids(todo) then 1 else 0
  {
    if todo != [] {
      AmongDistinct(todo[1..], id);
      assert forall r :: r in todo <==> r == todo[0] || r in todo[1..];
    }
  }

  /** Deliveries of id in a consumer's hands that have not been decided on, and those of them that were fresh. */
  function Undecided(p: Phase, id: nat): nat {
    if p.Idle? then 0 else Among(p.todo, id)
  }

  function FreshOf(p: Phase, id: nat): nat {
    if p.Idle? || p.stale then 0 else Among(p.todo, id)
  }

  /** The entry has passed the check and its handler may be started next. */
  function Cleared(p: Phase, id: nat): nat {
    if p.Busy? && p.row.id == id && p.stage.Checked? && !(p.stale && p.stage.attempts == 0) then 1 else 0
  }

  ghost function UndecidedIn(w: World, id: nat): nat {
    Sum(w.phases, (p: Phase) => Undecided(p, id))
  }

  ghost function FreshIn(w: World, id: nat): nat {
    Sum(w.phases, (p: Phase) => FreshOf(p, id))
  }

  ghost function ClearedIn(w: World, id: nat): nat {
    Sum(w.phases, (p: Phase) => Cleared(p, id))
  }

  /** Starts so far and deliveries that may still become starts, against deliveries made and against the limit. */
  ghost predicate Bounded(cfg: Config, w: World, id: nat, orphans: nat) {
    && Count(w.past.starts, id) + ClearedIn(w, id) + FreshIn(w, id) <= Limit(cfg) + orphans
    && (id in w.group.pending ==>
          w.group.pending[id].deliveries >= 1
          && Count(w.past.starts, id) + ClearedIn(w, id) + UndecidedIn(w, id) <= w.group.pending[id].deliveries
             + orphans)
    && (id > w.group.nextIndex ==>
          Count(w.past.starts, id) == 0 && ClearedIn(w, id) == 0 && UndecidedIn(w, id) == 0 && FreshIn(w, id) == 0)
  }

  /** What moving one consumer does to the three sums. */
  lemma Moved(w: World, c: string, p: Phase, id: nat)
    ensures var w', old' := SetPhase(w, c, p), PhaseOf(w, c);
            && UndecidedIn(w', id) + Undecided(old', id) == UndecidedIn(w, id) + Undecided(p, id)
            && FreshIn(w', id) + FreshOf(old', id) == FreshIn(w, id) + FreshOf(p, id)
            && ClearedIn(w', id) + Cleared(old', id) == ClearedIn(w, id) + Cleared(p, id)
  {
    SumMove(w.phases, (q: Phase) => Undecided(q, id), c, p);
    SumMove(w.phases, (q: Phase) => FreshOf(q, id), c, p);
    SumMove(w.phases, (q: Phase) => Cleared(q, id), c, p);
  }

  lemma AtLeastOwn(w: World, c: string, id: nat)
    ensures UndecidedIn(w, id) >= Undecided(PhaseOf(w, c), id)
    ensures FreshIn(w, id) >= FreshOf(PhaseOf(w, c), id)
    ensures ClearedIn(w, id) >= Cleared(PhaseOf(w, c), id)
  {
    if c in w.phases {
      SumAtLeast(w.phases, (q: Phase) => Undecided(q, id), c);
      SumAtLeast(w.phases, (q: Phase) => FreshOf(q, id), c);
      SumAtLeast(w.phases, (q: Phase) => Cleared(q, id), c);
    }
  }

  lemma {:induction false} FreshAreUndecided(phases: map<string, Phase>, id: nat)
    ensures Sum(phases, (p: Phase) => FreshOf(p, id)) <= Sum(phases, (p: Phase) => Undecided(p, id))
    decreases |phases|
  {
    if phases != map[] {
      var c :| c in phases;
      assert (phases - {c}).Keys == phases.Keys - {c};
      FreshAreUndecided(phases - {c}, id);
      SumPick(phases, (p: Phase) => FreshOf(p, id), c);
      SumPick(phases, (p: Phase) => Undecided(p, id), c);
    }
  }

  // ------------------------------------------------------------ every step

  /** Steps that leave the phases, the group and the start counts alone. */
  lemma OutsideBounded(cfg: Config, w: World, w': World, id: nat, orphans: nat)
    requires Bounded(cfg, w, id, orphans) && w'.phases == w.phases && w'.group == w.group
    requires w'.past.starts == w.past.starts
    ensures Bounded(cfg, w', id, orphans)
  {
  }

  /** A consumer moves on; nothing is delivered, nothing started, and it is not cleared for anything new. */
  lemma InsideBounded(cfg: Config, w: World, w': World, c: string, p: Phase, id: nat, orphans: nat)
    requires Bounded(cfg, w, id, orphans) && w'.phases == w.phases[c := p] && w'.past.starts == w.past.starts
    requires w'.group.nextIndex == w.group.nextIndex
    requires id in w'.group.pending ==> id in w.group.pending && w'.group.pending[id] == w.group.pending[id]
    requires Undecided(p, id) + Cleared(p, id) <= Undecided(PhaseOf(w, c), id) + Cleared(PhaseOf(w, c), id)
    requires FreshOf(p, id) + Cleared(p, id) <= FreshOf(PhaseOf(w, c), id) + Cleared(PhaseOf(w, c), id)
    ensures Bounded(cfg, w', id, orphans)
  {
    Moved(w, c, p, id);
    AtLeastOwn(w, c, id);
    assert w'.phases == SetPhase(w, c, p).phases;
    assert UndecidedIn(w', id) == UndecidedIn(SetPhase(w, c, p), id);
    assert FreshIn(w', id) == FreshIn(SetPhase(w, c, p), id);
    assert ClearedIn(w', id) == ClearedIn(SetPhase(w, c, p), id);
  }

  lemma ClaimBounded(cfg: Config, w: World, c: string, order: seq<nat>, id: nat, orphans: nat)
    requires Inv(cfg, w) && Bounded(cfg, w, id, orphans) && Lists(order, w.group.pending.Keys) && PhaseOf(w, c).Idle?
    ensures Bounded(cfg, ClaimBatch(cfg, w, c, order), id, orphans)
  {
    var w' := ClaimBatch(cfg, w, c, order);
    var claimed := w'.phases[c].todo;
    ClaimGroup(order, w.source.rows, w.group, c, cfg.minIdle, cfg.readCount, w.now, w.group, []);
    AmongDistinct(claimed, id);
    Moved(w, c, Batch(true, claimed), id);
    assert w'.phases == SetPhase(w, c, Batch(true, claimed)).phases;
    assert UndecidedIn(w', id) == UndecidedIn(SetPhase(w, c, Batch(true, claimed)), id);
    assert FreshIn(w', id) == FreshIn(SetPhase(w, c, Batch(true, claimed)), id);
    assert ClearedIn(w', id) == ClearedIn(SetPhase(w, c, Batch(true, claimed)), id);
  }

  lemma ReadBounded(cfg: Config, w: World, c: string, id: nat, orphans: nat)
    requires Inv(cfg, w) && Bounded(cfg, w, id, orphans) && PhaseOf(w, c) == Batch(true, [])
    ensures Bounded(cfg, ReadBatch(cfg, w, c), id, orphans)
  {
    var w' := ReadBatch(cfg, w, c);
    var rows, n := w'.phases[c].todo, w.group.nextIndex;
    DeliveredAscending(w.source.rows, n, cfg.readCount, 0, w.source.last);
    AfterReadGroup(w.group, rows, c, w.now);
    AscendingBounds(rows, n, w.source.last);
    AscendingDistinct(rows, n, w.source.last);
    AmongDistinct(rows, id);
    Moved(w, c, Batch(false, rows), id);
    assert w'.phases == SetPhase(w, c, Batch(false, rows)).phases;
    assert UndecidedIn(w', id) == UndecidedIn(SetPhase(w, c, Batch(false, rows)), id);
    assert FreshIn(w', id) == FreshIn(SetPhase(w, c, Batch(false, rows)), id);
    assert ClearedIn(w', id) == ClearedIn(SetPhase(w, c, Batch(false, rows)), id);
    if rows != [] { AscendingLast(rows, n, w.source.last, rows[0]); }
    if id in Ids(rows) {
      var r :| r in rows && r.id == id;
      AscendingLast(rows, n, w.source.last, r);
    }
  }

  lemma TakeBounded(cfg: Config, w: World, c: string, id: nat, orphans: nat)
    requires Bounded(cfg, w, id, orphans) && PhaseOf(w, c).Batch? && PhaseOf(w, c).todo != []
    ensures Bounded(cfg, Progress(cfg, w, c), id, orphans)
  {
    var p := PhaseOf(w, c);
    var w' := Take(cfg, w, c, p.stale, p.todo[0], p.todo[1..]);
    var p' := w'.phases[c];
    Moved(w, c, p', id);
    AtLeastOwn(w, c, id);
    FreshAreUndecided(w.phases, id);
    FreshElsewhere(w, c, id);
    assert w' == SetPhase(w, c, p');
  }

  /** A stale delivery in a consumer's hands is undecided beside all fresh ones. */
  lemma FreshElsewhere(w: World, c: string, id: nat)
    ensures FreshIn(w, id) + Undecided(PhaseOf(w, c), id) <= UndecidedIn(w, id) + FreshOf(PhaseOf(w, c), id)
  {
    if c in w.phases {
      FreshAreUndecided(w.phases - {c}, id);
      SumPick(w.phases, (p: Phase) => FreshOf(p, id), c);
      SumPick(w.phases, (p: Phase) => Undecided(p, id), c);
    } else {
      FreshAreUndecided(w.phases, id);
    }
  }

  lemma BeginBounded(cfg: Config, w: World, c: string, key: Option<string>, id: nat, orphans: nat)
    requires Inv(cfg, w) && Bounded(cfg, w, id, orphans) && PhaseOf(w, c).Busy? && PhaseOf(w, c).stage.Checked?
    requires Next(cfg, w, Advance(c)) == Begin(w, c, PhaseOf(w, c), key)
    ensures Bounded(cfg, Begin(w, c, PhaseOf(w, c), key), id,
                    orphans + if OrphanStart(cfg, w, Advance(c), id) then 1 else 0)
  {
    var p := PhaseOf(w, c);
    var w', p' := Begin(w, c, p, key), p.(stage := Running(key));
    Moved(w, c, p', id);
    AtLeastOwn(w, c, id);
    assert Count(w'.past.starts, id) == Count(w.past.starts, id) + if id == p.row.id then 1 else 0;
    assert w'.phases == SetPhase(w, c, p').phases;
    assert UndecidedIn(w', id) == UndecidedIn(SetPhase(w, c, p'), id);
    assert FreshIn(w', id) == FreshIn(SetPhase(w, c, p'), id);
    assert ClearedIn(w', id) == ClearedIn(SetPhase(w, c, p'), id);
    assert PhaseOk(cfg, w, p) && Known(w, p.row);
  }

  lemma CheckedBounded(cfg: Config, w: World, c: string, id: nat, orphans: nat)
    requires Inv(cfg, w) && Bounded(cfg, w, id, orphans) && PhaseOf(w, c).Busy? && PhaseOf(w, c).stage.Checked?
    ensures Bounded(cfg, Progress(cfg, w, c), id, orphans + if OrphanStart(cfg, w, Advance(c), id) then 1 else 0)
  {
    var p := PhaseOf(w, c);
    match cfg.dedupe(p.row.payload) {
      case Raises => InsideBounded(cfg, w, SetPhase(w, c, p.(stage := Dying)), c, p.(stage := Dying), id, orphans);
      case NoKey => BeginBounded(cfg, w, c, None, id, orphans);
      case Key(k) =>
        if Marked(w.once, k, w.now) {
          InsideBounded(cfg, w, Skip(w, c, p), c, p.(stage := Done), id, orphans);
        } else {
          BeginBounded(cfg, w, c, Some(k), id, orphans);
        }
    }
  }

  lemma StageBounded(cfg: Config, w: World, c: string, id: nat, orphans: nat)
    requires Inv(cfg, w) && Bounded(cfg, w, id, orphans) && PhaseOf(w, c).Busy? && !PhaseOf(w, c).stage.Checked?
    ensures Bounded(cfg, Progress(cfg, w, c), id, orphans)
  {
    var p := PhaseOf(w, c);
    match p.stage {
      case Checked(_) =>
      case Running(_) =>
      case Succeeded(k) =>
        InsideBounded(cfg, w, SetMarker(SetPhase(w, c, p.(stage := Done)), k, cfg.ttlSeconds), c, p.(stage := Done), id,
                      orphans);
      case Dying =>
        InsideBounded(cfg, w, SetPhase(Bury(w, p.row, cfg.deadMaxlen), c, p.(stage := Done)), c, p.(stage := Done), id,
                      orphans);
      case Done =>
        InsideBounded(cfg, w, SetPhase(Acknowledge(w, p.row.id), c, Batch(p.stale, p.todo)), c, Batch(p.stale, p.todo),
                      id, orphans);
    }
  }

  lemma BatchBounded(cfg: Config, w: World, c: string, id: nat, orphans: nat)
    requires Inv(cfg, w) && Bounded(cfg, w, id, orphans) && !PhaseOf(w, c).Busy?
    ensures Bounded(cfg, Progress(cfg, w, c), id, orphans)
  {
    var p := PhaseOf(w, c);
    if p.Batch? {
      if p.todo != [] { TakeBounded(cfg, w, c, id, orphans); }
      else if p.stale { ReadBounded(cfg, w, c, id, orphans); }
      else { InsideBounded(cfg, w, SetPhase(w, c, Idle), c, Idle, id, orphans); }
    }
  }

  lemma ReplayBounded(cfg: Config, w: World, letter: nat, maxlen: nat, dedupeKey: Option<string>, id: nat, orphans: nat)
    requires Bounded(cfg, w, id, orphans)
    ensures Bounded(cfg, Resend(w, letter, maxlen, dedupeKey), id, orphans)
  {
    OutsideBounded(cfg, w, Resend(w, letter, maxlen, dedupeKey), id, orphans);
  }

  lemma StartBounded(cfg: Config, w: World, c: string, order: seq<nat>, id: nat, orphans: nat)
    requires Inv(cfg, w) && Bounded(cfg, w, id, orphans)
    ensures Bounded(cfg, Next(cfg, w, Start(c, order)), id, orphans)
  {
    if PhaseOf(w, c).Idle? && Lists(order, w.group.pending.Keys) { ClaimBounded(cfg, w, c, order, id, orphans); }
  }

  lemma FinishBounded(cfg: Config, w: World, c: string, ok: bool, id: nat, orphans: nat)
    requires Bounded(cfg, w, id, orphans)
    ensures Bounded(cfg, Next(cfg, w, Finish(c, ok)), id, orphans)
  {
    var p, w' := PhaseOf(w, c), Next(cfg, w, Finish(c, ok));
    if p.Busy? && p.stage.Running? { InsideBounded(cfg, w, w', c, w'.phases[c], id, orphans); }
  }

  lemma CrashBounded(cfg: Config, w: World, c: string, id: nat, orphans: nat)
    requires Bounded(cfg, w, id, orphans)
    ensures Bounded(cfg, Stop(w, c), id, orphans)
  {
    InsideBounded(cfg, w, Stop(w, c), c, Idle, id, orphans);
  }

  lemma AdvanceBounded(cfg: Config, w: World, c: string, id: nat, orphans: nat)
    requires Inv(cfg, w) && Bounded(cfg, w, id, orphans)
    ensures Bounded(cfg, Progress(cfg, w, c), id, orphans + if OrphanStart(cfg, w, Advance(c), id) then 1 else 0)
  {
    if PhaseOf(w, c).Busy? && PhaseOf(w, c).stage.Checked? {
      CheckedBounded(cfg, w, c, id, orphans);
    } else {
      NoOrphanStart(cfg, w, Advance(c), id);
      if PhaseOf(w, c).Busy? { StageBounded(cfg, w, c, id, orphans); } else { BatchBounded(cfg, w, c, id, orphans); }
    }
  }

  lemma NoOrphanStart(cfg: Config, w: World, a: Action, id: nat)
    requires a.Advance? ==> !(PhaseOf(w, a.c).Busy? && PhaseOf(w, a.c).stage.Checked?)
    ensures !OrphanStart(cfg, w, a, id)
  {
  }

  lemma OtherBounded(cfg: Config, w: World, a: Action, id: nat, orphans: nat)
    requires Inv(cfg, w) && Bounded(cfg, w, id, orphans) && !a.Advance?
    ensures Bounded(cfg, Next(cfg, w, a), id, orphans)
  {
    match a {
      case Tick(elapsed) => OutsideBounded(cfg, w, Elapse(w, elapsed), id, orphans);
      case Publish(payload, maxlen) => OutsideBounded(cfg, w, Send(w, payload, maxlen), id, orphans);
      case Replay(letter, maxlen, dedupeKey) => ReplayBounded(cfg, w, letter, maxlen, dedupeKey, id, orphans);
      case Start(c, order) => StartBounded(cfg, w, c, order, id, orphans);
      case Finish(c, ok) => FinishBounded(cfg, w, c, ok, id, orphans);
      case Crash(c) => CrashBounded(cfg, w, c, id, orphans);
    }
  }

  lemma NextBounded(cfg: Config, w: World, a: Action, id: nat, orphans: nat)
    requires Inv(cfg, w) && Bounded(cfg, w, id, orphans)
    ensures Bounded(cfg, Next(cfg, w, a), id, orphans + if OrphanStart(cfg, w, a, id) then 1 else 0)
  {
    if a.Advance? {
      AdvanceBounded(cfg, w, a.c, id, orphans);
    } else {
      NoOrphanStart(cfg, w, a, id);
      OtherBounded(cfg, w, a, id, orphans);
    }
  }

  lemma {:induction false} RunBounded(cfg: Config, actions: seq<Action>, id: nat)
    ensures Bounded(cfg, Run(cfg, START, actions), id, OrphanStarts(cfg, actions, id))
  {
    if actions != [] {
      var before := actions[..|actions| - 1];
      RunBounded(cfg, before, id);
      RunKeeps(cfg, before);
      NextBounded(cfg, Run(cfg, START, before), actions[|actions| - 1], id, OrphanStarts(cfg, before, id));
    }
  }

  /**
   * In every run, with any number of consumers, an entry's handler is started at most max_attempts times, plus once for
   * every start whose check read a delivery count of 0.
   */
  lemma StartsBounded(cfg: Config, actions: seq<Action>, id: nat)
    ensures Count(Run(cfg, START, actions).past.starts, id) <= Limit(cfg) + OrphanStarts(cfg, actions, id)
  {
    RunBounded(cfg, actions, id);
  }
}
