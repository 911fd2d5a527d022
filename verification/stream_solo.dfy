/** Delivery bounds when one consumer works at a time. */
module StreamSolo {
  import opened Text
  import opened Streams
  import opened StreamProtocol
  import opened StreamAttempts
  import opened StreamSuccesses

  /** A batch is started only while every other consumer is idle. */
  ghost predicate SoloStep(w: World, a: Action) {
    a.Start? ==> forall c | c in w.phases && c != a.c :: w.phases[c].Idle?
  }

  ghost predicate SoloRun(cfg: Config, actions: seq<Action>) {
    actions == [] ||
      (SoloRun(cfg, actions[..|actions| - 1])
       && SoloStep(Run(cfg, START, actions[..|actions| - 1]), actions[|actions| - 1]))
  }

  ghost predicate OneActive(w: World) {
    forall c, d | c in w.phases && d in w.phases && c != d :: w.phases[c].Idle? || w.phases[d].Idle?
  }

  // ------------------------------------------------------------ handler starts per entry

  ghost predicate AllPending(w: World, todo: seq<Row>) {
    && (forall i | 0 <= i < |todo| :: todo[i].id in w.group.pending)
    && (forall i, j | 0 <= i < j < |todo| :: todo[i].id != todo[j].id)
  }

  /** What the consumer has in its hands is pending, and an entry past its check was counted at least once. */
  ghost predicate InHand(w: World, p: Phase) {
    match p
    case Idle => true
    case Batch(_, todo) => AllPending(w, todo)
    case Busy(_, todo, row, stage) =>
      && AllPending(w, todo) && row.id in w.group.pending && (forall i | 0 <= i < |todo| :: todo[i].id != row.id)
      && (stage.Checked? ==> stage.attempts >= 1)
  }

  ghost predicate SoloInv(w: World) {
    && OneActive(w)
    && (forall id | id in w.group.pending :: w.group.pending[id].deliveries >= 1)
    && (forall c | c in w.phases :: InHand(w, w.phases[c]))
  }

  /** Steps that leave the group alone. */
  lemma GroupUntouched(w: World, w': World, c: string, phase: Phase)
    requires SoloInv(w) && w'.group == w.group
    requires w'.phases == w.phases || w'.phases == w.phases[c := phase]
    requires w'.phases != w.phases ==> InHand(w, phase) && (phase.Idle? || !PhaseOf(w, c).Idle?)
    ensures SoloInv(w')
  {
    forall d | d in w'.phases ensures InHand(w', w'.phases[d]) {
      assert InHand(w, if w'.phases != w.phases && d == c then phase else w.phases[d]);
    }
  }

  lemma ClaimInHand(cfg: Config, w: World, c: string, order: seq<nat>)
    requires Inv(cfg, w) && SoloInv(w) && Lists(order, w.group.pending.Keys)
    requires forall d | d in w.phases && d != c :: w.phases[d].Idle?
    ensures SoloInv(ClaimBatch(cfg, w, c, order))
  {
    ClaimGroup(order, w.source.rows, w.group, c, cfg.minIdle, cfg.readCount, w.now, w.group, []);
  }

  lemma ReadInHand(cfg: Config, w: World, c: string)
    requires Inv(cfg, w) && SoloInv(w) && !PhaseOf(w, c).Idle?
    ensures SoloInv(ReadBatch(cfg, w, c))
  {
    var w' := ReadBatch(cfg, w, c);
    var rows, n := w'.phases[c].todo, w.group.nextIndex;
    DeliveredAscending(w.source.rows, n, cfg.readCount, 0, w.source.last);
    AfterReadGroup(w.group, rows, c, w.now);
    AscendingDistinct(rows, n, w.source.last);
    forall i | 0 <= i < |rows|
      ensures rows[i].id in w'.group.pending
    {
      assert rows[i] in rows && rows[i].id in Ids(rows);
    }
    forall d | d in w'.phases ensures InHand(w', w'.phases[d]) { assert d == c || w.phases[d].Idle?; }
  }

  lemma TakeInHand(cfg: Config, w: World, c: string)
    requires SoloInv(w) && PhaseOf(w, c).Batch? && PhaseOf(w, c).todo != []
    ensures SoloInv(Progress(cfg, w, c))
  {
    var p, w' := PhaseOf(w, c), Progress(cfg, w, c);
    assert InHand(w, p);
    var rest := p.todo[1..];
    forall i | 0 <= i < |rest| ensures rest[i].id in w.group.pending && rest[i].id != p.todo[0].id {
      assert rest[i] == p.todo[i + 1];
    }
    GroupUntouched(w, w', c, w'.phases[c]);
  }

  lemma AcknowledgeInHand(w: World, c: string)
    requires SoloInv(w) && PhaseOf(w, c).Busy?
    ensures var p := PhaseOf(w, c); SoloInv(SetPhase(Acknowledge(w, p.row.id), c, Batch(p.stale, p.todo)))
  {
    var p := PhaseOf(w, c);
    var w' := SetPhase(Acknowledge(w, p.row.id), c, Batch(p.stale, p.todo));
    assert InHand(w, p);
    forall d | d in w'.phases ensures InHand(w', w'.phases[d]) { assert d == c || w.phases[d].Idle?; }
  }

  lemma StageInHand(cfg: Config, w: World, c: string)
    requires SoloInv(w) && PhaseOf(w, c).Busy?
    ensures SoloInv(Progress(cfg, w, c))
  {
    var p := PhaseOf(w, c);
    assert InHand(w, p);
    match p.stage {
      case Checked(_) =>
        match cfg.dedupe(p.row.payload) {
          case Raises => GroupUntouched(w, SetPhase(w, c, p.(stage := Dying)), c, p.(stage := Dying));
          case NoKey => GroupUntouched(w, Begin(w, c, p, None), c, p.(stage := Running(None)));
          case Key(k) =>
            if Marked(w.once, k, w.now) {
              GroupUntouched(w, Skip(w, c, p), c, p.(stage := Done));
            } else {
              GroupUntouched(w, Begin(w, c, p, Some(k)), c, p.(stage := Running(Some(k))));
            }
        }
      case Running(_) =>
      case Succeeded(k) => GroupUntouched(w, SetMarker(SetPhase(w, c, p.(stage := Done)), k, cfg.ttlSeconds), c,
                                          p.(stage := Done));
      case Dying => GroupUntouched(w, SetPhase(Bury(w, p.row, cfg.deadMaxlen), c, p.(stage := Done)), c,
                                   p.(stage := Done));
      case Done => AcknowledgeInHand(w, c);
    }
  }

  lemma NextInHand(cfg: Config, w: World, a: Action)
    requires Inv(cfg, w) && SoloInv(w) && SoloStep(w, a)
    ensures SoloInv(Next(cfg, w, a))
  {
    match a {
      case Tick(elapsed) => GroupUntouched(w, Elapse(w, elapsed), "", Idle);
      case Publish(payload, maxlen) => GroupUntouched(w, Send(w, payload, maxlen), "", Idle);
      case Replay(letter, maxlen, dedupeKey) => GroupUntouched(w, Resend(w, letter, maxlen, dedupeKey), "", Idle);
      case Start(c, order) =>
        if PhaseOf(w, c).Idle? && Lists(order, w.group.pending.Keys) { ClaimInHand(cfg, w, c, order); }
      case Advance(c) =>
        var p := PhaseOf(w, c);
        if p.Busy? { StageInHand(cfg, w, c); }
        if p.Batch? {
          if p.todo != [] { TakeInHand(cfg, w, c); }
          else if p.stale { ReadInHand(cfg, w, c); }
          else { GroupUntouched(w, SetPhase(w, c, Idle), c, Idle); }
        }
      case Finish(c, ok) =>
        var p := PhaseOf(w, c);
        if p.Busy? && p.stage.Running? {
          assert InHand(w, p);
          GroupUntouched(w, Next(cfg, w, a), c, Next(cfg, w, a).phases[c]);
        }
      case Crash(c) => GroupUntouched(w, Stop(w, c), c, Idle);
    }
  }

  lemma {:induction false} RunInHand(cfg: Config, actions: seq<Action>)
    requires SoloRun(cfg, actions)
    ensures SoloInv(Run(cfg, START, actions))
  {
    if actions != [] {
      var before := actions[..|actions| - 1];
      RunInHand(cfg, before);
      RunKeeps(cfg, before);
      NextInHand(cfg, Run(cfg, START, before), actions[|actions| - 1]);
    }
  }

  /** One consumer at a time never checks an entry that is no longer pending. */
  lemma {:induction false} NoOrphans(cfg: Config, actions: seq<Action>, id: nat)
    requires SoloRun(cfg, actions)
    ensures OrphanStarts(cfg, actions, id) == 0
  {
    if actions != [] {
      var before := actions[..|actions| - 1];
      NoOrphans(cfg, before, id);
      RunInHand(cfg, before);
      var w, a := Run(cfg, START, before), actions[|actions| - 1];
      if a.Advance? { assert InHand(w, PhaseOf(w, a.c)); }
    }
  }

  /** With one consumer at a time the handler is started for an entry at most max_attempts times. */
  lemma AttemptsBounded(cfg: Config, actions: seq<Action>, id: nat)
    requires SoloRun(cfg, actions)
    ensures Count(Run(cfg, START, actions).past.starts, id) <= Limit(cfg)
  {
    NoOrphans(cfg, actions, id);
    StartsBounded(cfg, actions, id);
  }

  // ------------------------------------------------------------ handler successes per dedupe key

  lemma NoOverlap(cfg: Config, w: World, a: Action, k: string)
    requires OneActive(w)
    ensures !OverlapStart(cfg, w, a, k)
  {
  }

  /** One consumer at a time never starts a handler while another is at work on its key. */
  lemma {:induction false} NoOverlaps(cfg: Config, actions: seq<Action>, k: string)
    requires SoloRun(cfg, actions)
    ensures OverlapStarts(cfg, actions, k) == 0
  {
    if actions != [] {
      var before := actions[..|actions| - 1];
      NoOverlaps(cfg, before, k);
      RunInHand(cfg, before);
      NoOverlap(cfg, Run(cfg, START, before), actions[|actions| - 1], k);
    }
  }

  /**
   * With one consumer at a time a message succeeds once per dedupe key, plus once for every time its marker was lost.
   */
  lemma SoloSuccessesBounded(cfg: Config, actions: seq<Action>, k: string)
    requires SoloRun(cfg, actions)
    ensures var past := Run(cfg, START, actions).past; Count(past.wins, k) <= 1 + Count(past.voids, k)
  {
    NoOverlaps(cfg, actions, k);
    SuccessesBounded(cfg, actions, k);
  }
}
