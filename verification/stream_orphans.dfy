/** A run in which two consumers start a handler once more than max_attempts: StreamAttempts.StartsBounded is sharp. */
module StreamOrphans {
  import opened Text
  import opened Streams
  import opened StreamProtocol
  import opened StreamAttempts

  /** One entry r in the stream, consumers A and B, and how often the handler was started for r. */
  datatype Scene = Scene(now: nat, pending: map<nat, Pending>, a: Phase, b: Phase, starts: nat)

  ghost predicate Shows(w: World, r: Row, s: Scene) {
    && w.source == Log([r], 1) && r.id == 1 && w.group == Group(1, s.pending) && w.now == s.now
    && PhaseOf(w, "A") == s.a && PhaseOf(w, "B") == s.b && Count(w.past.starts, 1) == s.starts
  }

  /** The run so far ends in the scene. */
  ghost predicate Reaches(cfg: Config, trace: seq<Action>, r: Row, s: Scene) {
    Shows(Run(cfg, START, trace), r, s)
  }

  function Of(s: Scene, c: string): Phase {
    if c == "A" then s.a else s.b
  }

  function With(s: Scene, c: string, p: Phase): Scene {
    if c == "A" then s.(a := p) else s.(b := p)
  }

  function Deliveries(s: Scene): nat {
    if 1 in s.pending then s.pending[1].deliveries else 0
  }

  /** What one Advance of a consumer makes of the scene, when the payload has no dedupe key. */
  function Advanced(cfg: Config, s: Scene, c: string, r: Row): Scene {
    var p := Of(s, c);
    if p.Batch? && p.todo == [r] then
      var n := if p.stale then Deliveries(s) else 1;
      With(s, c, Busy(p.stale, [], r, if p.stale && n > cfg.maxAttempts then Dying else Checked(n)))
    else if p == Batch(true, []) then With(s, c, Batch(false, []))
    else if p == Batch(false, []) then With(s, c, Idle)
    else if p.Busy? && p.stage.Checked? then With(s, c, p.(stage := Running(None))).(starts := s.starts + 1)
    else if p.Busy? && p.stage.Dying? then With(s, c, p.(stage := Done))
    else if p.Busy? && p.stage.Done? then With(s, c, Batch(p.stale, p.todo)).(pending := s.pending - {1})
    else s
  }

  /** The consumer has nothing in its hands but r, and has read the stream. */
  ghost predicate Simple(s: Scene, c: string, r: Row) {
    match Of(s, c)
    case Idle => true
    case Batch(_, todo) => todo == [r] || todo == []
    case Busy(_, todo, row, stage) =>
      todo == [] && row == r && (stage.Running? ==> stage.key.None?) && !stage.Succeeded?
  }

  lemma Nothing(r: Row, count: nat)
    ensures r.id == 1 ==> Delivered([r], 1, count) == []
  {
    assert [r][1..] == [];
  }

  lemma BatchScene(cfg: Config, w: World, r: Row, s: Scene, c: string)
    requires Shows(w, r, s) && c in {"A", "B"} && Simple(s, c, r) && Of(s, c).Batch?
    ensures Shows(Progress(cfg, w, c), r, Advanced(cfg, s, c, r))
  {
    Nothing(r, cfg.readCount);
    assert [r][1..] == [];
    assert PhaseOf(w, c) == Of(s, c);
    if Of(s, c).todo == [r] {
      assert Progress(cfg, w, c) == Take(cfg, w, c, Of(s, c).stale, r, []);
    }
  }

  lemma BusyScene(cfg: Config, w: World, r: Row, s: Scene, c: string)
    requires Shows(w, r, s) && c in {"A", "B"} && Simple(s, c, r) && Of(s, c).Busy? && cfg.dedupe(r.payload).NoKey?
    ensures Shows(Progress(cfg, w, c), r, Advanced(cfg, s, c, r))
  {
    var p := PhaseOf(w, c);
    assert p == Of(s, c);
    match p.stage {
      case Checked(_) => assert Progress(cfg, w, c) == Begin(w, c, p, None);
      case Running(_) =>
      case Succeeded(_) =>
      case Dying => assert Progress(cfg, w, c) == SetPhase(Bury(w, r, cfg.deadMaxlen), c, p.(stage := Done));
      case Done => assert Progress(cfg, w, c) == SetPhase(Acknowledge(w, 1), c, Batch(p.stale, p.todo));
    }
  }

  lemma AdvanceScene(cfg: Config, trace: seq<Action>, r: Row, s: Scene, c: string)
    requires Reaches(cfg, trace, r, s) && c in {"A", "B"} && cfg.dedupe(r.payload).NoKey? && Simple(s, c, r)
    ensures Reaches(cfg, trace + [Advance(c)], r, Advanced(cfg, s, c, r))
  {
    var w := Run(cfg, START, trace);
    RunSnoc(cfg, START, trace, Advance(c));
    assert PhaseOf(w, c) == Of(s, c);
    if Of(s, c).Batch? { BatchScene(cfg, w, r, s, c); }
    if Of(s, c).Busy? { BusyScene(cfg, w, r, s, c); }
  }

  lemma FailScene(cfg: Config, trace: seq<Action>, r: Row, s: Scene)
    requires Reaches(cfg, trace, r, s) && s.a.Busy? && s.a.stage.Running?
    ensures Reaches(cfg, trace + [Finish("A", false)], r, s.(a := Batch(s.a.stale, s.a.todo)))
  {
    RunSnoc(cfg, START, trace, Finish("A", false));
  }

  lemma TickScene(cfg: Config, trace: seq<Action>, r: Row, s: Scene, elapsed: nat)
    requires Reaches(cfg, trace, r, s)
    ensures Reaches(cfg, trace + [Tick(elapsed)], r, s.(now := s.now + elapsed))
  {
    RunSnoc(cfg, START, trace, Tick(elapsed));
  }

  lemma SoleClaim(g: Group, r: Row, consumer: string, minIdle: nat, count: nat, now: nat)
    requires count > 0 && r.id in g.pending && now - g.pending[r.id].since >= minIdle
    ensures Claim([r.id], [r], g, consumer, minIdle, count, now)
            == (g.(pending := g.pending[r.id := Pending(consumer, g.pending[r.id].deliveries + 1, now)]), [r])
  {
    var (g', more) := ClaimOne(r.id, [r], g, consumer, minIdle, now);
    assert [] + more == [r];
    assert [r.id][1..] == [];
    assert Claim([], [r], g', consumer, minIdle, count, now, [r]) == (g', [r]);
  }

  /** A consumer claims r once it is idle for long enough. */
  lemma IdleScene(cfg: Config, trace: seq<Action>, r: Row, s: Scene, c: string)
    requires Reaches(cfg, trace, r, s) && c in {"A", "B"} && Of(s, c).Idle? && cfg.readCount > 0
    requires s.pending.Keys == {1} && s.pending[1].since + cfg.minIdle == s.now
    ensures var pending := map[1 := Pending(c, s.pending[1].deliveries + 1, s.now)];
            Reaches(cfg, trace + [Start(c, [1])], r, With(s, c, Batch(true, [r])).(pending := pending))
  {
    var w := Run(cfg, START, trace);
    SoleClaim(w.group, r, c, cfg.minIdle, cfg.readCount, s.now);
    assert Lists([1], s.pending.Keys);
    RunSnoc(cfg, START, trace, Start(c, [1]));
    var p := Pending(c, s.pending[1].deliveries + 1, s.now);
    assert s.pending[1 := p] == map[1 := p];
  }

  /** A consumer waits until r is idle and claims it. */
  lemma ClaimScene(cfg: Config, trace: seq<Action>, r: Row, s: Scene, c: string)
    requires Reaches(cfg, trace, r, s) && c in {"A", "B"} && Of(s, c).Idle? && cfg.readCount > 0
    requires s.pending.Keys == {1} && s.pending[1].since == s.now
    ensures var now := s.now + cfg.minIdle;
            Reaches(cfg, trace + [Tick(cfg.minIdle), Start(c, [1])], r,
                    With(s, c, Batch(true, [r])).(now := now,
                                                  pending := map[1 := Pending(c, s.pending[1].deliveries + 1, now)]))
  {
    TickScene(cfg, trace, r, s, cfg.minIdle);
    var waited := trace + [Tick(cfg.minIdle)];
    IdleScene(cfg, waited, r, s.(now := s.now + cfg.minIdle), c);
    assert waited + [Start(c, [1])] == trace + [Tick(cfg.minIdle), Start(c, [1])];
  }

  /** The payload is published, A reads it and its handler fails: one delivery, one start. */
  lemma FirstAttempt(cfg: Config, r: Row) returns (trace: seq<Action>, s: Scene)
    requires cfg.readCount > 0 && cfg.dedupe(r.payload).NoKey? && r.id == 1
    ensures Reaches(cfg, trace, r, s) && s == Scene(0, map[1 := Pending("A", 1, 0)], Idle, Idle, 1)
  {
    trace, s := FirstRead(cfg, r);
    AdvanceScene(cfg, trace, r, s, "A");
    trace, s := trace + [Advance("A")], Advanced(cfg, s, "A", r);
    AdvanceScene(cfg, trace, r, s, "A");
    trace, s := trace + [Advance("A")], Advanced(cfg, s, "A", r);
    FailScene(cfg, trace, r, s);
    trace, s := trace + [Finish("A", false)], s.(a := Batch(false, []));
    AdvanceScene(cfg, trace, r, s, "A");
    trace, s := trace + [Advance("A")], Advanced(cfg, s, "A", r);
  }

  lemma PublishedOnce(cfg: Config, r: Row)
    requires r.id == 1
    ensures var w := Next(cfg, Next(cfg, START, Publish(r.payload, 1)), Start("A", []));
            w.source == Log([r], 1) && w.group == NEW_GROUP && w.now == 0 && w.past.starts == map[]
            && PhaseOf(w, "A") == Batch(true, []) && PhaseOf(w, "B") == Idle
  {
    assert Lists([], START.group.pending.Keys);
    assert [] + [r] == [r];
  }

  lemma OnlyRead(cfg: Config, w: World, r: Row)
    requires cfg.readCount > 0 && r.id == 1 && w.source == Log([r], 1) && w.group == NEW_GROUP && w.now == 0
    requires w.past.starts == map[] && PhaseOf(w, "A") == Batch(true, []) && PhaseOf(w, "B") == Idle
    ensures Shows(Next(cfg, w, Advance("A")), r, Scene(0, map[1 := Pending("A", 1, 0)], Batch(false, [r]), Idle, 0))
  {
    assert [r][1..] == [] && [r][..0] == [];
    assert Delivered([], 0, cfg.readCount - 1) == [];
    assert [r] + [] == [r];
    assert Delivered([r], 0, cfg.readCount) == [r];
    assert AfterRead(w.group, [], "A", 0) == w.group;
    assert AfterRead(w.group, [r], "A", 0) == Group(1, map[1 := Pending("A", 1, 0)]);
  }

  lemma FirstRead(cfg: Config, r: Row) returns (trace: seq<Action>, s: Scene)
    requires cfg.readCount > 0 && r.id == 1
    ensures Reaches(cfg, trace, r, s) && s == Scene(0, map[1 := Pending("A", 1, 0)], Batch(false, [r]), Idle, 0)
  {
    var published, started := [] + [Publish(r.payload, 1)], [] + [Publish(r.payload, 1)] + [Start("A", [])];
    trace := started + [Advance("A")];
    s := Scene(0, map[1 := Pending("A", 1, 0)], Batch(false, [r]), Idle, 0);
    RunSnoc(cfg, START, [], Publish(r.payload, 1));
    RunSnoc(cfg, START, published, Start("A", []));
    RunSnoc(cfg, START, started, Advance("A"));
    PublishedOnce(cfg, r);
    OnlyRead(cfg, Run(cfg, START, started), r);
  }

  ghost function Failed(now: nat, n: nat): Scene {
    Scene(now, map[1 := Pending("A", n, now)], Idle, Idle, n)
  }

  /** A takes r, passes the check and its handler fails. */
  lemma FailedAttempt(cfg: Config, trace0: seq<Action>, r: Row, s: Scene) returns (trace: seq<Action>)
    requires Reaches(cfg, trace0, r, s) && cfg.dedupe(r.payload).NoKey?
    requires s.a == Batch(true, [r]) && Deliveries(s) <= cfg.maxAttempts
    ensures Reaches(cfg, trace, r, s.(a := Batch(true, []), starts := s.starts + 1))
  {
    var checked, running := Busy(true, [], r, Checked(Deliveries(s))), Busy(true, [], r, Running(None));
    AdvanceScene(cfg, trace0, r, s, "A");
    trace := trace0 + [Advance("A")];
    assert Advanced(cfg, s, "A", r) == s.(a := checked);
    AdvanceScene(cfg, trace, r, s.(a := checked), "A");
    trace := trace + [Advance("A")];
    assert Advanced(cfg, s.(a := checked), "A", r) == s.(a := running, starts := s.starts + 1);
    FailScene(cfg, trace, r, s.(a := running, starts := s.starts + 1));
    trace := trace + [Finish("A", false)];
  }

  lemma BackToIdle(cfg: Config, trace0: seq<Action>, r: Row, s: Scene) returns (trace: seq<Action>)
    requires Reaches(cfg, trace0, r, s) && cfg.dedupe(r.payload).NoKey? && s.a == Batch(true, [])
    ensures Reaches(cfg, trace, r, s.(a := Idle))
  {
    AdvanceScene(cfg, trace0, r, s, "A");
    trace := trace0 + [Advance("A")];
    assert Advanced(cfg, s, "A", r) == s.(a := Batch(false, []));
    AdvanceScene(cfg, trace, r, s.(a := Batch(false, [])), "A");
    trace := trace + [Advance("A")];
  }

  lemma ClaimFailed(cfg: Config, trace0: seq<Action>, r: Row, now: nat, n: nat) returns (trace: seq<Action>)
    requires Reaches(cfg, trace0, r, Failed(now, n)) && cfg.readCount > 0
    ensures var later := now + cfg.minIdle;
            Reaches(cfg, trace, r, Scene(later, map[1 := Pending("A", n + 1, later)], Batch(true, [r]), Idle, n))
  {
    ClaimScene(cfg, trace0, r, Failed(now, n), "A");
    trace := trace0 + [Tick(cfg.minIdle), Start("A", [1])];
  }

  lemma ClaimByB(cfg: Config, trace0: seq<Action>, r: Row, now: nat, n: nat, starts: nat) returns (trace: seq<Action>)
    requires Reaches(cfg, trace0, r, Scene(now, map[1 := Pending("A", n, now)], Batch(true, [r]), Idle, starts))
    requires cfg.readCount > 0
    ensures var later := now + cfg.minIdle;
            Reaches(cfg, trace, r,
                    Scene(later, map[1 := Pending("B", n + 1, later)], Batch(true, [r]), Batch(true, [r]), starts))
  {
    ClaimScene(cfg, trace0, r, Scene(now, map[1 := Pending("A", n, now)], Batch(true, [r]), Idle, starts), "B");
    trace := trace0 + [Tick(cfg.minIdle), Start("B", [1])];
  }

  /** One more failed attempt while the limit allows it. */
  lemma NextAttempt(cfg: Config, trace0: seq<Action>, r: Row, now: nat, n: nat) returns (trace: seq<Action>)
    requires Reaches(cfg, trace0, r, Failed(now, n)) && 0 < n < cfg.maxAttempts && cfg.readCount > 0
    requires cfg.dedupe(r.payload).NoKey?
    ensures Reaches(cfg, trace, r, Failed(now + cfg.minIdle, n + 1))
  {
    var later := now + cfg.minIdle;
    var s := Scene(later, map[1 := Pending("A", n + 1, later)], Batch(true, [r]), Idle, n);
    trace := ClaimFailed(cfg, trace0, r, now, n);
    trace := FailedAttempt(cfg, trace, r, s);
    trace := BackToIdle(cfg, trace, r, s.(a := Batch(true, []), starts := n + 1));
  }

  lemma {:induction false} Attempts(cfg: Config, r: Row, n: nat) returns (trace: seq<Action>, now: nat)
    requires 0 < n <= cfg.maxAttempts && cfg.readCount > 0 && cfg.dedupe(r.payload).NoKey? && r.id == 1
    ensures Reaches(cfg, trace, r, Failed(now, n))
  {
    if n == 1 {
      var s;
      trace, s := FirstAttempt(cfg, r);
      now := 0;
    } else {
      trace, now := Attempts(cfg, r, n - 1);
      trace := NextAttempt(cfg, trace, r, now, n - 1);
      now := now + cfg.minIdle;
    }
  }

  /** B takes r, finds its deliveries beyond the limit, copies it to the dead-letter stream and acknowledges it. */
  lemma Buried(cfg: Config, trace0: seq<Action>, r: Row, s: Scene) returns (trace: seq<Action>)
    requires Reaches(cfg, trace0, r, s) && cfg.dedupe(r.payload).NoKey?
    requires s.b == Batch(true, [r]) && Deliveries(s) > cfg.maxAttempts && s.pending.Keys == {1}
    ensures Reaches(cfg, trace, r, s.(b := Batch(true, []), pending := map[]))
  {
    var dying, done := Busy(true, [], r, Dying), Busy(true, [], r, Done);
    AdvanceScene(cfg, trace0, r, s, "B");
    trace := trace0 + [Advance("B")];
    assert Advanced(cfg, s, "B", r) == s.(b := dying);
    AdvanceScene(cfg, trace, r, s.(b := dying), "B");
    trace := trace + [Advance("B")];
    assert Advanced(cfg, s.(b := dying), "B", r) == s.(b := done);
    AdvanceScene(cfg, trace, r, s.(b := done), "B");
    trace := trace + [Advance("B")];
    assert s.pending - {1} == map[];
  }

  /** A claims the failed entry once more; before A looks at it B claims it too, buries it and acknowledges it. */
  lemma BuriedBehindBack(cfg: Config, trace0: seq<Action>, r: Row, now: nat) returns (trace: seq<Action>, s: Scene)
    requires cfg.maxAttempts > 0 && cfg.readCount > 0 && cfg.dedupe(r.payload).NoKey?
    requires Reaches(cfg, trace0, r, Failed(now, cfg.maxAttempts))
    ensures Reaches(cfg, trace, r, s)
    ensures s == Scene(now + cfg.minIdle + cfg.minIdle, map[], Batch(true, [r]), Batch(true, []), cfg.maxAttempts)
  {
    var n, t1, t2 := cfg.maxAttempts, now + cfg.minIdle, now + cfg.minIdle + cfg.minIdle;
    s := Scene(t2, map[1 := Pending("B", n + 2, t2)], Batch(true, [r]), Batch(true, [r]), n);
    trace := ClaimFailed(cfg, trace0, r, now, n);
    trace := ClaimByB(cfg, trace, r, t1, n + 1, n);
    trace := Buried(cfg, trace, r, s);
    s := s.(b := Batch(true, []), pending := map[]);
  }

  /**
   * For every configuration there is a run from the empty stream in which A then reads a delivery count of 0 and starts
   * the handler once more than max_attempts allows.
   */
  lemma TwoConsumersExceedAttempts(cfg: Config, payload: string) returns (trace: seq<Action>)
    requires cfg.maxAttempts > 0 && cfg.readCount > 0 && cfg.dedupe(payload).NoKey?
    ensures Count(Run(cfg, START, trace).past.starts, 1) == Limit(cfg) + 1
    ensures OrphanStarts(cfg, trace, 1) >= 1
  {
    var r := Row(1, payload);
    var now, s;
    trace, now := Attempts(cfg, r, cfg.maxAttempts);
    trace, s := BuriedBehindBack(cfg, trace, r, now);
    AdvanceScene(cfg, trace, r, s, "A");
    trace, s := trace + [Advance("A")], Advanced(cfg, s, "A", r);
    AdvanceScene(cfg, trace, r, s, "A");
    trace, s := trace + [Advance("A")], Advanced(cfg, s, "A", r);
    StartsBounded(cfg, trace, 1);
  }
}
