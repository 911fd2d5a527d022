/** What a consumer does with what it is handed, and what the streams keep: over every run of the delivery protocol. */
module StreamService {
  import opened Text
  import opened Streams
  import opened StreamProtocol
  import opened StreamSuccesses

  // ------------------------------------------------------------ moments of a run

  /** What holds at one moment and not at a later one stops holding at some step between. */
  lemma {:induction false} LastMoment(holds: nat -> bool, m: nat, n: nat) returns (k: nat)
    requires m <= n && holds(m) && !holds(n)
    ensures m <= k < n && holds(k) && !holds(k + 1)
    decreases n - m
  {
    k := n - 1;
    if !holds(k) { k := LastMoment(holds, m, k); }
  }

  ghost predicate StepAt(cfg: Config, ws: seq<World>, actions: seq<Action>, i: nat)
    requires i < |actions| && |ws| == |actions| + 1
  {
    ws[i + 1] == Next(cfg, ws[i], actions[i])
  }

  /** The actions lead through these worlds. */
  ghost predicate Through(cfg: Config, ws: seq<World>, actions: seq<Action>) {
    |ws| == |actions| + 1
      && forall i: nat {:trigger StepAt(cfg, ws, actions, i)} | i < |actions| :: StepAt(cfg, ws, actions, i)
  }

  /** The worlds a run from w goes through. */
  ghost function Worlds(cfg: Config, w: World, actions: seq<Action>): (ws: seq<World>)
    ensures |ws| == |actions| + 1 && ws[0] == w && ws[|actions|] == Run(cfg, w, actions)
  {
    if actions == [] then [w] else
      var before := Worlds(cfg, w, actions[..|actions| - 1]);
      before + [Next(cfg, before[|actions| - 1], actions[|actions| - 1])]
  }

  lemma {:induction false} WorldsGoThrough(cfg: Config, w: World, actions: seq<Action>)
    ensures Through(cfg, Worlds(cfg, w, actions), actions)
  {
    if actions != [] {
      var front, ws := actions[..|actions| - 1], Worlds(cfg, w, actions);
      WorldsGoThrough(cfg, w, front);
      forall i: nat | i < |actions| ensures StepAt(cfg, ws, actions, i) {
        if i < |front| { assert StepAt(cfg, Worlds(cfg, w, front), front, i); }
      }
    }
  }

  // ------------------------------------------------------------ one backend call of a consumer

  /** Where a consumer stands after one call, by where it stood. */
  ghost predicate Moves(cfg: Config, w: World, p: Phase, p': Phase) {
    match p
    case Idle => p' == Idle
    case Batch(stale, todo) =>
      if todo == [] then (if stale then p'.Batch? && !p'.stale else p' == Idle)
      else
        && p'.Busy? && p'.stale == stale && p'.todo == todo[1..] && p'.row == todo[0]
        && (p'.stage.Checked?
            || (p'.stage.Dying? && p'.row.id in w.group.pending
                && w.group.pending[p'.row.id].deliveries > cfg.maxAttempts))
    case Busy(stale, todo, row, stage) =>
      match stage
      case Checked(_) =>
        p' == p.(stage := match cfg.dedupe(row.payload)
                          case Raises => Dying
                          case NoKey => Running(None)
                          case Key(k) => if Marked(w.once, k, w.now) then Done else Running(Some(k)))
      case Running(_) => p' == p
      case Succeeded(_) => p' == p.(stage := Done)
      case Dying => p' == p.(stage := Done)
      case Done => p' == Batch(stale, todo)
  }

  lemma AdvanceMoves(cfg: Config, w: World, c: string)
    ensures Moves(cfg, w, PhaseOf(w, c), PhaseOf(Progress(cfg, w, c), c))
  {
  }

  ghost predicate ActsFor(a: Action, c: string) {
    match a
    case Start(d, _) => d == c
    case Advance(d) => d == c
    case Finish(d, _) => d == c
    case Crash(d) => d == c
    case _ => false
  }

  lemma AdvanceOthers(cfg: Config, w: World, d: string, c: string)
    requires d != c
    ensures PhaseOf(Progress(cfg, w, d), c) == PhaseOf(w, c)
  {
    var p := PhaseOf(w, d);
    if p.Busy? && p.stage.Checked? { CheckedOthers(cfg, w, d, c); }
  }

  lemma CheckedOthers(cfg: Config, w: World, d: string, c: string)
    requires d != c && PhaseOf(w, d).Busy? && PhaseOf(w, d).stage.Checked?
    ensures PhaseOf(Progress(cfg, w, d), c) == PhaseOf(w, c)
  {
    var p := PhaseOf(w, d);
    assert forall key :: PhaseOf(Begin(w, d, p, key), c) == PhaseOf(w, c);
  }

  /** Other steps leave a consumer where it stands. */
  lemma Untouched(cfg: Config, w: World, a: Action, c: string)
    requires !ActsFor(a, c)
    ensures PhaseOf(Next(cfg, w, a), c) == PhaseOf(w, c)
  {
    match a {
      case Advance(d) => AdvanceOthers(cfg, w, d, c);
      case _ =>
    }
  }

  /** After any step a consumer is as one of its calls leaves it, or busy with nothing new. */
  lemma StepMoves(cfg: Config, w: World, a: Action, c: string)
    ensures var p, p' := PhaseOf(w, c), PhaseOf(Next(cfg, w, a), c);
            || p' == p
            || (a == Advance(c) && Moves(cfg, w, p, p'))
            || !p'.Busy?
            || p'.stage.Succeeded? || p'.stage.Done?
  {
    if !ActsFor(a, c) {
      Untouched(cfg, w, a, c);
    } else if a == Advance(c) {
      AdvanceMoves(cfg, w, c);
    }
  }

  /** What one call adds to the record: nothing is handled, and only a dying entry is buried. */
  lemma AdvancePast(cfg: Config, w: World, c: string)
    ensures Progress(cfg, w, c).past.handled == w.past.handled
    ensures var p := PhaseOf(w, c);
            Progress(cfg, w, c).past.buried.Keys
            == w.past.buried.Keys + if p.Busy? && p.stage.Dying? then {p.row.id} else {}
  {
    var p := PhaseOf(w, c);
    if p.Batch? { BatchPast(cfg, w, c); }
    if p.Busy? {
      match p.stage {
        case Checked(_) => CheckedPast(cfg, w, c);
        case Dying => BuryPast(w, p.row, cfg.deadMaxlen);
        case _ =>
      }
    }
  }

  lemma BuryPast(w: World, row: Row, deadMaxlen: nat)
    ensures Bury(w, row, deadMaxlen).past.handled == w.past.handled
    ensures Bury(w, row, deadMaxlen).past.buried.Keys == w.past.buried.Keys + {row.id}
  {
  }

  lemma BatchPast(cfg: Config, w: World, c: string)
    requires PhaseOf(w, c).Batch?
    ensures Progress(cfg, w, c).past == w.past
  {
  }

  lemma CheckedPast(cfg: Config, w: World, c: string)
    requires PhaseOf(w, c).Busy? && PhaseOf(w, c).stage.Checked?
    ensures Progress(cfg, w, c).past.handled == w.past.handled
    ensures Progress(cfg, w, c).past.buried == w.past.buried
  {
    var p := PhaseOf(w, c);
    match cfg.dedupe(p.row.payload)
    case Raises =>
    case NoKey => BeginPast(w, c, p, None);
    case Key(k) => if !Marked(w.once, k, w.now) { BeginPast(w, c, p, Some(k)); }
  }

  lemma BeginPast(w: World, c: string, p: Phase, key: Option<string>)
    requires p.Busy?
    ensures Begin(w, c, p, key).past.handled == w.past.handled && Begin(w, c, p, key).past.buried == w.past.buried
  {
  }

  // ------------------------------------------------------------ the newest entries are kept

  /** The retained rows are numbered without a gap up to the last number given out. */
  ghost predicate Gapless(log: Log) {
    |log.rows| <= log.last && forall i | 0 <= i < |log.rows| :: log.rows[i].id == log.last - |log.rows| + 1 + i
  }

  /** Every entry is added with room for at least m rows. */
  ghost predicate RoomFor(actions: seq<Action>, m: nat) {
    forall i | 0 <= i < |actions| ::
      && (actions[i].Publish? ==> actions[i].maxlen >= m)
      && (actions[i].Replay? ==> actions[i].maxlen >= m)
  }

  lemma AppendIsGapless(log: Log, payload: string, maxlen: nat)
    requires Gapless(log)
    ensures Gapless(Append(log, payload, maxlen)) && Append(log, payload, maxlen).last == log.last + 1
    ensures |Append(log, payload, maxlen).rows| == if |log.rows| < maxlen then |log.rows| + 1 else maxlen
  {
    NewestAreKept(log.rows + [Row(log.last + 1, payload)], maxlen);
  }

  lemma SourceSteps(cfg: Config, w: World, a: Action)
    ensures var source := Next(cfg, w, a).source;
            || source == w.source
            || exists payload, maxlen: nat ::
                 source == Append(w.source, payload, maxlen) && (a.Publish? || a.Replay?) && a.maxlen == maxlen
  {
    if a.Advance? && !(PhaseOf(w, a.c).Busy? && PhaseOf(w, a.c).stage.Dying?) { ProgressAddsNothing(cfg, w, a.c); }
  }

  lemma {:induction false} RunIsGapless(cfg: Config, actions: seq<Action>, m: nat)
    requires RoomFor(actions, m)
    ensures var log := Run(cfg, START, actions).source;
            Gapless(log) && (|log.rows| == log.last || |log.rows| >= m)
  {
    if actions != [] {
      var front, a := actions[..|actions| - 1], actions[|actions| - 1];
      RunIsGapless(cfg, front, m);
      var w := Run(cfg, START, front);
      SourceSteps(cfg, w, a);
      if Next(cfg, w, a).source != w.source {
        var payload, maxlen: nat :| Next(cfg, w, a).source == Append(w.source, payload, maxlen) && a.maxlen == maxlen;
        AppendIsGapless(w.source, payload, maxlen);
      }
    }
  }

  /** Whatever is trimmed, the newest m entries are in the stream as long as every add leaves room for m. */
  lemma NewestAreRetained(cfg: Config, actions: seq<Action>, m: nat, id: nat)
    requires RoomFor(actions, m)
    ensures var log := Run(cfg, START, actions).source;
            1 <= id <= log.last && id > log.last - m ==> id in Ids(log.rows)
  {
    RunIsGapless(cfg, actions, m);
    var log := Run(cfg, START, actions).source;
    if 1 <= id <= log.last && id > log.last - m {
      assert log.rows[id - (log.last - |log.rows| + 1)].id == id;
    }
  }

  // ------------------------------------------------------------ what is handed out is served

  /** The consumer works on the row or has still to take it. */
  ghost predicate InHands(p: Phase, r: Row) {
    (p.Batch? && r in p.todo) || (p.Busy? && (p.row == r || r in p.todo))
  }

  /** The step ends the consumer's work on the row: a crash, a handler that raised, or the acknowledgement. */
  ghost predicate Serves(cfg: Config, w: World, a: Action, c: string, r: Row) {
    || a == Crash(c)
    || (PhaseOf(w, c).Busy? && PhaseOf(w, c).row == r
        && (a == Finish(c, false) || (a == Advance(c) && r.id !in Next(cfg, w, a).group.pending)))
  }

  lemma LeavesHands(cfg: Config, w: World, a: Action, c: string, r: Row)
    requires InHands(PhaseOf(w, c), r) && !InHands(PhaseOf(Next(cfg, w, a), c), r)
    ensures Serves(cfg, w, a, c, r)
  {
    if a.Advance? && a.c == c { AdvanceLeaves(cfg, w, c, r); }
  }

  lemma AdvanceLeaves(cfg: Config, w: World, c: string, r: Row)
    requires InHands(PhaseOf(w, c), r) && !InHands(PhaseOf(Progress(cfg, w, c), c), r)
    ensures PhaseOf(w, c).Busy? && PhaseOf(w, c).row == r && r.id !in Progress(cfg, w, c).group.pending
  {
    AdvanceMoves(cfg, w, c);
  }

  /** A row leaves a consumer's hands acknowledged, unless its handler raised or the consumer crashed. */
  lemma EntryServed(cfg: Config, ws: seq<World>, actions: seq<Action>, c: string, r: Row, m: nat, n: nat)
    returns (k: nat)
    requires Through(cfg, ws, actions) && m <= n < |ws|
    requires InHands(PhaseOf(ws[m], c), r) && !InHands(PhaseOf(ws[n], c), r)
    ensures m <= k < n && Serves(cfg, ws[k], actions[k], c, r)
  {
    k := LastMoment((i: nat) => i < |ws| && InHands(PhaseOf(ws[i], c), r), m, n);
    assert StepAt(cfg, ws, actions, k);
    LeavesHands(cfg, ws[k], actions[k], c, r);
  }

  // ------------------------------------------------------------ after the claimed entries the new ones

  ghost predicate OnStale(p: Phase) {
    (p.Batch? || p.Busy?) && p.stale
  }

  /** The consumer is handed the oldest unread rows: readCount of them, or all there are. */
  ghost predicate HandedNew(cfg: Config, w: World, w': World, c: string) {
    && PhaseOf(w', c).Batch? && !PhaseOf(w', c).stale && w'.source == w.source
    && var rows := PhaseOf(w', c).todo;
       && |rows| <= cfg.readCount && (forall r | r in rows :: r in w.source.rows && r.id > w.group.nextIndex)
       && (forall r | r in w.source.rows && r.id > w.group.nextIndex ::
             && (r in rows <==> r.id <= w'.group.nextIndex)
             && (|rows| < cfg.readCount ==> r in rows))
       && (forall r | r in rows :: r.id in w'.group.pending && w'.group.pending[r.id] == Pending(c, 1, w.now))
  }

  lemma ReadIsOldest(rows: seq<Row>, g: Group, count: nat, last: nat, c: string, now: nat)
    requires Ascending(rows, 0, last)
    ensures var d := Delivered(rows, g.nextIndex, count);
            && |d| <= count && (forall r | r in d :: r in rows && r.id > g.nextIndex)
            && (forall r | r in rows && r.id > g.nextIndex ::
                  (r in d <==> r.id <= AfterRead(g, d, c, now).nextIndex) && (|d| < count ==> r in d))
  {
    var d := Delivered(rows, g.nextIndex, count);
    DeliveredAscending(rows, g.nextIndex, count, 0, last);
    AscendingBounds(d, g.nextIndex, last);
    AfterReadGroup(g, d, c, now);
    ReadsUpToCount(rows, g.nextIndex, count);
    forall r | r in rows && r.id > g.nextIndex ensures r in d <==> r.id <= AfterRead(g, d, c, now).nextIndex {
      DeliveredOldest(rows, g.nextIndex, count, 0, last, r);
    }
  }

  lemma ReadIsPending(g: Group, rows: seq<Row>, c: string, now: nat)
    ensures var g' := AfterRead(g, rows, c, now);
            forall r | r in rows :: r.id in g'.pending && g'.pending[r.id] == Pending(c, 1, now)
  {
    AfterReadGroup(g, rows, c, now);
    forall r | r in rows ensures r.id in Ids(rows) {}
  }

  lemma ReadHandsNew(cfg: Config, w: World, c: string)
    requires ValidLog(w.source)
    ensures HandedNew(cfg, w, ReadBatch(cfg, w, c), c)
  {
    ReadIsOldest(w.source.rows, w.group, cfg.readCount, w.source.last, c, w.now);
    ReadIsPending(w.group, Delivered(w.source.rows, w.group.nextIndex, cfg.readCount), c, w.now);
  }

  lemma AdvanceLeavesStale(cfg: Config, w: World, c: string)
    requires ValidLog(w.source) && OnStale(PhaseOf(w, c)) && !OnStale(PhaseOf(Progress(cfg, w, c), c))
    ensures HandedNew(cfg, w, Progress(cfg, w, c), c)
  {
    AdvanceMoves(cfg, w, c);
    ReadHandsNew(cfg, w, c);
  }

  lemma LeavesStale(cfg: Config, w: World, a: Action, c: string)
    requires ValidLog(w.source) && OnStale(PhaseOf(w, c)) && !OnStale(PhaseOf(Next(cfg, w, a), c))
    ensures a == Crash(c) || (a == Advance(c) && HandedNew(cfg, w, Next(cfg, w, a), c))
  {
    if !ActsFor(a, c) { Untouched(cfg, w, a, c); }
    if a == Advance(c) { AdvanceLeavesStale(cfg, w, c); }
  }

  lemma SourceStaysValid(cfg: Config, w: World, a: Action)
    requires ValidLog(w.source)
    ensures ValidLog(Next(cfg, w, a).source)
  {
    SourceSteps(cfg, w, a);
    if Next(cfg, w, a).source != w.source {
      var payload, maxlen: nat :| Next(cfg, w, a).source == Append(w.source, payload, maxlen);
      AppendRows(w.source, payload, maxlen);
    }
  }

  lemma {:induction false} SourceIsValid(cfg: Config, ws: seq<World>, actions: seq<Action>, n: nat)
    requires Through(cfg, ws, actions) && n < |ws| && ValidLog(ws[0].source)
    ensures ValidLog(ws[n].source)
  {
    if n > 0 {
      SourceIsValid(cfg, ws, actions, n - 1);
      assert StepAt(cfg, ws, actions, n - 1);
      SourceStaysValid(cfg, ws[n - 1], actions[n - 1]);
    }
  }

  /** In any run, a consumer done with the entries it claimed is next handed new ones, unless it crashed. */
  lemma NewEntriesFollow(cfg: Config, ws: seq<World>, actions: seq<Action>, c: string, m: nat, n: nat) returns (k: nat)
    requires Through(cfg, ws, actions) && m <= n < |ws| && ValidLog(ws[0].source)
    requires OnStale(PhaseOf(ws[m], c)) && !OnStale(PhaseOf(ws[n], c))
    ensures m <= k < n && (actions[k] == Crash(c) || (actions[k] == Advance(c) && HandedNew(cfg, ws[k], ws[k + 1], c)))
  {
    k := LastMoment((i: nat) => i < |ws| && OnStale(PhaseOf(ws[i], c)), m, n);
    assert StepAt(cfg, ws, actions, k);
    SourceIsValid(cfg, ws, actions, k);
    LeavesStale(cfg, ws[k], actions[k], c);
  }

  // ------------------------------------------------------------ one whole batch

  ghost predicate Uncrashed(trace: seq<Action>) {
    forall i | 0 <= i < |trace| :: !trace[i].Crash?
  }

  /** The consumer is handed the stale entries it claims. */
  ghost predicate HandedStale(cfg: Config, w: World, a: Action, w': World, c: string) {
    && a.Start? && a.c == c && PhaseOf(w, c).Idle? && Lists(a.order, w.group.pending.Keys)
    && PhaseOf(w', c).Batch? && PhaseOf(w', c).stale
    && (w'.group, PhaseOf(w', c).todo)
       == Claim(a.order, w.source.rows, w.group, c, cfg.minIdle, cfg.readCount, w.now)
  }

  lemma LeavesIdle(cfg: Config, w: World, a: Action, c: string)
    requires PhaseOf(w, c).Idle? && !PhaseOf(Next(cfg, w, a), c).Idle?
    ensures HandedStale(cfg, w, a, Next(cfg, w, a), c)
  {
    if a == Advance(c) { AdvanceMoves(cfg, w, c); }
  }

  /** The consumer claims in step i, reads in step j, and does not crash. */
  ghost predicate Batches(cfg: Config, ws: seq<World>, trace: seq<Action>, c: string, i: nat, j: nat)
    requires |ws| == |trace| + 1
  {
    && i < j < |trace| && Uncrashed(trace)
    && HandedStale(cfg, ws[i], trace[i], ws[i + 1], c) && HandedNew(cfg, ws[j], ws[j + 1], c)
  }

  /** The run claims, reads, and does not crash. */
  ghost predicate WholeBatch(cfg: Config, w: World, trace: seq<Action>, c: string) {
    exists i: nat, j: nat :: Batches(cfg, Worlds(cfg, w, trace), trace, c, i, j)
  }

  lemma BatchThrough(cfg: Config, ws: seq<World>, trace: seq<Action>, c: string) returns (i: nat, j: nat)
    requires Through(cfg, ws, trace) && ValidLog(ws[0].source) && Uncrashed(trace)
    requires PhaseOf(ws[0], c).Idle? && PhaseOf(ws[|trace|], c).Batch? && !PhaseOf(ws[|trace|], c).stale
    ensures Batches(cfg, ws, trace, c, i, j)
  {
    i := LastMoment((i: nat) => i < |ws| && PhaseOf(ws[i], c).Idle?, 0, |trace|);
    assert StepAt(cfg, ws, trace, i);
    LeavesIdle(cfg, ws[i], trace[i], c);
    j := NewEntriesFollow(cfg, ws, trace, c, i + 1, |trace|);
  }

  lemma BatchIsWhole(cfg: Config, w: World, trace: seq<Action>, c: string)
    requires ValidLog(w.source) && PhaseOf(w, c).Idle? && Uncrashed(trace)
    requires PhaseOf(Run(cfg, w, trace), c).Batch? && !PhaseOf(Run(cfg, w, trace), c).stale
    ensures WholeBatch(cfg, w, trace, c)
  {
    WorldsGoThrough(cfg, w, trace);
    var i, j := BatchThrough(cfg, Worlds(cfg, w, trace), trace, c);
  }

  lemma LongerWorlds(cfg: Config, w: World, trace: seq<Action>, a: Action)
    ensures var ws, ws' := Worlds(cfg, w, trace), Worlds(cfg, w, trace + [a]); |ws'| == |ws| + 1 && ws'[..|ws|] == ws
  {
    assert (trace + [a])[..|trace|] == trace;
  }

  lemma BatchesGoOn(cfg: Config, ws: seq<World>, ws': seq<World>, trace: seq<Action>, a: Action, c: string, i: nat,
                    j: nat)
    requires |ws| == |trace| + 1 && |ws'| == |ws| + 1 && ws'[..|ws|] == ws && !a.Crash?
    requires Batches(cfg, ws, trace, c, i, j)
    ensures Batches(cfg, ws', trace + [a], c, i, j)
  {
    assert ws'[i] == ws[i] && ws'[i + 1] == ws[i + 1] && ws'[j] == ws[j] && ws'[j + 1] == ws[j + 1];
  }

  lemma WholeBatchGoesOn(cfg: Config, w: World, trace: seq<Action>, c: string, a: Action)
    requires WholeBatch(cfg, w, trace, c) && !a.Crash?
    ensures WholeBatch(cfg, w, trace + [a], c)
  {
    var i: nat, j: nat :| Batches(cfg, Worlds(cfg, w, trace), trace, c, i, j);
    LongerWorlds(cfg, w, trace, a);
    BatchesGoOn(cfg, Worlds(cfg, w, trace), Worlds(cfg, w, trace + [a]), trace, a, c, i, j);
  }

  /** The step ends the consumer's work on the row: its handler raised, or the row is acknowledged. */
  ghost predicate Settles(w: World, a: Action, w': World, c: string, r: Row) {
    && PhaseOf(w, c).Busy? && PhaseOf(w, c).row == r
    && (a == Finish(c, false) || (a == Advance(c) && r.id !in w'.group.pending))
  }

  /** In an uncrashed run that ends idle, each row once in a consumer's hands is acknowledged or its handler raised. */
  lemma BatchIsServed(cfg: Config, ws: seq<World>, trace: seq<Action>, c: string, m: nat, r: Row) returns (k: nat)
    requires Through(cfg, ws, trace) && Uncrashed(trace) && PhaseOf(ws[|trace|], c).Idle?
    requires m <= |trace| && InHands(PhaseOf(ws[m], c), r)
    ensures m <= k < |trace| && Settles(ws[k], trace[k], ws[k + 1], c, r)
  {
    k := EntryServed(cfg, ws, trace, c, r, m, |trace|);
    assert StepAt(cfg, ws, trace, k);
  }

  // ------------------------------------------------------------ why entries are dead-lettered

  /** At some moment of the run the entry had been delivered more than max_attempts times. */
  ghost predicate OverAttempted(cfg: Config, actions: seq<Action>, id: nat) {
    || (var g := Run(cfg, START, actions).group; id in g.pending && g.pending[id].deliveries > cfg.maxAttempts)
    || (actions != [] && OverAttempted(cfg, actions[..|actions| - 1], id))
  }

  ghost predicate Hopeless(cfg: Config, actions: seq<Action>, id: nat) {
    var sent := Run(cfg, START, actions).past.sent;
    id in sent && (cfg.dedupe(sent[id]).Raises? || OverAttempted(cfg, actions, id))
  }

  ghost predicate DyingIsHopeless(cfg: Config, actions: seq<Action>) {
    var w := Run(cfg, START, actions);
    && (forall id | id in w.past.buried :: Hopeless(cfg, actions, id))
    && (forall c | c in w.phases && w.phases[c].Busy? && w.phases[c].stage.Dying? ::
          Hopeless(cfg, actions, w.phases[c].row.id))
  }

  lemma SentStays(cfg: Config, w: World, a: Action, id: nat)
    requires Sent(w) && id in w.past.sent
    ensures id in Next(cfg, w, a).past.sent && Next(cfg, w, a).past.sent[id] == w.past.sent[id]
  {
    match a {
      case Advance(c) => AdvanceKeepsSent(cfg, w, c);
      case Publish(payload, maxlen) => SendKeepsSent(w, payload, maxlen, id);
      case Replay(letter, maxlen, dedupeKey) =>
        if PayloadOf(w.dead.rows, letter).Some? { SendKeepsSent(w, PayloadOf(w.dead.rows, letter).value, maxlen, id); }
      case _ => ConsumersKeepSent(cfg, w, a);
    }
  }

  lemma SendKeepsSent(w: World, payload: string, maxlen: nat, id: nat)
    requires id in w.past.sent && (forall x | x in w.past.sent :: x <= w.source.last)
    ensures var sent := Send(w, payload, maxlen).past.sent; id in sent && sent[id] == w.past.sent[id]
  {
  }

  lemma ConsumersKeepSent(cfg: Config, w: World, a: Action)
    requires a.Tick? || a.Start? || a.Finish? || a.Crash?
    ensures Next(cfg, w, a).past.sent == w.past.sent
  {
  }

  lemma AdvanceKeepsSent(cfg: Config, w: World, c: string)
    ensures Progress(cfg, w, c).past.sent == w.past.sent
  {
    if !(PhaseOf(w, c).Busy? && PhaseOf(w, c).stage.Dying?) { ProgressAddsNothing(cfg, w, c); }
  }

  lemma HopelessStays(cfg: Config, actions: seq<Action>, id: nat)
    requires actions != [] && Hopeless(cfg, actions[..|actions| - 1], id)
    ensures Hopeless(cfg, actions, id)
  {
    var front := actions[..|actions| - 1];
    RunKeeps(cfg, front);
    SentStays(cfg, Run(cfg, START, front), actions[|actions| - 1], id);
  }

  /** Why an entry has begun to die. */
  lemma NewlyDying(cfg: Config, w: World, a: Action, c: string)
    requires var p := PhaseOf(Next(cfg, w, a), c); p.Busy? && p.stage.Dying?
    ensures var p, q := PhaseOf(w, c), PhaseOf(Next(cfg, w, a), c);
            || q == p
            || (p.Busy? && p.row == q.row && cfg.dedupe(p.row.payload).Raises?)
            || (p.Batch? && p.todo != [] && p.todo[0] == q.row && q.row.id in w.group.pending
                && w.group.pending[q.row.id].deliveries > cfg.maxAttempts)
  {
    StepMoves(cfg, w, a, c);
  }

  lemma NewlyBuried(cfg: Config, w: World, a: Action, id: nat)
    requires id in Next(cfg, w, a).past.buried && id !in w.past.buried
    ensures a.Advance? && a.c in w.phases && w.phases[a.c].Busy? && w.phases[a.c].stage.Dying?
    ensures w.phases[a.c].row.id == id
  {
    if a.Advance? { AdvancePast(cfg, w, a.c); }
  }

  lemma {:induction false} DyingStaysHopeless(cfg: Config, actions: seq<Action>)
    ensures DyingIsHopeless(cfg, actions)
  {
    if actions != [] {
      var front, a := actions[..|actions| - 1], actions[|actions| - 1];
      var w, w' := Run(cfg, START, front), Run(cfg, START, actions);
      DyingStaysHopeless(cfg, front);
      RunKeeps(cfg, front);
      forall c | c in w'.phases && w'.phases[c].Busy? && w'.phases[c].stage.Dying?
        ensures Hopeless(cfg, actions, w'.phases[c].row.id)
      {
        DyingRow(cfg, front, a, c);
        assert actions == front + [a];
      }
      forall id | id in w'.past.buried ensures Hopeless(cfg, actions, id) {
        if id !in w.past.buried { NewlyBuried(cfg, w, a, id); }
        HopelessStays(cfg, actions, id);
      }
    }
  }

  lemma DyingRow(cfg: Config, front: seq<Action>, a: Action, c: string)
    requires DyingIsHopeless(cfg, front) && Inv(cfg, Run(cfg, START, front))
    requires var p := PhaseOf(Next(cfg, Run(cfg, START, front), a), c); p.Busy? && p.stage.Dying?
    ensures Hopeless(cfg, front + [a], PhaseOf(Next(cfg, Run(cfg, START, front), a), c).row.id)
  {
    var w := Run(cfg, START, front);
    NewlyDying(cfg, w, a, c);
    assert PhaseOk(cfg, w, PhaseOf(w, c));
    assert Hopeless(cfg, front, PhaseOf(Next(cfg, w, a), c).row.id);
    assert (front + [a])[..|front|] == front;
    HopelessStays(cfg, front + [a], PhaseOf(Next(cfg, w, a), c).row.id);
  }

  /** An entry is copied to the dead-letter stream only for a key that cannot be made or too many deliveries. */
  lemma BuriedForAReason(cfg: Config, actions: seq<Action>, id: nat)
    requires id in Run(cfg, START, actions).past.buried
    ensures var sent := Run(cfg, START, actions).past.sent;
            id in sent && (cfg.dedupe(sent[id]).Raises? || OverAttempted(cfg, actions, id))
  {
    DyingStaysHopeless(cfg, actions);
  }

  // ------------------------------------------------------------ markers

  /** The key is marked, its marker was lost, or a consumer is about to set it. */
  ghost predicate MarkedOrLost(w: World, k: string) {
    Marked(w.once, k, w.now) || Count(w.past.voids, k) > 0 || exists c :: c in w.phases && AwaitsMarker(w.phases[c], k)
  }

  ghost predicate KeysAreMarked(cfg: Config, w: World) {
    && (forall id | id in w.past.handled && id in w.past.sent && cfg.dedupe(w.past.sent[id]).Key? ::
          MarkedOrLost(w, cfg.dedupe(w.past.sent[id]).key))
    && (forall c | c in w.phases && w.phases[c].Busy? && w.phases[c].stage.Running? ::
          cfg.dedupe(w.phases[c].row.payload).Key? ==>
            w.phases[c].stage.key == Some(cfg.dedupe(w.phases[c].row.payload).key))
  }

  lemma MarkedOrLostStays(cfg: Config, w: World, a: Action, k: string)
    requires MarkedOrLost(w, k)
    ensures MarkedOrLost(Next(cfg, w, a), k)
  {
    match a {
      case Advance(c) => AdvanceKeepsMark(cfg, w, c, k);
      case Crash(c) => StopKeepsMark(w, c, k);
      case _ => OthersKeepMark(cfg, w, a, k);
    }
  }

  lemma StopKeepsMark(w: World, c: string, k: string)
    requires MarkedOrLost(w, k)
    ensures MarkedOrLost(Stop(w, c), k)
  {
    if d :| d in w.phases && AwaitsMarker(w.phases[d], k) && d != c {
      assert d in Stop(w, c).phases && Stop(w, c).phases[d] == w.phases[d];
    }
  }

  lemma OthersKeepMark(cfg: Config, w: World, a: Action, k: string)
    requires MarkedOrLost(w, k) && !a.Advance? && !a.Crash?
    ensures MarkedOrLost(Next(cfg, w, a), k)
  {
    if d :| d in w.phases && AwaitsMarker(w.phases[d], k) {
      assert d in Next(cfg, w, a).phases && Next(cfg, w, a).phases[d] == w.phases[d];
    }
  }

  lemma AdvanceKeepsMark(cfg: Config, w: World, c: string, k: string)
    requires MarkedOrLost(w, k)
    ensures MarkedOrLost(Progress(cfg, w, c), k)
  {
    var p := PhaseOf(w, c);
    if p.Busy? && p.stage.Succeeded? {
      if d :| d in w.phases && AwaitsMarker(w.phases[d], k) && d != c {
        assert d in Progress(cfg, w, c).phases && Progress(cfg, w, c).phases[d] == w.phases[d];
      }
    } else {
      ProgressVoids(cfg, w, c);
      SameMarkers(cfg, w, c);
      if d :| d in w.phases && AwaitsMarker(w.phases[d], k) {
        assert d in Progress(cfg, w, c).phases && Progress(cfg, w, c).phases[d] == w.phases[d];
      }
    }
  }

  lemma SameMarkers(cfg: Config, w: World, c: string)
    requires !(PhaseOf(w, c).Busy? && PhaseOf(w, c).stage.Succeeded?)
    ensures Progress(cfg, w, c).once == w.once && Progress(cfg, w, c).now == w.now
    ensures forall d | d in w.phases && d != c ::
            d in Progress(cfg, w, c).phases && Progress(cfg, w, c).phases[d] == w.phases[d]
  {
    var p := PhaseOf(w, c);
    if p.Batch? {
      if p.todo != [] {
        var t := Take(cfg, w, c, p.stale, p.todo[0], p.todo[1..]);
        assert t.once == w.once && t.now == w.now;
      } else if p.stale {
        assert ReadBatch(cfg, w, c).once == w.once;
      }
    }
    if p.Busy? && p.stage.Checked? {
      assert forall key :: Begin(w, c, p, key).once == w.once && Begin(w, c, p, key).now == w.now;
    }
  }

  lemma StartsWithItsKey(cfg: Config, w: World, a: Action, c: string)
    requires KeysAreMarked(cfg, w)
    requires var p := PhaseOf(Next(cfg, w, a), c);
             p.Busy? && p.stage.Running? && cfg.dedupe(p.row.payload).Key?
    ensures var p := PhaseOf(Next(cfg, w, a), c); p.stage.key == Some(cfg.dedupe(p.row.payload).key)
  {
    StepMoves(cfg, w, a, c);
  }

  /** Only the successful end of its handler makes an entry handled. */
  lemma NewlyHandled(cfg: Config, w: World, a: Action, id: nat)
    requires id in Next(cfg, w, a).past.handled && id !in w.past.handled
    ensures a.Finish? && a.ok && PhaseOf(w, a.c).Busy? && PhaseOf(w, a.c).stage.Running? && PhaseOf(w, a.c).row.id == id
  {
    if a.Advance? { AdvancePast(cfg, w, a.c); }
  }

  lemma HandledKey(cfg: Config, w: World, a: Action, id: nat)
    requires Inv(cfg, w) && KeysAreMarked(cfg, w) && id in Next(cfg, w, a).past.handled
    requires id in Next(cfg, w, a).past.sent && cfg.dedupe(Next(cfg, w, a).past.sent[id]).Key?
    ensures MarkedOrLost(Next(cfg, w, a), cfg.dedupe(Next(cfg, w, a).past.sent[id]).key)
  {
    if id in w.past.handled {
      SentStays(cfg, w, a, id);
      MarkedOrLostStays(cfg, w, a, cfg.dedupe(w.past.sent[id]).key);
    } else {
      NewlyHandled(cfg, w, a, id);
      var w', p := Next(cfg, w, a), PhaseOf(w, a.c);
      assert PhaseOk(cfg, w, p);
      SentStays(cfg, w, a, id);
      assert a.c in w'.phases && AwaitsMarker(w'.phases[a.c], cfg.dedupe(w.past.sent[id]).key);
    }
  }

  lemma {:induction false} RunMarks(cfg: Config, actions: seq<Action>)
    ensures KeysAreMarked(cfg, Run(cfg, START, actions))
  {
    if actions != [] {
      var w, a := Run(cfg, START, actions[..|actions| - 1]), actions[|actions| - 1];
      RunMarks(cfg, actions[..|actions| - 1]);
      RunKeeps(cfg, actions[..|actions| - 1]);
      var w' := Next(cfg, w, a);
      forall id | id in w'.past.handled && id in w'.past.sent && cfg.dedupe(w'.past.sent[id]).Key?
        ensures MarkedOrLost(w', cfg.dedupe(w'.past.sent[id]).key)
      {
        HandledKey(cfg, w, a, id);
      }
      forall c | c in w'.phases && w'.phases[c].Busy? && w'.phases[c].stage.Running?
                 && cfg.dedupe(w'.phases[c].row.payload).Key?
        ensures w'.phases[c].stage.key == Some(cfg.dedupe(w'.phases[c].row.payload).key)
      {
        StartsWithItsKey(cfg, w, a, c);
      }
    }
  }

  /** Once a handler has returned for an entry with a key, the key is marked, was marked and lost, or is about to be. */
  lemma HandledIsMarked(cfg: Config, actions: seq<Action>, id: nat, k: string)
    requires var past := Run(cfg, START, actions).past;
             id in past.handled && id in past.sent && cfg.dedupe(past.sent[id]) == Key(k)
    ensures MarkedOrLost(Run(cfg, START, actions), k)
  {
    RunMarks(cfg, actions);
  }

  /** No operator removes the key's marker. */
  ghost predicate Unremoved(actions: seq<Action>, k: string) {
    forall i | 0 <= i < |actions| :: actions[i].Replay? ==> actions[i].dedupeKey != Some(k)
  }

  lemma MarkerStep(cfg: Config, w: World, a: Action, k: string)
    requires Marked(w.once, k, w.now) && (a.Replay? ==> a.dedupeKey != Some(k))
    ensures var w' := Next(cfg, w, a); k in w'.once && w'.once[k] == w.once[k] && w'.now >= w.now
  {
    if a.Advance? && !(PhaseOf(w, a.c).Busy? && PhaseOf(w, a.c).stage.Succeeded?) { SameMarkers(cfg, w, a.c); }
  }

  lemma {:induction false} MarkerLives(cfg: Config, w: World, actions: seq<Action>, k: string)
    requires Marked(w.once, k, w.now) && Unremoved(actions, k)
    ensures var w' := Run(cfg, w, actions);
            w'.now >= w.now && (w'.now < w.once[k] ==> k in w'.once && w'.once[k] == w.once[k])
  {
    if actions != [] {
      var front := actions[..|actions| - 1];
      MarkerLives(cfg, w, front, k);
      var w1, a := Run(cfg, w, front), actions[|actions| - 1];
      if w1.now < w.once[k] {
        MarkerStep(cfg, w1, a, k);
      } else {
        ClockGrows(cfg, w1, a);
      }
    }
  }

  lemma ClockGrows(cfg: Config, w: World, a: Action)
    ensures Next(cfg, w, a).now >= w.now
  {
    if a.Advance? && !(PhaseOf(w, a.c).Busy? && PhaseOf(w, a.c).stage.Succeeded?) { SameMarkers(cfg, w, a.c); }
  }

  /** After a success the marker keeps the key from being handled for the whole ttl, unless an operator removes it. */
  lemma SuccessIsRemembered(cfg: Config, w: World, c: string, k: string, actions: seq<Action>)
    requires AwaitsMarker(PhaseOf(w, c), k) && !Marked(w.once, k, w.now) && Unremoved(actions, k)
    ensures var w' := Run(cfg, Next(cfg, w, Advance(c)), actions);
            w'.now < w.now + 1000 * cfg.ttlSeconds ==> Marked(w'.once, k, w'.now)
  {
    var w1 := Next(cfg, w, Advance(c));
    MarkLasts(w.once, k, w.now, cfg.ttlSeconds, k, w.now);
    if cfg.ttlSeconds > 0 {
      MarkerLives(cfg, w1, actions, k);
    } else {
      RunClock(cfg, w1, actions);
    }
  }

  lemma {:induction false} RunClock(cfg: Config, w: World, actions: seq<Action>)
    ensures Run(cfg, w, actions).now >= w.now
  {
    if actions != [] {
      RunClock(cfg, w, actions[..|actions| - 1]);
      ClockGrows(cfg, Run(cfg, w, actions[..|actions| - 1]), actions[|actions| - 1]);
    }
  }
}
