/** At-least-once delivery: StreamConsumer of infrastructure/streams.py as a protocol over the backend. */
module StreamProtocol {
  import opened Text
  import opened Streams

  // ------------------------------------------------------------ configuration and state

  /** What the dedupe_key callback makes of a payload. */
  datatype Dedupe = NoKey | Key(key: string) | Raises

  datatype Config = Config(maxAttempts: nat, minIdle: nat, readCount: nat, deadMaxlen: nat, ttlSeconds: nat,
                           dedupe: string -> Dedupe)

  /** Where a consumer stands with the entry in its hands. */
  datatype Stage =
    | Checked(attempts: nat)          // about to look at the dedupe key
    | Running(key: Option<string>)    // the handler has been called
    | Succeeded(marker: string)       // the handler returned; the marker is not set yet
    | Dying                           // about to be copied to the dead-letter stream
    | Done                            // about to be acknowledged

  datatype Phase =
    | Idle
    | Batch(stale: bool, todo: seq<Row>)
    | Busy(stale: bool, todo: seq<Row>, row: Row, stage: Stage)

  /** History that the running system does not keep. */
  datatype Past = Past(
    sent: map<nat, string>,      // every entry ever added to the source stream
    acked: set<nat>,
    lost: set<nat>,              // trimmed away before they were acknowledged
    handled: set<nat>,
    skipped: set<nat>,           // acknowledged unhandled because their key was marked
    buried: map<nat, nat>,       // entry -> the dead letter that holds its payload
    letters: map<nat, string>,   // every dead letter ever added
    lostLetters: set<nat>,
    replays: map<nat, nat>,      // dead letter -> the entry it was replayed as
    starts: map<nat, nat>,       // handler starts per entry
    wins: map<string, nat>,      // handler successes per dedupe key
    voids: map<string, nat>,     // marker expiries, operator removals and crashes before the marker, per key
    done: nat                    // handler successes
  )

  datatype World = World(now: nat, source: Log, group: Group, dead: Log, once: map<string, nat>,
                         phases: map<string, Phase>, past: Past)

  const START := World(0, NEW_LOG, NEW_GROUP, NEW_LOG, map[], map[],
                       Past(map[], {}, {}, {}, {}, map[], map[], {}, map[], map[], map[], map[], 0))

  datatype Action =
    | Tick(elapsed: nat)
    | Publish(payload: string, maxlen: nat)
    | Replay(letter: nat, maxlen: nat, dedupeKey: Option<string>)
    | Start(c: string, order: seq<nat>)      // claim_stale, visiting the pending entries in this order
    | Advance(c: string)                     // one backend call of the consumer, or the start of the handler
    | Finish(c: string, ok: bool)            // the handler returns or raises
    | Crash(c: string)

  // ------------------------------------------------------------ steps

  function PhaseOf(w: World, c: string): Phase {
    if c in w.phases then w.phases[c] else Idle
  }

  function SetPhase(w: World, c: string, phase: Phase): World {
    w.(phases := w.phases[c := phase])
  }

  function Count<K>(m: map<K, nat>, k: K): nat {
    if k in m then m[k] else 0
  }

  function Bump<K>(m: map<K, nat>, k: K): map<K, nat> {
    var n: nat := Count(m, k) + 1;
    m[k := n]
  }

  function BumpAll<K>(m: map<K, nat>, keys: set<K>): map<K, nat> {
    map k | k in m.Keys + keys :: Count(m, k) + if k in keys then 1 else 0
  }

  ghost function Send(w: World, payload: string, maxlen: nat): World {
    var source := Append(w.source, payload, maxlen);
    var trimmed := set id | id in Ids(w.source.rows) + {source.last} && id !in Ids(source.rows)
      && id > w.group.nextIndex;
    w.(source := source,
       past := w.past.(sent := w.past.sent[source.last := payload], lost := w.past.lost + trimmed))
  }

  ghost function Resend(w: World, letter: nat, maxlen: nat, dedupeKey: Option<string>): World {
    match PayloadOf(w.dead.rows, letter)
    case None => w
    case Some(payload) =>
      var sent := Send(w, payload, maxlen);
      sent.(dead := WithoutRow(w.dead, letter),
            once := if dedupeKey.Some? then w.once - {dedupeKey.value} else w.once,
            past := sent.past.(replays := w.past.replays[letter := sent.source.last],
                               voids := if dedupeKey.Some? then Bump(w.past.voids, dedupeKey.value) else w.past.voids))
  }

  ghost function Elapse(w: World, elapsed: nat): World {
    var expired := set k | k in w.once && Marked(w.once, k, w.now) && !Marked(w.once, k, w.now + elapsed);
    w.(now := w.now + elapsed, past := w.past.(voids := BumpAll(w.past.voids, expired)))
  }

  ghost function Bury(w: World, row: Row, deadMaxlen: nat): World {
    var dead := Append(w.dead, row.payload, deadMaxlen);
    var trimmed := set id | id in Ids(w.dead.rows) + {dead.last} && id !in Ids(dead.rows);
    w.(dead := dead,
       past := w.past.(letters := w.past.letters[dead.last := row.payload],
                       buried := w.past.buried[row.id := dead.last],
                       lostLetters := w.past.lostLetters + trimmed))
  }

  /** ack() of an entry; a second ack finds nothing to remove. */
  ghost function Acknowledge(w: World, id: nat): World {
    w.(group := w.group.(pending := w.group.pending - {id}),
       past := if id in w.group.pending then w.past.(acked := w.past.acked + {id}) else w.past)
  }

  ghost predicate Lists(order: seq<nat>, ids: set<nat>) {
    NoDuplicates(order) && forall id :: id in order <==> id in ids
  }

  ghost function ClaimBatch(cfg: Config, w: World, c: string, order: seq<nat>): World {
    var (g, claimed) := Claim(order, w.source.rows, w.group, c, cfg.minIdle, cfg.readCount, w.now);
    SetPhase(w.(group := g, past := w.past.(lost := w.past.lost + (w.group.pending.Keys - g.pending.Keys))),
             c, Batch(true, claimed))
  }

  ghost function ReadBatch(cfg: Config, w: World, c: string): World {
    var delivered := Delivered(w.source.rows, w.group.nextIndex, cfg.readCount);
    SetPhase(w.(group := AfterRead(w.group, delivered, c, w.now)), c, Batch(false, delivered))
  }

  /** The next entry of a batch: entries claimed from others are checked against max_attempts first. */
  ghost function Take(cfg: Config, w: World, c: string, stale: bool, row: Row, todo: seq<Row>): World {
    var attempts := if stale then (if row.id in w.group.pending then w.group.pending[row.id].deliveries else 0) else 1;
    var stage := if stale && attempts > cfg.maxAttempts then Dying else Checked(attempts);
    SetPhase(w, c, Busy(stale, todo, row, stage))
  }

  ghost function Begin(w: World, c: string, p: Phase, key: Option<string>): World
    requires p.Busy?
  {
    SetPhase(w, c, p.(stage := Running(key))).(past := w.past.(starts := Bump(w.past.starts, p.row.id)))
  }

  ghost function Skip(w: World, c: string, p: Phase): World
    requires p.Busy?
  {
    SetPhase(w, c, p.(stage := Done)).(past := w.past.(skipped := w.past.skipped + {p.row.id}))
  }

  ghost function Succeed(w: World, c: string, p: Phase, key: Option<string>): World
    requires p.Busy?
  {
    var stage := if key.Some? then Succeeded(key.value) else Done;
    SetPhase(w, c, p.(stage := stage)).(past := w.past.(
      handled := w.past.handled + {p.row.id},
      wins := if key.Some? then Bump(w.past.wins, key.value) else w.past.wins,
      done := w.past.done + 1))
  }

  /** acquire_once; a marker that is dead on arrival counts as expired. */
  ghost function SetMarker(w: World, key: string, ttlSeconds: nat): World {
    var once := Mark(w.once, key, w.now, ttlSeconds);
    w.(once := once,
       past := if Marked(once, key, w.now) then w.past else w.past.(voids := Bump(w.past.voids, key)))
  }

  ghost function Progress(cfg: Config, w: World, c: string): World {
    match PhaseOf(w, c)
    case Idle => w
    case Batch(stale, todo) =>
      if todo != [] then Take(cfg, w, c, stale, todo[0], todo[1..])
      else if stale then ReadBatch(cfg, w, c)
      else SetPhase(w, c, Idle)
    case Busy(stale, todo, row, stage) =>
      var p := PhaseOf(w, c);
      match stage
      case Checked(attempts) =>
        (match cfg.dedupe(row.payload)
         case Raises => SetPhase(w, c, p.(stage := Dying))
         case NoKey => Begin(w, c, p, None)
         case Key(k) => if Marked(w.once, k, w.now) then Skip(w, c, p) else Begin(w, c, p, Some(k)))
      case Running(key) => w
      case Succeeded(key) => SetMarker(SetPhase(w, c, p.(stage := Done)), key, cfg.ttlSeconds)
      case Dying => SetPhase(Bury(w, row, cfg.deadMaxlen), c, p.(stage := Done))
      case Done => SetPhase(Acknowledge(w, row.id), c, Batch(stale, todo))
  }

  ghost function Stop(w: World, c: string): World {
    var p := PhaseOf(w, c);
    var idle := SetPhase(w, c, Idle);
    if p.Busy? && p.stage.Succeeded? then idle.(past := w.past.(voids := Bump(w.past.voids, p.stage.marker))) else idle
  }

  ghost function Next(cfg: Config, w: World, a: Action): World {
    match a
    case Tick(elapsed) => Elapse(w, elapsed)
    case Publish(payload, maxlen) => Send(w, payload, maxlen)
    case Replay(letter, maxlen, dedupeKey) => Resend(w, letter, maxlen, dedupeKey)
    case Start(c, order) =>
      if PhaseOf(w, c).Idle? && Lists(order, w.group.pending.Keys) then ClaimBatch(cfg, w, c, order) else w
    case Advance(c) => Progress(cfg, w, c)
    case Finish(c, ok) =>
      var p := PhaseOf(w, c);
      if p.Busy? && p.stage.Running? then
        if ok then Succeed(w, c, p, p.stage.key) else SetPhase(w, c, Batch(p.stale, p.todo))
      else w
    case Crash(c) => Stop(w, c)
  }

  ghost function Run(cfg: Config, w: World, actions: seq<Action>): World {
    if actions == [] then w else Next(cfg, Run(cfg, w, actions[..|actions| - 1]), actions[|actions| - 1])
  }

  lemma RunSnoc(cfg: Config, w: World, actions: seq<Action>, a: Action)
    ensures Run(cfg, w, actions + [a]) == Next(cfg, Run(cfg, w, actions), a)
  {
    assert (actions + [a])[..|actions|] == actions;
  }

  // ------------------------------------------------------------ invariants of every run

  /** Exactly one of: not read yet, pending, acknowledged, trimmed away. */
  ghost predicate OneStanding(w: World, id: nat) {
    var unread := id > w.group.nextIndex && id in Ids(w.source.rows);
    var pending, acked, lost := id in w.group.pending, id in w.past.acked, id in w.past.lost;
    && (unread || pending || acked || lost)
    && !(unread && pending) && !(unread && acked) && !(unread && lost)
    && !(pending && acked) && !(pending && lost) && !(acked && lost)
    && (pending || acked ==> id <= w.group.nextIndex)
  }

  ghost predicate Sent(w: World) {
    && ValidLog(w.source) && w.group.nextIndex <= w.source.last
    && (forall id :: id in w.past.sent <==> 1 <= id <= w.source.last)
    && (forall r | r in w.source.rows :: r.id in w.past.sent && w.past.sent[r.id] == r.payload)
    && w.group.pending.Keys <= w.past.sent.Keys && w.past.acked <= w.past.sent.Keys && w.past.lost <= w.past.sent.Keys
    && (forall id | id in w.past.sent :: OneStanding(w, id))
  }

  ghost predicate KeyHandled(cfg: Config, past: Past, k: string) {
    exists id :: id in past.handled && id in past.sent && cfg.dedupe(past.sent[id]) == Key(k)
  }

  ghost predicate Resolved(past: Past, id: nat) {
    id in past.handled || id in past.skipped || id in past.buried
  }

  /** Nothing is acknowledged, marked or skipped without its reason. */
  ghost predicate Justified(cfg: Config, w: World) {
    && (forall id | id in w.past.acked :: Resolved(w.past, id))
    && w.past.handled <= w.past.sent.Keys && w.past.skipped <= w.past.sent.Keys
    && (forall k | k in w.once :: KeyHandled(cfg, w.past, k))
    && (forall id | id in w.past.skipped ::
          cfg.dedupe(w.past.sent[id]).Key? && KeyHandled(cfg, w.past, cfg.dedupe(w.past.sent[id]).key))
  }

  /** A dead letter holds the payload it was made from until it is replayed as a later entry. */
  ghost predicate Letters(w: World) {
    && ValidLog(w.dead)
    && (forall d :: d in w.past.letters <==> 1 <= d <= w.dead.last)
    && (forall r | r in w.dead.rows :: r.id in w.past.letters && w.past.letters[r.id] == r.payload)
    && (forall d | d in w.past.letters :: d in Ids(w.dead.rows) || d in w.past.replays || d in w.past.lostLetters)
    && (forall id | id in w.past.buried ::
          && id in w.past.sent && w.past.buried[id] in w.past.letters
          && w.past.letters[w.past.buried[id]] == w.past.sent[id])
    && (forall d | d in w.past.replays ::
          && d in w.past.letters && w.past.replays[d] in w.past.sent
          && w.past.sent[w.past.replays[d]] == w.past.letters[d])
    && (forall id | id in w.past.buried && w.past.buried[id] in w.past.replays ::
          w.past.replays[w.past.buried[id]] > id)
  }

  ghost predicate Known(w: World, r: Row) {
    r.id in w.past.sent && w.past.sent[r.id] == r.payload && r.id <= w.group.nextIndex
  }

  ghost predicate StageOk(cfg: Config, w: World, row: Row, stage: Stage) {
    match stage
    case Running(key) => key.Some? ==> cfg.dedupe(row.payload) == Key(key.value)
    case Succeeded(key) => row.id in w.past.handled && cfg.dedupe(row.payload) == Key(key)
    case Done => Resolved(w.past, row.id)
    case _ => true
  }

  ghost predicate PhaseOk(cfg: Config, w: World, p: Phase) {
    match p
    case Idle => true
    case Batch(stale, todo) => forall i | 0 <= i < |todo| :: Known(w, todo[i])
    case Busy(stale, todo, row, stage) =>
      (forall i | 0 <= i < |todo| :: Known(w, todo[i])) && Known(w, row) && StageOk(cfg, w, row, stage)
  }

  ghost predicate PhasesOk(cfg: Config, w: World) {
    forall c | c in w.phases :: PhaseOk(cfg, w, w.phases[c])
  }

  ghost predicate Inv(cfg: Config, w: World) {
    Sent(w) && Justified(cfg, w) && Letters(w) && PhasesOk(cfg, w)
  }

  /** History only grows. */
  ghost predicate Grows(w: World, w': World) {
    && w.group.nextIndex <= w'.group.nextIndex
    && w.past.sent.Keys <= w'.past.sent.Keys && (forall id | id in w.past.sent :: w'.past.sent[id] == w.past.sent[id])
    && w.past.handled <= w'.past.handled && w.past.skipped <= w'.past.skipped
    && w.past.buried.Keys <= w'.past.buried.Keys
  }

  lemma PhasePersists(cfg: Config, w: World, w': World, p: Phase)
    requires PhaseOk(cfg, w, p) && Grows(w, w')
    ensures PhaseOk(cfg, w', p)
  {
    if !p.Idle? {
      forall i | 0 <= i < |p.todo| ensures Known(w', p.todo[i]) {
        assert Known(w, p.todo[i]);
      }
    }
  }

  /** One consumer moves to `phase`, the others stay. */
  lemma PhasesPersist(cfg: Config, w: World, w': World, c: string)
    requires PhasesOk(cfg, w) && Grows(w, w')
    requires forall d | d in w'.phases :: d == c || (d in w.phases && w'.phases[d] == w.phases[d])
    requires c in w'.phases ==> PhaseOk(cfg, w', w'.phases[c])
    ensures PhasesOk(cfg, w')
  {
    forall d | d in w'.phases ensures PhaseOk(cfg, w', w'.phases[d]) {
      if d != c { PhasePersists(cfg, w, w', w'.phases[d]); }
    }
  }

  lemma JustifiedPersists(cfg: Config, w: World, w': World)
    requires Justified(cfg, w) && Grows(w, w')
    requires w'.past.acked == w.past.acked && w'.past.skipped == w.past.skipped
    requires w'.past.handled <= w'.past.sent.Keys
    requires forall k | k in w'.once :: k in w.once || KeyHandled(cfg, w'.past, k)
    ensures Justified(cfg, w')
  {
    forall k | KeyHandled(cfg, w.past, k) ensures KeyHandled(cfg, w'.past, k) {
      var id :| id in w.past.handled && id in w.past.sent && cfg.dedupe(w.past.sent[id]) == Key(k);
      assert id in w'.past.handled && w'.past.sent[id] == w.past.sent[id];
    }
    forall id | id in w'.past.acked ensures Resolved(w'.past, id) {
      assert Resolved(w.past, id);
    }
  }

  lemma SendSent(w: World, payload: string, maxlen: nat)
    requires Sent(w)
    ensures Sent(Send(w, payload, maxlen))
  {
    var w' := Send(w, payload, maxlen);
    AppendRows(w.source, payload, maxlen);
    AscendingBounds(w.source.rows, 0, w.source.last);
    forall r | r in w'.source.rows ensures r.id in w'.past.sent && w'.past.sent[r.id] == r.payload {}
    forall id | id in w'.past.sent ensures OneStanding(w', id) {
      assert id in w.past.sent ==> OneStanding(w, id);
      if id in Ids(w'.source.rows) {
        var r :| r in w'.source.rows && r.id == id;
        assert id != w'.source.last ==> r in w.source.rows;
      }
    }
  }

  lemma SendKeeps(cfg: Config, w: World, payload: string, maxlen: nat)
    requires Inv(cfg, w)
    ensures var w' := Send(w, payload, maxlen);
            Inv(cfg, w') && Grows(w, w') && w'.source.last == w.source.last + 1
  {
    var w' := Send(w, payload, maxlen);
    SendSent(w, payload, maxlen);
    JustifiedPersists(cfg, w, w');
    PhasesPersist(cfg, w, w', "");
  }

  lemma ResendLetters(w: World, letter: nat, maxlen: nat, dedupeKey: Option<string>)
    requires Letters(w) && Sent(w) && PayloadOf(w.dead.rows, letter).Some?
    ensures Letters(Resend(w, letter, maxlen, dedupeKey))
  {
    var w' := Resend(w, letter, maxlen, dedupeKey);
    PayloadOfRow(w.dead.rows, letter);
    assert Row(letter, PayloadOf(w.dead.rows, letter).value) in w.dead.rows;
    RemoveRowRows(w.dead.rows, letter, 0, w.dead.last);
    forall d | d in w'.past.letters ensures d in Ids(w'.dead.rows) || d in w'.past.replays || d in w'.past.lostLetters {
      if d in Ids(w.dead.rows) && d != letter {
        var r :| r in w.dead.rows && r.id == d;
        assert r in w'.dead.rows;
      }
    }
  }

  lemma ResendKeeps(cfg: Config, w: World, letter: nat, maxlen: nat, dedupeKey: Option<string>)
    requires Inv(cfg, w)
    ensures Inv(cfg, Resend(w, letter, maxlen, dedupeKey))
  {
    if PayloadOf(w.dead.rows, letter).Some? {
      var sent := Send(w, PayloadOf(w.dead.rows, letter).value, maxlen);
      var w' := Resend(w, letter, maxlen, dedupeKey);
      SendKeeps(cfg, w, PayloadOf(w.dead.rows, letter).value, maxlen);
      ResendLetters(w, letter, maxlen, dedupeKey);
      forall id | id in w'.past.sent ensures OneStanding(w', id) { assert OneStanding(sent, id); }
      JustifiedPersists(cfg, sent, w');
      PhasesPersist(cfg, sent, w', "");
    }
  }

  lemma ElapseKeeps(cfg: Config, w: World, elapsed: nat)
    requires Inv(cfg, w)
    ensures Inv(cfg, Elapse(w, elapsed))
  {
    var w' := Elapse(w, elapsed);
    forall id | id in w'.past.sent ensures OneStanding(w', id) { assert OneStanding(w, id); }
    JustifiedPersists(cfg, w, w');
    PhasesPersist(cfg, w, w', "");
  }

  lemma ClaimKeeps(cfg: Config, w: World, c: string, order: seq<nat>)
    requires Inv(cfg, w) && Lists(order, w.group.pending.Keys)
    ensures Inv(cfg, ClaimBatch(cfg, w, c, order))
  {
    var w' := ClaimBatch(cfg, w, c, order);
    var claimed := w'.phases[c].todo;
    ClaimGroup(order, w.source.rows, w.group, c, cfg.minIdle, cfg.readCount, w.now, w.group, []);
    forall id | id in w'.past.sent ensures OneStanding(w', id) { assert OneStanding(w, id); }
    forall i | 0 <= i < |claimed| ensures Known(w', claimed[i]) {
      assert OneStanding(w, claimed[i].id);
    }
    JustifiedPersists(cfg, w, w');
    PhasesPersist(cfg, w, w', c);
  }

  lemma ReadSent(cfg: Config, w: World, c: string)
    requires Sent(w)
    ensures var w' := ReadBatch(cfg, w, c); Sent(w') && Grows(w, w')
    ensures var w' := ReadBatch(cfg, w, c);
            forall r | r in w'.phases[c].todo :: Known(w', r) && r.id > w.group.nextIndex
  {
    var w' := ReadBatch(cfg, w, c);
    var rows, n := w'.phases[c].todo, w.group.nextIndex;
    AscendingBounds(w.source.rows, 0, w.source.last);
    DeliveredAscending(w.source.rows, n, cfg.readCount, 0, w.source.last);
    AfterReadGroup(w.group, rows, c, w.now);
    assert rows != [] ==> rows[|rows| - 1] in w.source.rows;
    forall r | r in rows ensures n < r.id <= w'.group.nextIndex { AscendingLast(rows, n, w.source.last, r); }
    forall id | id in w'.past.sent ensures OneStanding(w', id) {
      assert OneStanding(w, id);
      if id in Ids(w.source.rows) && id > n {
        var r :| r in w.source.rows && r.id == id;
        DeliveredOldest(w.source.rows, n, cfg.readCount, 0, w.source.last, r);
        assert w.past.sent[id] == r.payload;
        assert id in Ids(rows) <==> r in rows;
      }
    }
  }

  lemma ReadKeeps(cfg: Config, w: World, c: string)
    requires Inv(cfg, w)
    ensures Inv(cfg, ReadBatch(cfg, w, c))
  {
    var w' := ReadBatch(cfg, w, c);
    ReadSent(cfg, w, c);
    JustifiedPersists(cfg, w, w');
    PhasesPersist(cfg, w, w', c);
  }

  lemma BuryLetters(w: World, row: Row, deadMaxlen: nat)
    requires Letters(w) && Sent(w) && Known(w, row)
    ensures Letters(Bury(w, row, deadMaxlen))
  {
    AppendRows(w.dead, row.payload, deadMaxlen);
    AscendingBounds(w.dead.rows, 0, w.dead.last);
  }

  lemma BuryKeeps(cfg: Config, w: World, c: string)
    requires Inv(cfg, w) && PhaseOf(w, c).Busy? && PhaseOf(w, c).stage.Dying?
    ensures Inv(cfg, Progress(cfg, w, c))
  {
    var p, w' := PhaseOf(w, c), Progress(cfg, w, c);
    assert PhaseOk(cfg, w, p);
    BuryLetters(w, p.row, cfg.deadMaxlen);
    forall id | id in w'.past.sent ensures OneStanding(w', id) { assert OneStanding(w, id); }
    PhasePersists(cfg, w, w', p.(stage := Checked(0)));
    JustifiedPersists(cfg, w, w');
    PhasesPersist(cfg, w, w', c);
  }

  /** The entry of an acknowledgement leaves the pending ones for the acknowledged ones. */
  lemma AcknowledgeSent(w: World, id: nat)
    requires Sent(w)
    ensures Sent(Acknowledge(w, id))
  {
    var w' := Acknowledge(w, id);
    forall x | x in w'.past.sent ensures OneStanding(w', x) { assert OneStanding(w, x); }
  }

  lemma AcknowledgeJustified(cfg: Config, w: World, id: nat)
    requires Justified(cfg, w) && Resolved(w.past, id)
    ensures Justified(cfg, Acknowledge(w, id))
  {
    var w' := Acknowledge(w, id);
    forall x | x in w'.past.acked ensures Resolved(w'.past, x) { assert x == id || Resolved(w.past, x); }
    forall k | KeyHandled(cfg, w.past, k) ensures KeyHandled(cfg, w'.past, k) {
      var x :| x in w.past.handled && x in w.past.sent && cfg.dedupe(w.past.sent[x]) == Key(k);
    }
  }

  /** Sent, Justified and Letters do not look at the consumers. */
  lemma PhasesApart(cfg: Config, w: World, phases: map<string, Phase>)
    requires Sent(w) && Justified(cfg, w) && Letters(w)
    ensures Sent(w.(phases := phases)) && Justified(cfg, w.(phases := phases)) && Letters(w.(phases := phases))
  {
    var w' := w.(phases := phases);
    forall id | id in w'.past.sent ensures OneStanding(w', id) { assert OneStanding(w, id); }
  }

  lemma AcknowledgeKeeps(cfg: Config, w: World, c: string)
    requires Inv(cfg, w) && PhaseOf(w, c).Busy? && PhaseOf(w, c).stage.Done?
    ensures Inv(cfg, Progress(cfg, w, c))
  {
    var p := PhaseOf(w, c);
    var acked := Acknowledge(w, p.row.id);
    assert PhaseOk(cfg, w, p);
    AcknowledgeSent(w, p.row.id);
    AcknowledgeJustified(cfg, w, p.row.id);
    assert Letters(acked);
    PhasesApart(cfg, acked, w.phases[c := Batch(p.stale, p.todo)]);
    PhasesPersist(cfg, w, SetPhase(acked, c, Batch(p.stale, p.todo)), c);
  }

  /** Steps that touch only the consumer, the markers and the counters. */
  lemma LocalKeeps(cfg: Config, w: World, w': World, c: string, phase: Phase)
    requires Inv(cfg, w)
    requires w'.source == w.source && w'.group == w.group && w'.dead == w.dead && w'.phases == w.phases[c := phase]
    requires w'.past == w.past.(handled := w'.past.handled, skipped := w'.past.skipped, starts := w'.past.starts,
                                wins := w'.past.wins, voids := w'.past.voids, done := w'.past.done)
    requires w.past.handled <= w'.past.handled <= w.past.sent.Keys
    requires w.past.skipped <= w'.past.skipped <= w.past.sent.Keys
    requires forall id | id in w'.past.skipped - w.past.skipped ::
               cfg.dedupe(w.past.sent[id]).Key? && KeyHandled(cfg, w.past, cfg.dedupe(w.past.sent[id]).key)
    requires forall k | k in w'.once :: k in w.once || KeyHandled(cfg, w.past, k)
    requires PhaseOk(cfg, w', phase)
    ensures Inv(cfg, w')
  {
    forall id | id in w'.past.sent ensures OneStanding(w', id) { assert OneStanding(w, id); }
    forall k | KeyHandled(cfg, w.past, k) ensures KeyHandled(cfg, w'.past, k) {
      var id :| id in w.past.handled && id in w.past.sent && cfg.dedupe(w.past.sent[id]) == Key(k);
      assert id in w'.past.handled;
    }
    forall id | id in w'.past.acked ensures Resolved(w'.past, id) { assert Resolved(w.past, id); }
    PhasesPersist(cfg, w, w', c);
  }

  lemma BatchKeeps(cfg: Config, w: World, c: string)
    requires Inv(cfg, w) && PhaseOf(w, c).Batch?
    ensures Inv(cfg, Progress(cfg, w, c))
  {
    var p, w' := PhaseOf(w, c), Progress(cfg, w, c);
    assert PhaseOk(cfg, w, p);
    if p.todo == [] && p.stale {
      ReadKeeps(cfg, w, c);
    } else {
      assert p.todo != [] ==> Known(w, p.todo[0]);
      forall i | 1 <= i < |p.todo| ensures Known(w, p.todo[i]) {}
      LocalKeeps(cfg, w, w', c, w'.phases[c]);
    }
  }

  lemma CheckedKeeps(cfg: Config, w: World, c: string)
    requires Inv(cfg, w) && PhaseOf(w, c).Busy? && PhaseOf(w, c).stage.Checked?
    ensures Inv(cfg, Progress(cfg, w, c))
  {
    var p := PhaseOf(w, c);
    match cfg.dedupe(p.row.payload) {
      case Raises => LocalKeeps(cfg, w, SetPhase(w, c, p.(stage := Dying)), c, p.(stage := Dying));
      case NoKey => BeginKeeps(cfg, w, c, p, None);
      case Key(k) =>
        if Marked(w.once, k, w.now) { SkipKeeps(cfg, w, c, p, k); } else { BeginKeeps(cfg, w, c, p, Some(k)); }
    }
  }

  lemma BeginKeeps(cfg: Config, w: World, c: string, p: Phase, key: Option<string>)
    requires Inv(cfg, w) && p.Busy? && p.stage.Checked? && PhaseOk(cfg, w, p)
    requires key.Some? ==> cfg.dedupe(p.row.payload) == Key(key.value)
    ensures Inv(cfg, Begin(w, c, p, key))
  {
    var w' := Begin(w, c, p, key);
    PhasePersists(cfg, w, w', p);
    LocalKeeps(cfg, w, w', c, p.(stage := Running(key)));
  }

  lemma SkipKeeps(cfg: Config, w: World, c: string, p: Phase, k: string)
    requires Inv(cfg, w) && p.Busy? && p.stage.Checked? && PhaseOk(cfg, w, p)
    requires cfg.dedupe(p.row.payload) == Key(k) && k in w.once
    ensures Inv(cfg, Skip(w, c, p))
  {
    var w' := Skip(w, c, p);
    PhasePersists(cfg, w, w', p);
    LocalKeeps(cfg, w, w', c, p.(stage := Done));
  }

  lemma MarkKeeps(cfg: Config, w: World, c: string)
    requires Inv(cfg, w) && PhaseOf(w, c).Busy? && PhaseOf(w, c).stage.Succeeded?
    ensures Inv(cfg, Progress(cfg, w, c))
  {
    var p, w' := PhaseOf(w, c), Progress(cfg, w, c);
    assert PhaseOk(cfg, w, p);
    assert KeyHandled(cfg, w.past, p.stage.marker);
    PhasePersists(cfg, w, w', p);
    LocalKeeps(cfg, w, w', c, w'.phases[c]);
  }

  lemma FinishKeeps(cfg: Config, w: World, c: string, ok: bool)
    requires Inv(cfg, w) && PhaseOf(w, c).Busy? && PhaseOf(w, c).stage.Running?
    ensures Inv(cfg, Next(cfg, w, Finish(c, ok)))
  {
    var p, w' := PhaseOf(w, c), Next(cfg, w, Finish(c, ok));
    assert PhaseOk(cfg, w, p);
    PhasePersists(cfg, w, w', p);
    LocalKeeps(cfg, w, w', c, w'.phases[c]);
  }

  lemma ProgressKeeps(cfg: Config, w: World, c: string)
    requires Inv(cfg, w)
    ensures Inv(cfg, Progress(cfg, w, c))
  {
    var p := PhaseOf(w, c);
    if p.Batch? { BatchKeeps(cfg, w, c); }
    if p.Busy? {
      match p.stage {
        case Checked(_) => CheckedKeeps(cfg, w, c);
        case Running(_) =>
        case Succeeded(_) => MarkKeeps(cfg, w, c);
        case Dying => BuryKeeps(cfg, w, c);
        case Done => AcknowledgeKeeps(cfg, w, c);
      }
    }
  }

  lemma NextKeeps(cfg: Config, w: World, a: Action)
    requires Inv(cfg, w)
    ensures Inv(cfg, Next(cfg, w, a))
  {
    match a {
      case Tick(elapsed) => ElapseKeeps(cfg, w, elapsed);
      case Publish(payload, maxlen) => SendKeeps(cfg, w, payload, maxlen);
      case Replay(letter, maxlen, dedupeKey) => ResendKeeps(cfg, w, letter, maxlen, dedupeKey);
      case Start(c, order) =>
        if PhaseOf(w, c).Idle? && Lists(order, w.group.pending.Keys) { ClaimKeeps(cfg, w, c, order); }
      case Advance(c) => ProgressKeeps(cfg, w, c);
      case Finish(c, ok) =>
        if PhaseOf(w, c).Busy? && PhaseOf(w, c).stage.Running? { FinishKeeps(cfg, w, c, ok); }
      case Crash(c) => LocalKeeps(cfg, w, Stop(w, c), c, Idle);
    }
  }

  lemma {:induction false} RunKeeps(cfg: Config, actions: seq<Action>)
    ensures Inv(cfg, Run(cfg, START, actions))
  {
    if actions != [] {
      RunKeeps(cfg, actions[..|actions| - 1]);
      NextKeeps(cfg, Run(cfg, START, actions[..|actions| - 1]), actions[|actions| - 1]);
    }
  }

  // ------------------------------------------------------------ conservation

  /** In every reachable state each entry has one standing, and an acknowledged one was dealt with. */
  lemma EveryEntryAccountedFor(cfg: Config, actions: seq<Action>, id: nat)
    ensures var w := Run(cfg, START, actions);
            id in w.past.sent <==> 1 <= id <= w.source.last
    ensures var w := Run(cfg, START, actions);
            id in w.past.sent ==> OneStanding(w, id)
    ensures var w := Run(cfg, START, actions);
            id in w.past.acked ==>
              || id in w.past.handled
              || (id in w.past.sent && cfg.dedupe(w.past.sent[id]).Key?
                 && KeyHandled(cfg, w.past, cfg.dedupe(w.past.sent[id]).key))
              || (id in w.past.sent && id in w.past.buried && w.past.buried[id] in w.past.letters
                  && w.past.letters[w.past.buried[id]] == w.past.sent[id])
  {
    RunKeeps(cfg, actions);
    var w := Run(cfg, START, actions);
    assert id in w.past.acked ==> Resolved(w.past, id);
  }

  /** The entry that carries the payload of `id` after all replays. */
  ghost function Heir(w: World, id: nat): (heir: nat)
    requires Sent(w) && Letters(w) && id in w.past.sent
    ensures heir in w.past.sent && w.past.sent[heir] == w.past.sent[id] && heir >= id
    ensures heir !in w.past.buried || w.past.buried[heir] !in w.past.replays
    decreases w.source.last - id
  {
    if id in w.past.buried && w.past.buried[id] in w.past.replays then Heir(w, w.past.replays[w.past.buried[id]])
      else id
  }

  /** The source stream still holds every row and the dead-letter stream every letter not replayed. */
  ghost predicate Untrimmed(w: World) {
    && (forall id | id in w.past.sent :: id in Ids(w.source.rows))
    && w.past.lost == {} && w.past.lostLetters == {}
  }

  /** The step adds no row beyond maxlen. */
  ghost predicate Roomy(cfg: Config, w: World, a: Action) {
    match a
    case Publish(_, maxlen) => |w.source.rows| < maxlen
    case Replay(_, maxlen, _) => |w.source.rows| < maxlen
    case Advance(c) => PhaseOf(w, c).Busy? && PhaseOf(w, c).stage.Dying? ==> |w.dead.rows| < cfg.deadMaxlen
    case _ => true
  }

  ghost predicate RoomyRun(cfg: Config, actions: seq<Action>) {
    actions == [] ||
      (RoomyRun(cfg, actions[..|actions| - 1])
       && Roomy(cfg, Run(cfg, START, actions[..|actions| - 1]), actions[|actions| - 1]))
  }

  lemma SendUntrimmed(w: World, payload: string, maxlen: nat)
    requires Sent(w) && Untrimmed(w) && |w.source.rows| < maxlen
    ensures Untrimmed(Send(w, payload, maxlen))
  {
    AppendRows(w.source, payload, maxlen);
    IdsSnoc(w.source.rows, Row(w.source.last + 1, payload));
  }

  lemma BuryUntrimmed(w: World, row: Row, deadMaxlen: nat)
    requires Untrimmed(w) && ValidLog(w.dead) && |w.dead.rows| < deadMaxlen
    ensures Untrimmed(Bury(w, row, deadMaxlen))
  {
    AppendRows(w.dead, row.payload, deadMaxlen);
    IdsSnoc(w.dead.rows, Row(w.dead.last + 1, row.payload));
  }

  lemma ClaimUntrimmed(cfg: Config, w: World, c: string, order: seq<nat>)
    requires Sent(w) && Untrimmed(w) && Lists(order, w.group.pending.Keys)
    ensures Untrimmed(ClaimBatch(cfg, w, c, order))
  {
    ClaimGroup(order, w.source.rows, w.group, c, cfg.minIdle, cfg.readCount, w.now, w.group, []);
  }

  ghost predicate SameRows(w: World, w': World) {
    && w'.source == w.source && w'.dead == w.dead && w'.past.sent == w.past.sent
    && w'.past.lost == w.past.lost && w'.past.lostLetters == w.past.lostLetters
  }

  /** Only the copy to the dead-letter stream adds rows. */
  lemma CheckedAddsNothing(cfg: Config, w: World, c: string)
    requires PhaseOf(w, c).Busy? && PhaseOf(w, c).stage.Checked?
    ensures SameRows(w, Progress(cfg, w, c))
  {
    var p := PhaseOf(w, c);
    match cfg.dedupe(p.row.payload)
    case Raises =>
    case NoKey => assert SameRows(w, Begin(w, c, p, None));
    case Key(k) =>
      if Marked(w.once, k, w.now) {
        assert SameRows(w, Skip(w, c, p));
      } else {
        assert SameRows(w, Begin(w, c, p, Some(k)));
      }
  }

  lemma ProgressAddsNothing(cfg: Config, w: World, c: string)
    requires !(PhaseOf(w, c).Busy? && PhaseOf(w, c).stage.Dying?)
    ensures SameRows(w, Progress(cfg, w, c))
  {
    match PhaseOf(w, c)
    case Idle =>
    case Batch(stale, todo) =>
      if todo != [] { assert SameRows(w, Take(cfg, w, c, stale, todo[0], todo[1..])); }
      else if stale { assert SameRows(w, ReadBatch(cfg, w, c)); }
    case Busy(stale, todo, row, stage) =>
      match stage
      case Checked(_) => CheckedAddsNothing(cfg, w, c);
      case Running(_) =>
      case Succeeded(k) =>
        assert SameRows(w, SetMarker(SetPhase(w, c, PhaseOf(w, c).(stage := Done)), k, cfg.ttlSeconds));
      case Dying =>
      case Done => assert SameRows(w, Acknowledge(w, row.id));
  }

  lemma ProgressUntrimmed(cfg: Config, w: World, c: string)
    requires Inv(cfg, w) && Untrimmed(w) && Roomy(cfg, w, Advance(c))
    ensures Untrimmed(Progress(cfg, w, c))
  {
    var p := PhaseOf(w, c);
    if p.Busy? && p.stage.Dying? {
      BuryUntrimmed(w, p.row, cfg.deadMaxlen);
    } else {
      ProgressAddsNothing(cfg, w, c);
    }
  }

  lemma NextUntrimmed(cfg: Config, w: World, a: Action)
    requires Inv(cfg, w) && Untrimmed(w) && Roomy(cfg, w, a)
    ensures Untrimmed(Next(cfg, w, a))
  {
    match a {
      case Publish(payload, maxlen) => SendUntrimmed(w, payload, maxlen);
      case Replay(letter, maxlen, dedupeKey) =>
        if PayloadOf(w.dead.rows, letter).Some? { SendUntrimmed(w, PayloadOf(w.dead.rows, letter).value, maxlen); }
      case Start(c, order) =>
        if PhaseOf(w, c).Idle? && Lists(order, w.group.pending.Keys) { ClaimUntrimmed(cfg, w, c, order); }
      case Advance(c) => ProgressUntrimmed(cfg, w, c);
      case _ =>
    }
  }

  lemma {:induction false} RunUntrimmed(cfg: Config, actions: seq<Action>)
    requires RoomyRun(cfg, actions)
    ensures Untrimmed(Run(cfg, START, actions))
  {
    if actions != [] {
      RunUntrimmed(cfg, actions[..|actions| - 1]);
      RunKeeps(cfg, actions[..|actions| - 1]);
      NextUntrimmed(cfg, Run(cfg, START, actions[..|actions| - 1]), actions[|actions| - 1]);
    }
  }

  /** No crash, redelivery or replay loses a payload: some entry or dead letter still carries it, or it was handled. */
  lemma NothingLost(cfg: Config, actions: seq<Action>, id: nat)
    requires RoomyRun(cfg, actions) && id in Run(cfg, START, actions).past.sent
    ensures var w := Run(cfg, START, actions);
            Sent(w) && Letters(w) &&
            var heir := Heir(w, id);
            && w.past.sent[heir] == w.past.sent[id]
            && (|| (heir > w.group.nextIndex && Row(heir, w.past.sent[id]) in w.source.rows)
                || heir in w.group.pending
                || heir in w.past.handled
                || (cfg.dedupe(w.past.sent[id]).Key? && KeyHandled(cfg, w.past, cfg.dedupe(w.past.sent[id]).key))
                || (heir in w.past.buried && Row(w.past.buried[heir], w.past.sent[id]) in w.dead.rows))
  {
    RunKeeps(cfg, actions);
    RunUntrimmed(cfg, actions);
    var w := Run(cfg, START, actions);
    var heir := Heir(w, id);
    assert OneStanding(w, heir);
    assert heir in w.past.acked ==> Resolved(w.past, heir);
    if heir in Ids(w.source.rows) {
      var r :| r in w.source.rows && r.id == heir;
      assert r == Row(heir, w.past.sent[id]);
    }
    if heir in w.past.buried && w.past.buried[heir] in Ids(w.dead.rows) {
      var r :| r in w.dead.rows && r.id == w.past.buried[heir];
      assert r == Row(w.past.buried[heir], w.past.sent[id]);
    }
  }
}
