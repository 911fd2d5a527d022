/** Version chains of the memory table over any sequence of operations, snapshot imports included. */
module MemoryChains {
  import opened Text
  import opened MemoryStore
  import opened MemoryLinks
  import opened MemoryImports
  import Snapshots

  /** The table with the history it does not keep. */
  datatype Store = Store(
    rows: Table,
    clock: Time,
    known: set<Id>,            // every id the table has held or named
    count: nat,                // steps so far
    born: map<Id, nat>,        // the step that inserted the row, or its last predecessor under this id
    made: set<(Id, Id)>,       // the links made by apply_merge and upsert_relationship: old version, new version
    merged: set<(Id, Id)>)     // those made by apply_merge

  datatype Op =
    | Add(item: Item)
    | ApplyMerge(c: Item, d: Decision, freshId: Id)
    | UpsertRelationship(c: Item, latest: Option<Id>, freshId: Id)
    | Forgetting(subject: string, conversation: Option<string>, reason: string)
    | RunLifecycle(policy: Policy)
    | RevokeOne(id: Id)
    | Importing(items: seq<Item>)

  const EMPTY := Store(map[], 0, {}, 0, map[], {}, {})

  /** What the model validators of MemoryItem demand of scope and links. */
  predicate ItemContract(item: Item) {
    && Scoped(item.row) && item.row.invalidatedBy != Some(item.id)
    && (item.row.invalidatedBy.Some? ==> item.row.invalidAt.Some?)
  }

  /** The id of a candidate is taken, or it is new: no row has had it and none names it. */
  ghost predicate Candidate(s: Store, c: Item) {
    ItemContract(c) && (c.id in s.rows || c.id !in s.known) && c.id !in c.row.supersedes
  }

  /** An id from uuid4(). */
  ghost predicate Drawn(s: Store, c: Item, freshId: Id) {
    freshId !in s.known && freshId !in s.rows && freshId !in c.row.supersedes
  }

  /**
   * The clock does not go back, candidates meet their contract and drawn ids are new; a file to import may hold
   * anything.
   */
  ghost predicate Possible(s: Store, op: Op, now: Time) {
    && now >= s.clock
    && match op
       case Add(item) => Candidate(s, item)
       case ApplyMerge(c, d, freshId) => Candidate(s, c) && WellShaped(d) && Drawn(s, c, freshId)
       case UpsertRelationship(c, latest, freshId) =>
         Candidate(s, c) && Drawn(s, c, freshId) && IsLatest(s.rows, c.row.subject, now, latest)
       case _ => true
  }

  /** The link a merge or an upsert reports. */
  ghost function Link(o: Outcome): Option<(Id, Id)> {
    if o.Reported? && o.application.operation == UPDATE && o.application.memory.Some? && o.application.previous.Some?
    then Some((o.application.previous.value, o.application.memory.value)) else None
  }

  /** The table after an operation, and the link it made. */
  ghost function Effect(t: Table, op: Op, now: Time, upper: string -> string): (Table, Option<(Id, Id)>) {
    match op
    case Add(item) => (if Insertable(t, item.id, item.row) then t[item.id := Stamped(item.row, now)] else t, None)
    case ApplyMerge(c, d, freshId) => var (t', o) := Merge(t, c, d, freshId, now); (t', Link(o))
    case UpsertRelationship(c, latest, freshId) =>
      var (t', o) := Upsert(t, c, latest, freshId, upper, now); (t', Link(o))
    case Forgetting(subject, conversation, reason) => (Forget(t, subject, conversation, reason, now), None)
    case RunLifecycle(policy) => (Lifecycle(t, policy, now), None)
    case RevokeOne(id) =>
      (if id in t && t[id].revokedAt.None? then t[id := Revoke(t[id], now, "operator")] else t, None)
    case Importing(items) => (Snapshots.Import(t, items).0, None)
  }

  ghost function Mentions(t: Table): set<Id> {
    set b, a | b in t && a in t[b].supersedes :: a
  }

  /** Links between rows neither of which this step inserted. */
  ghost function Surviving(links: set<(Id, Id)>, t: Table, t': Table): set<(Id, Id)> {
    set l | l in links && (l.0 in t || l.0 !in t') && (l.1 in t || l.1 !in t')
  }

  ghost function Recorded(s: Store, t': Table, now: Time, link: Option<(Id, Id)>, merge: bool): Store {
    var new' := if link.Some? then {link.value} else {};
    Store(t', now, s.known + t'.Keys + Mentions(t'), s.count + 1,
          map id | id in s.born.Keys + t'.Keys ::
            if id in s.born && (id in s.rows || id !in t') then s.born[id] else s.count,
          Surviving(s.made, s.rows, t') + new',
          Surviving(s.merged, s.rows, t') + if merge then new' else {})
  }

  ghost function Step(s: Store, op: Op, now: Time, upper: string -> string): Store {
    var (t', link) := Effect(s.rows, op, now, upper);
    Recorded(s, t', now, link, op.ApplyMerge?)
  }

  ghost function Run(s: Store, ops: seq<(Op, Time)>, upper: string -> string): Store {
    if ops == [] then s else
      var (op, now) := ops[|ops| - 1];
      Step(Run(s, ops[..|ops| - 1], upper), op, now, upper)
  }

  ghost predicate PossibleRun(s: Store, ops: seq<(Op, Time)>, upper: string -> string) {
    ops == [] ||
      (PossibleRun(s, ops[..|ops| - 1], upper)
       && Possible(Run(s, ops[..|ops| - 1], upper), ops[|ops| - 1].0, ops[|ops| - 1].1))
  }

  /**
   * The links of what is inserted are in order. A new row names no other row than the one it replaces, or, replacing
   * none, at most one that does not exist and that nobody names; a file fits the table. Callers build candidates
   * without links.
   */
  ghost predicate Honest(s: Store, op: Op, now: Time, upper: string -> string) {
    match op
    case Add(item) => Insertable(s.rows, item.id, item.row) ==> Loose(s.rows, item.row)
    case ApplyMerge(c, d, freshId) =>
      Merge(s.rows, c, d, freshId, now).1.Reported? ==>
        && (d.operation == ADD ==> Loose(s.rows, c.row))
        && (d.operation == UPDATE && d.target.Some? && Targetable(s.rows, c, d.target.value, now) ==>
           NamesOnly(c.row, d.target.value))
    case UpsertRelationship(c, latest, freshId) =>
      Upsert(s.rows, c, latest, freshId, upper, now).1.Reported? ==>
        if latest.Some? then NamesOnly(c.row, latest.value) else Loose(s.rows, c.row)
    case Importing(items) => Fits(s.rows, Snapshots.Import(s.rows, items).0, now)
    case _ => true
  }

  ghost predicate LegitRun(s: Store, ops: seq<(Op, Time)>, upper: string -> string) {
    ops == [] ||
      var before := Run(s, ops[..|ops| - 1], upper);
      && LegitRun(s, ops[..|ops| - 1], upper)
      && Possible(before, ops[|ops| - 1].0, ops[|ops| - 1].1)
      && Honest(before, ops[|ops| - 1].0, ops[|ops| - 1].1, upper)
  }

  // ------------------------------------------------------------ steps that insert nothing

  /** Rows may vanish with the pointers to them, or become invalid or revoked. */
  ghost predicate Pruned(t: Table, t': Table, clock: Time) {
    && t'.Keys <= t.Keys
    && forall a | a in t' :: var r, r' := t[a], t'[a];
         && r'.supersedes == r.supersedes && SameBoundary(r', r)
         && (r.invalidAt.Some? ==> r'.invalidAt.Some? && (r'.invalidAt == r.invalidAt || r'.invalidAt.value <= clock))
         && r'.invalidatedBy == if r.invalidatedBy.Some? && r.invalidatedBy.value !in t' then None else r.invalidatedBy
  }

  lemma PrunedRow(t: Table, t': Table, clock: Time, now: Time, a: Id)
    requires Chained(t, clock) && clock <= now && Pruned(t, t', now) && a in t'
    ensures Single(t'[a]) && Agree(t', a) && LinkSettled(t', a, now)
  {
    assert Agree(t, a) && LinkSettled(t, a, clock);
    forall b: Id ensures Names(t', b, a) <==> b in t' && Names(t, b, a) {}
  }

  lemma PrunedKeeps(t: Table, t': Table, clock: Time, now: Time)
    requires Chained(t, clock) && clock <= now && Pruned(t, t', now)
    ensures Chained(t', now)
  {
    forall a | a in t'
      ensures Single(t'[a]) && Agree(t', a) && LinkSettled(t', a, now)
    {
      PrunedRow(t, t', clock, now, a);
    }
    forall b: Id, a: Id ensures Names(t', b, a) ==> Names(t, b, a) {}
    var rank :| Ranked(t, t.Keys, rank);
    assert Ranked(t', t'.Keys, rank);
  }

  lemma DeletedIsPruned(t: Table, clock: Time, now: Time, a: Id)
    requires Chained(t, clock) && clock <= now && a in t && Active(t[a], now)
    ensures Pruned(t, t[a := t[a].(invalidAt := Some(now), invalidatedBy := None)], now)
  {
    ActiveIsNewest(t, clock, now, a);
    forall x | x in t ensures t[x].invalidatedBy.Some? ==> t[x].invalidatedBy.value in t {
      assert LinkSettled(t, x, clock);
    }
  }

  lemma AgedRow(r: Row, policy: Policy, now: Time)
    ensures var r' := Retire(Fade(Expire(r, now), policy, now), policy, now);
            && r'.supersedes == r.supersedes && SameBoundary(r', r) && r'.invalidatedBy == r.invalidatedBy
            && r'.revokedAt == r.revokedAt && r'.revokedReason == r.revokedReason
            && (r'.invalidAt == r.invalidAt || (r.invalidAt.None? && r'.invalidAt.Some? && r'.invalidAt.value <= now))
  {
  }

  /** The table before the final DELETE of run_lifecycle: every row as AgedRow has it. */
  lemma RetiredTable(t: Table, policy: Policy, now: Time) returns (retired: Table)
    ensures retired.Keys == t.Keys && Lifecycle(t, policy, now) == Purge(retired, policy, now)
    ensures forall id | id in t :: retired[id] == Retire(Fade(Expire(t[id], now), policy, now), policy, now)
  {
    var expired := UpdateAll(t, r => Expire(r, now));
    var decayed := UpdateAll(expired, r => Fade(r, policy, now));
    retired := UpdateAll(decayed, r => Retire(r, policy, now));
  }

  lemma LifecycleKeys(t: Table, policy: Policy, now: Time, a: Id)
    ensures a in Lifecycle(t, policy, now) <==> a in t && !Purged(t[a], policy, now)
  {
    var retired := RetiredTable(t, policy, now);
    if a in t { AgedRow(t[a], policy, now); }
  }

  lemma LifecycleRow(t: Table, policy: Policy, now: Time, a: Id)
    requires a in Lifecycle(t, policy, now)
    ensures a in t
    ensures var r, t' := t[a], Lifecycle(t, policy, now);
            var r' := t'[a];
            && r'.supersedes == r.supersedes && SameBoundary(r', r)
            && r'.revokedAt == r.revokedAt && r'.revokedReason == r.revokedReason
            && (r.invalidAt.Some? ==> r'.invalidAt == r.invalidAt)
            && r'.invalidatedBy
               == if r.invalidatedBy.Some? && r.invalidatedBy.value in t && r.invalidatedBy.value !in t'
                                   then None else r.invalidatedBy
  {
    var retired := RetiredTable(t, policy, now);
    AgedRow(t[a], policy, now);
    if t[a].invalidatedBy.Some? && t[a].invalidatedBy.value in t {
      LifecycleKeys(t, policy, now, t[a].invalidatedBy.value);
      AgedRow(t[t[a].invalidatedBy.value], policy, now);
    }
  }

  lemma LifecycleIsPruned(t: Table, clock: Time, policy: Policy, now: Time)
    requires Chained(t, clock) && clock <= now
    ensures Pruned(t, Lifecycle(t, policy, now), now)
  {
    var t' := Lifecycle(t, policy, now);
    forall a | a in t'
      ensures a in t
      ensures var r, r' := t[a], t'[a];
              && r'.supersedes == r.supersedes && SameBoundary(r', r)
              && (r.invalidAt.Some? ==> r'.invalidAt == r.invalidAt)
              && r'.invalidatedBy
                 == if r.invalidatedBy.Some? && r.invalidatedBy.value !in t' then None else r.invalidatedBy
    {
      LifecycleRow(t, policy, now, a);
      assert LinkSettled(t, a, clock);
    }
  }

  // ------------------------------------------------------------ each step keeps the chains exactly when it is honest

  lemma UnknownId(s: Store, id: Id)
    requires id !in s.rows && id !in s.known && Mentions(s.rows) <= s.known
    ensures Unknown(s.rows, id)
  {
    forall b: Id ensures !Names(s.rows, b, id) {
      if Names(s.rows, b, id) { Mentioned(s.rows, b, id); }
    }
  }

  lemma Mentioned(t: Table, b: Id, a: Id)
    requires Names(t, b, a)
    ensures a in Mentions(t)
  {
    assert t[b].supersedes[0] in t[b].supersedes;
  }

  lemma AddStepIff(s: Store, id: Id, r: Row, now: Time)
    requires Chained(s.rows, s.clock) && s.clock <= now && Mentions(s.rows) <= s.known
    requires id !in s.rows && id !in s.known && Scoped(r) && id !in r.supersedes
    ensures Chained(s.rows[id := r], now) <==> Loose(s.rows, r)
  {
    UnknownId(s, id);
    AddIff(s.rows, s.clock, now, id, r);
  }

  lemma SucceedStepIff(s: Store, c: Item, freshId: Id, r: Row, a: Id, now: Time)
    requires Chained(s.rows, s.clock) && s.clock <= now && Mentions(s.rows) <= s.known && Drawn(s, c, freshId)
    requires a in s.rows && Active(s.rows[a], now) && SamePlace(s.rows[a], r) && Scoped(r) && freshId != a
    requires r.supersedes == Unique(c.row.supersedes + [a]) && r.invalidatedBy == c.row.invalidatedBy
    ensures Chained(Succeed(s.rows, freshId, r, Some(a), now), now) <==> NamesOnly(c.row, a)
  {
    UnknownId(s, freshId);
    UniqueHas(c.row.supersedes + [a]);
    UniqueOnly(c.row.supersedes, a);
    SucceedIff(s.rows, s.clock, now, freshId, r, a);
  }

  lemma Unchanged(t: Table, clock: Time, now: Time)
    requires Chained(t, clock) && clock <= now
    ensures Chained(t, now)
  {
    forall a | a in t ensures t[a].invalidatedBy.Some? ==> t[a].invalidatedBy.value in t {
      assert LinkSettled(t, a, clock);
    }
    PrunedKeeps(t, t, clock, now);
  }

  lemma MergeStepIff(s: Store, c: Item, d: Decision, freshId: Id, now: Time, upper: string -> string)
    requires Chained(s.rows, s.clock) && Mentions(s.rows) <= s.known && Possible(s, ApplyMerge(c, d, freshId), now)
    ensures Chained(Merge(s.rows, c, d, freshId, now).0, now) <==> Honest(s, ApplyMerge(c, d, freshId), now, upper)
  {
    Unchanged(s.rows, s.clock, now);
    if d.target.None? || Targetable(s.rows, c, d.target.value, now) {
      match d.operation {
        case ADD => if c.id !in s.rows { AddStepIff(s, c.id, Merged(c, d, now), now); }
        case UPDATE =>
          var r := Merged(c, d, now).(supersedes := Unique(c.row.supersedes + [d.target.value]));
          SucceedStepIff(s, c, freshId, r, d.target.value, now);
        case DELETE =>
          DeletedIsPruned(s.rows, s.clock, now, d.target.value);
          PrunedKeeps(s.rows, Merge(s.rows, c, d, freshId, now).0, s.clock, now);
        case NOOP =>
      }
    }
  }

  lemma UpsertStepIff(s: Store, c: Item, latest: Option<Id>, freshId: Id, now: Time, upper: string -> string)
    requires Chained(s.rows, s.clock) && Mentions(s.rows) <= s.known
    requires Possible(s, UpsertRelationship(c, latest, freshId), now)
    ensures Chained(Upsert(s.rows, c, latest, freshId, upper, now).0, now)
            <==> Honest(s, UpsertRelationship(c, latest, freshId), now, upper)
  {
    Unchanged(s.rows, s.clock, now);
    if c.row.scope == SUBJECT && latest.Some? {
      var r := Stamped(Unembedded(c.row), now).(supersedes := Unique(c.row.supersedes + [latest.value]));
      SucceedStepIff(s, c, freshId, r, latest.value, now);
    } else if c.id !in s.rows {
      AddStepIff(s, c.id, Stamped(Unembedded(c.row), now), now);
    }
  }

  lemma RevocationIsPruned(t: Table, t': Table, clock: Time, now: Time)
    requires Chained(t, clock) && t'.Keys == t.Keys
    requires forall id | id in t ::
             t'[id] == t[id].(revokedAt := t'[id].revokedAt, revokedReason := t'[id].revokedReason)
    ensures Pruned(t, t', now)
  {
    forall a | a in t ensures t[a].invalidatedBy.Some? ==> t[a].invalidatedBy.value in t {
      assert LinkSettled(t, a, clock);
    }
  }

  /** Whatever the operation, the links still form chains afterwards exactly when it was honest. */
  lemma StepKeepsIff(s: Store, op: Op, now: Time, upper: string -> string)
    requires Chained(s.rows, s.clock) && Mentions(s.rows) <= s.known && Possible(s, op, now)
    ensures Chained(Step(s, op, now, upper).rows, now) <==> Honest(s, op, now, upper)
  {
    var t' := Effect(s.rows, op, now, upper).0;
    match op {
      case Add(item) =>
        if item.id in s.rows { Unchanged(s.rows, s.clock, now); }
        else if Insertable(s.rows, item.id, item.row) { AddStepIff(s, item.id, Stamped(item.row, now), now); }
        else { Unchanged(s.rows, s.clock, now); }
      case ApplyMerge(c, d, freshId) => MergeStepIff(s, c, d, freshId, now, upper);
      case UpsertRelationship(c, latest, freshId) => UpsertStepIff(s, c, latest, freshId, now, upper);
      case Forgetting(subject, conversation, reason) =>
        RevocationIsPruned(s.rows, t', s.clock, now);
        PrunedKeeps(s.rows, t', s.clock, now);
      case RunLifecycle(policy) =>
        LifecycleIsPruned(s.rows, s.clock, policy, now);
        PrunedKeeps(s.rows, t', s.clock, now);
      case RevokeOne(id) =>
        RevocationIsPruned(s.rows, t', s.clock, now);
        PrunedKeeps(s.rows, t', s.clock, now);
      case Importing(items) => ImportIff(s.rows, items, s.clock, now);
    }
  }

  // ------------------------------------------------------------ the invariant of every run

  /** The recorded links are in order of insertion, and a merge's link keeps the privacy too. */
  ghost predicate History(s: Store) {
    && s.rows.Keys <= s.born.Keys && Mentions(s.rows) <= s.known && s.rows.Keys <= s.known
    && (forall id | id in s.born :: s.born[id] < s.count)
    && (forall l {:trigger l in s.made} | l in s.made :: l.0 in s.born && l.1 in s.born && s.born[l.0] < s.born[l.1])
    && (forall l {:trigger l in s.merged} | l in s.merged && l.0 in s.rows && l.1 in s.rows ::
          SameBoundary(s.rows[l.0], s.rows[l.1]))
  }

  ghost predicate Inv(s: Store) {
    Chained(s.rows, s.clock) && History(s)
  }

  /** Rows that were there keep their boundary. */
  ghost predicate KeepsBoundaries(t: Table, t': Table) {
    forall id | id in t && id in t' :: SameBoundary(t'[id], t[id])
  }

  lemma MergeEffect(t: Table, c: Item, d: Decision, freshId: Id, now: Time)
    requires freshId !in t
    ensures var (t', o) := Merge(t, c, d, freshId, now);
            && KeepsBoundaries(t, t')
            && (Link(o).Some? ==>
                  var (a, b) := Link(o).value;
                  a in t && b !in t && a in t' && b in t' && SameBoundary(t'[a], t'[b]) && Active(t[a], now))
  {
  }

  lemma UpsertEffect(t: Table, c: Item, latest: Option<Id>, freshId: Id, upper: string -> string, now: Time)
    requires freshId !in t && IsLatest(t, c.row.subject, now, latest)
    ensures var (t', o) := Upsert(t, c, latest, freshId, upper, now);
            && KeepsBoundaries(t, t')
            && (Link(o).Some? ==>
                  var (a, b) := Link(o).value; a in t && b !in t && a in t' && b in t' && Active(t[a], now))
  {
  }

  lemma LifecycleBoundaries(t: Table, policy: Policy, now: Time)
    ensures KeepsBoundaries(t, Lifecycle(t, policy, now))
  {
    forall id | id in t && id in Lifecycle(t, policy, now) ensures SameBoundary(Lifecycle(t, policy, now)[id], t[id]) {
      LifecycleRow(t, policy, now, id);
    }
  }

  lemma EffectOf(s: Store, op: Op, now: Time, upper: string -> string)
    requires Possible(s, op, now)
    ensures var (t', link) := Effect(s.rows, op, now, upper);
            && KeepsBoundaries(s.rows, t')
            && (link.Some? ==>
                  var (a, b) := link.value;
                  && a in s.rows && b !in s.rows && a in t' && b in t' && Active(s.rows[a], now)
                  && (op.ApplyMerge? ==> SameBoundary(t'[a], t'[b])))
  {
    match op {
      case ApplyMerge(c, d, freshId) => MergeEffect(s.rows, c, d, freshId, now);
      case UpsertRelationship(c, latest, freshId) => UpsertEffect(s.rows, c, latest, freshId, upper, now);
      case RunLifecycle(policy) => LifecycleBoundaries(s.rows, policy, now);
      case Importing(items) => Snapshots.ImportKeepsRows(s.rows, items);
      case _ =>
    }
  }

  lemma RecordedKeeps(s: Store, t': Table, now: Time, link: Option<(Id, Id)>, merge: bool)
    requires History(s) && KeepsBoundaries(s.rows, t')
    requires link.Some? ==> var (a, b) := link.value;
                            && a in s.rows && b !in s.rows && a in t' && b in t'
                            && (merge ==> SameBoundary(t'[a], t'[b]))
    ensures History(Recorded(s, t', now, link, merge))
  {
    var s' := Recorded(s, t', now, link, merge);
    forall l {:trigger l in s'.made} | l in s'.made
      ensures l.0 in s'.born && l.1 in s'.born && s'.born[l.0] < s'.born[l.1]
    {
      if l in s.made {
        assert s'.born[l.0] == s.born[l.0] || link == Some(l);
      }
    }
    forall l {:trigger l in s'.merged} | l in s'.merged && l.0 in t' && l.1 in t'
      ensures SameBoundary(t'[l.0], t'[l.1])
    {
      if link != Some(l) { assert l in s.merged && l.0 in s.rows && l.1 in s.rows; }
    }
  }

  lemma HistoryKeeps(s: Store, op: Op, now: Time, upper: string -> string)
    requires History(s) && Possible(s, op, now)
    ensures History(Step(s, op, now, upper))
  {
    EffectOf(s, op, now, upper);
    var (t', link) := Effect(s.rows, op, now, upper);
    RecordedKeeps(s, t', now, link, op.ApplyMerge?);
  }

  /** One step keeps the invariant exactly when it is honest. */
  lemma StepInvIff(s: Store, op: Op, now: Time, upper: string -> string)
    requires Inv(s) && Possible(s, op, now)
    ensures Inv(Step(s, op, now, upper)) <==> Honest(s, op, now, upper)
  {
    HistoryKeeps(s, op, now, upper);
    StepKeepsIff(s, op, now, upper);
  }

  lemma StartsChained()
    ensures Inv(EMPTY)
  {
    assert Ranked(EMPTY.rows, EMPTY.rows.Keys, map[]);
  }

  lemma {:induction false} RunKeeps(ops: seq<(Op, Time)>, upper: string -> string)
    requires LegitRun(EMPTY, ops, upper)
    ensures Inv(Run(EMPTY, ops, upper))
  {
    if ops == [] {
      StartsChained();
    } else {
      RunKeeps(ops[..|ops| - 1], upper);
      StepInvIff(Run(EMPTY, ops[..|ops| - 1], upper), ops[|ops| - 1].0, ops[|ops| - 1].1, upper);
    }
  }

  lemma {:induction false} HistoryHolds(ops: seq<(Op, Time)>, upper: string -> string)
    requires PossibleRun(EMPTY, ops, upper)
    ensures History(Run(EMPTY, ops, upper))
  {
    if ops != [] {
      HistoryHolds(ops[..|ops| - 1], upper);
      HistoryKeeps(Run(EMPTY, ops[..|ops| - 1], upper), ops[|ops| - 1].0, ops[|ops| - 1].1, upper);
    }
  }

  // ------------------------------------------------------------ what holds of every honestly reached table

  lemma SoleName(t: Table, clock: Time, a: Id, b: Id)
    requires Chained(t, clock) && b in t && a in t[b].supersedes
    ensures t[b].supersedes == [a] && Names(t, b, a)
  {
    assert Single(t[b]);
  }

  /** Links form linear, acyclic chains; those made by a merge or an upsert lead to a later inserted row. */
  lemma VersionsFormChains(ops: seq<(Op, Time)>, upper: string -> string, a: Id, b: Id)
    requires LegitRun(EMPTY, ops, upper)
    ensures var s := Run(EMPTY, ops, upper);
            b in s.rows && a in s.rows[b].supersedes ==>
              && s.rows[b].supersedes == [a]
              && (forall c | c in s.rows && a in s.rows[c].supersedes :: c == b)
              && ((a, b) in s.made ==> a in s.born && b in s.born && s.born[a] < s.born[b])
    ensures var s := Run(EMPTY, ops, upper); exists rank :: Ranked(s.rows, s.rows.Keys, rank)
  {
    RunKeeps(ops, upper);
    var s := Run(EMPTY, ops, upper);
    if b in s.rows && a in s.rows[b].supersedes {
      SoleName(s.rows, s.clock, a, b);
      forall c | c in s.rows && a in s.rows[c].supersedes ensures c == b { SoleName(s.rows, s.clock, a, c); }
    }
  }

  /** Both directions of a link agree: invalidated_by names exactly the row that supersedes. */
  lemma LinksAgree(ops: seq<(Op, Time)>, upper: string -> string, a: Id, b: Id)
    requires LegitRun(EMPTY, ops, upper) && a in Run(EMPTY, ops, upper).rows
    ensures var s := Run(EMPTY, ops, upper);
            s.rows[a].invalidatedBy == Some(b) <==> b in s.rows && a in s.rows[b].supersedes
    ensures var s := Run(EMPTY, ops, upper);
            s.rows[a].invalidatedBy.Some? ==> s.rows[a].invalidAt.Some?
  {
    RunKeeps(ops, upper);
    var s := Run(EMPTY, ops, upper);
    assert Agree(s.rows, a) && LinkSettled(s.rows, a, s.clock);
    assert s.rows[a].invalidatedBy == Some(b) <==> Names(s.rows, b, a);
    if b in s.rows && a in s.rows[b].supersedes { SoleName(s.rows, s.clock, a, b); }
  }

  /** Every link stays in its scope, subject and conversation; a merge's link also in its privacy. */
  lemma LinksStayInside(ops: seq<(Op, Time)>, upper: string -> string, a: Id, b: Id)
    requires LegitRun(EMPTY, ops, upper)
    ensures var s := Run(EMPTY, ops, upper);
            a in s.rows && b in s.rows && a in s.rows[b].supersedes ==>
              SamePlace(s.rows[a], s.rows[b]) && ((a, b) in s.merged ==> SameBoundary(s.rows[a], s.rows[b]))
  {
    RunKeeps(ops, upper);
    var s := Run(EMPTY, ops, upper);
    if a in s.rows && b in s.rows && a in s.rows[b].supersedes {
      SoleName(s.rows, s.clock, a, b);
      assert Agree(s.rows, a) && LinkSettled(s.rows, a, s.clock);
    }
  }

  /**
   * After any honest run, the link an upsert makes stays inside the whole boundary exactly when the privacies agree.
   */
  lemma UpsertBoundary(ops: seq<(Op, Time)>, upper: string -> string, c: Item, a: Id, freshId: Id, now: Time)
    requires LegitRun(EMPTY, ops, upper)
    requires var s := Run(EMPTY, ops, upper);
             Possible(s, UpsertRelationship(c, Some(a), freshId), now)
             && Upsert(s.rows, c, Some(a), freshId, upper, now).1.Reported?
    ensures var s := Run(EMPTY, ops, upper);
            var t' := Upsert(s.rows, c, Some(a), freshId, upper, now).0;
            && a in s.rows && a in t' && freshId in t' && t'[a].invalidatedBy == Some(freshId)
            && a in t'[freshId].supersedes
            && (SameBoundary(t'[a], t'[freshId]) <==> s.rows[a].privacy == c.row.privacy)
  {
    RunKeeps(ops, upper);
    UniqueHas(c.row.supersedes + [a]);
    assert Single(Run(EMPTY, ops, upper).rows[a]);
  }

  // ------------------------------------------------------------ what no possible run undoes

  /** An import inserts this absent id. */
  ghost predicate BringsBack(s: Store, op: Op, id: Id) {
    op.Importing? && id !in s.rows && id in Snapshots.Import(s.rows, op.items).0
  }

  /** Some step of the run brings the id back. */
  ghost predicate CameBack(s: Store, ops: seq<(Op, Time)>, upper: string -> string, id: Id) {
    ops != [] &&
      (CameBack(s, ops[..|ops| - 1], upper, id)
       || BringsBack(Run(s, ops[..|ops| - 1], upper), ops[|ops| - 1].0, id))
  }

  lemma {:induction false} KnownForGood(s: Store, ops: seq<(Op, Time)>, upper: string -> string, id: Id)
    requires id in s.known
    ensures id in Run(s, ops, upper).known
  {
    if ops != [] { KnownForGood(s, ops[..|ops| - 1], upper, id); }
  }

  /** Only an import brings a purged id back. */
  lemma StepBringsBack(s: Store, op: Op, now: Time, upper: string -> string, id: Id)
    requires Possible(s, op, now) && id in s.known && id !in s.rows && id in Step(s, op, now, upper).rows
    ensures BringsBack(s, op, id)
  {
    match op {
      case ApplyMerge(c, d, freshId) => MergeKeys(s.rows, c, d, freshId, now, id);
      case UpsertRelationship(c, latest, freshId) => UpsertKeys(s.rows, c, latest, freshId, upper, now, id);
      case RunLifecycle(policy) => LifecycleKeys(s.rows, policy, now, id);
      case _ =>
    }
  }

  lemma MergeKeys(t: Table, c: Item, d: Decision, freshId: Id, now: Time, id: Id)
    requires id !in t && id != c.id && id != freshId
    ensures id !in Merge(t, c, d, freshId, now).0
  {
  }

  lemma UpsertKeys(t: Table, c: Item, latest: Option<Id>, freshId: Id, upper: string -> string, now: Time, id: Id)
    requires latest.Some? ==> latest.value in t
    requires id !in t && id != c.id && id != freshId
    ensures id !in Upsert(t, c, latest, freshId, upper, now).0
  {
  }

  ghost predicate StillRevoked(r: Row, r': Row) {
    r.revokedAt.Some? ==> r'.revokedAt == r.revokedAt && r'.revokedReason == r.revokedReason
  }

  /** Once invalid at some past moment a row stays so. */
  ghost predicate StillInvalid(r: Row, r': Row, clock: Time, now: Time) {
    r.invalidAt.Some? && r.invalidAt.value <= clock ==> r'.invalidAt.Some? && r'.invalidAt.value <= now
  }

  lemma MergeOldRow(t: Table, c: Item, d: Decision, freshId: Id, clock: Time, now: Time, id: Id)
    requires clock <= now && freshId !in t && id in t && id in Merge(t, c, d, freshId, now).0
    ensures var r' := Merge(t, c, d, freshId, now).0[id]; StillRevoked(t[id], r') && StillInvalid(t[id], r', clock, now)
  {
  }

  lemma UpsertOldRow(t: Table, c: Item, latest: Option<Id>, freshId: Id, upper: string -> string, clock: Time,
                     now: Time, id: Id)
    requires clock <= now && freshId !in t && IsLatest(t, c.row.subject, now, latest)
    requires id in t && id in Upsert(t, c, latest, freshId, upper, now).0
    ensures var r' := Upsert(t, c, latest, freshId, upper, now).0[id];
            StillRevoked(t[id], r') && StillInvalid(t[id], r', clock, now)
  {
  }

  lemma StepOldRow(s: Store, op: Op, now: Time, upper: string -> string, id: Id)
    requires Possible(s, op, now) && id in s.rows && id in Step(s, op, now, upper).rows
    ensures var r' := Step(s, op, now, upper).rows[id];
            StillRevoked(s.rows[id], r') && StillInvalid(s.rows[id], r', s.clock, now)
  {
    match op {
      case ApplyMerge(c, d, freshId) => MergeOldRow(s.rows, c, d, freshId, s.clock, now, id);
      case UpsertRelationship(c, latest, freshId) => UpsertOldRow(s.rows, c, latest, freshId, upper, s.clock, now, id);
      case RunLifecycle(policy) => LifecycleRow(s.rows, policy, now, id);
      case Importing(items) => Snapshots.ImportKeepsRows(s.rows, items);
      case _ =>
    }
  }

  /** The row of this id is still invalid and still revoked, as it was in s, or the id is gone. */
  ghost predicate SameFate(s: Store, s': Store, id: Id)
    requires id in s.rows
  {
    id in s'.rows ==>
      StillRevoked(s.rows[id], s'.rows[id]) && StillInvalid(s.rows[id], s'.rows[id], s.clock, s'.clock)
  }

  lemma {:induction false} FateHolds(s: Store, ops: seq<(Op, Time)>, upper: string -> string, id: Id)
    requires PossibleRun(s, ops, upper) && id in s.rows && id in s.known
    ensures SameFate(s, Run(s, ops, upper), id) || CameBack(s, ops, upper, id)
  {
    if ops != [] {
      var front, op, now := ops[..|ops| - 1], ops[|ops| - 1].0, ops[|ops| - 1].1;
      var before := Run(s, front, upper);
      FateHolds(s, front, upper, id);
      KnownForGood(s, front, upper, id);
      if id in Step(before, op, now, upper).rows {
        if id in before.rows {
          StepOldRow(before, op, now, upper, id);
        } else {
          StepBringsBack(before, op, now, upper, id);
        }
      }
    }
  }

  /**
   * Over any run, whatever is imported, a revoked row keeps its revocation or is gone, unless an import brings its id
   * back.
   */
  lemma RevokedForGood(past: seq<(Op, Time)>, ops: seq<(Op, Time)>, upper: string -> string, id: Id)
    requires PossibleRun(EMPTY, past, upper) && PossibleRun(Run(EMPTY, past, upper), ops, upper)
    requires id in Run(EMPTY, past, upper).rows && Run(EMPTY, past, upper).rows[id].revokedAt.Some?
    ensures var s := Run(EMPTY, past, upper);
            var s' := Run(s, ops, upper);
            id in s'.rows && s'.rows[id].revokedAt != s.rows[id].revokedAt ==> CameBack(s, ops, upper, id)
  {
    HistoryHolds(past, upper);
    FateHolds(Run(EMPTY, past, upper), ops, upper, id);
  }

  /**
   * Once replaced, a row is never active again, now or later, whether its successor is still there or purged: unless an
   * import brings its id back.
   */
  lemma OnlyNewestActive(past: seq<(Op, Time)>, ops: seq<(Op, Time)>, upper: string -> string, a: Id, b: Id, now: Time)
    requires LegitRun(EMPTY, past, upper) && PossibleRun(Run(EMPTY, past, upper), ops, upper)
    requires var s := Run(EMPTY, past, upper); a in s.rows && b in s.rows && a in s.rows[b].supersedes
    ensures var s := Run(EMPTY, past, upper);
            var s' := Run(s, ops, upper);
            a in s'.rows && now >= s'.clock && Active(s'.rows[a], now) ==> CameBack(s, ops, upper, a)
  {
    RunKeeps(past, upper);
    var s := Run(EMPTY, past, upper);
    SoleName(s.rows, s.clock, a, b);
    assert Agree(s.rows, a) && LinkSettled(s.rows, a, s.clock);
    FateHolds(s, ops, upper, a);
  }

  /** A revoked row gets no successor: no merge or upsert of the run replaces it. */
  lemma {:induction false} RevokedIsNotReplaced(s: Store, ops: seq<(Op, Time)>, upper: string -> string, id: Id, b: Id)
    requires PossibleRun(s, ops, upper) && id in s.rows && id in s.known && s.rows[id].revokedAt.Some?
    ensures (id, b) in Run(s, ops, upper).made ==> (id, b) in s.made || CameBack(s, ops, upper, id)
  {
    if ops != [] {
      var front, op, now := ops[..|ops| - 1], ops[|ops| - 1].0, ops[|ops| - 1].1;
      var before := Run(s, front, upper);
      RevokedIsNotReplaced(s, front, upper, id, b);
      FateHolds(s, front, upper, id);
      EffectOf(before, op, now, upper);
    }
  }
}
