/** Runs from the empty table after which the version chains of the memory table are broken, or a purged row is back. */
module MemoryCounterexamples {
  import opened Text
  import opened MemoryStore
  import opened MemoryLinks
  import opened MemoryImports
  import opened MemoryChains
  import opened Snapshots

  /** A candidate as the callers build it: in its scope, without links, invalidity or revocation. */
  ghost predicate Plain(r: Row) {
    Scoped(r) && r.supersedes == [] && r.invalidatedBy.None? && r.invalidAt.None? && r.revokedAt.None?
  }

  ghost predicate Fresh(r: Row) {
    r.invalidAt.None? && r.invalidatedBy.None? && r.revokedAt.None?
  }

  lemma RunSnoc(s: Store, ops: seq<(Op, Time)>, op: Op, now: Time, upper: string -> string)
    ensures Run(s, ops + [(op, now)], upper) == Step(Run(s, ops, upper), op, now, upper)
    ensures PossibleRun(s, ops, upper) && Possible(Run(s, ops, upper), op, now) ==>
            PossibleRun(s, ops + [(op, now)], upper)
    ensures LegitRun(s, ops, upper) && Possible(Run(s, ops, upper), op, now)
            && Honest(Run(s, ops, upper), op, now, upper)
            ==> LegitRun(s, ops + [(op, now)], upper)
  {
    assert (ops + [(op, now)])[..|ops|] == ops;
  }

  lemma StepRows(s: Store, op: Op, now: Time, upper: string -> string, t': Table)
    requires t' == Effect(s.rows, op, now, upper).0
    ensures Step(s, op, now, upper).rows == t' && Step(s, op, now, upper).clock == now
    ensures s.known <= Step(s, op, now, upper).known
  {
  }

  /** One more step of a run, with the table it leads to. */
  lemma Continue(ops: seq<(Op, Time)>, op: Op, now: Time, upper: string -> string, t': Table) returns (s: Store)
    requires PossibleRun(EMPTY, ops, upper) && Possible(Run(EMPTY, ops, upper), op, now)
    requires t' == Effect(Run(EMPTY, ops, upper).rows, op, now, upper).0
    ensures PossibleRun(EMPTY, ops + [(op, now)], upper) && s == Run(EMPTY, ops + [(op, now)], upper)
    ensures LegitRun(EMPTY, ops, upper) && Honest(Run(EMPTY, ops, upper), op, now, upper) ==>
            LegitRun(EMPTY, ops + [(op, now)], upper)
    ensures s.rows == t' && s.clock == now && Run(EMPTY, ops, upper).known <= s.known
  {
    RunSnoc(EMPTY, ops, op, now, upper);
    StepRows(Run(EMPTY, ops, upper), op, now, upper, t');
    s := Run(EMPTY, ops + [(op, now)], upper);
  }

  /** A plain candidate stored in the empty table. */
  lemma FirstAdd(c: Item, upper: string -> string) returns (s: Store)
    requires Plain(c.row)
    ensures LegitRun(EMPTY, [(Add(c), 0)], upper) && s == Run(EMPTY, [(Add(c), 0)], upper)
    ensures PossibleRun(EMPTY, [(Add(c), 0)], upper)
    ensures s.rows == map[c.id := Stamped(c.row, 0)] && s.clock == 0 && s.known == {c.id}
  {
    assert [] + [(Add(c), 0)] == [(Add(c), 0)];
    RunSnoc(EMPTY, [], Add(c), 0, upper);
    s := Run(EMPTY, [(Add(c), 0)], upper);
    assert Mentions(s.rows) == {};
  }

  /** A second plain row replaces the first. */
  lemma OnlyName(a: Id)
    ensures Unique([] + [a]) == [a]
  {
    assert [] + [a] == [a];
    UniqueOnly([], a);
  }

  // ------------------------------------------------------------ restoring a newer backup into an older copy

  /** The rows a default export holds: neither invalid nor revoked. */
  ghost predicate ExportsActive(items: seq<Item>, t: Table) {
    && DistinctIds(items)
    && (forall i | 0 <= i < |items| ::
          items[i].id in t && items[i].row == t[items[i].id] && items[i].row.invalidAt.None?
            && items[i].row.revokedAt.None?)
    && (forall id {:trigger Listed(items, id)} | id in t && t[id].invalidAt.None? && t[id].revokedAt.None? ::
       Listed(items, id))
  }

  /** Two active versions of which one replaced the other, without the old one knowing. */
  ghost predicate Forked(t: Table, a: Id, b: Id) {
    && a in t && Names(t, b, a) && t[a].invalidatedBy.None?
    && t[a].revokedAt.None? && t[a].invalidAt.None? && t[b].revokedAt.None? && t[b].invalidAt.None?
  }

  /** An update of the row c by a candidate like it with other content. */
  function Replacing(c: Item, id: Id, content: string, f: Id): Op {
    ApplyMerge(Item(id, c.row), Decision(UPDATE, Some(c.id), Some(content), None, None), f)
  }

  lemma ReplacingEffect(s: Store, c: Item, id: Id, content: string, f: Id, upper: string -> string) returns (t': Table)
    requires Plain(c.row) && c.id != f && c.id != id && id != f
    requires s.rows == map[c.id := Stamped(c.row, 0)] && s.clock == 0 && s.known == {c.id}
    ensures Possible(s, Replacing(c, id, content, f), 1) && Honest(s, Replacing(c, id, content, f), 1, upper)
    ensures t' == Effect(s.rows, Replacing(c, id, content, f), 1, upper).0
    ensures t'.Keys == {c.id, f} && t'[c.id].invalidAt.Some?
    ensures Fresh(t'[f]) && t'[f].supersedes == [c.id] && t'[f].content == content
  {
    OnlyName(c.id);
    t' := Effect(s.rows, Replacing(c, id, content, f), 1, upper).0;
  }

  lemma NewerRows(c: Item, id: Id, content: string, f: Id, upper: string -> string) returns (older: Table, newer: Table)
    requires Plain(c.row) && c.id != f && c.id != id && id != f
    ensures var ops := [(Add(c), 0)];
            && LegitRun(EMPTY, ops, upper) && older == Run(EMPTY, ops, upper).rows
            && LegitRun(EMPTY, ops + [(Replacing(c, id, content, f), 1)], upper)
            && newer == Run(EMPTY, ops + [(Replacing(c, id, content, f), 1)], upper).rows
    ensures older.Keys == {c.id} && Fresh(older[c.id]) && older[c.id].content == c.row.content
    ensures newer.Keys == {c.id, f} && newer[c.id].invalidAt.Some?
    ensures Fresh(newer[f]) && newer[f].supersedes == [c.id] && newer[f].content == content
  {
    var s := FirstAdd(c, upper);
    newer := ReplacingEffect(s, c, id, content, f, upper);
    var s' := Continue([(Add(c), 0)], Replacing(c, id, content, f), 1, upper, newer);
    older := s.rows;
  }

  /** Importing one row with an id and content of its own. */
  lemma ImportOne(t: Table, item: Item)
    requires item.id !in t && !KeyPresent(t, item.row) && item.row.invalidatedBy.None?
    ensures Import(t, [item]) == (t[item.id := Arriving(item.row)], Some(1))
  {
    var items, t' := [item], t[item.id := Arriving(item.row)];
    assert items[..0] == [];
    assert InsertAll(t, []) == t;
    assert InsertAll(t, items) == t';
    assert t'.Keys - t.Keys == {item.id};
    assert LinkAll(t', [], {item.id}) == Some(t');
  }

  /** Importing it behind another whose id is taken. */
  lemma ImportTwo(t: Table, first: Item, second: Item)
    requires first.id in t && first.id != second.id && second.id !in t && second.row.invalidatedBy.None?
    requires !KeyPresent(t, second.row)
    ensures Import(t, [first, second]) == (t[second.id := Arriving(second.row)], Some(1))
  {
    var items, t' := [first, second], t[second.id := Arriving(second.row)];
    assert items[..1] == [first] && [first][..0] == [];
    assert InsertAll(t, []) == t;
    assert InsertAll(t, [first]) == t;
    assert InsertAll(t, items) == t';
    assert t'.Keys - t.Keys == {second.id};
    assert LinkAll(t', [], {second.id}) == Some(t');
    assert LinkAll(t', [first], {second.id}) == Some(t');
  }

  /** A new active row that names an active one which was there before. */
  lemma ForkOf(t: Table, a: Id, f: Id, r: Row, clock: Time)
    requires a in t && f !in t && Fresh(t[a]) && Fresh(r) && r.supersedes == [a]
    ensures Forked(t[f := Arriving(r)], a, f) && !Fits(t, t[f := Arriving(r)], clock)
  {
    var t' := t[f := Arriving(r)];
    assert Names(t', f, a);
    assert !Detached(t, t', f);
    assert !FitsIn(t, t', clock, f);
  }

  lemma ContentsDiffer(t: Table, a: Id, r: Row)
    requires t.Keys == {a} && t[a].content != r.content
    ensures !KeyPresent(t, r)
  {
  }

  lemma ActiveOnly(t: Table, a: Id, f: Id)
    requires t.Keys == {a, f} && t[a].invalidAt.Some? && Fresh(t[f])
    ensures ExportsActive([Item(f, t[f])], t)
  {
    var items := [Item(f, t[f])];
    assert items[0].id == f;
  }

  lemma BothRows(t: Table, a: Id, f: Id)
    requires t.Keys == {a, f} && a != f
    ensures Exports([Item(a, t[a]), Item(f, t[f])], t)
  {
    var items := [Item(a, t[a]), Item(f, t[f])];
    assert items[0].id == a && items[1].id == f;
  }

  lemma ActiveImportForks(t: Table, newer: Table, a: Id, f: Id) returns (items: seq<Item>)
    requires t.Keys == {a} && newer.Keys == {a, f} && a != f && Fresh(t[a]) && Fresh(newer[f])
    requires newer[a].invalidAt.Some?
    requires newer[f].supersedes == [a] && newer[f].content != t[a].content
    ensures ExportsActive(items, newer) && Import(t, items).1 == Some(1)
    ensures Forked(Import(t, items).0, a, f) && !Fits(t, Import(t, items).0, 1)
  {
    items := [Item(f, newer[f])];
    ActiveOnly(newer, a, f);
    ContentsDiffer(t, a, newer[f]);
    ImportOne(t, Item(f, newer[f]));
    ForkOf(t, a, f, newer[f], 1);
  }

  lemma FullImportForks(t: Table, newer: Table, a: Id, f: Id) returns (items: seq<Item>)
    requires t.Keys == {a} && newer.Keys == {a, f} && a != f && Fresh(t[a]) && Fresh(newer[f])
    requires newer[f].supersedes == [a] && newer[f].content != t[a].content
    ensures Exports(items, newer) && Import(t, items).1 == Some(1)
    ensures Forked(Import(t, items).0, a, f) && !Fits(t, Import(t, items).0, 1)
  {
    items := [Item(a, newer[a]), Item(f, newer[f])];
    BothRows(newer, a, f);
    ContentsDiffer(t, a, newer[f]);
    ImportTwo(t, Item(a, newer[a]), Item(f, newer[f]));
    ForkOf(t, a, f, newer[f], 1);
  }

  /**
   * A version replaced after a copy was made: importing the newer table's default export into the copy leaves both
   * versions active, and so does its full export, because the old version's id is taken.
   */
  lemma NewerBackupForks(c: Item, id: Id, content: string, f: Id, upper: string -> string)
    returns (older: Table, newer: Table, active: seq<Item>, full: seq<Item>)
    requires Plain(c.row) && c.id != f && c.id != id && id != f && content != c.row.content
    ensures var ops := [(Add(c), 0)];
            && LegitRun(EMPTY, ops, upper) && older == Run(EMPTY, ops, upper).rows
            && LegitRun(EMPTY, ops + [(Replacing(c, id, content, f), 1)], upper)
            && newer == Run(EMPTY, ops + [(Replacing(c, id, content, f), 1)], upper).rows
    ensures ExportsActive(active, newer) && Import(older, active).1 == Some(1)
    ensures Forked(Import(older, active).0, c.id, f)
    ensures Exports(full, newer) && Import(older, full).1 == Some(1) && Forked(Import(older, full).0, c.id, f)
    ensures !Fits(older, Import(older, active).0, 1) && !Fits(older, Import(older, full).0, 1)
  {
    older, newer := NewerRows(c, id, content, f, upper);
    active := ActiveImportForks(older, newer, c.id, f);
    full := FullImportForks(older, newer, c.id, f);
  }

  // ------------------------------------------------------------ a forgotten row comes back

  lemma AloneFits(t: Table, id: Id, clock: Time)
    requires t.Keys == {id} && Single(t[id]) && t[id].supersedes == [] && t[id].invalidatedBy.None?
    ensures Fits(map[], t, clock)
  {
    assert forall b: Id :: !Names(t, b, id);
    assert FitsIn(map[], t, clock, id);
    assert Ranked(t, {id}, map[id := 0]);
    var none: Table := map[];
    assert t.Keys - none.Keys == {id};
  }

  lemma RevokingEffect(s: Store, id: Id, upper: string -> string)
    requires id in s.rows && s.rows[id].revokedAt.None? && s.clock == 0
    ensures Possible(s, RevokeOne(id), 0) && Honest(s, RevokeOne(id), 0, upper)
    ensures s.rows[id := Revoke(s.rows[id], 0, "operator")] == Effect(s.rows, RevokeOne(id), 0, upper).0
  {
  }

  lemma StoredAndRevoked(c: Item, upper: string -> string) returns (s: Store)
    requires Plain(c.row)
    ensures var two := [(Add(c), 0)] + [(RevokeOne(c.id), 0)];
            PossibleRun(EMPTY, two, upper) && LegitRun(EMPTY, two, upper) && s == Run(EMPTY, two, upper)
    ensures s.rows.Keys == {c.id} && s.rows[c.id].revokedAt == Some(0) && s.clock == 0 && c.id in s.known
  {
    var first := FirstAdd(c, upper);
    RevokingEffect(first, c.id, upper);
    s := Continue([(Add(c), 0)], RevokeOne(c.id), 0, upper,
                  first.rows[c.id := Revoke(first.rows[c.id], 0, "operator")]);
  }

  lemma EmptyOnce(t: Table, policy: Policy, now: Time)
    requires forall id | id in t :: Purged(t[id], policy, now)
    ensures Lifecycle(t, policy, now) == map[]
  {
    forall id ensures id !in Lifecycle(t, policy, now) { LifecycleKeys(t, policy, now, id); }
  }

  lemma PurgingEffect(s: Store, policy: Policy, now: Time, upper: string -> string)
    requires now >= s.clock && forall id | id in s.rows :: Purged(s.rows[id], policy, now)
    ensures Possible(s, RunLifecycle(policy), now) && Honest(s, RunLifecycle(policy), now, upper)
    ensures map[] == Effect(s.rows, RunLifecycle(policy), now, upper).0
  {
    EmptyOnce(s.rows, policy, now);
  }

  lemma StoredAndPurged(c: Item, policy: Policy, upper: string -> string) returns (ops: seq<(Op, Time)>, s: Store)
    requires Plain(c.row) && policy.retentionDays >= 0
    ensures |ops| == 3 && ops[0].0 == Add(c) && ops[1].0 == RevokeOne(c.id) && ops[2].1 == s.clock
    ensures PossibleRun(EMPTY, ops, upper) && LegitRun(EMPTY, ops, upper) && s == Run(EMPTY, ops, upper)
    ensures s.rows == map[] && c.id in s.known
  {
    var now := policy.retentionDays * DAY;
    var revoked := StoredAndRevoked(c, upper);
    PurgingEffect(revoked, policy, now, upper);
    var two := [(Add(c), 0)] + [(RevokeOne(c.id), 0)];
    ops := two + [(RunLifecycle(policy), now)];
    s := Continue(two, RunLifecycle(policy), now, upper, map[]);
  }

  lemma AloneRestored(c: Item, clock: Time)
    requires Plain(c.row)
    ensures Import(map[], [c]).0 == map[c.id := Arriving(c.row)] && Fits(map[], Import(map[], [c]).0, clock)
  {
    ImportOne(map[], c);
    AloneFits(map[c.id := Arriving(c.row)], c.id, clock);
  }

  lemma ImportingEffect(s: Store, items: seq<Item>, now: Time, t': Table, upper: string -> string)
    requires now >= s.clock && t' == Import(s.rows, items).0 && Fits(s.rows, t', now)
    ensures Possible(s, Importing(items), now) && Honest(s, Importing(items), now, upper)
    ensures t' == Effect(s.rows, Importing(items), now, upper).0
  {
  }

  /** Stored, revoked and purged, a row is back unrevoked after the import of a backup made before. */
  lemma ForgottenComesBack(c: Item, policy: Policy, upper: string -> string)
    returns (ops: seq<(Op, Time)>, restored: seq<(Op, Time)>)
    requires Plain(c.row) && policy.retentionDays >= 0
    ensures |ops| == 3 && ops[0].0 == Add(c) && ops[1].0 == RevokeOne(c.id)
    ensures restored == ops + [(Importing([c]), ops[2].1)]
    ensures LegitRun(EMPTY, ops, upper) && Run(EMPTY, ops, upper).rows == map[]
    ensures LegitRun(EMPTY, restored, upper) && Run(EMPTY, restored, upper).rows == map[c.id := Arriving(c.row)]
  {
    var s;
    ops, s := StoredAndPurged(c, policy, upper);
    AloneRestored(c, s.clock);
    ImportingEffect(s, [c], s.clock, map[c.id := Arriving(c.row)], upper);
    var s' := Continue(ops, Importing([c]), s.clock, upper, map[c.id := Arriving(c.row)]);
    restored := ops + [(Importing([c]), ops[2].1)];
  }

  // ------------------------------------------------------------ links across privacy, and links callers do not make

  lemma FirstUpsertStep(c: Item, g: Id, upper: string -> string)
    requires Plain(c.row) && c.row.scope == SUBJECT && upper(c.row.kind) == "RELATIONSHIP" && c.row.score.Some?
    requires g != c.id
    ensures Possible(EMPTY, UpsertRelationship(c, None, g), 0)
    ensures Honest(EMPTY, UpsertRelationship(c, None, g), 0, upper)
    ensures var s := Step(EMPTY, UpsertRelationship(c, None, g), 0, upper);
            s.rows == map[c.id := Stamped(Unembedded(c.row), 0)] && s.clock == 0 && s.known == {c.id}
  {
    assert Mentions(Step(EMPTY, UpsertRelationship(c, None, g), 0, upper).rows) == {};
  }

  lemma FirstUpsert(c: Item, g: Id, upper: string -> string) returns (s: Store)
    requires Plain(c.row) && c.row.scope == SUBJECT && upper(c.row.kind) == "RELATIONSHIP" && c.row.score.Some?
    requires g != c.id
    ensures LegitRun(EMPTY, [(UpsertRelationship(c, None, g), 0)], upper)
    ensures s == Run(EMPTY, [(UpsertRelationship(c, None, g), 0)], upper)
    ensures s.rows == map[c.id := Stamped(Unembedded(c.row), 0)] && s.clock == 0 && s.known == {c.id}
  {
    var first := UpsertRelationship(c, None, g);
    assert [] + [(first, 0)] == [(first, 0)];
    RunSnoc(EMPTY, [], first, 0, upper);
    FirstUpsertStep(c, g, upper);
    s := Step(EMPTY, first, 0, upper);
  }

  /**
   * Two relationship items of one subject with different privacy: the second replaces the first across the boundary.
   */
  lemma UpsertCrossesPrivacy(c: Item, g: Id, id: Id, privacy: Privacy, f: Id, upper: string -> string)
    returns (ops: seq<(Op, Time)>, s: Store)
    requires Plain(c.row) && c.row.scope == SUBJECT && c.row.kind == "RELATIONSHIP" && c.row.score.Some?
    requires upper("RELATIONSHIP") == "RELATIONSHIP" && privacy != c.row.privacy
    requires c.id != g && c.id != id && c.id != f && id != f
    ensures LegitRun(EMPTY, ops, upper) && s == Run(EMPTY, ops, upper)
    ensures c.id in s.rows && Names(s.rows, f, c.id) && s.rows[c.id].invalidatedBy == Some(f)
    ensures s.rows[c.id].privacy == c.row.privacy && s.rows[f].privacy == privacy
  {
    var s1 := FirstUpsert(c, g, upper);
    var second := UpsertRelationship(Item(id, c.row.(privacy := privacy)), Some(c.id), f);
    OnlyName(c.id);
    RunSnoc(EMPTY, [(UpsertRelationship(c, None, g), 0)], second, 1, upper);
    ops := [(UpsertRelationship(c, None, g), 0)] + [(second, 1)];
    s := Step(s1, second, 1, upper);
  }

  lemma AddingEffect(s: Store, c: Item, upper: string -> string)
    requires Plain(c.row) && c.id !in s.known && c.id !in s.rows && s.clock == 0
    ensures Possible(s, Add(c), 0) && s.rows[c.id := Stamped(c.row, 0)] == Effect(s.rows, Add(c), 0, upper).0
  {
  }

  lemma TwoAdds(c: Item, other: Item, upper: string -> string) returns (s: Store)
    requires Plain(c.row) && Plain(other.row) && c.id != other.id
    ensures PossibleRun(EMPTY, [(Add(c), 0)] + [(Add(other), 0)], upper)
    ensures s == Run(EMPTY, [(Add(c), 0)] + [(Add(other), 0)], upper)
    ensures s.rows == map[c.id := Stamped(c.row, 0)][other.id := Stamped(other.row, 0)]
    ensures s.clock == 0 && s.known == {c.id, other.id}
  {
    var first := FirstAdd(c, upper);
    AddingEffect(first, other, upper);
    s := Continue([(Add(c), 0)], Add(other), 0, upper, first.rows[other.id := Stamped(other.row, 0)]);
    RunSnoc(EMPTY, [(Add(c), 0)], Add(other), 0, upper);
    assert Mentions(s.rows) == {};
  }

  lemma MergeNaming(t: Table, c: Item, d: Decision, f: Id, now: Time, a: Id, x: Id)
    requires d.operation == UPDATE && d.target == Some(a) && Targetable(t, c, a, now) && f !in t
    requires c.row.supersedes == [x] && c.row.invalidatedBy.None? && x in t && x != a && Fresh(t[x])
    ensures var t' := Merge(t, c, d, f, now).0;
            && f in t' && t'[f].supersedes == [x, a] && x in t' && Fresh(t'[x]) && !Chained(t', now)
  {
    TwoNames(x, a);
    assert !Single(Merge(t, c, d, f, now).0[f]);
  }

  lemma NamingEffect(s: Store, c: Item, d: Decision, f: Id, a: Id, x: Id, upper: string -> string) returns (t': Table)
    requires d.operation == UPDATE && d.target == Some(a) && d.content.Some? && Targetable(s.rows, c, a, 1)
    requires s.clock == 0
    requires c.row.supersedes == [x] && c.row.invalidatedBy.None? && Scoped(c.row) && x in s.rows && x != a
    requires Fresh(s.rows[x])
    requires f !in s.known && f !in s.rows && f != x && c.id !in s.known && c.id != x
    ensures Possible(s, ApplyMerge(c, d, f), 1) && t' == Effect(s.rows, ApplyMerge(c, d, f), 1, upper).0
    ensures f in t' && t'[f].supersedes == [x, a] && x in t' && Fresh(t'[x]) && !Chained(t', 1)
  {
    MergeNaming(s.rows, c, d, f, 1, a, x);
    t' := Merge(s.rows, c, d, f, 1).0;
  }

  /** A candidate that names a row of its own: that row stays active under its successor, which has two predecessors. */
  lemma ForeignLinkForks(c: Item, other: Item, id: Id, content: string, f: Id, upper: string -> string)
    returns (ops: seq<(Op, Time)>, t: Table)
    requires Plain(c.row) && Plain(other.row)
    requires c.id != other.id && c.id != f && other.id != f && id != c.id && id != other.id && id != f
    ensures PossibleRun(EMPTY, ops, upper) && t == Run(EMPTY, ops, upper).rows && !Chained(t, 1)
    ensures f in t && t[f].supersedes == [other.id, c.id] && other.id in t && Fresh(t[other.id])
  {
    var s := TwoAdds(c, other, upper);
    var naming := Item(id, c.row.(supersedes := [other.id]));
    var d := Decision(UPDATE, Some(c.id), Some(content), None, None);
    var two := [(Add(c), 0)] + [(Add(other), 0)];
    t := NamingEffect(s, naming, d, f, c.id, other.id, upper);
    var s' := Continue(two, ApplyMerge(naming, d, f), 1, upper, t);
    ops := two + [(ApplyMerge(naming, d, f), 1)];
  }

  lemma TwoNames(x: Id, a: Id)
    requires x != a
    ensures Unique([x] + [a]) == [x, a]
  {
    var both := [x] + [a];
    assert both[..1] == [x] && [x][..0] == [];
    assert Unique([x]) == [x];
  }
}
