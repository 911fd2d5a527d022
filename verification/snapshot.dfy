/** Snapshot import of memories: DatabaseSnapshotRepository.merge_memories of snapshot.py. */
module Snapshots {
  import opened Text
  import opened MemoryStore

  /** The content key the importer looks for before inserting. */
  predicate SameKey(r: Row, s: Row) {
    && r.scope == s.scope && r.subject == s.subject && r.conversation == s.conversation && r.privacy == s.privacy
    && r.kind == s.kind && r.content == s.content && r.invalidAt == s.invalidAt && r.revokedAt == s.revokedAt
  }

  predicate KeyPresent(t: Table, r: Row) {
    exists id | id in t :: SameKey(t[id], r)
  }

  /** Rows arrive without their successor link. */
  function Arriving(r: Row): Row {
    r.(invalidatedBy := None, lastAccessedAt := None)
  }

  /** The item is inserted: its content is new and its id is free. */
  predicate Enters(t: Table, item: Item) {
    !KeyPresent(t, item.row) && item.id !in t
  }

  function InsertAll(t: Table, items: seq<Item>): Table {
    if items == [] then t else
      var before := InsertAll(t, items[..|items| - 1]);
      var item := items[|items| - 1];
      if Enters(before, item) then before[item.id := Arriving(item.row)] else before
  }

  /** An UPDATE of invalidated_by; None is the violated check that it needs invalid_at. */
  function LinkOne(t: Table, item: Item, imported: set<Id>): Option<Table> {
    if item.id !in imported || item.row.invalidatedBy.None? || item.row.invalidatedBy.value !in t || item.id !in t
      then Some(t)
    else if t[item.id].invalidAt.None? then None
    else Some(t[item.id := t[item.id].(invalidatedBy := item.row.invalidatedBy)])
  }

  function LinkAll(t: Table, items: seq<Item>, imported: set<Id>): Option<Table> {
    if items == [] then Some(t)
    else match LinkAll(t, items[..|items| - 1], imported)
      case None => None
      case Some(before) => LinkOne(before, items[|items| - 1], imported)
  }

  /** The transaction: the new table and the number of rows inserted, or the old table and an error. */
  function Import(t: Table, items: seq<Item>): (Table, Option<nat>) {
    var inserted := InsertAll(t, items);
    match LinkAll(inserted, items, inserted.Keys - t.Keys)
    case None => (t, None)
    case Some(linked) => (linked, Some(|inserted.Keys - t.Keys|))
  }

  class DatabaseSnapshotRepository {
    var rows: Table

    constructor (rows: Table)
      ensures this.rows == rows
    {
      this.rows := rows;
    }

    method MergeMemories(items: seq<Item>) returns (inserted: Option<nat>)
      modifies this
      ensures (rows, inserted) == Import(old(rows), items)
    {
      var table, imported, count := InsertItems(rows, items);
      var linked := LinkItems(table, items, imported);
      if linked.None? { return None; }
      rows := linked.value;
      return Some(count);
    }
  }

  /** The first loop: insert what is new. */
  method InsertItems(t: Table, items: seq<Item>) returns (table: Table, imported: set<Id>, inserted: nat)
    ensures table == InsertAll(t, items) && imported == table.Keys - t.Keys && inserted == |imported|
  {
    table, imported, inserted := t, {}, 0;
    for i := 0 to |items|
      invariant table == InsertAll(t, items[..i])
      invariant forall id :: id in table <==> id in t || id in imported
      invariant forall id | id in imported :: id !in t
      invariant inserted == |imported|
    {
      var item := items[i];
      InsertStep(t, items, i);
      var entered;
      table, entered := InsertItem(table, item);
      if entered {
        imported, inserted := imported + {item.id}, inserted + 1;
      }
    }
    assert items[..|items|] == items;
    assert imported == table.Keys - t.Keys;
  }

  method InsertItem(t: Table, item: Item) returns (table: Table, entered: bool)
    ensures entered <==> Enters(t, item)
    ensures table == if entered then t[item.id := Arriving(item.row)] else t
  {
    if KeyPresent(t, item.row) { return t, false; }
    if item.id in t { return t, false; }
    return t[item.id := Arriving(item.row)], true;
  }

  /** The second loop: restore successor links of the inserted rows. */
  method LinkItems(t: Table, items: seq<Item>, imported: set<Id>) returns (table: Option<Table>)
    ensures table == LinkAll(t, items, imported)
  {
    table := Some(t);
    for i := 0 to |items|
      invariant table.Some? && LinkAll(t, items[..i], imported) == table
    {
      var item := items[i];
      assert items[..i + 1][..i] == items[..i];
      if item.id !in imported || item.row.invalidatedBy.None? { continue; }
      if item.id in table.value && item.row.invalidatedBy.value in table.value {
        if table.value[item.id].invalidAt.None? {
          LinkFails(t, items, imported, i + 1);
          return None;
        }
        table := Some(table.value[item.id := table.value[item.id].(invalidatedBy := item.row.invalidatedBy)]);
      }
    }
    assert items[..|items|] == items;
  }

  lemma InsertStep(t: Table, items: seq<Item>, i: nat)
    requires i < |items|
    ensures var before := InsertAll(t, items[..i]);
            InsertAll(t, items[..i + 1]) ==
            if Enters(before, items[i]) then before[items[i].id := Arriving(items[i].row)] else before
  {
    assert items[..i + 1][..i] == items[..i];
  }

  /** Once the check is violated the whole transaction fails. */
  lemma {:induction false} LinkFails(t: Table, items: seq<Item>, imported: set<Id>, i: nat)
    requires i <= |items| && LinkAll(t, items[..i], imported).None?
    ensures LinkAll(t, items, imported).None?
    decreases |items| - i
  {
    if i == |items| {
      assert items[..i] == items;
    } else {
      assert items[..i + 1][..i] == items[..i];
      LinkFails(t, items, imported, i + 1);
    }
  }

  // ------------------------------------------------------------ idempotence

  /** Same rows except for successor links. */
  ghost predicate SameButLinks(t: Table, t': Table) {
    t.Keys == t'.Keys && forall id | id in t :: t'[id] == t[id].(invalidatedBy := t'[id].invalidatedBy)
  }

  lemma {:induction false} InsertedRows(t: Table, items: seq<Item>, i: nat)
    requires i < |items|
    ensures var t' := InsertAll(t, items);
            && t.Keys <= t'.Keys && (forall id | id in t :: t'[id] == t[id])
            && !Enters(t', items[i])
  {
    var front, item := items[..|items| - 1], items[|items| - 1];
    var before, t' := InsertAll(t, front), InsertAll(t, items);
    if |items| == 1 {
      assert front == [];
    } else {
      InsertedRows(t, front, if i < |front| then i else 0);
    }
    if i < |front| {
      assert front[i] == items[i];
      if KeyPresent(before, items[i].row) {
        var id :| id in before && SameKey(before[id], items[i].row);
        assert id in t' && t'[id] == before[id];
      }
    }
  }

  lemma {:induction false} LinkedRows(t: Table, items: seq<Item>, imported: set<Id>)
    requires LinkAll(t, items, imported).Some?
    ensures SameButLinks(t, LinkAll(t, items, imported).value)
    ensures forall id | id in t && id !in imported :: LinkAll(t, items, imported).value[id] == t[id]
  {
    if items != [] { LinkedRows(t, items[..|items| - 1], imported); }
  }

  /** No import alters or drops a row that was there before. */
  lemma ImportKeepsRows(t: Table, items: seq<Item>)
    ensures var (t', n) := Import(t, items); t.Keys <= t'.Keys && forall id | id in t :: t'[id] == t[id]
  {
    var inserted := InsertAll(t, items);
    if items != [] { InsertedRows(t, items, 0); }
    if LinkAll(inserted, items, inserted.Keys - t.Keys).Some? { LinkedRows(inserted, items, inserted.Keys - t.Keys); }
  }

  lemma {:induction false} NothingEnters(t: Table, items: seq<Item>)
    requires forall i | 0 <= i < |items| :: !Enters(t, items[i])
    ensures InsertAll(t, items) == t && LinkAll(t, items, {}) == Some(t)
  {
    if items != [] { NothingEnters(t, items[..|items| - 1]); }
  }

  /** After a successful import every item is present by content or by id, and importing again changes nothing. */
  lemma ImportIsIdempotent(t: Table, items: seq<Item>)
    requires Import(t, items).1.Some?
    ensures var t' := Import(t, items).0; Import(t', items) == (t', Some(0))
    ensures var t' := Import(t, items).0;
            forall i | 0 <= i < |items| :: items[i].id in t' || KeyPresent(t', items[i].row)
  {
    var inserted, t' := InsertAll(t, items), Import(t, items).0;
    LinkedRows(inserted, items, inserted.Keys - t.Keys);
    forall i | 0 <= i < |items| ensures !Enters(t', items[i]) {
      InsertedRows(t, items, i);
      if KeyPresent(inserted, items[i].row) {
        var id :| id in inserted && SameKey(inserted[id], items[i].row);
        assert SameKey(t'[id], items[i].row);
      }
    }
    NothingEnters(t', items);
    assert t'.Keys - t'.Keys == {};
  }

  // ------------------------------------------------------------ links of imported rows

  lemma {:induction false} InsertedFrom(t: Table, items: seq<Item>, id: Id)
    requires id in InsertAll(t, items) && id !in t
    ensures exists i | 0 <= i < |items| :: items[i].id == id && InsertAll(t, items)[id] == Arriving(items[i].row)
  {
    var front := items[..|items| - 1];
    if id in InsertAll(t, front) {
      InsertedFrom(t, front, id);
      var i :| 0 <= i < |front| && front[i].id == id && InsertAll(t, front)[id] == Arriving(front[i].row);
      assert items[i] == front[i];
    } else {
      assert items[|items| - 1].id == id;
    }
  }

  lemma {:induction false} LinkedTo(t: Table, items: seq<Item>, imported: set<Id>, i: nat)
    requires i < |items| && items[i].id in imported && items[i].id in t && t[items[i].id].invalidatedBy.None?
    requires forall j, k | 0 <= j < k < |items| :: items[j].id != items[k].id
    requires LinkAll(t, items, imported).Some?
    ensures items[i].id in LinkAll(t, items, imported).value
    ensures var target := items[i].row.invalidatedBy;
            LinkAll(t, items, imported).value[items[i].id].invalidatedBy
            == if target.Some? && target.value in t then target else None
  {
    var front := items[..|items| - 1];
    LinkedRows(t, front, imported);
    if i < |front| {
      LinkedTo(t, front, imported, i);
    } else {
      NotLinked(t, front, imported, items[i].id);
    }
  }

  lemma {:induction false} NotLinked(t: Table, items: seq<Item>, imported: set<Id>, id: Id)
    requires id in t && LinkAll(t, items, imported).Some? && forall i | 0 <= i < |items| :: items[i].id != id
    ensures id in LinkAll(t, items, imported).value && LinkAll(t, items, imported).value[id] == t[id]
  {
    if items != [] {
      LinkedRows(t, items[..|items| - 1], imported);
      NotLinked(t, items[..|items| - 1], imported, id);
    }
  }

  /** With distinct ids an inserted row is its item; its link survives exactly when the successor exists afterwards. */
  lemma ImportedRow(t: Table, items: seq<Item>, id: Id)
    requires forall j, k | 0 <= j < k < |items| :: items[j].id != items[k].id
    requires Import(t, items).1.Some? && id in Import(t, items).0 && id !in t
    ensures var t' := Import(t, items).0;
            exists i | 0 <= i < |items| ::
              && items[i].id == id
              && var successor := items[i].row.invalidatedBy;
                 t'[id] == items[i].row.(lastAccessedAt := None,
                                         invalidatedBy := if successor.Some? && successor.value in t' then successor
                                                          else None)
  {
    var inserted, t' := InsertAll(t, items), Import(t, items).0;
    LinkedRows(inserted, items, inserted.Keys - t.Keys);
    InsertedFrom(t, items, id);
    var i :| 0 <= i < |items| && items[i].id == id && inserted[id] == Arriving(items[i].row);
    LinkedTo(inserted, items, inserted.Keys - t.Keys, i);
  }
}
