/** What a snapshot import does to the version chains and to purged rows. */
module MemoryImports {
  import opened Text
  import opened MemoryStore
  import opened MemoryLinks
  import opened Snapshots

  /** An import that succeeds adds rows and changes none; it keeps the chains exactly when every new row fits in. */
  lemma ImportIff(t: Table, items: seq<Item>, clock: Time, now: Time)
    requires Chained(t, clock) && clock <= now
    ensures Chained(Import(t, items).0, now) <==> Fits(t, Import(t, items).0, now)
  {
    ImportKeepsRows(t, items);
    GrowthIff(t, Import(t, items).0, clock, now);
  }

  // ------------------------------------------------------------ the same condition, read off the file

  ghost predicate DistinctIds(items: seq<Item>) {
    forall j, k | 0 <= j < k < |items| :: items[j].id != items[k].id
  }

  /** Item i is inserted. */
  predicate Arrives(t: Table, items: seq<Item>, i: nat)
    requires i < |items|
  {
    items[i].id !in t && items[i].id in InsertAll(t, items)
  }

  /** Its successor link, if the successor is there afterwards. */
  function KeptLink(t: Table, items: seq<Item>, i: nat): Option<Id>
    requires i < |items|
  {
    var b := items[i].row.invalidatedBy;
    if b.Some? && b.value in InsertAll(t, items) then b else None
  }

  /** An inserted item with id b names n as its predecessor. */
  ghost predicate NamedByItem(t: Table, items: seq<Item>, b: Id, n: Id) {
    exists j: nat | j < |items| :: Arrives(t, items, j) && items[j].id == b && Predecessor(items[j].row) == Some(n)
  }

  /** The predecessor is no row that is there already, and nobody else names it. */
  ghost predicate PredecessorFree(t: Table, items: seq<Item>, i: nat)
    requires i < |items|
  {
    forall a: Id | Predecessor(items[i].row) == Some(a) ::
      a !in t && forall b: Id :: !Names(t, b, a) && (NamedByItem(t, items, b, a) ==> b == items[i].id)
  }

  /** The link leads exactly to the row or item that names this one. */
  ghost predicate LinkMatches(t: Table, items: seq<Item>, i: nat)
    requires i < |items|
  {
    forall b: Id :: KeptLink(t, items, i) == Some(b) <==>
      Names(t, b, items[i].id) || NamedByItem(t, items, b, items[i].id)
  }

  /** A linked item has been invalid since some past moment and stands where its successor stands. */
  ghost predicate LinkInPlace(t: Table, items: seq<Item>, now: Time, i: nat)
    requires i < |items|
  {
    var r, link := items[i].row, KeptLink(t, items, i);
    && (link.Some? && link.value in t ==> Settled(r, t[link.value], now))
    && forall j: nat | j < |items| && Arrives(t, items, j) && link == Some(items[j].id) :: Settled(r, items[j].row, now)
  }

  ghost predicate ItemFits(t: Table, items: seq<Item>, now: Time, i: nat)
    requires i < |items|
  {
    && Single(items[i].row) && PredecessorFree(t, items, i)
    && LinkMatches(t, items, i) && LinkInPlace(t, items, now, i)
  }

  ghost predicate RankedItems(t: Table, items: seq<Item>, rank: map<Id, int>) {
    forall i: nat, j: nat {:trigger Arrives(t, items, i), Arrives(t, items, j)} | i < |items| && j < |items| ::
      Arrives(t, items, i) && Arrives(t, items, j) && Predecessor(items[j].row) == Some(items[i].id) ==>
        items[i].id in rank && items[j].id in rank && rank[items[i].id] < rank[items[j].id]
  }

  ghost predicate FileFits(t: Table, items: seq<Item>, now: Time) {
    && (forall i: nat | i < |items| && Arrives(t, items, i) :: ItemFits(t, items, now, i))
    && exists rank :: RankedItems(t, items, rank)
  }

  lemma ImportedKeys(t: Table, items: seq<Item>)
    requires Import(t, items).1.Some?
    ensures Import(t, items).0.Keys == InsertAll(t, items).Keys
  {
    LinkedRows(InsertAll(t, items), items, InsertAll(t, items).Keys - t.Keys);
  }

  lemma ArrivedRow(t: Table, items: seq<Item>, i: nat)
    requires DistinctIds(items) && Import(t, items).1.Some? && i < |items| && Arrives(t, items, i)
    ensures items[i].id in Import(t, items).0
    ensures Import(t, items).0[items[i].id]
            == items[i].row.(lastAccessedAt := None, invalidatedBy := KeptLink(t, items, i))
  {
    ImportedKeys(t, items);
    ImportedRow(t, items, items[i].id);
    var t' := Import(t, items).0;
    var j :| 0 <= j < |items| && items[j].id == items[i].id
      && t'[items[i].id] == items[j].row.(lastAccessedAt := None,
           invalidatedBy := if items[j].row.invalidatedBy.Some? && items[j].row.invalidatedBy.value in t'
                            then items[j].row.invalidatedBy else None);
    assert i == j;
  }

  lemma ArrivedFrom(t: Table, items: seq<Item>, n: Id) returns (i: nat)
    requires Import(t, items).1.Some? && n in Import(t, items).0 && n !in t
    ensures i < |items| && items[i].id == n && Arrives(t, items, i)
  {
    ImportedKeys(t, items);
    InsertedFrom(t, items, n);
    i :| i < |items| && items[i].id == n;
  }

  lemma NamedAfter(t: Table, items: seq<Item>, b: Id, a: Id)
    requires DistinctIds(items) && Import(t, items).1.Some?
    ensures Names(Import(t, items).0, b, a) <==> Names(t, b, a) || NamedByItem(t, items, b, a)
  {
    var t' := Import(t, items).0;
    ImportKeepsRows(t, items);
    if Names(t', b, a) && b !in t {
      var j := ArrivedFrom(t, items, b);
      ArrivedRow(t, items, j);
    }
    if NamedByItem(t, items, b, a) {
      var j: nat :| j < |items| && Arrives(t, items, j) && items[j].id == b && Predecessor(items[j].row) == Some(a);
      ArrivedRow(t, items, j);
    }
  }

  lemma PredecessorIff(t: Table, items: seq<Item>, i: nat)
    requires DistinctIds(items) && Import(t, items).1.Some? && i < |items| && Arrives(t, items, i)
    ensures Detached(t, Import(t, items).0, items[i].id) <==> PredecessorFree(t, items, i)
  {
    var t', n := Import(t, items).0, items[i].id;
    ArrivedRow(t, items, i);
    forall a: Id ensures Names(t', n, a) <==> Predecessor(items[i].row) == Some(a) {}
    forall b: Id, a: Id
      ensures Names(t', b, a) <==> Names(t, b, a) || NamedByItem(t, items, b, a)
    {
      NamedAfter(t, items, b, a);
    }
    assert forall a: Id :: !Names(t, n, a);
  }

  lemma AgreeIff(t: Table, items: seq<Item>, i: nat)
    requires DistinctIds(items) && Import(t, items).1.Some? && i < |items| && Arrives(t, items, i)
    requires items[i].id in Import(t, items).0
    ensures Agree(Import(t, items).0, items[i].id) <==> LinkMatches(t, items, i)
  {
    ArrivedRow(t, items, i);
    forall b: Id { NamedAfter(t, items, b, items[i].id); }
  }

  lemma LinkSettledIff(t: Table, items: seq<Item>, now: Time, i: nat)
    requires DistinctIds(items) && Import(t, items).1.Some? && i < |items| && Arrives(t, items, i)
    requires items[i].id in Import(t, items).0
    ensures var link := KeptLink(t, items, i);
            LinkSettled(Import(t, items).0, items[i].id, now) <==> LinkInPlace(t, items, now, i)
  {
    var t', link := Import(t, items).0, KeptLink(t, items, i);
    ImportKeepsRows(t, items);
    ImportedKeys(t, items);
    ArrivedRow(t, items, i);
    forall j: nat | j < |items| && Arrives(t, items, j) && link == Some(items[j].id)
      ensures Settled(items[i].row, items[j].row, now) <==> Settled(t'[items[i].id], t'[items[j].id], now)
    {
      ArrivedRow(t, items, j);
    }
    if link.Some? && link.value !in t {
      var j := ArrivedFrom(t, items, link.value);
    }
  }

  lemma ItemFitsIff(t: Table, items: seq<Item>, now: Time, i: nat)
    requires DistinctIds(items) && Import(t, items).1.Some? && i < |items| && Arrives(t, items, i)
    ensures items[i].id in Import(t, items).0
    ensures FitsIn(t, Import(t, items).0, now, items[i].id) <==> ItemFits(t, items, now, i)
  {
    ArrivedRow(t, items, i);
    PredecessorIff(t, items, i);
    AgreeIff(t, items, i);
    LinkSettledIff(t, items, now, i);
  }

  /** For a file without repeated ids the import keeps the chains exactly when the file fits the table. */
  lemma FileIff(t: Table, items: seq<Item>, clock: Time, now: Time)
    requires Chained(t, clock) && clock <= now && DistinctIds(items) && Import(t, items).1.Some?
    ensures Chained(Import(t, items).0, now) <==> FileFits(t, items, now)
  {
    var t' := Import(t, items).0;
    ImportIff(t, items, clock, now);
    forall i: nat | i < |items| && Arrives(t, items, i)
      ensures items[i].id in t' && (FitsIn(t, t', now, items[i].id) <==> ItemFits(t, items, now, i))
    {
      ItemFitsIff(t, items, now, i);
    }
    forall n | n in t' && n !in t ensures exists i: nat | i < |items| :: Arrives(t, items, i) && items[i].id == n {
      var i := ArrivedFrom(t, items, n);
    }
    if rank :| Ranked(t', t'.Keys - t.Keys, rank) { RanksTell(t, items, rank); }
    if rank :| RankedItems(t, items, rank) { TellRanks(t, items, rank); }
  }

  lemma RanksTell(t: Table, items: seq<Item>, rank: map<Id, int>)
    requires DistinctIds(items) && Import(t, items).1.Some?
    requires Ranked(Import(t, items).0, Import(t, items).0.Keys - t.Keys, rank)
    ensures RankedItems(t, items, rank)
  {
    forall i: nat, j: nat | i < |items| && j < |items| && Arrives(t, items, i) && Arrives(t, items, j)
      && Predecessor(items[j].row) == Some(items[i].id)
      ensures items[i].id in rank && items[j].id in rank && rank[items[i].id] < rank[items[j].id]
    {
      ArrivedRow(t, items, i);
      ArrivedRow(t, items, j);
      assert Names(Import(t, items).0, items[j].id, items[i].id);
    }
  }

  lemma TellRanks(t: Table, items: seq<Item>, rank: map<Id, int>)
    requires DistinctIds(items) && Import(t, items).1.Some? && RankedItems(t, items, rank)
    ensures exists total :: Ranked(Import(t, items).0, Import(t, items).0.Keys - t.Keys, total)
  {
    var t' := Import(t, items).0;
    var total := map n | n in t' && n !in t :: if n in rank then rank[n] else 0;
    forall a, b {:trigger Names(t', b, a)} | a in t'.Keys - t.Keys && b in t'.Keys - t.Keys && Names(t', b, a)
      ensures total[a] < total[b]
    {
      var i := ArrivedFrom(t, items, a);
      var j := ArrivedFrom(t, items, b);
      ArrivedRow(t, items, j);
    }
    assert Ranked(t', t'.Keys - t.Keys, total);
  }

  // ------------------------------------------------------------ restoring into an empty table

  ghost predicate Listed(items: seq<Item>, id: Id) {
    exists i: nat | i < |items| :: items[i].id == id
  }

  /** A full export: every row once, in some order. */
  ghost predicate Exports(items: seq<Item>, t: Table) {
    && DistinctIds(items)
    && (forall i | 0 <= i < |items| :: items[i].id in t && items[i].row == t[items[i].id])
    && (forall id {:trigger Listed(items, id)} | id in t :: Listed(items, id))
  }

  /** The eight columns by which the importer tells memories apart. */
  datatype Content = Content(scope: Scope, subject: Option<string>, conversation: Option<string>, privacy: Privacy,
                             kind: string, content: string, invalidAt: Option<Time>, revokedAt: Option<Time>)

  function ContentOf(r: Row): Content {
    Content(r.scope, r.subject, r.conversation, r.privacy, r.kind, r.content, r.invalidAt, r.revokedAt)
  }

  lemma SameContentIff(r: Row, r': Row)
    ensures SameKey(r, r') <==> ContentOf(r) == ContentOf(r')
  {
  }

  ghost predicate DistinctContents(t: Table) {
    forall x, y | x in t && y in t && ContentOf(t[x]) == ContentOf(t[y]) :: x == y
  }

  function Unread(t: Table): Table {
    map id | id in t :: t[id].(lastAccessedAt := None)
  }

  lemma NotYetThere(items: seq<Item>, n: nat)
    requires DistinctIds(items) && n < |items|
    ensures items[n].id !in InsertAll(map[], items[..n])
  {
    if items[n].id in InsertAll(map[], items[..n]) { InsertedFrom(map[], items[..n], items[n].id); }
  }

  /** The first n items have arrived, and nothing else. */
  ghost predicate Arrived(arrived: Table, items: seq<Item>, t: Table, n: nat)
    requires n <= |items|
  {
    && (forall i | 0 <= i < n :: items[i].id in arrived)
    && forall id | id in arrived :: id in t && arrived[id] == Arriving(t[id])
  }

  lemma OneArrives(arrived: Table, items: seq<Item>, t: Table, n: nat)
    requires DistinctContents(t) && n < |items| && Arrived(arrived, items, t, n)
    requires items[n].id !in arrived && items[n].id in t && items[n].row == t[items[n].id]
    ensures Enters(arrived, items[n]) && Arrived(arrived[items[n].id := Arriving(items[n].row)], items, t, n + 1)
  {
    if KeyPresent(arrived, items[n].row) { SameContent(arrived, t, items[n].id); }
  }

  lemma {:induction false} AllArrive(items: seq<Item>, t: Table, n: nat)
    requires DistinctIds(items) && DistinctContents(t) && n <= |items|
    requires forall i | 0 <= i < |items| :: items[i].id in t && items[i].row == t[items[i].id]
    ensures Arrived(InsertAll(map[], items[..n]), items, t, n)
  {
    if n > 0 {
      AllArrive(items, t, n - 1);
      NotYetThere(items, n - 1);
      OneArrives(InsertAll(map[], items[..n - 1]), items, t, n - 1);
      InsertStep(map[], items, n - 1);
    } else {
      assert items[..0] == [];
    }
  }

  lemma SameContent(arrived: Table, t: Table, x: Id)
    requires DistinctContents(t) && x in t && KeyPresent(arrived, t[x])
    requires forall id | id in arrived :: id in t && arrived[id] == Arriving(t[id])
    ensures x in arrived
  {
    var id :| id in arrived && SameKey(arrived[id], t[x]);
    SameContentIff(arrived[id], t[x]);
    assert ContentOf(t[id]) == ContentOf(t[x]);
  }

  lemma {:induction false} LinksAccepted(t: Table, items: seq<Item>, imported: set<Id>)
    requires forall i | 0 <= i < |items| && items[i].row.invalidatedBy.Some? ::
             items[i].id in t && t[items[i].id].invalidAt.Some?
    ensures LinkAll(t, items, imported).Some?
  {
    if items != [] {
      var front := items[..|items| - 1];
      LinksAccepted(t, front, imported);
      LinkedRows(t, front, imported);
    }
  }

  lemma RestoredKeys(t: Table, clock: Time, items: seq<Item>)
    requires Chained(t, clock) && DistinctContents(t) && Exports(items, t)
    ensures InsertAll(map[], items).Keys == t.Keys && Import(map[], items).1 == Some(|t|)
  {
    var none: Table, arrived := map[], InsertAll(map[], items);
    AllArrive(items, t, |items|);
    assert items[..|items|] == items;
    forall id | id in t ensures id in arrived { assert Listed(items, id); }
    assert arrived.Keys == t.Keys && arrived.Keys - none.Keys == t.Keys;
    forall i | 0 <= i < |items| && items[i].row.invalidatedBy.Some? ensures arrived[items[i].id].invalidAt.Some? {
      assert LinkSettled(t, items[i].id, clock);
    }
    LinksAccepted(arrived, items, arrived.Keys - none.Keys);
  }

  lemma RestoredRow(t: Table, clock: Time, items: seq<Item>, id: Id)
    requires Chained(t, clock) && DistinctContents(t) && Exports(items, t) && id in t
    ensures id in Import(map[], items).0 && Import(map[], items).0[id] == t[id].(lastAccessedAt := None)
  {
    RestoredKeys(t, clock, items);
    assert Listed(items, id);
    var i: nat :| i < |items| && items[i].id == id;
    ArrivedRow(map[], items, i);
    assert LinkSettled(t, id, clock);
  }

  lemma Restored(t: Table, clock: Time, items: seq<Item>)
    requires Chained(t, clock) && DistinctContents(t) && Exports(items, t)
    ensures Import(map[], items) == (Unread(t), Some(|t|))
  {
    var t' := Import(map[], items).0;
    RestoredKeys(t, clock, items);
    ImportedKeys(map[], items);
    assert t'.Keys == t.Keys;
    forall id | id in t ensures id in t' && t'[id] == Unread(t)[id] { RestoredRow(t, clock, items, id); }
    assert t' == Unread(t);
  }

  /** Into an empty table no content is inserted twice. */
  lemma {:induction false} ContentOnce(items: seq<Item>)
    ensures DistinctContents(InsertAll(map[], items))
  {
    if items != [] {
      var before, item := InsertAll(map[], items[..|items| - 1]), items[|items| - 1];
      ContentOnce(items[..|items| - 1]);
      if Enters(before, item) { OneMoreContent(before, item); }
    }
  }

  lemma ContentAbsent(t: Table, r: Row, id: Id)
    requires id in t && !KeyPresent(t, r)
    ensures ContentOf(t[id]) != ContentOf(r)
  {
    SameContentIff(t[id], r);
  }

  lemma OneMoreContent(t: Table, item: Item)
    requires DistinctContents(t) && Enters(t, item)
    ensures DistinctContents(t[item.id := Arriving(item.row)])
  {
    var t' := t[item.id := Arriving(item.row)];
    forall x, y | x in t' && y in t' && ContentOf(t'[x]) == ContentOf(t'[y]) ensures x == y {
      if x in t { ContentAbsent(t, item.row, x); }
      if y in t { ContentAbsent(t, item.row, y); }
      assert x in t && y in t ==> ContentOf(t[x]) == ContentOf(t[y]);
    }
  }

  /** Importing the full export of a chained table restores it exactly when no two of its rows share their content. */
  lemma RestoreRoundTrip(t: Table, clock: Time, items: seq<Item>)
    requires Chained(t, clock) && Exports(items, t)
    ensures Import(map[], items) == (Unread(t), Some(|t|)) <==> DistinctContents(t)
  {
    if DistinctContents(t) { Restored(t, clock, items); }
    if Import(map[], items) == (Unread(t), Some(|t|)) {
      var none: Table, arrived := map[], InsertAll(map[], items);
      ContentOnce(items);
      LinkedRows(arrived, items, arrived.Keys - none.Keys);
      forall x, y | x in t && y in t && ContentOf(t[x]) == ContentOf(t[y]) ensures x == y {
        assert x in Unread(t) && y in Unread(t);
        assert ContentOf(arrived[x]) == ContentOf(arrived[y]);
      }
    }
  }

  // ------------------------------------------------------------ refused files

  /** The item was inserted without invalid_at, and its successor is there. */
  ghost predicate BadLink(inserted: Table, item: Item, imported: set<Id>) {
    && item.id in imported && item.id in inserted && inserted[item.id].invalidAt.None?
    && item.row.invalidatedBy.Some? && item.row.invalidatedBy.value in inserted
  }

  lemma {:induction false} LinksFailIff(t: Table, items: seq<Item>, imported: set<Id>)
    ensures LinkAll(t, items, imported).None? <==> exists i | 0 <= i < |items| :: BadLink(t, items[i], imported)
  {
    if items != [] {
      var front := items[..|items| - 1];
      LinksFailIff(t, front, imported);
      if LinkAll(t, front, imported).Some? { LinkedRows(t, front, imported); }
      assert forall i | 0 <= i < |items| :: i < |front| ==> items[i] == front[i];
    }
  }

  /** An import is refused, and writes nothing, exactly when it would link a row that has no invalid_at. */
  lemma ImportFailsIff(t: Table, items: seq<Item>)
    ensures var inserted := InsertAll(t, items);
            Import(t, items).1.None? <==>
              exists i | 0 <= i < |items| :: BadLink(inserted, items[i], inserted.Keys - t.Keys)
    ensures Import(t, items).1.None? ==> Import(t, items).0 == t
  {
    LinksFailIff(InsertAll(t, items), items, InsertAll(t, items).Keys - t.Keys);
  }

  // ------------------------------------------------------------ ids that come back

  /** Item i has this id, and its content is not present when its turn comes. */
  ghost predicate Brings(t: Table, items: seq<Item>, i: nat, x: Id) {
    && i < |items| && items[i].id == x
    && var before := InsertAll(t, items[..i]);
       forall id | id in before :: ContentOf(before[id]) != ContentOf(items[i].row)
  }

  lemma PresentIff(t: Table, r: Row)
    ensures KeyPresent(t, r) <==> exists id | id in t :: ContentOf(t[id]) == ContentOf(r)
  {
    forall id | id in t ensures SameKey(t[id], r) <==> ContentOf(t[id]) == ContentOf(r) { SameContentIff(t[id], r); }
  }

  lemma {:induction false} ReturnsWithin(t: Table, items: seq<Item>, x: Id, n: nat)
    requires x !in t && n <= |items|
    ensures x in InsertAll(t, items[..n]) <==> exists i: nat | i < n :: Brings(t, items, i, x)
  {
    if n > 0 {
      ReturnsWithin(t, items, x, n - 1);
      InsertStep(t, items, n - 1);
      var before := InsertAll(t, items[..n - 1]);
      PresentIff(before, items[n - 1].row);
      assert x in InsertAll(t, items[..n]) <==> x in before || Brings(t, items, n - 1, x);
    } else {
      assert items[..0] == [];
    }
  }

  /** An absent id is there after an import exactly when the file holds it with content not yet present at its turn. */
  lemma ReturnsIff(t: Table, items: seq<Item>, x: Id)
    requires x !in t && Import(t, items).1.Some?
    ensures x in Import(t, items).0 <==> exists i: nat :: Brings(t, items, i, x)
  {
    ImportedKeys(t, items);
    ReturnsWithin(t, items, x, |items|);
    assert items[..|items|] == items;
  }

  /** It then has the revocation the file gives it. */
  lemma ReturnsAs(t: Table, items: seq<Item>, x: Id, i: nat)
    requires DistinctIds(items) && x !in t && Import(t, items).1.Some? && Brings(t, items, i, x)
    ensures x in Import(t, items).0 && Import(t, items).0[x].revokedAt == items[i].row.revokedAt
  {
    ReturnsIff(t, items, x);
    ImportedKeys(t, items);
    ArrivedRow(t, items, i);
  }
}
