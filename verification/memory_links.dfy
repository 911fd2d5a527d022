/** When the links between the rows of the memory table form version chains, and which inserts keep that. */
module MemoryLinks {
  import opened Text
  import opened MemoryStore

  /** The row a version replaced, if it names exactly one. */
  function Predecessor(r: Row): Option<Id> {
    if |r.supersedes| == 1 then Some(r.supersedes[0]) else None
  }

  /** Row b names a as the version it replaced. */
  predicate Names(t: Table, b: Id, a: Id) {
    b in t && Predecessor(t[b]) == Some(a)
  }

  predicate SamePlace(a: Row, b: Row) {
    a.scope == b.scope && a.subject == b.subject && a.conversation == b.conversation
  }

  /** The scope rule of a MemoryItem. */
  predicate Scoped(r: Row) {
    match r.scope
    case GLOBAL => r.subject.None? && r.conversation.None?
    case SUBJECT => r.subject.Some? && r.conversation.None?
    case CONVERSATION => r.subject.None? && r.conversation.Some?
  }

  /** A row that keeps to itself: in its scope, and with at most one predecessor. */
  predicate Single(r: Row) {
    Scoped(r) && |r.supersedes| <= 1
  }

  /** A replaced version has been invalid since some past moment and stands where its successor stands. */
  predicate Settled(a: Row, b: Row, clock: Time) {
    a.invalidAt.Some? && a.invalidAt.value <= clock && SamePlace(a, b)
  }

  ghost predicate NamedOnce(t: Table) {
    forall b: Id, c: Id, a: Id {:trigger Names(t, b, a), Names(t, c, a)} :: Names(t, b, a) && Names(t, c, a) ==> b == c
  }

  /** Both ends tell of a link: the old version by invalidated_by, the new one by supersedes. */
  ghost predicate Agree(t: Table, a: Id)
    requires a in t
  {
    forall b: Id {:trigger Names(t, b, a)} :: t[a].invalidatedBy == Some(b) <==> Names(t, b, a)
  }

  ghost predicate LinkSettled(t: Table, a: Id, clock: Time)
    requires a in t
  {
    var b := t[a].invalidatedBy;
    b.Some? ==> b.value in t && Settled(t[a], t[b.value], clock)
  }

  /** Every version of `ids` ranks above its predecessor there. */
  ghost predicate Ranked(t: Table, ids: set<Id>, rank: map<Id, int>) {
    ids <= rank.Keys && forall a, b {:trigger Names(t, b, a)} | a in ids && b in ids && Names(t, b, a) ::
      rank[a] < rank[b]
  }

  /** The links of the table form version chains. */
  ghost predicate Chained(t: Table, clock: Time) {
    && (forall id | id in t :: Single(t[id]))
    && NamedOnce(t)
    && (forall id {:trigger Agree(t, id)} | id in t :: Agree(t, id))
    && (forall id {:trigger LinkSettled(t, id, clock)} | id in t :: LinkSettled(t, id, clock))
    && exists rank :: Ranked(t, t.Keys, rank)
  }

  // ------------------------------------------------------------ adding rows

  /** The row names no row that was there before, and shares its predecessor with no other row. */
  ghost predicate Detached(t: Table, t': Table, n: Id) {
    forall a: Id :: Names(t', n, a) ==> a !in t && forall m: Id :: Names(t', m, a) ==> m == n
  }

  /** Row n is new: its links agree with the rows after, and it names no row that was there before. */
  ghost predicate FitsIn(t: Table, t': Table, clock: Time, n: Id)
    requires n in t'
  {
    Single(t'[n]) && Agree(t', n) && LinkSettled(t', n, clock) && Detached(t, t', n)
  }

  ghost predicate Fits(t: Table, t': Table, clock: Time) {
    && (forall n {:trigger FitsIn(t, t', clock, n)} | n in t' && n !in t :: FitsIn(t, t', clock, n))
    && exists rank :: Ranked(t', t'.Keys - t.Keys, rank)
  }

  ghost predicate Grows(t: Table, t': Table) {
    t.Keys <= t'.Keys && forall id | id in t :: t'[id] == t[id]
  }

  lemma {:induction false} Bounds(ids: set<Id>, rank: map<Id, int>) returns (lo: int, hi: int)
    requires ids <= rank.Keys
    ensures forall id | id in ids :: lo < rank[id] < hi
    decreases ids
  {
    if ids == {} {
      lo, hi := 0, 0;
    } else {
      var id :| id in ids;
      lo, hi := Bounds(ids - {id}, rank);
      if rank[id] <= lo { lo := rank[id] - 1; }
      if rank[id] >= hi { hi := rank[id] + 1; }
    }
  }

  /** New rows rank below the old ones: no old row is replaced by a new one. */
  lemma RanksJoin(t: Table, t': Table, former: map<Id, int>, added: map<Id, int>) returns (rank: map<Id, int>)
    requires Grows(t, t') && Ranked(t, t.Keys, former) && Ranked(t', t'.Keys - t.Keys, added)
    requires forall a, b {:trigger Names(t', b, a)} | a in t && b !in t :: !Names(t', b, a)
    ensures Ranked(t', t'.Keys, rank)
  {
    var entered := t'.Keys - t.Keys;
    var lo, hi := Bounds(t.Keys, former);
    var lo', hi' := Bounds(entered, added);
    rank := map id | id in t' :: if id in t then former[id] - lo else added[id] - hi';
    forall a, b {:trigger Names(t', b, a)} | a in t' && b in t' && Names(t', b, a) ensures rank[a] < rank[b] {
      if a in t && b in t { assert Names(t, b, a); }
    }
  }

  lemma NamedByOld(t: Table, t': Table, n: Id, a: Id)
    requires Grows(t, t') && a in t && Agree(t, a) && Agree(t', a) && Names(t', n, a)
    ensures n in t
  {
    assert t[a].invalidatedBy == Some(n) <==> Names(t, n, a);
  }

  lemma NamedByNew(t: Table, t': Table, clock: Time, n: Id, m: Id, a: Id)
    requires Fits(t, t', clock) && n !in t && Names(t', n, a) && Names(t', m, a)
    ensures a !in t && m == n
  {
    assert FitsIn(t, t', clock, n);
  }

  lemma GrowthFits(t: Table, t': Table, clock: Time, clock': Time)
    requires Chained(t, clock) && clock <= clock' && Grows(t, t') && Chained(t', clock')
    ensures Fits(t, t', clock')
  {
    forall n | n in t' && n !in t ensures FitsIn(t, t', clock', n) {
      assert Agree(t', n) && LinkSettled(t', n, clock');
      forall a: Id | Names(t', n, a) ensures a !in t {
        if a in t { NamedByOld(t, t', n, a); }
      }
    }
    var rank :| Ranked(t', t'.Keys, rank);
    assert Ranked(t', t'.Keys - t.Keys, rank);
  }

  lemma OldRowStays(t: Table, t': Table, clock: Time, clock': Time, a: Id)
    requires Chained(t, clock) && clock <= clock' && Grows(t, t') && Fits(t, t', clock') && a in t
    ensures Single(t'[a]) && Agree(t', a) && LinkSettled(t', a, clock')
  {
    assert Agree(t, a) && LinkSettled(t, a, clock);
    forall b: Id ensures t'[a].invalidatedBy == Some(b) <==> Names(t', b, a) {
      assert t[a].invalidatedBy == Some(b) <==> Names(t, b, a);
      if b !in t && Names(t', b, a) { NamedByNew(t, t', clock', b, b, a); }
    }
  }

  lemma FitsGrows(t: Table, t': Table, clock: Time, clock': Time)
    requires Chained(t, clock) && clock <= clock' && Grows(t, t') && Fits(t, t', clock')
    ensures Chained(t', clock')
  {
    forall id | id in t' ensures Single(t'[id]) && Agree(t', id) && LinkSettled(t', id, clock') {
      if id in t { OldRowStays(t, t', clock, clock', id); } else { assert FitsIn(t, t', clock', id); }
    }
    forall b: Id, c: Id, a: Id | Names(t', b, a) && Names(t', c, a) ensures b == c {
      if b !in t {
        NamedByNew(t, t', clock', b, c, a);
      } else if c !in t {
        NamedByNew(t, t', clock', c, b, a);
      } else {
        assert Names(t, b, a) && Names(t, c, a);
      }
    }
    forall a: Id, b: Id {:trigger Names(t', b, a)} | a in t && b !in t ensures !Names(t', b, a) {
      if Names(t', b, a) { NamedByNew(t, t', clock', b, b, a); }
    }
    var former :| Ranked(t, t.Keys, former);
    var added :| Ranked(t', t'.Keys - t.Keys, added);
    var rank := RanksJoin(t, t', former, added);
  }

  /** Adding rows, and changing none, keeps the chains exactly when every new row fits in. */
  lemma GrowthIff(t: Table, t': Table, clock: Time, clock': Time)
    requires Chained(t, clock) && clock <= clock' && Grows(t, t')
    ensures Chained(t', clock') <==> Fits(t, t', clock')
  {
    if Chained(t', clock') { GrowthFits(t, t', clock, clock'); }
    if Fits(t, t', clock') { FitsGrows(t, t', clock, clock'); }
  }

  // ------------------------------------------------------------ one new row

  /** No row speaks of this id. */
  ghost predicate Unknown(t: Table, id: Id) {
    id !in t && forall b :: !Names(t, b, id)
  }

  /** The new row has no successor and names at most one row, one that does not exist and that no other row names. */
  ghost predicate Loose(t: Table, r: Row) {
    && r.invalidatedBy.None? && |r.supersedes| <= 1
    && (Predecessor(r).Some? ==> Unknown(t, Predecessor(r).value))
  }

  /** A new row that invalidates no other keeps the chains exactly when it is loose. */
  lemma AddIff(t: Table, clock: Time, now: Time, id: Id, r: Row)
    requires Chained(t, clock) && clock <= now && Unknown(t, id) && Scoped(r) && id !in r.supersedes
    ensures Chained(t[id := r], now) <==> Loose(t, r)
  {
    var t' := t[id := r];
    GrowthIff(t, t', clock, now);
    if Loose(t, r) {
      assert FitsIn(t, t', now, id) by {
        forall b ensures !Names(t', b, id) { assert b in t ==> (Names(t', b, id) <==> Names(t, b, id)); }
        forall a | Names(t', id, a) ensures a !in t && forall m :: Names(t', m, a) ==> m == id {
          forall m | Names(t', m, a) ensures m == id { assert m in t ==> !Names(t, m, a); }
        }
      }
      assert Ranked(t', t'.Keys - t.Keys, map[id := 0]);
    }
    if Fits(t, t', now) {
      assert FitsIn(t, t', now, id);
      if r.invalidatedBy.Some? {
        assert Names(t', r.invalidatedBy.value, id);
        assert Names(t, r.invalidatedBy.value, id);
      }
      if Predecessor(r).Some? {
        var a := Predecessor(r).value;
        assert Names(t', id, a);
        forall b ensures !Names(t, b, a) { if Names(t, b, a) { assert Names(t', b, a); } }
      }
    }
  }

  /** The candidate names nothing but the row it replaces. */
  predicate NamesOnly(r: Row, a: Id) {
    r.invalidatedBy.None? && forall x | x in r.supersedes :: x == a
  }

  lemma ActiveIsNewest(t: Table, clock: Time, now: Time, a: Id)
    requires Chained(t, clock) && clock <= now && a in t && Active(t[a], now)
    ensures t[a].invalidatedBy.None? && forall b :: !Names(t, b, a)
  {
    assert Agree(t, a) && LinkSettled(t, a, clock);
  }

  lemma SucceedKeeps(t: Table, clock: Time, now: Time, id: Id, r: Row, a: Id)
    requires Chained(t, clock) && clock <= now && Unknown(t, id) && Scoped(r)
    requires a in t && Active(t[a], now) && SamePlace(t[a], r)
    requires r.supersedes == [a] && r.invalidatedBy.None?
    ensures Chained(Succeed(t, id, r, Some(a), now), now)
  {
    var t' := Succeed(t, id, r, Some(a), now);
    ActiveIsNewest(t, clock, now, a);
    forall b, x ensures Names(t', b, x) <==> if b == id then x == a else Names(t, b, x) {}
    forall x | x in t' ensures Single(t'[x]) && Agree(t', x) && LinkSettled(t', x, now) {
      if x != id { assert Agree(t, x) && LinkSettled(t, x, clock); }
    }
    var rank :| Ranked(t, t.Keys, rank);
    assert Ranked(t', t'.Keys, rank[id := rank[a] + 1]);
  }

  /** Replacing an active row keeps the chains exactly when the new row names it and nothing else. */
  lemma SucceedIff(t: Table, clock: Time, now: Time, id: Id, r: Row, a: Id)
    requires Chained(t, clock) && clock <= now && Unknown(t, id) && Scoped(r) && id !in r.supersedes
    requires a in t && Active(t[a], now) && SamePlace(t[a], r)
    ensures Chained(Succeed(t, id, r, Some(a), now), now) <==> r.supersedes == [a] && r.invalidatedBy.None?
  {
    var t' := Succeed(t, id, r, Some(a), now);
    if r.supersedes == [a] && r.invalidatedBy.None? { SucceedKeeps(t, clock, now, id, r, a); }
    if Chained(t', now) {
      assert Agree(t', a) && Agree(t', id);
      assert Names(t', id, a);
      if r.invalidatedBy.Some? {
        var b := r.invalidatedBy.value;
        assert Names(t', b, id);
        assert Names(t, b, id);
      }
    }
  }

  /** dict.fromkeys of links is one link exactly when they all name the same row. */
  lemma UniqueOnly(ids: seq<Id>, a: Id)
    ensures Unique(ids + [a]) == [a] <==> forall x | x in ids :: x == a
  {
    var all := ids + [a];
    UniqueHas(all);
    if Unique(all) == [a] {
      forall x | x in ids ensures x == a { assert x in all; }
    } else if forall x | x in ids :: x == a {
      forall i | 0 <= i < |all| ensures all[i] == a { assert all[i] in all; }
      UniqueSame(all, a);
    }
  }

  lemma {:induction false} UniqueSame(ids: seq<Id>, a: Id)
    requires forall i | 0 <= i < |ids| :: ids[i] == a
    ensures Unique(ids) == if ids == [] then [] else [a]
  {
    if ids != [] {
      var front := ids[..|ids| - 1];
      UniqueSame(front, a);
      assert front == [] ==> Unique(front) == [];
    }
  }

  lemma {:induction false} UniqueHas(ids: seq<Id>)
    ensures forall x :: x in Unique(ids) <==> x in ids
  {
    if ids != [] {
      UniqueHas(ids[..|ids| - 1]);
      assert ids == ids[..|ids| - 1] + [ids[|ids| - 1]];
    }
  }
}
