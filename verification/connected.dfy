/** Recovering one version chain: _connected_memory_ids of repositories/operator_views.py. */
module ConnectedMemories {
  import opened Text
  import opened MemoryStore
  import opened MemoryLinks
  import opened MemoryChains

  /**
   * The columns the search reads. An entry of supersedes that is not a UUID is None; a value that is not a list is
   * None.
   */
  datatype LinkRow = LinkRow(id: Id, invalidatedBy: Option<Id>, supersedes: Option<seq<Option<Id>>>)

  // ------------------------------------------------------------ the graph and its components

  predicate LinksTo(r: LinkRow, other: Id) {
    r.invalidatedBy == Some(other) || (r.supersedes.Some? && Some(other) in r.supersedes.value)
  }

  ghost predicate Edge(rows: seq<LinkRow>, a: Id, b: Id) {
    exists i | 0 <= i < |rows| :: (rows[i].id == a && LinksTo(rows[i], b)) || (rows[i].id == b && LinksTo(rows[i], a))
  }

  ghost predicate IsPath(rows: seq<LinkRow>, path: seq<Id>) {
    path != [] && forall i | 0 <= i < |path| - 1 :: Edge(rows, path[i], path[i + 1])
  }

  ghost predicate Connected(rows: seq<LinkRow>, a: Id, b: Id) {
    exists path :: IsPath(rows, path) && path[0] == a && path[|path| - 1] == b
  }

  type Adjacency = map<Id, set<Id>>

  function Neighbours(adjacency: Adjacency, a: Id): set<Id> {
    if a in adjacency then adjacency[a] else {}
  }

  function Link(adjacency: Adjacency, a: Id, b: Id): Adjacency {
    var once := adjacency[a := Neighbours(adjacency, a) + {b}];
    once[b := Neighbours(once, b) + {a}]
  }

  lemma LinkNeighbours(adjacency: Adjacency, a: Id, b: Id, x: Id, y: Id)
    ensures y in Neighbours(Link(adjacency, a, b), x) <==>
            y in Neighbours(adjacency, x) || (x == a && y == b) || (x == b && y == a)
    ensures Link(adjacency, a, b).Keys == adjacency.Keys + {a, b}
  {
  }

  /** The adjacency map is exactly the graph of the rows seen, and its keys cover it. */
  ghost predicate Mirrors(adjacency: Adjacency, rows: seq<LinkRow>) {
    && (forall a, b :: b in Neighbours(adjacency, a) <==> Edge(rows, a, b))
    && (forall a, b | b in Neighbours(adjacency, a) :: b in adjacency)
  }

  /** The edges of rows, then of row restricted to its first k predecessors. */
  ghost predicate EdgeSoFar(rows: seq<LinkRow>, row: LinkRow, byInvalidator: bool, k: nat, a: Id, b: Id)
    requires k <= if row.supersedes.Some? then |row.supersedes.value| else 0
  {
    || Edge(rows, a, b)
    || (row.id == a && NamesSoFar(row, byInvalidator, k, b))
    || (row.id == b && NamesSoFar(row, byInvalidator, k, a))
  }

  ghost predicate NamesSoFar(row: LinkRow, byInvalidator: bool, k: nat, other: Id)
    requires k <= if row.supersedes.Some? then |row.supersedes.value| else 0
  {
    || (byInvalidator && row.invalidatedBy == Some(other))
    || (row.supersedes.Some? && Some(other) in row.supersedes.value[..k])
  }

  lemma EdgeSnoc(rows: seq<LinkRow>, row: LinkRow, a: Id, b: Id)
    ensures Edge(rows + [row], a, b) <==>
            Edge(rows, a, b) || (row.id == a && LinksTo(row, b)) || (row.id == b && LinksTo(row, a))
  {
    var more := rows + [row];
    if Edge(rows, a, b) {
      var i :| 0 <= i < |rows|
        && ((rows[i].id == a && LinksTo(rows[i], b)) || (rows[i].id == b && LinksTo(rows[i], a)));
      assert more[i] == rows[i];
    }
    assert more[|rows|] == row;
  }

  method AddRow(adjacency0: Adjacency, row: LinkRow, ghost rows: seq<LinkRow>) returns (adjacency: Adjacency)
    requires Mirrors(adjacency0, rows)
    ensures Mirrors(adjacency, rows + [row])
  {
    adjacency := if row.id in adjacency0 then adjacency0 else adjacency0[row.id := {}];
    if row.invalidatedBy.Some? {
      forall x, y { LinkNeighbours(adjacency, row.id, row.invalidatedBy.value, x, y); }
      adjacency := Link(adjacency, row.id, row.invalidatedBy.value);
    }
    var list := if row.supersedes.Some? then row.supersedes.value else [];
    for k := 0 to |list|
      invariant forall a, b :: b in Neighbours(adjacency, a) <==> EdgeSoFar(rows, row, true, k, a, b)
      invariant forall a, b | b in Neighbours(adjacency, a) :: b in adjacency
    {
      assert list[..k + 1] == list[..k] + [list[k]];
      if list[k].None? { continue; }
      forall x, y { LinkNeighbours(adjacency, row.id, list[k].value, x, y); }
      adjacency := Link(adjacency, row.id, list[k].value);
    }
    assert list[..|list|] == list;
    forall a, b ensures b in Neighbours(adjacency, a) <==> Edge(rows + [row], a, b) { EdgeSnoc(rows, row, a, b); }
  }

  // ------------------------------------------------------------ the worklist

  method Listing(items: set<Id>) returns (order: seq<Id>)
    ensures forall x :: x in order <==> x in items
  {
    order := [];
    var rest := items;
    while rest != {}
      invariant rest <= items && forall x :: x in order <==> x in items && x !in rest
      decreases rest
    {
      var x :| x in rest;
      order, rest := order + [x], rest - {x};
    }
  }

  /** Exactly the connected component of `start`, rows or no rows. */
  method ConnectedMemoryIds(rows: seq<LinkRow>, start: Id) returns (connected: set<Id>)
    ensures forall x :: x in connected <==> Connected(rows, start, x)
  {
    var adjacency: Adjacency := map[];
    for i := 0 to |rows|
      invariant Mirrors(adjacency, rows[..i])
    {
      assert rows[..i + 1] == rows[..i] + [rows[i]];
      adjacency := AddRow(adjacency, rows[i], rows[..i]);
    }
    assert rows[..|rows|] == rows;
    connected := Search(adjacency, start, rows);
    forall x ensures x in connected <==> Connected(rows, start, x) {
      if Connected(rows, start, x) {
        var path :| IsPath(rows, path) && path[0] == start && path[|path| - 1] == x;
        ClosedUnderPaths(rows, connected, path);
      }
    }
  }

  method Search(adjacency: Adjacency, start: Id, ghost rows: seq<LinkRow>) returns (connected: set<Id>)
    requires Mirrors(adjacency, rows)
    ensures start in connected && forall x | x in connected :: Connected(rows, start, x)
    ensures forall x, y | x in connected && Edge(rows, x, y) :: y in connected
  {
    connected := {};
    var pending := [start];
    assert IsPath(rows, [start]);
    while pending != []
      invariant start in connected || start in pending
      invariant forall x | x in connected || x in pending :: Connected(rows, start, x)
      invariant forall x, y | x in connected && Edge(rows, x, y) :: y in connected || y in pending
      invariant forall x | x in connected || x in pending :: x in adjacency.Keys + {start}
      decreases (adjacency.Keys + {start}) - connected, |pending|
    {
      var current := pending[|pending| - 1];
      ghost var before := pending;
      pending := pending[..|pending| - 1];
      assert before == pending + [current];
      if current in connected { continue; }
      connected := connected + {current};
      var more := Listing(Neighbours(adjacency, current));
      forall y | y in more ensures Connected(rows, start, y) { ExtendPath(rows, start, current, y); }
      pending := pending + more;
    }
  }

  lemma ExtendPath(rows: seq<LinkRow>, a: Id, b: Id, c: Id)
    requires Connected(rows, a, b) && Edge(rows, b, c)
    ensures Connected(rows, a, c)
  {
    var path :| IsPath(rows, path) && path[0] == a && path[|path| - 1] == b;
    var longer := path + [c];
    forall i | 0 <= i < |longer| - 1 ensures Edge(rows, longer[i], longer[i + 1]) {}
    assert IsPath(rows, longer) && longer[0] == a && longer[|longer| - 1] == c;
  }

  lemma {:induction false} ClosedUnderPaths(rows: seq<LinkRow>, closed: set<Id>, path: seq<Id>)
    requires IsPath(rows, path) && path[0] in closed
    requires forall x, y | x in closed && Edge(rows, x, y) :: y in closed
    ensures path[|path| - 1] in closed
  {
    if |path| > 1 {
      var front := path[..|path| - 1];
      forall i | 0 <= i < |front| - 1
        ensures Edge(rows, front[i], front[i + 1])
      {
        assert Edge(rows, path[i], path[i + 1]);
      }
      ClosedUnderPaths(rows, closed, front);
      assert Edge(rows, path[|path| - 2], path[|path| - 2 + 1]);
    }
  }

  // ----------------------------------------------------------- in a reachable table the component is the version chain

  /**
   * Some of the table's rows, in some order, as the search sees them: the view keeps one boundary and at most 500 rows.
   */
  ghost predicate Lists(rows: seq<LinkRow>, t: Table) {
    forall i | 0 <= i < |rows| ::
      && rows[i].id in t && rows[i].invalidatedBy == t[rows[i].id].invalidatedBy && rows[i].supersedes.Some?
      && forall x :: Some(x) in rows[i].supersedes.value <==> x in t[rows[i].id].supersedes
  }

  ghost predicate Listed(rows: seq<LinkRow>, id: Id) {
    exists i | 0 <= i < |rows| :: rows[i].id == id
  }

  /** b is the version that replaced a. */
  ghost predicate Follows(t: Table, a: Id, b: Id) {
    b in t && a in t[b].supersedes
  }

  /** A link that shows in the listed rows. */
  ghost predicate Shown(t: Table, rows: seq<LinkRow>, a: Id, b: Id) {
    Follows(t, a, b) && (Listed(rows, a) || Listed(rows, b))
  }

  /** Each version replaced the one before it, and of each two neighbours at least one is listed. */
  ghost predicate Versions(t: Table, rows: seq<LinkRow>, path: seq<Id>) {
    path != [] && forall i | 0 <= i < |path| - 1 :: Shown(t, rows, path[i], path[i + 1])
  }

  ghost predicate Leads(t: Table, rows: seq<LinkRow>, a: Id, b: Id) {
    exists path :: Versions(t, rows, path) && path[0] == a && path[|path| - 1] == b
  }

  lemma EdgesAreLinks(t: Table, clock: Time, rows: seq<LinkRow>, a: Id, b: Id)
    requires Chained(t, clock) && Lists(rows, t)
    ensures Edge(rows, a, b) <==> Shown(t, rows, a, b) || Shown(t, rows, b, a)
  {
    if Shown(t, rows, a, b) { LinkIsEdge(t, clock, rows, a, b); }
    if Shown(t, rows, b, a) { LinkIsEdge(t, clock, rows, b, a); }
    if i :| 0 <= i < |rows| && ((rows[i].id == a && LinksTo(rows[i], b)) || (rows[i].id == b && LinksTo(rows[i], a))) {
      var (from, to) := if rows[i].id == a && LinksTo(rows[i], b) then (a, b) else (b, a);
      assert Listed(rows, from) && Agree(t, from);
      if t[from].invalidatedBy == Some(to) {
        assert Names(t, to, from);
      }
    }
  }

  /** Either end's row tells of the link: the old version by invalidated_by, the new one by supersedes. */
  lemma LinkIsEdge(t: Table, clock: Time, rows: seq<LinkRow>, a: Id, b: Id)
    requires Chained(t, clock) && Lists(rows, t) && Shown(t, rows, a, b)
    ensures Edge(rows, a, b) && Edge(rows, b, a)
  {
    SoleName(t, clock, a, b);
    if Listed(rows, b) {
      var i :| 0 <= i < |rows| && rows[i].id == b;
      assert LinksTo(rows[i], a);
    } else {
      var i :| 0 <= i < |rows| && rows[i].id == a;
      assert Agree(t, a);
      assert LinksTo(rows[i], b);
    }
  }

  lemma {:induction false} AlongVersions(t: Table, clock: Time, rows: seq<LinkRow>, path: seq<Id>)
    requires Chained(t, clock) && Lists(rows, t) && Versions(t, rows, path)
    ensures Connected(rows, path[0], path[|path| - 1]) && Connected(rows, path[|path| - 1], path[0])
  {
    if |path| == 1 {
      assert IsPath(rows, path);
    } else {
      var front, tail := path[..|path| - 1], path[1..];
      forall i | 0 <= i < |front| - 1
        ensures Shown(t, rows, front[i], front[i + 1])
      {
        assert Shown(t, rows, path[i], path[i + 1]);
      }
      forall i | 0 <= i < |tail| - 1
        ensures Shown(t, rows, tail[i], tail[i + 1])
      {
        assert Shown(t, rows, path[i + 1], path[i + 1 + 1]);
      }
      assert Shown(t, rows, path[|path| - 2], path[|path| - 2 + 1]) && Shown(t, rows, path[0], path[0 + 1]);
      AlongVersions(t, clock, rows, front);
      AlongVersions(t, clock, rows, tail);
      EdgesAreLinks(t, clock, rows, path[|path| - 2], path[|path| - 1]);
      EdgesAreLinks(t, clock, rows, path[1], path[0]);
      ExtendPath(rows, path[0], path[|path| - 2], path[|path| - 1]);
      ExtendPath(rows, path[|path| - 1], path[1], path[0]);
    }
  }

  /** Linear links: stepping along any edge keeps two versions comparable. */
  lemma StayOnChain(t: Table, clock: Time, rows: seq<LinkRow>, start: Id, y: Id, z: Id)
    requires Chained(t, clock) && (Leads(t, rows, start, y) || Leads(t, rows, y, start))
    requires Shown(t, rows, y, z) || Shown(t, rows, z, y)
    ensures Leads(t, rows, start, z) || Leads(t, rows, z, start)
  {
    if Leads(t, rows, start, y) {
      var path :| Versions(t, rows, path) && path[0] == start && path[|path| - 1] == y;
      if Shown(t, rows, y, z) {
        Append(t, rows, path, z);
      } else if |path| == 1 {
        assert Versions(t, rows, [z, start]);
      } else {
        assert Shown(t, rows, path[|path| - 2], path[|path| - 2 + 1]);
        SoleName(t, clock, z, y);
        assert path[|path| - 2] == z;
        Cut(t, rows, path, 0, |path| - 1);
      }
    } else {
      var path :| Versions(t, rows, path) && path[0] == y && path[|path| - 1] == start;
      if Shown(t, rows, z, y) {
        Prepend(t, rows, path, z);
      } else {
        assert Shown(t, rows, path[0], path[0 + 1]);
        SoleName(t, clock, y, z);
        SoleName(t, clock, y, path[1]);
        assert z == path[1];
        Cut(t, rows, path, 1, |path|);
      }
    }
  }

  lemma Append(t: Table, rows: seq<LinkRow>, path: seq<Id>, z: Id)
    requires Versions(t, rows, path) && Shown(t, rows, path[|path| - 1], z)
    ensures Leads(t, rows, path[0], z)
  {
    var longer := path + [z];
    forall i | 0 <= i < |longer| - 1 ensures Shown(t, rows, longer[i], longer[i + 1]) {}
    assert Versions(t, rows, longer) && longer[|longer| - 1] == z && longer[0] == path[0];
  }

  lemma Prepend(t: Table, rows: seq<LinkRow>, path: seq<Id>, z: Id)
    requires Versions(t, rows, path) && Shown(t, rows, z, path[0])
    ensures Leads(t, rows, z, path[|path| - 1])
  {
    var longer := [z] + path;
    forall i | 0 <= i < |longer| - 1 ensures Shown(t, rows, longer[i], longer[i + 1]) {
      if i > 0 { assert Shown(t, rows, path[i - 1], path[i - 1 + 1]); }
    }
    assert Versions(t, rows, longer) && longer[0] == z && longer[|longer| - 1] == path[|path| - 1];
  }

  lemma Cut(t: Table, rows: seq<LinkRow>, path: seq<Id>, lo: nat, hi: nat)
    requires Versions(t, rows, path) && lo < hi <= |path|
    ensures Leads(t, rows, path[lo], path[hi - 1])
  {
    var part := path[lo..hi];
    forall i | 0 <= i < |part| - 1
      ensures Shown(t, rows, part[i], part[i + 1])
    {
      assert Shown(t, rows, path[lo + i], path[lo + i + 1]);
    }
    assert Versions(t, rows, part) && part[0] == path[lo] && part[|part| - 1] == path[hi - 1];
  }

  lemma {:induction false} PathStaysOnChain(t: Table, clock: Time, rows: seq<LinkRow>, path: seq<Id>)
    requires Chained(t, clock) && Lists(rows, t) && IsPath(rows, path)
    ensures Leads(t, rows, path[0], path[|path| - 1]) || Leads(t, rows, path[|path| - 1], path[0])
  {
    if |path| == 1 {
      assert Versions(t, rows, path);
    } else {
      var front := path[..|path| - 1];
      forall i | 0 <= i < |front| - 1
        ensures Edge(rows, front[i], front[i + 1])
      {
        assert Edge(rows, path[i], path[i + 1]);
      }
      PathStaysOnChain(t, clock, rows, front);
      assert Edge(rows, path[|path| - 2], path[|path| - 2 + 1]);
      EdgesAreLinks(t, clock, rows, path[|path| - 2], path[|path| - 1]);
      StayOnChain(t, clock, rows, path[0], path[|path| - 2], path[|path| - 1]);
    }
  }

  /**
   * Given any of the rows of any reachable table, the search returns the ancestors and descendants of the start, as far
   * as they show.
   */
  lemma ComponentIsVersionChain(ops: seq<(Op, Time)>, upper: string -> string, rows: seq<LinkRow>, start: Id, x: Id)
    requires LegitRun(EMPTY, ops, upper) && Lists(rows, Run(EMPTY, ops, upper).rows)
    ensures var t := Run(EMPTY, ops, upper).rows;
            Connected(rows, start, x) <==> Leads(t, rows, start, x) || Leads(t, rows, x, start)
  {
    RunKeeps(ops, upper);
    var t, clock := Run(EMPTY, ops, upper).rows, Run(EMPTY, ops, upper).clock;
    if path :| IsPath(rows, path) && path[0] == start && path[|path| - 1] == x {
      PathStaysOnChain(t, clock, rows, path);
    }
    if path :| Versions(t, rows, path) && path[0] == start && path[|path| - 1] == x {
      AlongVersions(t, clock, rows, path);
    }
    if path :| Versions(t, rows, path) && path[0] == x && path[|path| - 1] == start {
      AlongVersions(t, clock, rows, path);
    }
  }
}
