/** The rows of kb_chunk that one ingestion writes, and when the table takes them: repositories/knowledge.py. */
module ChunkRows {
  import opened Text
  import opened Chunking
  import ChunkCounts

  type Vector = seq<real>

  /** Rows of kb_chunk; a child row keeps the number of its parent row and its place in it. */
  datatype Chunk =
    | ParentRow(chunkIndex: nat, content: string, tokens: nat, generation: nat)
    | ChildRow(chunkIndex: nat, content: string, tokens: nat, generation: nat, embedding: Vector, model: string,
               parentIndex: nat, childIndex: nat)

  // ------------------------------------------------------------ chunk rows

  const STRIDE := 100_000

  function ChildNumber(parent: nat, child: nat): nat {
    parent * STRIDE + child
  }

  /** The row of one child. */
  function RowOf(p: Parent, c: Child, generation: nat, vector: Vector, model: string): Chunk {
    ChildRow(ChildNumber(p.index, c.index), c.content, c.tokens, generation, vector, model, p.index, c.index)
  }

  function ChildRows(p: Parent, k: nat, vectors: seq<Vector>, at: nat, generation: nat, model: string): seq<Chunk>
    requires k <= |p.children| && at + |p.children| - k <= |vectors|
    decreases |p.children| - k
  {
    if k == |p.children| then [] else
      [RowOf(p, p.children[k], generation, vectors[at], model)]
      + ChildRows(p, k + 1, vectors, at + 1, generation, model)
  }

  function ChildCount(parents: seq<Parent>): nat {
    if parents == [] then 0 else |parents[0].children| + ChildCount(parents[1..])
  }

  /** The rows complete_ingestion inserts, parents each followed by their children. */
  function Rows(parents: seq<Parent>, vectors: seq<Vector>, at: nat, generation: nat, model: string): seq<Chunk>
    requires at + ChildCount(parents) <= |vectors|
    decreases parents
  {
    if parents == [] then [] else
      var p := parents[0];
      [ParentRow(p.index, p.content, p.tokens, generation)]
      + ChildRows(p, 0, vectors, at, generation, model)
      + Rows(parents[1..], vectors, at + |p.children|, generation, model)
  }

  /** uq_kb_chunk_index: one row per level and chunk index. */
  predicate NoCollision(rows: seq<Chunk>) {
    forall i, j | 0 <= i < j < |rows| ::
      rows[i].ParentRow? == rows[j].ParentRow? ==> rows[i].chunkIndex != rows[j].chunkIndex
  }

  /** All child texts in the order they are sent to the embedding model. */
  function ChildTexts(parents: seq<Parent>): seq<string> {
    if parents == [] then [] else Texts(parents[0].children) + ChildTexts(parents[1..])
  }

  function Texts(children: seq<Child>): (r: seq<string>)
    ensures |r| == |children|
  {
    if children == [] then [] else [children[0].content] + Texts(children[1..])
  }

  /** How many children come before parent i. */
  function Offset(parents: seq<Parent>, i: nat): nat
    requires i <= |parents|
  {
    if i == 0 then 0 else |parents[0].children| + Offset(parents[1..], i - 1)
  }

  lemma {:induction false} ChildTextsCount(parents: seq<Parent>)
    ensures |ChildTexts(parents)| == ChildCount(parents)
  {
    if parents != [] { ChildTextsCount(parents[1..]); }
  }

  lemma {:induction false} TextAt(children: seq<Child>, j: nat)
    requires j < |children|
    ensures Texts(children)[j] == children[j].content
  {
    if j > 0 { TextAt(children[1..], j - 1); }
  }

  lemma {:induction false} ChildRowAt(p: Parent, k: nat, vectors: seq<Vector>, at: nat, generation: nat, model: string,
                                      j: nat)
    requires k <= j < |p.children| && at + |p.children| - k <= |vectors|
    ensures var rows := ChildRows(p, k, vectors, at, generation, model);
            && |rows| == |p.children| - k
            && rows[j - k] == RowOf(p, p.children[j], generation, vectors[at + j - k], model)
    decreases |p.children| - k
  {
    if k < j {
      ChildRowAt(p, k + 1, vectors, at + 1, generation, model, j);
    } else if k + 1 < |p.children| {
      ChildRowAt(p, k + 1, vectors, at + 1, generation, model, k + 1);
    }
  }

  lemma {:induction false} OffsetWithin(parents: seq<Parent>, i: nat)
    requires i < |parents|
    ensures Offset(parents, i) + |parents[i].children| <= ChildCount(parents)
  {
    if i > 0 { OffsetWithin(parents[1..], i - 1); }
  }

  lemma {:induction false} ChildTextAt(parents: seq<Parent>, i: nat, j: nat)
    requires i < |parents| && j < |parents[i].children|
    ensures Offset(parents, i) + j < |ChildTexts(parents)| == ChildCount(parents)
    ensures ChildTexts(parents)[Offset(parents, i) + j] == parents[i].children[j].content
  {
    ChildTextsCount(parents);
    if i == 0 {
      TextAt(parents[0].children, j);
    } else {
      OffsetWithin(parents, i);
      ChildTextAt(parents[1..], i - 1, j);
    }
  }

  lemma InConcat(a: seq<Chunk>, b: seq<Chunk>, c: seq<Chunk>, r: Chunk)
    requires r in b || r in c
    ensures r in a + b + c
  {
  }

  lemma BlockOrRest(parents: seq<Parent>, vectors: seq<Vector>, at: nat, generation: nat, model: string, r: Chunk)
    requires at + ChildCount(parents) <= |vectors| && parents != []
    requires || r in ChildRows(parents[0], 0, vectors, at, generation, model)
             || r in Rows(parents[1..], vectors, at + |parents[0].children|, generation, model)
    ensures r in Rows(parents, vectors, at, generation, model)
  {
    var p := parents[0];
    InConcat([ParentRow(p.index, p.content, p.tokens, generation)], ChildRows(p, 0, vectors, at, generation, model),
             Rows(parents[1..], vectors, at + |p.children|, generation, model), r);
  }

  lemma {:induction false} ChildRowIn(parents: seq<Parent>, vectors: seq<Vector>, at: nat, generation: nat,
                                      model: string, i: nat, j: nat)
    requires at + ChildCount(parents) <= |vectors| && i < |parents| && j < |parents[i].children|
    ensures at + Offset(parents, i) + j < |vectors|
    ensures RowOf(parents[i], parents[i].children[j], generation, vectors[at + Offset(parents, i) + j], model)
            in Rows(parents, vectors, at, generation, model)
  {
    OffsetWithin(parents, i);
    var row := RowOf(parents[i], parents[i].children[j], generation, vectors[at + Offset(parents, i) + j], model);
    if i == 0 {
      ChildRowAt(parents[0], 0, vectors, at, generation, model, j);
      assert row == ChildRows(parents[0], 0, vectors, at, generation, model)[j];
    } else {
      ChildRowIn(parents[1..], vectors, at + |parents[0].children|, generation, model, i - 1, j);
    }
    BlockOrRest(parents, vectors, at, generation, model, row);
  }

  /** Child j of parent i is stored with the vector, and the text, at its place in the flattened list. */
  lemma ChildGetsItsVector(parents: seq<Parent>, vectors: seq<Vector>, generation: nat, model: string, i: nat, j: nat)
    requires ChildCount(parents) <= |vectors| && i < |parents| && j < |parents[i].children|
    ensures var p, c := parents[i], parents[i].children[j];
            var place := Offset(parents, i) + j;
            && place < |ChildTexts(parents)| <= |vectors| && ChildTexts(parents)[place] == c.content
            && RowOf(p, c, generation, vectors[place], model) in Rows(parents, vectors, 0, generation, model)
  {
    ChildTextAt(parents, i, j);
    ChildRowIn(parents, vectors, 0, generation, model, i, j);
  }

  /** Each place in the flattened list belongs to some child. */
  lemma {:induction false} ChildAt(parents: seq<Parent>, place: nat) returns (i: nat, j: nat)
    requires place < ChildCount(parents)
    ensures i < |parents| && j < |parents[i].children| && place == Offset(parents, i) + j
  {
    if place < |parents[0].children| {
      i, j := 0, place;
    } else {
      i, j := ChildAt(parents[1..], place - |parents[0].children|);
      i := i + 1;
    }
  }

  lemma {:induction false} RowsLength(parents: seq<Parent>, vectors: seq<Vector>, at: nat, generation: nat,
                                      model: string)
    requires at + ChildCount(parents) <= |vectors|
    ensures |Rows(parents, vectors, at, generation, model)| == |parents| + ChildCount(parents)
  {
    if parents != [] {
      RowsLength(parents[1..], vectors, at + |parents[0].children|, generation, model);
      BlockLength(parents[0], vectors, at, generation, model);
    }
  }

  lemma BlockLength(p: Parent, vectors: seq<Vector>, at: nat, generation: nat, model: string)
    requires at + |p.children| <= |vectors|
    ensures |ChildRows(p, 0, vectors, at, generation, model)| == |p.children|
  {
    if |p.children| > 0 { ChildRowAt(p, 0, vectors, at, generation, model, 0); }
  }

  /** The row of a parent and those of its children. */
  ghost function Block(p: Parent, vectors: seq<Vector>, at: nat, generation: nat, model: string): seq<Chunk>
    requires at + |p.children| <= |vectors|
  {
    [ParentRow(p.index, p.content, p.tokens, generation)] + ChildRows(p, 0, vectors, at, generation, model)
  }

  ghost predicate At(rows: seq<Chunk>, k: nat, r: Chunk) {
    k < |rows| && rows[k] == r
  }

  lemma AtEarlier(rows: seq<Chunk>, more: seq<Chunk>, k: nat, r: Chunk)
    requires At(rows, k, r)
    ensures At(rows + more, k, r)
  {
  }

  lemma AtLater(before: seq<Chunk>, rows: seq<Chunk>, k: nat, r: Chunk)
    requires At(rows, k, r)
    ensures At(before + rows, |before| + k, r)
  {
  }

  lemma FirstBlock(parents: seq<Parent>, vectors: seq<Vector>, at: nat, generation: nat, model: string)
    requires parents != [] && at + ChildCount(parents) <= |vectors|
    ensures |Block(parents[0], vectors, at, generation, model)| == 1 + |parents[0].children|
    ensures Rows(parents, vectors, at, generation, model)
            == Block(parents[0], vectors, at, generation, model)
               + Rows(parents[1..], vectors, at + |parents[0].children|, generation, model)
  {
    BlockLength(parents[0], vectors, at, generation, model);
  }

  /** A parent's block comes after one row for every parent before it and one for each of their children. */
  lemma {:induction false} RowsFrom(parents: seq<Parent>, vectors: seq<Vector>, at: nat, generation: nat, model: string,
                                    i: nat, p: Parent, from: nat, k: nat, r: Chunk, place: nat)
    requires at + ChildCount(parents) <= |vectors| && i < |parents| && p == parents[i]
    requires from == at + Offset(parents, i)
    requires from + |p.children| <= |vectors| && At(Block(p, vectors, from, generation, model), k, r)
    requires place == i + Offset(parents, i) + k
    ensures At(Rows(parents, vectors, at, generation, model), place, r)
  {
    if i == 0 {
      RowsOfFirst(parents, vectors, at, generation, model, place, r);
    } else {
      var n := |parents[0].children|;
      RowsFrom(parents[1..], vectors, at + n, generation, model, i - 1, p, from, k, r, place - 1 - n);
      RowsOfRest(parents, vectors, at, generation, model, place, r);
    }
  }

  lemma RowsOfFirst(parents: seq<Parent>, vectors: seq<Vector>, at: nat, generation: nat, model: string, k: nat,
                    r: Chunk)
    requires parents != [] && at + ChildCount(parents) <= |vectors|
    requires At(Block(parents[0], vectors, at, generation, model), k, r)
    ensures At(Rows(parents, vectors, at, generation, model), k, r)
  {
    FirstBlock(parents, vectors, at, generation, model);
    AtEarlier(Block(parents[0], vectors, at, generation, model),
              Rows(parents[1..], vectors, at + |parents[0].children|, generation, model), k, r);
  }

  lemma RowsOfRest(parents: seq<Parent>, vectors: seq<Vector>, at: nat, generation: nat, model: string, k: nat,
                   r: Chunk)
    requires parents != [] && at + ChildCount(parents) <= |vectors| && k > |parents[0].children|
    requires At(Rows(parents[1..], vectors, at + |parents[0].children|, generation, model),
                k - 1 - |parents[0].children|, r)
    ensures At(Rows(parents, vectors, at, generation, model), k, r)
  {
    FirstBlock(parents, vectors, at, generation, model);
    AtLater(Block(parents[0], vectors, at, generation, model),
            Rows(parents[1..], vectors, at + |parents[0].children|, generation, model), k - 1 - |parents[0].children|,
              r);
  }

  lemma InBlock(p: Parent, vectors: seq<Vector>, at: nat, generation: nat, model: string, j: nat)
    requires at + |p.children| <= |vectors|
    ensures At(Block(p, vectors, at, generation, model), 0, ParentRow(p.index, p.content, p.tokens, generation))
    ensures j < |p.children| ==>
              At(Block(p, vectors, at, generation, model), 1
                + j, RowOf(p, p.children[j], generation, vectors[at + j], model))
  {
    if j < |p.children| { ChildRowAt(p, 0, vectors, at, generation, model, j); }
  }

  /**
   * The rows are, in order, each parent's row and the rows of its children, and no others; all of a child's columns are
   * its own, its parent's or its vector's.
   */
  lemma RowsExactly(parents: seq<Parent>, vectors: seq<Vector>, generation: nat, model: string, i: nat, j: nat)
    requires ChildCount(parents) <= |vectors| && i < |parents|
    ensures var rows, p, first := Rows(parents, vectors, 0, generation, model), parents[i], i + Offset(parents, i);
            && |rows| == |parents| + ChildCount(parents) && first < |rows|
            && rows[first] == ParentRow(p.index, p.content, p.tokens, generation)
            && Offset(parents, i) + |p.children| <= |vectors|
            && (j < |p.children| ==>
                  var c := p.children[j];
                  && first + 1 + j < |rows|
                  && rows[first + 1 + j]
                     == ChildRow(p.index * 100_000 + c.index, c.content, c.tokens, generation,
                                 vectors[Offset(parents, i) + j], model, p.index, c.index))
  {
    RowsLength(parents, vectors, 0, generation, model);
    OffsetWithin(parents, i);
    var p := parents[i];
    InBlock(p, vectors, Offset(parents, i), generation, model, j);
    var from, first := Offset(parents, i), i + Offset(parents, i);
    RowsFrom(parents, vectors, 0, generation, model, i, p, from, 0,
             ParentRow(p.index, p.content, p.tokens, generation), first);
    if j < |p.children| {
      var r := RowOf(p, p.children[j], generation, vectors[Offset(parents, i) + j], model);
      RowsFrom(parents, vectors, 0, generation, model, i, p, from, 1 + j, r, first + 1 + j);
    }
  }

  // ------------------------------------------------------------ chunk numbers

  /** Parents numbered on from base, children numbered from 0, as hierarchical_chunks makes them. */
  ghost predicate Numbered(parents: seq<Parent>, base: nat) {
    forall i | 0 <= i < |parents| ::
      && parents[i].index == base + i && 0 < |parents[i].children|
      && forall j | 0 <= j < |parents[i].children| :: parents[i].children[j].index == j
  }

  /** Every parent but the last has at most STRIDE children. */
  ghost predicate WithinStride(parents: seq<Parent>) {
    forall i | 0 <= i < |parents| - 1 :: |parents[i].children| <= STRIDE
  }

  ghost predicate Above(rows: seq<Chunk>, base: nat) {
    forall r | r in rows :: if r.ParentRow? then base <= r.chunkIndex else base * STRIDE <= r.chunkIndex
  }

  lemma {:induction false} ChildRowsRange(p: Parent, k: nat, vectors: seq<Vector>, at: nat, generation: nat,
                                          model: string)
    requires k <= |p.children| && at + |p.children| - k <= |vectors|
    requires forall j | 0 <= j < |p.children| :: p.children[j].index == j
    ensures var rows := ChildRows(p, k, vectors, at, generation, model);
            && |rows| == |p.children| - k && NoCollision(rows) && Below(rows, p.index * STRIDE + |p.children|)
            && forall r | r in rows :: p.index * STRIDE + k <= r.chunkIndex
    decreases |p.children| - k
  {
    if k < |p.children| {
      ChildRowsRange(p, k + 1, vectors, at + 1, generation, model);
    }
  }

  lemma {:induction false} RowsRange(parents: seq<Parent>, vectors: seq<Vector>, at: nat, generation: nat,
                                     model: string, base: nat)
    requires at + ChildCount(parents) <= |vectors| && Numbered(parents, base)
    ensures Above(Rows(parents, vectors, at, generation, model), base)
  {
    if parents != [] {
      assert Numbered(parents[1..], base + 1);
      RowsRange(parents[1..], vectors, at + |parents[0].children|, generation, model, base + 1);
      ChildRowsRange(parents[0], 0, vectors, at, generation, model);
    }
  }

  ghost predicate Below(rows: seq<Chunk>, bound: int) {
    forall r | r in rows :: r.ChildRow? && r.chunkIndex < bound
  }

  /** The rows of parent number base stay apart from those of the parents after it. */
  lemma JoinRows(parent: Chunk, children: seq<Chunk>, more: seq<Chunk>, base: nat)
    requires parent.ParentRow? && parent.chunkIndex == base
    requires NoCollision(children) && Below(children, base * STRIDE + |children|)
    requires NoCollision(more) && Above(more, base + 1)
    requires more == [] || |children| <= STRIDE
    ensures NoCollision([parent] + children + more)
  {
    NoCollisionConcat([parent], children);
    if more == [] {
      assert [parent] + children + more == [parent] + children;
    } else {
      forall x, y | x in [parent] + children && y in more
        ensures x.ParentRow? == y.ParentRow? ==> x.chunkIndex != y.chunkIndex
      {
        if x.ParentRow? { assert x == parent; } else { assert x in children; }
      }
      NoCollisionConcat([parent] + children, more);
    }
  }

  lemma RestIsNumbered(parents: seq<Parent>, base: nat)
    requires parents != [] && Numbered(parents, base) && WithinStride(parents)
    ensures Numbered(parents[1..], base + 1) && WithinStride(parents[1..]) && parents[0].index == base
    ensures forall j | 0 <= j < |parents[0].children| :: parents[0].children[j].index == j
    ensures parents[1..] != [] ==> |parents[0].children| <= STRIDE
  {
  }

  lemma JoinFirst(parents: seq<Parent>, vectors: seq<Vector>, at: nat, generation: nat, model: string, base: nat)
    requires parents != [] && at + ChildCount(parents) <= |vectors|
    requires Numbered(parents, base) && WithinStride(parents)
    requires NoCollision(Rows(parents[1..], vectors, at + |parents[0].children|, generation, model))
    ensures NoCollision(Rows(parents, vectors, at, generation, model))
  {
    var p, rest := parents[0], parents[1..];
    RestIsNumbered(parents, base);
    RowsRange(rest, vectors, at + |p.children|, generation, model, base + 1);
    ChildRowsRange(p, 0, vectors, at, generation, model);
    JoinRows(ParentRow(p.index, p.content, p.tokens, generation), ChildRows(p, 0, vectors, at, generation, model),
             Rows(rest, vectors, at + |p.children|, generation, model), base);
  }

  lemma {:induction false} RowsDoNotCollide(parents: seq<Parent>, vectors: seq<Vector>, at: nat, generation: nat,
                                            model: string, base: nat)
    requires at + ChildCount(parents) <= |vectors| && Numbered(parents, base) && WithinStride(parents)
    ensures NoCollision(Rows(parents, vectors, at, generation, model))
  {
    if parents != [] {
      RestIsNumbered(parents, base);
      RowsDoNotCollide(parents[1..], vectors, at + |parents[0].children|, generation, model, base + 1);
      JoinFirst(parents, vectors, at, generation, model, base);
    }
  }

  lemma NoCollisionConcat(a: seq<Chunk>, b: seq<Chunk>)
    requires NoCollision(a) && NoCollision(b)
    requires forall x, y | x in a && y in b :: x.ParentRow? == y.ParentRow? ==> x.chunkIndex != y.chunkIndex
    ensures NoCollision(a + b)
  {
    var ab := a + b;
    forall i, j | 0 <= i < j < |ab|
      ensures ab[i].ParentRow? == ab[j].ParentRow? ==> ab[i].chunkIndex != ab[j].chunkIndex
    {
      if i < |a| <= j { assert ab[i] in a && ab[j] in b; }
    }
  }

  lemma TwoRowsCollide(rows: seq<Chunk>, x: Chunk, y: Chunk)
    requires x in rows && y in rows && x != y
    requires x.ParentRow? == y.ParentRow? && x.chunkIndex == y.chunkIndex
    ensures !NoCollision(rows)
  {
    var m :| 0 <= m < |rows| && rows[m] == x;
    var n :| 0 <= n < |rows| && rows[n] == y;
    assert m < n || n < m;
  }

  /** The child after the last of its block has the number of the next parent's first child. */
  lemma OverflowCollides(parents: seq<Parent>, vectors: seq<Vector>, generation: nat, model: string, i: nat)
    requires ChildCount(parents) <= |vectors| && Numbered(parents, 0)
    requires i + 1 < |parents| && |parents[i].children| > STRIDE
    ensures !NoCollision(Rows(parents, vectors, 0, generation, model))
  {
    var over, first := parents[i].children[STRIDE], parents[i + 1].children[0];
    ChildRowIn(parents, vectors, 0, generation, model, i, STRIDE);
    ChildRowIn(parents, vectors, 0, generation, model, i + 1, 0);
    TwoRowsCollide(Rows(parents, vectors, 0, generation, model),
      RowOf(parents[i], over, generation, vectors[Offset(parents, i) + STRIDE], model),
      RowOf(parents[i + 1], first, generation, vectors[Offset(parents, i + 1)], model));
  }

  /** Chunk numbers are unique exactly when no parent but the last has more than 100,000 children. */
  lemma CollisionFreeIff(parents: seq<Parent>, vectors: seq<Vector>, generation: nat, model: string)
    requires ChildCount(parents) <= |vectors| && Numbered(parents, 0)
    ensures NoCollision(Rows(parents, vectors, 0, generation, model)) <==> WithinStride(parents)
  {
    if WithinStride(parents) {
      RowsDoNotCollide(parents, vectors, 0, generation, model, 0);
    } else {
      var i :| 0 <= i < |parents| - 1 && |parents[i].children| > STRIDE;
      OverflowCollides(parents, vectors, generation, model, i);
    }
  }

  lemma GoodParentsNumbered(parents: seq<Parent>, parentSize: int, childSize: int, overlap: int)
    requires forall i | 0 <= i < |parents| ::
             parents[i].index == i && GoodParent(parents[i], parentSize, childSize, overlap)
    ensures Numbered(parents, 0)
    ensures forall i | 0 <= i < |parents| :: |parents[i].children| <= parentSize
  {
    forall i | 0 <= i < |parents|
      ensures 0 < |parents[i].children| <= parentSize
              && forall j | 0 <= j < |parents[i].children| :: parents[i].children[j].index == j
    {
      assert GoodParent(parents[i], parentSize, childSize, overlap);
    }
  }

  // ------------------------------------------------------------ what the table takes

  /** The largest value of an INTEGER column. */
  const INT_MAX := 2_147_483_647

  /** TEXT columns take every character but NUL. */
  predicate StorableText(s: string) {
    '\0' !in s
  }

  predicate NumberFits(r: Chunk) {
    r.chunkIndex <= INT_MAX
  }

  /** Apart from its number; accepts tells which vectors the vector column takes. */
  predicate ContentFits(r: Chunk, accepts: Vector -> bool) {
    r.tokens <= INT_MAX && StorableText(r.content) && (r.ChildRow? ==> accepts(r.embedding) && StorableText(r.model))
  }

  predicate Insertable(rows: seq<Chunk>, accepts: Vector -> bool) {
    NoCollision(rows) && (forall r | r in rows :: NumberFits(r)) && (forall r | r in rows :: ContentFits(r, accepts))
  }

  ghost predicate UpTo(rows: seq<Chunk>, bound: int) {
    forall r | r in rows :: r.chunkIndex <= bound
  }

  lemma UpToConcat(a: seq<Chunk>, b: seq<Chunk>, c: seq<Chunk>, bound: int)
    requires UpTo(a, bound) && UpTo(b, bound) && UpTo(c, bound)
    ensures UpTo(a + b + c, bound)
  {
  }

  lemma BlockUpTo(p: Parent, vectors: seq<Vector>, at: nat, generation: nat, model: string, bound: int)
    requires at + |p.children| <= |vectors| && forall j | 0 <= j < |p.children| :: p.children[j].index == j
    requires p.index * STRIDE + |p.children| - 1 <= bound
    ensures UpTo(ChildRows(p, 0, vectors, at, generation, model), bound)
  {
    ChildRowsRange(p, 0, vectors, at, generation, model);
  }

  lemma {:induction false} RowsUpTo(parents: seq<Parent>, vectors: seq<Vector>, at: nat, generation: nat, model: string,
                                    base: nat, bound: int)
    requires at + ChildCount(parents) <= |vectors| && Numbered(parents, base) && WithinStride(parents) && parents != []
    requires bound == ChildNumber(base + |parents| - 1, |parents[|parents| - 1].children| - 1)
    ensures UpTo(Rows(parents, vectors, at, generation, model), bound)
  {
    var p, rest := parents[0], parents[1..];
    BlockUpTo(p, vectors, at, generation, model, bound);
    if rest != [] {
      assert Numbered(rest, base + 1) && WithinStride(rest) && rest[|rest| - 1] == parents[|parents| - 1];
      RowsUpTo(rest, vectors, at + |p.children|, generation, model, base + 1, bound);
    }
    UpToConcat([ParentRow(p.index, p.content, p.tokens, generation)], ChildRows(p, 0, vectors, at, generation, model),
               Rows(rest, vectors, at + |p.children|, generation, model), bound);
  }

  /** All rows have numbers of their own that fit the column exactly when the strides and the very last number do. */
  lemma NumbersFitIff(parents: seq<Parent>, vectors: seq<Vector>, generation: nat, model: string)
    requires ChildCount(parents) <= |vectors| && Numbered(parents, 0) && parents != []
    ensures var rows, last := Rows(parents, vectors, 0, generation, model), |parents| - 1;
            NoCollision(rows) && (forall r | r in rows :: NumberFits(r))
            <==> WithinStride(parents) && ChildNumber(last, |parents[last].children| - 1) <= INT_MAX
  {
    var last := |parents| - 1;
    CollisionFreeIff(parents, vectors, generation, model);
    ChildRowIn(parents, vectors, 0, generation, model, last, |parents[last].children| - 1);
    if WithinStride(parents) {
      RowsUpTo(parents, vectors, 0, generation, model, 0, ChildNumber(last, |parents[last].children| - 1));
    }
  }

  /** From 21,476 parents on the table refuses the rows. */
  lemma TooManyParents(parents: seq<Parent>, vectors: seq<Vector>, generation: nat, model: string,
                       accepts: Vector -> bool)
    requires ChildCount(parents) <= |vectors| && Numbered(parents, 0) && |parents| > 21_475
    ensures !Insertable(Rows(parents, vectors, 0, generation, model), accepts)
  {
    ChildRowIn(parents, vectors, 0, generation, model, 21_475, 0);
  }

  /** What hierarchical_chunks makes of a text. */
  ghost predicate MadeFrom(parents: seq<Parent>, text: string, parentSize: int, childSize: int, overlap: int) {
    && ValidSizes(parentSize, 0) && InkOf(Contents(parents)) == Ink(text)
    && Contents(parents) == Pack("", Paragraphs(text), parentSize)
    && forall i | 0 <= i < |parents| :: parents[i].index == i && GoodParent(parents[i], parentSize, childSize, overlap)
  }

  /** Short enough a text for its parent size that its chunk numbers fit. */
  predicate ShortEnough(text: string, parentSize: int) {
    3 * |text| + parentSize + 3 < 21_476 * (parentSize + 6)
  }

  lemma FewEnough(n: nat, length: nat, size: nat)
    requires n * (size + 6) <= 3 * length + size + 3 && 3 * length + size + 3 < 21_476 * (size + 6)
    ensures n <= 21_475
  {
    Times(21_476, n, size + 6);
  }

  lemma Times(m: nat, n: nat, d: nat)
    ensures m <= n ==> m * d <= n * d
  {
  }

  lemma {:induction false} InJoined(parts: seq<string>, i: nat, c: char)
    requires i < |parts| && c in parts[i]
    ensures c in Join(parts)
  {
    if i > 0 { InJoined(parts[1..], i - 1, c); }
  }

  lemma {:induction false} InInk(s: string, c: char)
    requires !IsSpace(c)
    ensures c in s <==> c in Ink(s)
  {
    if s != "" {
      InInk(s[1..], c);
      assert c in s <==> c == s[0] || c in s[1..];
    }
  }

  lemma {:induction false} CutTakesFrom(text: string, windows: seq<(nat, nat)>, piece: string, c: char)
    requires InText(text, windows) && piece in Cut(text, windows)
    ensures |piece| <= |text| && (c in piece ==> c in text)
  {
    var lo, hi := windows[0].0, windows[0].1;
    if piece in Kept(Strip(text[lo..hi])) {
      var a, b := StripCut(text[lo..hi]);
    } else {
      CutTakesFrom(text, windows[1..], piece, c);
    }
  }

  ghost predicate StorableParent(p: Parent) {
    && p.tokens <= INT_MAX && StorableText(p.content)
    && forall j | 0 <= j < |p.children| :: p.children[j].tokens <= INT_MAX && StorableText(p.children[j].content)
  }

  lemma ParentIsStorable(p: Parent, parentSize: int, childSize: int, overlap: int)
    requires GoodParent(p, parentSize, childSize, overlap) && parentSize <= 20_000 && StorableText(p.content)
    ensures StorableParent(p)
  {
    var windows := Windows(p.content, 0, childSize, overlap);
    forall j | 0 <= j < |p.children|
      ensures p.children[j].tokens <= INT_MAX && StorableText(p.children[j].content)
    {
      assert p.children[j].content == Cut(p.content, windows)[j];
      CutTakesFrom(p.content, windows, p.children[j].content, '\0');
    }
  }

  lemma {:induction false} ChildContentsFit(p: Parent, k: nat, vectors: seq<Vector>, at: nat, generation: nat,
                                            model: string, accepts: Vector -> bool)
    requires k <= |p.children| && at + |p.children| - k <= |vectors| && StorableParent(p)
    requires StorableText(model) && forall m | 0 <= m < |vectors| :: accepts(vectors[m])
    ensures forall r | r in ChildRows(p, k, vectors, at, generation, model) :: ContentFits(r, accepts)
    decreases |p.children| - k
  {
    if k < |p.children| { ChildContentsFit(p, k + 1, vectors, at + 1, generation, model, accepts); }
  }

  lemma {:induction false} RowContentsFit(parents: seq<Parent>, vectors: seq<Vector>, at: nat, generation: nat,
                                          model: string, accepts: Vector -> bool)
    requires at + ChildCount(parents) <= |vectors| && forall i | 0 <= i < |parents| :: StorableParent(parents[i])
    requires StorableText(model) && forall m | 0 <= m < |vectors| :: accepts(vectors[m])
    ensures forall r | r in Rows(parents, vectors, at, generation, model) :: ContentFits(r, accepts)
  {
    if parents != [] {
      assert StorableParent(parents[0]);
      RowContentsFit(parents[1..], vectors, at + |parents[0].children|, generation, model, accepts);
      ChildContentsFit(parents[0], 0, vectors, at, generation, model, accepts);
    }
  }

  lemma MadeContentIsStorable(parents: seq<Parent>, text: string, i: nat)
    requires InkOf(Contents(parents)) == Ink(text) && StorableText(text) && i < |parents|
    ensures StorableText(parents[i].content)
  {
    var contents := Contents(parents);
    assert contents[i] == parents[i].content;
    if '\0' in contents[i] { InJoined(contents, i, '\0'); }
    InInk(Join(contents), '\0');
    InInk(text, '\0');
  }

  lemma VectorsAccepted(parents: seq<Parent>, vectors: seq<Vector>, generation: nat, model: string,
                        accepts: Vector -> bool)
    requires ChildCount(parents) == |vectors| && Insertable(Rows(parents, vectors, 0, generation, model), accepts)
    ensures forall k | 0 <= k < |vectors| :: accepts(vectors[k])
  {
    forall k | 0 <= k < |vectors| ensures accepts(vectors[k]) {
      var i, j := ChildAt(parents, k);
      ChildRowIn(parents, vectors, 0, generation, model, i, j);
      assert ContentFits(RowOf(parents[i], parents[i].children[j], generation, vectors[k], model), accepts);
    }
  }

  /** Parents made of a short enough text within the configured sizes always give rows the table takes. */
  lemma ConfiguredSizesFit(text: string, parents: seq<Parent>, parentSize: int, childSize: int, overlap: int,
                           vectors: seq<Vector>, generation: nat, model: string, accepts: Vector -> bool)
    requires MadeFrom(parents, text, parentSize, childSize, overlap)
    requires 3 <= parentSize <= 20_000 && ShortEnough(text, parentSize) && StorableText(text)
    requires ChildCount(parents) <= |vectors| && StorableText(model)
             && forall m | 0 <= m < |vectors| :: accepts(vectors[m])
    ensures Insertable(Rows(parents, vectors, 0, generation, model), accepts)
  {
    GoodParentsNumbered(parents, parentSize, childSize, overlap);
    forall i | 0 <= i < |parents| ensures StorableParent(parents[i]) {
      MadeContentIsStorable(parents, text, i);
      ParentIsStorable(parents[i], parentSize, childSize, overlap);
    }
    RowContentsFit(parents, vectors, 0, generation, model, accepts);
    if parents == [] {
    } else {
      ChunkCounts.ParentsCount(text, parentSize);
      FewEnough(|parents|, |text|, parentSize);
      NumbersFitIff(parents, vectors, generation, model);
    }
  }

  /**
   * A text of letters and newlines, less than a parent longer than short enough ones can be, whose rows are refused.
   */
  lemma DenseTextIsRefused(parents: seq<Parent>, parentSize: int, childSize: int, overlap: int,
                           vectors: seq<Vector>, generation: nat, model: string, accepts: Vector -> bool)
    requires parentSize > 0
    requires MadeFrom(parents, ChunkCounts.DenseText(7_158, parentSize), parentSize, childSize, overlap)
    requires ChildCount(parents) <= |vectors|
    ensures |ChunkCounts.DenseText(7_158, parentSize)| == 7_159 * parentSize + 42_949
    ensures StorableText(ChunkCounts.DenseText(7_158, parentSize))
    ensures !Insertable(Rows(parents, vectors, 0, generation, model), accepts)
  {
    ChunkCounts.DenseTextParents(7_158, parentSize);
    ChunkCounts.DenseShape(7_158, parentSize);
    GoodParentsNumbered(parents, parentSize, childSize, overlap);
    TooManyParents(parents, vectors, generation, model, accepts);
  }
}
