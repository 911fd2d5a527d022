/** The ingestion protocol: repositories/knowledge.py and KnowledgeIngestor of engine/knowledge.py. */
module Ingestion {
  import opened Text
  import opened Chunking
  import opened ChunkRows
  import ChunkCounts

  type Id = nat

  datatype Status = QUEUED | PROCESSING | READY | FAILED

  /** The columns of the unique index: content hash, scope and conversation. */
  datatype ContentKey = ContentKey(hash: string, global: bool, conversation: Option<Id>)

  datatype Document = Document(key: ContentKey, status: Status, generation: nat, updatedAt: int,
                               rawText: Option<string>, model: Option<string>, error: Option<string>)

  /** Whether a kb_ingest_outbox row has been published. */
  datatype Task = Task(published: bool, error: Option<string>)

  datatype Db = Db(documents: map<Id, Document>, chunks: map<Id, seq<Chunk>>, outbox: map<(Id, nat), Task>)

  const EMPTY := Db(map[], map[], map[])

  /** The lease length, and which vectors the vector column takes. */
  datatype Config = Config(lease: int, accepts: Vector -> bool)

  // ------------------------------------------------------------ the transactions

  predicate ClaimableBy(d: Document, generation: nat, now: int, lease: int) {
    d.generation == generation
    && (d.status == QUEUED || d.status == FAILED || (d.status == PROCESSING && d.updatedAt < now - lease))
  }

  datatype ClaimStatus = ACQUIRED | BUSY | TERMINAL

  function Claim(db: Db, id: Id, generation: nat, now: int, lease: int): (Db, ClaimStatus) {
    if id in db.documents && ClaimableBy(db.documents[id], generation, now, lease) then
      (db.(documents := db.documents[id := db.documents[id].(status := PROCESSING, error := None, updatedAt := now)]),
       ACQUIRED)
    else if id in db.documents && db.documents[id].generation == generation && db.documents[id].status == PROCESSING
      then (db, BUSY)
    else (db, TERMINAL)
  }

  predicate Completable(db: Db, id: Id, generation: nat) {
    id in db.documents && db.documents[id].generation == generation && db.documents[id].status == PROCESSING
  }

  /** The statements of complete_ingestion go through: enough vectors, rows the tables take. */
  predicate Accepted(text: string, parents: seq<Parent>, vectors: seq<Vector>, generation: nat, model: string,
                     accepts: Vector -> bool)
  {
    && ChildCount(parents) <= |vectors| && Insertable(Rows(parents, vectors, 0, generation, model), accepts)
    && StorableText(text) && StorableText(model)
  }

  /** Some(committed) is the returned flag; None an exception that rolls the transaction back. */
  function Complete(db: Db, id: Id, generation: nat, text: string, parents: seq<Parent>, vectors: seq<Vector>,
                    model: string, now: int, accepts: Vector -> bool): (Db, Option<bool>)
  {
    if !Completable(db, id, generation) then (db, Some(false))
    else if !Accepted(text, parents, vectors, generation, model, accepts) then (db, None)
    else (db.(chunks := db.chunks[id := Rows(parents, vectors, 0, generation, model)],
              documents := db.documents[id := db.documents[id].(status := READY, rawText := Some(text),
                                                                model := Some(model),
                                                                error := None, updatedAt := now)]),
          Some(true))
  }

  function Fail(db: Db, id: Id, generation: nat, error: string, now: int): Db {
    if id in db.documents && db.documents[id].generation == generation then
      db.(documents := db.documents[id := db.documents[id].(status := FAILED, error := Some(error), updatedAt := now)])
    else db
  }

  function Requeue(db: Db, id: Id, now: int): Db {
    if id !in db.documents then db else
      var d := db.documents[id];
      var generation := d.generation + 1;
      db.(documents := db.documents[id := d.(generation := generation, status := QUEUED, error := None,
                                             updatedAt := now)],
          outbox := if (id, generation) in db.outbox then db.outbox
            else db.outbox[(id, generation) := Task(false, None)])
  }

  predicate HasKey(db: Db, key: ContentKey) {
    exists id | id in db.documents :: db.documents[id].key == key
  }

  /** INSERT ... ON CONFLICT (id, generation): a failed document is offered again, a queued one keeps its row. */
  function Offer(db: Db, id: Id): Db
    requires id in db.documents
  {
    var d := db.documents[id];
    var slot := (id, d.generation);
    if d.status != QUEUED && d.status != FAILED then db
    else if slot !in db.outbox || d.status == FAILED then db.(outbox := db.outbox[slot := Task(false, None)])
    else db
  }

  /** The row the unique index finds for a content key. */
  ghost predicate Finds(db: Db, key: ContentKey, found: Option<Id>) {
    if found.Some? then found.value in db.documents && db.documents[found.value].key == key else !HasKey(db, key)
  }

  /** create_document, given the row found by content; None is the violated primary key. */
  function Create(db: Db, id: Id, d: Document, found: Option<Id>): (Db, Option<Id>)
    requires found.Some? ==> found.value in db.documents
  {
    if found.Some? then (Offer(db, found.value), found)
    else if id in db.documents then (db, None)
    else
      var slot := (id, d.generation);
      (Db(db.documents[id := d], db.chunks[id := []],
          if slot in db.outbox then db.outbox else db.outbox[slot := Task(false, None)]),
       Some(id))
  }

  /** DELETE with its cascades. */
  function Delete(db: Db, id: Id): Db {
    Db(db.documents - {id}, db.chunks - {id}, map t | t in db.outbox && t.0 != id :: db.outbox[t])
  }

  function MarkPublished(db: Db, id: Id, generation: nat): Db {
    if (id, generation) in db.outbox then db.(outbox := db.outbox[(id, generation) := Task(true, None)]) else db
  }

  function MarkFailed(db: Db, id: Id, generation: nat, error: string): Db {
    if (id, generation) in db.outbox && !db.outbox[(id, generation)].published
    then db.(outbox := db.outbox[(id, generation) := Task(false, Some(error))]) else db
  }

  // ------------------------------------------------------------ any interleaving of workers and operators

  /** The arguments of a completed ingestion. */
  datatype Written = Written(generation: nat, parents: seq<Parent>, vectors: seq<Vector>, model: string)

  /** The database, the clock, per document the last ingestion that completed, and the document ids drawn so far. */
  datatype State = State(db: Db, now: int, written: map<Id, Written>, used: set<Id>)

  const INITIAL := State(EMPTY, 0, map[], {})

  datatype Action =
    | Creating(id: Id, d: Document, found: Option<Id>)
    | Requeueing(id: Id)
    | Deleting(id: Id)
    | Claiming(id: Id, generation: nat)
    | Completing(id: Id, generation: nat, text: string, parents: seq<Parent>, vectors: seq<Vector>, model: string)
    | Failing(id: Id, generation: nat, error: string)
    | Publishing(id: Id, generation: nat)
    | PublishFailing(id: Id, generation: nat, error: string)
    | Tick(elapsed: nat)

  /** A created document has a new id, is QUEUED, and found is what the unique index holds. */
  ghost predicate Possible(s: State, a: Action) {
    a.Creating? ==> Finds(s.db, a.d.key, a.found) && a.d.status == QUEUED && a.id !in s.used
  }

  ghost function Step(s: State, a: Action, cfg: Config): State
    requires Possible(s, a)
  {
    match a
    case Creating(id, d, found) => s.(db := Create(s.db, id, d, found).0, used := s.used + {id})
    case Requeueing(id) => s.(db := Requeue(s.db, id, s.now))
    case Deleting(id) => s.(db := Delete(s.db, id), written := s.written - {id})
    case Claiming(id, generation) => s.(db := Claim(s.db, id, generation, s.now, cfg.lease).0)
    case Completing(id, generation, text, parents, vectors, model) =>
      var (db, r) := Complete(s.db, id, generation, text, parents, vectors, model, s.now, cfg.accepts);
      s.(db := db, written := if r == Some(true) then s.written[id := Written(generation, parents, vectors, model)]
        else s.written)
    case Failing(id, generation, error) => s.(db := Fail(s.db, id, generation, error, s.now))
    case Publishing(id, generation) => s.(db := MarkPublished(s.db, id, generation))
    case PublishFailing(id, generation, error) => s.(db := MarkFailed(s.db, id, generation, error))
    case Tick(elapsed) => s.(now := s.now + elapsed)
  }

  ghost predicate StepAt(states: seq<State>, actions: seq<Action>, cfg: Config, i: nat)
    requires i < |actions| && |states| == |actions| + 1
  {
    Possible(states[i], actions[i]) && states[i + 1] == Step(states[i], actions[i], cfg)
  }

  ghost predicate IsRun(states: seq<State>, actions: seq<Action>, cfg: Config) {
    && |states| == |actions| + 1 && states[0] == INITIAL
    && forall i {:trigger StepAt(states, actions, cfg, i)} | 0 <= i < |actions| :: StepAt(states, actions, cfg, i)
  }

  /**
   * The chunk rows of a document are those of its last completed ingestion, which is current if the document is READY.
   */
  ghost predicate FromLastIngestion(rows: seq<Chunk>, d: Document, w: Written) {
    && ChildCount(w.parents) <= |w.vectors| && w.generation <= d.generation
    && rows == Rows(w.parents, w.vectors, 0, w.generation, w.model) && NoCollision(rows)
    && (d.status == READY ==> w.generation == d.generation)
  }

  ghost predicate Sound(s: State, id: Id)
    requires id in s.db.documents && id in s.db.chunks
  {
    && (if id in s.written then FromLastIngestion(s.db.chunks[id], s.db.documents[id], s.written[id])
       else s.db.chunks[id] == [] && s.db.documents[id].status != READY)
    && (s.db.documents[id].status == QUEUED ==> (id, s.db.documents[id].generation) in s.db.outbox)
  }

  ghost predicate Tables(s: State) {
    && s.db.chunks.Keys == s.db.documents.Keys && s.written.Keys <= s.db.documents.Keys <= s.used
    && forall t {:trigger t in s.db.outbox} | t in s.db.outbox ::
       t.0 in s.db.documents && t.1 <= s.db.documents[t.0].generation
  }

  ghost predicate Inv(s: State) {
    Tables(s) && forall id {:trigger Sound(s, id)} | id in s.db.documents :: Sound(s, id)
  }

  lemma TablesKeep(s: State, a: Action, cfg: Config)
    requires Tables(s) && Possible(s, a)
    ensures Tables(Step(s, a, cfg))
  {
  }

  /** A document this step adds, or changes, is sound afterwards if it was before. */
  lemma SoundKeeps(s: State, a: Action, cfg: Config, id: Id)
    requires Tables(s) && Possible(s, a) && Tables(Step(s, a, cfg))
    requires id in s.db.documents ==> Sound(s, id)
    requires id in Step(s, a, cfg).db.documents
    ensures Sound(Step(s, a, cfg), id)
  {
    match a {
      case Completing(_, _, _, _, _, _) => CompletingKeeps(s, a, cfg, id);
      case Creating(_, _, _) => CreatingKeeps(s, a, cfg, id);
      case Requeueing(_) => RequeueingKeeps(s, a, cfg, id);
      case _ =>
    }
  }

  lemma CreatingKeeps(s: State, a: Action, cfg: Config, id: Id)
    requires Tables(s) && a.Creating? && Possible(s, a) && id in Step(s, a, cfg).db.documents
    requires id in s.db.documents ==> Sound(s, id)
    ensures id in Step(s, a, cfg).db.chunks && Sound(Step(s, a, cfg), id)
  {
  }

  lemma RequeueingKeeps(s: State, a: Action, cfg: Config, id: Id)
    requires Tables(s) && a.Requeueing? && id in s.db.documents && Sound(s, id)
    ensures Sound(Step(s, a, cfg), id)
  {
  }

  lemma CompletingKeeps(s: State, a: Action, cfg: Config, id: Id)
    requires Tables(s) && a.Completing? && id in s.db.documents && Sound(s, id)
    ensures Sound(Step(s, a, cfg), id)
  {
  }

  lemma StepKeeps(s: State, a: Action, cfg: Config)
    requires Inv(s) && Possible(s, a)
    ensures Inv(Step(s, a, cfg))
  {
    TablesKeep(s, a, cfg);
    forall id | id in Step(s, a, cfg).db.documents ensures Sound(Step(s, a, cfg), id) {
      assert id in s.db.documents ==> Sound(s, id);
      SoundKeeps(s, a, cfg, id);
    }
  }

  lemma {:induction false} RunKeeps(states: seq<State>, actions: seq<Action>, cfg: Config, n: nat)
    requires IsRun(states, actions, cfg) && n < |states|
    ensures Inv(states[n])
  {
    if n > 0 {
      RunKeeps(states, actions, cfg, n - 1);
      assert StepAt(states, actions, cfg, n - 1);
      StepKeeps(states[n - 1], actions[n - 1], cfg);
    }
  }

  lemma {:induction false} RowsGeneration(parents: seq<Parent>, vectors: seq<Vector>, at: nat, generation: nat,
                                          model: string)
    requires at + ChildCount(parents) <= |vectors|
    ensures forall r | r in Rows(parents, vectors, at, generation, model) :: r.generation == generation
  {
    if parents != [] {
      RowsGeneration(parents[1..], vectors, at + |parents[0].children|, generation, model);
      ChildRowsGeneration(parents[0], 0, vectors, at, generation, model);
    }
  }

  lemma {:induction false} ChildRowsGeneration(p: Parent, k: nat, vectors: seq<Vector>, at: nat, generation: nat,
                                               model: string)
    requires k <= |p.children| && at + |p.children| - k <= |vectors|
    ensures forall r | r in ChildRows(p, k, vectors, at, generation, model) :: r.generation == generation
    decreases |p.children| - k
  {
    if k < |p.children| { ChildRowsGeneration(p, k + 1, vectors, at + 1, generation, model); }
  }

  /** The chunks of a READY document all carry its current generation and were written by one complete_ingestion. */
  lemma ReadyChunksAreCurrent(states: seq<State>, actions: seq<Action>, cfg: Config, n: nat, id: Id)
    requires IsRun(states, actions, cfg) && n < |states|
    requires id in states[n].db.documents && states[n].db.documents[id].status == READY
    ensures var s := states[n];
            && id in s.db.chunks
            && (forall c | c in s.db.chunks[id] :: c.generation == s.db.documents[id].generation)
            && id in s.written && ChildCount(s.written[id].parents) <= |s.written[id].vectors|
            && s.db.chunks[id] == Rows(s.written[id].parents, s.written[id].vectors, 0,
                                       s.db.documents[id].generation, s.written[id].model)
  {
    RunKeeps(states, actions, cfg, n);
    var s := states[n];
    assert Sound(s, id);
    var w := s.written[id];
    RowsGeneration(w.parents, w.vectors, 0, w.generation, w.model);
  }

  /** Every QUEUED document has an outbox row for its generation, so a publisher will find it or already has. */
  lemma QueuedIsOffered(states: seq<State>, actions: seq<Action>, cfg: Config, n: nat, id: Id)
    requires IsRun(states, actions, cfg) && n < |states|
    requires id in states[n].db.documents && states[n].db.documents[id].status == QUEUED
    ensures (id, states[n].db.documents[id].generation) in states[n].db.outbox
  {
    RunKeeps(states, actions, cfg, n);
    assert Sound(states[n], id);
  }

  /** No two documents share content, scope and conversation. */
  ghost predicate OneEach(db: Db) {
    forall x, y | x in db.documents && y in db.documents && db.documents[x].key == db.documents[y].key :: x == y
  }

  lemma OneEachKeeps(s: State, a: Action, cfg: Config)
    requires OneEach(s.db) && Possible(s, a)
    ensures OneEach(Step(s, a, cfg).db)
  {
    var db := Step(s, a, cfg).db;
    forall x, y | x in db.documents && y in db.documents && db.documents[x].key == db.documents[y].key ensures x == y {
      if !(x in s.db.documents && y in s.db.documents) { assert a.Creating?; }
    }
  }

  /** The lookup by content in create_document never has two candidates. */
  lemma {:induction false} OneDocumentPerContent(states: seq<State>, actions: seq<Action>, cfg: Config, n: nat)
    requires IsRun(states, actions, cfg) && n < |states|
    ensures OneEach(states[n].db)
  {
    if n > 0 {
      OneDocumentPerContent(states, actions, cfg, n - 1);
      assert StepAt(states, actions, cfg, n - 1);
      OneEachKeeps(states[n - 1], actions[n - 1], cfg);
    }
  }

  /** A requeue always leaves an unpublished row: no earlier row can occupy the new generation. */
  lemma RequeueIsPending(states: seq<State>, actions: seq<Action>, cfg: Config, n: nat, id: Id)
    requires IsRun(states, actions, cfg) && n < |states| && id in states[n].db.documents
    ensures var db := Requeue(states[n].db, id, states[n].now);
            && db.documents[id].status == QUEUED
            && db.documents[id].generation == states[n].db.documents[id].generation + 1
            && (id, db.documents[id].generation) in db.outbox
            && db.outbox[(id, db.documents[id].generation)] == Task(false, None)
  {
    RunKeeps(states, actions, cfg, n);
  }

  // ------------------------------------------------------------ the repository and the ingestor

  class KnowledgeRepository {
    var documents: map<Id, Document>
    var chunks: map<Id, seq<Chunk>>
    var outbox: map<(Id, nat), Task>
    const cfg: Config

    ghost function Contents(): Db
      reads this
    {
      Db(documents, chunks, outbox)
    }

    constructor (cfg: Config)
      ensures Contents() == EMPTY && this.cfg == cfg
    {
      documents, chunks, outbox, this.cfg := map[], map[], map[], cfg;
    }

    method FindKey(key: ContentKey) returns (found: Option<Id>)
      ensures Finds(Contents(), key, found)
    {
      var rest := documents.Keys;
      while rest != {}
        invariant rest <= documents.Keys
        invariant forall id | id in documents && id !in rest :: documents[id].key != key
        decreases rest
      {
        var id :| id in rest;
        if documents[id].key == key { return Some(id); }
        rest := rest - {id};
      }
      return None;
    }

    method CreateDocument(id: Id, d: Document) returns (stored: Option<Id>, ghost found: Option<Id>)
      modifies this
      ensures Finds(old(Contents()), d.key, found)
      ensures (Contents(), stored) == Create(old(Contents()), id, d, found)
    {
      var row := FindKey(d.key);
      found := row;
      if row.None? {
        if id in documents { return None, found; }
        documents, chunks := documents[id := d], chunks[id := []];
        row := Some(id);
        if (id, d.generation) !in outbox { outbox := outbox[(id, d.generation) := Task(false, None)]; }
        return row, found;
      }
      var existing := documents[row.value];
      if existing.status == QUEUED || existing.status == FAILED {
        var slot := (row.value, existing.generation);
        if slot !in outbox || existing.status == FAILED { outbox := outbox[slot := Task(false, None)]; }
      }
      return row, found;
    }

    method RequeueDocument(id: Id, now: int) returns (found: bool)
      modifies this
      ensures found <==> id in old(documents)
      ensures Contents() == Requeue(old(Contents()), id, now)
    {
      if id !in documents { return false; }
      var d := documents[id];
      var generation := d.generation + 1;
      documents := documents[id := d.(generation := generation, status := QUEUED, error := None, updatedAt := now)];
      if (id, generation) !in outbox { outbox := outbox[(id, generation) := Task(false, None)]; }
      return true;
    }

    method ClaimIngestion(id: Id, generation: nat, now: int) returns (status: ClaimStatus)
      modifies this
      ensures (Contents(), status) == Claim(old(Contents()), id, generation, now, cfg.lease)
    {
      if id in documents && ClaimableBy(documents[id], generation, now, cfg.lease) {
        documents := documents[id := documents[id].(status := PROCESSING, error := None, updatedAt := now)];
        return ACQUIRED;
      }
      if id in documents && documents[id].generation == generation && documents[id].status == PROCESSING {
        return BUSY;
      }
      return TERMINAL;
    }

    method FailIngestion(id: Id, generation: nat, error: string, now: int)
      modifies this
      ensures Contents() == Fail(old(Contents()), id, generation, error, now)
    {
      if id in documents && documents[id].generation == generation {
        documents := documents[id := documents[id].(status := FAILED, error := Some(error), updatedAt := now)];
      }
    }

    method CompleteIngestion(id: Id, generation: nat, text: string, parents: seq<Parent>, vectors: seq<Vector>,
                             model: string, now: int)
      returns (committed: Option<bool>)
      modifies this
      ensures (Contents(), committed)
              == Complete(old(Contents()), id, generation, text, parents, vectors, model, now, cfg.accepts)
    {
      if id !in documents || documents[id].generation != generation || documents[id].status != PROCESSING {
        return Some(false);
      }
      var rows := InsertRows(parents, vectors, generation, model);
      if rows.None? || !Insertable(rows.value, cfg.accepts) || !StorableText(text) || !StorableText(model) {
        return None;
      }
      chunks := chunks[id := rows.value];
      documents := documents[id := documents[id].(status := READY, rawText := Some(text), model := Some(model),
                                                  error := None, updatedAt := now)];
      return Some(true);
    }
  }

  /** The nested loops with their running vector_index; None is the IndexError past the last vector. */
  method InsertRows(parents: seq<Parent>, vectors: seq<Vector>, generation: nat, model: string)
    returns (rows: Option<seq<Chunk>>)
    ensures rows.None? <==> ChildCount(parents) > |vectors|
    ensures rows.Some? ==> rows.value == Rows(parents, vectors, 0, generation, model)
  {
    var out: seq<Chunk> := [];
    var vectorIndex: nat := 0;
    for i := 0 to |parents|
      invariant vectorIndex + ChildCount(parents[i..]) == ChildCount(parents) && vectorIndex <= |vectors|
      invariant ChildCount(parents) <= |vectors| ==>
        out + Rows(parents[i..], vectors, vectorIndex, generation, model)
          == Rows(parents, vectors, 0, generation, model)
    {
      var p := parents[i];
      assert parents[i..][0] == p && parents[i..][1..] == parents[i + 1..];
      if vectorIndex + |p.children| > |vectors| { return None; }
      var children := InsertChildren(p, vectors, vectorIndex, generation, model);
      if ChildCount(parents) <= |vectors| {
        RowsOfFirst(out, parents[i..], vectors, vectorIndex, generation, model);
      }
      out := out + [ParentRow(p.index, p.content, p.tokens, generation)] + children;
      vectorIndex := vectorIndex + |p.children|;
    }
    assert out + [] == out;
    return Some(out);
  }

  /** The rows still to be inserted are those of the first parent, then those of the others. */
  lemma RowsOfFirst(done: seq<Chunk>, parents: seq<Parent>, vectors: seq<Vector>, at: nat, generation: nat,
                    model: string)
    requires parents != [] && at + ChildCount(parents) <= |vectors|
    ensures var p := parents[0];
            done + Rows(parents, vectors, at, generation, model)
            == done + [ParentRow(p.index, p.content, p.tokens, generation)]
               + ChildRows(p, 0, vectors, at, generation, model)
               + Rows(parents[1..], vectors, at + |p.children|, generation, model)
  {
  }

  method InsertChildren(p: Parent, vectors: seq<Vector>, at: nat, generation: nat, model: string)
    returns (rows: seq<Chunk>)
    requires at + |p.children| <= |vectors|
    ensures rows == ChildRows(p, 0, vectors, at, generation, model)
  {
    rows := [];
    var vectorIndex := at;
    for j := 0 to |p.children|
      invariant vectorIndex == at + j
      invariant rows + ChildRows(p, j, vectors, vectorIndex, generation, model)
                == ChildRows(p, 0, vectors, at, generation, model)
    {
      rows := rows + [RowOf(p, p.children[j], generation, vectors[vectorIndex], model)];
      vectorIndex := vectorIndex + 1;
    }
  }

  /** KnowledgeIngestor.ingest: the returned claim status, or the exception that was recorded and raised again. */
  datatype Outcome = Returned(status: ClaimStatus) | Raised(error: string)

  datatype Batch = Batch(vectors: seq<Vector>, model: string)

  /** Parents can be made of the text and the service gives each child a vector. */
  predicate Embedded(extracted: Option<string>, parents: seq<Parent>, embed: seq<string> -> Option<Batch>) {
    && extracted.Some? && parents != []
    && embed(ChildTexts(parents)).Some? && |embed(ChildTexts(parents)).value.vectors| == |ChildTexts(parents)|
  }

  /**
   * One call of ingest. extracted is what extract_text makes of the source (None if it raises), embed the embedding
   * service (None if the call fails), and others the tables as other workers have left them when the embeddings arrive
   * at time later.
   */
  method Ingest(store: KnowledgeRepository, id: Id, generation: nat, extracted: Option<string>,
                embed: seq<string> -> Option<Batch>, parentSize: int, childSize: int, overlap: int,
                now: int, others: Db, later: int)
    returns (outcome: Outcome, ghost parents: seq<Parent>)
    modifies store
    ensures var claimed := Claim(old(store.Contents()), id, generation, now, store.cfg.lease);
            claimed.1 != ACQUIRED ==> outcome == Returned(claimed.1) && store.Contents() == old(store.Contents())
    ensures Claim(old(store.Contents()), id, generation, now, store.cfg.lease).1 == ACQUIRED ==>
              && (if extracted.None? || Blank(extracted.value) || !ValidSizes(parentSize, 0)
                     || !ValidSizes(childSize, overlap)
                  then parents == []
                  else parents != [] && MadeFrom(parents, extracted.value, parentSize, childSize, overlap))
              && (if !Embedded(extracted, parents, embed) then outcome.Raised?
                  else
                    var batch := embed(ChildTexts(parents)).value;
                    ChildTextsCount(parents);
                    if !Completable(others, id, generation) then
                      outcome == Returned(TERMINAL) && store.Contents() == others
                    else if !Accepted(extracted.value, parents, batch.vectors, generation, batch.model,
                                      store.cfg.accepts) then
                      outcome.Raised?
                    else
                      && outcome == Returned(ACQUIRED)
                      && store.documents == others.documents[id := others.documents[id].(
                           status := READY, rawText := extracted, model := Some(batch.model), error := None,
                           updatedAt := later)]
                      && store.chunks == others.chunks[id := Rows(parents, batch.vectors, 0, generation, batch.model)]
                      && store.outbox == others.outbox)
              && (outcome.Raised? ==> store.Contents() == Fail(others, id, generation, outcome.error, later))
  {
    parents := [];
    var claim := store.ClaimIngestion(id, generation, now);
    if claim != ACQUIRED { return Returned(claim), parents; }
    store.documents, store.chunks, store.outbox := others.documents, others.chunks, others.outbox;
    var error: string := *;
    if extracted.Some? {
      var made := HierarchicalChunks(extracted.value, parentSize, childSize, overlap);
      if made.Some? && made.value != [] {
        parents := made.value;
        var batch := embed(ChildTexts(made.value));
        ChildTextsCount(made.value);
        if batch.Some? && |batch.value.vectors| == |ChildTexts(made.value)| {
          var committed := store.CompleteIngestion(id, generation, extracted.value, made.value, batch.value.vectors,
                                                   batch.value.model, later);
          if committed.Some? { return Returned(if committed.value then ACQUIRED else TERMINAL), parents; }
        }
      }
    }
    store.FailIngestion(id, generation, error, later);
    return Raised(error), parents;
  }

  /**
   * Within the configured sizes a short enough text fails only for NUL characters or a vector the column does not take.
   */
  lemma ShortTextsAreAccepted(text: string, parents: seq<Parent>, batch: Batch, parentSize: int, childSize: int,
                              overlap: int, generation: nat, accepts: Vector -> bool)
    requires MadeFrom(parents, text, parentSize, childSize, overlap) && |batch.vectors| == |ChildTexts(parents)|
    requires 3 <= parentSize <= 20_000 && ShortEnough(text, parentSize)
    ensures Accepted(text, parents, batch.vectors, generation, batch.model, accepts)
            <==> StorableText(text) && StorableText(batch.model)
                 && forall k | 0 <= k < |batch.vectors| :: accepts(batch.vectors[k])
  {
    ChildTextsCount(parents);
    if Accepted(text, parents, batch.vectors, generation, batch.model, accepts) {
      VectorsAccepted(parents, batch.vectors, generation, batch.model, accepts);
    } else if StorableText(text) && StorableText(batch.model)
      && forall k | 0 <= k < |batch.vectors| :: accepts(batch.vectors[k])
    {
      ConfiguredSizesFit(text, parents, parentSize, childSize, overlap, batch.vectors, generation, batch.model,
                         accepts);
    }
  }

  /** A document of letters and newlines that ingestion never accepts, whatever the embedding service answers. */
  lemma DenseTextIsNotAccepted(parents: seq<Parent>, batch: Batch, parentSize: int, childSize: int, overlap: int,
                               generation: nat, accepts: Vector -> bool)
    requires parentSize > 0
    requires MadeFrom(parents, ChunkCounts.DenseText(7_158, parentSize), parentSize, childSize, overlap)
    requires |batch.vectors| == |ChildTexts(parents)|
    ensures |ChunkCounts.DenseText(7_158, parentSize)| == 7_159 * parentSize + 42_949
    ensures !Accepted(ChunkCounts.DenseText(7_158, parentSize), parents, batch.vectors, generation, batch.model,
                      accepts)
  {
    ChildTextsCount(parents);
    DenseTextIsRefused(parents, parentSize, childSize, overlap, batch.vectors, generation, batch.model, accepts);
  }
}
