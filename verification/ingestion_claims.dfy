/** What a claim answers, and what the other transactions of the ingestion protocol write, over whole runs. */
module IngestionClaims {
  import opened Text
  import opened Chunking
  import opened ChunkRows
  import opened Ingestion
  import opened IngestionRuns

  // ------------------------------------------------------------ open claims

  /** The claim granted at step i is the last one before moment n, and nothing has ended it. */
  ghost predicate OpenClaim(states: seq<State>, actions: seq<Action>, cfg: Config, i: nat, n: nat, id: Id,
                            generation: nat)
    requires |states| == |actions| + 1 && n < |states|
  {
    && i < n && Acquires(states[i], actions[i], cfg, id, generation)
    && forall k | i < k < n ::
         !Acquires(states[k], actions[k], cfg, id, generation) && !Ends(states[k], actions[k], cfg, id, generation)
  }

  lemma ClaimHolds(s: State, a: Action, cfg: Config, id: Id, generation: nat)
    requires Possible(s, a) && Acquires(s, a, cfg, id, generation)
    ensures Held(Step(s, a, cfg), id, generation, s.now)
  {
  }

  lemma HeldStep(s: State, a: Action, cfg: Config, id: Id, generation: nat, t: int)
    requires Possible(s, a) && Tables(s) && Held(s, id, generation, t)
    requires !Acquires(s, a, cfg, id, generation) && !Ends(s, a, cfg, id, generation)
    ensures Held(Step(s, a, cfg), id, generation, t)
  {
  }

  /** Under an open claim the document is marked with the time of that claim. */
  lemma {:induction false} OpenIsHeld(states: seq<State>, actions: seq<Action>, cfg: Config, i: nat, n: nat, id: Id,
                                      generation: nat)
    requires IsRun(states, actions, cfg) && n < |states| && OpenClaim(states, actions, cfg, i, n, id, generation)
    ensures Held(states[n], id, generation, states[i].now)
  {
    assert StepAt(states, actions, cfg, n - 1);
    if n == i + 1 {
      ClaimHolds(states[i], actions[i], cfg, id, generation);
    } else {
      OpenIsHeld(states, actions, cfg, i, n - 1, id, generation);
      RunKeeps(states, actions, cfg, n - 1);
      HeldStep(states[n - 1], actions[n - 1], cfg, id, generation, states[i].now);
    }
  }

  /** Only a granted claim makes a document PROCESSING, and whatever ends a claim makes it something else. */
  lemma ProcessingStep(s: State, a: Action, cfg: Config, id: Id, generation: nat)
    requires Possible(s, a) && Tables(s) && Has(Step(s, a, cfg), id, generation, PROCESSING)
    ensures Acquires(s, a, cfg, id, generation)
            || (Has(s, id, generation, PROCESSING) && !Ends(s, a, cfg, id, generation))
  {
  }

  /** A PROCESSING document is under an open claim. */
  lemma {:induction false} ProcessingIsOpen(states: seq<State>, actions: seq<Action>, cfg: Config, n: nat, id: Id,
                                            generation: nat)
    returns (i: nat)
    requires IsRun(states, actions, cfg) && n < |states| && Has(states[n], id, generation, PROCESSING)
    ensures OpenClaim(states, actions, cfg, i, n, id, generation)
  {
    assert n > 0;
    assert StepAt(states, actions, cfg, n - 1);
    RunKeeps(states, actions, cfg, n - 1);
    ProcessingStep(states[n - 1], actions[n - 1], cfg, id, generation);
    if Acquires(states[n - 1], actions[n - 1], cfg, id, generation) {
      i := n - 1;
    } else {
      i := ProcessingIsOpen(states, actions, cfg, n - 1, id, generation);
    }
  }

  // ------------------------------------------------------------ what a claim answers

  /** The three answers, by the document's status and the age of its last claim. */
  lemma AnswerByStatus(s: State, cfg: Config, id: Id, generation: nat)
    ensures var answer := Claim(s.db, id, generation, s.now, cfg.lease).1;
            && (answer == TERMINAL <==> !Current(s, id, generation) || Has(s, id, generation, READY))
            && (Has(s, id, generation, QUEUED) || Has(s, id, generation, FAILED) ==> answer == ACQUIRED)
            && (Has(s, id, generation, PROCESSING) ==>
                  answer == if s.now > s.db.documents[id].updatedAt + cfg.lease then ACQUIRED else BUSY)
  {
  }

  /**
   * At any moment of any run a claim is granted if and only if its generation is current and the document is QUEUED,
   * or FAILED, or under a claim made longer ago than the lease. It answers BUSY if and only if the document is under a
   * claim not older than the lease, and TERMINAL if and only if the generation has passed or the document is READY.
   */
  lemma ClaimAnswers(states: seq<State>, actions: seq<Action>, cfg: Config, n: nat, id: Id, generation: nat)
    requires IsRun(states, actions, cfg) && n < |states|
    ensures var s, answer := states[n], Claim(states[n].db, id, generation, states[n].now, cfg.lease).1;
            && (answer == ACQUIRED <==>
                  || Has(s, id, generation, QUEUED) || Has(s, id, generation, FAILED)
                  || exists i :: 0 <= i < n && OpenClaim(states, actions, cfg, i, n, id, generation)
                                 && s.now > states[i].now + cfg.lease)
            && (answer == BUSY <==>
                  exists i :: 0 <= i < n && OpenClaim(states, actions, cfg, i, n, id, generation)
                              && s.now <= states[i].now + cfg.lease)
            && (answer == TERMINAL <==> !Current(s, id, generation) || Has(s, id, generation, READY))
  {
    var s := states[n];
    AnswerByStatus(s, cfg, id, generation);
    forall i: nat | i < n && OpenClaim(states, actions, cfg, i, n, id, generation)
      ensures Held(s, id, generation, states[i].now)
    {
      OpenIsHeld(states, actions, cfg, i, n, id, generation);
    }
    if Has(s, id, generation, PROCESSING) {
      var i := ProcessingIsOpen(states, actions, cfg, n, id, generation);
    }
  }

  /** A granted claim marks the document; any other claim writes nothing. */
  lemma ClaimWrites(db: Db, id: Id, generation: nat, now: int, lease: int)
    ensures var (db', answer) := Claim(db, id, generation, now, lease);
            if answer != ACQUIRED then db' == db else
            && id in db.documents && db'.chunks == db.chunks && db'.outbox == db.outbox
            && db'.documents
               == db.documents[id := db.documents[id].(status := PROCESSING, error := None, updatedAt := now)]
  {
  }

  /**
   * A document whose worker takes no further step is granted to the first claim made after the lease, and refused to
   * every claim before.
   */
  lemma LapsedIsGranted(states: seq<State>, actions: seq<Action>, cfg: Config, i: nat, n: nat, id: Id, generation: nat)
    requires IsRun(states, actions, cfg) && i < n < |states| && Acquires(states[i], actions[i], cfg, id, generation)
    requires forall k | i < k < n :: !Ends(states[k], actions[k], cfg, id, generation)
    requires forall k | i < k < n && actions[k] == Claiming(id, generation) ::
             states[k].now <= states[i].now + cfg.lease
    ensures Claim(states[n].db, id, generation, states[n].now, cfg.lease).1
            == if states[n].now > states[i].now + cfg.lease then ACQUIRED else BUSY
  {
    forall k | i < k < n ensures !Acquires(states[k], actions[k], cfg, id, generation) {
      if actions[k] == Claiming(id, generation) {
        var e := BusyUntilEnded(states, actions, cfg, i, k, id, generation);
      }
    }
    assert OpenClaim(states, actions, cfg, i, n, id, generation);
    OpenIsHeld(states, actions, cfg, i, n, id, generation);
    AnswerByStatus(states[n], cfg, id, generation);
  }

  // ------------------------------------------------------------ what the other transactions write

  /** Only this document changes, and the outbox does not. */
  ghost predicate OnlyDocument(db: Db, db': Db, id: Id) {
    && id in db.documents && db'.documents.Keys == db.documents.Keys && db'.outbox == db.outbox
    && (forall x | x in db.documents && x != id :: db'.documents[x] == db.documents[x])
    && db'.chunks.Keys - {id} == db.chunks.Keys - {id}
    && (forall x | x in db.chunks && x != id :: x in db'.chunks && db'.chunks[x] == db.chunks[x])
  }

  /**
   * A completion of the current generation of a PROCESSING document stores the text, the model and exactly the rows,
   * and makes it READY; where the tables refuse the rows it is rolled back, and elsewhere it does nothing.
   */
  lemma CompleteWrites(db: Db, id: Id, generation: nat, text: string, parents: seq<Parent>, vectors: seq<Vector>,
                       model: string, now: int, accepts: Vector -> bool)
    ensures var (db', committed) := Complete(db, id, generation, text, parents, vectors, model, now, accepts);
            if id !in db.documents || db.documents[id].generation != generation || db.documents[id].status != PROCESSING
            then (db', committed) == (db, Some(false))
            else if !Accepted(text, parents, vectors, generation, model, accepts) then (db', committed) == (db, None)
            else
              && committed == Some(true) && OnlyDocument(db, db', id)
              && db'.documents[id] == db.documents[id].(status := READY, rawText := Some(text), model := Some(model),
                                                        error := None, updatedAt := now)
              && id in db'.chunks && db'.chunks[id] == Rows(parents, vectors, 0, generation, model)
  {
  }

  /** A failure report of the current generation makes the document FAILED, whatever it was; others do nothing. */
  lemma FailWrites(db: Db, id: Id, generation: nat, error: string, now: int)
    ensures var db' := Fail(db, id, generation, error, now);
            if id !in db.documents || db.documents[id].generation != generation then db' == db else
            && OnlyDocument(db, db', id) && db'.chunks == db.chunks
            && db'.documents[id] == db.documents[id].(status := FAILED, error := Some(error), updatedAt := now)
  {
  }

  /** A requeued document is QUEUED under the next generation, with its chunks as they were. */
  lemma RequeueWrites(db: Db, id: Id, now: int)
    ensures var db' := Requeue(db, id, now);
            if id !in db.documents then db' == db else
            var d := db.documents[id];
            && db'.documents == db.documents[id := d.(generation := d.generation + 1, status := QUEUED, error := None,
                                                      updatedAt := now)]
            && db'.chunks == db.chunks
               && (forall slot | slot in db.outbox :: slot in db'.outbox && db'.outbox[slot] == db.outbox[slot])
            && db'.outbox.Keys == db.outbox.Keys + {(id, d.generation + 1)}
            && ((id, d.generation + 1) !in db.outbox ==> db'.outbox[(id, d.generation + 1)] == Task(false, None))
  {
  }

  /**
   * Creating a document whose content is known stores nothing; it offers a FAILED document again and a QUEUED one if it
   * has no outbox row. A new document is stored without chunks and offered.
   */
  lemma CreateWrites(db: Db, id: Id, d: Document, found: Option<Id>)
    requires Finds(db, d.key, found)
    ensures var (db', stored) := Create(db, id, d, found);
            match found
            case Some(x) =>
              var slot := (x, db.documents[x].generation);
              && stored == Some(x) && db'.documents == db.documents && db'.chunks == db.chunks
              && db'.outbox == (if db.documents[x].status == FAILED
                                   || (db.documents[x].status == QUEUED && slot !in db.outbox)
                                then db.outbox[slot := Task(false, None)] else db.outbox)
            case None =>
              if id in db.documents then (db', stored) == (db, None) else
              && stored == Some(id) && db'.documents == db.documents[id := d] && db'.chunks == db.chunks[id := []]
              && db'.outbox == (if (id, d.generation) in db.outbox then db.outbox
                                else db.outbox[(id, d.generation) := Task(false, None)])
  {
  }

  // ------------------------------------------------------------ published offers

  ghost predicate Published(s: State, slot: (Id, nat)) {
    slot in s.db.outbox && s.db.outbox[slot].published
  }

  /** The step offers a FAILED document of this generation again. */
  ghost predicate OffersAgain(s: State, a: Action, slot: (Id, nat)) {
    a.Creating? && a.found == Some(slot.0) && Has(s, slot.0, slot.1, FAILED)
  }

  /** A publisher's report settles its slot and no other; a failed attempt never takes a published one back. */
  lemma PublishWrites(db: Db, id: Id, generation: nat, error: string)
    ensures var db' := MarkPublished(db, id, generation);
            db' == if (id, generation) !in db.outbox then db
                   else db.(outbox := db.outbox[(id, generation) := Task(true, None)])
    ensures var db' := MarkFailed(db, id, generation, error);
            db' == if (id, generation) !in db.outbox || db.outbox[(id, generation)].published then db
                   else db.(outbox := db.outbox[(id, generation) := Task(false, Some(error))])
  {
  }

  lemma PublishedStep(s: State, a: Action, cfg: Config, slot: (Id, nat))
    requires Possible(s, a) && Tables(s) && Published(s, slot) && slot in Step(s, a, cfg).db.outbox
    ensures Published(Step(s, a, cfg), slot) <==> !OffersAgain(s, a, slot)
  {
  }

  lemma SlotGone(s: State, a: Action, cfg: Config, slot: (Id, nat))
    requires Possible(s, a) && Tables(s) && slot in s.db.outbox && slot !in Step(s, a, cfg).db.outbox
    ensures slot.0 !in Step(s, a, cfg).db.documents
  {
  }

  lemma StaysGone(s: State, a: Action, cfg: Config, id: Id)
    requires Possible(s, a) && id !in s.db.documents && id in s.used
    ensures id !in Step(s, a, cfg).db.documents && id in Step(s, a, cfg).used
  {
  }

  ghost predicate PublishedOrGone(s: State, slot: (Id, nat)) {
    Published(s, slot) || (slot.0 in s.used && slot.0 !in s.db.documents)
  }

  /**
   * Over any run, an offer that was published stays so until its document fails and is uploaded again, or is deleted.
   */
  lemma {:induction false} PublishedStays(states: seq<State>, actions: seq<Action>, cfg: Config, m: nat, n: nat,
                                          slot: (Id, nat))
    requires IsRun(states, actions, cfg) && m <= n < |states| && Published(states[m], slot)
    requires forall k | m <= k < n :: !OffersAgain(states[k], actions[k], slot)
    ensures PublishedOrGone(states[n], slot)
  {
    RunKeeps(states, actions, cfg, n);
    if m < n {
      PublishedStays(states, actions, cfg, m, n - 1, slot);
      RunKeeps(states, actions, cfg, n - 1);
      assert StepAt(states, actions, cfg, n - 1);
      if Published(states[n - 1], slot) {
        if slot in states[n].db.outbox {
          PublishedStep(states[n - 1], actions[n - 1], cfg, slot);
        } else {
          SlotGone(states[n - 1], actions[n - 1], cfg, slot);
        }
      } else {
        StaysGone(states[n - 1], actions[n - 1], cfg, slot.0);
      }
    }
  }
}
