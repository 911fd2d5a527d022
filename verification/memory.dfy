/** The versioned memory table: repositories/memory.py. */
module MemoryStore {
  import opened Text

  type Id = nat
  type Time = int

  datatype Scope = GLOBAL | SUBJECT | CONVERSATION
  datatype Privacy = PRIVATE | SHARED | PUBLIC | SENSITIVE

  /** One row of memory_items; the id is the key of the table. */
  datatype Row = Row(
    scope: Scope, subject: Option<string>, conversation: Option<string>, privacy: Privacy,
    kind: string, content: string, sources: seq<string>,
    confidence: real, score: Option<real>,
    validFrom: Option<Time>, validUntil: Option<Time>,
    conflictsWith: seq<Id>, supersedes: seq<Id>,
    invalidAt: Option<Time>, invalidatedBy: Option<Id>,
    revokedAt: Option<Time>, revokedReason: Option<string>,
    embedding: Option<seq<real>>, embeddingModel: Option<string>,
    createdAt: Time, lastAccessedAt: Option<Time>)

  type Table = map<Id, Row>

  /** A MemoryItem: the row to insert, under the id it brings along. */
  datatype Item = Item(id: Id, row: Row)

  datatype Operation = ADD | UPDATE | DELETE | NOOP

  /** A validated MemoryMergeDecision. */
  datatype Decision = Decision(operation: Operation, target: Option<Id>, content: Option<string>, kind: Option<string>,
                               confidence: Option<real>)

  predicate WellShaped(d: Decision) {
    match d.operation
    case ADD => d.target.None? && d.content.Some?
    case UPDATE => d.target.Some? && d.content.Some?
    case DELETE => d.target.Some? && d.content.None?
    case NOOP => d.content.None?
  }

  datatype Application = Application(operation: Operation, memory: Option<Id>, previous: Option<Id>, applied: bool)

  // ------------------------------------------------------------ conditions of the SQL statements

  /** Neither revoked nor invalid at `now`. */
  predicate Active(r: Row, now: Time) {
    r.revokedAt.None? && (r.invalidAt.None? || r.invalidAt.value > now)
  }

  predicate SameBoundary(a: Row, b: Row) {
    a.scope == b.scope && a.privacy == b.privacy && a.subject == b.subject && a.conversation == b.conversation
  }

  /** INSERT succeeds: the primary key is new, the foreign key invalidated_by resolves and is not without invalid_at. */
  predicate Insertable(t: Table, id: Id, r: Row) {
    id !in t && (r.invalidatedBy.Some? ==> r.invalidatedBy.value in t && r.invalidAt.Some?)
  }

  predicate InRelationship(r: Row, subject: Option<string>, now: Time) {
    r.scope == SUBJECT && subject.Some? && r.subject == subject && r.kind == "RELATIONSHIP" && Active(r, now)
  }

  /** ORDER BY created_at DESC, id LIMIT 1. */
  ghost predicate IsLatest(t: Table, subject: Option<string>, now: Time, latest: Option<Id>) {
    match latest
    case None => forall id | id in t :: !InRelationship(t[id], subject, now)
    case Some(x) =>
      && x in t && InRelationship(t[x], subject, now)
      && forall id | id in t && InRelationship(t[id], subject, now) ::
           t[id].createdAt < t[x].createdAt || (t[id].createdAt == t[x].createdAt && x <= id)
  }

  predicate Forgotten(r: Row, subject: string, conversation: Option<string>) {
    r.revokedAt.None?
    && ((r.scope == SUBJECT && r.subject == Some(subject))
        || (conversation.Some? && r.scope == CONVERSATION && r.conversation == conversation))
  }

  /** dict.fromkeys(ids): first occurrences, in order. */
  function Unique(ids: seq<Id>): seq<Id> {
    if ids == [] then [] else
      var front := Unique(ids[..|ids| - 1]);
      if ids[|ids| - 1] in front then front else front + [ids[|ids| - 1]]
  }

  // ------------------------------------------------------------ the operations on the table

  /** What a merge or an upsert reports; IntegrityError rolls the transaction back. */
  datatype Outcome = Reported(application: Application) | IntegrityError | ValueError

  /** created_at defaults to the time of the insert. */
  function Stamped(r: Row, now: Time): Row {
    r.(createdAt := now, lastAccessedAt := None)
  }

  function Unembedded(r: Row): Row {
    r.(embedding := None, embeddingModel := None)
  }

  function Merged(c: Item, d: Decision, now: Time): Row {
    Stamped(c.row.(content := if d.content.Some? then d.content.value else c.row.content,
                   kind := if d.kind.Some? then d.kind.value else c.row.kind,
                   confidence := if d.confidence.Some? then d.confidence.value else c.row.confidence), now)
  }

  /** Insert a successor and invalidate its predecessor, when it has one. */
  function Succeed(t: Table, id: Id, r: Row, previous: Option<Id>, now: Time): Table {
    var inserted := t[id := r];
    if previous.Some? && previous.value in inserted
    then inserted[previous.value := inserted[previous.value].(invalidAt := Some(now), invalidatedBy := Some(id))]
    else inserted
  }

  predicate Targetable(t: Table, c: Item, target: Id, now: Time) {
    target in t && Active(t[target], now) && SameBoundary(t[target], c.row)
  }

  function Merge(t: Table, c: Item, d: Decision, freshId: Id, now: Time): (Table, Outcome) {
    if d.target.Some? && !Targetable(t, c, d.target.value, now) then
      (t, Reported(Application(NOOP, None, d.target, false)))
    else if d.operation == ADD || d.operation == UPDATE then
      var linked := d.operation == UPDATE && d.target.Some?;
      var id := if linked then freshId else c.id;
      var plain := Merged(c, d, now);
      var r := if linked then plain.(supersedes := Unique(c.row.supersedes + [d.target.value])) else plain;
      if !Insertable(t, id, r) then (t, IntegrityError)
      else (Succeed(t, id, r, if linked then d.target else None, now),
            Reported(Application(d.operation, Some(id), d.target, true)))
    else if d.operation == DELETE && d.target.Some? then
      (t[d.target.value := t[d.target.value].(invalidAt := Some(now), invalidatedBy := None)],
       Reported(Application(DELETE, None, d.target, true)))
    else (t, Reported(Application(d.operation, None, d.target, d.operation != NOOP)))
  }

  /** upsert_relationship, given the latest active version. */
  function Upsert(t: Table, c: Item, latest: Option<Id>, freshId: Id, upper: string -> string, now: Time):
    (Table, Outcome)
  {
    if c.row.scope != SUBJECT || upper(c.row.kind) != "RELATIONSHIP" || c.row.score.None? then (t, ValueError)
    else
      var id := if latest.Some? then freshId else c.id;
      var plain := Stamped(Unembedded(c.row), now);
      var r := if latest.Some? then plain.(supersedes := Unique(c.row.supersedes + [latest.value])) else plain;
      if !Insertable(t, id, r) then (t, IntegrityError)
      else (Succeed(t, id, r, latest, now),
            Reported(Application(if latest.Some? then UPDATE else ADD, Some(id), latest, true)))
  }

  function Revoke(r: Row, now: Time, reason: string): Row {
    r.(revokedAt := Some(now), revokedReason := Some(reason))
  }

  function Forget(t: Table, subject: string, conversation: Option<string>, reason: string, now: Time): Table {
    map id | id in t :: if Forgotten(t[id], subject, conversation) then Revoke(t[id], now, reason) else t[id]
  }

  datatype Policy = Policy(decayDays: Time, decayFactor: real, floor: real, retentionDays: Time)

  const DAY: Time := 86400

  predicate Expires(r: Row, now: Time) {
    r.revokedAt.None? && r.invalidAt.None? && r.validUntil.Some? && r.validUntil.value <= now
  }

  function Expire(r: Row, now: Time): Row {
    if Expires(r, now) then r.(invalidAt := r.validUntil) else r
  }

  function LastUse(r: Row): Time {
    if r.lastAccessedAt.Some? then r.lastAccessedAt.value else r.createdAt
  }

  function Fade(r: Row, p: Policy, now: Time): Row {
    if r.revokedAt.None? && r.invalidAt.None? && LastUse(r) <= now - p.decayDays * DAY then
      r.(confidence := r.confidence * p.decayFactor,
         score := if r.score.None? then None
                  else Some(if r.score.value * p.decayFactor > 0.0 then r.score.value * p.decayFactor else 0.0))
    else r
  }

  predicate Retires(r: Row, p: Policy) {
    r.revokedAt.None? && r.invalidAt.None? && r.confidence < p.floor
  }

  function Retire(r: Row, p: Policy, now: Time): Row {
    if Retires(r, p) then r.(invalidAt := Some(now)) else r
  }

  predicate Purged(r: Row, p: Policy, now: Time) {
    r.revokedAt.Some? && r.revokedAt.value <= now - p.retentionDays * DAY
  }

  /** DELETE with invalidated_by ON DELETE SET NULL. */
  function Purge(t: Table, p: Policy, now: Time): Table {
    map id | id in t && !Purged(t[id], p, now) ::
      var successor := t[id].invalidatedBy;
      if successor.Some? && successor.value in t && Purged(t[successor.value], p, now)
        then t[id].(invalidatedBy := None) else t[id]
  }

  /** An UPDATE statement: f on every row. */
  function UpdateAll(t: Table, f: Row -> Row): (r: Table)
    ensures r.Keys == t.Keys && forall id | id in t :: r[id] == f(t[id])
  {
    map id | id in t :: f(t[id])
  }

  function Lifecycle(t: Table, p: Policy, now: Time): Table {
    var expired := UpdateAll(t, r => Expire(r, now));
    var decayed := UpdateAll(expired, r => Fade(r, p, now));
    Purge(UpdateAll(decayed, r => Retire(r, p, now)), p, now)
  }

  /** The rows an UPDATE or DELETE of run_lifecycle reports. */
  function Expiring(t: Table, now: Time): set<Id> {
    set id | id in t && Expires(t[id], now)
  }

  function Retiring(t: Table, p: Policy): set<Id> {
    set id | id in t && Retires(t[id], p)
  }

  function Purging(t: Table, p: Policy, now: Time): set<Id> {
    set id | id in t && Purged(t[id], p, now)
  }

  function Aged(t: Table, p: Policy, now: Time): Table {
    UpdateAll(UpdateAll(t, r => Expire(r, now)), r => Fade(r, p, now))
  }

  lemma PurgingSettled(t: Table, p: Policy, now: Time)
    ensures Purging(UpdateAll(Aged(t, p, now), r => Retire(r, p, now)), p, now) == Purging(t, p, now)
  {
  }

  class MemoryRepository {
    var rows: Table
    /** Stands for str.upper(). */
    const upper: string -> string

    constructor (upper: string -> string)
      ensures rows == map[] && this.upper == upper
    {
      rows, this.upper := map[], upper;
    }

    method Insert(id: Id, r: Row) returns (ok: bool)
      modifies `rows
      ensures ok <==> Insertable(old(rows), id, r)
      ensures rows == if ok then old(rows)[id := r] else old(rows)
    {
      ok := id !in rows && (r.invalidatedBy.None? || (r.invalidatedBy.value in rows && r.invalidAt.Some?));
      if ok { rows := rows[id := r]; }
    }

    method StoreItem(item: Item, now: Time) returns (ok: bool)
      modifies `rows
      ensures ok <==> item.id !in old(rows)
                      && (item.row.invalidatedBy.Some? ==>
                            item.row.invalidatedBy.value in old(rows) && item.row.invalidAt.Some?)
      ensures rows == if ok then old(rows)[item.id := item.row.(createdAt := now, lastAccessedAt := None)]
              else old(rows)
    {
      ok := Insert(item.id, Stamped(item.row, now));
    }

    method ApplyMerge(c: Item, d: Decision, freshId: Id, now: Time) returns (r: Outcome)
      requires WellShaped(d)
      modifies `rows
      ensures (rows, r) == Merge(old(rows), c, d, freshId, now)
    {
      if d.target.Some? {
        var target := d.target.value;
        if target !in rows || !Active(rows[target], now) || !SameBoundary(rows[target], c.row) {
          return Reported(Application(NOOP, None, d.target, false));
        }
      }
      var memory: Option<Id> := None;
      if d.operation == ADD || d.operation == UPDATE {
        var successor, id := Merged(c, d, now), c.id;
        if d.operation == UPDATE && d.target.Some? {
          id := freshId;
          successor := successor.(supersedes := Unique(c.row.supersedes + [d.target.value]));
        }
        var ok := Insert(id, successor);
        if !ok { return IntegrityError; }
        memory := Some(id);
        if d.operation == UPDATE && d.target.Some? {
          rows := rows[d.target.value := rows[d.target.value].(invalidAt := Some(now), invalidatedBy := Some(id))];
        }
      } else if d.operation == DELETE && d.target.Some? {
        rows := rows[d.target.value := rows[d.target.value].(invalidAt := Some(now), invalidatedBy := None)];
      }
      return Reported(Application(d.operation, memory, d.target, d.operation != NOOP));
    }

    method Latest(subject: Option<string>, now: Time) returns (latest: Option<Id>)
      ensures IsLatest(rows, subject, now, latest)
    {
      latest := None;
      var todo := rows.Keys;
      while todo != {}
        invariant todo <= rows.Keys
        invariant latest.Some? ==>
                  latest.value in rows && latest.value !in todo && InRelationship(rows[latest.value], subject, now)
        invariant latest.None? ==> forall id | id in rows && id !in todo :: !InRelationship(rows[id], subject, now)
        invariant latest.Some? ==> forall id | id in rows && id !in todo && InRelationship(rows[id], subject, now) ::
          rows[id].createdAt < rows[latest.value].createdAt
          || (rows[id].createdAt == rows[latest.value].createdAt && latest.value <= id)
        decreases todo
      {
        var id :| id in todo;
        todo := todo - {id};
        if InRelationship(rows[id], subject, now)
           && (latest.None? || rows[id].createdAt > rows[latest.value].createdAt
               || (rows[id].createdAt == rows[latest.value].createdAt && id < latest.value)) {
          latest := Some(id);
        }
      }
    }

    method UpsertRelationship(c: Item, freshId: Id, now: Time) returns (r: Outcome, ghost latest: Option<Id>)
      modifies `rows
      ensures IsLatest(old(rows), c.row.subject, now, latest)
      ensures (rows, r) == Upsert(old(rows), c, latest, freshId, upper, now)
    {
      var previous := Latest(c.row.subject, now);
      latest := previous;
      if c.row.scope != SUBJECT || upper(c.row.kind) != "RELATIONSHIP" || c.row.score.None? {
        return ValueError, latest;
      }
      var successor, id, operation := Stamped(Unembedded(c.row), now), c.id, ADD;
      if previous.Some? {
        operation, id := UPDATE, freshId;
        successor := successor.(supersedes := Unique(c.row.supersedes + [previous.value]));
      }
      var ok := Insert(id, successor);
      if !ok { return IntegrityError, latest; }
      if previous.Some? {
        rows := rows[previous.value := rows[previous.value].(invalidAt := Some(now), invalidatedBy := Some(id))];
      }
      return Reported(Application(operation, Some(id), previous, true)), latest;
    }

    method RevokeFor(subject: string, conversation: Option<string>, reason: string, now: Time) returns (count: nat)
      modifies `rows
      ensures rows == Forget(old(rows), subject, conversation, reason, now)
      ensures count == |set id | id in old(rows) && Forgotten(old(rows)[id], subject, conversation)|
    {
      var hit := set id | id in rows && Forgotten(rows[id], subject, conversation);
      count := |hit|;
      rows := rows + map id | id in hit :: Revoke(rows[id], now, reason);
    }

    method RunLifecycle(p: Policy, now: Time) returns (expired: nat, decayed: nat, deleted: nat)
      modifies `rows
      ensures rows == Lifecycle(old(rows), p, now)
      ensures expired == |Expiring(old(rows), now)|
      ensures decayed == |Retiring(Aged(old(rows), p, now), p)|
      ensures deleted == |Purging(old(rows), p, now)|
    {
      PurgingSettled(rows, p, now);
      expired := |Expiring(rows, now)|;
      rows := UpdateAll(rows, r => Expire(r, now));
      rows := UpdateAll(rows, r => Fade(r, p, now));
      decayed := |Retiring(rows, p)|;
      rows := UpdateAll(rows, r => Retire(r, p, now));
      deleted := |Purging(rows, p, now)|;
      rows := Purge(rows, p, now);
    }

    /** The operator's revoke_memory. */
    method RevokeMemory(id: Id, now: Time) returns (revoked: bool)
      modifies `rows
      ensures revoked <==> id in old(rows) && old(rows)[id].revokedAt.None?
      ensures rows == if !revoked then old(rows)
                      else old(rows)[id := old(rows)[id].(revokedAt := Some(now), revokedReason := Some("operator"))]
    {
      revoked := id in rows && rows[id].revokedAt.None?;
      if revoked { rows := rows[id := Revoke(rows[id], now, "operator")]; }
    }
  }
}
