/** What each operation on the memory table writes, column by column, and what of it lasts. */
module MemoryEffects {
  import opened Text
  import opened MemoryStore
  import opened MemoryChains
  import Snapshots

  // ------------------------------------------------------------ merging

  /** The row an UPDATE or DELETE may change: there, not revoked, not invalid, in the candidate's boundary. */
  predicate Open(t: Table, c: Item, a: Id, now: Time) {
    && a in t && t[a].revokedAt.None? && (t[a].invalidAt.None? || t[a].invalidAt.value > now)
    && t[a].scope == c.row.scope && t[a].subject == c.row.subject
    && t[a].conversation == c.row.conversation && t[a].privacy == c.row.privacy
  }

  /** An INSERT of this row is refused: its id is taken, or it names a successor that is missing or has no time. */
  predicate Refused(t: Table, id: Id, r: Row) {
    id in t || (r.invalidatedBy.Some? && (r.invalidatedBy.value !in t || r.invalidAt.None?))
  }

  /** The columns of the row a merge inserts, apart from its predecessors. */
  predicate MergedColumns(r: Row, c: Row, d: Decision, now: Time) {
    && Some(r.content) == d.content
    && r.kind == (if d.kind.Some? then d.kind.value else c.kind)
    && r.confidence == (if d.confidence.Some? then d.confidence.value else c.confidence)
    && r.createdAt == now && r.lastAccessedAt == None
    && r == c.(content := r.content, kind := r.kind, confidence := r.confidence, createdAt := now,
               lastAccessedAt := None, supersedes := r.supersedes)
  }

  /** The predecessors of the new version: those it brings along and the row it replaces, each once. */
  ghost predicate NewPredecessors(r: Row, c: Row, a: Id) {
    && (forall x :: x in r.supersedes <==> x in c.supersedes || x == a)
    && forall i, j | 0 <= i < j < |r.supersedes| :: r.supersedes[i] != r.supersedes[j]
  }

  ghost predicate OnlyChanges(t: Table, t': Table, ids: set<Id>) {
    t'.Keys == t.Keys + ids && forall x | x in t && x !in ids :: t'[x] == t[x]
  }

  lemma {:induction false} UniqueMeans(ids: seq<Id>)
    ensures forall x :: x in Unique(ids) <==> x in ids
    ensures forall i, j | 0 <= i < j < |Unique(ids)| :: Unique(ids)[i] != Unique(ids)[j]
  {
    if ids != [] { UniqueMeans(ids[..|ids| - 1]); }
  }

  /** A target that is gone, inactive or across the boundary: nothing is written and NOOP is reported. */
  lemma MergeWithoutTarget(t: Table, c: Item, d: Decision, f: Id, now: Time)
    requires WellShaped(d) && d.target.Some? && !Open(t, c, d.target.value, now)
    ensures Merge(t, c, d, f, now) == (t, Reported(Application(NOOP, None, d.target, false)))
  {
  }

  /** NOOP writes nothing. */
  lemma MergeNothing(t: Table, c: Item, d: Decision, f: Id, now: Time)
    requires WellShaped(d) && d.operation == NOOP
    ensures Merge(t, c, d, f, now) == (t, Reported(Application(NOOP, None, d.target, false)))
  {
  }

  /** DELETE invalidates its target now and names no successor. */
  lemma MergeDeletes(t: Table, c: Item, d: Decision, f: Id, now: Time)
    requires WellShaped(d) && d.operation == DELETE && Open(t, c, d.target.value, now)
    ensures var (t', o) := Merge(t, c, d, f, now);
            var a := d.target.value;
            && o == Reported(Application(DELETE, None, Some(a), true)) && OnlyChanges(t, t', {a})
            && t'[a] == t[a].(invalidAt := Some(now), invalidatedBy := None)
  {
  }

  /** ADD inserts the candidate, with what the decision says, under its own id, or is refused and writes nothing. */
  lemma MergeAdds(t: Table, c: Item, d: Decision, f: Id, now: Time)
    requires WellShaped(d) && d.operation == ADD
    ensures var (t', o) := Merge(t, c, d, f, now);
            if Refused(t, c.id, c.row) then (t', o) == (t, IntegrityError) else
            && o == Reported(Application(ADD, Some(c.id), None, true)) && OnlyChanges(t, t', {c.id})
            && MergedColumns(t'[c.id], c.row, d, now) && t'[c.id].supersedes == c.row.supersedes
  {
  }

  /** UPDATE inserts it under the drawn id as the target's successor, and the target is invalid from now on. */
  lemma MergeUpdates(t: Table, c: Item, d: Decision, f: Id, now: Time)
    requires WellShaped(d) && d.operation == UPDATE && Open(t, c, d.target.value, now) && f !in t
    ensures var (t', o) := Merge(t, c, d, f, now);
            var a := d.target.value;
            if Refused(t, f, c.row) then (t', o) == (t, IntegrityError) else
            && o == Reported(Application(UPDATE, Some(f), Some(a), true)) && OnlyChanges(t, t', {a, f})
            && MergedColumns(t'[f], c.row, d, now) && NewPredecessors(t'[f], c.row, a)
            && t'[a] == t[a].(invalidAt := Some(now), invalidatedBy := Some(f))
  {
    UniqueMeans(c.row.supersedes + [d.target.value]);
  }

  /**
   * Over any run, when a merge reports a DELETE, its target is invalid from then on, without a successor, and nothing
   * else has changed; it is not active at any later moment unless an import brings its id back.
   */
  lemma DeletedForGood(past: seq<(Op, Time)>, c: Item, d: Decision, f: Id, now: Time, ops: seq<(Op, Time)>,
                       upper: string -> string, a: Id, later: Time)
    requires PossibleRun(EMPTY, past, upper) && Possible(Run(EMPTY, past, upper), ApplyMerge(c, d, f), now)
    requires Merge(Run(EMPTY, past, upper).rows, c, d, f, now).1 == Reported(Application(DELETE, None, Some(a), true))
    requires PossibleRun(Step(Run(EMPTY, past, upper), ApplyMerge(c, d, f), now, upper), ops, upper)
    ensures var s := Run(EMPTY, past, upper);
            var t' := Step(s, ApplyMerge(c, d, f), now, upper).rows;
            && a in s.rows && OnlyChanges(s.rows, t', {a})
            && t'[a] == s.rows[a].(invalidAt := Some(now), invalidatedBy := None)
    ensures var s1 := Step(Run(EMPTY, past, upper), ApplyMerge(c, d, f), now, upper);
            var s' := Run(s1, ops, upper);
            a in s'.rows && later >= s'.clock ==>
              CameBack(s1, ops, upper, a) || (s'.rows[a].invalidAt.Some? && s'.rows[a].invalidAt.value <= later)
  {
    var s := Run(EMPTY, past, upper);
    DeletesReported(s.rows, c, d, f, now, a);
    MergeDeletes(s.rows, c, d, f, now);
    HistoryHolds(past, upper);
    FateHolds(Step(s, ApplyMerge(c, d, f), now, upper), ops, upper, a);
  }

  lemma DeletesReported(t: Table, c: Item, d: Decision, f: Id, now: Time, a: Id)
    requires WellShaped(d) && Merge(t, c, d, f, now).1 == Reported(Application(DELETE, None, Some(a), true))
    ensures d.operation == DELETE && d.target == Some(a) && Open(t, c, a, now)
  {
  }

  // ------------------------------------------------------------ relationships

  /** An active relationship row of the subject. */
  predicate Relation(r: Row, subject: Option<string>, now: Time) {
    && subject.Some? && r.scope == SUBJECT && r.subject == subject && r.kind == "RELATIONSHIP"
    && r.revokedAt.None? && (r.invalidAt.None? || r.invalidAt.value > now)
  }

  /** The newest of them, by creation and then by the smaller id. */
  ghost predicate Newest(t: Table, subject: Option<string>, now: Time, a: Id) {
    && a in t && Relation(t[a], subject, now)
    && forall x | x in t && Relation(t[x], subject, now) ::
         t[x].createdAt < t[a].createdAt || (t[x].createdAt == t[a].createdAt && a <= x)
  }

  /** Only a scored relationship of a subject is taken; it then succeeds the newest one there is. */
  lemma UpsertWrites(t: Table, c: Item, latest: Option<Id>, f: Id, upper: string -> string, now: Time)
    requires IsLatest(t, c.row.subject, now, latest) && f !in t
    ensures match latest
            case None => forall x | x in t :: !Relation(t[x], c.row.subject, now)
            case Some(a) => Newest(t, c.row.subject, now, a)
    ensures var (t', o) := Upsert(t, c, latest, f, upper, now);
            var id := if latest.Some? then f else c.id;
            if c.row.scope != SUBJECT || upper(c.row.kind) != "RELATIONSHIP" || c.row.score.None? then
              (t', o) == (t, ValueError)
            else if Refused(t, id, c.row) then (t', o) == (t, IntegrityError) else
            && o == Reported(Application(if latest.Some? then UPDATE else ADD, Some(id), latest, true))
            && OnlyChanges(t, t', if latest.Some? then {latest.value, id} else {id})
            && t'[id] == c.row.(createdAt := now, lastAccessedAt := None, embedding := None, embeddingModel := None,
                                supersedes := t'[id].supersedes)
            && (if latest.Some? then
                  && NewPredecessors(t'[id], c.row, latest.value)
                  && t'[latest.value] == t[latest.value].(invalidAt := Some(now), invalidatedBy := Some(id))
                else t'[id].supersedes == c.row.supersedes)
  {
    if latest.Some? { UniqueMeans(c.row.supersedes + [latest.value]); }
  }

  // ------------------------------------------------------------ forgetting

  /** The row is about the subject, or belongs to the conversation, if one is given. */
  predicate About(r: Row, subject: string, conversation: Option<string>) {
    || (r.scope == SUBJECT && r.subject == Some(subject))
    || (r.scope == CONVERSATION && conversation.Some? && r.conversation == conversation)
  }

  /** Exactly the rows about the subject, or of the conversation, that are not revoked yet are revoked now. */
  lemma ForgetWrites(t: Table, subject: string, conversation: Option<string>, reason: string, now: Time)
    ensures var t' := Forget(t, subject, conversation, reason, now);
            && t'.Keys == t.Keys
            && forall id | id in t ::
                 t'[id] == if t[id].revokedAt.Some? || !About(t[id], subject, conversation) then t[id]
                           else t[id].(revokedAt := Some(now), revokedReason := Some(reason))
    ensures (set id | id in t && Forgotten(t[id], subject, conversation))
            == (set id | id in t && t[id].revokedAt.None? && About(t[id], subject, conversation))
  {
  }

  /**
   * Over any run, what was there about a subject when it was forgotten stays revoked, unless an import brings it back.
   */
  lemma ForgottenForGood(past: seq<(Op, Time)>, subject: string, conversation: Option<string>, reason: string,
                         now: Time, ops: seq<(Op, Time)>, upper: string -> string, id: Id)
    requires PossibleRun(EMPTY, past, upper)
    requires Possible(Run(EMPTY, past, upper), Forgetting(subject, conversation, reason), now)
    requires PossibleRun(Step(Run(EMPTY, past, upper), Forgetting(subject, conversation, reason), now, upper), ops,
                         upper)
    requires var t := Run(EMPTY, past, upper).rows; id in t && About(t[id], subject, conversation)
    ensures var s1 := Step(Run(EMPTY, past, upper), Forgetting(subject, conversation, reason), now, upper);
            var s' := Run(s1, ops, upper);
            id in s'.rows ==> CameBack(s1, ops, upper, id) || s'.rows[id].revokedAt.Some?
  {
    var s := Run(EMPTY, past, upper);
    ForgetWrites(s.rows, subject, conversation, reason, now);
    HistoryHolds(past, upper);
    FateHolds(Step(s, Forgetting(subject, conversation, reason), now, upper), ops, upper, id);
  }

  // ------------------------------------------------------------ the lifecycle

  /** The row can still expire, fade or retire. */
  predicate Live(r: Row) {
    r.revokedAt.None? && r.invalidAt.None?
  }

  predicate DueToExpire(r: Row, now: Time) {
    Live(r) && r.validUntil.Some? && r.validUntil.value <= now
  }

  /** Unused for decay_days; a row that expires in the same run does not fade. */
  predicate DueToFade(r: Row, p: Policy, now: Time) {
    && Live(r) && !DueToExpire(r, now)
    && (match r.lastAccessedAt case Some(used) => used case None => r.createdAt) <= now - p.decayDays * 86400
  }

  function FadedConfidence(r: Row, p: Policy, now: Time): real {
    if DueToFade(r, p, now) then r.confidence * p.decayFactor else r.confidence
  }

  function FadedScore(r: Row, p: Policy, now: Time): Option<real> {
    match r.score
    case None => None
    case Some(x) =>
      if !DueToFade(r, p, now) then Some(x) else if x * p.decayFactor < 0.0 then Some(0.0)
      else Some(x * p.decayFactor)
  }

  predicate DueToRetire(r: Row, p: Policy, now: Time) {
    Live(r) && !DueToExpire(r, now) && FadedConfidence(r, p, now) < p.floor
  }

  predicate DueToGo(r: Row, p: Policy, now: Time) {
    r.revokedAt.Some? && r.revokedAt.value <= now - p.retentionDays * 86400
  }

  /** A row that stays, by the row it was; what it was replaced by is remembered as long as that is there. */
  ghost predicate LivesOn(t: Table, t': Table, p: Policy, now: Time, id: Id)
    requires id in t && id in t'
  {
    var r := t[id];
    t'[id] == r.(
      confidence := FadedConfidence(r, p, now),
      score := FadedScore(r, p, now),
      invalidAt := if DueToExpire(r, now) then r.validUntil
                   else if DueToRetire(r, p, now) then Some(now) else r.invalidAt,
      invalidatedBy := match r.invalidatedBy
                       case None => None
                       case Some(b) => if b in t && DueToGo(t[b], p, now) then None else Some(b))
  }

  lemma ExpiredOnce(r: Row, now: Time)
    ensures Expire(r, now) == r.(invalidAt := if DueToExpire(r, now) then r.validUntil else r.invalidAt)
  {
  }

  lemma FadedOnce(r: Row, p: Policy, now: Time)
    ensures var r' := Expire(r, now);
            Fade(r', p, now) == r'.(confidence := FadedConfidence(r, p, now), score := FadedScore(r, p, now))
  {
    ExpiredOnce(r, now);
    var r' := Expire(r, now);
    assert r'.confidence == r.confidence && r'.score == r.score;
    if r.score.Some? { assert r'.score.value * p.decayFactor == r.score.value * p.decayFactor; }
    assert Fade(r', p, now).score == FadedScore(r, p, now);
  }

  /** The three updates in turn, on one row. */
  lemma AgedOnce(r: Row, p: Policy, now: Time)
    ensures Retire(Fade(Expire(r, now), p, now), p, now)
            == r.(confidence := FadedConfidence(r, p, now), score := FadedScore(r, p, now),
                  invalidAt := if DueToExpire(r, now) then r.validUntil
                               else if DueToRetire(r, p, now) then Some(now) else r.invalidAt)
  {
    ExpiredOnce(r, now);
    FadedOnce(r, p, now);
  }

  lemma LifecycleIds(t: Table, p: Policy, now: Time)
    ensures forall id :: id in Lifecycle(t, p, now) <==> id in t && !DueToGo(t[id], p, now)
  {
    forall id ensures id in Lifecycle(t, p, now) <==> id in t && !DueToGo(t[id], p, now) {
      LifecycleKeys(t, p, now, id);
    }
  }

  /** Rows expire, fade, retire and go exactly when they are due, and nothing else changes. */
  lemma LifecycleWrites(t: Table, p: Policy, now: Time)
    ensures var t' := Lifecycle(t, p, now);
            && (forall id :: id in t' <==> id in t && !DueToGo(t[id], p, now))
            && forall id | id in t' :: LivesOn(t, t', p, now, id)
  {
    LifecycleIds(t, p, now);
    forall id | id in Lifecycle(t, p, now) ensures LivesOn(t, Lifecycle(t, p, now), p, now, id) {
      AgedOnce(t[id], p, now);
      if t[id].invalidatedBy.Some? && t[id].invalidatedBy.value in t { AgedOnce(t[t[id].invalidatedBy.value], p, now); }
    }
  }

  /** The three numbers it reports are those of the rows due to expire, to retire and to go. */
  lemma LifecycleCounts(t: Table, p: Policy, now: Time)
    ensures Expiring(t, now) == set id | id in t && DueToExpire(t[id], now)
    ensures Retiring(Aged(t, p, now), p) == set id | id in t && DueToRetire(t[id], p, now)
    ensures Purging(t, p, now) == set id | id in t && DueToGo(t[id], p, now)
  {
    forall id | id in t ensures id in Retiring(Aged(t, p, now), p) <==> DueToRetire(t[id], p, now) {
      AgedOnce(t[id], p, now);
    }
  }

  // ------------------------------------------------------------ what never changes

  /** The columns no operation rewrites. */
  predicate SameColumns(r: Row, r': Row) {
    r' == r.(confidence := r'.confidence, score := r'.score, invalidAt := r'.invalidAt,
             invalidatedBy := r'.invalidatedBy, revokedAt := r'.revokedAt, revokedReason := r'.revokedReason)
  }

  lemma StepKeepsColumns(s: Store, op: Op, now: Time, upper: string -> string, id: Id)
    requires Possible(s, op, now) && id in s.rows && id in Step(s, op, now, upper).rows
    ensures SameColumns(s.rows[id], Step(s, op, now, upper).rows[id])
  {
    match op {
      case RunLifecycle(policy) => LifecycleWrites(s.rows, policy, now);
      case Importing(items) => Snapshots.ImportKeepsRows(s.rows, items);
      case ApplyMerge(c, d, f) => MergeKeepsColumns(s.rows, c, d, f, now, id);
      case UpsertRelationship(c, latest, f) => UpsertKeepsColumns(s.rows, c, latest, f, upper, now, id);
      case _ =>
    }
  }

  lemma MergeKeepsColumns(t: Table, c: Item, d: Decision, f: Id, now: Time, id: Id)
    requires id in t && f !in t && id in Merge(t, c, d, f, now).0
    ensures SameColumns(t[id], Merge(t, c, d, f, now).0[id])
  {
  }

  lemma UpsertKeepsColumns(t: Table, c: Item, latest: Option<Id>, f: Id, upper: string -> string, now: Time, id: Id)
    requires id in t && f !in t && id in Upsert(t, c, latest, f, upper, now).0
    ensures SameColumns(t[id], Upsert(t, c, latest, f, upper, now).0[id])
  {
  }

  /** Over any run a row keeps its scope, subject, kind, content, sources, predecessors and times of validity. */
  lemma {:induction false} ColumnsStay(s: Store, ops: seq<(Op, Time)>, upper: string -> string, id: Id)
    requires PossibleRun(s, ops, upper) && id in s.rows && id in s.known
    ensures var s' := Run(s, ops, upper);
            id in s'.rows ==> CameBack(s, ops, upper, id) || SameColumns(s.rows[id], s'.rows[id])
  {
    if ops != [] {
      var front, op, now := ops[..|ops| - 1], ops[|ops| - 1].0, ops[|ops| - 1].1;
      var before := Run(s, front, upper);
      ColumnsStay(s, front, upper, id);
      KnownForGood(s, front, upper, id);
      if id in Step(before, op, now, upper).rows {
        if id in before.rows {
          StepKeepsColumns(before, op, now, upper, id);
        } else {
          StepBringsBack(before, op, now, upper, id);
        }
      }
    }
  }
}
