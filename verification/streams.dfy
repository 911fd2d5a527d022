/** The in-memory stream transport: MemoryStreamBackend of infrastructure/streams.py. */
module Streams {
  import opened Text

  // ------------------------------------------------------------ one stream and one consumer group

  /** Entry `id` is the sequence number n of the entry id "n-0". */
  datatype Row = Row(id: nat, payload: string)

  /** The retained rows of a stream and the last sequence number given out. */
  datatype Log = Log(rows: seq<Row>, last: nat)

  datatype Pending = Pending(consumer: string, deliveries: nat, since: nat)

  datatype Group = Group(nextIndex: nat, pending: map<nat, Pending>)

  const NEW_GROUP := Group(0, map[])
  const NEW_LOG := Log([], 0)

  function EntryId(n: nat): string {
    Decimal(n) + "-0"
  }

  lemma EntryIdInjective(m: nat, n: nat)
    requires EntryId(m) == EntryId(n)
    ensures m == n
  {
    assert Decimal(m) == EntryId(m)[..|EntryId(m)| - 2] == Decimal(n);
    DecimalRoundTrip(m);
    DecimalRoundTrip(n);
  }

  /** Entry ids ascend and lie in low + 1 .. high. */
  ghost predicate Ascending(rows: seq<Row>, low: nat, high: nat) {
    rows == [] || (low < rows[0].id <= high && Ascending(rows[1..], rows[0].id, high))
  }

  ghost predicate ValidLog(log: Log) {
    Ascending(log.rows, 0, log.last)
  }

  lemma {:induction false} AscendingBounds(rows: seq<Row>, low: nat, high: nat)
    requires Ascending(rows, low, high)
    ensures forall r | r in rows :: low < r.id <= high
  {
    if rows != [] {
      AscendingBounds(rows[1..], rows[0].id, high);
      assert rows == [rows[0]] + rows[1..];
    }
  }

  lemma {:induction false} AscendingDistinct(rows: seq<Row>, low: nat, high: nat)
    requires Ascending(rows, low, high)
    ensures forall i, j | 0 <= i < j < |rows| :: rows[i].id != rows[j].id
  {
    if rows != [] {
      AscendingDistinct(rows[1..], rows[0].id, high);
      AscendingBounds(rows[1..], rows[0].id, high);
      forall i, j | 0 <= i < j < |rows| ensures rows[i].id != rows[j].id {
        assert rows[j] in rows[1..];
        assert i > 0 ==> rows[1..][i - 1].id != rows[1..][j - 1].id;
      }
    }
  }

  lemma {:induction false} AscendingSnoc(rows: seq<Row>, low: nat, high: nat, r: Row)
    requires Ascending(rows, low, high) && low <= high < r.id
    ensures Ascending(rows + [r], low, r.id)
  {
    if rows != [] {
      AscendingSnoc(rows[1..], rows[0].id, high, r);
      assert (rows + [r])[1..] == rows[1..] + [r];
    }
  }

  lemma {:induction false} AscendingWeaken(rows: seq<Row>, low: nat, low': nat, high: nat)
    requires Ascending(rows, low, high) && low' <= low
    ensures Ascending(rows, low', high)
  {
  }

  ghost function Ids(rows: seq<Row>): set<nat> {
    set r | r in rows :: r.id
  }

  /** Drop rows at the front until at most maxlen are left. */
  function Trim(rows: seq<Row>, maxlen: nat): seq<Row> {
    if |rows| <= maxlen then rows else Trim(rows[1..], maxlen)
  }

  /** XADD with MAXLEN: the new row enters at the back, surplus rows leave at the front. */
  function Append(log: Log, payload: string, maxlen: nat): Log {
    Log(Trim(log.rows + [Row(log.last + 1, payload)], maxlen), log.last + 1)
  }

  lemma {:induction false} TrimRows(rows: seq<Row>, maxlen: nat, low: nat, high: nat)
    requires Ascending(rows, low, high)
    ensures Ascending(Trim(rows, maxlen), low, high)
    ensures forall r | r in Trim(rows, maxlen) :: r in rows
    ensures |rows| <= maxlen ==> Trim(rows, maxlen) == rows
  {
    if |rows| > maxlen {
      TrimRows(rows[1..], maxlen, rows[0].id, high);
      AscendingWeaken(Trim(rows[1..], maxlen), rows[0].id, low, high);
    }
  }

  /** What is kept are the newest rows, as many as there is room for. */
  lemma {:induction false} NewestAreKept(rows: seq<Row>, maxlen: nat)
    ensures Trim(rows, maxlen) == if |rows| <= maxlen then rows else rows[|rows| - maxlen..]
  {
    if |rows| > maxlen {
      NewestAreKept(rows[1..], maxlen);
      if |rows| - 1 > maxlen { assert rows[1..][|rows| - 1 - maxlen..] == rows[|rows| - maxlen..]; }
    }
  }

  lemma AppendRows(log: Log, payload: string, maxlen: nat)
    requires ValidLog(log)
    ensures var log' := Append(log, payload, maxlen);
            && ValidLog(log')
            && (forall r | r in log'.rows :: r in log.rows || r == Row(log.last + 1, payload))
            && (|log.rows| < maxlen ==> log'.rows == log.rows + [Row(log.last + 1, payload)])
  {
    AscendingSnoc(log.rows, 0, log.last, Row(log.last + 1, payload));
    TrimRows(log.rows + [Row(log.last + 1, payload)], maxlen, 0, log.last + 1);
  }

  /** XREADGROUP: the first `count` rows the group has not been given yet. */
  function Delivered(rows: seq<Row>, nextIndex: nat, count: nat): seq<Row> {
    if rows == [] || count == 0 then []
    else if rows[0].id > nextIndex then [rows[0]] + Delivered(rows[1..], nextIndex, count - 1)
    else Delivered(rows[1..], nextIndex, count)
  }

  /** The group after `rows` were read by a consumer for the first time. */
  function AfterRead(g: Group, rows: seq<Row>, consumer: string, now: nat): Group {
    if rows == [] then g else
      var r := rows[|rows| - 1];
      var before := AfterRead(g, rows[..|rows| - 1], consumer, now);
      Group(r.id, before.pending[r.id := Pending(consumer, 1, now)])
  }

  function PayloadOf(rows: seq<Row>, id: nat): Option<string> {
    if rows == [] then None
    else if rows[0].id == id then Some(rows[0].payload)
    else PayloadOf(rows[1..], id)
  }

  /** Visit one pending entry: skip it, forget it because its row was trimmed, or take it over. */
  function ClaimOne(id: nat, rows: seq<Row>, g: Group, consumer: string, minIdle: nat, now: nat): (Group, seq<Row>) {
    if id !in g.pending || now - g.pending[id].since < minIdle then (g, [])
    else match PayloadOf(rows, id)
      case None => (g.(pending := g.pending - {id}), [])
      case Some(payload) =>
        (g.(pending := g.pending[id := Pending(consumer, g.pending[id].deliveries + 1, now)]), [Row(id, payload)])
  }

  /** XAUTOCLAIM: visit pending entries in the given order until `count` have been taken over. */
  function Claim(order: seq<nat>, rows: seq<Row>, g: Group, consumer: string, minIdle: nat, count: nat, now: nat,
                 claimed: seq<Row> := []): (Group, seq<Row>)
  {
    if order == [] || |claimed| >= count then (g, claimed)
    else
      var (g', more) := ClaimOne(order[0], rows, g, consumer, minIdle, now);
      Claim(order[1..], rows, g', consumer, minIdle, count, now, claimed + more)
  }

  // ------------------------------------------------------------ facts about reading and claiming

  lemma {:induction false} PayloadOfRow(rows: seq<Row>, id: nat)
    ensures PayloadOf(rows, id).None? <==> id !in Ids(rows)
    ensures PayloadOf(rows, id).Some? ==> Row(id, PayloadOf(rows, id).value) in rows
  {
    if rows != [] {
      assert rows == [rows[0]] + rows[1..];
      PayloadOfRow(rows[1..], id);
      assert Ids(rows) == {rows[0].id} + Ids(rows[1..]);
    }
  }

  lemma {:induction false} DeliveredAscending(rows: seq<Row>, n: nat, count: nat, low: nat, high: nat)
    requires Ascending(rows, low, high)
    ensures var d := Delivered(rows, n, count);
            |d| <= count && Ascending(d, if low < n then n else low, high) && forall r | r in d :: r in rows
  {
    if rows != [] && count > 0 {
      DeliveredAscending(rows[1..], n, if rows[0].id > n then count - 1 else count, rows[0].id, high);
      var rest := Delivered(rows[1..], n, if rows[0].id > n then count - 1 else count);
      if rows[0].id > n {
        assert ([rows[0]] + rest)[1..] == rest;
      } else {
        AscendingWeaken(rest, n, if low < n then n else low, high);
      }
    }
  }

  lemma {:induction false} AscendingLast(rows: seq<Row>, low: nat, high: nat, r: Row)
    requires Ascending(rows, low, high) && r in rows
    ensures low < r.id <= rows[|rows| - 1].id
  {
    var tail := rows[1..];
    if tail == [] {
      assert rows == [rows[0]];
    } else {
      var s := if r == rows[0] then tail[0] else r;
      assert rows == [rows[0]] + tail;
      AscendingLast(tail, rows[0].id, high, s);
      assert tail[|tail| - 1] == rows[|rows| - 1];
    }
  }

  lemma {:induction false} LeftUnread(rows: seq<Row>, n: nat, count: nat, low: nat, high: nat, r: Row)
    requires Ascending(rows, low, high) && r in rows && r.id > n && r !in Delivered(rows, n, count)
    ensures var d := Delivered(rows, n, count); d != [] ==> r.id > d[|d| - 1].id
  {
    if count > 0 {
      assert rows == [rows[0]] + rows[1..];
      assert r in rows[1..];
      AscendingBounds(rows[1..], rows[0].id, high);
      LeftUnread(rows[1..], n, if rows[0].id > n then count - 1 else count, rows[0].id, high, r);
    }
  }

  /** A read hands out the oldest unread rows and leaves exactly the others unread. */
  lemma DeliveredOldest(rows: seq<Row>, n: nat, count: nat, low: nat, high: nat, r: Row)
    requires Ascending(rows, low, high) && r in rows && r.id > n
    ensures var d := Delivered(rows, n, count); r in d <==> d != [] && r.id <= d[|d| - 1].id
  {
    DeliveredAscending(rows, n, count, low, high);
    if r in Delivered(rows, n, count) {
      AscendingLast(Delivered(rows, n, count), if low < n then n else low, high, r);
    } else {
      LeftUnread(rows, n, count, low, high, r);
    }
  }

  /** A read stops short of count only when nothing is left unread. */
  lemma {:induction false} ReadsUpToCount(rows: seq<Row>, n: nat, count: nat)
    ensures |Delivered(rows, n, count)| < count ==> forall r | r in rows && r.id > n :: r in Delivered(rows, n, count)
  {
    if rows != [] && count > 0 { ReadsUpToCount(rows[1..], n, if rows[0].id > n then count - 1 else count); }
  }

  lemma IdsSnoc(rows: seq<Row>, r: Row)
    ensures Ids(rows + [r]) == Ids(rows) + {r.id}
  {
    forall x | x in rows || x == r ensures x in rows + [r] {}
    forall id | id in Ids(rows) + {r.id} ensures id in Ids(rows + [r]) {
      if id == r.id {
        assert r in rows + [r];
      } else {
        var x :| x in rows && x.id == id;
        assert x in rows + [r];
      }
    }
  }

  lemma {:induction false} AfterReadGroup(g: Group, rows: seq<Row>, consumer: string, now: nat)
    ensures var g' := AfterRead(g, rows, consumer, now);
            && g'.nextIndex == (if rows == [] then g.nextIndex else rows[|rows| - 1].id)
            && g'.pending.Keys == g.pending.Keys + Ids(rows)
            && (forall id | id in g'.pending ::
                  g'.pending[id] == if id in Ids(rows) then Pending(consumer, 1, now) else g.pending[id])
  {
    if rows != [] {
      var front, r := rows[..|rows| - 1], rows[|rows| - 1];
      AfterReadGroup(g, front, consumer, now);
      IdsSnoc(front, r);
      assert rows == front + [r];
    }
  }

  ghost predicate NoDuplicates(ids: seq<nat>) {
    forall i, j | 0 <= i < j < |ids| :: ids[i] != ids[j]
  }

  /** What a claim does to the group, whatever the order in which it visits the pending entries. */
  ghost predicate ClaimOutcome(rows: seq<Row>, g: Group, consumer: string, minIdle: nat, now: nat,
                               g': Group, claimed: seq<Row>) {
    && g'.nextIndex == g.nextIndex && g'.pending.Keys <= g.pending.Keys
    && (forall id | id in g.pending && id in Ids(rows) :: id in g'.pending)
    && (forall i, j | 0 <= i < j < |claimed| :: claimed[i].id != claimed[j].id)
    && (forall i | 0 <= i < |claimed| :: claimed[i] in rows && claimed[i].id in g'.pending
                                         && now - g.pending[claimed[i].id].since >= minIdle)
    && (forall id | id in g'.pending ::
          g'.pending[id] == if id in Ids(claimed) then Pending(consumer, g.pending[id].deliveries + 1, now)
            else g.pending[id])
  }

  lemma ClaimOneOutcome(id: nat, rows: seq<Row>, g0: Group, consumer: string, minIdle: nat, now: nat, g: Group,
                        claimed: seq<Row>)
    requires ClaimOutcome(rows, g0, consumer, minIdle, now, g, claimed) && id !in Ids(claimed)
    ensures var (g', more) := ClaimOne(id, rows, g, consumer, minIdle, now);
            && ClaimOutcome(rows, g0, consumer, minIdle, now, g', claimed + more)
            && Ids(claimed + more) <= Ids(claimed) + {id}
  {
    PayloadOfRow(rows, id);
    var (g', more) := ClaimOne(id, rows, g, consumer, minIdle, now);
    if more == [] {
      assert claimed + more == claimed;
    } else {
      IdsSnoc(claimed, more[0]);
      forall i | 0 <= i < |claimed| ensures claimed[i].id in Ids(claimed) {}
    }
  }

  lemma {:induction false} ClaimGroup(order: seq<nat>, rows: seq<Row>, g0: Group, consumer: string, minIdle: nat,
                                      count: nat, now: nat, g: Group, claimed: seq<Row>)
    requires NoDuplicates(order) && forall id | id in order :: id !in Ids(claimed)
    requires ClaimOutcome(rows, g0, consumer, minIdle, now, g, claimed) && |claimed| <= count
    ensures var (g', claimed') := Claim(order, rows, g, consumer, minIdle, count, now, claimed);
            ClaimOutcome(rows, g0, consumer, minIdle, now, g', claimed') && |claimed'| <= count
    decreases |order|
  {
    if order != [] && |claimed| < count {
      ClaimOneOutcome(order[0], rows, g0, consumer, minIdle, now, g, claimed);
      var (g', more) := ClaimOne(order[0], rows, g, consumer, minIdle, now);
      ClaimGroup(order[1..], rows, g0, consumer, minIdle, count, now, g', claimed + more);
    }
  }

  predicate IdleFor(g: Group, id: nat, minIdle: nat, now: nat) {
    id in g.pending && now - g.pending[id].since >= minIdle
  }

  /** An idle entry that was visited was taken over, or forgotten if its row is gone. */
  ghost predicate Visited(rows: seq<Row>, g': Group, claimed: seq<Row>, id: nat) {
    if id in Ids(rows) then id in Ids(claimed) else id !in g'.pending
  }

  lemma ClaimOneElsewhere(id: nat, rows: seq<Row>, g: Group, consumer: string, minIdle: nat, now: nat, other: nat)
    ensures var (g', more) := ClaimOne(id, rows, g, consumer, minIdle, now);
            && (other != id || !IdleFor(g, other, minIdle, now) ==>
                  (other in g'.pending <==> other in g.pending)
                    && (other in g.pending ==> g'.pending[other] == g.pending[other])
                  && other !in Ids(more))
            && (other == id && IdleFor(g, other, minIdle, now) ==> Visited(rows, g', more, other))
  {
    PayloadOfRow(rows, id);
    var (g', more) := ClaimOne(id, rows, g, consumer, minIdle, now);
    if more != [] { IdsSnoc([], more[0]); assert [] + [more[0]] == more; }
  }

  /**
   * A claim visits a first part of the order, which ends at the end of the order or where the last of count entries is
   * taken over: there every idle entry is taken over, or forgotten if its row is gone, and everything else is left as
   * it was.
   */
  lemma {:induction false} ClaimVisits(order: seq<nat>, rows: seq<Row>, g: Group, consumer: string, minIdle: nat,
                                       count: nat, now: nat, claimed: seq<Row>) returns (n: nat)
    requires NoDuplicates(order) && |claimed| <= count
    ensures n <= |order| && (order != [] && |claimed| < count ==> n > 0)
    ensures n < |order| ==> |Claim(order, rows, g, consumer, minIdle, count, now, claimed).1| >= count
    ensures |Claim(order, rows, g, consumer, minIdle, count, now, claimed).1| >= count && n > 0 ==>
              order[n - 1] in Ids(Claim(order, rows, g, consumer, minIdle, count, now, claimed).1)
    ensures var (g', claimed') := Claim(order, rows, g, consumer, minIdle, count, now, claimed);
            && Ids(claimed) <= Ids(claimed')
            && (forall i | 0 <= i < n && IdleFor(g, order[i], minIdle, now) :: Visited(rows, g', claimed', order[i]))
            && (forall id | id !in order[..n] || !IdleFor(g, id, minIdle, now) ::
                  && (id in g'.pending <==> id in g.pending) && (id in g.pending ==> g'.pending[id] == g.pending[id])
                  && (id in Ids(claimed') ==> id in Ids(claimed)))
    decreases |order|
  {
    n := 0;
    if order != [] && |claimed| < count {
      var first := order[0];
      var (g1, more) := ClaimOne(first, rows, g, consumer, minIdle, now);
      var m := ClaimVisits(order[1..], rows, g1, consumer, minIdle, count, now, claimed + more);
      n := m + 1;
      ClaimVisitsStep(order, rows, g, consumer, minIdle, count, now, claimed, m);
      if m == 0 { FirstIsTaken(first, rows, g, consumer, minIdle, count, now, claimed); }
    }
  }

  lemma FirstIsTaken(id: nat, rows: seq<Row>, g: Group, consumer: string, minIdle: nat, count: nat, now: nat,
                     claimed: seq<Row>)
    requires |claimed| < count
    ensures var more := ClaimOne(id, rows, g, consumer, minIdle, now).1;
            |claimed + more| >= count ==> id in Ids(claimed + more)
  {
    var more := ClaimOne(id, rows, g, consumer, minIdle, now).1;
    if |claimed + more| >= count { assert (claimed + more)[|claimed|] in claimed + more; }
  }

  /** The entries taken over come in the order in which they were visited, after those taken before. */
  lemma {:induction false} ClaimInOrder(order: seq<nat>, rows: seq<Row>, g: Group, consumer: string, minIdle: nat,
                                        count: nat, now: nat, claimed: seq<Row>) returns (at: seq<nat>)
    ensures var claimed' := Claim(order, rows, g, consumer, minIdle, count, now, claimed).1;
            && |claimed'| == |claimed| + |at| && claimed'[..|claimed|] == claimed
            && (forall k | 0 <= k < |at| :: at[k] < |order| && claimed'[|claimed| + k].id == order[at[k]])
    ensures forall j, k | 0 <= j < k < |at| :: at[j] < at[k]
    decreases |order|
  {
    at := [];
    if order != [] && |claimed| < count {
      var (g1, more) := ClaimOne(order[0], rows, g, consumer, minIdle, now);
      var later := ClaimInOrder(order[1..], rows, g1, consumer, minIdle, count, now, claimed + more);
      at := (if more == [] then [] else [0]) + seq(|later|, k requires 0 <= k < |later| => later[k] + 1);
    }
  }

  lemma IdsConcat(a: seq<Row>, b: seq<Row>)
    ensures Ids(a + b) == Ids(a) + Ids(b)
  {
    forall id | id in Ids(a) + Ids(b) ensures id in Ids(a + b) {
      if id in Ids(a) {
        var r :| r in a && r.id == id;
        assert r in a + b;
      } else {
        var r :| r in b && r.id == id;
        assert r in a + b;
      }
    }
  }

  lemma ClaimVisitsStep(order: seq<nat>, rows: seq<Row>, g: Group, consumer: string, minIdle: nat, count: nat, now: nat,
                        claimed: seq<Row>, m: nat)
    requires NoDuplicates(order) && order != [] && |claimed| < count && m < |order|
    requires var (g1, more) := ClaimOne(order[0], rows, g, consumer, minIdle, now);
             var (g', claimed') := Claim(order[1..], rows, g1, consumer, minIdle, count, now, claimed + more);
             && Ids(claimed + more) <= Ids(claimed')
             && (forall i | 0 <= i < m && IdleFor(g1, order[1..][i], minIdle, now) ::
                Visited(rows, g', claimed', order[1..][i]))
             && (forall id | id !in order[1..][..m] || !IdleFor(g1, id, minIdle, now) ::
                   && (id in g'.pending <==> id in g1.pending)
                   && (id in g1.pending ==> g'.pending[id] == g1.pending[id])
                   && (id in Ids(claimed') ==> id in Ids(claimed + more)))
    ensures var (g', claimed') := Claim(order, rows, g, consumer, minIdle, count, now, claimed);
            && Ids(claimed) <= Ids(claimed')
            && (forall i | 0 <= i < m + 1 && IdleFor(g, order[i], minIdle, now) ::
               Visited(rows, g', claimed', order[i]))
            && (forall id | id !in order[..m + 1] || !IdleFor(g, id, minIdle, now) ::
                  && (id in g'.pending <==> id in g.pending) && (id in g.pending ==> g'.pending[id] == g.pending[id])
                  && (id in Ids(claimed') ==> id in Ids(claimed)))
  {
    var first := order[0];
    var (g1, more) := ClaimOne(first, rows, g, consumer, minIdle, now);
    var (g', claimed') := Claim(order[1..], rows, g1, consumer, minIdle, count, now, claimed + more);
    IdsConcat(claimed, more);
    assert claimed + [] == claimed;
    assert Claim(order, rows, g, consumer, minIdle, count, now, claimed) == (g', claimed');
    assert order == [first] + order[1..] && first !in order[1..];
    forall i | 0 <= i < m + 1 && IdleFor(g, order[i], minIdle, now) ensures Visited(rows, g', claimed', order[i]) {
      ClaimOneElsewhere(first, rows, g, consumer, minIdle, now, order[i]);
      if i > 0 { assert order[i] == order[1..][i - 1] && order[i] != first; } else { assert first !in order[1..][..m]; }
    }
    forall id | id !in order[..m + 1] || !IdleFor(g, id, minIdle, now)
      ensures (id in g'.pending <==> id in g.pending) && (id in g.pending ==> g'.pending[id] == g.pending[id])
      ensures id in Ids(claimed') ==> id in Ids(claimed)
    {
      ClaimOneElsewhere(first, rows, g, consumer, minIdle, now, id);
      assert order[..m + 1] == [first] + order[1..][..m];
    }
  }

  lemma ClaimStep(ids: seq<nat>, i: nat, rows: seq<Row>, g: Group, consumer: string, minIdle: nat, count: nat, now: nat,
                  claimed: seq<Row>)
    requires i < |ids| && |claimed| < count
    ensures var (g', more) := ClaimOne(ids[i], rows, g, consumer, minIdle, now);
            Claim(ids[i..], rows, g, consumer, minIdle, count, now, claimed)
            == Claim(ids[i + 1..], rows, g', consumer, minIdle, count, now, if more == [] then claimed
              else claimed + more)
  {
    assert ids[i..][1..] == ids[i + 1..];
    assert claimed + [] == claimed;
  }

  // ------------------------------------------------------------ the backend

  lemma {:induction false} DeliveredSnoc(rows: seq<Row>, n: nat, count: nat, i: nat)
    requires i < |rows|
    ensures var d := Delivered(rows[..i], n, count);
            |d| <= count && Delivered(rows[..i + 1], n, count)
              == if rows[i].id > n && |d| < count then d + [rows[i]] else d
  {
    if i == 0 {
      assert rows[..1] == [rows[0]] && rows[..1][1..] == [];
    } else if count > 0 {
      assert rows[..i + 1][1..] == rows[1..][..i] && rows[..i][1..] == rows[1..][..i - 1];
      DeliveredSnoc(rows[1..], n, if rows[0].id > n then count - 1 else count, i - 1);
    }
  }

  lemma {:induction false} AscendingPrefix(rows: seq<Row>, low: nat, high: nat, i: nat)
    requires Ascending(rows, low, high) && i < |rows|
    ensures low < rows[i].id
    ensures Ascending(rows[..i], low, rows[i].id - 1)
  {
    if i > 0 {
      assert rows[..i][1..] == rows[1..][..i - 1];
      AscendingPrefix(rows[1..], rows[0].id, high, i - 1);
    }
  }

  lemma ReadStep(log: Log, n: nat, count: nat, i: nat)
    requires ValidLog(log) && i < |log.rows|
    ensures var d := Delivered(log.rows[..i], n, count);
            Delivered(log.rows[..i + 1], n, count) ==
            if log.rows[i].id <= (if d == [] then n else d[|d| - 1].id) || |d| >= count then d else d + [log.rows[i]]
  {
    DeliveredSnoc(log.rows, n, count, i);
    AscendingPrefix(log.rows, 0, log.last, i);
    DeliveredAscending(log.rows[..i], n, count, 0, log.rows[i].id - 1);
    var d := Delivered(log.rows[..i], n, count);
    AscendingBounds(d, n, log.rows[i].id - 1);
  }

  /** The loop of read_new over the rows of the stream. */
  method ScanNew(rows: seq<Row>, g: Group, consumer: string, count: nat, now: nat)
    returns (delivered: seq<Row>, state: Group)
    requires exists last :: ValidLog(Log(rows, last))
    ensures delivered == Delivered(rows, g.nextIndex, count)
    ensures state == AfterRead(g, delivered, consumer, now)
  {
    ghost var last :| ValidLog(Log(rows, last));
    delivered, state := [], g;
    for i := 0 to |rows|
      invariant delivered == Delivered(rows[..i], g.nextIndex, count)
      invariant state == AfterRead(g, delivered, consumer, now)
      invariant state.nextIndex == if delivered == [] then g.nextIndex else delivered[|delivered| - 1].id
    {
      ReadStep(Log(rows, last), g.nextIndex, count, i);
      var row := rows[i];
      if row.id <= state.nextIndex || |delivered| >= count {
        continue;
      }
      assert (delivered + [row])[..|delivered|] == delivered;
      state := Group(row.id, state.pending[row.id := Pending(consumer, 1, now)]);
      delivered := delivered + [row];
    }
    assert rows[..|rows|] == rows;
  }

  /** The loop of claim_stale over the pending entries. */
  method ScanPending(ids: seq<nat>, rows: seq<Row>, g: Group, consumer: string, minIdle: nat, count: nat, now: nat)
    returns (claimed: seq<Row>, state: Group)
    ensures (state, claimed) == Claim(ids, rows, g, consumer, minIdle, count, now)
  {
    claimed, state := [], g;
    assert ids[0..] == ids;
    for i := 0 to |ids|
      invariant Claim(ids[i..], rows, state, consumer, minIdle, count, now, claimed)
                == Claim(ids, rows, g, consumer, minIdle, count, now)
    {
      if |claimed| >= count { break; }
      var id := ids[i];
      ClaimStep(ids, i, rows, state, consumer, minIdle, count, now, claimed);
      if id !in state.pending || now - state.pending[id].since < minIdle { continue; }
      var payload := PayloadOf(rows, id);
      if payload.None? {
        state := state.(pending := state.pending - {id});
        continue;
      }
      state := state.(pending := state.pending[id := Pending(consumer, state.pending[id].deliveries + 1, now)]);
      claimed := claimed + [Row(id, payload.value)];
    }
  }

  class MemoryStreamBackend {
    /** The injected clock, in milliseconds. */
    var now: nat
    var streams: map<string, seq<Row>>
    var sequence: map<string, nat>
    var groups: map<(string, string), Group>
    var once: map<string, nat>

    ghost function LogOf(stream: string): Log
      reads `streams, `sequence
    {
      Log(if stream in streams then streams[stream] else [], if stream in sequence then sequence[stream] else 0)
    }

    ghost function GroupOf(stream: string, group: string): Group
      reads `groups
    {
      if (stream, group) in groups then groups[(stream, group)] else NEW_GROUP
    }

    ghost predicate Valid()
      reads `streams, `sequence
    {
      forall s: string :: ValidLog(LogOf(s))
    }

    constructor ()
      ensures Valid() && once == map[]
      ensures forall s, g :: LogOf(s) == NEW_LOG && GroupOf(s, g) == NEW_GROUP
    {
      now, streams, sequence, groups, once := 0, map[], map[], map[], map[];
    }

    method Add(stream: string, payload: string, maxlen: nat) returns (id: nat)
      requires Valid()
      modifies `streams, `sequence
      ensures Valid() && id == LogOf(stream).last
      ensures LogOf(stream) == Append(old(LogOf(stream)), payload, maxlen)
      ensures var all := old(LogOf(stream)).rows + [Row(id, payload)];
              LogOf(stream).rows == if |all| <= maxlen then all else all[|all| - maxlen..]
      ensures id == old(LogOf(stream)).last + 1
      ensures forall s | s != stream :: LogOf(s) == old(LogOf(s))
    {
      id := (if stream in sequence then sequence[stream] else 0) + 1;
      var entries := (if stream in streams then streams[stream] else []) + [Row(id, payload)];
      ghost var all := entries;
      while |entries| > maxlen
        invariant Trim(entries, maxlen) == Trim(all, maxlen)
        invariant streams == old(streams) && sequence == old(sequence)
      {
        entries := entries[1..];
      }
      ghost var log := Append(LogOf(stream), payload, maxlen);
      AppendRows(LogOf(stream), payload, maxlen);
      NewestAreKept(all, maxlen);
      sequence, streams := sequence[stream := id], streams[stream := entries];
      assert LogOf(stream) == log;
      assert forall s | s != stream :: LogOf(s) == old(LogOf(s));
    }

    /** Time passes. */
    method Wait(elapsed: nat)
      modifies `now
      ensures now == old(now) + elapsed
    {
      now := now + elapsed;
    }

    method EnsureGroup(stream: string, group: string)
      requires Valid()
      modifies `groups, `streams
      ensures Valid()
      ensures forall s :: LogOf(s) == old(LogOf(s))
      ensures forall s, g :: GroupOf(s, g) == old(GroupOf(s, g))
    {
      if (stream, group) !in groups { groups := groups[(stream, group) := NEW_GROUP]; }
      if stream !in streams { streams := streams[stream := []]; }
      assert forall s :: LogOf(s) == old(LogOf(s));
    }

    method ReadNew(stream: string, group: string, consumer: string, count: nat) returns (delivered: seq<Row>)
      requires Valid()
      modifies `groups
      ensures delivered == Delivered(LogOf(stream).rows, old(GroupOf(stream, group)).nextIndex, count)
      ensures GroupOf(stream, group) == AfterRead(old(GroupOf(stream, group)), delivered, consumer, now)
      ensures groups == old(groups)[(stream, group) := GroupOf(stream, group)]
    {
      var rows := if stream in streams then streams[stream] else [];
      var state := if (stream, group) in groups then groups[(stream, group)] else NEW_GROUP;
      assert ValidLog(Log(rows, LogOf(stream).last)) by { assert ValidLog(LogOf(stream)); }
      delivered, state := ScanNew(rows, state, consumer, count, now);
      groups := groups[(stream, group) := state];
    }

    /** Pending entries in the order of their entry ids as strings. */
    method PendingOrder(state: Group) returns (order: seq<nat>)
      ensures forall id :: id in order <==> id in state.pending
      ensures forall i, j | 0 <= i < j < |order| :: StrLess(EntryId(order[i]), EntryId(order[j]))
      ensures NoDuplicates(order)
    {
      forall m, n | EntryId(m) == EntryId(n) ensures m == n { EntryIdInjective(m, n); }
      order := SortedBy(state.pending.Keys, EntryId);
      forall i, j | 0 <= i < j < |order| ensures order[i] != order[j] {
        StrLessIrreflexive(EntryId(order[i]));
      }
    }

    method ClaimStale(stream: string, group: string, consumer: string, minIdle: nat, count: nat)
      returns (claimed: seq<Row>, ghost order: seq<nat>)
      requires Valid()
      modifies `groups
      ensures NoDuplicates(order) && forall id :: id in order <==> id in old(GroupOf(stream, group)).pending
      ensures forall i, j | 0 <= i < j < |order| :: StrLess(EntryId(order[i]), EntryId(order[j]))
      ensures (GroupOf(stream, group), claimed) ==
              Claim(order, LogOf(stream).rows, old(GroupOf(stream, group)), consumer, minIdle, count, now)
      ensures groups == old(groups)[(stream, group) := GroupOf(stream, group)]
    {
      var rows := if stream in streams then streams[stream] else [];
      var state := if (stream, group) in groups then groups[(stream, group)] else NEW_GROUP;
      var ids := PendingOrder(state);
      order := ids;
      claimed, state := ScanPending(ids, rows, state, consumer, minIdle, count, now);
      groups := groups[(stream, group) := state];
    }

    method DeliveryCount(stream: string, group: string, id: nat) returns (n: nat)
      ensures var pending := GroupOf(stream, group).pending; n == if id in pending then pending[id].deliveries else 0
    {
      var state := if (stream, group) in groups then groups[(stream, group)] else NEW_GROUP;
      n := if id in state.pending then state.pending[id].deliveries else 0;
    }

    method Ack(stream: string, group: string, id: nat)
      modifies `groups
      ensures var g := old(GroupOf(stream, group)); GroupOf(stream, group) == g.(pending := g.pending - {id})
      ensures groups == old(groups)[(stream, group) := GroupOf(stream, group)]
    {
      var state := if (stream, group) in groups then groups[(stream, group)] else NEW_GROUP;
      groups := groups[(stream, group) := state.(pending := state.pending - {id})];
    }

    method AcquireOnce(key: string, ttlSeconds: nat) returns (acquired: bool)
      modifies `once
      ensures acquired <==> !Marked(old(once), key, now)
      ensures once == Mark(old(once), key, now, ttlSeconds)
    {
      if key in once && once[key] > now { return false; }
      once := once[key := now + 1000 * ttlSeconds];
      return true;
    }

    method HasOnce(key: string) returns (marked: bool)
      ensures marked <==> Marked(once, key, now)
    {
      marked := key in once && once[key] > now;
    }

    /** None is the KeyError for a row that is no longer there; nothing changes then. */
    method ReplayDeadLetter(deadStream: string, id: nat, sourceStream: string, maxlen: nat, dedupeKey: Option<string>)
      returns (replayed: Option<Row>)
      requires Valid()
      modifies this
      ensures Valid() && groups == old(groups) && now == old(now)
      ensures PayloadOf(old(LogOf(deadStream)).rows, id)
              == if replayed.None? then None else Some(replayed.value.payload)
      ensures replayed.None? ==> streams == old(streams) && sequence == old(sequence) && once == old(once)
      ensures replayed.Some? ==> once == if dedupeKey.Some? then old(once) - {dedupeKey.value} else old(once)
      ensures replayed.Some? ==> replayed.value.id == old(LogOf(sourceStream)).last + 1
      ensures replayed.Some? && deadStream != sourceStream ==>
                && LogOf(sourceStream) == Append(old(LogOf(sourceStream)), replayed.value.payload, maxlen)
                && LogOf(deadStream) == WithoutRow(old(LogOf(deadStream)), id)
      ensures replayed.Some? && deadStream == sourceStream ==>
                LogOf(sourceStream) == WithoutRow(Append(old(LogOf(sourceStream)), replayed.value.payload, maxlen), id)
      ensures forall s | s != deadStream && s != sourceStream :: LogOf(s) == old(LogOf(s))
    {
      var payload := PayloadOf(if deadStream in streams then streams[deadStream] else [], id);
      if payload.None? { return None; }
      if dedupeKey.Some? { once := once - {dedupeKey.value}; }
      assert forall s :: LogOf(s) == old(LogOf(s));
      var newId := Add(sourceStream, payload.value, maxlen);
      Remove(deadStream, id);
      return Some(Row(newId, payload.value));
    }

    method Remove(stream: string, id: nat)
      requires Valid()
      modifies `streams
      ensures Valid() && LogOf(stream) == WithoutRow(old(LogOf(stream)), id)
      ensures forall s | s != stream :: LogOf(s) == old(LogOf(s))
    {
      ghost var log := LogOf(stream);
      assert ValidLog(log);
      RemoveRowRows(log.rows, id, 0, log.last);
      streams := streams[stream := RemoveRow(if stream in streams then streams[stream] else [], id)];
      assert LogOf(stream) == WithoutRow(log, id);
      assert forall s | s != stream :: LogOf(s) == old(LogOf(s));
    }
  }

  /** A marker that is set lives for exactly ttl seconds; setting it again, or another key, changes nothing about it. */
  lemma MarkLasts(once: map<string, nat>, key: string, now: nat, ttlSeconds: nat, other: string, later: nat)
    ensures !Marked(once, key, now) ==>
              (Marked(Mark(once, key, now, ttlSeconds), key, later) <==> later < now + 1000 * ttlSeconds)
    ensures Marked(once, key, now) || other != key ==>
              (Marked(Mark(once, key, now, ttlSeconds), other, later) <==> Marked(once, other, later))
  {
  }

  predicate Marked(once: map<string, nat>, key: string, now: nat) {
    key in once && once[key] > now
  }

  function Mark(once: map<string, nat>, key: string, now: nat, ttlSeconds: nat): map<string, nat> {
    if Marked(once, key, now) then once else
      var expiry: nat := now + 1000 * ttlSeconds;
      once[key := expiry]
  }

  function RemoveRow(rows: seq<Row>, id: nat): seq<Row> {
    if rows == [] then []
    else (if rows[0].id == id then [] else [rows[0]]) + RemoveRow(rows[1..], id)
  }

  function WithoutRow(log: Log, id: nat): Log {
    log.(rows := RemoveRow(log.rows, id))
  }

  lemma {:induction false} RemoveRowRows(rows: seq<Row>, id: nat, low: nat, high: nat)
    requires Ascending(rows, low, high)
    ensures Ascending(RemoveRow(rows, id), low, high)
    ensures forall r :: r in RemoveRow(rows, id) <==> r in rows && r.id != id
  {
    if rows != [] {
      RemoveRowRows(rows[1..], id, rows[0].id, high);
      AscendingWeaken(RemoveRow(rows[1..], id), rows[0].id, low, high);
      assert ([rows[0]] + RemoveRow(rows[1..], id))[1..] == RemoveRow(rows[1..], id);
      assert [] + RemoveRow(rows[1..], id) == RemoveRow(rows[1..], id);
    }
  }
}
