/** What the broker's calls do, told of the registry before and after, and of whole runs: plugins/broker.py. */
module BrokerCalls {
  import opened Broker
  import opened Text

  // ------------------------------------------------------------ register and unregister

  lemma {:induction false} AdoptToolsExactly(tools: map<ToolId, Tool>, specs: seq<ToolId>, tool: Tool, n: nat,
                                             t: ToolId)
    requires n <= |specs|
    ensures var r := AdoptTools(tools, specs, tool, n);
            && (t in specs[..n] ==> t in r && r[t] == tool)
            && (t !in specs[..n] ==> (t in r <==> t in tools) && (t in r ==> r[t] == tools[t]))
  {
    if n > 0 {
      AdoptToolsExactly(tools, specs, tool, n - 1, t);
      assert specs[..n] == specs[..n - 1] + [specs[n - 1]];
    }
  }

  /** Manifest i is the last of the first n that lists tool t. */
  ghost predicate LastListing(ms: seq<Manifest>, n: nat, t: ToolId, i: nat)
    requires n <= |ms|
  {
    i < n && t in ms[i].tools && forall j | i < j < n :: t !in ms[j].tools
  }

  ghost predicate Unlisted(ms: seq<Manifest>, n: nat, t: ToolId)
    requires n <= |ms|
  {
    forall i | 0 <= i < n :: t !in ms[i].tools
  }

  lemma {:induction false} AdoptExactly(tools: map<ToolId, Tool>, runner: RunnerId, ms: seq<Manifest>, n: nat,
                                        t: ToolId)
    requires n <= |ms|
    ensures var r := Adopt(tools, runner, ms, n);
            && (forall i: nat | LastListing(ms, n, t, i) :: t in r && r[t] == Tool(ms[i].id, runner))
            && (Unlisted(ms, n, t) ==> (t in r <==> t in tools) && (t in r ==> r[t] == tools[t]))
  {
    if n > 0 {
      var last := ms[n - 1];
      AdoptExactly(tools, runner, ms, n - 1, t);
      AdoptToolsExactly(Adopt(tools, runner, ms, n - 1), last.tools, Tool(last.id, runner), |last.tools|, t);
      assert last.tools[..|last.tools|] == last.tools;
      forall i: nat | LastListing(ms, n, t, i) && i < n - 1 ensures LastListing(ms, n - 1, t, i) {}
    }
  }

  /** Manifest i is the last of the first n for plugin p. */
  ghost predicate LastFor(ms: seq<Manifest>, n: nat, p: PluginId, i: nat)
    requires n <= |ms|
  {
    i < n && ms[i].id == p && forall j | i < j < n :: ms[j].id != p
  }

  ghost predicate HasPlugin(ms: seq<Manifest>, n: nat, p: PluginId) {
    exists i :: 0 <= i < n && i < |ms| && ms[i].id == p
  }

  lemma {:induction false} PluginMapExactly(ms: seq<Manifest>, n: nat, p: PluginId)
    requires n <= |ms|
    ensures p in PluginMap(ms, n) <==> HasPlugin(ms, n, p)
    ensures forall i: nat | LastFor(ms, n, p, i) :: p in PluginMap(ms, n) && PluginMap(ms, n)[p] == ms[i]
  {
    if n > 0 {
      PluginMapExactly(ms, n - 1, p);
      if ms[n - 1].id == p { assert HasPlugin(ms, n, p); }
      forall i: nat | LastFor(ms, n, p, i) && i < n - 1 ensures LastFor(ms, n - 1, p, i) {}
    }
  }

  /** Everything of a registry but one runner, its tools and its state is in the other one too. */
  ghost predicate OthersKept(b: Registry, b': Registry, runner: RunnerId) {
    && (forall r | r != runner ::
       (r in b.runners <==> r in b'.runners) && (r in b.runners ==> b.runners[r] == b'.runners[r]))
    && b'.polls == b.polls && |b.work| <= |b'.work| && b'.work[..|b.work|] == b.work
  }

  /**
   * A registered runner has a new state, with an empty queue, the manifests given, the last one of a plugin, and every
   * tool listed, for the last manifest that lists it; tools it had before and does not list are gone, and the tools of
   * other runners stay unless they are listed. Nobody's future changes.
   */
  lemma RegisterWrites(b: Registry, runner: RunnerId, protocol: int, ms: seq<Manifest>, p: PluginId, t: ToolId)
    requires Connected(b)
    ensures var b' := Register(b, runner, protocol, ms);
            && OthersKept(b, b', runner) && b'.pending == b.pending && |b'.work| == |b.work| + 1
            && runner in b'.runners && b'.runners[runner].protocol == protocol
            && b'.runners[runner].state == |b.work| && b'.work[|b.work|] == []
            && (p in b'.runners[runner].plugins <==> HasPlugin(ms, |ms|, p))
            && (forall i: nat | LastFor(ms, |ms|, p, i) ::
                  p in b'.runners[runner].plugins && b'.runners[runner].plugins[p] == ms[i])
            && (forall i: nat | LastListing(ms, |ms|, t, i) :: t in b'.tools && b'.tools[t] == Tool(ms[i].id, runner))
            && (Unlisted(ms, |ms|, t) ==>
                  && (t in b'.tools <==> t in b.tools && b.tools[t].runner != runner)
                  && (t in b'.tools ==> b'.tools[t] == b.tools[t]))
  {
    PluginMapExactly(ms, |ms|, p);
    AdoptExactly(if runner in b.runners then Without(b.tools, runner) else b.tools, runner, ms, |ms|, t);
  }

  /** An unregistered runner is gone with its tools, and so are the futures of what is queued for it; no more. */
  lemma UnregisterWrites(b: Registry, runner: RunnerId, t: ToolId, x: InvocationId)
    ensures var b' := Unregister(b, runner);
            && runner !in b'.runners && OthersKept(b, b', runner) && b'.work == b.work
            && (runner in b.runners ==> (t in b'.tools <==> t in b.tools && b.tools[t].runner != runner))
            && (runner !in b.runners ==> b' == b)
            && (t in b'.tools ==> t in b.tools && b'.tools[t] == b.tools[t])
            && (x in b'.pending <==> x in b.pending)
            && (x in b.pending ==> b'.pending[x] == if Departs(b, runner, x) && b.pending[x] == WAITING
                                                      then DISCONNECTED else b.pending[x])
  {
  }

  /** The invocation is queued for the runner. */
  ghost predicate Departs(b: Registry, runner: RunnerId, x: InvocationId) {
    && runner in b.runners && b.runners[runner].state < |b.work|
    && exists i :: 0 <= i < |b.work[b.runners[runner].state]| && b.work[b.runners[runner].state][i] == x
  }

  // ------------------------------------------------------------ what is queued is handed out

  ghost predicate IsPrefix(a: seq<InvocationId>, b: seq<InvocationId>) {
    |a| <= |b| && b[..|a|] == a
  }

  /** A drained queue is appended to what has been handed out; any other queue only grows at its end. */
  lemma QueueStep(w: World, a: Action, state: nat)
    requires States(w) && state < |w.b.work|
    ensures var w' := Step(w, a);
            && state < |w'.b.work| && IsPrefix(w.handed, w'.handed)
            && if Drains(w, a, state) then w'.handed == w.handed + Queue(w.b, state) && Queue(w'.b, state) == []
               else IsPrefix(Queue(w.b, state), Queue(w'.b, state))
  {
    if a.Invoking? && a.tool in w.b.tools && w.b.tools[a.tool].runner in w.b.runners {
      var to := w.b.runners[w.b.tools[a.tool].runner].state;
      QueuesAfter(w.b.(pending := w.b.pending[a.id := WAITING]), to, Queue(w.b, to) + [a.id], state);
    }
    if a.Draining? && a.poll in w.b.polls {
      QueuesAfter(w.b.(polls := w.b.polls - {a.poll}), w.b.polls[a.poll], [], state);
    }
  }

  /** Step n accepts invocation x for the runner whose state is the given one. */
  ghost predicate Takes(ws: seq<World>, actions: seq<Action>, n: nat, runner: RunnerId, state: nat, x: InvocationId) {
    && n < |actions| && n < |ws| && actions[n].Invoking? && actions[n].id == x
    && actions[n].tool in ws[n].b.tools && ws[n].b.tools[actions[n].tool].runner == runner
    && runner in ws[n].b.runners && ws[n].b.runners[runner].state == state
  }

  /** Accepting an invocation puts it last in the queue of the runner the tool is registered for. */
  lemma TakenLast(ws: seq<World>, actions: seq<Action>, n: nat, runner: RunnerId, state: nat, x: InvocationId)
    requires IsRun(ws, actions) && Takes(ws, actions, n, runner, state, x)
    ensures state < |ws[n].b.work| && Queue(ws[n + 1].b, state) == Queue(ws[n].b, state) + [x]
    ensures x in ws[n + 1].b.pending && ws[n + 1].b.pending[x] == WAITING && x in ws[n + 1].home
    ensures x !in ws[n].handed && ws[n + 1].handed == ws[n].handed
  {
    RunKeeps(ws, actions, n, x);
    QueuesAfter(ws[n].b.(pending := ws[n].b.pending[x := WAITING]), state, Queue(ws[n].b, state) + [x], state);
    OccursIn(ws[n].handed, x);
  }

  lemma {:induction false} QueuedUntilDrained(ws: seq<World>, actions: seq<Action>, n: nat, m: nat, runner: RunnerId,
                                              state: nat, x: InvocationId)
    requires IsRun(ws, actions) && n < m < |ws| && Takes(ws, actions, n, runner, state, x)
    ensures state < |ws[m].b.work|
    ensures if Drained(ws, actions, n + 1, m, state) then x in ws[m].handed
            else x in Queue(ws[m].b, state) && x !in ws[m].handed
  {
    if m == n + 1 {
      TakenLast(ws, actions, n, runner, state, x);
      assert Queue(ws[m].b, state)[|Queue(ws[n].b, state)|] == x;
    } else {
      QueuedUntilDrained(ws, actions, n, m - 1, runner, state, x);
      RunKeeps(ws, actions, m - 1, x);
      QueueStep(ws[m - 1], actions[m - 1], state);
      DetachedHanded(ws[m - 1], actions[m - 1], x, state);
    }
  }

  /** An accepted invocation has been handed out exactly when a poll on the state it was queued in has drained since. */
  lemma HandedIff(ws: seq<World>, actions: seq<Action>, n: nat, m: nat, runner: RunnerId, state: nat, x: InvocationId)
    requires IsRun(ws, actions) && n < m < |ws| && Takes(ws, actions, n, runner, state, x)
    ensures x in ws[m].handed <==> exists k :: n < k < m && Drains(ws[k], actions[k], state)
  {
    QueuedUntilDrained(ws, actions, n, m, runner, state, x);
    DrainedAt(ws, actions, n + 1, m, state);
  }

  ghost predicate Before(s: seq<InvocationId>, x: InvocationId, y: InvocationId) {
    exists i: nat, j: nat :: i < j < |s| && s[i] == x && s[j] == y
  }

  ghost predicate InOrder(w: World, state: nat, x: InvocationId, y: InvocationId) {
    || Before(Queue(w.b, state), x, y)
    || (x in w.handed && y in Queue(w.b, state))
    || Before(w.handed, x, y)
  }

  lemma BeforeConcat(a: seq<InvocationId>, b: seq<InvocationId>, x: InvocationId, y: InvocationId)
    ensures Before(a, x, y) || Before(b, x, y) || (x in a && y in b) ==> Before(a + b, x, y)
  {
    var s := a + b;
    if x in a && y in b {
      var i: nat, j: nat :| i < |a| && j < |b| && a[i] == x && b[j] == y;
      assert s[i] == x && s[|a| + j] == y;
    }
    if Before(a, x, y) {
      var i: nat, j: nat :| i < j < |a| && a[i] == x && a[j] == y;
      assert s[i] == x && s[j] == y;
    }
    if Before(b, x, y) {
      var i: nat, j: nat :| i < j < |b| && b[i] == x && b[j] == y;
      assert s[|a| + i] == x && s[|a| + j] == y;
    }
  }

  lemma BeforeGrows(a: seq<InvocationId>, b: seq<InvocationId>, x: InvocationId, y: InvocationId)
    requires IsPrefix(a, b)
    ensures Before(a, x, y) ==> Before(b, x, y)
    ensures x in a ==> x in b
  {
    assert b == a + b[|a|..];
    BeforeConcat(a, b[|a|..], x, y);
  }

  lemma OrderStep(w: World, a: Action, state: nat, x: InvocationId, y: InvocationId)
    requires States(w) && state < |w.b.work| && InOrder(w, state, x, y)
    ensures InOrder(Step(w, a), state, x, y)
  {
    var w' := Step(w, a);
    QueueStep(w, a, state);
    BeforeGrows(w.handed, w'.handed, x, y);
    if Drains(w, a, state) {
      BeforeConcat(w.handed, Queue(w.b, state), x, y);
    } else {
      BeforeGrows(Queue(w.b, state), Queue(w'.b, state), x, y);
      BeforeGrows(Queue(w.b, state), Queue(w'.b, state), y, x);
    }
  }

  lemma {:induction false} OrderKept(ws: seq<World>, actions: seq<Action>, n: nat, later: nat, m: nat, runner: RunnerId,
                                     state: nat, x: InvocationId, y: InvocationId)
    requires IsRun(ws, actions) && n < later < m < |ws|
    requires Takes(ws, actions, n, runner, state, x) && Takes(ws, actions, later, runner, state, y)
    ensures InOrder(ws[m], state, x, y)
  {
    if m == later + 1 {
      QueuedUntilDrained(ws, actions, n, later, runner, state, x);
      TakenLast(ws, actions, later, runner, state, y);
      assert [y][0] == y;
      BeforeConcat(Queue(ws[later].b, state), [y], x, y);
      assert Queue(ws[m].b, state)[|Queue(ws[later].b, state)|] == y;
    } else {
      OrderKept(ws, actions, n, later, m - 1, runner, state, x, y);
      RunKeeps(ws, actions, m - 1, x);
      QueuedUntilDrained(ws, actions, n, m - 1, runner, state, x);
      OrderStep(ws[m - 1], actions[m - 1], state, x, y);
    }
  }

  /** What is accepted first for one runner state is handed out first. */
  lemma HandedInOrder(ws: seq<World>, actions: seq<Action>, n: nat, later: nat, m: nat, runner: RunnerId, state: nat,
                      x: InvocationId, y: InvocationId)
    requires IsRun(ws, actions) && n < later < m < |ws| && y in ws[m].handed
    requires Takes(ws, actions, n, runner, state, x) && Takes(ws, actions, later, runner, state, y)
    ensures Before(ws[m].handed, x, y)
  {
    OrderKept(ws, actions, n, later, m, runner, state, x, y);
    QueuedUntilDrained(ws, actions, later, m, runner, state, y);
    RunKeeps(ws, actions, m, y);
    if y in Queue(ws[m].b, state) { QueuedIsNotHanded(ws[m], y, state); }
    if Before(Queue(ws[m].b, state), x, y) { assert y in Queue(ws[m].b, state); }
  }

  // ------------------------------------------------------------ polls

  /** Between steps i and k the poll neither drains nor is abandoned. */
  ghost predicate InFlight(actions: seq<Action>, i: nat, k: nat, poll: PollId) {
    forall j | i < j < k && j < |actions| :: actions[j] != Draining(poll) && actions[j] != Abandoning(poll)
  }

  lemma {:induction false} PollKeepsItsState(ws: seq<World>, actions: seq<Action>, i: nat, k: nat, poll: PollId,
                                             runner: RunnerId)
    requires IsRun(ws, actions) && i < k < |ws| && actions[i] == Polling(poll, runner) && runner in ws[i].b.runners
    requires InFlight(actions, i, k, poll)
    ensures poll in ws[k].b.polls && ws[k].b.polls[poll] == ws[i].b.runners[runner].state
  {
    if k > i + 1 { PollKeepsItsState(ws, actions, i, k - 1, poll, runner); }
    assert Possible(ws[k - 1], actions[k - 1]) && ws[k] == Step(ws[k - 1], actions[k - 1]);
  }

  /** Between steps n and i the runner neither registers nor leaves. */
  ghost predicate Stays(actions: seq<Action>, n: nat, i: nat, runner: RunnerId) {
    forall j | n <= j < i && j < |actions| ::
      !((actions[j].Registering? || actions[j].Unregistering?) && actions[j].runner == runner)
  }

  lemma {:induction false} StateStays(ws: seq<World>, actions: seq<Action>, n: nat, i: nat, runner: RunnerId)
    requires IsRun(ws, actions) && n <= i < |ws| && runner in ws[n].b.runners && Stays(actions, n, i, runner)
    ensures runner in ws[i].b.runners && ws[i].b.runners[runner].state == ws[n].b.runners[runner].state
  {
    if n < i {
      StateStays(ws, actions, n, i - 1, runner);
      assert ws[i] == Step(ws[i - 1], actions[i - 1]);
    }
  }

  /**
   * Work is delivered: what is accepted for a runner, before its poll ends, has been handed out when that poll ends,
   * whether it was accepted before the poll began or while it waited.
   */
  lemma PollDelivers(ws: seq<World>, actions: seq<Action>, n: nat, i: nat, k: nat, runner: RunnerId, state: nat,
                     poll: PollId, x: InvocationId)
    requires IsRun(ws, actions) && n < k && i < k < |actions| && Takes(ws, actions, n, runner, state, x)
    requires actions[i] == Polling(poll, runner) && runner in ws[i].b.runners
    requires Stays(actions, if n < i then n else i, if n < i then i else n, runner)
    requires InFlight(actions, i, k, poll) && actions[k] == Draining(poll)
    ensures x in ws[k + 1].handed
  {
    if n <= i { StateStays(ws, actions, n, i, runner); } else { StateStays(ws, actions, i, n, runner); }
    PollKeepsItsState(ws, actions, i, k, poll, runner);
    assert Drains(ws[k], actions[k], state);
    HandedIff(ws, actions, n, k + 1, runner, state, x);
  }

  // ------------------------------------------------------------ futures

  ghost predicate Finishes(actions: seq<Action>, n: nat, m: nat, x: InvocationId) {
    exists k :: n < k < m && k < |actions| && actions[k] == Finishing(x)
  }

  /** What settles a waiting invocation: a result for it, or the departure of the runner it is queued for. */
  ghost predicate Settles(w: World, a: Action, x: InvocationId) {
    (a.Posting? && a.id == x) || (a.Unregistering? && Departs(w.b, a.runner, x))
  }

  lemma PendingStep(w: World, a: Action, x: InvocationId)
    requires States(w) && Possible(w, a) && x in w.home
    ensures x in Step(w, a).home
    ensures x in Step(w, a).b.pending <==> x in w.b.pending && a != Finishing(x)
    ensures x in w.b.pending && a != Finishing(x) ==>
              Step(w, a).b.pending[x] ==
              if w.b.pending[x] != WAITING || !Settles(w, a, x) then w.b.pending[x]
              else if a.Posting? then RESULT(a.data) else DISCONNECTED
  {
    if a.Unregistering? { UnregisterWrites(w.b, a.runner, "", x); }
  }

  /** An accepted invocation is pending until its caller's wait ends. */
  lemma {:induction false} PendingIff(ws: seq<World>, actions: seq<Action>, n: nat, m: nat, runner: RunnerId,
                                      state: nat, x: InvocationId)
    requires IsRun(ws, actions) && n < m < |ws| && Takes(ws, actions, n, runner, state, x)
    ensures x in ws[m].home
    ensures x in ws[m].b.pending <==> !Finishes(actions, n, m, x)
  {
    if m == n + 1 {
      TakenLast(ws, actions, n, runner, state, x);
    } else {
      PendingIff(ws, actions, n, m - 1, runner, state, x);
      RunKeeps(ws, actions, m - 1, x);
      PendingStep(ws[m - 1], actions[m - 1], x);
      if actions[m - 1] == Finishing(x) { assert Finishes(actions, n, m, x); }
    }
  }

  ghost predicate SettledWithin(ws: seq<World>, actions: seq<Action>, n: nat, m: nat, x: InvocationId) {
    exists k :: n < k < m && k < |actions| && k < |ws| && Settles(ws[k], actions[k], x)
  }

  lemma SettledNext(ws: seq<World>, actions: seq<Action>, n: nat, m: nat, x: InvocationId)
    requires n < m < |actions| && m < |ws|
    ensures SettledWithin(ws, actions, n, m + 1, x) <==>
            SettledWithin(ws, actions, n, m, x) || Settles(ws[m], actions[m], x)
    ensures Finishes(actions, n, m + 1, x) <==> Finishes(actions, n, m, x) || actions[m] == Finishing(x)
  {
    if Settles(ws[m], actions[m], x) { assert SettledWithin(ws, actions, n, m + 1, x); }
  }

  /** The caller waits on until a result arrives or the runner leaves with the invocation still queued for it. */
  lemma {:induction false} WaitsUntilSettled(ws: seq<World>, actions: seq<Action>, n: nat, m: nat, runner: RunnerId,
                                             state: nat, x: InvocationId)
    requires IsRun(ws, actions) && n < m < |ws| && Takes(ws, actions, n, runner, state, x)
    requires !Finishes(actions, n, m, x)
    ensures x in ws[m].home && x in ws[m].b.pending
    ensures ws[m].b.pending[x] == WAITING <==> !SettledWithin(ws, actions, n, m, x)
  {
    if m == n + 1 {
      TakenLast(ws, actions, n, runner, state, x);
    } else {
      SettledNext(ws, actions, n, m - 1, x);
      WaitsUntilSettled(ws, actions, n, m - 1, runner, state, x);
      RunKeeps(ws, actions, m - 1, x);
      PendingStep(ws[m - 1], actions[m - 1], x);
    }
  }

  /**
   * The caller gets what settled its invocation first, and nothing else: the result posted, or the disconnection if the
   * runner left with the invocation still queued for it.
   */
  lemma {:induction false} FirstSettlementCounts(ws: seq<World>, actions: seq<Action>, n: nat, k: nat, m: nat,
                                                 runner: RunnerId, state: nat, x: InvocationId)
    requires IsRun(ws, actions) && n < k < m < |ws| && Takes(ws, actions, n, runner, state, x)
    requires !Finishes(actions, n, m, x) && !SettledWithin(ws, actions, n, k, x) && Settles(ws[k], actions[k], x)
    ensures x in ws[m].home && x in ws[m].b.pending
    ensures ws[m].b.pending[x] == if actions[k].Posting? then RESULT(actions[k].data) else DISCONNECTED
  {
    SettledNext(ws, actions, n, m - 1, x);
    if m == k + 1 {
      WaitsUntilSettled(ws, actions, n, k, runner, state, x);
    } else {
      FirstSettlementCounts(ws, actions, n, k, m - 1, runner, state, x);
    }
    RunKeeps(ws, actions, m - 1, x);
    PendingStep(ws[m - 1], actions[m - 1], x);
  }
}
