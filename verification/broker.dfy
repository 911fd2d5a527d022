/** The plugin broker's registry, work queues and service quota: plugins/broker.py. */
module Broker {
  import opened SlidingWindow
  import opened Text

  type RunnerId = string
  type PluginId = string
  type ToolId = string
  type InvocationId = nat

  /** requirements pairs the services a plugin needs with the versions it asks for. */
  datatype Manifest = Manifest(id: PluginId, requested: set<string>, requirements: seq<(string, string)>,
                               tools: seq<ToolId>)

  datatype Service = Service(version: int, capability: string)

  datatype Tool = Tool(plugin: PluginId, runner: RunnerId)

  /** A connected runner and the number of its runner state, the object that holds its work queue. */
  datatype Runner = Runner(state: nat, protocol: int, plugins: map<PluginId, Manifest>)

  /** The future of an invocation: still waited on, resolved with a result, or failed because its runner left. */
  datatype Future = WAITING | RESULT(data: string) | DISCONNECTED

  type PollId = nat

  /**
   * work holds the queue of every runner state made so far, also of those since replaced or removed, because a poll
   * that has begun keeps the state it began with: polls are the polls that have begun and not yet drained.
   */
  datatype Registry = Registry(runners: map<RunnerId, Runner>, work: seq<seq<InvocationId>>, tools: map<ToolId, Tool>,
                               pending: map<InvocationId, Future>, polls: map<PollId, nat>)

  // ------------------------------------------------------------ the operations

  function PluginMap(ms: seq<Manifest>, n: nat): map<PluginId, Manifest>
    requires n <= |ms|
  {
    if n == 0 then map[] else PluginMap(ms, n - 1)[ms[n - 1].id := ms[n - 1]]
  }

  function AdoptTools(tools: map<ToolId, Tool>, specs: seq<ToolId>, tool: Tool, n: nat): map<ToolId, Tool>
    requires n <= |specs|
  {
    if n == 0 then tools else AdoptTools(tools, specs, tool, n - 1)[specs[n - 1] := tool]
  }

  function Adopt(tools: map<ToolId, Tool>, runner: RunnerId, ms: seq<Manifest>, n: nat): map<ToolId, Tool>
    requires n <= |ms|
  {
    if n == 0 then tools else
      AdoptTools(Adopt(tools, runner, ms, n - 1), ms[n - 1].tools, Tool(ms[n - 1].id, runner), |ms[n - 1].tools|)
  }

  function Without(tools: map<ToolId, Tool>, runner: RunnerId): map<ToolId, Tool> {
    map t | t in tools && tools[t].runner != runner :: tools[t]
  }

  /**
   * register, once every manifest has passed: the runner gets a new state with an empty queue, whatever it had before.
   */
  function Register(b: Registry, runner: RunnerId, protocol: int, ms: seq<Manifest>): Registry {
    var kept := if runner in b.runners then Without(b.tools, runner) else b.tools;
    b.(runners := b.runners[runner := Runner(|b.work|, protocol, PluginMap(ms, |ms|))], work := b.work + [[]],
       tools := Adopt(kept, runner, ms, |ms|))
  }

  function Queue(b: Registry, state: nat): seq<InvocationId> {
    if state < |b.work| then b.work[state] else []
  }

  function WithQueue(b: Registry, state: nat, queue: seq<InvocationId>): Registry {
    if state < |b.work| then b.(work := b.work[state := queue]) else b
  }

  /** Every invocation that is still queued for the runner, and still waited on, fails. */
  function Unregister(b: Registry, runner: RunnerId): Registry {
    if runner !in b.runners then b else
      var queue := Queue(b, b.runners[runner].state);
      b.(runners := b.runners - {runner}, tools := Without(b.tools, runner),
         pending := map i | i in b.pending ::
           if i in queue && b.pending[i] == WAITING then DISCONNECTED else b.pending[i])
  }

  datatype Refusal = NO_SUCH_TOOL | NOT_CONNECTED

  /** The start of invoke, up to the wait for the future. */
  function Invoke(b: Registry, tool: ToolId, id: InvocationId): (Registry, Option<Refusal>) {
    if tool !in b.tools then (b, Some(NO_SUCH_TOOL))
    else
      var r := b.tools[tool].runner;
      if r !in b.runners then (b, Some(NOT_CONNECTED))
      else
        var state := b.runners[r].state;
        (WithQueue(b.(pending := b.pending[id := WAITING]), state, Queue(b, state) + [id]), None)
  }

  /** The start of work, up to its first wait: the poll takes hold of the runner's state. */
  function BeginPoll(b: Registry, poll: PollId, runner: RunnerId): (Registry, bool) {
    if runner !in b.runners then (b, false) else (b.(polls := b.polls[poll := b.runners[runner].state]), true)
  }

  /** The end of work: everything queued in the state the poll began with is handed out, in order. */
  function Drain(b: Registry, poll: PollId): (Registry, seq<InvocationId>) {
    if poll !in b.polls then (b, [])
    else
      var state := b.polls[poll];
      (WithQueue(b.(polls := b.polls - {poll}), state, []), Queue(b, state))
  }

  /** A poll that is cancelled, or fails, while it waits. */
  function Abandon(b: Registry, poll: PollId): Registry {
    b.(polls := b.polls - {poll})
  }

  function PostResult(b: Registry, id: InvocationId, data: string): (Registry, bool) {
    if id in b.pending && b.pending[id] == WAITING then (b.(pending := b.pending[id := RESULT(data)]), true)
      else (b, false)
  }

  /**
   * The end of invoke, by result, failure or timeout: the invocation is no longer pending, though it may still be
   * queued.
   */
  function Finish(b: Registry, id: InvocationId): Registry {
    b.(pending := b.pending - {id})
  }

  // ------------------------------------------------------------ tools and runners

  /** Every registered tool names a connected runner that holds its plugin. */
  ghost predicate Connected(b: Registry) {
    forall t | t in b.tools ::
      b.tools[t].runner in b.runners && b.tools[t].plugin in b.runners[b.tools[t].runner].plugins
  }

  lemma {:induction false} AdoptedTools(tools: map<ToolId, Tool>, specs: seq<ToolId>, tool: Tool, n: nat)
    requires n <= |specs|
    ensures var r := AdoptTools(tools, specs, tool, n);
            forall t | t in r :: r[t] == tool || (t in tools && r[t] == tools[t])
  {
    if n > 0 { AdoptedTools(tools, specs, tool, n - 1); }
  }

  lemma {:induction false} Adopted(tools: map<ToolId, Tool>, runner: RunnerId, ms: seq<Manifest>, n: nat)
    requires n <= |ms|
    ensures var r := Adopt(tools, runner, ms, n);
            forall t | t in r ::
              (r[t].runner == runner && r[t].plugin in PluginMap(ms, n)) || (t in tools && r[t] == tools[t])
  {
    if n > 0 {
      Adopted(tools, runner, ms, n - 1);
      AdoptedTools(Adopt(tools, runner, ms, n - 1), ms[n - 1].tools, Tool(ms[n - 1].id, runner), |ms[n - 1].tools|);
    }
  }

  lemma RegisterConnects(b: Registry, runner: RunnerId, protocol: int, ms: seq<Manifest>)
    requires Connected(b)
    ensures Connected(Register(b, runner, protocol, ms))
  {
    Adopted(if runner in b.runners then Without(b.tools, runner) else b.tools, runner, ms, |ms|);
  }

  // ------------------------------------------------------------ every sequence of calls

  datatype Action =
    | Registering(runner: RunnerId, protocol: int, ms: seq<Manifest>)
    | Unregistering(runner: RunnerId)
    | Invoking(tool: ToolId, id: InvocationId)
    | Polling(poll: PollId, runner: RunnerId)
    | Draining(poll: PollId)
    | Abandoning(poll: PollId)
    | Posting(id: InvocationId, data: string)
    | Finishing(id: InvocationId)

  /**
   * The broker with what has happened so far: whose each runner state is, which queue each id went to, ids handed out,
   * ids resolved.
   */
  datatype World = World(b: Registry, owner: seq<RunnerId>, home: map<InvocationId, nat>, handed: seq<InvocationId>,
                         resolved: seq<InvocationId>)

  const START := World(Registry(map[], [], map[], map[], map[]), [], map[], [], [])

  /** Invocation ids are never used twice, and a poll in flight is not begun again. */
  predicate Possible(w: World, a: Action) {
    (a.Invoking? ==> a.id !in w.home) && (a.Polling? ==> a.poll !in w.b.polls)
  }

  /** The ids that a step resolves: the queued ones a departing runner fails, or the one a result is posted for. */
  function Failing(b: Registry, work: seq<InvocationId>, n: nat): seq<InvocationId>
    requires n <= |work|
  {
    if n == 0 then [] else
      var r := Failing(b, work, n - 1);
      if work[n - 1] in b.pending && b.pending[work[n - 1]] == WAITING then r + [work[n - 1]] else r
  }

  function Step(w: World, a: Action): World {
    match a
    case Registering(runner, protocol, ms) => w.(b := Register(w.b, runner, protocol, ms), owner := w.owner + [runner])
    case Unregistering(runner) =>
      var queue := if runner in w.b.runners then Queue(w.b, w.b.runners[runner].state) else [];
      w.(b := Unregister(w.b, runner), resolved := w.resolved + Failing(w.b, queue, |queue|))
    case Invoking(tool, id) =>
      var (b, refused) := Invoke(w.b, tool, id);
      w.(b := b, home := if refused.None? then w.home[id := w.b.runners[w.b.tools[tool].runner].state] else w.home)
    case Polling(poll, runner) => w.(b := BeginPoll(w.b, poll, runner).0)
    case Draining(poll) =>
      var (b, out) := Drain(w.b, poll);
      w.(b := b, handed := w.handed + out)
    case Abandoning(poll) => w.(b := Abandon(w.b, poll))
    case Posting(id, data) =>
      var (b, ok) := PostResult(w.b, id, data);
      w.(b := b, resolved := if ok then w.resolved + [id] else w.resolved)
    case Finishing(id) => w.(b := Finish(w.b, id))
  }

  ghost predicate IsRun(ws: seq<World>, actions: seq<Action>) {
    && |ws| == |actions| + 1 && ws[0] == START
    && forall i | 0 <= i < |actions| :: Possible(ws[i], actions[i]) && ws[i + 1] == Step(ws[i], actions[i])
  }

  /** How often x occurs among the first n of s. */
  function Times(s: seq<InvocationId>, x: InvocationId, n: nat): nat
    requires n <= |s|
  {
    if n == 0 then 0 else Times(s, x, n - 1) + if s[n - 1] == x then 1 else 0
  }

  function Occurs(s: seq<InvocationId>, x: InvocationId): nat {
    Times(s, x, |s|)
  }

  lemma {:induction false} TimesPrefix(a: seq<InvocationId>, b: seq<InvocationId>, x: InvocationId, n: nat)
    requires n <= |a|
    ensures Times(a + b, x, n) == Times(a, x, n)
  {
    if n > 0 { TimesPrefix(a, b, x, n - 1); }
  }

  lemma {:induction false} TimesConcat(a: seq<InvocationId>, b: seq<InvocationId>, x: InvocationId, m: nat)
    requires m <= |b|
    ensures Times(a + b, x, |a| + m) == Occurs(a, x) + Times(b, x, m)
  {
    if m == 0 { TimesPrefix(a, b, x, |a|); } else { TimesConcat(a, b, x, m - 1); }
  }

  lemma {:induction false} TimesIn(s: seq<InvocationId>, x: InvocationId, n: nat)
    requires n <= |s|
    ensures Times(s, x, n) > 0 <==> x in s[..n]
  {
    if n > 0 {
      TimesIn(s, x, n - 1);
      assert s[..n] == s[..n - 1] + [s[n - 1]];
    }
  }

  lemma OccursIn(s: seq<InvocationId>, x: InvocationId)
    ensures Occurs(s, x) > 0 <==> x in s
  {
    TimesIn(s, x, |s|);
    assert s[..|s|] == s;
  }

  lemma {:induction false} FailingTimes(b: Registry, work: seq<InvocationId>, x: InvocationId, n: nat)
    requires n <= |work|
    ensures Occurs(Failing(b, work, n), x) == if x in b.pending && b.pending[x] == WAITING then Times(work, x, n) else 0
  {
    if n > 0 {
      FailingTimes(b, work, x, n - 1);
      TimesPrefix(Failing(b, work, n - 1), [work[n - 1]], x, |Failing(b, work, n - 1)|);
    }
  }

  /** How often invocation x is queued. */
  ghost function Queued(w: World, x: InvocationId): nat {
    if x in w.home then Occurs(Queue(w.b, w.home[x]), x) else 0
  }

  /** Every runner and every poll in flight has a state, and a runner's state is its own. */
  ghost predicate States(w: World) {
    && |w.owner| == |w.b.work|
    && (forall r | r in w.b.runners :: w.b.runners[r].state < |w.owner| && w.owner[w.b.runners[r].state] == r)
    && (forall p | p in w.b.polls :: w.b.polls[p] < |w.b.work|)
  }

  /** One invocation: queued at most once and in its own queue only, and handed out or resolved at most once. */
  ghost predicate Fair(w: World, x: InvocationId) {
    && (forall s: nat {:trigger Queue(w.b, s)} | Occurs(Queue(w.b, s), x) > 0 :: x in w.home && w.home[x] == s)
    && Occurs(w.handed, x) + Queued(w, x) <= 1
    && Occurs(w.resolved, x) + (if x in w.b.pending && w.b.pending[x] == WAITING then 1 else 0) <= 1
    && (x in w.b.pending || Occurs(w.handed, x) > 0 || Occurs(w.resolved, x) > 0 ==> x in w.home)
  }

  lemma StatesKeep(w: World, a: Action)
    requires States(w)
    ensures States(Step(w, a))
  {
  }

  lemma FairAtRegister(w: World, runner: RunnerId, protocol: int, ms: seq<Manifest>, x: InvocationId)
    requires Fair(w, x)
    ensures Fair(Step(w, Registering(runner, protocol, ms)), x)
  {
    var b := Register(w.b, runner, protocol, ms);
    forall s: nat ensures Queue(b, s) == Queue(w.b, s) { assert s == |w.b.work| ==> Queue(b, s) == []; }
  }

  lemma FairAtUnregister(w: World, runner: RunnerId, x: InvocationId)
    requires Fair(w, x)
    ensures Fair(Step(w, Unregistering(runner)), x)
  {
    var queue := if runner in w.b.runners then Queue(w.b, w.b.runners[runner].state) else [];
    var b := Unregister(w.b, runner);
    forall s: nat ensures Queue(b, s) == Queue(w.b, s) {}
    FailingTimes(w.b, queue, x, |queue|);
    TimesConcat(w.resolved, Failing(w.b, queue, |queue|), x, |Failing(w.b, queue, |queue|)|);
    OccursIn(queue, x);
  }

  lemma QueuesAfter(b: Registry, state: nat, queue: seq<InvocationId>, s: nat)
    ensures Queue(WithQueue(b, state, queue), s) == if s == state < |b.work| then queue else Queue(b, s)
  {
  }

  lemma FairAtInvoke(w: World, tool: ToolId, id: InvocationId, x: InvocationId)
    requires States(w) && Fair(w, x) && id !in w.home
    ensures Fair(Step(w, Invoking(tool, id)), x)
  {
    if tool in w.b.tools && w.b.tools[tool].runner in w.b.runners {
      var state := w.b.runners[w.b.tools[tool].runner].state;
      var b := w.b.(pending := w.b.pending[id := WAITING]);
      var queue := Queue(w.b, state);
      TimesPrefix(queue, [id], x, |queue|);
      forall s: nat
        ensures Queue(WithQueue(b, state, queue + [id]), s) == if s == state then queue + [id] else Queue(w.b, s)
      {
        QueuesAfter(b, state, queue + [id], s);
      }
    }
  }

  lemma FairAtDrain(w: World, poll: PollId, x: InvocationId)
    requires States(w) && Fair(w, x)
    ensures Fair(Step(w, Draining(poll)), x)
  {
    if poll in w.b.polls {
      var state := w.b.polls[poll];
      var b := w.b.(polls := w.b.polls - {poll});
      TimesConcat(w.handed, Queue(w.b, state), x, |Queue(w.b, state)|);
      forall s: nat ensures Queue(WithQueue(b, state, []), s) == if s == state then [] else Queue(w.b, s) {
        QueuesAfter(b, state, [], s);
      }
    } else {
      assert w.handed + [] == w.handed;
    }
  }

  lemma FairAtPost(w: World, id: InvocationId, data: string, x: InvocationId)
    requires Fair(w, x)
    ensures Fair(Step(w, Posting(id, data)), x)
  {
    TimesPrefix(w.resolved, [id], x, |w.resolved|);
    forall s: nat ensures Queue(Step(w, Posting(id, data)).b, s) == Queue(w.b, s) {}
  }

  /** Steps that touch neither queues nor what has been handed out, and make no invocation pending. */
  lemma FairElsewhere(w: World, w': World, x: InvocationId)
    requires Fair(w, x) && w'.b.work == w.b.work && w'.home == w.home && w'.handed == w.handed
    requires w'.resolved == w.resolved
    requires x in w'.b.pending ==> x in w.b.pending && w'.b.pending[x] == w.b.pending[x]
    ensures Fair(w', x)
  {
    forall s: nat ensures Queue(w'.b, s) == Queue(w.b, s) {}
  }

  lemma StepKeeps(w: World, a: Action, x: InvocationId)
    requires Connected(w.b) && States(w) && Fair(w, x) && Possible(w, a)
    ensures Connected(Step(w, a).b) && States(Step(w, a)) && Fair(Step(w, a), x)
  {
    StatesKeep(w, a);
    match a
    case Registering(runner, protocol, ms) =>
      RegisterConnects(w.b, runner, protocol, ms);
      FairAtRegister(w, runner, protocol, ms, x);
    case Unregistering(runner) => FairAtUnregister(w, runner, x);
    case Invoking(tool, id) => FairAtInvoke(w, tool, id, x);
    case Draining(poll) => FairAtDrain(w, poll, x);
    case Posting(id, data) => FairAtPost(w, id, data, x);
    case Polling(poll, runner) => FairElsewhere(w, Step(w, a), x);
    case Abandoning(poll) => FairElsewhere(w, Step(w, a), x);
    case Finishing(id) => FairElsewhere(w, Step(w, a), x);
  }

  lemma {:induction false} RunKeeps(ws: seq<World>, actions: seq<Action>, n: nat, x: InvocationId)
    requires IsRun(ws, actions) && n < |ws|
    ensures Connected(ws[n].b) && States(ws[n]) && Fair(ws[n], x)
  {
    if n > 0 {
      RunKeeps(ws, actions, n - 1, x);
      StepKeeps(ws[n - 1], actions[n - 1], x);
    }
  }

  /** After any calls, every tool names a connected runner that holds its plugin: invoke never finds it missing. */
  lemma NeverNotConnected(ws: seq<World>, actions: seq<Action>, n: nat, tool: ToolId, id: InvocationId)
    requires IsRun(ws, actions) && n < |ws|
    ensures Connected(ws[n].b)
    ensures Invoke(ws[n].b, tool, id).1 != Some(NOT_CONNECTED)
    ensures Invoke(ws[n].b, tool, id).1.Some? <==> tool !in ws[n].b.tools
  {
    RunKeeps(ws, actions, n, id);
  }

  /** Over any calls, with any polls in flight, an invocation is handed out at most once and resolved at most once. */
  lemma HandedAndResolvedOnce(ws: seq<World>, actions: seq<Action>, n: nat, x: InvocationId)
    requires IsRun(ws, actions) && n < |ws|
    ensures Occurs(ws[n].handed, x) <= 1 && Occurs(ws[n].resolved, x) <= 1
  {
    RunKeeps(ws, actions, n, x);
  }

  /** A departing runner fails exactly the waiting invocations in its queue, none of which has been handed out yet. */
  lemma UnregisterFailsTheQueued(ws: seq<World>, actions: seq<Action>, n: nat, runner: RunnerId, x: InvocationId)
    requires IsRun(ws, actions) && n < |ws| && runner in ws[n].b.runners
    requires x in ws[n].b.pending && ws[n].b.pending[x] == WAITING
    ensures var queue := Queue(ws[n].b, ws[n].b.runners[runner].state);
            && (Unregister(ws[n].b, runner).pending[x] == DISCONNECTED <==> x in queue)
            && (x in queue ==> x !in ws[n].handed)
  {
    RunKeeps(ws, actions, n, x);
    OccursIn(Queue(ws[n].b, ws[n].b.runners[runner].state), x);
    OccursIn(ws[n].handed, x);
  }

  // ------------------------------------------------------------ replaced runner states

  /** The state is no connected runner's: it was replaced, or its runner has left. */
  ghost predicate Detached(w: World, state: nat) {
    forall r | r in w.b.runners :: w.b.runners[r].state != state
  }

  ghost predicate Drains(w: World, a: Action, state: nat) {
    a.Draining? && a.poll in w.b.polls && w.b.polls[a.poll] == state
  }

  /** A state that is detached stays so, its queue only drains, and no poll begins on it. */
  lemma DetachedStep(w: World, a: Action, state: nat)
    requires States(w) && Possible(w, a) && state < |w.b.work| && Detached(w, state)
    ensures Detached(Step(w, a), state) && state < |Step(w, a).b.work|
    ensures Queue(Step(w, a).b, state) == if Drains(w, a, state) then [] else Queue(w.b, state)
    ensures forall p | p in Step(w, a).b.polls && Step(w, a).b.polls[p] == state ::
            p in w.b.polls && w.b.polls[p] == state
  {
    if a.Invoking? && a.tool in w.b.tools && w.b.tools[a.tool].runner in w.b.runners {
      var to := w.b.runners[w.b.tools[a.tool].runner].state;
      QueuesAfter(w.b.(pending := w.b.pending[a.id := WAITING]), to, Queue(w.b, to) + [a.id], state);
    }
    if a.Draining? && a.poll in w.b.polls {
      QueuesAfter(w.b.(polls := w.b.polls - {a.poll}), w.b.polls[a.poll], [], state);
    }
  }

  lemma HandedStep(w: World, a: Action, x: InvocationId)
    requires States(w) && Fair(w, x)
    ensures x in Step(w, a).handed <==> x in w.handed || (Queued(w, x) > 0 && Drains(w, a, w.home[x]))
  {
    OccursIn(w.handed, x);
    if a.Draining? && a.poll in w.b.polls {
      var queue := Queue(w.b, w.b.polls[a.poll]);
      OccursIn(queue, x);
    }
  }

  /** Registering again, or leaving, detaches the state the runner had. */
  lemma Detaches(w: World, a: Action)
    requires States(w) && (a.Registering? || a.Unregistering?) && a.runner in w.b.runners
    ensures var state := w.b.runners[a.runner].state;
            Detached(Step(w, a), state) && Queue(Step(w, a).b, state) == Queue(w.b, state)
              && Step(w, a).b.polls == w.b.polls
  {
  }

  /** Some poll on the state drains in one of the steps n .. m-1. */
  ghost predicate Drained(ws: seq<World>, actions: seq<Action>, n: nat, m: nat, state: nat)
    requires n <= m <= |actions| <= |ws|
  {
    n < m && (Drained(ws, actions, n, m - 1, state) || Drains(ws[m - 1], actions[m - 1], state))
  }

  lemma {:induction false} DrainedAt(ws: seq<World>, actions: seq<Action>, n: nat, m: nat, state: nat)
    requires n <= m <= |actions| <= |ws|
    ensures Drained(ws, actions, n, m, state) <==> exists k :: n <= k < m && Drains(ws[k], actions[k], state)
  {
    if n < m { DrainedAt(ws, actions, n, m - 1, state); }
  }

  /**
   * While a detached state has not been drained its invocations stay in its queue; afterwards they have been handed
   * out.
   */
  lemma {:induction false} DetachedQueue(ws: seq<World>, actions: seq<Action>, n: nat, m: nat, x: InvocationId,
                                         state: nat)
    requires IsRun(ws, actions) && n <= m < |ws| && Detached(ws[n], state) && x in Queue(ws[n].b, state)
    ensures Detached(ws[m], state) && state < |ws[m].b.work|
    ensures if Drained(ws, actions, n, m, state) then x in ws[m].handed
            else x in Queue(ws[m].b, state) && x !in ws[m].handed
    ensures forall p | p in ws[m].b.polls && ws[m].b.polls[p] == state ::
            p in ws[n].b.polls && ws[n].b.polls[p] == state
  {
    if n == m {
      RunKeeps(ws, actions, n, x);
      QueuedIsNotHanded(ws[n], x, state);
    } else {
      DetachedQueue(ws, actions, n, m - 1, x, state);
      RunKeeps(ws, actions, m - 1, x);
      DetachedStep(ws[m - 1], actions[m - 1], state);
      DetachedHanded(ws[m - 1], actions[m - 1], x, state);
    }
  }

  lemma QueuedIsNotHanded(w: World, x: InvocationId, state: nat)
    requires Fair(w, x) && x in Queue(w.b, state)
    ensures x !in w.handed && x in w.home && w.home[x] == state && Queued(w, x) > 0
  {
    OccursIn(Queue(w.b, state), x);
    OccursIn(w.handed, x);
  }

  /** One step's effect on an invocation of a detached state, queued or handed out. */
  lemma DetachedHanded(w: World, a: Action, x: InvocationId, state: nat)
    requires States(w) && Fair(w, x)
    ensures x in w.handed ==> x in Step(w, a).handed
    ensures x in Queue(w.b, state) ==> (x in Step(w, a).handed <==> Drains(w, a, state))
  {
    HandedStep(w, a, x);
    if x in Queue(w.b, state) { QueuedIsNotHanded(w, x, state); }
  }

  /**
   * What is queued when a runner registers again, or leaves, is handed out later if and only if a poll that was in
   * flight on the replaced state drains; with no such poll it never is.
   */
  lemma ForgottenIff(ws: seq<World>, actions: seq<Action>, n: nat, m: nat, x: InvocationId)
    requires IsRun(ws, actions) && n < m < |ws| && (actions[n].Registering? || actions[n].Unregistering?)
    requires actions[n].runner in ws[n].b.runners && x in Queue(ws[n].b, ws[n].b.runners[actions[n].runner].state)
    ensures var state := ws[n].b.runners[actions[n].runner].state;
            && (x in ws[m].handed <==> exists k :: n < k < m && Drains(ws[k], actions[k], state))
            && (x in ws[m].handed ==> exists p :: p in ws[n].b.polls && ws[n].b.polls[p] == state)
  {
    var state := ws[n].b.runners[actions[n].runner].state;
    RunKeeps(ws, actions, n, x);
    Detaches(ws[n], actions[n]);
    DetachedQueue(ws, actions, n + 1, m, x, state);
    DrainedAt(ws, actions, n + 1, m, state);
    if k :| n < k < m && Drains(ws[k], actions[k], state) {
      DetachedQueue(ws, actions, n + 1, k, x, state);
      assert actions[k].poll in ws[n].b.polls;
    }
  }

  /** A poll in flight on a replaced state does hand out what was queued there. */
  lemma PollInFlightDelivers(w: World, runner: RunnerId, protocol: int, ms: seq<Manifest>, poll: PollId,
                             x: InvocationId)
    requires States(w) && runner in w.b.runners && x in Queue(w.b, w.b.runners[runner].state)
    requires poll in w.b.polls && w.b.polls[poll] == w.b.runners[runner].state
    ensures x in Step(Step(w, Registering(runner, protocol, ms)), Draining(poll)).handed
    ensures x in Step(Step(w, Unregistering(runner)), Draining(poll)).handed
  {
    Detaches(w, Registering(runner, protocol, ms));
    Detaches(w, Unregistering(runner));
  }

  /** An id in no live queue keeps its future unless a result for it arrives or its wait ends. */
  lemma FutureStep(w: World, a: Action, x: InvocationId, state: nat)
    requires States(w) && Fair(w, x) && Possible(w, a) && Detached(w, state)
    requires x in w.home && w.home[x] == state && x in w.b.pending && w.b.pending[x] == WAITING
    requires !(a.Posting? && a.id == x) && !(a.Finishing? && a.id == x)
    ensures x in Step(w, a).home && Step(w, a).home[x] == state
    ensures x in Step(w, a).b.pending && Step(w, a).b.pending[x] == WAITING
  {
    if a.Unregistering? && a.runner in w.b.runners {
      var live := w.b.runners[a.runner].state;
      if x in Queue(w.b, live) { QueuedIsNotHanded(w, x, live); }
    }
  }

  lemma {:induction false} FutureLasts(ws: seq<World>, actions: seq<Action>, n: nat, m: nat, x: InvocationId,
                                       state: nat)
    requires IsRun(ws, actions) && n <= m < |ws| && Detached(ws[n], state) && x in Queue(ws[n].b, state)
    requires x in ws[n].b.pending && ws[n].b.pending[x] == WAITING
    requires forall k | n <= k < m ::
             !(actions[k].Posting? && actions[k].id == x) && !(actions[k].Finishing? && actions[k].id == x)
    ensures x in ws[m].home && ws[m].home[x] == state && x in ws[m].b.pending && ws[m].b.pending[x] == WAITING
  {
    if n == m {
      RunKeeps(ws, actions, n, x);
      QueuedIsNotHanded(ws[n], x, state);
    } else {
      FutureLasts(ws, actions, n, m - 1, x, state);
      DetachedQueue(ws, actions, n, m - 1, x, state);
      RunKeeps(ws, actions, m - 1, x);
      FutureStep(ws[m - 1], actions[m - 1], x, state);
    }
  }

  /**
   * Over any run, the caller of an invocation that was queued when its runner registered again is told nothing: it goes
   * on waiting until its wait ends or a result for it arrives, even if the runner leaves.
   */
  lemma ForgottenWaits(ws: seq<World>, actions: seq<Action>, n: nat, m: nat, x: InvocationId)
    requires IsRun(ws, actions) && n < m < |ws| && actions[n].Registering? && actions[n].runner in ws[n].b.runners
    requires x in Queue(ws[n].b, ws[n].b.runners[actions[n].runner].state)
    requires x in ws[n].b.pending && ws[n].b.pending[x] == WAITING
    ensures || (x in ws[m].b.pending && ws[m].b.pending[x] == WAITING)
            || exists k :: n < k < m && (actions[k].Posting? || actions[k].Finishing?) && actions[k].id == x
  {
    var state := ws[n].b.runners[actions[n].runner].state;
    RunKeeps(ws, actions, n, x);
    Detaches(ws[n], actions[n]);
    if forall k | n < k < m ::
      !(actions[k].Posting? && actions[k].id == x) && !(actions[k].Finishing? && actions[k].id == x)
    {
      FutureLasts(ws, actions, n + 1, m, x, state);
    }
  }

  lemma RunOn(ws: seq<World>, actions: seq<Action>, a: Action) returns (ws': seq<World>, actions': seq<Action>)
    requires IsRun(ws, actions) && Possible(ws[|actions|], a)
    ensures IsRun(ws', actions') && ws' == ws + [Step(ws[|actions|], a)] && actions' == actions + [a]
  {
    ws', actions' := ws + [Step(ws[|actions|], a)], actions + [a];
    forall i | 0 <= i < |actions'| ensures Possible(ws'[i], actions'[i]) && ws'[i + 1] == Step(ws'[i], actions'[i]) {
      if i < |actions| { assert ws'[i] == ws[i] && ws'[i + 1] == ws[i + 1]; }
    }
  }

  /** One invocation waits in the queue of its only runner. */
  ghost predicate OneQueued(w: World, runner: RunnerId, x: InvocationId) {
    && w.b.runners.Keys == {runner} && w.b.runners[runner].state == 0 && w.b.work == [[x]] && w.b.polls == map[]
    && w.handed == [] && x in w.b.pending && w.b.pending[x] == WAITING
  }

  lemma ForgottenStart(runner: RunnerId, m: Manifest, protocol: int, x: InvocationId)
    returns (ws: seq<World>, actions: seq<Action>)
    requires m.tools != []
    ensures IsRun(ws, actions) && OneQueued(ws[|actions|], runner, x)
    ensures actions == [Registering(runner, protocol, [m]), Invoking(m.tools[|m.tools| - 1], x)]
  {
    var tool := m.tools[|m.tools| - 1];
    var registered := Step(START, Registering(runner, protocol, [m]));
    assert PluginMap([m], 1) == map[m.id := m];
    assert Adopt(map[], runner, [m], 1) == AdoptTools(map[], m.tools, Tool(m.id, runner), |m.tools|);
    assert tool in registered.b.tools && registered.b.tools[tool] == Tool(m.id, runner);
    var none: seq<InvocationId> := [];
    assert registered.b.work == [none] && none + [x] == [x] && [none][0 := [x]] == [[x]];
    ws, actions := RunOn([START], [], Registering(runner, protocol, [m]));
    ws, actions := RunOn(ws, actions, Invoking(tool, x));
  }

  /** Its runner registers again, and the next poll is handed nothing. */
  lemma ForgottenSteps(w: World, runner: RunnerId, m: Manifest, protocol: int, x: InvocationId, poll: PollId)
    requires OneQueued(w, runner, x)
    ensures var again := Step(w, Registering(runner, protocol, [m]));
            var polling := Step(again, Polling(poll, runner));
            var end := Step(polling, Draining(poll));
            && Possible(again, Polling(poll, runner)) && poll in polling.b.polls
            && end.handed == [] && x in end.b.pending && end.b.pending[x] == WAITING
            && forall r | r in end.b.runners :: x !in Queue(end.b, end.b.runners[r].state)
  {
    var again := Step(w, Registering(runner, protocol, [m]));
    var polling := Step(again, Polling(poll, runner));
    var end := Step(polling, Draining(poll));
    assert again.b.work == [[x], []] && polling.b.work == again.b.work && end.b.work == [[x], []];
    assert end.b.runners.Keys == {runner} && end.b.runners[runner].state == 1;
  }

  /** A run in which an invocation is forgotten: queued, its runner registers again, and the next poll gets nothing. */
  lemma ForgottenRun(runner: RunnerId, m: Manifest, protocol: int, x: InvocationId, poll: PollId)
    returns (ws: seq<World>, actions: seq<Action>)
    requires m.tools != []
    ensures IsRun(ws, actions) && |actions| == 5 && actions[1].Invoking? && actions[1].id == x
    ensures actions[2].Registering?
    ensures actions[3] == Polling(poll, runner) && actions[4] == Draining(poll) && poll in ws[4].b.polls
    ensures ws[5].handed == [] && x in ws[5].b.pending && ws[5].b.pending[x] == WAITING
    ensures forall r | r in ws[5].b.runners :: x !in Queue(ws[5].b, ws[5].b.runners[r].state)
  {
    ws, actions := ForgottenStart(runner, m, protocol, x);
    ForgottenSteps(ws[2], runner, m, protocol, x, poll);
    ws, actions := RunOn(ws, actions, Registering(runner, protocol, [m]));
    ws, actions := RunOn(ws, actions, Polling(poll, runner));
    ws, actions := RunOn(ws, actions, Draining(poll));
  }

  // ------------------------------------------------------------ quota

  const MINUTE := 60.0

  /** _consume_service_quota on the queue of one plugin and service: the new queue and whether the call is accepted. */
  function Consume(calls: seq<real>, now: real, quota: nat): (seq<real>, bool) {
    var recent := Trimmed(calls, now, MINUTE, false);
    if |recent| >= quota then (recent, false) else (recent + [now], true)
  }

  /** The queue after the first n calls. */
  function CallQueue(times: seq<real>, quota: nat, n: nat): seq<real>
    requires n <= |times|
  {
    if n == 0 then [] else Consume(CallQueue(times, quota, n - 1), times[n - 1], quota).0
  }

  predicate Accepts(times: seq<real>, quota: nat, n: nat)
    requires n < |times|
  {
    Consume(CallQueue(times, quota, n), times[n], quota).1
  }

  /** The times of all calls accepted among the first n. */
  function Log(times: seq<real>, quota: nat, n: nat): seq<real>
    requires n <= |times|
  {
    if n == 0 then [] else
      var r := Log(times, quota, n - 1);
      if Accepts(times, quota, n - 1) then r + [times[n - 1]] else r
  }

  /** How many of the first n times lie in the half-open minute from t. */
  function InMinute(h: seq<real>, t: real, n: nat): nat
    requires n <= |h|
  {
    if n == 0 then 0 else InMinute(h, t, n - 1) + if t <= h[n - 1] < t + 60.0 then 1 else 0
  }

  ghost predicate NotBackwards(times: seq<real>) {
    forall i | 0 < i < |times| :: times[i - 1] <= times[i]
  }

  /** One call, on a queue that trims to the accepted calls of the minute before it. */
  lemma ConsumeStep(log: seq<real>, calls: seq<real>, now: real, quota: nat)
    requires Sorted(log) && AtMost(log, now) && Trimmed(calls, now, MINUTE, false) == InWindow(log, now, MINUTE, false)
    ensures var log' := if Consume(calls, now, quota).1 then log + [now] else log;
            Sorted(log') && AtMost(log', now) && Consume(calls, now, quota).0 == InWindow(log', now, MINUTE, false)
  {
    SortedSnoc(log, now);
    InWindowSnoc(log, now, now, MINUTE, false);
  }

  /** The queue always holds the accepted calls of the last minute. */
  lemma {:induction false} QueueIsLastMinute(times: seq<real>, quota: nat, n: nat)
    requires 0 < n <= |times| && NotBackwards(times)
    ensures var log := Log(times, quota, n);
            Sorted(log) && AtMost(log, times[n - 1])
              && CallQueue(times, quota, n) == InWindow(log, times[n - 1], MINUTE, false)
  {
    LogIsSorted(times, quota, n - 1);
    if n > 1 {
      QueueIsLastMinute(times, quota, n - 1);
      TrimmedCatchesUp(Log(times, quota, n - 1), times[n - 2], times[n - 1], MINUTE, false);
    }
    ConsumeStep(Log(times, quota, n - 1), CallQueue(times, quota, n - 1), times[n - 1], quota);
  }

  lemma {:induction false} LogIsSorted(times: seq<real>, quota: nat, n: nat)
    requires n < |times| && NotBackwards(times)
    ensures Sorted(Log(times, quota, n)) && AtMost(Log(times, quota, n), times[n])
  {
    if n > 0 {
      LogIsSorted(times, quota, n - 1);
      SortedSnoc(Log(times, quota, n - 1), times[n - 1]);
    }
  }

  /** How many of the first n times lie less than 60 seconds before now. */
  function LastMinute(h: seq<real>, now: real, n: nat): nat
    requires n <= |h|
  {
    if n == 0 then 0 else LastMinute(h, now, n - 1) + if now - h[n - 1] < 60.0 then 1 else 0
  }

  lemma {:induction false} LastMinuteIs(h: seq<real>, now: real, n: nat)
    requires n <= |h|
    ensures |InWindowOf(h, now, MINUTE, false, n)| == LastMinute(h, now, n)
  {
    if n > 0 { LastMinuteIs(h, now, n - 1); }
  }

  /** A call is accepted if and only if fewer than quota calls were accepted in the minute before it. */
  lemma AcceptedIff(times: seq<real>, quota: nat, n: nat)
    requires n < |times| && NotBackwards(times)
    ensures Accepts(times, quota, n) <==>
            LastMinute(Log(times, quota, n), times[n], |Log(times, quota, n)|) < quota
  {
    LogIsSorted(times, quota, n);
    LastMinuteIs(Log(times, quota, n), times[n], |Log(times, quota, n)|);
    if n > 0 {
      QueueIsLastMinute(times, quota, n);
      TrimmedCatchesUp(Log(times, quota, n), times[n - 1], times[n], MINUTE, false);
    }
  }

  lemma {:induction false} MinuteWithinWindow(h: seq<real>, t: real, now: real, n: nat)
    requires n <= |h| && now - 60.0 < t
    ensures InMinute(h, t, n) <= LastMinute(h, now, n)
  {
    if n > 0 { MinuteWithinWindow(h, t, now, n - 1); }
  }

  lemma {:induction false} InMinutePrefix(h: seq<real>, x: real, t: real, n: nat)
    requires n <= |h|
    ensures InMinute(h + [x], t, n) == InMinute(h, t, n)
  {
    if n > 0 { InMinutePrefix(h, x, t, n - 1); }
  }

  /** With a clock that never goes back, no minute, wherever it starts, holds more than quota accepted calls. */
  lemma {:induction false} QuotaHolds(times: seq<real>, quota: nat, n: nat, t: real)
    requires n <= |times| && NotBackwards(times)
    ensures InMinute(Log(times, quota, n), t, |Log(times, quota, n)|) <= quota
  {
    if n > 0 {
      var log, now := Log(times, quota, n - 1), times[n - 1];
      QuotaHolds(times, quota, n - 1, t);
      AcceptedIff(times, quota, n - 1);
      InMinutePrefix(log, now, t, |log|);
      if now - 60.0 < t { MinuteWithinWindow(log, t, now, |log|); }
    }
  }

  // ------------------------------------------------------------ manifests

  datatype Verdict = Accepted(plugins: seq<PluginId>) | Rejected(status: int)

  /**
   * The status a manifest is refused with: malformed, asking for ungranted capabilities, or needing a service it cannot
   * have.
   */
  function Fault(raw: Option<Manifest>, grants: map<PluginId, set<string>>, services: map<string, Service>,
                 supports: (string, int) -> bool): Option<int>
  {
    if raw.None? then Some(422)
    else
      var m := raw.value;
      if !(m.requested <= Granted(grants, m.id)) then Some(403)
      else if exists k | 0 <= k < |m.requirements| ::
        !Negotiates(m, m.requirements[k], services, supports) then Some(409)
      else None
  }

  function Granted(grants: map<PluginId, set<string>>, id: PluginId): set<string> {
    if id in grants then grants[id] else {}
  }

  predicate Negotiates(m: Manifest, requirement: (string, string), services: map<string, Service>,
                       supports: (string, int) -> bool)
  {
    && requirement.0 in services && supports(requirement.1, services[requirement.0].version)
    && services[requirement.0].capability in m.requested
  }

  /** A manifest that is well formed, asks for granted capabilities only, and can have every service it needs. */
  ghost predicate Admissible(raw: Option<Manifest>, grants: map<PluginId, set<string>>, services: map<string, Service>,
                             supports: (string, int) -> bool)
  {
    raw.Some? && AllGranted(raw.value, grants) && AllProvided(raw.value, services, supports)
  }

  ghost predicate AllGranted(m: Manifest, grants: map<PluginId, set<string>>) {
    forall c | c in m.requested :: m.id in grants && c in grants[m.id]
  }

  ghost predicate AllProvided(m: Manifest, services: map<string, Service>, supports: (string, int) -> bool) {
    forall k | 0 <= k < |m.requirements| :: Provided(m, m.requirements[k].0, m.requirements[k].1, services, supports)
  }

  /** The service exists, in a version that the one asked for admits, and its capability is requested. */
  ghost predicate Provided(m: Manifest, name: string, version: string, services: map<string, Service>,
                           supports: (string, int) -> bool)
  {
    name in services && supports(version, services[name].version) && services[name].capability in m.requested
  }

  /** Malformed is 422, an ungranted capability 403, and a service that cannot be had 409, in this order. */
  ghost predicate RefusedWith(raw: Option<Manifest>, grants: map<PluginId, set<string>>, services: map<string, Service>,
                              supports: (string, int) -> bool, status: int)
  {
    if raw.None? then status == 422
    else if !AllGranted(raw.value, grants) then status == 403
    else !AllProvided(raw.value, services, supports) && status == 409
  }

  lemma FaultIs(raw: Option<Manifest>, grants: map<PluginId, set<string>>, services: map<string, Service>,
                supports: (string, int) -> bool)
    ensures var fault := Fault(raw, grants, services, supports);
            && (fault == None <==> Admissible(raw, grants, services, supports))
            && (fault.Some? ==> RefusedWith(raw, grants, services, supports, fault.value))
  {
    if raw.Some? {
      var m := raw.value;
      forall k | 0 <= k < |m.requirements|
        ensures Negotiates(m, m.requirements[k], services, supports)
                <==> Provided(m, m.requirements[k].0, m.requirements[k].1, services, supports)
      {
      }
    }
  }

  /** The first n manifests are admissible. */
  ghost predicate Passes(raws: seq<Option<Manifest>>, n: nat, grants: map<PluginId, set<string>>,
                         services: map<string, Service>, supports: (string, int) -> bool)
    requires n <= |raws|
  {
    forall i | 0 <= i < n :: Admissible(raws[i], grants, services, supports)
  }

  // ------------------------------------------------------------ the broker

  class PluginBroker {
    var runners: map<RunnerId, Runner>
    var work: seq<seq<InvocationId>>
    var polls: map<PollId, nat>
    var tools: map<ToolId, Tool>
    var pending: map<InvocationId, Future>
    var serviceCalls: map<(PluginId, string), seq<real>>
    const grants: map<PluginId, set<string>>
    const services: map<string, Service>
    const quota: nat

    ghost function Contents(): Registry
      reads this
    {
      Registry(runners, work, tools, pending, polls)
    }

    constructor (grants: map<PluginId, set<string>>, services: map<string, Service>, quota: nat)
      ensures Contents() == START.b && serviceCalls == map[]
      ensures this.grants == grants && this.services == services && this.quota == quota
    {
      runners, tools, pending, serviceCalls := map[], map[], map[], map[];
      work, polls := [], map[];
      this.grants, this.services, this.quota := grants, services, quota;
    }

    /**
     * Accepted only if every manifest passes; a refusal has the status of the first that does not and changes nothing.
     */
    method RegisterRunner(runner: RunnerId, raws: seq<Option<Manifest>>, protocol: int, supports: (string, int) -> bool)
      returns (verdict: Verdict, ghost ms: seq<Manifest>)
      modifies this
      ensures verdict.Accepted? <==> protocol in {1, 2} && Passes(raws, |raws|, grants, services, supports)
      ensures verdict.Accepted? ==>
                && |ms| == |raws| == |verdict.plugins| && Contents() == Register(old(Contents()), runner, protocol, ms)
                && forall i | 0 <= i < |ms| :: raws[i] == Some(ms[i]) && verdict.plugins[i] == ms[i].id
      ensures verdict.Rejected? ==> Contents() == old(Contents())
      ensures verdict.Rejected? && protocol in {1, 2} ==>
                exists i :: 0 <= i < |raws| && Passes(raws, i, grants, services, supports)
                            && RefusedWith(raws[i], grants, services, supports, verdict.status)
      ensures verdict.Rejected? && protocol !in {1, 2} ==> verdict.status == 409
      ensures serviceCalls == old(serviceCalls)
    {
      ms := [];
      if protocol !in {1, 2} { return Rejected(409), ms; }
      var validated, fault := Validate(raws, grants, services, supports);
      if fault.Some? { return Rejected(fault.value), ms; }
      ms := validated;
      if runner in runners { tools := map t | t in tools && tools[t].runner != runner :: tools[t]; }
      var adopted := AdoptAll(tools, runner, validated);
      tools := adopted;
      runners := runners[runner := Runner(|work|, protocol, PluginMap(validated, |validated|))];
      work := work + [[]];
      return Accepted(seq(|validated|, i requires 0 <= i < |validated| => validated[i].id)), ms;
    }

    method UnregisterRunner(runner: RunnerId) returns (known: bool)
      modifies this
      ensures known <==> runner in old(runners)
      ensures Contents() == Unregister(old(Contents()), runner) && serviceCalls == old(serviceCalls)
    {
      if runner !in runners { return false; }
      var state := runners[runner].state;
      var queue := if state < |work| then work[state] else [];
      runners := runners - {runner};
      tools := map t | t in tools && tools[t].runner != runner :: tools[t];
      pending := map i | i in pending :: if i in queue && pending[i] == WAITING then DISCONNECTED else pending[i];
      return true;
    }

    method InvokeTool(tool: ToolId, id: InvocationId) returns (refused: Option<Refusal>)
      modifies this
      ensures (Contents(), refused) == Invoke(old(Contents()), tool, id) && serviceCalls == old(serviceCalls)
    {
      if tool !in tools { return Some(NO_SUCH_TOOL); }
      var runner := tools[tool].runner;
      if runner !in runners { return Some(NOT_CONNECTED); }
      var state := runners[runner].state;
      pending := pending[id := WAITING];
      if state < |work| { work := work[state := work[state] + [id]]; }
      return None;
    }

    method FinishInvocation(id: InvocationId)
      modifies this
      ensures Contents() == Finish(old(Contents()), id) && serviceCalls == old(serviceCalls)
    {
      pending := pending - {id};
    }

    /** work up to its first wait: the poll takes hold of the runner's state; false is the unknown runner. */
    method BeginWork(poll: PollId, runner: RunnerId) returns (known: bool)
      modifies this
      ensures (Contents(), known) == BeginPoll(old(Contents()), poll, runner) && serviceCalls == old(serviceCalls)
    {
      known := runner in runners;
      if known { polls := polls[poll := runners[runner].state]; }
    }

    /** The draining loop of work, after its waits, on the state the poll began with. */
    method HandOut(poll: PollId) returns (invocations: seq<InvocationId>)
      modifies this
      ensures (Contents(), invocations) == Drain(old(Contents()), poll) && serviceCalls == old(serviceCalls)
    {
      invocations := [];
      if poll !in polls { return; }
      var state := polls[poll];
      polls := polls - {poll};
      if state >= |work| { return; }
      var queue := work[state];
      while queue != []
        invariant invocations + queue == work[state]
        decreases |queue|
      {
        invocations := invocations + [queue[0]];
        queue := queue[1..];
      }
      assert invocations + [] == invocations;
      work := work[state := queue];
    }

    method Resolve(id: InvocationId, data: string) returns (ok: bool)
      modifies this
      ensures (Contents(), ok) == PostResult(old(Contents()), id, data) && serviceCalls == old(serviceCalls)
    {
      if id !in pending || pending[id] != WAITING { return false; }
      pending := pending[id := RESULT(data)];
      return true;
    }

    method ConsumeServiceQuota(plugin: PluginId, service: string, now: real) returns (accepted: bool)
      modifies this`serviceCalls
      ensures var key := (plugin, service);
              var calls := if key in old(serviceCalls) then old(serviceCalls)[key] else [];
              serviceCalls == old(serviceCalls)[key := Consume(calls, now, quota).0]
                && accepted == Consume(calls, now, quota).1
    {
      var key := (plugin, service);
      var calls := if key in serviceCalls then serviceCalls[key] else [];
      ghost var before := calls;
      while calls != [] && now - calls[0] >= MINUTE
        invariant Trimmed(calls, now, MINUTE, false) == Trimmed(before, now, MINUTE, false)
        decreases |calls|
      {
        calls := calls[1..];
      }
      accepted := |calls| < quota;
      if accepted { calls := calls + [now]; }
      serviceCalls := serviceCalls[key := calls];
    }
  }

  method Validate(raws: seq<Option<Manifest>>, grants: map<PluginId, set<string>>, services: map<string, Service>,
                  supports: (string, int) -> bool)
    returns (validated: seq<Manifest>, fault: Option<int>)
    ensures fault.None? <==> Passes(raws, |raws|, grants, services, supports)
    ensures fault.None? ==> |validated| == |raws| && forall i | 0 <= i < |raws| :: raws[i] == Some(validated[i])
    ensures fault.Some? ==> exists i :: 0 <= i < |raws| && Passes(raws, i, grants, services, supports)
                                        && RefusedWith(raws[i], grants, services, supports, fault.value)
  {
    validated := [];
    for i := 0 to |raws|
      invariant Passes(raws, i, grants, services, supports)
      invariant |validated| == i && forall j | 0 <= j < i :: raws[j] == Some(validated[j])
    {
      FaultIs(raws[i], grants, services, supports);
      fault := Fault(raws[i], grants, services, supports);
      if fault.Some? { return; }
      validated := validated + [raws[i].value];
    }
    fault := None;
  }

  method AdoptAll(tools: map<ToolId, Tool>, runner: RunnerId, ms: seq<Manifest>) returns (adopted: map<ToolId, Tool>)
    ensures adopted == Adopt(tools, runner, ms, |ms|)
  {
    adopted := tools;
    for i := 0 to |ms|
      invariant adopted == Adopt(tools, runner, ms, i)
    {
      ghost var before := adopted;
      var tool := Tool(ms[i].id, runner);
      for k := 0 to |ms[i].tools|
        invariant adopted == AdoptTools(before, ms[i].tools, tool, k)
      {
        adopted := adopted[ms[i].tools[k] := tool];
      }
    }
  }
}
