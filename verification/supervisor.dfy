/** Crash circuit breaker and restart backoff for plugin processes: plugins/supervisor.py. */
module PluginSupervision {
  import opened SlidingWindow
  import opened Text

  type Pid = nat

  datatype Source = Source(entrypoint: string, pythonPath: Option<string>)

  /**
   * What one poll finds for a discovered plugin: its source, the source's time stamp and the operator's control row.
   */
  datatype Sighting = Sighting(source: Source, stamp: Option<int>, generation: int, enabled: bool)

  datatype State = State(source: Source, stamp: Option<int>, generation: int, process: Option<Pid>,
                         crashes: seq<real>, nextRetryAt: real, circuitOpen: bool)

  /** Settings demand a crash limit and a window of at least 1. */
  datatype Policy = Policy(limit: nat, window: real) {
    predicate Valid() { limit >= 1 && window >= 1.0 }
  }

  /** One poll of one plugin: not discovered, or seen; whether its process has exited; what a spawn would give. */
  datatype Event = Event(now: real, sighting: Option<Sighting>, exited: bool, spawned: Option<Pid>)

  // ------------------------------------------------------------ one poll

  function Initial(g: Sighting): State {
    State(g.source, g.stamp, g.generation, None, [], 0.0, false)
  }

  /** An explicit reload, or a changed source file. */
  predicate Changed(s: State, g: Sighting) {
    s.generation != g.generation || s.source != g.source || s.stamp != g.stamp
  }

  function Pow2(n: nat): nat {
    if n == 0 then 1 else 2 * Pow2(n - 1)
  }

  /** min(2 ** (n - 1), 30) seconds after the n-th crash in the window. */
  function Backoff(n: nat): (r: real)
    ensures n > 0 ==> r >= 1.0
  {
    if n == 0 then 0.0 else if Pow2(n - 1) < 30 then (PowPositive(n - 1); Pow2(n - 1) as real) else 30.0
  }

  lemma {:induction false} PowPositive(n: nat)
    ensures Pow2(n) >= 1
  {
    if n > 0 { PowPositive(n - 1); }
  }

  function Crash(s: State, now: real, p: Policy): State {
    var crashes := Trimmed(s.crashes + [now], now, p.window, true);
    if |crashes| >= p.limit then s.(process := None, crashes := crashes, circuitOpen := true)
    else s.(process := None, crashes := crashes, nextRetryAt := now + Backoff(|crashes|))
  }

  function Loaded(s: Option<State>, g: Sighting): State {
    if s.None? || Changed(s.value, g) then Initial(g) else s.value
  }

  /** A crash is recorded for an enabled plugin whose process is known and has exited. */
  predicate Crashes(s: Option<State>, e: Event) {
    e.sighting.Some? && e.sighting.value.enabled && Loaded(s, e.sighting.value).process.Some? && e.exited
  }

  /** The state a spawn is decided on. */
  function Settled(s: Option<State>, e: Event, p: Policy): State
    requires e.sighting.Some?
  {
    var loaded := Loaded(s, e.sighting.value);
    if Crashes(s, e) then Crash(loaded, e.now, p) else loaded
  }

  predicate Spawns(s: Option<State>, e: Event, p: Policy) {
    e.sighting.Some? && e.sighting.value.enabled
    && var a := Settled(s, e, p); a.process.None? && !a.circuitOpen && e.now >= a.nextRetryAt
  }

  function After(s: Option<State>, e: Event, p: Policy): Option<State> {
    match e.sighting
    case None => None
    case Some(g) =>
      var a := Settled(s, e, p);
      Some(if !g.enabled then a.(process := None)
           else if !Spawns(s, e, p) then a
           else if e.spawned.Some? then a.(process := e.spawned)
           else a.(nextRetryAt := e.now + 1.0))
  }

  // ------------------------------------------------------------ whole runs

  /** The crashes since the plugin was last loaded, reloaded or rediscovered. */
  function History(h: seq<real>, s: Option<State>, e: Event): seq<real> {
    if e.sighting.None? || s.None? || Changed(s.value, e.sighting.value) then []
    else if Crashes(s, e) then h + [e.now]
    else h
  }

  datatype Run = Run(states: seq<Option<State>>, histories: seq<seq<real>>, events: seq<Event>)

  /** Any sequence of polls with a clock that never goes back, from a supervisor that knows nothing of the plugin. */
  ghost predicate IsRun(r: Run, p: Policy) {
    && |r.states| == |r.histories| == |r.events| + 1 && r.states[0] == None && r.histories[0] == []
    && (forall i | 0 <= i < |r.events| :: 0.0 <= r.events[i].now)
    && (forall i | 0 < i < |r.events| :: r.events[i - 1].now <= r.events[i].now)
    && (forall i | 0 <= i < |r.events| ::
          && r.states[i + 1] == After(r.states[i], r.events[i], p)
          && r.histories[i + 1] == History(r.histories[i], r.states[i], r.events[i]))
  }

  /** The crashes within the window of the latest one. */
  function Recent(h: seq<real>, window: real): seq<real> {
    if h == [] then [] else InWindow(h, h[|h| - 1], window, true)
  }

  /** Recording a crash keeps the queue equal to the crashes within the window of the latest. */
  lemma QueueStaysRecent(h: seq<real>, now: real, window: real)
    requires Sorted(h) && AtMost(h, now) && window >= 0.0
    ensures Trimmed(Recent(h, window) + [now], now, window, true) == Recent(h + [now], window)
  {
    TrimmedSnoc(Recent(h, window), now, now, window, true);
    if h != [] { TrimmedCatchesUp(h, h[|h| - 1], now, window, true); }
    InWindowSnoc(h, now, now, window, true);
  }

  ghost predicate Inv(s: Option<State>, h: seq<real>, clock: real, p: Policy) {
    && Sorted(h) && AtMost(h, clock)
    && (s.None? ==> h == [])
    && (s.Some? ==>
          && s.value.crashes == Recent(h, p.window)
          && (s.value.circuitOpen <==> |s.value.crashes| >= p.limit)
          && (s.value.circuitOpen ==> s.value.process.None?)
          && (h != [] && !s.value.circuitOpen ==> s.value.nextRetryAt >= h[|h| - 1] + Backoff(|s.value.crashes|)))
  }

  lemma HistoryKeeps(h: seq<real>, s: Option<State>, e: Event, clock: real)
    requires Sorted(h) && AtMost(h, clock) && clock <= e.now
    ensures Sorted(History(h, s, e)) && AtMost(History(h, s, e), e.now)
  {
    SortedSnoc(h, e.now);
  }

  lemma SettledKeeps(s: Option<State>, h: seq<real>, e: Event, clock: real, p: Policy)
    requires p.Valid() && Inv(s, h, clock, p) && clock <= e.now && e.sighting.Some?
    ensures Inv(Some(Settled(s, e, p)), History(h, s, e), e.now, p)
  {
    HistoryKeeps(h, s, e, clock);
    if Crashes(s, e) {
      QueueStaysRecent(h, e.now, p.window);
      assert (h + [e.now])[|h|] == e.now;
    }
  }

  lemma StepKeeps(s: Option<State>, h: seq<real>, e: Event, clock: real, p: Policy)
    requires p.Valid() && Inv(s, h, clock, p) && clock <= e.now
    ensures Inv(After(s, e, p), History(h, s, e), e.now, p)
  {
    if e.sighting.Some? { SettledKeeps(s, h, e, clock, p); }
  }

  lemma {:induction false} RunKeeps(r: Run, p: Policy, n: nat)
    requires p.Valid() && IsRun(r, p) && n < |r.states|
    ensures Inv(r.states[n], r.histories[n], if n == 0 then 0.0 else r.events[n - 1].now, p)
  {
    if n > 0 {
      RunKeeps(r, p, n - 1);
      StepKeeps(r.states[n - 1], r.histories[n - 1], r.events[n - 1], if n == 1 then 0.0 else r.events[n - 2].now, p);
    }
  }

  /**
   * In every run the crash queue is exactly the crashes, since the last reset, within the window of the latest one,
   * in order, and the circuit is open if and only if they have reached the limit.
   */
  lemma CircuitExactly(r: Run, p: Policy, n: nat)
    requires p.Valid() && IsRun(r, p) && n < |r.states| && r.states[n].Some?
    ensures r.states[n].value.crashes == Recent(r.histories[n], p.window) && Sorted(r.histories[n])
    ensures r.states[n].value.circuitOpen <==> |Recent(r.histories[n], p.window)| >= p.limit
  {
    RunKeeps(r, p, n);
  }

  ghost predicate Resets(r: Run, i: nat)
    requires i < |r.states| && i < |r.events|
  {
    r.events[i].sighting.None? || r.states[i].None? || Changed(r.states[i].value, r.events[i].sighting.value)
  }

  /** Once open, the circuit stays open and nothing is spawned until a reload, a changed source or a rediscovery. */
  lemma {:induction false} OpenUntilReset(r: Run, p: Policy, n: nat, m: nat)
    requires p.Valid() && IsRun(r, p) && n <= m < |r.events|
    requires r.states[n].Some? && r.states[n].value.circuitOpen
    requires forall i | n <= i <= m :: !Resets(r, i)
    ensures r.states[m].Some? && r.states[m].value.circuitOpen && r.states[m].value.process.None?
    ensures !Spawns(r.states[m], r.events[m], p)
  {
    RunKeeps(r, p, n);
    if n < m {
      OpenUntilReset(r, p, n, m - 1);
      assert !Resets(r, m - 1) && r.states[m] == After(r.states[m - 1], r.events[m - 1], p);
    }
    assert !Resets(r, m);
  }

  /** No spawn is tried before the backoff of the latest crash since the last reset has passed. */
  lemma NoSpawnBeforeBackoff(r: Run, p: Policy, n: nat)
    requires p.Valid() && IsRun(r, p) && n < |r.events| && Spawns(r.states[n], r.events[n], p)
    ensures var h := r.histories[n + 1];
            h != [] ==> r.events[n].now >= h[|h| - 1] + Backoff(|Recent(h, p.window)|)
  {
    RunKeeps(r, p, n);
    var clock := if n == 0 then 0.0 else r.events[n - 1].now;
    SettledKeeps(r.states[n], r.histories[n], r.events[n], clock, p);
  }

  /** The poll that sees a crash does not restart the process. */
  lemma CrashIsNotRestartedAtOnce(s: Option<State>, e: Event, p: Policy)
    requires p.Valid() && Crashes(s, e)
    ensures !Spawns(s, e, p) && After(s, e, p).Some? && After(s, e, p).value.process.None?
  {
    TrimmedSnoc(Loaded(s, e.sighting.value).crashes, e.now, e.now, p.window, true);
  }

  // ------------------------------------------------------------ status

  datatype Status = DISABLED | CIRCUIT_OPEN | RUNNING | BACKOFF | STOPPED

  /** enabled is the operator's switch as it is read again when the status is written. */
  function StatusOf(s: State, enabled: bool, now: real): Status {
    if !enabled then DISABLED
    else if s.circuitOpen then CIRCUIT_OPEN
    else if s.process.Some? then RUNNING
    else if now < s.nextRetryAt then BACKOFF
    else STOPPED
  }

  /**
   * "stopped" is written exactly for a plugin that was disabled when it was polled and enabled when the status was
   * written, with its circuit closed and its retry time passed.
   */
  lemma StoppedIff(s: Option<State>, e: Event, p: Policy, enabled: bool)
    requires p.Valid() && e.sighting.Some?
    ensures var after := After(s, e, p).value;
            StatusOf(after, enabled, e.now) == STOPPED <==>
            enabled && !e.sighting.value.enabled && !after.circuitOpen && e.now >= after.nextRetryAt
  {
    if Crashes(s, e) { CrashIsNotRestartedAtOnce(s, e, p); }
  }

  /** Over a whole run, "stopped" also means that the backoff of the latest crash since the last reset has passed. */
  lemma StoppedAfterBackoff(r: Run, p: Policy, n: nat, enabled: bool)
    requires p.Valid() && IsRun(r, p) && n < |r.events| && r.events[n].sighting.Some?
    requires StatusOf(r.states[n + 1].value, enabled, r.events[n].now) == STOPPED
    ensures enabled && !r.events[n].sighting.value.enabled
    ensures var h := r.histories[n + 1];
            |Recent(h, p.window)| < p.limit
              && (h != [] ==> r.events[n].now >= h[|h| - 1] + Backoff(|Recent(h, p.window)|))
  {
    StoppedIff(r.states[n], r.events[n], p, enabled);
    RunKeeps(r, p, n + 1);
  }

  /**
   * A run that is reported "stopped": spawned at the first poll, disabled at the second, enabled before the status is
   * written.
   */
  lemma StoppedRun(g: Sighting, pid: Pid, later: real, p: Policy) returns (r: Run)
    requires p.Valid() && g.enabled && later >= 0.0
    ensures IsRun(r, p) && |r.events| == 2 && r.states[1].Some? && r.states[2].Some?
    ensures StatusOf(r.states[1].value, true, 0.0) == RUNNING && r.events[1].sighting == Some(g.(enabled := false))
    ensures StatusOf(r.states[2].value, true, later) == STOPPED
  {
    var first, second := Event(0.0, Some(g), false, Some(pid)), Event(later, Some(g.(enabled := false)), false, None);
    var s1 := After(None, first, p);
    r := Run([None, s1, After(s1, second, p)], [[], History([], None, first), History([], s1, second)],
             [first, second]);
    assert r.histories[1] == [];
  }

  // ------------------------------------------------------------ the service

  type PluginId = string

  class PluginSupervisorService {
    var states: map<PluginId, State>
    const policy: Policy

    constructor (policy: Policy)
      ensures states == map[] && this.policy == policy
    {
      states, this.policy := map[], policy;
    }

    /** One poll: exited says which plugins' processes have ended, spawn what starting a plugin would give. */
    method Reconcile(discovered: map<PluginId, Sighting>, now: real, exited: PluginId -> bool,
                     spawn: PluginId -> Option<Pid>)
      requires policy.Valid()
      modifies this
      ensures states.Keys == discovered.Keys
      ensures forall id | id in discovered ::
                After(if id in old(states) then Some(old(states)[id]) else None,
                      Event(now, Some(discovered[id]), exited(id), spawn(id)), policy) == Some(states[id])
    {
      states := map id | id in states && id in discovered :: states[id];
      var rest := discovered.Keys;
      while rest != {}
        invariant rest <= discovered.Keys
        invariant states.Keys <= discovered.Keys && discovered.Keys - rest <= states.Keys
        invariant forall id | id in rest ::
                  (id in states <==> id in old(states)) && (id in states ==> states[id] == old(states)[id])
        invariant forall id | id in discovered && id !in rest ::
                    After(if id in old(states) then Some(old(states)[id]) else None,
                          Event(now, Some(discovered[id]), exited(id), spawn(id)), policy) == Some(states[id])
        decreases rest
      {
        var id :| id in rest;
        rest := rest - {id};
        var g := discovered[id];
        var state := Supervise(if id in states then Some(states[id]) else None, g, now, exited(id), spawn(id), policy);
        states := states[id := state];
      }
    }
  }

  method Supervise(known: Option<State>, g: Sighting, now: real, exited: bool, spawned: Option<Pid>, p: Policy)
    returns (state: State)
    requires p.Valid()
    ensures After(known, Event(now, Some(g), exited, spawned), p) == Some(state)
  {
    state := if known.None? then Initial(g) else known.value;
    var explicitReload := state.generation != g.generation;
    var sourceChanged := state.source != g.source || state.stamp != g.stamp;
    if explicitReload || sourceChanged {
      state := Stop(state);
      state := state.(source := g.source, generation := g.generation, stamp := g.stamp);
      state := state.(crashes := [], nextRetryAt := 0.0, circuitOpen := false);
    }
    if !g.enabled {
      state := Stop(state);
      return;
    }
    if state.process.Some? && exited {
      state := state.(process := None);
      var crashes := state.crashes + [now];
      ghost var all := crashes;
      TrimmedSnoc(state.crashes, now, now, p.window, true);
      while crashes != [] && now - crashes[0] > p.window
        invariant Trimmed(crashes, now, p.window, true) == Trimmed(all, now, p.window, true)
        decreases |crashes|
      {
        crashes := crashes[1..];
      }
      state := state.(crashes := crashes);
      if |crashes| >= p.limit {
        state := state.(circuitOpen := true);
      } else {
        state := state.(nextRetryAt := now + Backoff(|crashes|));
      }
    }
    if state.process.None? && !state.circuitOpen && now >= state.nextRetryAt {
      if spawned.Some? {
        state := state.(process := spawned);
      } else {
        state := state.(nextRetryAt := now + 1.0);
      }
    }
  }

  /** Stopping a process, which is assumed to end. */
  method Stop(state: State) returns (stopped: State)
    ensures stopped == state.(process := None)
  {
    if state.process.None? { return state; }
    stopped := state.(process := None);
  }
}
