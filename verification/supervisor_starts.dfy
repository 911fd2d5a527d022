/** When the supervisor starts a plugin's process, told from the polls of a run alone. */
module PluginStarts {
  import opened PluginSupervision
  import opened SlidingWindow
  import opened Text

  /** Seconds to wait after a crash that is the k-th in the window. */
  function Wait(k: nat): real {
    if k <= 1 then 1.0 else if k == 2 then 2.0 else if k == 3 then 4.0 else if k == 4 then 8.0
    else if k == 5 then 16.0 else 30.0
  }

  lemma BackoffIsWait(k: nat)
    requires k >= 1
    ensures Backoff(k) == Wait(k)
  {
    assert Pow2(5) == 32;
    if k > 5 { PowGrows(5, k - 1); }
  }

  lemma {:induction false} PowGrows(a: nat, b: nat)
    requires a <= b
    ensures Pow2(a) <= Pow2(b)
  {
    if a < b { PowGrows(a, b - 1); }
  }

  /** Times among the first n of h that lie at most window before last. */
  function Lately(h: seq<real>, last: real, window: real, n: nat): nat
    requires n <= |h|
  {
    if n == 0 then 0 else Lately(h, last, window, n - 1) + if last - h[n - 1] <= window then 1 else 0
  }

  lemma {:induction false} LatelyIs(h: seq<real>, last: real, window: real, n: nat)
    requires n <= |h|
    ensures |InWindowOf(h, last, window, true, n)| == Lately(h, last, window, n)
  {
    if n > 0 { LatelyIs(h, last, window, n - 1); }
  }

  // ------------------------------------------------------------ what the polls tell

  /** The poll before found the plugin too, from the same source, with the same stamp and generation. */
  ghost predicate Same(r: Run, i: nat) {
    && 0 < i < |r.events|
    && var before, g := r.events[i - 1].sighting, r.events[i].sighting;
       && before.Some? && g.Some?
       && before.value.source == g.value.source && before.value.stamp == g.value.stamp
       && before.value.generation == g.value.generation
  }

  ghost predicate EnabledAt(r: Run, i: nat) {
    i < |r.events| && r.events[i].sighting.Some? && r.events[i].sighting.value.enabled
  }

  /** The process that is there when poll i begins. */
  ghost function ProcessAt(r: Run, i: nat): Option<Pid> {
    if i < |r.states| && r.states[i].Some? then r.states[i].value.process else None
  }

  ghost predicate CrashAt(r: Run, i: nat) {
    EnabledAt(r, i) && Same(r, i) && ProcessAt(r, i).Some? && r.events[i].exited
  }

  /** The times of the crashes since the plugin was last found anew or changed, before poll n. */
  ghost function CrashTimes(r: Run, n: nat): seq<real>
    requires n <= |r.events|
  {
    if n == 0 || !Same(r, n - 1) then []
    else CrashTimes(r, n - 1) + if CrashAt(r, n - 1) then [r.events[n - 1].now] else []
  }

  /** The crashes at the end of poll n that are at most one window older than the latest. */
  ghost function CrashCount(r: Run, p: Policy, n: nat): nat
    requires n < |r.events|
  {
    var h := CrashTimes(r, n + 1);
    if h == [] then 0 else Lately(h, h[|h| - 1], p.window, |h|)
  }

  /** Poll i tried to start the process, which failed. */
  ghost predicate FailedStart(r: Run, p: Policy, i: nat) {
    i < |r.events| && i < |r.states| && Spawns(r.states[i], r.events[i], p) && r.events[i].spawned.None?
  }

  /** A crash makes the plugin wait for the backoff, a start that failed for one second. */
  ghost predicate Bars(r: Run, p: Policy, i: nat, until: real) {
    && i < |r.events|
    && ((CrashAt(r, i) && until == r.events[i].now + Wait(CrashCount(r, p, i)))
        || (FailedStart(r, p, i) && until == r.events[i].now + 1.0))
  }

  /** Poll i lies before poll n and the plugin has been the same since. */
  ghost predicate Since(r: Run, i: nat, n: nat) {
    i < n && forall j: nat | i < j < n :: Same(r, j)
  }

  // ------------------------------------------------------------ the states follow

  lemma StateMirrors(r: Run, p: Policy, i: nat)
    requires IsRun(r, p) && i < |r.events|
    ensures Same(r, i) <==> !Resets(r, i)
    ensures r.states[i + 1].Some? <==> r.events[i].sighting.Some?
    ensures r.events[i].sighting.Some? ==>
              var s, g := r.states[i + 1].value, r.events[i].sighting.value;
              s.source == g.source && s.stamp == g.stamp && s.generation == g.generation
  {
    if i > 0 { assert r.states[i] == After(r.states[i - 1], r.events[i - 1], p); }
    assert r.states[i + 1] == After(r.states[i], r.events[i], p);
  }

  lemma CrashesMirror(r: Run, p: Policy, i: nat)
    requires IsRun(r, p) && i < |r.events|
    ensures Crashes(r.states[i], r.events[i]) <==> CrashAt(r, i)
  {
    StateMirrors(r, p, i);
  }

  lemma {:induction false} HistoryMirrors(r: Run, p: Policy, n: nat)
    requires IsRun(r, p) && n <= |r.events|
    ensures r.histories[n] == CrashTimes(r, n)
  {
    if n > 0 {
      HistoryMirrors(r, p, n - 1);
      StateMirrors(r, p, n - 1);
      CrashesMirror(r, p, n - 1);
      assert r.histories[n] == History(r.histories[n - 1], r.states[n - 1], r.events[n - 1]);
    }
  }

  lemma CrashesCounted(r: Run, p: Policy, n: nat)
    requires IsRun(r, p) && n < |r.events|
    ensures |Recent(r.histories[n + 1], p.window)| == CrashCount(r, p, n)
  {
    HistoryMirrors(r, p, n + 1);
    var h := CrashTimes(r, n + 1);
    if h != [] { LatelyIs(h, h[|h| - 1], p.window, |h|); }
  }

  ghost predicate Waits(r: Run, p: Policy, n: nat, s: State)
    requires 0 < n <= |r.events|
  {
    && (s.process.Some? ==> r.events[n - 1].now >= s.nextRetryAt)
    && (!s.circuitOpen ==> forall i: nat, until | Since(r, i, n) && Bars(r, p, i, until) :: until <= s.nextRetryAt)
    && (s.nextRetryAt == 0.0 || exists i: nat :: Since(r, i, n) && Bars(r, p, i, s.nextRetryAt))
  }

  lemma SinceNext(r: Run, i: nat, n: nat)
    ensures Since(r, i, n + 1) <==> i == n || (Since(r, i, n) && Same(r, n))
  {
  }

  /** Poll n begins with the state as it was, or with a new one. */
  lemma LoadedWaits(r: Run, p: Policy, n: nat)
    requires IsRun(r, p) && n < |r.events| && r.events[n].sighting.Some?
    requires WaitsAt(r, p, n)
    ensures var s := Loaded(r.states[n], r.events[n].sighting.value);
            && (s.process.Some? ==> r.events[n].now >= s.nextRetryAt)
            && (!s.circuitOpen ==> forall i: nat, until | i < n && Since(r, i, n + 1) && Bars(r, p, i, until) ::
                                     until <= s.nextRetryAt)
            && (s.nextRetryAt == 0.0 || exists i: nat :: i < n && Since(r, i, n + 1) && Bars(r, p, i, s.nextRetryAt))
            && (s.process == if Same(r, n) then ProcessAt(r, n) else None)
  {
    StateMirrors(r, p, n);
    forall i: nat ensures Since(r, i, n + 1) <==> i == n || (Since(r, i, n) && Same(r, n)) { SinceNext(r, i, n); }
  }

  lemma StartBars(r: Run, p: Policy, n: nat)
    requires p.Valid() && IsRun(r, p) && n < |r.events|
    ensures CrashAt(r, n) ==> CrashCount(r, p, n) >= 1 && !Spawns(r.states[n], r.events[n], p)
    ensures CrashAt(r, n) ==> Settled(r.states[n], r.events[n], p).circuitOpen == (CrashCount(r, p, n) >= p.limit)
    ensures CrashAt(r, n) ==> Bars(r, p, n, r.events[n].now + Backoff(CrashCount(r, p, n)))
    ensures r.events[n].sighting.Some? ==>
              |Settled(r.states[n], r.events[n], p).crashes| == CrashCount(r, p, n)
              && (Settled(r.states[n], r.events[n], p).circuitOpen <==> CrashCount(r, p, n) >= p.limit)
  {
    CrashesMirror(r, p, n);
    CrashesCounted(r, p, n);
    RunKeeps(r, p, n);
    if r.events[n].sighting.Some? {
      SettledKeeps(r.states[n], r.histories[n], r.events[n], if n == 0 then 0.0 else r.events[n - 1].now, p);
      assert r.histories[n + 1] == History(r.histories[n], r.states[n], r.events[n]);
    }
    if CrashAt(r, n) {
      CrashIsNotRestartedAtOnce(r.states[n], r.events[n], p);
      TrimmedSnoc(Loaded(r.states[n], r.events[n].sighting.value).crashes, r.events[n].now, r.events[n].now, p.window,
                  true);
      BackoffIsWait(CrashCount(r, p, n));
    }
  }

  ghost predicate WaitsAt(r: Run, p: Policy, n: nat) {
    0 < n <= |r.events| && n < |r.states| && r.states[n].Some? ==> Waits(r, p, n, r.states[n].value)
  }

  lemma CrashWaits(r: Run, p: Policy, n: nat)
    requires p.Valid() && IsRun(r, p) && n < |r.events| && CrashAt(r, n) && WaitsAt(r, p, n)
    ensures WaitsAt(r, p, n + 1)
  {
    LoadedWaits(r, p, n);
    StartBars(r, p, n);
    CrashesMirror(r, p, n);
    assert r.states[n + 1] == After(r.states[n], r.events[n], p);
    assert Since(r, n, n + 1);
  }

  lemma FailureWaits(r: Run, p: Policy, n: nat)
    requires p.Valid() && IsRun(r, p) && n < |r.events| && FailedStart(r, p, n) && WaitsAt(r, p, n)
    ensures WaitsAt(r, p, n + 1)
  {
    LoadedWaits(r, p, n);
    CrashesMirror(r, p, n);
    if CrashAt(r, n) { CrashIsNotRestartedAtOnce(r.states[n], r.events[n], p); }
    assert r.states[n + 1] == After(r.states[n], r.events[n], p);
    assert Since(r, n, n + 1) && Bars(r, p, n, r.events[n].now + 1.0);
  }

  lemma NoBarWaits(r: Run, p: Policy, n: nat)
    requires p.Valid() && IsRun(r, p) && n < |r.events| && !CrashAt(r, n) && !FailedStart(r, p, n) && WaitsAt(r, p, n)
    ensures WaitsAt(r, p, n + 1)
  {
    if r.events[n].sighting.Some? {
      LoadedWaits(r, p, n);
      CrashesMirror(r, p, n);
      forall until: real ensures !Bars(r, p, n, until) { }
    }
    assert r.states[n + 1] == After(r.states[n], r.events[n], p);
  }

  lemma StepWaits(r: Run, p: Policy, n: nat)
    requires p.Valid() && IsRun(r, p) && n < |r.events| && WaitsAt(r, p, n)
    ensures WaitsAt(r, p, n + 1)
  {
    if CrashAt(r, n) {
      CrashWaits(r, p, n);
    } else if FailedStart(r, p, n) {
      FailureWaits(r, p, n);
    } else {
      NoBarWaits(r, p, n);
    }
  }

  lemma {:induction false} RunWaits(r: Run, p: Policy, n: nat)
    requires p.Valid() && IsRun(r, p) && n <= |r.events|
    ensures WaitsAt(r, p, n)
  {
    if n > 0 {
      RunWaits(r, p, n - 1);
      StepWaits(r, p, n - 1);
    }
  }

  // ------------------------------------------------------------ when a process is started

  /**
   * A poll tries to start the process exactly when it finds the plugin enabled, no process is kept from before, fewer
   * crashes than the limit lie in the window of the latest, and every wait since the plugin was last changed is over:
   * 1, 2, 4, 8, 16 or 30 seconds after a crash and one second after a start that failed.
   */
  lemma StartsIff(r: Run, p: Policy, n: nat)
    requires p.Valid() && IsRun(r, p) && n < |r.events|
    ensures Spawns(r.states[n], r.events[n], p) <==>
            && EnabledAt(r, n) && (Same(r, n) ==> ProcessAt(r, n).None?)
            && CrashCount(r, p, n) < p.limit
            && (Same(r, n) ==>
                  forall i: nat, until | Since(r, i, n) && Bars(r, p, i, until) :: until <= r.events[n].now)
  {
    if EnabledAt(r, n) {
      RunWaits(r, p, n);
      LoadedWaits(r, p, n);
      StartBars(r, p, n);
      CrashesMirror(r, p, n);
      forall i: nat ensures Since(r, i, n + 1) <==> i == n || (Since(r, i, n) && Same(r, n)) { SinceNext(r, i, n); }
    }
  }

  /** The process after a poll: the one just started, the one that keeps running, or none. */
  lemma ProcessAfter(r: Run, p: Policy, n: nat)
    requires p.Valid() && IsRun(r, p) && n < |r.events|
    ensures ProcessAt(r, n + 1) ==
            if Spawns(r.states[n], r.events[n], p) then r.events[n].spawned
            else if EnabledAt(r, n) && Same(r, n) && !r.events[n].exited then ProcessAt(r, n)
            else None
  {
    assert r.states[n + 1] == After(r.states[n], r.events[n], p);
    StateMirrors(r, p, n);
    CrashesMirror(r, p, n);
  }

  /** The plugin has been the same since poll c and no poll in between found it enabled before the time due. */
  ghost predicate Spared(r: Run, c: nat, n: nat, due: real) {
    forall j: nat | c < j < n :: Same(r, j) && (EnabledAt(r, j) ==> r.events[j].now < due)
  }

  lemma {:induction false} StaysDown(r: Run, p: Policy, c: nat, n: nat)
    requires p.Valid() && IsRun(r, p) && c < n <= |r.events| && CrashAt(r, c) && CrashCount(r, p, c) < p.limit
    requires Spared(r, c, n, r.events[c].now + Wait(CrashCount(r, p, c)))
    ensures r.states[n].Some?
    ensures var s := r.states[n].value;
            s.process.None? && !s.circuitOpen && s.nextRetryAt == r.events[c].now + Wait(CrashCount(r, p, c))
  {
    var m := n - 1;
    assert r.states[n] == After(r.states[m], r.events[m], p);
    CrashesMirror(r, p, m);
    if n == c + 1 {
      StartBars(r, p, c);
      BackoffIsWait(CrashCount(r, p, c));
    } else {
      StaysDown(r, p, c, m);
      StateMirrors(r, p, m);
      assert Same(r, m);
    }
  }

  /**
   * A crashed plugin whose circuit is closed comes back: the first poll that finds it enabled once it has waited runs
   * what the start gives it.
   */
  lemma RestartedOnceDue(r: Run, p: Policy, c: nat, n: nat)
    requires p.Valid() && IsRun(r, p) && c < n < |r.events| && CrashAt(r, c) && CrashCount(r, p, c) < p.limit
    requires Spared(r, c, n, r.events[c].now + Wait(CrashCount(r, p, c)))
    requires Same(r, n) && EnabledAt(r, n) && r.events[n].now >= r.events[c].now + Wait(CrashCount(r, p, c))
    ensures ProcessAt(r, n + 1) == r.events[n].spawned
  {
    StaysDown(r, p, c, n);
    StateMirrors(r, p, n);
    ProcessAfter(r, p, n);
  }
}
