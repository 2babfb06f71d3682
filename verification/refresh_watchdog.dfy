/**
 * The refresh-rate watchdog: a runnable on the root view's queue that
 * re-reads the display's refresh rate once a second and, when the rate has
 * moved by more than 1.0 Hz from the baseline, rebuilds the renderer's
 * window at the new frame rate.
 */
module RefreshWatchdog {
  import opened RenderTypes
  import opened FrameRate
  import opened VsyncPump

  /** The watchdog re-posts itself with this delay. */
  const WatchdogPeriodMs: int := 1000

  /** Surface, texture view and loader path all exist: a reinit is possible. */
  predicate ReinitReady(a: Activity) {
    a.surface.Some? && a.textureView && a.loaderPath.Some?
  }

  /** The baseline the rate is compared with; with no baseline yet the rate itself is adopted. */
  function EffectiveBaseline(a: Activity, rate: int): int {
    if a.lastRefresh < 0 then rate else a.lastRefresh
  }

  predicate SwitchDetected(a: Activity, rate: int) {
    ReinitReady(a) && SignificantChange(rate, EffectiveBaseline(a, rate))
  }

  /**
   * The rebuild after a detected switch: the baseline moves first, then the
   * old window is removed (its failure is ignored) and the renderer is
   * initialised again. When `Init` throws, the rest of the guarded block is
   * skipped; otherwise the pump is started and the window is resized to the
   * texture view.
   */
  function Reinit(a: Activity, rate: int, initOk: bool, view: ViewSize): (t: Transition)
    requires ReinitReady(a)
    ensures t.post.lastRefresh == rate
    ensures |t.cmds| >= 2 && t.cmds[0] == RemoveWindow(a.surface.value)
    ensures t.cmds[1] == Init(a.surface.value, a.loaderPath.value, a.dpi, TargetFps(rate))
    ensures Repaint !in t.cmds && PostWatchdog(WatchdogPeriodMs) !in t.cmds
    ensures initOk ==> t.post.pumpEnabled && t.cmds[|t.cmds| - 1] == ResetWindow(a.surface.value, 0, 0, view.width, view.height)
    // between Init and the resize there is only the pump's one post, and only when the pump was off
    ensures initOk ==> |t.cmds| == (if a.pumpEnabled then 3 else 4)
    ensures initOk ==> forall i :: 2 <= i < |t.cmds| - 1 ==> t.cmds[i] == PostFrameCallback
    ensures !initOk ==> |t.cmds| == 2 && t.post == a.(lastRefresh := rate)
    ensures OnlyPumpChanged(a.(lastRefresh := rate), t.post)
    ensures PumpInv(a) ==> PumpInv(t.post)
    ensures NoBootOutcome(t.cmds)
  {
    var s := a.surface.value;
    var a1 := a.(lastRefresh := rate);
    var renderer := [RemoveWindow(s), Init(s, a.loaderPath.value, a.dpi, TargetFps(rate))];
    if !initOk then Transition(a1, renderer)
    else
      var started := StartPump(a1);
      Transition(started.post, renderer + started.cmds + [ResetWindow(s, 0, 0, view.width, view.height)])
  }

  /** The old window is removed before the renderer is initialised again at the new rate. */
  predicate StartsWithReinit(cmds: seq<Command>, a: Activity, rate: int)
    requires ReinitReady(a)
  {
    && |cmds| >= 2
    && cmds[0] == RemoveWindow(a.surface.value)
    && cmds[1] == Init(a.surface.value, a.loaderPath.value, a.dpi, TargetFps(rate))
  }

  /**
   * The body of one run inside its catch-all block, with the display
   * reporting `rate`. `initOk` is whether the renderer's `Init` returned
   * normally; `view` is the texture view's size at that moment.
   */
  function GuardedRun(a: Activity, rate: int, initOk: bool, view: ViewSize): (t: Transition)
    // a reinit happens exactly on a detected switch, never without a baseline
    ensures InitIssued(t.cmds) <==> SwitchDetected(a, rate)
    ensures a.lastRefresh < 0 ==> t.cmds == []
    ensures !SwitchDetected(a, rate) ==> t.cmds == []
    // the old window is removed before the new one is initialised
    ensures SwitchDetected(a, rate) ==> StartsWithReinit(t.cmds, a, rate)
    // the baseline follows the observed rate on a switch, whether or not Init succeeds
    ensures SwitchDetected(a, rate) ==> t.post.lastRefresh == rate
    ensures ReinitReady(a) && !SwitchDetected(a, rate) ==> t.post.lastRefresh == EffectiveBaseline(a, rate)
    ensures !ReinitReady(a) ==> t.post.lastRefresh == a.lastRefresh
    // the pump is restarted only after a successful Init
    ensures SwitchDetected(a, rate) && initOk ==> t.post.pumpEnabled
    ensures !(SwitchDetected(a, rate) && initOk) ==> t.post.pumpEnabled == a.pumpEnabled && t.post.pendingFrames == a.pendingFrames
    ensures Repaint !in t.cmds && PostWatchdog(WatchdogPeriodMs) !in t.cmds
  {
    if !ReinitReady(a) then Transition(a, [])
    else
      var baseline := EffectiveBaseline(a, rate);
      if SignificantChange(rate, baseline) then Reinit(a, rate, initOk, view)
      else Transition(a.(lastRefresh := baseline), [])
  }

  /** The guarded body changes nothing but the baseline and the pump, and keeps the pump's invariant. */
  lemma GuardedRunFrame(a: Activity, rate: int, initOk: bool, view: ViewSize)
    ensures var t := GuardedRun(a, rate, initOk, view);
      t.post.(lastRefresh := a.lastRefresh, pumpEnabled := a.pumpEnabled, pendingFrames := a.pendingFrames) == a
    ensures PumpInv(a) ==> PumpInv(GuardedRun(a, rate, initOk, view).post)
    ensures NoBootOutcome(GuardedRun(a, rate, initOk, view).cmds)
  {
  }

  /** Appending commands that are not `Init` does not change whether an `Init` was issued. */
  lemma InitIssuedAppend(cmds: seq<Command>, more: seq<Command>)
    requires forall i :: 0 <= i < |more| ==> !more[i].Init?
    ensures InitIssued(cmds + more) <==> InitIssued(cmds)
  {
    assert forall i :: 0 <= i < |more| ==> (cmds + more)[|cmds| + i] == more[i];
    assert forall i :: 0 <= i < |cmds| ==> (cmds + more)[i] == cmds[i];
  }

  /** The command the watchdog appends to every run when the root view exists. */
  function RepostCmds(rootView: bool): seq<Command> {
    if rootView then [PostWatchdog(WatchdogPeriodMs)] else []
  }

  /**
   * One whole run: the guarded body, whose failures are swallowed, then the
   * re-post that keeps the watchdog alive whenever the root view exists.
   */
  function WatchdogRun(a: Activity, rate: int, initOk: bool, view: ViewSize): (t: Transition)
    // a reinit happens exactly on a detected switch
    ensures InitIssued(t.cmds) <==> SwitchDetected(a, rate)
    ensures t.post.watchdogPending == a.watchdogPending + (if a.rootView then 1 else 0)
  {
    var guarded := GuardedRun(a, rate, initOk, view);
    var repost := RepostCmds(a.rootView);
    InitIssuedAppend(guarded.cmds, repost);
    Transition(guarded.post.(watchdogPending := guarded.post.watchdogPending + |repost|), guarded.cmds + repost)
  }

  /** The watchdog survives every outcome: it re-posts itself last, exactly once, whenever the root view exists. */
  lemma WatchdogReposts(a: Activity, rate: int, initOk: bool, view: ViewSize)
    ensures var t := WatchdogRun(a, rate, initOk, view);
      Count(t.cmds, PostWatchdog(WatchdogPeriodMs)) == (if a.rootView then 1 else 0)
    ensures var t := WatchdogRun(a, rate, initOk, view);
      a.rootView ==> |t.cmds| >= 1 && t.cmds[|t.cmds| - 1] == PostWatchdog(WatchdogPeriodMs)
  {
  }

  /** On a detected switch the run opens with the window removal, then the new Init. */
  lemma WatchdogRemovesBeforeInit(a: Activity, rate: int, initOk: bool, view: ViewSize)
    requires SwitchDetected(a, rate)
    ensures StartsWithReinit(WatchdogRun(a, rate, initOk, view).cmds, a, rate)
  {
  }

  /** A run issues at most one `Init`, and on a detected switch it is the second command. */
  lemma WatchdogSingleInit(a: Activity, rate: int, initOk: bool, view: ViewSize)
    ensures var cmds := WatchdogRun(a, rate, initOk, view).cmds;
      forall i :: 0 <= i < |cmds| && cmds[i].Init? ==> i == 1 && SwitchDetected(a, rate)
  {
    var g := GuardedRun(a, rate, initOk, view);
    var cmds := WatchdogRun(a, rate, initOk, view).cmds;
    if SwitchDetected(a, rate) {
      var r := Reinit(a, rate, initOk, view);
      assert g == r;
      assert forall i :: 2 <= i < |r.cmds| ==> !r.cmds[i].Init?;
    }
    assert cmds == g.cmds + RepostCmds(a.rootView);
    assert forall i :: 0 <= i < |g.cmds| ==> cmds[i] == g.cmds[i];
    assert forall i :: |g.cmds| <= i < |cmds| ==> !cmds[i].Init?;
  }

  /** Without a detected switch the run only re-posts itself and touches nothing but the baseline. */
  lemma WatchdogQuietRun(a: Activity, rate: int, initOk: bool, view: ViewSize)
    requires !SwitchDetected(a, rate)
    ensures WatchdogRun(a, rate, initOk, view).cmds == RepostCmds(a.rootView)
    ensures WatchdogRun(a, rate, initOk, view).post.(lastRefresh := a.lastRefresh, watchdogPending := a.watchdogPending) == a
  {
  }

  /**
   * A run changes nothing but the baseline, the pump and the watchdog's own
   * queue, keeps the pump's invariant, and never ends the boot flow.
   */
  lemma WatchdogRunFrame(a: Activity, rate: int, initOk: bool, view: ViewSize)
    ensures var t := WatchdogRun(a, rate, initOk, view);
      t.post.(lastRefresh := a.lastRefresh, pumpEnabled := a.pumpEnabled, pendingFrames := a.pendingFrames,
              watchdogPending := a.watchdogPending) == a
    ensures PumpInv(a) ==> PumpInv(WatchdogRun(a, rate, initOk, view).post)
    ensures NoBootOutcome(WatchdogRun(a, rate, initOk, view).cmds)
  {
    var g := GuardedRun(a, rate, initOk, view);
    GuardedRunFrame(a, rate, initOk, view);
    assert WatchdogRun(a, rate, initOk, view).post == g.post.(watchdogPending := g.post.watchdogPending + |RepostCmds(a.rootView)|);
    NoBootOutcomeConcat(g.cmds, RepostCmds(a.rootView));
  }

  /** A run never repaints: repainting is the pump's business. */
  lemma WatchdogNeverRepaints(a: Activity, rate: int, initOk: bool, view: ViewSize)
    ensures Count(WatchdogRun(a, rate, initOk, view).cmds, Repaint) == 0
  {
  }

  /** Consecutive runs of the watchdog, one per observed rate, with the same renderer outcome and view size. */
  function Runs(a: Activity, rates: seq<int>, initOk: bool, view: ViewSize): Transition
    decreases |rates|
  {
    if |rates| == 0 then Transition(a, [])
    else
      var first := WatchdogRun(a, rates[0], initOk, view);
      var rest := Runs(first.post, rates[1..], initOk, view);
      Transition(rest.post, first.cmds + rest.cmds)
  }

  /**
   * Jitter is not a switch: while every observed rate stays within 1.0 Hz of
   * an established baseline, no run reinitialises the renderer and the
   * baseline does not move.
   */
  lemma {:induction false} JitterNeverReinits(a: Activity, rates: seq<int>, initOk: bool, view: ViewSize)
    requires a.lastRefresh >= 0
    requires forall i :: 0 <= i < |rates| ==> Abs(rates[i] - a.lastRefresh) <= SwitchThresholdMilliHz
    ensures !InitIssued(Runs(a, rates, initOk, view).cmds)
    ensures Runs(a, rates, initOk, view).post.lastRefresh == a.lastRefresh
    decreases |rates|
  {
    if |rates| > 0 {
      var first := WatchdogRun(a, rates[0], initOk, view);
      assert !SwitchDetected(a, rates[0]);
      assert first.post.lastRefresh == a.lastRefresh;
      assert forall i :: 0 <= i < |rates[1..]| ==> rates[1..][i] == rates[i + 1];
      JitterNeverReinits(first.post, rates[1..], initOk, view);
      var rest := Runs(first.post, rates[1..], initOk, view);
      InitIssuedAppend(first.cmds, rest.cmds);
    }
  }

  /** A ready activity with a surface, a running pump and an established 120.0 Hz baseline. */
  const Settled120: Activity :=
    Initial.(phase := Ready, rootView := true, textureView := true, textureAttached := true,
             surface := Some(0), nextSurface := 1, loaderPath := Some("loader"), dpi := Dpi(320, 320),
             lastRefresh := 120000, pumpEnabled := true, pendingFrames := 1)

  /**
   * Readings of 120.4, 119.7 and 121.0 Hz against a 120.0 Hz baseline are
   * jitter; a following 90.0 Hz reading is a switch, rebuilds the window
   * with exactly one `Init` at 90 fps and becomes the new baseline.
   */
  lemma JitterThenSwitch(view: ViewSize)
    ensures !InitIssued(Runs(Settled120, [120400, 119700, 121000], true, view).cmds)
    ensures var settled := Runs(Settled120, [120400, 119700, 121000], true, view).post;
      && settled.lastRefresh == 120000
      && StartsWithReinit(WatchdogRun(settled, 90000, true, view).cmds, settled, 90000)
      && WatchdogRun(settled, 90000, true, view).cmds[1].fps == 90
      && (forall i :: 0 <= i < |WatchdogRun(settled, 90000, true, view).cmds| && WatchdogRun(settled, 90000, true, view).cmds[i].Init? ==> i == 1)
      && WatchdogRun(settled, 90000, true, view).post.lastRefresh == 90000
  {
    var rates := [120400, 119700, 121000];
    JitterNeverReinits(Settled120, rates, true, view);
    RunsFrame(Settled120, rates, true, view);
    var settled := Runs(Settled120, rates, true, view).post;
    assert SwitchDetected(settled, 90000);
    WatchdogRemovesBeforeInit(settled, 90000, true, view);
    WatchdogSingleInit(settled, 90000, true, view);
  }

  /** Runs change nothing but the baseline, the pump and the watchdog's queue. */
  lemma {:induction false} RunsFrame(a: Activity, rates: seq<int>, initOk: bool, view: ViewSize)
    ensures var t := Runs(a, rates, initOk, view);
      t.post.(lastRefresh := a.lastRefresh, pumpEnabled := a.pumpEnabled, pendingFrames := a.pendingFrames,
              watchdogPending := a.watchdogPending) == a
    decreases |rates|
  {
    if |rates| > 0 {
      WatchdogRunFrame(a, rates[0], initOk, view);
      RunsFrame(WatchdogRun(a, rates[0], initOk, view).post, rates[1..], initOk, view);
    }
  }

  /**
   * The baseline moves before the renderer calls, so a reinit whose `Init`
   * fails is not retried while the display stays at the new rate.
   */
  lemma FailedReinitIsNotRetried(a: Activity, rate: int, view: ViewSize, initOk: bool, view2: ViewSize)
    requires SwitchDetected(a, rate)
    ensures WatchdogRun(a, rate, false, view).post.lastRefresh == rate
    ensures !InitIssued(WatchdogRun(WatchdogRun(a, rate, false, view).post, rate, initOk, view2).cmds)
  {
  }
}
