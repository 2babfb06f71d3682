/**
 * The rendering activity as a whole: every callback the platform delivers
 * is an `Event`, `Step` dispatches it to the handler it reaches in the
 * activity, and `Run` folds a sequence of events into the final state and
 * the trace of emitted commands.
 */
module RenderActivity {
  import opened RenderTypes
  import opened FrameRate
  import opened DisplayModes
  import opened VsyncPump
  import opened RefreshWatchdog
  import opened SurfaceLifecycle
  import opened BootFlow

  datatype Event =
    | Create(alreadyStarted: bool, modes: seq<Mode>)
    | Resume(modes: seq<Mode>)
    | Pause
    | FocusChanged(hasFocus: bool, modes: seq<Mode>)
    | SurfaceTextureAvailable(loaderPath: string, dpi: Dpi, refreshMilliHz: int)
    | SurfaceTextureSizeChanged(view: ViewSize)
    | SurfaceTextureDestroyed
    | Vsync(repaintOk: bool)
    | WatchdogDue(refreshMilliHz: int, initOk: bool, view: ViewSize)
    | BootDecision(flags: RomFlags)
    | ExtractionDone
    | RootfsReady
    | TipDue(stage: nat)
    | BootWaitDone(success: bool)

  /** `onResume`: request the display mode; re-arm the watchdog and start the pump when the root view exists. */
  function OnResume(a: Activity, modes: seq<Mode>): (t: Transition)
    ensures a.rootView ==> t.post.watchdogPending == 1 && Count(t.cmds, PostWatchdog(WatchdogPeriodMs)) == 1
    ensures a.rootView ==> t.post.pumpEnabled == (a.pumpEnabled || a.surface.Some?)
    ensures !a.rootView ==> t.post == a && t.cmds == RequestHighRefreshDisplayMode(modes)
    // the mode request, the watchdog's cancel and re-post, then the pump's post when it is armed here
    ensures a.rootView ==> t.cmds == RequestHighRefreshDisplayMode(modes) + [RemoveWatchdog, PostWatchdog(WatchdogPeriodMs)]
                                     + (if !a.pumpEnabled && a.surface.Some? then [PostFrameCallback] else [])
    ensures a.rootView ==> OnlyPumpChanged(a.(watchdogPending := 1), t.post)
  {
    var mode := RequestHighRefreshDisplayMode(modes);
    if !a.rootView then Transition(a, mode)
    else
      var started := StartPump(a.(watchdogPending := 1));
      Transition(started.post, mode + [RemoveWatchdog, PostWatchdog(WatchdogPeriodMs)] + started.cmds)
  }

  /** `onPause`: stop the pump and cancel the watchdog. */
  function OnPause(a: Activity): (t: Transition)
    ensures !t.post.pumpEnabled
    ensures a.rootView ==> t.post.watchdogPending == 0
    ensures Count(t.cmds, PostWatchdog(WatchdogPeriodMs)) == 0 && Count(t.cmds, Repaint) == 0
    // only withdrawals: the frame callback if the pump ran, then the watchdog if the root view exists
    ensures t.cmds == (if a.pumpEnabled then [RemoveFrameCallback] else []) + (if a.rootView then [RemoveWatchdog] else [])
    ensures OnlyPumpChanged(a.(watchdogPending := if a.rootView then 0 else a.watchdogPending), t.post)
    ensures PumpInv(a) ==> PumpInv(t.post)
  {
    var stopped := StopPump(a);
    if !a.rootView then stopped
    else Transition(stopped.post.(watchdogPending := 0), stopped.cmds + [RemoveWatchdog])
  }

  /** `onWindowFocusChanged`: gaining focus starts the pump, losing it stops the pump. */
  function OnFocusChanged(a: Activity, hasFocus: bool, modes: seq<Mode>): (t: Transition)
    ensures t.post.focused == hasFocus
    ensures hasFocus ==> t.post.pumpEnabled == (a.pumpEnabled || a.surface.Some?)
    ensures !hasFocus ==> !t.post.pumpEnabled
    ensures |t.cmds| >= 1 && t.cmds[|t.cmds| - 1] == UpdateVisibility(hasFocus)
    ensures OnlyPumpChanged(a.(focused := hasFocus), t.post)
    // gaining focus: the mode request, the pump's post when it is armed here, the visibility update
    ensures hasFocus ==> t.cmds == RequestHighRefreshDisplayMode(modes)
                                   + (if !a.pumpEnabled && a.surface.Some? then [PostFrameCallback] else [])
                                   + [UpdateVisibility(true)]
    // losing focus: the callback's withdrawal when the pump ran, the visibility update
    ensures !hasFocus ==> t.cmds == (if a.pumpEnabled then [RemoveFrameCallback] else []) + [UpdateVisibility(false)]
  {
    var pump := if hasFocus then StartPump(a.(focused := true)) else StopPump(a.(focused := false));
    var mode := if hasFocus then RequestHighRefreshDisplayMode(modes) else [];
    Transition(pump.post, mode + pump.cmds + [UpdateVisibility(hasFocus)])
  }

  /**
   * One event. Nothing runs once the activity has finished; the surface
   * listener is only called while the texture view is attached; the frame
   * callback and the watchdog only run when a copy of them is pending; the
   * boot stages only advance from the stage that starts them.
   */
  function Step(a: Activity, e: Event): Transition {
    if Finished(a) then Transition(a, [])
    else
      match e
      case Create(started, modes) =>
        if a.phase == NotCreated then OnCreate(a, started, modes) else Transition(a, [])
      case Resume(modes) => OnResume(a, modes)
      case Pause => OnPause(a)
      case FocusChanged(hasFocus, modes) => OnFocusChanged(a, hasFocus, modes)
      case SurfaceTextureAvailable(path, dpi, rate) =>
        if a.textureAttached then SurfaceAvailable(a, path, dpi, rate) else Transition(a, [])
      case SurfaceTextureSizeChanged(view) =>
        if a.textureAttached then SurfaceSizeChanged(a, view) else Transition(a, [])
      case SurfaceTextureDestroyed =>
        if a.textureAttached then SurfaceDestroyed(a) else Transition(a, [])
      case Vsync(ok) => VsyncTick(a, ok)
      case WatchdogDue(rate, initOk, view) =>
        if a.watchdogPending == 0 then Transition(a, [])
        else WatchdogRun(a.(watchdogPending := a.watchdogPending - 1), rate, initOk, view)
      case BootDecision(flags) =>
        if a.phase == AwaitingDecision then BootSystem(a, flags) else Transition(a, [])
      case ExtractionDone =>
        if a.phase == Extracting && a.extracting then ExtractionFinished(a) else Transition(a, [])
      case RootfsReady =>
        if a.phase == Extracting && !a.extracting then AttachAndWait(a) else Transition(a, [])
      case TipDue(stage) => TipTimer(a, stage)
      case BootWaitDone(success) =>
        if a.phase == WaitingForBoot then BootWaitReturned(a, success) else Transition(a, [])
  }

  function Run(a: Activity, events: seq<Event>): Transition
    decreases |events|
  {
    if |events| == 0 then Transition(a, [])
    else
      var first := Step(a, events[0]);
      var rest := Run(first.post, events[1..]);
      Transition(rest.post, first.cmds + rest.cmds)
  }

  /**
   * What holds of the activity after any sequence of events: the pump's
   * invariant, at most one pending watchdog (and only with a root view), and
   * surface identities that are never reused.
   */
  predicate Inv(a: Activity) {
    && PumpInv(a)
    && a.watchdogPending <= 1
    && (a.watchdogPending > 0 ==> a.rootView)
    && (a.surface.Some? ==> a.surface.value < a.nextSurface)
    && (a.textureAttached ==> a.textureView)
    && (a.phase in {AwaitingDecision, Extracting, WaitingForBoot, Ready} ==> a.rootView && a.textureView)
  }

  lemma InitialInv()
    ensures Inv(Initial)
  {
  }

  /** The boot outcomes still open to an activity in this phase. */
  function OutcomeBudget(p: BootPhase): nat {
    match p
    case NotCreated => 1
    case AwaitingDecision => 1
    case Extracting => 1
    case WaitingForBoot => 1
    case Redirected => 0
    case Ready => 0
    case Exited => 0
  }

  /**
   * A step that keeps the invariant, does not end the boot flow and never
   * reopens a boot outcome: the outcome budget never grows.
   */
  predicate QuietStep(a: Activity, t: Transition) {
    && (Inv(a) ==> Inv(t.post))
    && NoBootOutcome(t.cmds)
    && OutcomeBudget(t.post.phase) <= OutcomeBudget(a.phase)
  }

  lemma CreateIsQuiet(a: Activity, started: bool, modes: seq<Mode>)
    requires a.phase == NotCreated
    ensures QuietStep(a, OnCreate(a, started, modes))
  {
    CreateKeepsInv(a, started, modes);
    CreateEmitsNoOutcome(a, started, modes);
  }

  lemma CreateKeepsInv(a: Activity, started: bool, modes: seq<Mode>)
    requires a.phase == NotCreated
    ensures OutcomeBudget(OnCreate(a, started, modes).post.phase) <= OutcomeBudget(a.phase)
    ensures Inv(a) ==> Inv(OnCreate(a, started, modes).post)
  {
  }

  lemma CreateEmitsNoOutcome(a: Activity, started: bool, modes: seq<Mode>)
    ensures NoBootOutcome(OnCreate(a, started, modes).cmds)
  {
    var mode := RequestHighRefreshDisplayMode(modes);
    assert !started ==> OnCreate(a, started, modes).cmds == [ResetStatus] + mode;
  }

  lemma ResumeIsQuiet(a: Activity, modes: seq<Mode>)
    ensures QuietStep(a, OnResume(a, modes))
  {
    var mode := RequestHighRefreshDisplayMode(modes);
    if a.rootView {
      var started := StartPump(a.(watchdogPending := 1));
      assert |started.cmds| == 0 || started.cmds == [PostFrameCallback];
      NoBootOutcomeConcat(mode, [RemoveWatchdog, PostWatchdog(WatchdogPeriodMs)]);
      NoBootOutcomeConcat(mode + [RemoveWatchdog, PostWatchdog(WatchdogPeriodMs)], started.cmds);
      assert OnResume(a, modes).cmds == mode + [RemoveWatchdog, PostWatchdog(WatchdogPeriodMs)] + started.cmds;
    }
  }

  lemma PauseIsQuiet(a: Activity)
    ensures QuietStep(a, OnPause(a))
  {
    PauseKeepsInv(a);
    PauseEmitsNoOutcome(a);
  }

  lemma PauseKeepsInv(a: Activity)
    ensures OnPause(a).post.phase == a.phase
    ensures Inv(a) ==> Inv(OnPause(a).post)
  {
  }

  lemma PauseEmitsNoOutcome(a: Activity)
    ensures NoBootOutcome(OnPause(a).cmds)
  {
  }

  lemma FocusIsQuiet(a: Activity, hasFocus: bool, modes: seq<Mode>)
    ensures QuietStep(a, OnFocusChanged(a, hasFocus, modes))
  {
  }

  lemma SurfaceAvailableIsQuiet(a: Activity, path: string, dpi: Dpi, rate: int)
    ensures QuietStep(a, SurfaceAvailable(a, path, dpi, rate))
  {
  }

  lemma SurfaceSizeChangedIsQuiet(a: Activity, view: ViewSize)
    ensures QuietStep(a, SurfaceSizeChanged(a, view))
  {
  }

  lemma SurfaceDestroyedIsQuiet(a: Activity)
    ensures QuietStep(a, SurfaceDestroyed(a))
  {
  }

  lemma VsyncIsQuiet(a: Activity, ok: bool)
    ensures QuietStep(a, VsyncTick(a, ok))
  {
  }

  lemma WatchdogIsQuiet(a: Activity, rate: int, initOk: bool, view: ViewSize)
    requires a.watchdogPending > 0
    ensures QuietStep(a, WatchdogRun(a.(watchdogPending := a.watchdogPending - 1), rate, initOk, view))
  {
    var a1 := a.(watchdogPending := a.watchdogPending - 1);
    WatchdogRunFrame(a1, rate, initOk, view);
  }

  lemma BootDecisionIsQuiet(a: Activity, flags: RomFlags)
    requires a.phase == AwaitingDecision
    ensures QuietStep(a, BootSystem(a, flags))
  {
  }

  lemma ExtractionDoneIsQuiet(a: Activity)
    requires a.phase == Extracting
    ensures QuietStep(a, ExtractionFinished(a))
  {
  }

  lemma RootfsReadyIsQuiet(a: Activity)
    requires a.phase == Extracting
    ensures QuietStep(a, AttachAndWait(a))
  {
  }

  lemma TipIsQuiet(a: Activity, stage: nat)
    ensures QuietStep(a, TipTimer(a, stage))
  {
  }

  /** The lifecycle and surface-listener events are quiet steps. */
  lemma ViewEventIsQuiet(a: Activity, e: Event)
    requires !Finished(a)
    requires e.Create? || e.Resume? || e.Pause? || e.FocusChanged?
          || e.SurfaceTextureAvailable? || e.SurfaceTextureSizeChanged? || e.SurfaceTextureDestroyed?
    ensures QuietStep(a, Step(a, e))
  {
    match e
    case Create(started, modes) => if a.phase == NotCreated { CreateIsQuiet(a, started, modes); }
    case Resume(modes) => ResumeIsQuiet(a, modes);
    case Pause => PauseIsQuiet(a);
    case FocusChanged(hasFocus, modes) => FocusIsQuiet(a, hasFocus, modes);
    case SurfaceTextureAvailable(path, dpi, rate) =>
      if a.textureAttached { SurfaceAvailableIsQuiet(a, path, dpi, rate); }
    case SurfaceTextureSizeChanged(view) => if a.textureAttached { SurfaceSizeChangedIsQuiet(a, view); }
    case SurfaceTextureDestroyed => if a.textureAttached { SurfaceDestroyedIsQuiet(a); }
  }

  /** The scheduled callbacks and the boot stages before the end of the boot wait are quiet steps. */
  lemma CallbackEventIsQuiet(a: Activity, e: Event)
    requires !Finished(a)
    requires e.Vsync? || e.WatchdogDue? || e.BootDecision? || e.ExtractionDone? || e.RootfsReady? || e.TipDue?
    ensures QuietStep(a, Step(a, e))
  {
    match e
    case Vsync(ok) => VsyncIsQuiet(a, ok);
    case WatchdogDue(rate, initOk, view) => if a.watchdogPending > 0 { WatchdogIsQuiet(a, rate, initOk, view); }
    case BootDecision(flags) => if a.phase == AwaitingDecision { BootDecisionIsQuiet(a, flags); }
    case ExtractionDone => if a.phase == Extracting && a.extracting { ExtractionDoneIsQuiet(a); }
    case RootfsReady => if a.phase == Extracting && !a.extracting { RootfsReadyIsQuiet(a); }
    case TipDue(stage) => TipIsQuiet(a, stage);
  }

  /** Every event except the end of the boot wait is a quiet step. */
  lemma StepIsQuiet(a: Activity, e: Event)
    requires !e.BootWaitDone?
    ensures QuietStep(a, Step(a, e))
  {
    if !Finished(a) {
      if e.Vsync? || e.WatchdogDue? || e.BootDecision? || e.ExtractionDone? || e.RootfsReady? || e.TipDue? {
        CallbackEventIsQuiet(a, e);
      } else {
        ViewEventIsQuiet(a, e);
      }
    }
  }

  lemma StepPreservesInv(a: Activity, e: Event)
    requires Inv(a)
    ensures Inv(Step(a, e).post)
  {
    if !e.BootWaitDone? {
      StepIsQuiet(a, e);
    }
  }

  lemma {:induction false} RunPreservesInv(a: Activity, events: seq<Event>)
    requires Inv(a)
    ensures Inv(Run(a, events).post)
    decreases |events|
  {
    if |events| > 0 {
      StepPreservesInv(a, events[0]);
      RunPreservesInv(Step(a, events[0]).post, events[1..]);
    }
  }

  /**
   * Whatever the platform does, at most one frame callback and at most one
   * watchdog run are ever pending, and an armed pump always has a surface.
   */
  lemma AtMostOneCallbackPending(events: seq<Event>)
    ensures Run(Initial, events).post.pendingFrames <= 1
    ensures Run(Initial, events).post.watchdogPending <= 1
    ensures Run(Initial, events).post.pumpEnabled ==> Run(Initial, events).post.surface.Some?
  {
    RunPreservesInv(Initial, events);
  }

  /** A new surface is never the one it replaces. */
  lemma NewSurfaceIsFresh(a: Activity, path: string, dpi: Dpi, rate: int)
    requires Inv(a) && a.surface.Some?
    ensures SurfaceAvailable(a, path, dpi, rate).post.surface != a.surface
  {
  }

  /** The end of the boot wait spends the whole budget, and records a failure exactly when it exits. */
  lemma BootWaitOutcome(a: Activity, success: bool)
    requires a.phase == WaitingForBoot
    ensures var t := BootWaitReturned(a, success);
      && Count(t.cmds, HideLoading) + Count(t.cmds, Exit(0)) + OutcomeBudget(t.post.phase) <= OutcomeBudget(a.phase)
      && Count(t.cmds, TrackBootFailure) == Count(t.cmds, Exit(0))
  {
    if success { BootWaitSucceeds(a); } else { BootWaitFails(a); }
  }

  lemma BootWaitSucceeds(a: Activity)
    ensures var t := BootWaitReturned(a, true);
      && Count(t.cmds, HideLoading) == 1 && Count(t.cmds, Exit(0)) == 0 && Count(t.cmds, TrackBootFailure) == 0
      && t.post.phase == Ready
  {
    assert BootWaitReturned(a, true).cmds == [HideLoading];
  }

  lemma BootWaitFails(a: Activity)
    ensures var t := BootWaitReturned(a, false);
      && Count(t.cmds, HideLoading) == 0 && Count(t.cmds, Exit(0)) == 1 && Count(t.cmds, TrackBootFailure) == 1
      && t.post.phase == Exited
  {
  }

  /** A quiet step neither hides the loading screen nor records a failure nor exits. */
  lemma QuietStepOutcome(a: Activity, t: Transition)
    requires QuietStep(a, t)
    ensures Count(t.cmds, HideLoading) + Count(t.cmds, Exit(0)) + OutcomeBudget(t.post.phase) <= OutcomeBudget(a.phase)
    ensures Count(t.cmds, TrackBootFailure) == Count(t.cmds, Exit(0))
  {
  }

  /** One event spends at most the budget it takes from the phase, and records a failure exactly when it exits. */
  lemma StepOutcome(a: Activity, e: Event)
    ensures Count(Step(a, e).cmds, HideLoading) + Count(Step(a, e).cmds, Exit(0)) + OutcomeBudget(Step(a, e).post.phase)
            <= OutcomeBudget(a.phase)
    ensures Count(Step(a, e).cmds, TrackBootFailure) == Count(Step(a, e).cmds, Exit(0))
  {
    if !e.BootWaitDone? {
      StepIsQuiet(a, e);
      QuietStepOutcome(a, Step(a, e));
    } else if !Finished(a) && a.phase == WaitingForBoot {
      BootWaitOutcome(a, e.success);
    }
  }

  /**
   * Over any sequence of events from `a`, the loading screen is hidden or
   * the process exits at most as often as the phase still allows, and every
   * exit is accompanied by exactly one boot-failure record.
   */
  lemma {:induction false} RunOutcome(a: Activity, events: seq<Event>)
    ensures Count(Run(a, events).cmds, HideLoading) + Count(Run(a, events).cmds, Exit(0)) + OutcomeBudget(Run(a, events).post.phase)
            <= OutcomeBudget(a.phase)
    ensures Count(Run(a, events).cmds, TrackBootFailure) == Count(Run(a, events).cmds, Exit(0))
    decreases |events|
  {
    if |events| > 0 {
      var first := Step(a, events[0]);
      var rest := Run(first.post, events[1..]);
      StepOutcome(a, events[0]);
      RunOutcome(first.post, events[1..]);
      assert multiset(first.cmds + rest.cmds) == multiset(first.cmds) + multiset(rest.cmds);
    }
  }

  /**
   * From a fresh activity, a run either reaches the ready screen or
   * terminates the process, never both and neither more than once; and
   * termination always comes with exactly one failure record.
   */
  lemma BootOutcomeExclusive(events: seq<Event>)
    ensures Count(Run(Initial, events).cmds, HideLoading) + Count(Run(Initial, events).cmds, Exit(0)) <= 1
    ensures Count(Run(Initial, events).cmds, TrackBootFailure) == Count(Run(Initial, events).cmds, Exit(0))
  {
    RunOutcome(Initial, events);
  }

  /** A run is its first step followed by the run of the remaining events. */
  lemma RunCons(a: Activity, e: Event, rest: seq<Event>)
    ensures Run(a, [e] + rest).post == Run(Step(a, e).post, rest).post
    ensures Run(a, [e] + rest).cmds == Step(a, e).cmds + Run(Step(a, e).post, rest).cmds
  {
    assert ([e] + rest)[0] == e;
    assert ([e] + rest)[1..] == rest;
  }

  /**
   * A first boot that has to extract the root filesystem: the activity is
   * created, resumed and focused, extraction runs and finishes, the root
   * filesystem is initialised, and only then is the texture view attached.
   */
  const FirstBootPrefix: seq<Event> :=
    [Create(false, []), Resume([]), FocusChanged(true, []), BootDecision(RomFlags(false, false, false, false)),
     ExtractionDone, RootfsReady]

  /** The activity after each event of the first-boot prefix. */
  const AfterCreate: Activity := Initial.(phase := AwaitingDecision, rootView := true, textureView := true)
  const AfterResume: Activity := AfterCreate.(watchdogPending := 1)
  const AfterFocus: Activity := AfterResume.(focused := true)
  const AfterDecision: Activity := AfterFocus.(phase := Extracting, extracting := true, pendingTips := StagedTips)
  const AfterRootfsInit: Activity := AfterDecision.(extracting := false)
  const AfterExtraction: Activity := AfterRootfsInit.(phase := WaitingForBoot, textureAttached := true)

  lemma CreateStep()
    ensures Step(Initial, Create(false, [])).post == AfterCreate
  {
    assert Step(Initial, Create(false, [])) == OnCreate(Initial, false, []);
  }

  lemma ResumeStep()
    ensures Step(AfterCreate, Resume([])).post == AfterResume
  {
    assert Step(AfterCreate, Resume([])) == OnResume(AfterCreate, []);
  }

  lemma FocusStep()
    ensures Step(AfterResume, FocusChanged(true, [])).post == AfterFocus
  {
    assert Step(AfterResume, FocusChanged(true, [])) == OnFocusChanged(AfterResume, true, []);
  }

  lemma DecisionStep()
    ensures Step(AfterFocus, BootDecision(RomFlags(false, false, false, false))).post == AfterDecision
  {
    assert Step(AfterFocus, BootDecision(RomFlags(false, false, false, false)))
        == BootSystem(AfterFocus, RomFlags(false, false, false, false));
  }

  lemma ExtractionStep()
    ensures Step(AfterDecision, ExtractionDone).post == AfterRootfsInit
  {
    assert Step(AfterDecision, ExtractionDone) == ExtractionFinished(AfterDecision);
  }

  lemma RootfsStep()
    ensures Step(AfterRootfsInit, RootfsReady).post == AfterExtraction
  {
    assert Step(AfterRootfsInit, RootfsReady) == AttachAndWait(AfterRootfsInit);
  }

  /** Where the first-boot prefix leaves the activity: focused and attached, with no surface and the pump off. */
  lemma FirstBootPrefixState()
    ensures Run(Initial, FirstBootPrefix).post == AfterExtraction
    ensures AfterExtraction.focused && AfterExtraction.textureAttached && AfterExtraction.surface.None?
    ensures !AfterExtraction.pumpEnabled && AfterExtraction.pendingFrames == 0 && Inv(AfterExtraction)
  {
    RunAfterPrefixOf([]);
    assert FirstBootPrefix + [] == FirstBootPrefix;
  }

  /** Events after the first-boot prefix run from the state the prefix leaves. */
  lemma RunAfterPrefixOf(later: seq<Event>)
    ensures Run(Initial, FirstBootPrefix + later).post == Run(AfterExtraction, later).post
  {
    var flags := RomFlags(false, false, false, false);
    var e5 := [RootfsReady] + later;
    var e4 := [ExtractionDone] + e5;
    var e3 := [BootDecision(flags)] + e4;
    var e2 := [FocusChanged(true, [])] + e3;
    var e1 := [Resume([])] + e2;
    PrefixSplit(later);
    RunFromCreate(e1);
    RunFromResume(e2);
    RunFromFocus(e3);
    RunFromDecision(e4);
    RunFromExtraction(e5);
    RunFromRootfs(later);
  }

  lemma PrefixSplit(later: seq<Event>)
    ensures FirstBootPrefix + later
         == [Create(false, [])] + ([Resume([])] + ([FocusChanged(true, [])]
            + ([BootDecision(RomFlags(false, false, false, false))] + ([ExtractionDone] + ([RootfsReady] + later)))))
  {
  }

  lemma RunFromCreate(rest: seq<Event>)
    ensures Run(Initial, [Create(false, [])] + rest).post == Run(AfterCreate, rest).post
  {
    RunCons(Initial, Create(false, []), rest);
    CreateStep();
  }

  lemma RunFromResume(rest: seq<Event>)
    ensures Run(AfterCreate, [Resume([])] + rest).post == Run(AfterResume, rest).post
  {
    RunCons(AfterCreate, Resume([]), rest);
    ResumeStep();
  }

  lemma RunFromFocus(rest: seq<Event>)
    ensures Run(AfterResume, [FocusChanged(true, [])] + rest).post == Run(AfterFocus, rest).post
  {
    RunCons(AfterResume, FocusChanged(true, []), rest);
    FocusStep();
  }

  lemma RunFromDecision(rest: seq<Event>)
    ensures Run(AfterFocus, [BootDecision(RomFlags(false, false, false, false))] + rest).post == Run(AfterDecision, rest).post
  {
    RunCons(AfterFocus, BootDecision(RomFlags(false, false, false, false)), rest);
    DecisionStep();
  }

  lemma RunFromExtraction(rest: seq<Event>)
    ensures Run(AfterDecision, [ExtractionDone] + rest).post == Run(AfterRootfsInit, rest).post
  {
    RunCons(AfterDecision, ExtractionDone, rest);
    ExtractionStep();
  }

  lemma RunFromRootfs(rest: seq<Event>)
    ensures Run(AfterRootfsInit, [RootfsReady] + rest).post == Run(AfterExtraction, rest).post
  {
    RunCons(AfterRootfsInit, RootfsReady, rest);
    RootfsStep();
  }

  /**
   * As written, the surface that arrives after a first-boot extraction is
   * initialised but never repainted: the window already has focus, so no
   * focus change will start the pump, and `onSurfaceTextureAvailable` does
   * not start it either. Until the next resume, focus change or watchdog
   * reinit, no display frame issues a repaint.
   */
  lemma FirstBootSurfaceIsNotPumped(path: string, dpi: Dpi, rate: int, outcomes: seq<bool>)
    ensures var p := Run(Initial, FirstBootPrefix + [SurfaceTextureAvailable(path, dpi, rate)]).post;
      && p.focused && p.surface.Some? && !p.pumpEnabled && p.pendingFrames == 0
      && Count(Ticks(p, outcomes).cmds, Repaint) == 0
  {
    var e := SurfaceTextureAvailable(path, dpi, rate);
    RunAfterPrefixOf([e]);
    RunOne(AfterExtraction, e);
    AvailableAfterExtraction(path, dpi, rate);
    DisabledPumpStaysSilent(Step(AfterExtraction, e).post, outcomes);
  }

  lemma RunOne(a: Activity, e: Event)
    ensures Run(a, [e]).post == Step(a, e).post
  {
    assert [e][1..] == [];
  }

  /** The surface arriving after the first-boot prefix is installed without arming the pump. */
  lemma AvailableAfterExtraction(path: string, dpi: Dpi, rate: int)
    ensures var p := Step(AfterExtraction, SurfaceTextureAvailable(path, dpi, rate)).post;
      p.focused && p.surface.Some? && !p.pumpEnabled && p.pendingFrames == 0
  {
    assert Step(AfterExtraction, SurfaceTextureAvailable(path, dpi, rate))
        == SurfaceAvailable(AfterExtraction, path, dpi, rate);
  }

  /** With the corrected handler in its place, the same first boot repaints the new surface on the next frame. */
  lemma FirstBootSurfaceIsPumpedWhenCorrected(path: string, dpi: Dpi, rate: int, repaintOk: bool)
    ensures var t := SurfaceAvailableStartingPump(Run(Initial, FirstBootPrefix).post, path, dpi, rate);
      t.post.surface.Some? && t.post.pumpEnabled && Count(VsyncTick(t.post, repaintOk).cmds, Repaint) == 1
  {
    FirstBootPrefixState();
    FocusedSurfaceIsRepainted(AfterExtraction, path, dpi, rate, repaintOk);
  }

  /**
   * When the guest system is already running, creation only finishes the
   * activity and reboots, and nothing follows. That nothing follows a
   * `finish()` is an assumption of the model about the Android lifecycle
   * (`Step` ignores every event once the activity has finished), not a fact
   * derived from the activity's own code.
   */
  lemma AlreadyStartedRedirects(modes: seq<Mode>, later: seq<Event>)
    ensures Run(Initial, [Create(true, modes)] + later).cmds == [Finish, Reboot]
  {
    var events := [Create(true, modes)] + later;
    assert events[1..] == later;
    var a := Step(Initial, events[0]).post;
    assert Finished(a);
    FinishedIsSilent(a, later);
  }

  /**
   * A finished activity stays silent. This holds by the dispatcher's
   * construction: after `finish()` or `System.exit` the model assumes the
   * platform delivers no further callbacks to the activity.
   */
  lemma {:induction false} FinishedIsSilent(a: Activity, events: seq<Event>)
    requires Finished(a)
    ensures Run(a, events) == Transition(a, [])
    decreases |events|
  {
    if |events| > 0 {
      FinishedIsSilent(a, events[1..]);
    }
  }
}
