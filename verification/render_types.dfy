/**
 * The state record of the rendering activity and the commands it emits.
 *
 * Every handler of the activity is modelled as a pure function from the
 * current `Activity` record to a `Transition`: the record after the handler
 * and the sequence of commands the handler issued to its collaborators (the
 * native renderer, the frame-callback scheduler, the view's message queue,
 * the root-filesystem manager, the status beacon and the process).
 */
module RenderTypes {

  datatype Option<T> = None | Some(value: T)

  /** Identity of one `Surface` object; every `new Surface(...)` gets a fresh one. */
  type SurfaceId = nat

  /** Display densities, passed through to the renderer untouched. */
  datatype Dpi = Dpi(x: int, y: int)

  /** The texture view's current size, as read by `getWidth()` / `getHeight()`. */
  datatype ViewSize = ViewSize(width: int, height: int)

  /** The four facts the extraction decision is computed from. */
  datatype RomFlags = RomFlags(romExist: bool, factoryRomUpdated: bool, forceInstall: bool, use3rdRom: bool)

  datatype Command =
    // native renderer
    | Init(surface: SurfaceId, loaderPath: string, dpi: Dpi, fps: int)
    | RemoveWindow(surface: SurfaceId)
    | ResetWindow(surface: SurfaceId, x: int, y: int, width: int, height: int)
    | Repaint
    // the Surface object itself
    | ReleaseSurface(surface: SurfaceId)
    // frame-callback scheduler (one callback object, the vsync pump's)
    | PostFrameCallback
    | RemoveFrameCallback
    // the root view's message queue (one runnable, the refresh watchdog)
    | PostWatchdog(delayMs: int)
    | RemoveWatchdog
    // window attributes
    | PreferDisplayMode(modeId: int)
    // status beacon
    | ResetStatus
    | UpdateVisibility(hasFocus: bool)
    | AwaitBoot(timeoutSeconds: int)
    // root filesystem
    | ExtractRootfs(flags: RomFlags)
    | InitRootfs
    | Reboot
    // boot user interface
    | AttachTextureView
    | ShowTip(stage: nat)
    | HideLoading
    | BootFailedNotice
    // telemetry and process control
    | TrackBootFailure
    | Sleep(ms: int)
    | Finish
    | Exit(code: int)

  /**
   * Where the boot flow of this activity instance stands. `Redirected` (the
   * already-started guard fired) and `Exited` (the process was terminated
   * after a failed boot) end the activity: no handler runs afterwards.
   */
  datatype BootPhase =
    | NotCreated
    | Redirected
    | AwaitingDecision
    | Extracting
    | WaitingForBoot
    | Ready
    | Exited

  datatype Activity = Activity(
    phase: BootPhase,
    rootView: bool,           // mRootView != null
    textureView: bool,        // mTextureView != null
    textureAttached: bool,    // the texture view was added to the root view
    surface: Option<SurfaceId>,
    nextSurface: SurfaceId,   // identity the next `new Surface(...)` receives
    loaderPath: Option<string>,
    dpi: Dpi,
    lastRefresh: int,         // mLastRefreshRate in milli-Hz; negative means "no baseline"
    pumpEnabled: bool,        // mVsyncPumpEnabled
    pendingFrames: nat,       // posted, not yet run, copies of the frame callback
    watchdogPending: nat,     // posted, not yet run, copies of the refresh watchdog
    extracting: bool,         // mIsExtracting
    pendingTips: set<nat>,    // staged first-boot tips still waiting for their timer
    focused: bool)            // the window has input focus, as last reported by onWindowFocusChanged

  datatype Transition = Transition(post: Activity, cmds: seq<Command>)

  /** The field values a freshly constructed activity holds. */
  const NoBaseline: int := -1000

  const Initial: Activity :=
    Activity(NotCreated, false, false, false, None, 0, None, Dpi(0, 0), NoBaseline,
             false, 0, 0, false, {}, false)

  /** How many times `c` occurs in `cmds`. */
  function Count(cmds: seq<Command>, c: Command): nat {
    multiset(cmds)[c]
  }

  /** True when some command in `cmds` is a renderer `Init`. */
  predicate InitIssued(cmds: seq<Command>) {
    exists i :: 0 <= i < |cmds| && cmds[i].Init?
  }

  /** The activity no longer runs any handler. */
  predicate Finished(a: Activity) {
    a.phase == Redirected || a.phase == Exited
  }

  /** `b` differs from `a` at most in the vsync pump's two fields. */
  predicate OnlyPumpChanged(a: Activity, b: Activity) {
    b == a.(pumpEnabled := b.pumpEnabled, pendingFrames := b.pendingFrames)
  }

  /** Commands that mark the end of the boot flow: the ready screen, a failure record, a process exit. */
  predicate IsBootOutcome(c: Command) {
    c.HideLoading? || c.TrackBootFailure? || c.Exit?
  }

  /** None of `cmds` ends the boot flow. */
  predicate NoBootOutcome(cmds: seq<Command>) {
    forall i :: 0 <= i < |cmds| ==> !IsBootOutcome(cmds[i])
  }

  lemma NoBootOutcomeConcat(x: seq<Command>, y: seq<Command>)
    requires NoBootOutcome(x) && NoBootOutcome(y)
    ensures NoBootOutcome(x + y)
  {
  }
}
