# Render2Activity control logic in Dafny

This project models the control logic of `Render2Activity`, the Android
activity that shows the guest system's screen. The activity does four jobs:

- it drives the native renderer through a texture view's surface;
- it paces repaints with a vsync pump;
- it watches the display for refresh-rate switches;
- it orchestrates the boot of the guest system.

The model is functional. An immutable `Activity` record holds the fields the
handlers read and write. Every handler is a pure function from that record to
a `Transition`: the record afterwards plus the sequence of `Command`s the
handler issued. Those commands go to the renderer, the frame-callback
scheduler, the view's message queue, the status beacon, the root-filesystem
manager and the process. `RenderActivity.Step` dispatches one platform
callback (an `Event`), and `RenderActivity.Run` folds a sequence of events
into a final record and a command trace.

The modules are:

- `RenderTypes`: the state record, the commands, and trace helpers.
- `FrameRate`: rounding and clamping a refresh rate into the renderer's target fps.
- `VsyncPump`: `startVsyncPump`, `stopVsyncPump`, and the frame callback.
- `RefreshWatchdog`: the once-a-second refresh-rate watchdog.
- `SurfaceLifecycle`: the texture view's surface listener.
- `DisplayModes`: the display-mode choice of `requestHighRefreshDisplayMode`.
- `BootFlow`: the already-started guard, the extraction decision, the staged
  tips, and the boot wait's outcome.
- `RenderActivity`: `onResume`, `onPause` and `onWindowFocusChanged`, the
  event dispatcher, and the whole-run properties.

Modelling conventions:

- **Refresh rates.** Refresh rates are integers in milli-Hz.
  - The 1.0 Hz switch threshold is 1000.
  - The 119.5 Hz "high refresh" bound is 119500.
  - The initial baseline `-1f` is -1000. It is compared with 0 (`< 0`), as the code does.
  - `Math.round` of a rate is `(m + 500) / 1000`. Dafny's `/` by a positive divisor floors, so this is `floor(x + 0.5)`, as Java's rounding is.
- **Mode area.** The mode picker compares `width * height` as Java `int`s. The model reduces the product to 32-bit two's complement explicitly (`DisplayModes.JavaInt`).
- **Scheduling queues.** The Choreographer queue and the root view's queue are counted (`pendingFrames`, `watchdogPending`). `removeFrameCallback` and `removeCallbacks` drop every pending copy.
- **Surfaces.** Each `new Surface(...)` gets a fresh identity (`nextSurface`).
- **Foreign calls become parameters.**
  - A repaint's success (`repaintOk`) and a watchdog `Init`'s success (`initOk`).
  - The rate the display reports.
  - The texture view's size.
  - The loader path and DPI.
  - The four ROM flags.
  - Whether the guest system is already started.
  - The display's mode list.
  - The boot wait's result.
- **Event gating.** `Step` only delivers an event the platform can deliver in that state:
  - the surface listener only runs while the texture view is attached (`addView` in `bootSystem` or after extraction);
  - a vsync or watchdog run only happens while a copy of it is pending;
  - the boot stages only advance from the stage that starts them, and the texture view is attached after extraction only once the extraction task has cleared its in-progress flag;
  - nothing runs after the activity has redirected (`finish` plus reboot) or exited.

Three behaviours of the code worth knowing:

- **Target fps.** `clampFps` maps fps below 30 to 60 and caps at 240. Values from 30 to 59 pass through unchanged, so the target range is [30, 240], not [60, 240] (`FrameRate.ClampFps`, `FrameRate.TargetFpsBands`).
- **Watchdog baseline.** On a detected switch, the watchdog sets the baseline before it calls the renderer. The baseline therefore moves even when `Init` throws, not only after a successful reinit. As a consequence, a failed reinit is not retried while the display stays at the new rate (`RefreshWatchdog.FailedReinitIsNotRetried`).
- **Failed repaints.** After a failed repaint the pump stays disarmed, and `mVsyncPumpEnabled` is `false`. The next `startVsyncPump` re-arms it (`VsyncPump.RepaintFailureDisarms`).

`onSurfaceTextureAvailable` initialises the renderer but does not start the
vsync pump; the consequence is recorded under "## Findings".

## Model

| member | source | states |
|---|---|---|
| FrameRate.RoundHz | app/src/main/java/io/twoyi/Render2Activity.java:127 | The rounded rate is the whole number of Hz within half a hertz of the reported rate. |
| FrameRate.ClampFps | app/src/main/java/io/twoyi/Render2Activity.java:398-402 | The result is always in [30, 240]. Inputs below 30 give 60, inputs above 240 give 240, and 30..240 pass through unchanged. |
| FrameRate.TargetFpsBands | app/src/main/java/io/twoyi/Render2Activity.java:175-177 | For a reported rate in milli-Hz: below 29.5 Hz the target is 60, from 240.5 Hz up it is 240, and in between it is the nearest whole Hz. |
| BootFlow.ShouldExtractRom | app/src/main/java/io/twoyi/Render2Activity.java:283-288 | Extraction is required iff not (ROM exists, no forced reinstall, and either a third-party ROM is used or the factory ROM is not updated). A missing ROM or a forced reinstall always extracts. An existing third-party ROM without a force never extracts. |
| VsyncPump.StartPump | app/src/main/java/io/twoyi/Render2Activity.java:92-99 | Is a no-op when the pump is already enabled or there is no surface. Otherwise it enables the pump and posts exactly one frame callback. Only pump fields change, and the pump invariant is kept. |
| VsyncPump.StopPump | app/src/main/java/io/twoyi/Render2Activity.java:101-108 | Always leaves the pump disabled. Is a no-op when disabled. When enabled, it withdraws the frame callback and leaves none pending. |
| VsyncPump.FrameCallback | app/src/main/java/io/twoyi/Render2Activity.java:76-90 | When disabled it issues nothing. When enabled the trace is exactly the repaint, followed by one re-post only when the repaint succeeded. On success it stays enabled. On failure it disables itself. Only pump fields change. |
| VsyncPump.VsyncTick | app/src/main/java/io/twoyi/Render2Activity.java:76-90 | A frame repaints exactly when a callback is pending and the pump is enabled. A pending callback issues exactly its own commands: nothing when the pump is off, otherwise the repaint followed by the re-post only when the repaint succeeded. The pump invariant (at most one pending callback, one pending iff enabled, enabled implies a surface) is preserved. |
| VsyncPump.StartPumpIdempotent | app/src/main/java/io/twoyi/Render2Activity.java:92-93 | Starting an already started pump emits nothing and changes nothing. |
| VsyncPump.StopPumpIdempotent | app/src/main/java/io/twoyi/Render2Activity.java:101-102 | Stopping twice equals stopping once, and stopping a never-started pump is harmless. |
| VsyncPump.DisabledPumpStaysSilent | app/src/main/java/io/twoyi/Render2Activity.java:79 | Over any number of frames, a disabled pump issues no repaint and posts no callback, even with a stale callback pending. |
| VsyncPump.OneRepaintPerFrame | app/src/main/java/io/twoyi/Render2Activity.java:80-88 | While repaints succeed, an armed pump issues exactly n repaints in n frames and stays armed with one callback pending. |
| VsyncPump.RepaintFailureDisarms | app/src/main/java/io/twoyi/Render2Activity.java:82-86 | After a failed repaint, no further repaint is issued however many frames follow, and the pump stays disabled. |
| RefreshWatchdog.Reinit | app/src/main/java/io/twoyi/Render2Activity.java:126-134 | The baseline becomes the new rate. `removeWindow` comes first, then `Init` at the clamped rounded fps. On success the trace is exactly remove, `Init`, the pump's single post (only when the pump was off), and the resize last. On failure nothing follows `Init`. No repaint and no re-post are issued. |
| RefreshWatchdog.GuardedRun | app/src/main/java/io/twoyi/Render2Activity.java:119-139 | `Init` is issued iff surface, texture view and loader path exist and the rate differs from the baseline by more than 1.0 Hz. Without a baseline, or without a switch, nothing is emitted. On a switch the baseline is the new rate whether or not `Init` succeeds. The pump restarts only after a successful `Init`. |
| RefreshWatchdog.GuardedRunFrame | app/src/main/java/io/twoyi/Render2Activity.java:119-139 | The guarded body changes nothing but the baseline and the pump, keeps the pump invariant, and never ends the boot flow. |
| RefreshWatchdog.WatchdogRun | app/src/main/java/io/twoyi/Render2Activity.java:116-145 | A whole run issues `Init` iff a switch is detected. It adds one pending watchdog iff the root view exists. |
| RefreshWatchdog.WatchdogReposts | app/src/main/java/io/twoyi/Render2Activity.java:137-143 | Whatever the renderer does, the run re-posts itself after 1000 ms exactly once and last iff the root view exists. |
| RefreshWatchdog.WatchdogRemovesBeforeInit | app/src/main/java/io/twoyi/Render2Activity.java:131-132 | On a detected switch, `removeWindow` of the current surface precedes the new `Init` at the target fps. |
| RefreshWatchdog.WatchdogQuietRun | app/src/main/java/io/twoyi/Render2Activity.java:120-125 | Without a switch, a run only re-posts itself and changes nothing but the baseline and the watchdog queue. |
| RefreshWatchdog.WatchdogRunFrame | app/src/main/java/io/twoyi/Render2Activity.java:116-145 | A run changes only the baseline, the pump and the watchdog queue. It keeps the pump invariant and never hides the loading screen, records a boot failure or exits. |
| RefreshWatchdog.WatchdogNeverRepaints | app/src/main/java/io/twoyi/Render2Activity.java:116-145 | A watchdog run never repaints. |
| RefreshWatchdog.JitterNeverReinits | app/src/main/java/io/twoyi/Render2Activity.java:122-125 | While every observed rate stays within 1.0 Hz of an established baseline, any number of runs issue no `Init` and leave the baseline unchanged. |
| RefreshWatchdog.JitterThenSwitch | app/src/main/java/io/twoyi/Render2Activity.java:122-132 | Readings of 120.4, 119.7 and 121.0 Hz against 120.0 Hz cause no reinit. A following 90.0 Hz reading removes the window, issues exactly one `Init` at 90 fps, and becomes the baseline. |
| RefreshWatchdog.WatchdogSingleInit | app/src/main/java/io/twoyi/Render2Activity.java:119-143 | A run issues at most one `Init`, only on a detected switch, and always as its second command. |
| RefreshWatchdog.RunsFrame | app/src/main/java/io/twoyi/Render2Activity.java:116-145 | Any number of runs change only the baseline, the pump and the watchdog queue. |
| RefreshWatchdog.FailedReinitIsNotRetried | app/src/main/java/io/twoyi/Render2Activity.java:125-132 | After a switch whose `Init` throws, the baseline is already the new rate, so the next run at that rate issues no `Init`. |
| SurfaceLifecycle.SurfaceAvailable | app/src/main/java/io/twoyi/Render2Activity.java:158-181 | Any previous surface is removed and released before the single `Init` on a fresh surface. The fps is in [30, 240]. The baseline becomes the reported rate. Loader path and DPI are cached. Nothing else changes. |
| SurfaceLifecycle.Teardown | app/src/main/java/io/twoyi/Render2Activity.java:159-162 | An absent surface emits nothing. A present surface's renderer window is removed first, then the surface is released. The same teardown ends `onSurfaceTextureDestroyed` (lines 196-199). |
| SurfaceLifecycle.SurfaceSizeChanged | app/src/main/java/io/twoyi/Render2Activity.java:187-191 | Without a surface it is a no-op. Otherwise it emits one `resetWindow` to the texture view's size. The state is unchanged either way. |
| SurfaceLifecycle.SurfaceDestroyed | app/src/main/java/io/twoyi/Render2Activity.java:194-204 | The pump is stopped, then the surface is torn down. The surface ends null and the pump disabled, with no frame callback pending under the pump invariant. |
| SurfaceLifecycle.DestroyStopsPumpFirst | app/src/main/java/io/twoyi/Render2Activity.java:195-199 | In the destroy trace, withdrawing the frame callback precedes every `removeWindow` and `release`. |
| SurfaceLifecycle.NoRepaintAfterDestroy | app/src/main/java/io/twoyi/Render2Activity.java:195 | After destruction no repaint is issued over any number of frames. |
| DisplayModes.JavaInt | app/src/main/java/io/twoyi/Render2Activity.java:420-421 | The 32-bit `int` value of an area is in range, congruent to the true product modulo 2^32, and equal to it when it fits. |
| DisplayModes.BestHigh | app/src/main/java/io/twoyi/Render2Activity.java:416-425 | The first scan finds a mode iff some mode is at 119.5 Hz or more. Its choice is such a mode of maximal area, and every earlier such mode has a strictly smaller area. |
| DisplayModes.Fastest | app/src/main/java/io/twoyi/Render2Activity.java:428-434 | The fallback scan finds a mode iff the list is non-empty. Its choice has the maximal refresh rate, and every earlier mode is strictly slower. |
| DisplayModes.PickMode | app/src/main/java/io/twoyi/Render2Activity.java:413-434 | A mode is chosen iff the list is non-empty, and the choice meets the preference: the largest-area high mode if any exists, else the fastest mode, with the first winning ties. |
| DisplayModes.PreferredChoiceUnique | app/src/main/java/io/twoyi/Render2Activity.java:416-434 | At most one index meets the preference, because ties go to the first mode. |
| DisplayModes.PickModeCharacterized | app/src/main/java/io/twoyi/Render2Activity.java:413-434 | The picker chooses index i iff i meets the preference. |
| DisplayModes.RequestHighRefreshDisplayMode | app/src/main/java/io/twoyi/Render2Activity.java:408-447 | An empty mode list leaves the window attributes alone. Otherwise exactly one attribute update sets the preferred mode id to the chosen mode's. |
| BootFlow.OnCreate | app/src/main/java/io/twoyi/Render2Activity.java:213-251 | When the guest is already started: only `finish` then reboot, and the activity is finished. Otherwise: the status is reset first, then the display mode is requested, with no reboot or finish. The views exist, the boot decision is awaited, and nothing but the phase and the views changes. |
| BootFlow.BootSystem | app/src/main/java/io/twoyi/Render2Activity.java:282-311 | Extraction starts exactly once iff it is required. The extraction trace is exactly the first tip, then the start of extraction, with the staged tips pending: the view is not attached and the boot wait has not begun. Otherwise the texture view is attached and the boot wait begins at once. Either way nothing else changes. |
| BootFlow.ExtractionFinished | app/src/main/java/io/twoyi/Render2Activity.java:296-300 | When extraction returns, the in-progress flag is cleared and then the root filesystem is initialised. The view is not attached yet, and nothing else changes. |
| BootFlow.NoTipAfterExtraction | app/src/main/java/io/twoyi/Render2Activity.java:298-330 | A staged tip that comes due after extraction has returned, while the root filesystem is still being initialised, shows nothing. Its timer is consumed. |
| BootFlow.AttachAndWait | app/src/main/java/io/twoyi/Render2Activity.java:302-309 | The texture view is attached, and only then does the boot wait begin. Only the phase and the attachment change. |
| BootFlow.ShowBootingProcedure | app/src/main/java/io/twoyi/Render2Activity.java:334-340 | Starting the boot wait issues exactly one bounded wait of 15 s and moves only the phase to waiting for boot. |
| BootFlow.TipTimer | app/src/main/java/io/twoyi/Render2Activity.java:313-332 | A staged tip is shown, once, only if its timer is pending and extraction is still running. The timer is consumed and nothing else changes. |
| BootFlow.BootWaitReturned | app/src/main/java/io/twoyi/Render2Activity.java:334-359 | Success only hides the loading screen. Failure emits exactly the failure record, the notice, the 3 s sleep, `finish` and the exit with 0, in that order. It never hides the loading screen and it ends the activity. Nothing but the phase changes. |
| RenderActivity.OnResume | app/src/main/java/io/twoyi/Render2Activity.java:254-262 | With a root view the trace is exactly: the display mode request, the watchdog cancel and its re-post after 1000 ms, then a frame-callback post only when the pump was off and a surface exists. Exactly one watchdog is pending and the pump is enabled iff it was or a surface exists. Nothing else changes. Without a root view: only the display mode request, and the state is unchanged. |
| RenderActivity.OnPause | app/src/main/java/io/twoyi/Render2Activity.java:265-271 | The pump ends disabled. The trace is exactly the frame-callback withdrawal when the pump ran, then the watchdog cancel when the root view exists. Nothing is posted or repainted, and nothing but the pump and the watchdog queue changes. |
| RenderActivity.OnFocusChanged | app/src/main/java/io/twoyi/Render2Activity.java:363-376 | The focus flag follows the event. Gaining focus emits exactly the display mode request, a frame-callback post only when the pump was off and a surface exists, then the visibility update. Losing focus emits the callback withdrawal only when the pump ran, then the visibility update. Apart from the focus flag, only pump fields change. |
| RenderActivity.InitialInv | app/src/main/java/io/twoyi/Render2Activity.java:68-74 | A fresh activity satisfies the invariant. |
| RenderActivity.StepIsQuiet | app/src/main/java/io/twoyi/Render2Activity.java:116-376 | Every event except the end of the boot wait preserves the invariant. It never hides the loading screen, records a failure or exits, and never reopens a boot outcome: the number of boot outcomes still open to the phase never grows. |
| RenderActivity.StepPreservesInv | app/src/main/java/io/twoyi/Render2Activity.java:76-376 | Every event preserves the invariant: pump invariant, at most one pending watchdog and only with a root view, surfaces below the next fresh identity, and an attached texture view only once views exist. |
| RenderActivity.RunPreservesInv | app/src/main/java/io/twoyi/Render2Activity.java:76-376 | Any event sequence preserves the invariant. |
| RenderActivity.AtMostOneCallbackPending | app/src/main/java/io/twoyi/Render2Activity.java:88-97 | From a fresh activity, whatever the platform does, at most one frame callback and one watchdog run are pending, and an armed pump has a surface. |
| RenderActivity.NewSurfaceIsFresh | app/src/main/java/io/twoyi/Render2Activity.java:159-165 | A new surface is never the one it replaces. |
| RenderActivity.StepOutcome | app/src/main/java/io/twoyi/Render2Activity.java:334-360 | One event hides the loading screen or exits at most as often as its phase allows, and records a failure exactly when it exits. |
| RenderActivity.RunOutcome | app/src/main/java/io/twoyi/Render2Activity.java:334-360 | The same holds over any event sequence from any state. |
| RenderActivity.BootOutcomeExclusive | app/src/main/java/io/twoyi/Render2Activity.java:344-358 | From a fresh activity, a run reaches the ready screen or terminates the process, never both and never more than once, and every exit comes with exactly one boot-failure record. |
| RenderActivity.AlreadyStartedRedirects | app/src/main/java/io/twoyi/Render2Activity.java:214-221 | When the guest is already started, creation emits only `finish` and reboot, and no later event emits anything. |
| RenderActivity.FinishedIsSilent | app/src/main/java/io/twoyi/Render2Activity.java:217-221 | Once the activity has redirected or exited, no event changes anything or emits anything. This holds by the dispatcher's construction, which assumes that Android delivers no callbacks after `finish()` or `System.exit`. |
| RenderActivity.RunCons | app/src/main/java/io/twoyi/Render2Activity.java:76-376 | A run of events is its first step followed by the run of the rest, both in state and in trace. |
| RenderActivity.FirstBootPrefixState | app/src/main/java/io/twoyi/Render2Activity.java:213-311 | Create, resume, focus, an extracting boot decision, the end of extraction and the attach after the root filesystem is initialised leave the activity focused, attached and waiting for boot, with no surface and the pump off. |
| RenderActivity.FirstBootSurfaceIsNotPumped | app/src/main/java/io/twoyi/Render2Activity.java:149-184 | After that first boot, the arriving surface is installed while the window has focus, yet the pump stays off with no callback pending, and no display frame issues a repaint. |
| RenderActivity.FirstBootSurfaceIsPumpedWhenCorrected | app/src/main/java/io/twoyi/Render2Activity.java:149-184 | With the corrected handler the same surface arms the pump, and the next display frame repaints it. |
| SurfaceLifecycle.SurfaceAvailableStartingPump | app/src/main/java/io/twoyi/Render2Activity.java:158-181 | The corrected handler emits exactly the code's trace, followed by one frame-callback post when the window has focus and the pump was off. It leaves the pump enabled iff it was enabled or the window has focus. Its state otherwise matches the code's handler, and it keeps the pump invariant. |
| SurfaceLifecycle.StartingPumpInitsFirst | app/src/main/java/io/twoyi/Render2Activity.java:158-181 | The corrected handler's trace begins with the code's teardown and `Init`, unchanged. |
| SurfaceLifecycle.FocusedSurfaceIsRepainted | app/src/main/java/io/twoyi/Render2Activity.java:158-181 | With the corrected handler, a focused window's new surface is live, the pump is armed, and the next frame repaints exactly once. |

## Findings

| source | as written | input that shows it | evidently intended | confidence | as-written member | corrected member |
|---|---|---|---|---|---|---|
| app/src/main/java/io/twoyi/Render2Activity.java:149-184 | `onSurfaceTextureAvailable` calls `Renderer.init` but never `startVsyncPump`, so a surface that arrives after focus was gained is not repainted. | A first boot that extracts: create, resume, focus gained, extraction, extraction done, root filesystem ready, then the surface arrives. The window has focus and a live surface, but the pump is off and no frame repaints. | The pump runs whenever the window has focus and a surface is live, so the handler starts the pump after `Init`. | medium; not executed | RenderActivity.FirstBootSurfaceIsNotPumped | SurfaceLifecycle.SurfaceAvailableStartingPump |

The event dispatcher `RenderActivity.Step` keeps the code's handler, so every
whole-run property describes the activity as written. The corrected handler
and its properties (`SurfaceLifecycle.FocusedSurfaceIsRepainted`,
`RenderActivity.FirstBootSurfaceIsPumpedWhenCorrected`) stand beside it.

## Left out

- Android views, layout, visibility toggling, the loading animation, `Toast`, `NavUtils.hideNavigation`, `FLAG_KEEP_SCREEN_ON`, `UITips` and logging are left out. They are UI plumbing with no state the handlers read. `UITips.checkForAndroid12` is taken to call `bootSystem`, which is the `BootDecision` event.
- Threads and timers are left out: Choreographer timing, `postDelayed` delays, the `extract-rom` and `waiting-boot` threads, and the `runOnUiThread` hops. Each callback is one atomic event, and the interleavings are whatever order the events arrive in.
- The race between the extraction thread setting `mIsExtracting` and the 5/10/15 s tip timers is not modelled. The flag is taken to be set when extraction starts.
- `BootFlow.BootWaitReturned` collapses the failure path into one step: failure record, notice, `SystemClock.sleep(3000)`, `finish()`, `System.exit(0)`. The 3 s window between the record and the exit is not split into events.
- The native `Renderer` calls, `RomManager`, `AppKV`, `TwoyiStatusManager` and `LogEvents` are foreign code. They appear only as emitted commands and as the parameters listed above.
- An exception thrown by `Renderer.init` or `resetWindow` inside the surface listener would propagate out of the callback and crash the process. That path is not modelled: the model assumes those calls return normally there.
- An exception from `resetWindow` in the watchdog is not modelled either. The command is emitted and the state is the same as on success.
- The `try`/`catch` around `removeFrameCallback` is not modelled: the withdrawal is taken to succeed.
- `surfaceTexture.setDefaultBufferSize` and `setOpaque` are best-effort view calls with no effect on the handlers' state, so they are left out.
- `getLoaderPath` returning null is not modelled: the loader path is a plain string.
- DPI values are opaque integers, not floats.
- Refresh rates use integer milli-Hz rather than the exact float semantics of `getRefreshRate`, `Math.abs` and `Math.round`.
- `RenderActivity.OnFocusChanged` does not model `hideNavigation`.
- The activity's `focused` flag has no field in the code. It records the last `onWindowFocusChanged` argument, and the code itself reads focus nowhere; the model uses the flag only to state the finding.
- `onRestoreInstanceState`, which also finishes and reboots, is not modelled.
- `onTouch`, `onKeyDown` and `onBackPressed` are not modelled. They forward input to the renderer and do not touch the state.
- `onSurfaceTextureUpdated` is not modelled because it is a no-op.
