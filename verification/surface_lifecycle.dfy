/**
 * The texture view's surface listener: a new surface replaces the old one
 * and (re)initialises the renderer, a size change resizes the renderer's
 * window, and destruction stops the pump before the surface is torn down.
 */
module SurfaceLifecycle {
  import opened RenderTypes
  import opened FrameRate
  import opened VsyncPump

  /** Best-effort teardown of a surface: its renderer window is removed, then the surface is released. */
  function Teardown(surface: Option<SurfaceId>): (cmds: seq<Command>)
    ensures surface.None? ==> cmds == []
    ensures surface.Some? ==> cmds == [RemoveWindow(surface.value), ReleaseSurface(surface.value)]
  {
    match surface
    case None => []
    case Some(s) => [RemoveWindow(s), ReleaseSurface(s)]
  }

  /**
   * `onSurfaceTextureAvailable`. The display reports `refreshMilliHz`;
   * `loaderPath` and `dpi` are what the root-filesystem manager and the
   * display metrics return. The refresh rate becomes the new baseline, and
   * the renderer is initialised once, for the new surface only.
   */
  function SurfaceAvailable(a: Activity, loaderPath: string, dpi: Dpi, refreshMilliHz: int): (t: Transition)
    ensures t.post.surface == Some(a.nextSurface) && t.post.nextSurface == a.nextSurface + 1
    ensures t.post.lastRefresh == refreshMilliHz
    ensures t.post.loaderPath == Some(loaderPath) && t.post.dpi == dpi
    // the old surface is gone before the new one is bound
    ensures t.cmds == Teardown(a.surface) + [Init(a.nextSurface, loaderPath, dpi, TargetFps(refreshMilliHz))]
    ensures MinTrustedFps <= t.cmds[|t.cmds| - 1].fps <= MaxFps
    ensures t.post.(surface := a.surface, nextSurface := a.nextSurface, lastRefresh := a.lastRefresh,
                    loaderPath := a.loaderPath, dpi := a.dpi) == a
  {
    var s := a.nextSurface;
    var fps := TargetFps(refreshMilliHz);
    Transition(
      a.(surface := Some(s), nextSurface := s + 1, loaderPath := Some(loaderPath), dpi := dpi,
         lastRefresh := refreshMilliHz),
      Teardown(a.surface) + [Init(s, loaderPath, dpi, fps)])
  }

  /** `onSurfaceTextureSizeChanged`: resize the renderer's window to the texture view, if there is a surface. */
  function SurfaceSizeChanged(a: Activity, view: ViewSize): (t: Transition)
    ensures t.post == a
    ensures a.surface.None? ==> t.cmds == []
    ensures a.surface.Some? ==> t.cmds == [ResetWindow(a.surface.value, 0, 0, view.width, view.height)]
  {
    match a.surface
    case None => Transition(a, [])
    case Some(s) => Transition(a, [ResetWindow(s, 0, 0, view.width, view.height)])
  }

  /**
   * `onSurfaceTextureDestroyed`: the pump is stopped first, then the
   * surface is torn down and forgotten, whatever the renderer does.
   */
  function SurfaceDestroyed(a: Activity): (t: Transition)
    ensures t.post.surface.None? && !t.post.pumpEnabled
    ensures t.cmds == StopPump(a).cmds + Teardown(a.surface)
    ensures t.post.(surface := a.surface, pumpEnabled := a.pumpEnabled, pendingFrames := a.pendingFrames) == a
    ensures PumpInv(a) ==> PumpInv(t.post) && t.post.pendingFrames == 0
  {
    var stopped := StopPump(a);
    Transition(stopped.post.(surface := None), stopped.cmds + Teardown(a.surface))
  }

  /** On destruction, withdrawing the frame callback precedes every teardown command. */
  lemma DestroyStopsPumpFirst(a: Activity, i: int, j: int)
    requires 0 <= i < |SurfaceDestroyed(a).cmds| && 0 <= j < |SurfaceDestroyed(a).cmds|
    requires SurfaceDestroyed(a).cmds[i] == RemoveFrameCallback
    requires SurfaceDestroyed(a).cmds[j].RemoveWindow? || SurfaceDestroyed(a).cmds[j].ReleaseSurface?
    ensures i < j
  {
  }

  /**
   * Once the surface is destroyed no repaint is issued, however many frames
   * follow, even if a frame callback was already pending when destruction
   * began.
   */
  lemma NoRepaintAfterDestroy(a: Activity, outcomes: seq<bool>)
    ensures Count(Ticks(SurfaceDestroyed(a).post, outcomes).cmds, Repaint) == 0
  {
    DisabledPumpStaysSilent(SurfaceDestroyed(a).post, outcomes);
  }

  /**
   * `onSurfaceTextureAvailable` corrected so that a focused window with a
   * live surface is repainted: after the renderer is initialised on the new
   * surface, the pump is started when the window has focus.
   */
  function SurfaceAvailableStartingPump(a: Activity, loaderPath: string, dpi: Dpi, refreshMilliHz: int): (t: Transition)
    ensures t.post.pumpEnabled <==> a.pumpEnabled || a.focused
    ensures Count(t.cmds, PostFrameCallback) == (if a.focused && !a.pumpEnabled then 1 else 0)
    ensures t.post.(pumpEnabled := a.pumpEnabled, pendingFrames := a.pendingFrames)
            == SurfaceAvailable(a, loaderPath, dpi, refreshMilliHz).post
    ensures PumpInv(a) ==> PumpInv(t.post)
    // the code's handler, followed by the pump's single post only when it is armed here
    ensures t.cmds == SurfaceAvailable(a, loaderPath, dpi, refreshMilliHz).cmds
                      + (if a.focused && !a.pumpEnabled then [PostFrameCallback] else [])
  {
    var available := SurfaceAvailable(a, loaderPath, dpi, refreshMilliHz);
    var pump := if a.focused then StartPump(available.post) else Transition(available.post, []);
    assert multiset(available.cmds + pump.cmds) == multiset(available.cmds) + multiset(pump.cmds);
    Transition(pump.post, available.cmds + pump.cmds)
  }

  /** The corrected handler issues the same teardown and `Init` first, and only then arms the pump. */
  lemma StartingPumpInitsFirst(a: Activity, loaderPath: string, dpi: Dpi, refreshMilliHz: int)
    ensures var before := SurfaceAvailable(a, loaderPath, dpi, refreshMilliHz).cmds;
      var t := SurfaceAvailableStartingPump(a, loaderPath, dpi, refreshMilliHz);
      |before| <= |t.cmds| && t.cmds[..|before|] == before
  {
  }

  /** With the corrected handler, a focused window with a live surface is repainted on the next display frame. */
  lemma FocusedSurfaceIsRepainted(a: Activity, loaderPath: string, dpi: Dpi, refreshMilliHz: int, repaintOk: bool)
    requires PumpInv(a) && a.focused
    ensures var t := SurfaceAvailableStartingPump(a, loaderPath, dpi, refreshMilliHz);
      t.post.surface.Some? && t.post.pumpEnabled && Count(VsyncTick(t.post, repaintOk).cmds, Repaint) == 1
  {
  }
}
