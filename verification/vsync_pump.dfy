/**
 * The vsync-driven repaint pump: one repaint per display frame while the
 * pump is enabled, re-armed by the frame callback itself and disarmed for
 * good when a repaint fails.
 */
module VsyncPump {
  import opened RenderTypes

  /**
   * The pump's invariant: at most one frame callback is pending, one is
   * pending exactly while the pump is enabled, and an enabled pump always
   * has a surface to paint into.
   */
  predicate PumpInv(a: Activity) {
    && a.pendingFrames <= 1
    && (a.pumpEnabled <==> a.pendingFrames == 1)
    && (a.pumpEnabled ==> a.surface.Some?)
  }

  /** `startVsyncPump`: arm the pump when it is off and a surface exists. */
  function StartPump(a: Activity): (t: Transition)
    ensures t.post.pumpEnabled <==> a.pumpEnabled || a.surface.Some?
    ensures a.pumpEnabled || a.surface.None? ==> t == Transition(a, [])
    ensures Count(t.cmds, PostFrameCallback) == (if t.post.pumpEnabled && !a.pumpEnabled then 1 else 0)
    ensures Count(t.cmds, PostFrameCallback) == |t.cmds|
    ensures t.post.pendingFrames == a.pendingFrames + |t.cmds|
    ensures OnlyPumpChanged(a, t.post)
    ensures PumpInv(a) ==> PumpInv(t.post)
  {
    if a.pumpEnabled then Transition(a, [])
    else if a.surface.None? then Transition(a, [])
    else Transition(a.(pumpEnabled := true, pendingFrames := a.pendingFrames + 1), [PostFrameCallback])
  }

  /** `stopVsyncPump`: disarm the pump and withdraw its pending frame callback. */
  function StopPump(a: Activity): (t: Transition)
    ensures !t.post.pumpEnabled
    ensures !a.pumpEnabled ==> t == Transition(a, [])
    ensures a.pumpEnabled ==> t.cmds == [RemoveFrameCallback] && t.post.pendingFrames == 0
    ensures OnlyPumpChanged(a, t.post)
    ensures PumpInv(a) ==> PumpInv(t.post) && t.post.pendingFrames == 0
  {
    if !a.pumpEnabled then Transition(a, [])
    else Transition(a.(pumpEnabled := false, pendingFrames := 0), [RemoveFrameCallback])
  }

  /**
   * The body of the frame callback (`doFrame`), run once its pending copy
   * has been taken off the scheduler. `repaintOk` is whether the renderer's
   * repaint returned normally.
   */
  function FrameCallback(a: Activity, repaintOk: bool): (t: Transition)
    ensures !a.pumpEnabled ==> t == Transition(a, [])
    ensures a.pumpEnabled ==> |t.cmds| >= 1 && t.cmds[0] == Repaint && Count(t.cmds, Repaint) == 1
    // the repaint, followed by the re-post only when it succeeded
    ensures a.pumpEnabled ==> t.cmds == (if repaintOk then [Repaint, PostFrameCallback] else [Repaint])
    ensures a.pumpEnabled && repaintOk ==>
      t.post.pumpEnabled && Count(t.cmds, PostFrameCallback) == 1 && t.post.pendingFrames == a.pendingFrames + 1
    ensures a.pumpEnabled && !repaintOk ==>
      !t.post.pumpEnabled && Count(t.cmds, PostFrameCallback) == 0 && t.post.pendingFrames == a.pendingFrames
    ensures OnlyPumpChanged(a, t.post)
  {
    if !a.pumpEnabled then Transition(a, [])
    else if !repaintOk then Transition(a.(pumpEnabled := false), [Repaint])
    else Transition(a.(pendingFrames := a.pendingFrames + 1), [Repaint, PostFrameCallback])
  }

  /**
   * One display frame: the scheduler runs the pending frame callback, if
   * there is one. Under the pump invariant the callback is re-armed exactly
   * when the pump stays enabled, so the invariant holds again afterwards.
   */
  function VsyncTick(a: Activity, repaintOk: bool): (t: Transition)
    ensures a.pendingFrames == 0 ==> t == Transition(a, [])
    ensures Count(t.cmds, Repaint) == (if a.pendingFrames > 0 && a.pumpEnabled then 1 else 0)
    // a frame issues only the callback's own commands: the repaint and, when it succeeded, the re-post
    ensures a.pendingFrames > 0 ==>
      t.cmds == (if !a.pumpEnabled then [] else if repaintOk then [Repaint, PostFrameCallback] else [Repaint])
    ensures PumpInv(a) ==> PumpInv(t.post)
    ensures OnlyPumpChanged(a, t.post)
  {
    if a.pendingFrames == 0 then Transition(a, [])
    else FrameCallback(a.(pendingFrames := a.pendingFrames - 1), repaintOk)
  }

  /** Arming an armed pump does nothing. */
  lemma StartPumpIdempotent(a: Activity)
    ensures StartPump(StartPump(a).post) == Transition(StartPump(a).post, [])
  {
  }

  /** Stopping twice is the same as stopping once, and stopping a pump that never started is harmless. */
  lemma StopPumpIdempotent(a: Activity)
    ensures StopPump(StopPump(a).post) == Transition(StopPump(a).post, [])
    ensures a == Initial ==> StopPump(a) == Transition(a, [])
  {
  }

  /** The outcomes of `repaintOk` for a run of frames. */
  function Ticks(a: Activity, outcomes: seq<bool>): (t: Transition)
    decreases |outcomes|
  {
    if |outcomes| == 0 then Transition(a, [])
    else
      var first := VsyncTick(a, outcomes[0]);
      var rest := Ticks(first.post, outcomes[1..]);
      Transition(rest.post, first.cmds + rest.cmds)
  }

  /**
   * A disabled pump stays silent whatever the display does, even if a
   * frame callback posted before the pump was disabled is still pending:
   * no repaint is issued and nothing is re-posted.
   */
  lemma {:induction false} DisabledPumpStaysSilent(a: Activity, outcomes: seq<bool>)
    requires !a.pumpEnabled
    ensures Count(Ticks(a, outcomes).cmds, Repaint) == 0
    ensures Count(Ticks(a, outcomes).cmds, PostFrameCallback) == 0
    ensures !Ticks(a, outcomes).post.pumpEnabled
    decreases |outcomes|
  {
    if |outcomes| > 0 {
      var first := VsyncTick(a, outcomes[0]);
      assert first.cmds == [] && !first.post.pumpEnabled;
      DisabledPumpStaysSilent(first.post, outcomes[1..]);
    }
  }

  /**
   * While every repaint succeeds, an armed pump issues exactly one repaint
   * per display frame and stays armed with exactly one callback pending.
   */
  lemma {:induction false} OneRepaintPerFrame(a: Activity, n: nat)
    requires PumpInv(a) && a.pumpEnabled
    ensures Count(Ticks(a, seq(n, _ => true)).cmds, Repaint) == n
    ensures Ticks(a, seq(n, _ => true)).post.pumpEnabled
    ensures Ticks(a, seq(n, _ => true)).post.pendingFrames == 1
  {
    if n > 0 {
      var outcomes := seq(n, _ => true);
      assert outcomes[1..] == seq(n - 1, _ => true);
      var first := VsyncTick(a, true);
      assert first.post.pumpEnabled && PumpInv(first.post);
      OneRepaintPerFrame(first.post, n - 1);
      var rest := Ticks(first.post, outcomes[1..]);
      assert Ticks(a, outcomes).cmds == first.cmds + rest.cmds;
      assert multiset(first.cmds + rest.cmds) == multiset(first.cmds) + multiset(rest.cmds);
    }
  }

  /** After a failed repaint the pump issues no further repaints, however many frames follow. */
  lemma RepaintFailureDisarms(a: Activity, later: seq<bool>)
    requires PumpInv(a) && a.pumpEnabled
    ensures Count(Ticks(a, [false] + later).cmds, Repaint) == 1
    ensures !Ticks(a, [false] + later).post.pumpEnabled
  {
    var outcomes := [false] + later;
    assert outcomes[1..] == later;
    var first := VsyncTick(a, false);
    DisabledPumpStaysSilent(first.post, later);
    var rest := Ticks(first.post, later);
    assert multiset(first.cmds + rest.cmds) == multiset(first.cmds) + multiset(rest.cmds);
  }
}
