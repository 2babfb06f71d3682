/**
 * The boot orchestration of the rendering activity: the already-started
 * guard in `onCreate`, the decision whether the root filesystem has to be
 * extracted, the staged first-boot tips, and the outcome of the bounded
 * wait for the guest system to report that it has booted.
 */
module BootFlow {
  import opened RenderTypes
  import opened DisplayModes

  /** The wait for the boot signal is bounded at this many seconds. */
  const BootTimeoutSeconds: int := 15
  /** How long the failure notice is left on screen before the process exits. */
  const FailureNoticeMs: int := 3000
  /** The staged tips posted at 5 s, 10 s and 15 s; stage 0 is shown at once. */
  const StagedTips: set<nat> := {1, 2, 3}

  /**
   * The extraction decision. Extraction is skipped only when a root
   * filesystem exists, no reinstall is forced, and either a third-party
   * image is configured or the factory image has not been updated.
   */
  function ShouldExtractRom(f: RomFlags): (extract: bool)
    ensures extract <==> !(f.romExist && !f.forceInstall && (f.use3rdRom || !f.factoryRomUpdated))
    ensures !f.romExist ==> extract
    ensures f.forceInstall ==> extract
    ensures f.romExist && !f.forceInstall && f.use3rdRom ==> !extract
    ensures f.romExist && !f.forceInstall && !f.use3rdRom ==> (extract <==> f.factoryRomUpdated)
  {
    !f.romExist || f.forceInstall || (!f.use3rdRom && f.factoryRomUpdated)
  }

  /**
   * `onCreate`. When the guest system is already running the activity
   * finishes and asks for a reboot instead of booting a second time;
   * otherwise it resets the status beacon, requests the preferred display
   * mode and builds its views, then waits for the boot decision.
   */
  function OnCreate(a: Activity, alreadyStarted: bool, modes: seq<Mode>): (t: Transition)
    ensures alreadyStarted ==> t.cmds == [Finish, Reboot] && Finished(t.post)
    ensures alreadyStarted ==> t.post.(phase := a.phase) == a
    ensures !alreadyStarted ==> t.post.phase == AwaitingDecision && t.post.rootView && t.post.textureView
    ensures !alreadyStarted ==> |t.cmds| >= 1 && t.cmds[0] == ResetStatus && Count(t.cmds, Reboot) == 0 && Count(t.cmds, Finish) == 0
    ensures !alreadyStarted ==> t.cmds[1..] == RequestHighRefreshDisplayMode(modes)
    // only the boot phase and the views change
    ensures !alreadyStarted ==> t.post.(phase := a.phase, rootView := a.rootView, textureView := a.textureView) == a
  {
    if alreadyStarted then
      Transition(a.(phase := Redirected), [Finish, Reboot])
    else
      Transition(a.(phase := AwaitingDecision, rootView := true, textureView := true),
                 [ResetStatus] + RequestHighRefreshDisplayMode(modes))
  }

  /** `showBootingProcedure`: start the bounded wait for the boot signal. */
  function ShowBootingProcedure(a: Activity): (t: Transition)
    ensures t.post.phase == WaitingForBoot
    ensures t.cmds == [AwaitBoot(BootTimeoutSeconds)]
    ensures t.post.(phase := a.phase) == a
  {
    Transition(a.(phase := WaitingForBoot), [AwaitBoot(BootTimeoutSeconds)])
  }

  /**
   * The texture view is added to the root view, and only then does the boot
   * wait begin. `bootSystem` does this at once when no extraction is needed,
   * and the extraction task hands it to the UI thread once the root
   * filesystem is ready.
   */
  function AttachAndWait(a: Activity): (t: Transition)
    ensures t.post.textureAttached && t.post.phase == WaitingForBoot
    ensures t.cmds == [AttachTextureView, AwaitBoot(BootTimeoutSeconds)]
    ensures t.post.(phase := a.phase, textureAttached := a.textureAttached) == a
  {
    var waiting := ShowBootingProcedure(a.(textureAttached := true));
    Transition(waiting.post, [AttachTextureView] + waiting.cmds)
  }

  /**
   * `bootSystem`. With extraction, the first tip is shown at once, the
   * staged tips are posted, and extraction starts in the background; the
   * view is not attached and the boot wait does not begin yet. Without
   * extraction the texture view is attached and the boot wait begins at once.
   */
  function BootSystem(a: Activity, f: RomFlags): (t: Transition)
    ensures ShouldExtractRom(f) <==> t.post.phase == Extracting
    ensures ShouldExtractRom(f) <==> Count(t.cmds, ExtractRootfs(f)) == 1
    ensures ShouldExtractRom(f) ==>
      t.post.extracting && t.post.pendingTips == StagedTips && t.cmds[0] == ShowTip(0) && t.post.textureAttached == a.textureAttached
    // the extraction branch only starts the task: no attach and no boot wait yet
    ensures ShouldExtractRom(f) ==> t.cmds == [ShowTip(0), ExtractRootfs(f)]
    ensures ShouldExtractRom(f) ==> t.post.(phase := a.phase, extracting := a.extracting, pendingTips := a.pendingTips) == a
    ensures !ShouldExtractRom(f) ==>
      t.post.textureAttached && t.post.phase == WaitingForBoot
      && t.cmds == [AttachTextureView, AwaitBoot(BootTimeoutSeconds)]
    ensures !ShouldExtractRom(f) ==> t.post.(phase := a.phase, textureAttached := a.textureAttached) == a
  {
    if ShouldExtractRom(f) then
      Transition(a.(phase := Extracting, extracting := true, pendingTips := StagedTips), [ShowTip(0), ExtractRootfs(f)])
    else
      AttachAndWait(a)
  }

  /**
   * The extraction task after `extractRootfs` returns: the in-progress flag
   * is cleared first, then the root filesystem is initialised. The phase
   * stays `Extracting` until the UI thread attaches the view.
   */
  function ExtractionFinished(a: Activity): (t: Transition)
    ensures !t.post.extracting && t.post.phase == a.phase
    ensures t.cmds == [InitRootfs]
    ensures t.post.(extracting := a.extracting) == a
  {
    Transition(a.(extracting := false), [InitRootfs])
  }

  /** A tip that comes due once extraction has finished, while the root filesystem is initialised, shows nothing. */
  lemma NoTipAfterExtraction(a: Activity, stage: nat)
    ensures TipTimer(ExtractionFinished(a).post, stage).cmds == []
    ensures stage !in TipTimer(ExtractionFinished(a).post, stage).post.pendingTips
  {
  }

  /** A staged tip's timer: the tip is shown only while extraction is still running. */
  function TipTimer(a: Activity, stage: nat): (t: Transition)
    ensures stage !in t.post.pendingTips && t.post.pendingTips == a.pendingTips - {stage}
    ensures Count(t.cmds, ShowTip(stage)) == (if stage in a.pendingTips && a.extracting then 1 else 0)
    ensures |t.cmds| == Count(t.cmds, ShowTip(stage))
    ensures t.post.(pendingTips := a.pendingTips) == a
  {
    if stage !in a.pendingTips then Transition(a, [])
    else
      var a1 := a.(pendingTips := a.pendingTips - {stage});
      if a.extracting then Transition(a1, [ShowTip(stage)]) else Transition(a1, [])
  }

  /**
   * The end of the boot wait. Success hides the loading screen; a timeout
   * or any failure records the failure, shows a notice, waits for it to be
   * seen and terminates the process.
   */
  function BootWaitReturned(a: Activity, success: bool): (t: Transition)
    ensures success ==> t.post.phase == Ready && t.cmds == [HideLoading]
    ensures !success ==> t.post.phase == Exited && Finished(t.post)
    ensures !success ==> Count(t.cmds, TrackBootFailure) == 1 && Count(t.cmds, Exit(0)) == 1 && Count(t.cmds, HideLoading) == 0
    ensures !success ==> t.cmds[0] == TrackBootFailure && t.cmds[|t.cmds| - 1] == Exit(0)
    // the failure path: record, notice, the notice's 3 s on screen, finish, exit
    ensures !success ==> t.cmds == [TrackBootFailure, BootFailedNotice, Sleep(FailureNoticeMs), Finish, Exit(0)]
    ensures t.post.(phase := a.phase) == a
  {
    if success then Transition(a.(phase := Ready), [HideLoading])
    else Transition(a.(phase := Exited), [TrackBootFailure, BootFailedNotice, Sleep(FailureNoticeMs), Finish, Exit(0)])
  }
}
