// The GUI's own record of the frame rate and of the backend chosen in the backend panel.
module GuiStates {
  import Configuration

  class GuiState {
    var showFps: bool
    var fps: real
    var frameTimeMs: real
    var currentBackend: string
    var selectedBackend: string
    var backendChanged: bool

    /** `GuiState::new`: the running and the selected backend are both the configured one. */
    constructor (backend: Configuration.GraphicsBackend)
      ensures showFps && fps == 0.0 && frameTimeMs == 0.0 && !backendChanged
      ensures currentBackend == Configuration.BackendName(backend) && selectedBackend == currentBackend
    {
      showFps := true;
      fps := 0.0;
      frameTimeMs := 0.0;
      currentBackend := Configuration.BackendName(backend);
      selectedBackend := Configuration.BackendName(backend);
      backendChanged := false;
    }

    /** `update_performance`: writes the two statistics and nothing else. */
    method UpdatePerformance(fps: real, frameTimeMs: real)
      modifies this
      ensures this.fps == fps && this.frameTimeMs == frameTimeMs
      ensures showFps == old(showFps) && currentBackend == old(currentBackend)
      ensures selectedBackend == old(selectedBackend) && backendChanged == old(backendChanged)
    {
      this.fps := fps;
      this.frameTimeMs := frameTimeMs;
    }

    /**
     * `check_backend_change`: reports whether the selection differs from the running backend
     * and raises the flag if so; it never lowers the flag.
     */
    method CheckBackendChange() returns (changed: bool)
      modifies this
      ensures changed <==> selectedBackend != currentBackend
      ensures backendChanged == ChangeFlagAfter(old(backendChanged), selectedBackend, currentBackend)
      ensures selectedBackend == old(selectedBackend) && currentBackend == old(currentBackend)
      ensures showFps == old(showFps) && fps == old(fps) && frameTimeMs == old(frameTimeMs)
    {
      if selectedBackend != currentBackend {
        backendChanged := true;
        changed := true;
      } else {
        changed := false;
      }
    }
  }

  /** The flag after one check. */
  function ChangeFlagAfter(flag: bool, selected: string, current: string): bool {
    if selected != current then true else flag
  }

  /** The flag after a series of checks, each seeing a selected and a running backend. */
  function ChangeFlagAfterAll(flag: bool, checks: seq<(string, string)>): bool
    decreases |checks|
  {
    if checks == [] then flag
    else ChangeFlagAfter(ChangeFlagAfterAll(flag, checks[..|checks| - 1]), checks[|checks| - 1].0, checks[|checks| - 1].1)
  }

  /**
   * The flag is sticky: after a series of checks it is raised exactly when it was raised to
   * begin with or some check saw the selection differ from the running backend.
   */
  lemma {:induction false} ChangeFlagIsSticky(flag: bool, checks: seq<(string, string)>)
    ensures ChangeFlagAfterAll(flag, checks) <==> flag || exists k :: 0 <= k < |checks| && checks[k].0 != checks[k].1
    decreases |checks|
  {
    if checks != [] {
      var init := checks[..|checks| - 1];
      ChangeFlagIsSticky(flag, init);
      if exists k :: 0 <= k < |checks| && checks[k].0 != checks[k].1 {
        var k :| 0 <= k < |checks| && checks[k].0 != checks[k].1;
        if k < |init| {
          assert init[k] == checks[k];
        }
      }
      if exists k :: 0 <= k < |init| && init[k].0 != init[k].1 {
        var k :| 0 <= k < |init| && init[k].0 != init[k].1;
        assert checks[k] == init[k];
      }
    }
  }

  /** A fresh state reports no change until the selection moves away from the running backend. */
  method SelectionScenario() returns (same: bool, moved: bool, movedBack: bool, flag: bool)
    ensures !same && moved && !movedBack && flag
  {
    var g := new GuiState(Configuration.Vulkan);
    same := g.CheckBackendChange();
    g.selectedBackend := Configuration.BackendName(Configuration.Dx12);
    moved := g.CheckBackendChange();
    g.selectedBackend := g.currentBackend;
    movedBack := g.CheckBackendChange();
    flag := g.backendChanged;
  }
}
