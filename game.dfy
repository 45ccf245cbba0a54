/** The mode controller (src/main.js): a `Game` owns the build mode for
    the whole session and a simulation mode only while simulating.  The
    graph the player authored lives in the build mode's store and is never
    touched by switching between modes; starting a simulation hands a
    snapshot of it to a fresh simulation mode. */
module Modes {
  import opened Utils
  import opened Bridge
  import opened Build
  import opened Simulation

  /** `currentMode`: `null` until the first switch, then `'build'` or
      `'simulate'`. */
  datatype Mode = Unset | Building | Simulating

  class Game {
    var currentMode: Mode
    /** `buildModeInstance`: absent when the page has no render target, in
        which case the constructor stops at once. */
    const build: BuildMode?
    /** `simulationModeInstance`. */
    var sim: SimulationMode?

    /** The build mode and the store it edits. */
    ghost function BuildRepr(): set<object>
      reads this
    {
      if build == null then {} else {build, build.bridgeData, build.bridgeData.ids}
    }

    /** Both modes keep their own invariants, the build mode was given the
        render target, and a simulation exists exactly in simulate mode. */
    ghost predicate Valid()
      reads this, sim, BuildRepr()
    {
      (build != null ==> build.Valid() && build.hasRenderTarget) &&
      (sim != null ==> sim.Valid()) &&
      (sim != null <==> currentMode == Simulating)
    }

    /** The constructor and `init`: without a render target nothing is set
        up; otherwise the build mode is created over the shared id counter
        and the game switches to it. */
    constructor (hasRenderTarget: bool, ids: IdGenerator)
      modifies ids
      ensures Valid() && sim == null
      ensures !hasRenderTarget ==> build == null && currentMode == Unset
      ensures hasRenderTarget ==>
        build != null && fresh(build) && fresh(build.bridgeData) && build.bridgeData.ids == ids &&
        currentMode == Building && build.isActive && build.currentTool == AddJoint &&
        build.selected.None? && build.bridgeData.anchorPoints == SeedAnchors() &&
        build.bridgeData.joints == AnchorJoints(old(ids.next), SeedAnchors()) && build.bridgeData.members == []
    {
      if hasRenderTarget {
        build := new BuildMode(true, ids);
      } else {
        build := null;
      }
      currentMode := Unset;
      sim := null;
      new;
      if build != null {
        SwitchToBuildMode();
      }
    }

    /** `switchToBuildMode`: leaving simulate mode deactivates and disposes
        the simulation and drops it; the build mode is activated with the
        joint tool.  The store is left as it is, so the authored joints and
        members survive the round trip. */
    method SwitchToBuildMode()
      requires Valid()
      modifies this, sim, build
      ensures Valid() && currentMode == Building && sim == null
      ensures old(sim) != null ==> old(sim).State() == Disposed(Deactivated(old(sim.State())))
      ensures build != null ==>
        build.isActive && build.currentTool == AddJoint && build.selected.None? &&
        unchanged(build.bridgeData, build.bridgeData.ids)
    {
      if currentMode == Simulating && sim != null {
        sim.Deactivate();
        sim.Dispose();
        sim := null;
      }
      currentMode := Building;
      if build != null {
        build.Activate();
        build.SetCurrentTool(AddJoint);
      }
    }

    /** `startSimulation`: with a build mode, the graph is snapshotted
        first, build mode is deactivated, any old simulation disposed, and a
        fresh simulation over the snapshot is created and activated.  The
        fresh simulation has no map loaded yet, so activating it only marks
        it active; `g` would be the ground found if it reset. */
    method StartSimulation(g: Ground)
      requires Valid()
      modifies this, sim, build
      ensures Valid()
      ensures build == null ==> currentMode == old(currentMode) && sim == old(sim) && (sim != null ==> unchanged(sim))
      ensures build != null ==>
        currentMode == Simulating && sim != null && fresh(sim) &&
        sim.bridgeData == SimData(old(build.bridgeData.joints), old(build.bridgeData.members)) &&
        sim.State() == Activated(Initial(), sim.bridgeData, g) && sim.State() == Initial().(isActive := true) &&
        (old(currentMode) == Building ==> !build.isActive) &&
        (old(currentMode) != Building ==> build.isActive == old(build.isActive)) &&
        build.currentTool == old(build.currentTool) && build.selected == old(build.selected) &&
        unchanged(build.bridgeData, build.bridgeData.ids)
      ensures build != null && old(sim) != null ==> old(sim).State() == Disposed(old(sim.State()))
    {
      if build == null {
        return;
      }
      var bridgeData := build.bridgeData.GetBridgeDataForSimulation();
      assert bridgeData == SimData(build.bridgeData.joints, build.bridgeData.members);
      if currentMode == Building {
        build.Deactivate();
      }
      if sim != null {
        sim.Dispose();
        sim := null;
      }
      currentMode := Simulating;
      sim := new SimulationMode(bridgeData);
      InitialSequenced();
      sim.Activate(g);
    }

    /** The mode dispatch of `animate`: only a simulation advances, by the
        frame time and what its scene reports; build mode only renders. */
    method Animate(deltaTime: real, env: Sensing)
      requires Valid()
      modifies sim
      ensures Valid()
      ensures currentMode == Simulating ==>
        sim.State() == Step(old(sim.State()), sim.bridgeData, deltaTime, env)
      ensures currentMode != Simulating ==> sim == null
    {
      if currentMode == Simulating && sim != null {
        sim.Update(deltaTime, env);
      }
    }
  }
}
