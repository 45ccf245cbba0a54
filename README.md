# Bridge builder, modelled in Dafny

This project models the core of a small browser game. In the game
the player draws a 2D truss of joints and members on a grid
(build mode). The game then turns that truss into a 3D bridge on a
map and drives a car over it, after a boat has sailed underneath
(simulate mode). A controller switches between the two modes.

The model follows the program's structure, one module per source file:

| module | file | source |
|---|---|---|
| `Utils` | `utils.dfy` | `src/utils.js`: id generation and grid snapping |
| `Bridge` | `bridge_data.dfy` | `src/BridgeData.js`: the store of joints, members and anchor points |
| `Build` | `build_mode.dfy` | `src/BuildMode.js`: the editor's tools, picking, anchors, reset |
| `Placement` | `placement.dfy` | `src/SimulationMode.js` `buildBridge3D`: where joints and members go in 3D |
| `Simulation` | `simulation.dfy` | `src/SimulationMode.js`: loading, the run sequence, the per-frame update |
| `Modes` | `game.dfy` | `src/main.js`: the mode controller |

State that the program updates in place is modelled as a class:

- `IdGenerator` is the module-level id counter.
- `BridgeData` is the store.
- `BuildMode`, `SimulationMode` and `Game` are the modes and the controller.

Each class method is proved against a pure transition function of
the class's `State()` view, and it preserves the class's `Valid()`
invariant. The lemmas about those functions state what the game
promises:

- ids are unique;
- no member is a self-loop or a duplicate;
- members only join existing joints;
- anchors cannot be deleted;
- new joints lie on the grid;
- the picked joint is the nearest eligible one;
- reset leaves exactly the anchors;
- the bridge is laid out inside its extents;
- the two-phase run never moves the boat and the car at once;
- a bounce loses energy.

Ids are the counter's value. The displayed text `id_<n>` is proved
injective (`Utils.IdTextInjective`), so comparing ids as numbers is
the same as comparing them as strings.

## Model

| member | source | states |
|---|---|---|
| Utils.IdGenerator.constructor | src/utils.js:4 | the counter starts at 0 |
| Utils.IdGenerator.GenerateId | src/utils.js:5-7 | returns the counter's value and advances the counter by one, so successive ids differ |
| Utils.IdTextInjective | src/utils.js:5-7 | two ids have the same `id_<n>` text exactly when they are the same id |
| Utils.DecimalInjective | src/utils.js:6 | distinct serials have distinct decimal renderings |
| Utils.Decimal | src/utils.js:6 | the rendering of a serial is a non-empty string of digits, one digit long exactly for serials below 10 |
| Utils.IdTextWithInjective | src/utils.js:5-7 | for any prefix passed to `generateId`, two counter values give the same id text exactly when they are equal |
| Utils.Round | src/utils.js:40-42 | `Math.round`: the integer within half a unit of the value, rounding halves up |
| Utils.RoundOfInteger | src/utils.js:40-42 | rounding an integer gives it back |
| Utils.SnapWithoutGrid | src/utils.js:40-42 | with a grid size of zero or less the value is returned unchanged |
| Utils.SnapOnGrid | src/utils.js:40-42 | with a positive grid size the result is a multiple of the grid size within half a cell of the value |
| Utils.SnapIsNearest | src/utils.js:40-42 | no multiple of the grid size is closer to the value than the snapped one |
| Utils.SnapIdempotent | src/utils.js:40-42 | snapping an already snapped value changes nothing |
| Utils.SnapToGrid | src/utils.js:40-42 | the value itself when the grid size is not positive, else the nearest multiple of the grid size (its properties are the Snap lemmas above) |
| Bridge.Filter | src/BridgeData.js:53-105 | the `filter` the store uses keeps exactly the elements that pass the test and never lengthens the list |
| Bridge.FilterConcat | src/BridgeData.js:53-105 | filtering distributes over concatenation, so the order of survivors is kept |
| Bridge.FilterKeepsAll | src/BridgeData.js:53-105 | a filter every element passes returns the list itself |
| Bridge.FilterPairwise | src/BridgeData.js:53-105 | an order between earlier and later elements survives filtering |
| Bridge.AppendDistinctPair | src/BridgeData.js:19-36 | appending a member whose endpoint pair `FindMember` did not find keeps every two members on different endpoint pairs |
| Bridge.FindMember | src/BridgeData.js:46-51 | `findMember(a, b)` returns a member of the list joining a and b in either order, and nothing exactly when none does |
| Bridge.FindMemberSymmetric | src/BridgeData.js:46-51 | looking a pair up as (a, b) or as (b, a) gives the same member |
| Bridge.GetJointById | src/BridgeData.js:38-40 | returns a stored joint with that id, and nothing exactly when no joint has it |
| Bridge.GetMemberById | src/BridgeData.js:42-44 | returns a stored member with that id, and nothing exactly when no member has it |
| Bridge.WithoutJoint | src/BridgeData.js:82 | the joints left are exactly the old ones with another id, and the id set loses exactly that id |
| Bridge.Detach | src/BridgeData.js:66-76 | the members left are exactly the old ones that do not touch the removed joint |
| Bridge.WithoutMember | src/BridgeData.js:91-105 | the members left are exactly the old ones with another id |
| Bridge.BridgeData.constructor | src/BridgeData.js:5-9 | a new store is empty and shares the module's id counter |
| Bridge.BridgeData.AddJoint | src/BridgeData.js:11-17 | appends one joint with the next id and the given position and anchor flag; the id is new to both lists; nothing else changes |
| Bridge.BridgeData.AddMember | src/BridgeData.js:19-36 | a member is added exactly when its ends differ and no member joins the pair yet; it is appended with the next id and the given material; a refused call leaves the store and counter as they were |
| Bridge.BridgeData.RemoveJoint | src/BridgeData.js:53-89 | succeeds exactly when a non-anchor joint has the id; it then drops that joint and every member touching it; otherwise nothing changes |
| Bridge.BridgeData.RemoveMember | src/BridgeData.js:91-105 | succeeds exactly when a member has the id and then drops just that member; joints never change |
| Bridge.BridgeData.ClearAll | src/BridgeData.js:107-125 | empties joints and members and keeps the anchor points |
| Bridge.BridgeData.LoadLevelAnchors | src/BridgeData.js:127-130 | replaces the anchor points and touches nothing else |
| Bridge.BridgeData.GetBridgeDataForSimulation | src/BridgeData.js:132-146 | the snapshot lists the same joints and members, element by element, members as elements |
| Bridge.EndpointsPresentAddJoint | src/BridgeData.js:11-17 | adding a joint keeps every member's ends present |
| Bridge.JointIdsGrow | src/BridgeData.js:11-17 | adding a joint adds exactly its id to the id set |
| Bridge.EndpointsPresentAddMember | src/BridgeData.js:19-36 | adding a member between present joints keeps every member's ends present |
| Bridge.EndpointsPresentRemoveJoint | src/BridgeData.js:53-89 | removing a joint and its members keeps every remaining member's ends present, and no member refers to the removed joint |
| Bridge.EndpointsPresentRemoveMember | src/BridgeData.js:91-105 | removing a member keeps every remaining member's ends present |
| Bridge.RemoveJointKeepsOrder | src/BridgeData.js:66-82 | removal works element by element, so the survivors keep their order |
| Bridge.DetachUntouched | src/BridgeData.js:66-76 | removing a joint no member touches leaves the members as they are |
| Bridge.DuplicateRefused | src/BridgeData.js:19-36 | once a member joins a pair, the lookup finds it in either order, so adding the pair again is refused |
| Bridge.GetJointByIdUnique | src/BridgeData.js:38-40 | with ids increasing along the list, looking up a stored joint's id returns that very joint |
| Bridge.AtMostOneMemberPerPair | src/BridgeData.js:19-36 | in a store built by `addMember` two members joining the same pair are the same member |
| Bridge.EndpointsPresentMoreJoints | src/BridgeData.js:11-17 | more joints never invalidate a member's ends |
| Build.SeedAnchorsAt30 | src/BuildMode.js:130-134 | the two default anchors sit at x = -30 and x = 30 on y = 0 |
| Build.Nearest | src/BuildMode.js:360-389 | the scan settles on an eligible joint closest to the click; an earlier joint at the same distance wins; it finds nothing exactly when no joint is eligible |
| Build.PickJoint | src/BuildMode.js:360-389 | `pickObject` returns a stored joint within its pick radius (1 × 1.5 for anchors, 0.7 × 1.5 otherwise) and not farther than any other eligible joint, and nothing exactly when no joint is within its radius |
| Build.Eligible | src/BuildMode.js:360-389 | definition, no contract: the pick test: the squared distance is strictly below the square of the joint's radius (1 for anchors, 0.7 otherwise) times 1.5 |
| Build.BuildMode.PickObject | src/BuildMode.js:360-389 | the loop over the joints returns what `PickJoint` specifies |
| Build.AddJointAtSpec | src/BuildMode.js:245-267 | a click within 0.001 of an existing joint in both coordinates adds nothing; otherwise exactly one non-anchor joint is appended at the point with the next id, and the members are untouched |
| Build.AddJointAtIdempotent | src/BuildMode.js:245-267 | adding a joint at the same point twice is the same as adding it once |
| Build.MouseDownJointsOnGrid | src/BuildMode.js:178-210 | with the joint tool, every joint a click adds lies on the 10-unit grid and is not an anchor |
| Build.MemberClickFirstHalf | src/BuildMode.js:269-292 | a click on nothing clears the selection; a first click on a joint selects it; a click on the selected joint changes nothing |
| Build.MemberClickSecondHalf | src/BuildMode.js:286-335 | a second click on another joint clears the selection, keeps the joints, and adds the member with the tool's material unless that pair is already joined; the store's duplicate and self-loop checks decide |
| Build.DeleteClickSpec | src/BuildMode.js:338-358 | a click on nothing or on an anchor deletes nothing; a click on another joint removes it and every member attached to it |
| Build.MouseDownKeepsAnchors | src/BuildMode.js:178-210 | no click with any tool ever removes an anchor joint |
| Build.TryAddMemberWf | src/BridgeData.js:19-36 | adding a member between present joints keeps the store's invariant: ids from the counter, a simple graph, ends present |
| Build.RemoveJointFromWf | src/BridgeData.js:53-89 | removing a joint keeps the store's invariant |
| Build.AddJointAtWf | src/BuildMode.js:245-267 | adding a joint keeps the store's invariant |
| Build.SelectOrJoinWf | src/BuildMode.js:269-336 | every step of the two-click protocol keeps the store's invariant |
| Build.MouseDownWf | src/BuildMode.js:178-210 | every click, with every tool, keeps the store's invariant |
| Build.AddJointAt | src/BuildMode.js:245-267 | definition, no contract: the add-joint tool: snap the point, reuse a joint already there, else add a fresh one |
| Build.Occupied | src/BuildMode.js:247-252 | definition, no contract: some joint lies within 0.001 of the point in both coordinates |
| Build.MemberClick | src/BuildMode.js:269-336 | definition, no contract: the add-member tool: pick the joint near the click and select it or join it to the selection |
| Build.SelectOrJoin | src/BuildMode.js:272-336 | definition, no contract: no joint clears the selection; the first joint is selected; the selected joint again changes nothing; a second joint is joined to it by a member unless that pair already has one, and the selection is cleared |
| Build.TryAddMember | src/BridgeData.js:19-36 | definition, no contract: `addMember`: a self-loop or an already joined pair changes nothing; otherwise one member with the next id and the material is appended |
| Build.DeleteClick | src/BuildMode.js:338-358 | definition, no contract: the joint near the click is removed with its members unless it is an anchor; only joints are picked, so the member branch never runs |
| Build.RemoveJointFrom | src/BridgeData.js:53-88 | definition, no contract: `removeJoint`: an absent id or an anchor changes nothing; otherwise the joint and every member touching it go |
| Build.MouseDown | src/BuildMode.js:178-210 | definition, no contract: only an active mode, the left button and a world point are handled; the add-joint tool snaps the point to the grid; the rest is dispatched on the tool |
| Build.DrawAnchors | src/BuildMode.js:138-151 | definition, no contract: an anchor joint with a fresh id is added at each anchor point that has no anchor joint exactly there |
| Build.Reset | src/BuildMode.js:391-403 | definition, no contract: the graph is cleared, the anchors drawn again and the selection dropped |
| Build.AnchorJoints | src/BuildMode.js:138-151 | one anchor joint is created per new anchor position |
| Build.NewAnchorsSpec | src/BuildMode.js:138-151 | anchors are added only at anchor points that have no anchor joint there, every anchor point ends up covered, and no position is added twice |
| Build.NewAnchors | src/BuildMode.js:138-151 | definition, no contract: the anchor points that get a new anchor, scanned in order: those with no anchor joint exactly there and not already added by the scan |
| Build.NewAnchorsAll | src/BuildMode.js:138-151 | over a store with no anchors and distinct anchor points, every anchor point gets a new anchor, in order |
| Build.AnchorJointsAt | src/BuildMode.js:138-151 | the created anchors stand exactly at the given positions |
| Build.DrawAnchorsSpec | src/BuildMode.js:138-151 | drawing anchors keeps the members, covers every anchor point, and adds only anchor joints at anchor points that had none |
| Build.DrawAnchorsWf | src/BuildMode.js:138-151 | drawing anchors keeps the store's invariant |
| Build.ResetBridgeSpec | src/BuildMode.js:391-403 | after a reset no member is left, nothing is selected, the anchor points are kept, every joint is an anchor at an anchor point, and every anchor point has one |
| Build.ResetBridgeDistinct | src/BuildMode.js:391-403 | with distinct anchor points, a reset leaves exactly one anchor per point, in order and with consecutive ids |
| Build.ResetBridgeWf | src/BuildMode.js:391-403 | a reset leaves a store that satisfies the invariant |
| Build.FindAnchorAt | src/BuildMode.js:140 | the `find` over joints returns an anchor exactly at the point, and nothing exactly when there is none |
| Build.FindNear | src/BuildMode.js:247-252 | the `find` over joints returns a joint within the epsilon of the point, and nothing exactly when there is none |
| Build.BuildMode.constructor | src/BuildMode.js:26-74 | a new editor has no tool and no selection and is inactive; its store holds the two default anchor points and one anchor joint at each, and no members |
| Build.BuildMode.Activate | src/BuildMode.js:85-99 | the mode becomes active when it has a render target, and keeps its tool and selection |
| Build.BuildMode.Deactivate | src/BuildMode.js:101-112 | the mode becomes inactive and keeps its tool and selection |
| Build.BuildMode.SetCurrentTool | src/BuildMode.js:166-176 | sets the tool and drops any half-made member selection |
| Build.BuildMode.DrawAnchorPoints | src/BuildMode.js:138-151 | the loop leaves the store as `DrawAnchors` specifies and keeps the invariant |
| Build.BuildMode.ResetBridge | src/BuildMode.js:391-403 | the store and selection end as `Reset` specifies and the invariant is kept |
| Build.BuildMode.HandleAddJoint | src/BuildMode.js:245-267 | the store ends as `AddJointAt` specifies and the invariant is kept |
| Build.BuildMode.HandleAddMemberClick | src/BuildMode.js:269-336 | the store and selection end as `MemberClick` specifies and the invariant is kept |
| Build.BuildMode.SelectOrJoinAt | src/BuildMode.js:272-336 | the two-click protocol, once the click is resolved, ends as `SelectOrJoin` specifies and the invariant is kept |
| Build.BuildMode.JoinSelected | src/BuildMode.js:305-335 | the second click adds the member (as `addMember` decides) and clears the selection |
| Build.BuildMode.HandleDeleteClick | src/BuildMode.js:338-358 | the store ends as `DeleteClick` specifies and the invariant is kept |
| Build.BuildMode.OnMouseDown | src/BuildMode.js:178-210 | a left click in the active mode is dispatched on the tool; the state ends as `MouseDown` specifies and the invariant is kept |
| Placement.LengthSpan | src/SimulationMode.js:329-340 | the z span the bridge's length is mapped onto: the default span without anchors, and otherwise the range that contains every anchor's x |
| Placement.Positions | src/SimulationMode.js:382-416 | every joint of the snapshot, and only those, gets a 3D position |
| Placement.Bridge3D | src/SimulationMode.js:312-470 | no layout when the snapshot has no joints; otherwise every joint id is placed |
| Placement.ScaledLengthFits | src/SimulationMode.js:384-392 | when scaling applies, the leftmost joint is mapped to the span's start and the rightmost to its end, every joint lands inside the span, and the order along x is kept |
| Placement.ScaledEnds | src/SimulationMode.js:384-392 | the extreme joints land on the span's ends |
| Placement.ScaledWithin | src/SimulationMode.js:384-392 | every joint lands inside the span |
| Placement.ScaledMonotone | src/SimulationMode.js:384-392 | the mapping keeps the order along x |
| Placement.UnscaledLengthShifts | src/SimulationMode.js:384-392 | when scaling does not apply, joints are only shifted and keep their distances |
| Placement.HeightsKeepOrder | src/SimulationMode.js:368-397 | heights keep the build-mode order, scaled by 0.03; a joint at the reference height sits at the base height |
| Placement.SidesCoincide | src/SimulationMode.js:399-416 | a joint's two positions coincide exactly when the side planes are within the tolerance |
| Placement.ShippedSidesApart | src/SimulationMode.js:328 | the shipped side planes are 0.95 apart, so both sides are drawn |
| Placement.PositionsOfJoint | src/SimulationMode.js:382-416 | with distinct ids, each stored joint is placed where its own coordinates put it |
| Placement.Bridge3DPlacesJoints | src/SimulationMode.js:312-416 | every joint of the snapshot gets a layout position, and when scaling applies its z lies within the bridge's extents |
| Placement.Bridge3DWithoutAnchors | src/SimulationMode.js:328-375 | without anchor points the default span and a zero reference height are used |
| Placement.MemberShapesSpec | src/SimulationMode.js:418-466 | a yellow member is drawn only as columns: a left-side column exactly when its left ends differ, a right-side column exactly when the sides are apart and its right ends differ, and no right-side column when the sides coincide; any other member is drawn as one deck quadrilateral when the sides are apart, and not at all otherwise |
| Placement.MissingEndpointNotDrawn | src/SimulationMode.js:418-466 | a member whose end has no position is not drawn at all |
| Placement.AsWrittenOnlyDecks | src/SimulationMode.js:434 | as written, the material test never holds, so every member is drawn as a deck |
| Placement.YellowMemberDrawnAsDeck | src/SimulationMode.js:434 | a concrete yellow member is drawn as a deck as written, and as two columns as intended |
| Placement.PlacedJoint | src/SimulationMode.js:382-416 | definition, no contract: a joint's scene position: depth from its x along the span, scaled height, on the left plane and on the right plane (the same point when the planes coincide) |
| Placement.LocalZ | src/SimulationMode.js:384-397 | definition, no contract: a joint's depth: its x stretched from the joints' x range onto the span when both are wider than 0.001, else shifted to the span's start |
| Placement.JointHeight | src/SimulationMode.js:384-397 | definition, no contract: a joint's height: the base plus its height above the reference, scaled by 0.03 |
| Placement.MemberShapesAsWritten | src/SimulationMode.js:418-466 | definition, no contract: the member shapes with the material test exactly as the code writes it |
| Placement.MemberShapes | src/SimulationMode.js:418-466 | definition, no contract: the member shapes with the material test the code evidently intends |
| Placement.ColumnShapes | src/SimulationMode.js:430-466 | definition, no contract: the column branch: a tube on the left side and, when the sides are apart, one on the right |
| Placement.DeckShapes | src/SimulationMode.js:430-466 | definition, no contract: the deck branch: one quadrilateral between the two sides when both ends are placed and the sides are apart, nothing otherwise |
| Simulation.StepTime | src/SimulationMode.js:862-863 | the integrated step is positive, at most 0.1 and at most the frame time, and equals the frame time when it is short enough and exactly 0.1 when it is longer |
| Simulation.CarZBounds | src/SimulationMode.js:563-573 | the car's z range starts half a car plus the padding past the bridge's start; it ends the same distance before the end, or one car depth (at least 0.1) later when that would be empty; it is never empty |
| Simulation.CarLoadedRange | src/SimulationMode.js:472-609 | a loaded or fallback car exists, has a non-empty z range, and starts at the x centre of the bridge |
| Simulation.BoatLoadedSpec | src/SimulationMode.js:237-300 | a loaded boat sits at its start, its target 3 units towards -x, and its run is reset |
| Simulation.ResetRuns | src/SimulationMode.js:748-792 | a reset stops and un-completes the boat's run, returns the boat to its start, stops and un-completes the car's run when there is a car, keeps the car's range, and creates or loses nothing |
| Simulation.ResetCarAtStart | src/SimulationMode.js:720-792 | a reset car is at rest at the start of its range; it sits on the ground when the rays hit, otherwise at the fallback height above the bridge |
| Simulation.StartSpec | src/SimulationMode.js:794-805 | starting without a car does nothing; with a car exactly one of boat and car runs (the boat when there is one), nothing is completed, the car is at its start |
| Simulation.PlayResetToggles | src/SimulationMode.js:807-813 | with a car the play/reset button resets when any run is under way or done, starts otherwise, and so toggles whether a run is on |
| Simulation.StepGuard | src/SimulationMode.js:862 | an inactive mode, a non-positive frame time or a missing car leave the state as it is |
| Simulation.BoatStepSpec | src/SimulationMode.js:865-878 | the boat never overshoots or moves away from its target; it arrives when the step reaches the target, and then its run completes and the car's begins; otherwise it closes in by exactly speed × step; a moving run with no boat completes at once |
| Simulation.BounceSpec | src/SimulationMode.js:674-708 | a falling car that hits ground stops tumbling and rests on the hit; it bounces back at 0.3 of its speed, so with less speed, while faster than 0.05, and keeps falling only while faster than 0.01, which every bounce is (0.3 of more than 0.05), so it always keeps falling after a bounce; otherwise it stops |
| Simulation.ContactAtRest | src/SimulationMode.js:674-708 | a car that was not falling is put on the hit with no vertical speed |
| Simulation.AirborneSpec | src/SimulationMode.js:709-720 | with no hit the car falls, is off the ground, and starts to tumble exactly when it leaves the ground from rest by more than its threshold |
| Simulation.FallSpec | src/SimulationMode.js:965-968 | gravity lowers a falling car's vertical speed by 7.84 × step and moves it by the new speed; a car not falling is untouched |
| Simulation.DriveSpec | src/SimulationMode.js:886-962 | a running car facing a wall stops where it is; otherwise it takes its step and, moving forward, completes clamped onto the end of its range once within 0.001 of it, or keeps running short of it |
| Simulation.DriveIdle | src/SimulationMode.js:886 | a car that is not running, or has finished, does not move |
| Simulation.MapLoaded | src/SimulationMode.js:184-235 | definition, no contract: the map load sets the map frame (zero when nothing was loaded) and lays out the bridge |
| Simulation.BuildBridge | src/SimulationMode.js:312-470 | definition, no contract: `buildBridge3D`'s effect on the scene: no joints drops the old meshes; otherwise meshes exist and the extents, base height and reference height come from the layout |
| Simulation.CarLoaded | src/SimulationMode.js:472-609 | definition, no contract: the car, or the fallback box car, is centred between the bridge's sides and its depth range is fixed from its size |
| Simulation.BoatLoaded | src/SimulationMode.js:237-300 | definition, no contract: a loaded boat is placed off the map's centre; either way the sequence is reset |
| Simulation.PlacedBoat | src/SimulationMode.js:246-281 | definition, no contract: the boat is put 1.3 beyond the map's centre x (0 without a map), starting there, with its target 3 further towards -x |
| Simulation.Contact | src/SimulationMode.js:674-708 | definition, no contract: the car rests on the hit ground, bouncing or stopping when it was falling |
| Simulation.Airborne | src/SimulationMode.js:709-720 | definition, no contract: no hit: the car falls, and tumbles when it left the ground from rest by more than its threshold |
| Simulation.DefaultY | src/SimulationMode.js:720-741 | definition, no contract: the height the car is put at when a reset hits nothing |
| Simulation.Settle | src/SimulationMode.js:611-745 | definition, no contract: `updateCarVerticalPosition(true)`: contact when something is hit, else the default height at rest |
| Simulation.VerticalStep | src/SimulationMode.js:611-745 | definition, no contract: `updateCarVerticalPosition(false)`: without geometry the car leaves the ground and falls; a miss is airborne; a hit is contact |
| Simulation.ResetCar | src/SimulationMode.js:749-784 | definition, no contract: the car part of `resetSequence`: car runs cleared, car at rest at its start, then settled; off the ground its last ground height is its bottom |
| Simulation.Reset | src/SimulationMode.js:748-792 | definition, no contract: `resetSequence`: a present car goes back to its start and is settled, a present boat goes back to its first x, and every run flag is cleared |
| Simulation.Start | src/SimulationMode.js:794-805 | definition, no contract: `startSequence`: nothing without a car; otherwise a reset, then the car runs when there is no boat or its run is complete, else the boat moves |
| Simulation.PlayReset | src/SimulationMode.js:807-813 | definition, no contract: the play/reset button: reset while anything is running, else start |
| Simulation.BoatStep | src/SimulationMode.js:865-878 | definition, no contract: the boat sails towards its target and, once there, hands over to the car |
| Simulation.Drive | src/SimulationMode.js:886-962 | definition, no contract: the car moves along its range unless tumbling or blocked, and stops at the ends |
| Simulation.Finish | src/SimulationMode.js:953-960 | definition, no contract: a forward car within 0.001 of the end of its range is clamped onto it, a backward one onto its start, and the run completes |
| Simulation.Fall | src/SimulationMode.js:965-968 | definition, no contract: a falling car gains downward speed and moves by it |
| Simulation.Tick | src/SimulationMode.js:865-968 | definition, no contract: one frame before the floor check: boat, ground contact, drive, gravity |
| Simulation.Step | src/SimulationMode.js:861-987 | definition, no contract: `update`: nothing happens when inactive, without a car or for a non-positive step; a car below the floor is reset |
| Simulation.Activated | src/SimulationMode.js:815-841 | definition, no contract: `activate`: the mode becomes active; with a map but no car the bridge is laid out when it has no meshes; with a car the sequence is reset |
| Simulation.Deactivated | src/SimulationMode.js:843-854 | definition, no contract: `deactivate`: inactive, and neither the car nor the boat runs |
| Simulation.Disposed | src/SimulationMode.js:996-1088 | definition, no contract: `dispose`: deactivated, and the car, map, boat and bridge meshes are dropped |
| Simulation.InitialSequenced | src/SimulationMode.js:28-114 | the fresh mode satisfies the run-sequence invariant |
| Simulation.ResetSequenced | src/SimulationMode.js:748-792 | a reset keeps the run-sequence invariant (never boat and car at once, a completed run not running, a running car exists) |
| Simulation.StartSequenced | src/SimulationMode.js:794-805 | starting keeps the run-sequence invariant |
| Simulation.PlayResetSequenced | src/SimulationMode.js:807-813 | the play/reset button keeps the run-sequence invariant |
| Simulation.TickSequenced | src/SimulationMode.js:865-980 | one frame of boat, ground, drive and gravity keeps the run-sequence invariant |
| Simulation.StepSequenced | src/SimulationMode.js:861-987 | `update` keeps the run-sequence invariant, including the reset below the world's floor |
| Simulation.ActivateSequenced | src/SimulationMode.js:815-859 | activation, deactivation and disposal keep the invariant; deactivation stops both runs; disposal drops car, boat and map |
| Simulation.MapLoadedSequenced | src/SimulationMode.js:184-235 | loading the map keeps the invariant |
| Simulation.CarLoadedSequenced | src/SimulationMode.js:472-609 | loading the car keeps the invariant |
| Simulation.BoatLoadedSequenced | src/SimulationMode.js:237-300 | loading the boat keeps the invariant |
| Simulation.SimulationMode.constructor | src/SimulationMode.js:28-114 | a new mode holds the snapshot it was given and starts inactive with no map, car or boat and no run |
| Simulation.SimulationMode.ResetSequence | src/SimulationMode.js:748-792 | the fields end as `Reset` specifies and the invariant is kept |
| Simulation.SimulationMode.UpdateCarVerticalPosition | src/SimulationMode.js:611-745 | the contact update ends as `Settle` (initial or reset setup) or `VerticalStep` (a frame) specifies |
| Simulation.SimulationMode.StartSequence | src/SimulationMode.js:794-805 | the fields end as `Start` specifies and the invariant is kept |
| Simulation.SimulationMode.HandlePlayReset | src/SimulationMode.js:807-813 | the fields end as `PlayReset` specifies and the invariant is kept |
| Simulation.SimulationMode.BuildBridge3D | src/SimulationMode.js:312-470 | the scene ends as `BuildBridge` specifies and the invariant is kept |
| Simulation.SimulationMode.OnMapLoaded | src/SimulationMode.js:184-235 | the scene ends as `MapLoaded` specifies and the invariant is kept |
| Simulation.SimulationMode.OnCarLoaded | src/SimulationMode.js:472-609 | the car ends as `CarLoaded` specifies and the invariant is kept |
| Simulation.SimulationMode.OnBoatLoaded | src/SimulationMode.js:237-300 | the boat and runs end as `BoatLoaded` specifies and the invariant is kept |
| Simulation.SimulationMode.Activate | src/SimulationMode.js:815-841 | the fields end as `Activated` specifies and the invariant is kept |
| Simulation.SimulationMode.Deactivate | src/SimulationMode.js:843-854 | the fields end as `Deactivated` specifies and the invariant is kept |
| Simulation.SimulationMode.Dispose | src/SimulationMode.js:996-1088 | the fields end as `Disposed` specifies and the invariant is kept |
| Simulation.SimulationMode.Update | src/SimulationMode.js:861-987 | the fields end as `Step` specifies and the invariant is kept |
| Simulation.SimulationMode.MoveBoat | src/SimulationMode.js:865-878 | the boat part of the frame ends as `BoatStep` specifies |
| Simulation.SimulationMode.DriveCar | src/SimulationMode.js:886-962 | the drive part of the frame ends as `Drive` specifies |
| Simulation.SimulationMode.ApplyGravity | src/SimulationMode.js:965-968 | the gravity part of the frame ends as `Fall` specifies |
| Modes.Game.constructor | src/main.js:8-45 | without a render target nothing is set up; otherwise a fresh build mode over the shared counter is active with the joint tool, its two seed anchor joints and no members |
| Modes.Game.SwitchToBuildMode | src/main.js:47-66 | the simulation, if any, is deactivated, disposed and dropped; build mode is active with the joint tool; the authored graph is left as it was |
| Modes.Game.StartSimulation | src/main.js:68-99 | without a build mode nothing changes, the current simulation included; otherwise a fresh simulation gets a snapshot of the current graph and is activated, build mode is deactivated (and otherwise keeps its activity), its tool and selection are kept, any old simulation is disposed, and the graph itself is untouched |
| Modes.Game.Animate | src/main.js:101-118 | in simulate mode the simulation advances by `update`; in build mode nothing changes |

## Left out

- Rendering: meshes, materials, lights, cameras, the grid helper and the preview line are not modelled. This covers `render`, `updateCameraProjection`, `setRenderer`, `initSceneAndCamera`, `initMaterials`, `onMouseMove` in build mode and `onWindowResize`. None of them changes the graph or the run state.
- `getMouseWorldCoordinates` (src/utils.js:9-38) unprojects through the camera. The model takes its result as an optional point.
- Model loading (GLTF loader callbacks) becomes outcome methods: `OnMapLoaded`, `OnCarLoaded` and `OnBoatLoaded`. They take whether the load succeeded and the measured box or size as parameters.
- Ray casts become oracle inputs. These are the ground rays under the car, the front obstacle rays (`wallAhead`) and the step's projection onto the ground (`move`). The car's orientation, the ground normal and the random tumble rotation are floating-point inputs, and the result of each is taken as given.
- Floating point is modelled as exact reals, and `isNaN` guards are not modelled.
- `Math.sign` of zero and other floating-point corner cases follow the reals.
- The clock is not modelled: `animate` takes the frame time as a parameter.
- User interface calls (`UIManager`, `updateUI`, `showErrorToUser`) and console logging are not modelled.
- Concurrency between load callbacks and frames is not modelled. Each callback is one atomic method.
- Placement.Bridge3D: buildBridge3D (src/SimulationMode.js:323) calls `getBridgeDataForSimulation()` on the snapshot it was given. The snapshot is a plain object, so the call would throw as the code is wired. It throws inside both map-load callbacks (src/SimulationMode.js:221 and 231), before `addCar` is reached (222 and 232). As wired, therefore, no car is ever created, and `update` always returns at line 862. The model reads the snapshot's joints and elements directly, which is evidently what was meant, so the car, the run sequence and the per-frame update describe the program with that call corrected.
- Simulation.DefaultY: the no-hit branch of `updateCarVerticalPosition(true)` makes the same call on the snapshot (src/SimulationMode.js:724). As wired it throws there too, so `resetSequence` would stop before setting `lastGroundY` (782) and before returning the boat (786-790). `DefaultY` reads the snapshot's first joint directly, so the no-hit halves of `ResetCarAtStart` and `ResetRuns` describe the corrected program.
- Placement.Bridge3D: the layout's shapes follow the corrected material test (`MemberShapes`, yellow members as columns), not the `materialKey` test at src/SimulationMode.js:434 that draws every member as a deck. The as-written branch is `MemberShapesAsWritten`, and the Findings table records the difference.
- Placement.Bridge3D: the anchor point data the simulation would read is never set, so the model lays the bridge out with no anchor points (`Bridge3DWithoutAnchors`).
- Modes.Game.SwitchToBuildMode: it keeps the graph, as `switchToBuildMode` does (src/main.js:47-66). Clearing the graph after switching back is the separate step the reset button takes (src/UIManager.js:61-71), which is not part of this model.
- Simulation.ResetCar: the interim height that `resetSequence` lifts the car to is always overwritten by the settle step, so the model sets it only through `Settle`.
- Simulation.PlacedBoat: the boat's x uses the map centre stored when the map loaded, not a fresh bounding-box query.
- Simulation.SimulationMode: the mode's fields are grouped into records (scene, car, motion, boat, runs). Every field the source updates is one of their components.
- Build.BuildMode.PickObject: it scans the store's joints. In the source the editor's scene children hold exactly one mesh per joint, in store order, so the scan covers the same joints. The member branch of `handleDeleteClick` (src/BuildMode.js:351-355) can never run, because `pickObject` only returns joints; the model leaves it out.
- `BuildMode.dispose` and `SimulationMode.dispose` free graphics resources. Only their effect on the mode's state is modelled.

## Findings

| source | as written | input that shows it | evidently intended | confidence | as-written member | corrected member |
|---|---|---|---|---|---|---|
| src/SimulationMode.js:434 | the member-style branch tests `bmElement.materialKey === 'yellow'`, but a snapshot element carries `materialType` (src/BridgeData.js:141), so the test is never true and every member is drawn as a deck | a snapshot with one yellow member between two placed joints | yellow members become two columns, all others decks, matching the build mode's own test of the material at src/BuildMode.js:317 | high, not executed | Placement.YellowMemberDrawnAsDeck | Placement.MemberShapesSpec |
