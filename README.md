# Stereo capturer model

A model of `UStereoCapturer`, the tickable object of the StereoCaptureRender
project. It owns two scene-capture components, one per eye, and behaves as a
one-shot state machine:

- `SetInitialState` arms it;
- the next `Tick` places both eyes at the player's viewpoint, reads back both
  render targets, saves `Left.png` and `Right.png` under a per-session
  timestamp directory, cleans up the character and disarms;
- `Reset` hides and unroots the components.

The project has five modules.

- `StereoGeometry` (Geometry.dfy) holds the per-eye arithmetic: the signed
  lateral offset, the eye location and the field of view `max(HFov, VFov)`.
- `CapturePaths` (Paths.dfy) holds the output path
  `OutputDir / Timestamp / (Name + ".png")`, built with the engine's string
  path-append operator.
- `CaptureModel` (CaptureModel.dfy) is the capturer as a value.
  - `Capturer` is its state. `SetInitialState`, `Tick` and `Reset` are
    functions of that state.
  - `Inv` is the invariant the constructor and all three operations keep.
  - `Run` applies a sequence of host calls.
  - Engine queries are inputs: the world, the player controller, the game
    mode, the viewpoint, the clocks and what each render target holds after
    a capture (`Texels`, a pixel per texel index).
  - Engine effects are appended to an event log `log`. A `Read` records a
    scene capture and read-back, a `Save` a file write with its path, and a
    `Cleanup` the character's cleanup.
- `CaptureLaws` (CaptureLaws.dfy) holds properties of single calls and of
  whole runs. One of them is the conservation law
  "completed captures + pending capture = successful arms".
- `StereoCapture` (StereoCapturer.dfy) is the imperative object.
  - `CaptureComponent` is a class whose engine setters update its flags in
    place.
  - `StereoCapturer` is a class with the source's fields.
    - `SetInitialState`, `Tick` and `Reset` are proved against their
      `CaptureModel` counterparts through `State()`, and keep `Valid()`.
    - `InitCaptureComponent`, `PinComponent` and `SetPositionAndRotation` are
      proved against `InitComponent`, `Pin` and `Place` on the component's
      `Snapshot()`. They say nothing about `Valid()`: called with the wrong
      pass, `InitCaptureComponent` would break it.
    - `ReadCaptureComponent` is proved against `Readback`, and `SaveFrame`
      against `FramePath`.

## Model

| member | source | states |
|---|---|---|
| StereoGeometry.PassOffset | Source/StereoCaptureRender/StereoCapturer.cpp:152-153 | the offset is +3.2 for the left eye and -3.2 for every other pass; it is positive exactly for the left eye |
| StereoGeometry.EyeLocation | Source/StereoCaptureRender/StereoCapturer.cpp:150-156 | an eye sits at the viewpoint minus (0, offset, 0): X and Z are kept, the left eye is at smaller Y and the right eye at larger Y |
| StereoGeometry.FovAngle | Source/StereoCaptureRender/StereoCapturer.cpp:101 | the component's field of view is at least both the horizontal and vertical one and equals one of them, i.e. their maximum |
| StereoGeometry.EyeLocationsSymmetric | Source/StereoCaptureRender/StereoCapturer.cpp:150-156 | the two eyes differ only in Y, are symmetric about the viewpoint and are 2 * 3.2 apart |
| StereoGeometry.EyeLocationInjective | Source/StereoCaptureRender/StereoCapturer.cpp:155 | an eye's location determines the viewpoint location it was placed from |
| CapturePaths.PathAppend | Source/StereoCaptureRender/StereoCapturer.cpp:129-130 | `a / b` is the two parts concatenated, with at most one '/' inserted between them |
| CapturePaths.FramePath | Source/StereoCaptureRender/StereoCapturer.cpp:129-130 | the path OutputDir / Timestamp / (Name + ".png") is as long as its parts plus ".png", plus at most two separators |
| CapturePaths.PathAppendLayout | Source/StereoCaptureRender/StereoCapturer.cpp:130 | `a / b` keeps `a` as prefix and `b` as suffix and adds exactly one '/' precisely when `a` is non-empty, does not end in a separator and `b` does not start with '/' |
| CapturePaths.FramePathLayout | Source/StereoCaptureRender/StereoCapturer.cpp:129-130 | every saved frame path starts with OutputDir followed by '/', and ends with Name + ".png"; unless the name starts with '/', a separator precedes Name + ".png" |
| CapturePaths.FramePathShape | Source/StereoCaptureRender/StereoCapturer.cpp:129-130 | for a separator-free timestamp the path is exactly OutputDir + "/" + Timestamp + "/" + Name + ".png" |
| CapturePaths.LeftAndRightPathsDiffer | Source/StereoCaptureRender/StereoCapturer.cpp:218-219 | the left and right frames of one capture go to different files |
| CapturePaths.TimestampsSeparateFrames | Source/StereoCaptureRender/StereoCapturer.cpp:86 | frames saved under two different separator-free timestamps never share a path |
| CaptureModel.InitComponent | Source/StereoCaptureRender/StereoCapturer.cpp:93-110 | a configured component is visible and not hidden in game, has the requested pass, field of view max(HFov, VFov), no per-frame capture, and a CaptureWidth x CaptureHeight target; world, rooting and pose are untouched |
| CaptureModel.Readback | Source/StereoCaptureRender/StereoCapturer.cpp:118-124 | a read-back buffer has exactly CaptureWidth * CaptureHeight pixels, the i-th being the target's i-th texel |
| CaptureModel.Pin | Source/StereoCaptureRender/StereoCapturer.cpp:69-73 | a pinned component is rooted and registered; an already registered component keeps its world, an unregistered one gets the given world; nothing else changes |
| CaptureModel.Initial | Source/StereoCaptureRender/StereoCapturer.cpp:26-47 | after construction the capturer is not ticking, the log is empty, the eye separation is 6.4, the components have the left and right pass with a 90-degree field of view and are neither registered nor rooted |
| CaptureModel.SetInitialState | Source/StereoCaptureRender/StereoCapturer.cpp:59-91 | when already armed nothing changes; otherwise both components are pinned (registered, keeping a world they already have, and rooted) and the controller, game mode and character are stored; the capturer ends armed exactly when it was armed or both controller and game mode exist; a refused arm leaves the timestamp and clocks alone; a successful one sets the timestamp and StartTime == OverallStartTime == now; no engine effect happens |
| CaptureModel.Place | Source/StereoCaptureRender/StereoCapturer.cpp:150-156 | a placed component is at its pass's eye location for the viewpoint, with the viewpoint's rotation, and nothing else of it changes |
| CaptureModel.Tick | Source/StereoCaptureRender/StereoCapturer.cpp:183-233 | without the flag or a controller the state is unchanged; otherwise both eyes are placed, the log gains exactly read left, read right, save Left, save Right (each the full read-back of its eye's target at the capture size), cleanup, StartTime becomes the end time and the capturer disarms; the session fields are untouched |
| CaptureModel.Unpin | Source/StereoCaptureRender/StereoCapturer.cpp:141-147 | an unpinned component is invisible, hidden in game and unrooted, and nothing else of it changes (its world included) |
| CaptureModel.Reset | Source/StereoCaptureRender/StereoCapturer.cpp:139-148 | both components become invisible, hidden in game and unrooted with every other component field kept, and nothing else of the capturer changes, whatever the flag |
| CaptureLaws.InitialSatisfiesInv | Source/StereoCaptureRender/StereoCapturer.cpp:26-47 | the constructed capturer satisfies the invariant |
| CaptureLaws.InvPreserved | Source/StereoCaptureRender/StereoCapturer.cpp:59-233 | arm, tick and reset each keep the invariant: eye passes, target sizes, no per-frame capture, and an armed capturer has a controller, game mode, character and registered components |
| CaptureLaws.InvAlongRun | Source/StereoCaptureRender/StereoCapturer.cpp:59-233 | every state reached by any sequence of host calls satisfies the invariant |
| CaptureLaws.TickRunsIffArmed | Source/StereoCaptureRender/StereoCapturer.h:35-38 | in a valid state Tick captures exactly when the flag is set, the value IsTickableWhenPaused returns |
| CaptureLaws.SecondTickIsNoOp | Source/StereoCaptureRender/StereoCapturer.cpp:232 | a second tick without re-arming changes nothing |
| CaptureLaws.RejectedArmCapturesNothing | Source/StereoCaptureRender/StereoCapturer.cpp:79-83 | after an arm refused for a missing controller or game mode, the next tick causes no engine effect |
| CaptureLaws.ArmThenTickSavesUnderStamp | Source/StereoCaptureRender/StereoCapturer.cpp:86-90 | an arm then a tick saves Left then Right under the timestamp stamped at arm time, cleans up the armed character, disarms, and keeps OverallStartTime at the arm time |
| CaptureLaws.RearmAfterTick | Source/StereoCaptureRender/StereoCapturer.cpp:232 | after any tick, an arm with a full context succeeds and, from a valid state, the next tick captures, so there is no permanent lock-out |
| CaptureLaws.TickPlacesEyesSymmetrically | Source/StereoCaptureRender/StereoCapturer.cpp:196-202 | a running tick places the left and right eye symmetrically about the viewpoint, 2 * 3.2 apart, with the viewpoint's rotation |
| CaptureLaws.ResetKeepsArmed | Source/StereoCaptureRender/StereoCapturer.cpp:139-148 | reset does not disarm: the next tick still captures once, with unrooted components |
| CaptureLaws.TickAddsOneCleanup | Source/StereoCaptureRender/StereoCapturer.cpp:209-230 | the five events of a running tick contain exactly one cleanup |
| CaptureLaws.StepBalance | Source/StereoCaptureRender/StereoCapturer.cpp:59-233 | one call either arms (one more pending capture), completes the pending capture (one more cleanup) or changes neither count |
| CaptureLaws.CapturesMatchArmings | Source/StereoCaptureRender/StereoCapturer.cpp:59-233 | over any run, completed plus pending captures grow exactly by the number of successful arms |
| CaptureLaws.AtMostOneCapturePerArm | Source/StereoCaptureRender/StereoCapturer.cpp:63-67 | from construction on there are never more captures than successful arms |
| CaptureLaws.ArmedIffCaptureOutstanding | Source/StereoCaptureRender/StereoCapturer.h:35-38 | from construction on, the flag (what IsTickableWhenPaused returns) is set exactly when fewer captures than arms have completed |
| CaptureLaws.SavedFramesAreFull | Source/StereoCaptureRender/StereoCapturer.cpp:118-134 | along any run, every saved frame holds exactly width * height = CaptureWidth * CaptureHeight pixels, whatever the targets hold |
| CaptureLaws.FirstWorldKept | Source/StereoCaptureRender/StereoCapturer.cpp:49-57 | once both components are registered, any run leaves them in their first world, so the tickable world never changes |
| CaptureLaws.EyeSeparationUnused | Source/StereoCaptureRender/StereoCapturer.h:62 | two capturers that differ only in the stored eye separation stay identical up to that field through any run |
| StereoCapture.CaptureComponent.constructor | Source/StereoCaptureRender/StereoCapturer.cpp:42-43 | a new component has the engine's default settings |
| StereoCapture.CaptureComponent.RegisterComponentWithWorld | Source/StereoCaptureRender/StereoCapturer.cpp:69-70 | the component's world becomes the given one unless it is already registered, and nothing else of it changes |
| StereoCapture.StereoCapturer.constructor | Source/StereoCaptureRender/StereoCapturer.cpp:26-47 | the constructed object is valid, its state is the model's initial state, and the flag is false |
| StereoCapture.StereoCapturer.IsTickable | Source/StereoCaptureRender/StereoCapturer.h:30-33 | the capturer is always tickable |
| StereoCapture.StereoCapturer.IsTickableWhenPaused | Source/StereoCaptureRender/StereoCapturer.h:35-38 | the answer is true exactly when the next tick will capture |
| StereoCapture.StereoCapturer.GetTickableGameObjectWorld | Source/StereoCaptureRender/StereoCapturer.cpp:49-57 | the answer is the left component's world, and an armed capturer always has one |
| StereoCapture.StereoCapturer.InitCaptureComponent | Source/StereoCaptureRender/StereoCapturer.cpp:93-110 | the component's new settings are those of CaptureModel.InitComponent, with field of view max(HFov, VFov) and per-frame capture off |
| StereoCapture.StereoCapturer.SetInitialState | Source/StereoCaptureRender/StereoCapturer.cpp:59-91 | the object's new state is CaptureModel.SetInitialState of its old state, and validity is kept |
| StereoCapture.StereoCapturer.PinComponent | Source/StereoCaptureRender/StereoCapturer.cpp:69-73 | the component becomes registered (keeping a world it already has) and rooted, and nothing else of it changes |
| StereoCapture.StereoCapturer.SetPositionAndRotation | Source/StereoCaptureRender/StereoCapturer.cpp:150-156 | the component is moved to its eye's location for the viewpoint, with the viewpoint's rotation |
| StereoCapture.StereoCapturer.ReadCaptureComponent | Source/StereoCaptureRender/StereoCapturer.cpp:112-125 | the buffer, sized by the method itself, is the Readback of the target: exactly CaptureWidth * CaptureHeight pixels in texel order; one capture of that component's pass and pose is logged |
| StereoCapture.StereoCapturer.SaveFrame | Source/StereoCaptureRender/StereoCapturer.cpp:127-137 | exactly one save is logged, to OutputDir / Timestamp / (Name + ".png"), with the buffer and the capture size |
| StereoCapture.StereoCapturer.Reset | Source/StereoCaptureRender/StereoCapturer.cpp:139-148 | the object's new state is CaptureModel.Reset of its old state; the flag is untouched |
| StereoCapture.StereoCapturer.Tick | Source/StereoCaptureRender/StereoCapturer.cpp:183-233 | the object's new state is CaptureModel.Tick of its old state, validity is kept, and the capturer always ends disarmed |

## Left out

- Engine calls are not modelled. These are `CaptureScene`, `ReadPixelsPtr`, render-target creation and `InitCustomFormat`, `GetPlayerViewPoint`, the player-controller and game-mode lookups, image compression and `SaveArrayToFile`. Their answers are parameters, and their effects are `Read`, `Save` and `Cleanup` events in the log.
- `FDateTime::Now` and `FDateTime::UtcNow` are replaced by the parameters `stamp` and `now`. The timestamp's text format is not modelled.
- `Duration` and all `UE_LOG` output are left out.
- `SetCustomProjectionMatrix` (StereoCapturer.cpp:158-180) is left out. It is floating-point trigonometry, and its only calls are commented out.
- Engine floats are modelled as reals. The eye offset `3.20000005f` is the real 3.2, and `float` rounding is not modelled.
- The `/` operator on `FString` is not part of the source. `CapturePaths.PathAppend` models it as follows: insert one '/' unless the left side is empty, the left side ends in '/' or '\', or the right side starts with '/'.
- The scene-capture components are modelled only by what the capturer sets: pass, field of view, per-frame capture, target size, visibility, hidden-in-game, world, rooting and pose.
  - `CaptureSource` and the target's pixel format and `ClearColor` are left out.
  - Other engine state of the components is left out.
- StereoCapture.StereoCapturer.ReadCaptureComponent: models the fresh, empty buffer every caller in the source passes. For a non-empty buffer the engine's `AddUninitialized` would append and the read-back would overwrite the front; that case is not modelled.
- The render target's contents after `CaptureScene` are an input (`Texels`); how the engine renders them, and the gamma flag of the read-back, are not modelled.
- `RegisterComponentWithWorld` is engine code that is not part of the source. `CaptureModel.Register` follows its rule that a component already registered is not registered again and keeps its world.
- Direct calls to the public helpers `SaveFrame`, `ReadCaptureComponent`, `SetPositionAndRotation` and `InitCaptureComponent` (StereoCapturer.h:50-55) are not host calls of `CaptureModel.Run`. The run-level laws, `SavedFramesAreFull` among them, cover only arm, tick and reset.
- StereoCapture.StereoCapturer.PinComponent: it registers and then roots one component. The source registers both components before rooting either. The resulting state is the same.
- Null pointers are not modelled.
  - The character is always a character, so the unchecked `Cleanup` call in `Tick` is not modelled for a null character.
  - The components always exist, so the null branch of `GetTickableGameObjectWorld` is not modelled.
- The `FVTableHelper` constructor (StereoCapturer.cpp:20-24) is left out. It only loads the image-wrapper module.
- The member fields `HFov`, `VFov` and `FrameDescriptors` are never read by the modelled code and are left out. The constructor's local `HFov` and `VFov` of 90 are what reach the components.
- StereoCaptureRenderGameMode.cpp is not part of this model: it only looks up an engine asset.
- The build files are not part of this model.
- The row-interleaving stereo compositor is not part of this model, because it does not appear in the source.
