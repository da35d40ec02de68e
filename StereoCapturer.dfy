/** The capturer object itself: a tickable object owning two scene-capture
    components, whose methods update its fields and the components' fields in
    place. SetInitialState, Tick and Reset are proved against the functions of
    the same name in CaptureModel, through the abstraction State(), and keep
    Valid(). InitCaptureComponent, PinComponent and SetPositionAndRotation are
    proved against InitComponent, Pin and Place on a component's Snapshot();
    ReadCaptureComponent against Readback, and SaveFrame against FramePath. */
module StereoCapture {
  import opened StereoGeometry
  import opened CapturePaths
  import opened CaptureModel

  /** The part of an engine scene-capture component that the capturer sets. */
  class CaptureComponent {
    var pass: StereoPass
    var fovAngle: real
    var captureEveryFrame: bool
    var target: Option<RenderTarget>
    var visible: bool
    var hiddenInGame: bool
    var world: Option<WorldId>
    var rooted: bool
    var location: Vector
    var rotation: Rotator

    /** A default sub-object, as the engine creates it. */
    constructor ()
      ensures Snapshot() == DefaultComponent
    {
      pass, fovAngle, captureEveryFrame, target := Full, 90.0, true, None;
      visible, hiddenInGame, world, rooted := true, false, None, false;
      location, rotation := Vector(0.0, 0.0, 0.0), Rotator(0.0, 0.0, 0.0);
    }

    ghost function Snapshot(): Component
      reads this
    {
      Component(pass, fovAngle, captureEveryFrame, target, visible, hiddenInGame,
                world, rooted, location, rotation)
    }

    /** Registration is refused for a component that is already registered. */
    method RegisterComponentWithWorld(w: WorldId)
      modifies this
      ensures Snapshot() == old(Snapshot()).(world := Register(old(world), w))
    {
      if world.None? {
        world := Some(w);
      }
    }

    method AddToRoot()
      modifies this
      ensures Snapshot() == old(Snapshot()).(rooted := true)
    {
      rooted := true;
    }

    method RemoveFromRoot()
      modifies this
      ensures Snapshot() == old(Snapshot()).(rooted := false)
    {
      rooted := false;
    }

    method SetVisibility(v: bool)
      modifies this
      ensures Snapshot() == old(Snapshot()).(visible := v)
    {
      visible := v;
    }

    method SetHiddenInGame(h: bool)
      modifies this
      ensures Snapshot() == old(Snapshot()).(hiddenInGame := h)
    {
      hiddenInGame := h;
    }

    method SetWorldLocationAndRotation(l: Vector, r: Rotator)
      modifies this
      ensures Snapshot() == old(Snapshot()).(location := l, rotation := r)
    {
      location, rotation := l, r;
    }
  }

  class StereoCapturer {
    var isTicking: bool
    var eyeSeparation: real
    var controller: Option<ControllerId>
    var gameMode: Option<GameModeId>
    var character: Option<CharacterId>
    const left: CaptureComponent
    const right: CaptureComponent
    var overallStartTime: int
    var startTime: int
    var timestamp: string
    /** The engine effects caused so far, oldest first. */
    var log: seq<Event>

    ghost function State(): Capturer
      reads this, left, right
    {
      Capturer(isTicking, eyeSeparation, controller, gameMode, character,
               left.Snapshot(), right.Snapshot(),
               overallStartTime, startTime, timestamp, log)
    }

    ghost predicate Valid()
      reads this, left, right
    {
      left != right && Inv(State())
    }

    constructor ()
      ensures Valid() && fresh(left) && fresh(right)
      ensures State() == Initial()
      ensures !isTicking
    {
      left := new CaptureComponent();
      right := new CaptureComponent();
      isTicking := false;
      eyeSeparation := InitialEyeSeparation;
      controller, gameMode, character := None, None, None;
      overallStartTime, startTime, timestamp := 0, 0, "";
      log := [];
      new;
      InitCaptureComponent(left, InitialFov, InitialFov, LeftEye);
      InitCaptureComponent(right, InitialFov, InitialFov, RightEye);
    }

    /** Always tickable: every gate lives inside Tick. */
    function IsTickable(): (r: bool)
      ensures r
    {
      true
    }

    /** True exactly when the next tick will capture. */
    function IsTickableWhenPaused(): (r: bool)
      reads this, left, right
      requires Valid()
      ensures r <==> TickRuns(State())
    {
      isTicking
    }

    /** The world of the left component; while armed there always is one. */
    function GetTickableGameObjectWorld(): (w: Option<WorldId>)
      reads this, left, right
      requires Valid()
      ensures w == State().left.world
      ensures isTicking ==> w.Some?
    {
      left.world
    }

    method InitCaptureComponent(c: CaptureComponent, hFov: real, vFov: real, pass: StereoPass)
      modifies c
      ensures c.Snapshot() == InitComponent(old(c.Snapshot()), hFov, vFov, pass)
      ensures c.fovAngle == FovAngle(hFov, vFov) && !c.captureEveryFrame
    {
      c.SetVisibility(true);
      c.SetHiddenInGame(false);
      c.pass := pass;
      c.fovAngle := FovAngle(hFov, vFov);
      c.captureEveryFrame := false;
      c.target := Some(RenderTarget(CaptureWidth, CaptureHeight));
    }

    method SetInitialState(ctx: HostContext, stereoCharacter: CharacterId, stamp: string, now: int)
      requires Valid()
      modifies this, left, right
      ensures Valid()
      ensures State() == CaptureModel.SetInitialState(old(State()), ctx, stereoCharacter, stamp, now)
    {
      if isTicking {
        return;
      }
      PinComponent(left, ctx.world);
      PinComponent(right, ctx.world);
      controller, gameMode, character := ctx.controller, ctx.gameMode, Some(stereoCharacter);
      if gameMode.None? || controller.None? {
        return;
      }
      timestamp, startTime, overallStartTime, isTicking := stamp, now, now, true;
    }

    /** Registers a component with the world and roots it. */
    method PinComponent(c: CaptureComponent, w: WorldId)
      modifies c
      ensures c.Snapshot() == Pin(old(c.Snapshot()), w)
    {
      c.RegisterComponentWithWorld(w);
      c.AddToRoot();
    }

    method SetPositionAndRotation(c: CaptureComponent, location: Vector, rotation: Rotator)
      modifies c
      ensures c.Snapshot() == Place(old(c.Snapshot()), Viewpoint(location, rotation))
    {
      var passOffset := if c.pass == LeftEye then EyeOffset else -EyeOffset;
      c.SetWorldLocationAndRotation(Minus(location, Vector(0.0, passOffset, 0.0)), rotation);
    }

    /** Captures the component's scene, sizes the buffer to one pixel per
        texel of the target and reads the target back into it; `texels` is
        what the engine's capture leaves in the target. */
    method ReadCaptureComponent(c: CaptureComponent, texels: Texels) returns (buffer: seq<Color>)
      modifies this`log
      ensures buffer == Readback(texels)
      ensures |buffer| == CaptureWidth * CaptureHeight
      ensures log == old(log) + [Read(c.pass, c.location, c.rotation)]
    {
      log := log + [Read(c.pass, c.location, c.rotation)];
      buffer := seq(CaptureWidth * CaptureHeight, i => texels(i));
    }

    method SaveFrame(buffer: seq<Color>, name: string, format: ImageFormat)
      modifies this`log
      ensures log == old(log) + [Save(FramePath(timestamp, name), buffer, CaptureWidth, CaptureHeight, format)]
    {
      var frameString := name + ".png";
      var filepath := PathAppend(PathAppend(OutputDir, timestamp), frameString);
      log := log + [Save(filepath, buffer, CaptureWidth, CaptureHeight, format)];
    }

    method Reset()
      requires Valid()
      modifies left, right
      ensures Valid()
      ensures State() == CaptureModel.Reset(old(State()))
      ensures isTicking == old(isTicking)
    {
      left.SetVisibility(false);
      left.SetHiddenInGame(true);
      left.RemoveFromRoot();
      right.SetVisibility(false);
      right.SetHiddenInGame(true);
      right.RemoveFromRoot();
    }

    method Tick(deltaTime: real, view: Viewpoint, leftFrame: Texels, rightFrame: Texels, now: int)
      requires Valid()
      modifies this, left, right
      ensures Valid()
      ensures State() == CaptureModel.Tick(old(State()), view, leftFrame, rightFrame, now)
      ensures !isTicking
    {
      if !isTicking || controller.None? {
        return;
      }
      SetPositionAndRotation(left, view.location, view.rotation);
      SetPositionAndRotation(right, view.location, view.rotation);

      var leftBuffer := ReadCaptureComponent(left, leftFrame);
      var rightBuffer := ReadCaptureComponent(right, rightFrame);

      SaveFrame(leftBuffer, "Left", Png);
      SaveFrame(rightBuffer, "Right", Png);

      var endTime := now;
      startTime := endTime;

      log := log + [Cleanup(character)];
      isTicking := false;
    }
  }
}
