/** The stereo capturer as a value: its state, the three host-facing
    operations (arm, tick, reset) as functions of that state, and the
    properties of whole sequences of host calls. Engine queries (the world,
    the player controller, the game mode, the clocks, the rendered pixels)
    are inputs; engine effects (scene capture and readback, file writes, the
    character's cleanup) are appended to an event log. */
module CaptureModel {
  import opened StereoGeometry
  import opened CapturePaths

  datatype Option<T> = None | Some(value: T)

  /** Opaque handles for engine objects the capturer only refers to. */
  type WorldId = nat
  type ControllerId = nat
  type GameModeId = nat
  type CharacterId = nat

  /** An 8-bit-per-channel BGRA pixel, as read back from a render target. */
  datatype Color = Color(b: bv8, g: bv8, r: bv8, a: bv8)

  datatype ImageFormat = Png | Jpeg | GrayscaleJpeg | Bmp | Ico | Exr | Icns

  /** Render-target size, fixed by the constructor. */
  const CaptureWidth: int := 1920
  const CaptureHeight: int := 2160

  /** Horizontal and vertical field of view handed to both eyes. */
  const InitialFov: real := 90.0

  /** Stored eye separation; nothing reads it. */
  const InitialEyeSeparation: real := 6.4

  datatype RenderTarget = RenderTarget(width: int, height: int)

  /** What a render target holds after a scene capture, as the engine would
      read it back: the pixel at each row-major texel index. */
  type Texels = int -> Color

  /** The read-back of a whole capture: one pixel per texel of a
      CaptureWidth x CaptureHeight target, in row-major order. */
  function Readback(texels: Texels): (buffer: seq<Color>)
    ensures |buffer| == CaptureWidth * CaptureHeight
    ensures forall i :: 0 <= i < |buffer| ==> buffer[i] == texels(i)
  {
    seq(CaptureWidth * CaptureHeight, i => texels(i))
  }

  /** What the capturer sets or relies on in one scene-capture component. */
  datatype Component = Component(
    pass: StereoPass,
    fovAngle: real,
    captureEveryFrame: bool,
    target: Option<RenderTarget>,
    visible: bool,
    hiddenInGame: bool,
    world: Option<WorldId>,
    rooted: bool,
    location: Vector,
    rotation: Rotator)

  /** A freshly created scene-capture component, before it is configured. */
  const DefaultComponent: Component := Component(
    Full, 90.0, true, None, true, false, None, false,
    Vector(0.0, 0.0, 0.0), Rotator(0.0, 0.0, 0.0))

  /** Engine effects, in the order the capturer causes them. */
  datatype Event =
    | Read(pass: StereoPass, location: Vector, rotation: Rotator)
    | Save(path: string, pixels: seq<Color>, width: int, height: int, format: ImageFormat)
    | Cleanup(character: Option<CharacterId>)

  /** What the engine answers when the capturer asks for its context. */
  datatype HostContext = HostContext(
    world: WorldId, controller: Option<ControllerId>, gameMode: Option<GameModeId>)

  datatype Capturer = Capturer(
    isTicking: bool,
    eyeSeparation: real,
    controller: Option<ControllerId>,
    gameMode: Option<GameModeId>,
    character: Option<CharacterId>,
    left: Component,
    right: Component,
    overallStartTime: int,
    startTime: int,
    timestamp: string,
    log: seq<Event>)

  /** Configures one eye's component. */
  function InitComponent(c: Component, hFov: real, vFov: real, pass: StereoPass): (r: Component)
    ensures r.fovAngle >= hFov && r.fovAngle >= vFov && (r.fovAngle == hFov || r.fovAngle == vFov)
    ensures !r.captureEveryFrame && r.visible && !r.hiddenInGame && r.pass == pass
    ensures r.target == Some(RenderTarget(CaptureWidth, CaptureHeight))
    ensures r.world == c.world && r.rooted == c.rooted
    ensures r.location == c.location && r.rotation == c.rotation
  {
    c.(visible := true, hiddenInGame := false, pass := pass,
       fovAngle := FovAngle(hFov, vFov), captureEveryFrame := false,
       target := Some(RenderTarget(CaptureWidth, CaptureHeight)))
  }

  /** The capturer as its constructor leaves it. */
  function Initial(): (s: Capturer)
    ensures !s.isTicking && s.log == []
    ensures s.eyeSeparation == InitialEyeSeparation
    ensures s.left.pass == LeftEye && s.right.pass == RightEye
    ensures s.left.fovAngle == s.right.fovAngle == InitialFov
    ensures s.left.world.None? && !s.left.rooted && s.right.world.None? && !s.right.rooted
  {
    Capturer(false, InitialEyeSeparation, None, None, None,
      InitComponent(DefaultComponent, InitialFov, InitialFov, LeftEye),
      InitComponent(DefaultComponent, InitialFov, InitialFov, RightEye),
      0, 0, "", [])
  }

  /** Registers a component with a world and roots it. Registering an
      already registered component is refused, so it keeps its first world. */
  function Pin(c: Component, world: WorldId): (r: Component)
    ensures r.rooted
    ensures r.world == (if c.world.Some? then c.world else Some(world))
    ensures r == c.(world := r.world, rooted := true)
  {
    c.(world := Register(c.world, world), rooted := true)
  }

  /** The world a component is in after asking to register it with `world`. */
  function Register(current: Option<WorldId>, world: WorldId): Option<WorldId>
  {
    if current.Some? then current else Some(world)
  }

  /** Arms the capturer for one capture on the next tick. */
  function SetInitialState(s: Capturer, ctx: HostContext, character: CharacterId, stamp: string, now: int): (t: Capturer)
    // already armed: nothing at all changes
    ensures s.isTicking ==> t == s
    // otherwise both components end up registered and rooted, whatever the context
    ensures !s.isTicking ==>
      && t.left == Pin(s.left, ctx.world) && t.right == Pin(s.right, ctx.world)
      && t.controller == ctx.controller && t.gameMode == ctx.gameMode
      && t.character == Some(character)
    ensures t.isTicking <==> s.isTicking || (ctx.controller.Some? && ctx.gameMode.Some?)
    // a missing controller or game mode leaves the clocks and the timestamp alone
    ensures !t.isTicking ==>
      t.timestamp == s.timestamp && t.startTime == s.startTime && t.overallStartTime == s.overallStartTime
    // a successful arm stamps the session
    ensures !s.isTicking && t.isTicking ==>
      t.timestamp == stamp && t.startTime == now && t.overallStartTime == now
    ensures t.log == s.log && t.eyeSeparation == s.eyeSeparation
  {
    if s.isTicking then s
    else
      var pinned := s.(left := Pin(s.left, ctx.world), right := Pin(s.right, ctx.world),
                       controller := ctx.controller, gameMode := ctx.gameMode,
                       character := Some(character));
      if ctx.gameMode.None? || ctx.controller.None? then pinned
      else pinned.(timestamp := stamp, startTime := now, overallStartTime := now, isTicking := true)
  }

  /** Tick's guard: armed, and a controller was found at arm time. */
  predicate TickRuns(s: Capturer)
  {
    s.isTicking && s.controller.Some?
  }

  /** Moves a component to its eye's place relative to the viewpoint. */
  function Place(c: Component, view: Viewpoint): (r: Component)
    ensures r.location == EyeLocation(c.pass, view.location) && r.rotation == view.rotation
    ensures r == c.(location := r.location, rotation := r.rotation)
  {
    c.(location := EyeLocation(c.pass, view.location), rotation := view.rotation)
  }

  /** One scheduler tick; `leftFrame` and `rightFrame` are what each eye's
      render target holds once captured. */
  function Tick(s: Capturer, view: Viewpoint, leftFrame: Texels, rightFrame: Texels, now: int): (t: Capturer)
    ensures !TickRuns(s) ==> t == s
    ensures TickRuns(s) ==>
      && !t.isTicking
      && t.left == s.left.(location := EyeLocation(s.left.pass, view.location), rotation := view.rotation)
      && t.right == s.right.(location := EyeLocation(s.right.pass, view.location), rotation := view.rotation)
      && t.startTime == now
      && t.log == s.log + [
           Read(s.left.pass, t.left.location, view.rotation),
           Read(s.right.pass, t.right.location, view.rotation),
           Save(FramePath(s.timestamp, "Left"), Readback(leftFrame), CaptureWidth, CaptureHeight, Png),
           Save(FramePath(s.timestamp, "Right"), Readback(rightFrame), CaptureWidth, CaptureHeight, Png),
           Cleanup(s.character)]
    ensures t.controller == s.controller && t.gameMode == s.gameMode && t.character == s.character
    ensures t.timestamp == s.timestamp && t.overallStartTime == s.overallStartTime
    ensures t.eyeSeparation == s.eyeSeparation
  {
    if !TickRuns(s) then s
    else
      var l, r := Place(s.left, view), Place(s.right, view);
      s.(left := l, right := r, startTime := now, isTicking := false,
         log := s.log + [
           Read(l.pass, l.location, l.rotation),
           Read(r.pass, r.location, r.rotation),
           Save(FramePath(s.timestamp, "Left"), Readback(leftFrame), CaptureWidth, CaptureHeight, Png),
           Save(FramePath(s.timestamp, "Right"), Readback(rightFrame), CaptureWidth, CaptureHeight, Png),
           Cleanup(s.character)])
  }

  /** Hides a component and removes it from the root set. */
  function Unpin(c: Component): (r: Component)
    ensures !r.visible && r.hiddenInGame && !r.rooted
    ensures r.world == c.world
    ensures r == c.(visible := r.visible, hiddenInGame := r.hiddenInGame, rooted := r.rooted)
  {
    c.(visible := false, hiddenInGame := true, rooted := false)
  }

  /** Teardown: hides and unroots both components, in any state. */
  function Reset(s: Capturer): (t: Capturer)
    ensures !t.left.visible && t.left.hiddenInGame && !t.left.rooted
    ensures !t.right.visible && t.right.hiddenInGame && !t.right.rooted
    ensures t.left == s.left.(visible := false, hiddenInGame := true, rooted := false)
    ensures t.right == s.right.(visible := false, hiddenInGame := true, rooted := false)
    ensures t == s.(left := t.left, right := t.right)
  {
    s.(left := Unpin(s.left), right := Unpin(s.right))
  }

  /** What holds of every capturer the constructor and the three operations
      can produce. */
  ghost predicate Inv(s: Capturer)
  {
    && s.left.pass == LeftEye && s.right.pass == RightEye
    && s.left.target == Some(RenderTarget(CaptureWidth, CaptureHeight))
    && s.right.target == Some(RenderTarget(CaptureWidth, CaptureHeight))
    && !s.left.captureEveryFrame && !s.right.captureEveryFrame
    && (s.isTicking ==>
          && s.controller.Some? && s.gameMode.Some? && s.character.Some?
          && s.left.world.Some? && s.right.world.Some?)
  }

  /** A host call, with the engine's answers it would get. */
  datatype HostCall =
    | Arm(ctx: HostContext, character: CharacterId, stamp: string, now: int)
    | TickCall(view: Viewpoint, leftFrame: Texels, rightFrame: Texels, now: int)
    | ResetCall

  function Apply(s: Capturer, call: HostCall): Capturer
  {
    match call
    case Arm(ctx, character, stamp, now) => SetInitialState(s, ctx, character, stamp, now)
    case TickCall(view, leftFrame, rightFrame, now) => Tick(s, view, leftFrame, rightFrame, now)
    case ResetCall => Reset(s)
  }

  function Run(s: Capturer, calls: seq<HostCall>): Capturer
    decreases |calls|
  {
    if |calls| == 0 then s else Run(Apply(s, calls[0]), calls[1..])
  }

  /** A call that takes the capturer from disarmed to armed. */
  predicate Arms(s: Capturer, call: HostCall)
  {
    !s.isTicking && Apply(s, call).isTicking
  }

  /** Number of calls in a run that arm the capturer. */
  function Armings(s: Capturer, calls: seq<HostCall>): nat
    decreases |calls|
  {
    if |calls| == 0 then 0
    else (if Arms(s, calls[0]) then 1 else 0) + Armings(Apply(s, calls[0]), calls[1..])
  }

  /** Number of completed captures recorded in a log. */
  function Cleanups(log: seq<Event>): nat
  {
    if log == [] then 0
    else Cleanups(log[..|log| - 1]) + (if log[|log| - 1].Cleanup? then 1 else 0)
  }

  function Pending(s: Capturer): nat
  {
    if s.isTicking then 1 else 0
  }
}
