/** Poses and the per-eye arithmetic of the stereo capturer: where each eye's
    scene-capture component is placed relative to the player's viewpoint, and
    which field of view it is given. Engine floats are modelled as reals. */
module StereoGeometry {

  datatype Vector = Vector(x: real, y: real, z: real)

  datatype Rotator = Rotator(pitch: real, yaw: real, roll: real)

  /** The player's viewpoint, as the player controller reports it. */
  datatype Viewpoint = Viewpoint(location: Vector, rotation: Rotator)

  /** The engine's stereoscopic pass of a capture component. */
  datatype StereoPass = Full | LeftEye | RightEye | Monoscopic

  /** The fixed lateral offset applied to each eye. */
  const EyeOffset: real := 3.2

  function Minus(a: Vector, b: Vector): Vector
  {
    Vector(a.x - b.x, a.y - b.y, a.z - b.z)
  }

  /** Signed offset of a pass: positive for the left eye, negative for every
      other pass (the right eye included). */
  function PassOffset(pass: StereoPass): (r: real)
    ensures r == EyeOffset || r == -EyeOffset
    ensures r > 0.0 <==> pass == LeftEye
  {
    if pass == LeftEye then EyeOffset else -EyeOffset
  }

  /** World location of an eye: the viewpoint minus (0, PassOffset, 0). */
  function EyeLocation(pass: StereoPass, location: Vector): (p: Vector)
    ensures p.x == location.x && p.z == location.z
    ensures p.y + PassOffset(pass) == location.y
    ensures pass == LeftEye ==> p.y < location.y
    ensures pass != LeftEye ==> p.y > location.y
  {
    Minus(location, Vector(0.0, PassOffset(pass), 0.0))
  }

  /** The scalar field of view given to a component: the larger of the two. */
  function FovAngle(hFov: real, vFov: real): (r: real)
    ensures r >= hFov && r >= vFov
    ensures r == hFov || r == vFov
  {
    if hFov >= vFov then hFov else vFov
  }

  /** The two eyes lie symmetrically about the viewpoint, differ only in Y,
      and are 2 * EyeOffset apart. */
  lemma EyeLocationsSymmetric(location: Vector)
    ensures var l, r := EyeLocation(LeftEye, location), EyeLocation(RightEye, location);
      && l.x == r.x == location.x
      && l.z == r.z == location.z
      && (l.y + r.y) / 2.0 == location.y
      && r.y - l.y == 2.0 * EyeOffset
  {
  }

  /** The viewpoint can be recovered from either eye's location. */
  lemma EyeLocationInjective(pass: StereoPass, a: Vector, b: Vector)
    requires EyeLocation(pass, a) == EyeLocation(pass, b)
    ensures a == b
  {
    assert a.y == EyeLocation(pass, a).y + PassOffset(pass);
  }
}
