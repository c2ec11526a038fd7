/** The camera's scalar state: pitch and field-of-view clamping, the zoom
    and turn rules and the four movement directions. The trigonometric
    front vector and the normalized side vector are vector maths over glm,
    so a camera is built with the two functions that compute them. */
module Cameras {
  import opened Geometry

  /** Camera::Direction */
  datatype Direction = Forward | Backward | Left | Right

  const MAX_PITCH: real := 89.0
  const MIN_FOV: real := 0.1
  const MAX_FOV: real := 180.0

  /** setPitch: the pitch kept within [-89, 89], the nearer bound when outside. */
  function ClampPitch(p: real): (r: real)
    ensures -MAX_PITCH <= r <= MAX_PITCH
    ensures -MAX_PITCH <= p <= MAX_PITCH ==> r == p
    ensures p > MAX_PITCH ==> r == MAX_PITCH
    ensures p < -MAX_PITCH ==> r == -MAX_PITCH
  {
    if p > MAX_PITCH then MAX_PITCH else if p < -MAX_PITCH then -MAX_PITCH else p
  }

  /** setFov: 0.1 at or below 0.1, 180 at or above 180, otherwise unchanged. */
  function ClampFov(f: real): (r: real)
    ensures MIN_FOV <= r <= MAX_FOV
    ensures f <= MIN_FOV ==> r == MIN_FOV
    ensures f >= MAX_FOV ==> r == MAX_FOV
    ensures MIN_FOV < f < MAX_FOV ==> r == f
  {
    if f <= MIN_FOV then MIN_FOV else if f >= MAX_FOV then MAX_FOV else f
  }

  /** Clamping twice is clamping once. */
  lemma ClampIdempotent(p: real, f: real)
    ensures ClampPitch(ClampPitch(p)) == ClampPitch(p)
    ensures ClampFov(ClampFov(f)) == ClampFov(f)
  {
  }

  /** A turn or zoom delta scaled by the current field of view over the zoom
      multiplier, as updateOrientation and updateFov scale it. */
  function Scaled(delta: real, fov: real, zoomMultiplier: real): real
    requires zoomMultiplier != 0.0
  {
    delta * (fov / zoomMultiplier)
  }

  /** updatePosition's switch: along the front vector for Forward and
      Backward, along the side vector for Left and Right. */
  function Moved(position: Vec3, direction: Direction, front: Vec3, side: Vec3, distance: real): Vec3
  {
    match direction
    case Forward => Add(position, Scale(front, distance))
    case Backward => Sub(position, Scale(front, distance))
    case Left => Sub(position, Scale(side, distance))
    case Right => Add(position, Scale(side, distance))
  }

  /** The direction that undoes each one. */
  function Opposite(direction: Direction): (o: Direction)
    ensures o != direction
  {
    match direction
    case Forward => Backward
    case Backward => Forward
    case Left => Right
    case Right => Left
  }

  /** Moving by the same distance in the opposite direction, with the same
      front and side vectors, restores the position. */
  lemma MoveRoundTrip(position: Vec3, direction: Direction, front: Vec3, side: Vec3, distance: real)
    ensures Moved(Moved(position, direction, front, side, distance), Opposite(direction), front, side, distance) == position
  {
    var moved := Moved(position, direction, front, side, distance);
    var back := Moved(moved, Opposite(direction), front, side, distance);
    assert back.x == position.x && back.y == position.y && back.z == position.z;
  }

  /** Moving by distance zero stays put. */
  lemma MoveZero(position: Vec3, direction: Direction, front: Vec3, side: Vec3)
    ensures Moved(position, direction, front, side, 0.0) == position
  {
    var p := Moved(position, direction, front, side, 0.0);
    assert p.x == position.x && p.y == position.y && p.z == position.z;
  }

  class Camera {
    var position: Vec3
    var front: Vec3
    var up: Vec3
    var yaw: real
    var pitch: real
    var movementSpeed: real
    var turnSensitivity: real
    var fov: real
    var aspectRatio: real
    var near: real
    var far: real
    var zoomMultiplier: real
    /** The unit front vector for a pitch and a yaw in degrees. */
    const frontOf: (real, real) -> Vec3
    /** glm::normalize(glm::cross(front, up)). */
    const sideOf: (Vec3, Vec3) -> Vec3

    /** The pitch and zoom state every method keeps. */
    predicate Valid()
      reads this
    {
      -MAX_PITCH <= pitch <= MAX_PITCH && MIN_FOV <= fov <= MAX_FOV && zoomMultiplier != 0.0
    }

    /** Camera(...): the scalars are stored as given, pitch and fov are
        clamped, and the orientation update with zero deltas leaves yaw and
        pitch as they are and computes the front vector. */
    constructor (desiredPosition: Vec3, desiredUp: Vec3, desiredYaw: real, desiredPitch: real,
                 desiredMovementSpeed: real, desiredTurnSensitivity: real, desiredFov: real,
                 desiredAspectRatio: real, desiredNear: real, desiredFar: real, desiredZoomMultiplier: real,
                 frontFunction: (real, real) -> Vec3, sideFunction: (Vec3, Vec3) -> Vec3)
      requires desiredZoomMultiplier != 0.0
      ensures position == desiredPosition && up == desiredUp && yaw == desiredYaw
      ensures pitch == ClampPitch(desiredPitch) && fov == ClampFov(desiredFov)
      ensures movementSpeed == desiredMovementSpeed && turnSensitivity == desiredTurnSensitivity
      ensures aspectRatio == desiredAspectRatio && near == desiredNear && far == desiredFar
      ensures zoomMultiplier == desiredZoomMultiplier
      ensures frontOf == frontFunction && sideOf == sideFunction
      ensures front == frontFunction(pitch, yaw)
      ensures Valid()
    {
      position := desiredPosition;
      up := desiredUp;
      yaw := desiredYaw;
      pitch := desiredPitch;
      movementSpeed := desiredMovementSpeed;
      turnSensitivity := desiredTurnSensitivity;
      aspectRatio := desiredAspectRatio;
      near := desiredNear;
      far := desiredFar;
      fov := desiredFov;
      zoomMultiplier := desiredZoomMultiplier;
      front := Vec3(0.0, 0.0, 0.0);
      frontOf := frontFunction;
      sideOf := sideFunction;
      new;
      SetPitch(desiredPitch);
      SetFov(desiredFov);
      UpdateOrientation(0.0, 0.0);
    }

    /** setPitch */
    method SetPitch(desiredPitch: real)
      modifies this`pitch
      ensures pitch == ClampPitch(desiredPitch)
      ensures old(Valid()) ==> Valid()
    {
      pitch := desiredPitch;
      if pitch > MAX_PITCH {
        pitch := MAX_PITCH;
      } else if pitch < -MAX_PITCH {
        pitch := -MAX_PITCH;
      }
    }

    /** setFov; the projection it then rebuilds is not modelled. */
    method SetFov(desiredFov: real)
      modifies this`fov
      ensures fov == ClampFov(desiredFov)
      ensures old(Valid()) ==> Valid()
    {
      fov := desiredFov;
      if fov <= MIN_FOV {
        fov := MIN_FOV;
      } else if fov >= MAX_FOV {
        fov := MAX_FOV;
      }
    }

    /** updateFov: zooms by a delta scaled by the current field of view. */
    method UpdateFov(deltaFov: real)
      requires zoomMultiplier != 0.0
      modifies this`fov
      ensures fov == ClampFov(old(fov) + Scaled(deltaFov, old(fov), zoomMultiplier))
      ensures MIN_FOV <= fov <= MAX_FOV
      ensures old(Valid()) ==> Valid()
    {
      assert Scaled(deltaFov, fov, zoomMultiplier) == deltaFov * (fov / zoomMultiplier);
      SetFov(fov + (deltaFov * (fov / zoomMultiplier)));
    }

    /** updateOrientation: yaw grows by the scaled delta without wrapping,
        pitch by its scaled delta and is then clamped; the front vector is
        recomputed from the new angles. */
    method UpdateOrientation(deltaYaw: real, deltaPitch: real)
      requires zoomMultiplier != 0.0
      modifies this`yaw, this`pitch, this`front
      ensures yaw == old(yaw) + Scaled(deltaYaw, fov, zoomMultiplier) * turnSensitivity
      ensures pitch == ClampPitch(old(pitch) + Scaled(deltaPitch, fov, zoomMultiplier) * turnSensitivity)
      ensures -MAX_PITCH <= pitch <= MAX_PITCH
      ensures front == frontOf(pitch, yaw)
      ensures old(Valid()) ==> Valid()
    {
      yaw := yaw + deltaYaw * (fov / zoomMultiplier) * turnSensitivity;
      SetPitch(pitch + (deltaPitch * (fov / zoomMultiplier) * turnSensitivity));
      front := frontOf(pitch, yaw);
    }

    /** updatePosition: moves along the front or side vector; nothing but
        the position changes. */
    method UpdatePosition(direction: Direction, distance: real)
      modifies this`position
      ensures position == Moved(old(position), direction, front, sideOf(front, up), distance)
      ensures old(Valid()) ==> Valid()
    {
      match direction
      case Forward =>
        position := Add(position, Scale(front, distance));
      case Backward =>
        position := Sub(position, Scale(front, distance));
      case Left =>
        position := Sub(position, Scale(sideOf(front, up), distance));
      case Right =>
        position := Add(position, Scale(sideOf(front, up), distance));
    }
  }
}
