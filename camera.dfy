// The camera's orientation state: yaw and pitch in degrees, and the
// vertical field of view that zooming changes. Pitch and field of view are
// kept within fixed bounds; yaw turns freely. The direction vectors derived
// from yaw and pitch by trigonometry are not part of this model.

module Cameras {
  import opened Vectors

  const YAW: real := -90.0
  const PITCH: real := 0.0
  const SPEED: real := 2.5
  const SENSITIVITY: real := 0.1
  const FOV: real := 45.0

  /** Narrowest and widest field of view, in degrees. */
  const MIN_FOV: real := 1.0
  const MAX_FOV: real := 45.0
  /** Steepest pitch up or down, in degrees. */
  const MAX_PITCH: real := 89.0

  /** `x` brought into `[lo, hi]`. */
  function Clamp(x: real, lo: real, hi: real): (r: real)
    requires lo <= hi
    ensures lo <= r <= hi
    ensures lo <= x <= hi ==> r == x
    ensures x < lo ==> r == lo
    ensures x > hi ==> r == hi
  {
    if x < lo then lo else if x > hi then hi else x
  }

  /** Clamping twice is clamping once: zooming or pitching by 0 right after
      a zoom or a pitch changes nothing. */
  lemma ClampIdempotent(x: real, lo: real, hi: real)
    requires lo <= hi
    ensures Clamp(Clamp(x, lo, hi), lo, hi) == Clamp(x, lo, hi)
  {
  }

  class Camera {
    var position: Vec3
    var worldUp: Vec3
    var yaw: real
    var pitch: real
    var moveSpeed: real
    var mouseSensitivity: real
    var fov: real

    /** Stores the given position, world-up direction and angles, with the
        default movement speed and mouse sensitivity. */
    constructor (position: Vec3 := ZERO, up: Vec3 := Vec3(0.0, 1.0, 0.0),
                 yaw: real := YAW, pitch: real := PITCH, fov: real := FOV)
      ensures this.position == position && worldUp == up
      ensures this.yaw == yaw && this.pitch == pitch && this.fov == fov
      ensures moveSpeed == SPEED && mouseSensitivity == SENSITIVITY
    {
      this.position := position;
      worldUp := up;
      this.yaw := yaw;
      this.pitch := pitch;
      this.fov := fov;
      moveSpeed := SPEED;
      mouseSensitivity := SENSITIVITY;
    }

    method Translate(delta: Vec3)
      modifies this`position
      ensures position == Add(old(position), delta)
    {
      position := Add(position, delta);
    }

    /** Narrows the field of view by `delta`, keeping it within its bounds. */
    method Zoom(delta: real)
      modifies this`fov
      ensures fov == Clamp(old(fov) - delta, MIN_FOV, MAX_FOV)
    {
      fov := fov - delta;
      if fov < MIN_FOV {
        fov := MIN_FOV;
      }
      if fov > MAX_FOV {
        fov := MAX_FOV;
      }
    }

    /** Turns left or right by `delta`, with no bound. */
    method RotateYaw(delta: real)
      modifies this`yaw
      ensures yaw == old(yaw) + delta
    {
      yaw := yaw + delta;
    }

    /** Tilts up or down by `delta`, never past straight up or down. */
    method RotatePitch(delta: real)
      modifies this`pitch
      ensures pitch == Clamp(old(pitch) + delta, -MAX_PITCH, MAX_PITCH)
    {
      pitch := pitch + delta;
      if pitch > MAX_PITCH {
        pitch := MAX_PITCH;
      }
      if pitch < -MAX_PITCH {
        pitch := -MAX_PITCH;
      }
    }
  }
}
