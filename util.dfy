/**
 * LookingGlassUtil: the per-view camera math shared by both tile renderers.
 *
 * The camera sits at the distance that frames `size` within half the field of view; view `v`
 * of `n` is turned by an angle spread linearly over a 40 degree cone and shifted sideways by
 * `distance * tan(angle)` (an off-axis view that keeps the focal plane fixed).
 */
module Util {
  import opened Engine

  /** Mathf.Tan of half the field of view `fov` (degrees). */
  function HalfFovTan(m: Mathf, fov: real): real
  {
    m.tan(fov * 0.5 * Deg2Rad)
  }

  /** The adjusted distance is defined: tan of half the field of view is not zero. */
  predicate DistanceDefined(m: Mathf, fov: real)
  {
    HalfFovTan(m, fov) != 0.0
  }

  /** Camera distance at which `size` fills half the field of view `fov` (degrees). */
  function GetAdjustedDistance(m: Mathf, fov: real, size: real): real
    requires DistanceDefined(m, fov)
  {
    size / HalfFovTan(m, fov)
  }

  /** At the adjusted distance, half the field of view spans exactly `size`. */
  lemma AdjustedDistanceFramesSize(m: Mathf, fov: real, size: real)
    requires DistanceDefined(m, fov)
    ensures GetAdjustedDistance(m, fov, size) * HalfFovTan(m, fov) == size
  {
  }

  /**
   * The horizontal angle (degrees) of view `view` out of `numViews`, spread over the cone
   * `[-|viewCone|/2, |viewCone|/2]`; a single view (or none) looks straight ahead.
   */
  function AngleAtView(view: int, numViews: int, viewCone: real := 40.0): real
  {
    var cone := Abs(viewCone);
    if numViews <= 1 then 0.0
    else -cone * 0.5 + (view as real) / (numViews as real - 1.0) * cone
  }

  lemma AngleSingleView(view: int, numViews: int, viewCone: real)
    requires numViews <= 1
    ensures AngleAtView(view, numViews, viewCone) == 0.0
  {
  }

  lemma AngleEndpoints(numViews: int, viewCone: real)
    requires numViews > 1
    ensures AngleAtView(0, numViews, viewCone) == -Abs(viewCone) / 2.0
    ensures AngleAtView(numViews - 1, numViews, viewCone) == Abs(viewCone) / 2.0
  {
    var d := numViews as real - 1.0;
    assert (numViews - 1) as real / d == 1.0;
  }

  lemma AngleConeSign(view: int, numViews: int, viewCone: real)
    ensures AngleAtView(view, numViews, -viewCone) == AngleAtView(view, numViews, viewCone)
  {
  }

  /** Scales a nonnegative real by a nonnegative factor without leaving the nonnegatives. */
  lemma MulNonneg(a: real, b: real)
    requires a >= 0.0 && b >= 0.0
    ensures a * b >= 0.0
  {
  }

  lemma AngleMonotone(v1: int, v2: int, numViews: int, viewCone: real)
    requires numViews > 1 && v1 <= v2
    ensures AngleAtView(v1, numViews, viewCone) <= AngleAtView(v2, numViews, viewCone)
  {
    var d := numViews as real - 1.0;
    var cone := Abs(viewCone);
    var step := (v2 as real) / d - (v1 as real) / d;
    assert step == (v2 - v1) as real / d;
    assert step >= 0.0;
    MulNonneg(step, cone);
    assert (v2 as real) / d * cone - (v1 as real) / d * cone == step * cone;
  }

  lemma AngleMirror(view: int, numViews: int, viewCone: real)
    requires numViews > 1
    ensures AngleAtView(view, numViews, viewCone) == -AngleAtView(numViews - 1 - view, numViews, viewCone)
  {
    var d := numViews as real - 1.0;
    var cone := Abs(viewCone);
    var a := (view as real) / d;
    var b := ((numViews - 1 - view) as real) / d;
    assert a + b == 1.0 by {
      assert a + b == (view as real + (numViews - 1 - view) as real) / d;
    }
    assert a * cone + b * cone == cone;
  }

  lemma AngleBounds(view: int, numViews: int, viewCone: real)
    requires numViews > 1 && 0 <= view < numViews
    ensures -Abs(viewCone) / 2.0 <= AngleAtView(view, numViews, viewCone) <= Abs(viewCone) / 2.0
  {
    AngleEndpoints(numViews, viewCone);
    AngleMonotone(0, view, numViews, viewCone);
    AngleMonotone(view, numViews - 1, numViews, viewCone);
  }

  /** With an odd number of views the middle one is the straight-ahead view. */
  lemma AngleCentre(numViews: int, viewCone: real)
    requires numViews > 1 && numViews % 2 == 1
    ensures AngleAtView((numViews - 1) / 2, numViews, viewCone) == 0.0
  {
    AngleMirror((numViews - 1) / 2, numViews, viewCone);
  }

  /** The default 4 x 9 quilt: 36 views from -20 to +20 degrees, 17 and 18 mirror each other. */
  lemma DefaultQuiltAngles()
    ensures AngleAtView(0, 36) == -20.0 && AngleAtView(35, 36) == 20.0
    ensures AngleAtView(17, 36) == -AngleAtView(18, 36)
  {
    AngleEndpoints(36, 40.0);
    AngleMirror(17, 36, 40.0);
  }

  /** The off-axis offsets are defined: the distance is, and so are both projection skews. */
  predicate OffsetsDefined(m: Mathf, aspect: real, fov: real, size: real)
  {
    DistanceDefined(m, fov) && size != 0.0 && size * aspect != 0.0
  }

  /**
   * The view/projection offsets of view `view` of `numViews`: the view-space shift
   * `(offsetX, offsetY)` and the projection skew it implies at the focal plane. The vertical
   * angle is always 0.
   */
  function GetVPMatrixOffsets(m: Mathf, aspect: real, fov: real, size: real, view: int, numViews: int): Vector4
    requires OffsetsDefined(m, aspect, fov, size)
  {
    var adjustedDistance := GetAdjustedDistance(m, fov, size);
    var verticalAngle := 0.0;
    var horizontalAngle := AngleAtView(view, numViews);
    var offsetX := adjustedDistance * m.tan(horizontalAngle * Deg2Rad);
    var offsetY := adjustedDistance * m.tan(verticalAngle * Deg2Rad);
    Vector4(offsetX, offsetY, offsetX / (size * aspect), offsetY / size)
  }

  /**
   * The projection skew is the view-space shift measured in units of the focal plane's half
   * extent (`size * aspect` across, `size` up), and there is no vertical shift (given tan 0 = 0).
   */
  lemma OffsetsSkewMatchesShift(m: Mathf, aspect: real, fov: real, size: real, view: int, numViews: int)
    requires OffsetsDefined(m, aspect, fov, size)
    ensures var r := GetVPMatrixOffsets(m, aspect, fov, size, view, numViews);
            r.z * (size * aspect) == r.x && r.w * size == r.y &&
            (m.tan(0.0) == 0.0 ==> r.y == 0.0 && r.w == 0.0)
  {
    var r := GetVPMatrixOffsets(m, aspect, fov, size, view, numViews);
    var d := GetAdjustedDistance(m, fov, size);
    assert r.z == r.x / (size * aspect);
    assert r.w == r.y / size;
    if m.tan(0.0) == 0.0 {
      assert r.y == d * 0.0;
    }
  }

  /** A lone view is not shifted at all (given tan 0 = 0). */
  lemma SingleViewNoOffset(m: Mathf, aspect: real, fov: real, size: real, view: int, numViews: int)
    requires OffsetsDefined(m, aspect, fov, size) && m.tan(0.0) == 0.0 && numViews <= 1
    ensures GetVPMatrixOffsets(m, aspect, fov, size, view, numViews) == Vector4(0.0, 0.0, 0.0, 0.0)
  {
    AngleSingleView(view, numViews, 40.0);
  }

  /** When tan is odd, mirrored views are shifted by opposite amounts. */
  lemma MirroredViewOffsets(m: Mathf, aspect: real, fov: real, size: real, view: int, numViews: int)
    requires OffsetsDefined(m, aspect, fov, size) && numViews > 1
    requires forall x :: m.tan(-x) == -m.tan(x)
    ensures GetVPMatrixOffsets(m, aspect, fov, size, view, numViews).x
         == -GetVPMatrixOffsets(m, aspect, fov, size, numViews - 1 - view, numViews).x
    ensures GetVPMatrixOffsets(m, aspect, fov, size, view, numViews).z
         == -GetVPMatrixOffsets(m, aspect, fov, size, numViews - 1 - view, numViews).z
  {
    OffsetXOfView(m, aspect, fov, size, view, numViews);
    OffsetXOfView(m, aspect, fov, size, numViews - 1 - view, numViews);
    AngleMirror(view, numViews, 40.0);
    OppositeAnglesOppositeShifts(m, GetAdjustedDistance(m, fov, size), AngleAtView(view, numViews),
                                 AngleAtView(numViews - 1 - view, numViews), size * aspect);
  }

  lemma OffsetXOfView(m: Mathf, aspect: real, fov: real, size: real, view: int, numViews: int)
    requires OffsetsDefined(m, aspect, fov, size)
    ensures var r := GetVPMatrixOffsets(m, aspect, fov, size, view, numViews);
            r.x == GetAdjustedDistance(m, fov, size) * m.tan(AngleAtView(view, numViews) * Deg2Rad) &&
            r.z == r.x / (size * aspect)
  {
  }

  /** With an odd tan, opposite angles give opposite shifts at distance `d`, and opposite skews. */
  lemma OppositeAnglesOppositeShifts(m: Mathf, d: real, a: real, b: real, s: real)
    requires a == -b && s != 0.0
    requires forall x :: m.tan(-x) == -m.tan(x)
    ensures d * m.tan(a * Deg2Rad) == -(d * m.tan(b * Deg2Rad))
    ensures d * m.tan(a * Deg2Rad) / s == -(d * m.tan(b * Deg2Rad) / s)
  {
    NegMul(b, Deg2Rad);
    var tb := m.tan(b * Deg2Rad);
    assert m.tan(a * Deg2Rad) == -tb;
    NegMul(tb, d);
    NegDiv(d * tb, s);
  }

  lemma NegMul(a: real, b: real)
    ensures (-a) * b == -(a * b) && b * (-a) == -(b * a)
  {
  }

  lemma NegDiv(a: real, b: real)
    requires b != 0.0
    ensures (-a) / b == -(a / b)
  {
  }

  /** Where SetupCameraInfo leaves the camera. */
  datatype Framing = Framing(fieldOfView: real, nearClipPlane: real, farClipPlane: real,
                             position: Vector3, localRotation: Quaternion)

  /**
   * The framing for `fov` and `size`: the camera looks down +z from `-distance`, and its clip
   * planes cut world space at `-nearClipFactor*size` and `+farClipFactor*size` whatever the fov.
   */
  function CameraFraming(m: Mathf, fov: real, size: real, nearClipFactor: real, farClipFactor: real): (f: Framing)
    requires DistanceDefined(m, fov)
    ensures f.fieldOfView == fov && f.localRotation == IdentityRotation
    ensures f.position.x == 0.0 && f.position.y == 0.0
    ensures -f.position.z * HalfFovTan(m, fov) == size
    ensures f.position.z + f.nearClipPlane == -nearClipFactor * size
    ensures f.position.z + f.farClipPlane == farClipFactor * size
    ensures f.farClipPlane - f.nearClipPlane == (nearClipFactor + farClipFactor) * size
  {
    var adjustedDistance := GetAdjustedDistance(m, fov, size);
    AdjustedDistanceFramesSize(m, fov, size);
    Framing(fov, adjustedDistance - nearClipFactor * size, adjustedDistance + farClipFactor * size,
            Vector3(0.0, 0.0, -adjustedDistance), IdentityRotation)
  }

  /** The camera's framing fields. */
  function FramingOf(camera: Camera): Framing
    reads camera
  {
    Framing(camera.fieldOfView, camera.nearClipPlane, camera.farClipPlane, camera.position, camera.localRotation)
  }

  /** The projection the engine derives for a camera with framing `f` and aspect `aspect`. */
  function FramedProjection(cm: CameraMath, f: Framing, aspect: real): Matrix4x4
  {
    cm.projection(f.fieldOfView, f.nearClipPlane, f.farClipPlane, aspect)
  }

  /** The world-to-camera matrix the engine derives for a camera with framing `f`. */
  function FramedView(cm: CameraMath, f: Framing): Matrix4x4
  {
    cm.worldToCamera(f.position, f.localRotation)
  }

  /** With positive clip factors and size the adjusted distance lies between the clip planes. */
  lemma ClipPlanesBracketDistance(m: Mathf, fov: real, size: real, nearClipFactor: real, farClipFactor: real)
    requires DistanceDefined(m, fov) && size > 0.0 && nearClipFactor > 0.0 && farClipFactor > 0.0
    ensures var f := CameraFraming(m, fov, size, nearClipFactor, farClipFactor);
            f.nearClipPlane < -f.position.z < f.farClipPlane
  {
    var f := CameraFraming(m, fov, size, nearClipFactor, farClipFactor);
    MulPos(nearClipFactor, size);
    MulPos(farClipFactor, size);
  }

  lemma MulPos(a: real, b: real)
    requires a > 0.0 && b > 0.0
    ensures a * b > 0.0
  {
  }

  /** Sets the camera's field of view, clip planes, position and rotation for `fov` and `size`. */
  method SetupCameraInfo(m: Mathf, camera: Camera, fov: real, size: real, nearClipFactor: real, farClipFactor: real)
    requires DistanceDefined(m, fov)
    modifies camera
    ensures FramingOf(camera) == CameraFraming(m, fov, size, nearClipFactor, farClipFactor)
    ensures camera.aspect == old(camera.aspect) && camera.pixelRect == old(camera.pixelRect)
    ensures camera.ProjectionMatrix() ==
            FramedProjection(camera.math, CameraFraming(m, fov, size, nearClipFactor, farClipFactor), camera.aspect)
    ensures camera.WorldToCameraMatrix() ==
            FramedView(camera.math, CameraFraming(m, fov, size, nearClipFactor, farClipFactor))
  {
    camera.fieldOfView := fov;
    var adjustedDistance := GetAdjustedDistance(m, fov, size);
    camera.nearClipPlane := adjustedDistance - nearClipFactor * size;
    camera.farClipPlane := adjustedDistance + farClipFactor * size;
    camera.position := Vector3(0.0, 0.0, -adjustedDistance);
    camera.localRotation := IdentityRotation;
  }
}
