/**
 * `pixel_to_arm_coords`: the pinhole back-projection of a detection centre at
 * the IR range, shifted by the camera mount offset into the arm frame.
 */
module Transform {
  import opened Wrappers

  /** Camera intrinsics from `raspberrypi/config.py` (640x480 image, centre at half size). */
  const FX: real := 650.0
  const FY: real := 650.0
  const CX: real := 640.0 / 2.0
  const CY: real := 480.0 / 2.0

  /** `CAMERA_MOUNT_OFFSET_CM`: where the camera sits relative to the arm base. */
  const OFFSET_X: real := 20.0
  const OFFSET_Y: real := 0.0
  const OFFSET_Z: real := 30.0

  datatype Point3 = Point3(x: real, y: real, z: real)

  /** A point in the camera frame: the arm-frame point plus the mount offset. */
  function ToCamera(p: Point3): (q: Point3)
    ensures q.z - OFFSET_Z == p.z
  {
    Point3(p.x + OFFSET_X, p.y + OFFSET_Y, p.z + OFFSET_Z)
  }

  /** The pinhole projection of an arm-frame point back onto the image plane. */
  function Project(p: Point3): (pixel: (real, real))
    requires ToCamera(p).z != 0.0
  {
    var q := ToCamera(p);
    (CX + FX * q.x / q.z, CY + FY * q.y / q.z)
  }

  /**
   * The transform with the depth `Z_cam` used on both image axes: camera
   * coordinates `((px - cx) Z / fx, (py - cy) Z / fy, Z)` minus the offset.
   * The depth of the result is the IR range less the mount height.
   */
  function PixelToArm(px: int, py: int, distanceCm: real): (p: Point3)
    ensures ToCamera(p).z == distanceCm
    ensures px as real == CX ==> ToCamera(p).x == 0.0
    ensures py as real == CY ==> ToCamera(p).y == 0.0
  {
    var zCam := distanceCm;
    var xCam := (px as real - CX) * zCam / FX;
    var yCam := (py as real - CY) * zCam / FY;
    Point3(xCam - OFFSET_X, yCam - OFFSET_Y, zCam - OFFSET_Z)
  }

  /** Back-projecting at a positive range and projecting again recovers the pixel. */
  lemma ReprojectRecoversPixel(px: int, py: int, distanceCm: real)
    requires distanceCm != 0.0
    ensures Project(PixelToArm(px, py, distanceCm)) == (px as real, py as real)
  {
    var q := ToCamera(PixelToArm(px, py, distanceCm));
    assert q.x == (px as real - CX) * distanceCm / FX;
    assert FX * q.x / q.z == px as real - CX;
    assert FY * q.y / q.z == py as real - CY;
  }

  /**
   * The transform as the source spells it: the Y row reads the undefined name
   * `Z_cm`, so every call raises `NameError` before a point is built.
   */
  function PixelToArmAsWritten(px: int, py: int, distanceCm: real): (r: Call<Point3>)
    ensures r.Raised?
  {
    Raised("NameError")
  }

  /** On every input the written transform fails where the intended one returns a point. */
  lemma AsWrittenNeverReturns(px: int, py: int, distanceCm: real)
    ensures PixelToArmAsWritten(px, py, distanceCm) != Returned(PixelToArm(px, py, distanceCm))
  {
  }
}
