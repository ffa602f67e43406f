/**
 * LookingGlassCameraInfo: the per-camera calibration records and the component that holds them.
 *
 * Both records are C# structs, so a method that assigns their fields is modelled as a function
 * from the old value to the new one; the component that owns them is a class.
 */
module CameraInfo {

  /** How a camera frames the quilt: field of view (degrees), focal size and clip factors. */
  datatype LookingGlassRenderInfoPerCamera = LookingGlassRenderInfoPerCamera(
    fov: real, size: real, nearClipFactor: real, farClipFactor: real)
  {
    /** SetupDefault: every field takes its default. */
    function SetupDefault(): (r: LookingGlassRenderInfoPerCamera)
      ensures r.fov == 13.5 && r.size == 1.0
      ensures r.nearClipFactor == 1.0 && r.farClipFactor == 1.0
    {
      this.(fov := 13.5, size := 1.0, nearClipFactor := 1.0, farClipFactor := 1.0)
    }
  }

  /** The lenticular display's calibration, as loaded from the device (all floats). */
  datatype LookingGlassDeviceConfig = LookingGlassDeviceConfig(
    pitch: real, slope: real, center: real, viewCone: real, invView: real, verticalAngle: real,
    DPI: real, screenW: real, screenH: real, flipImageX: real, flipImageY: real, flipSubp: real)
  {
    /** A float flag is set when it is not zero. */
    static predicate AsBool(param: real)
    {
      param != 0.0
    }

    /** The divisors the lenticular compositor uses are all nonzero. */
    predicate DivisorsNonZero()
    {
      DPI != 0.0 && slope != 0.0 && screenW != 0.0 && screenH != 0.0
    }

    /** SetUpDefault: the calibration of the standard 8.9 inch display, no flips. */
    function SetUpDefault(): (r: LookingGlassDeviceConfig)
      ensures r.pitch == 47.60786 && r.slope == -5.446739 && r.center == 0.1345109
      ensures r.viewCone == 40.0 && r.invView == 1.0 && r.verticalAngle == 0.0
      ensures r.DPI == 338.0 && r.screenW == 2560.0 && r.screenH == 1600.0
      ensures !AsBool(r.flipImageX) && !AsBool(r.flipImageY) && !AsBool(r.flipSubp)
      ensures r.DPI > 0.0 && r.screenW > 0.0 && r.screenH > 0.0 && r.slope != 0.0
      ensures r.DivisorsNonZero()
    {
      this.(pitch := 47.60786, slope := -5.446739, center := 0.1345109, viewCone := 40.0,
            invView := 1.0, verticalAngle := 0.0, DPI := 338.0, screenW := 2560.0,
            screenH := 1600.0, flipImageX := 0.0, flipImageY := 0.0, flipSubp := 0.0)
    }
  }

  /** The defaults do not depend on what the record held before. */
  lemma SetUpDefaultForgetsOldValue(a: LookingGlassDeviceConfig, b: LookingGlassDeviceConfig)
    ensures a.SetUpDefault() == b.SetUpDefault()
    ensures a.SetUpDefault().SetUpDefault() == a.SetUpDefault()
  {
  }

  /** The component attached to a camera: its device calibration and its framing. */
  class LookingGlassCameraInfo {
    var config: LookingGlassDeviceConfig
    var renderInfo: LookingGlassRenderInfoPerCamera

    constructor (config: LookingGlassDeviceConfig, renderInfo: LookingGlassRenderInfoPerCamera)
      ensures this.config == config && this.renderInfo == renderInfo
    {
      this.config := config;
      this.renderInfo := renderInfo;
    }

    /** Awake: the calibration is reset to its defaults; the framing is left as serialised. */
    method Awake()
      modifies this
      ensures config == old(config).SetUpDefault()
      ensures renderInfo == old(renderInfo)
    {
      config := config.SetUpDefault();
    }
  }
}
