/**
 * LookingGlassFinalOutput: the compositing pass. It turns the display's calibration into the
 * lenticular shader's parameters, binds the quilt as the material's main texture and draws one
 * full-screen quad into the camera target.
 */
module FinalOutput {
  import opened Wrappers
  import opened Engine
  import opened CameraInfo

  /** The shader the lenticular material is created from. */
  const LenticularShaderName := "HoloPlay/Lenticular"

  /**
   * The `(portionX, portionY)` that LookingGlassRenderingInfo.CalculatePortion yields for a
   * layout; that method's source is not part of this model, so callers supply it.
   */
  type PortionOf = LookingGlassRenderingInfo -> (real, real)

  /** `-1` when a flip flag is set, `1` otherwise. */
  function FlipSign(flag: real): (r: real)
    ensures r == 1.0 || r == -1.0
    ensures r == -1.0 <==> LookingGlassDeviceConfig.AsBool(flag)
  {
    if LookingGlassDeviceConfig.AsBool(flag) then -1.0 else 1.0
  }

  /** The lens pitch in screen widths, corrected for the lens slant. */
  function Pitch(m: Mathf, c: LookingGlassDeviceConfig): real
    requires c.DivisorsNonZero()
  {
    var screenInches := c.screenW / c.DPI;
    var newPitch := c.pitch * screenInches;
    newPitch * m.cos(m.atan(1.0 / c.slope))
  }

  /** The lens slant measured across the screen, mirrored when the image is flipped. */
  function Tilt(c: LookingGlassDeviceConfig): real
    requires c.DivisorsNonZero()
  {
    c.screenH / (c.screenW * c.slope) * FlipSign(c.flipImageX)
  }

  /** The lens phase, moved by half a lens when the image is flipped. */
  function Center(c: LookingGlassDeviceConfig): real
  {
    c.center + (if LookingGlassDeviceConfig.AsBool(c.flipImageX) then 0.5 else 0.0)
  }

  /** The width of one subpixel in screen widths, mirrored when the image is flipped. */
  function Subp(c: LookingGlassDeviceConfig): real
    requires c.DivisorsNonZero()
  {
    1.0 / (c.screenW * 3.0) * FlipSign(c.flipImageX)
  }

  /** The index of the red subpixel: 0, or 2 when the subpixel order is flipped. */
  function RedIndex(c: LookingGlassDeviceConfig): int
  {
    if !LookingGlassDeviceConfig.AsBool(c.flipSubp) then 0 else 2
  }

  /** The index of the blue subpixel: 2, or 0 when the subpixel order is flipped. */
  function BlueIndex(c: LookingGlassDeviceConfig): int
  {
    if !LookingGlassDeviceConfig.AsBool(c.flipSubp) then 2 else 0
  }

  /** The quilt layout: tile counts and the portion of the texture the tiles cover. */
  function TileVector(d: LookingGlassRenderingInfo, portion: (real, real)): Vector4
  {
    Vector4(d.tileX as real, d.tileY as real, portion.0, portion.1)
  }

  /** The screen's aspect ratio, twice, and the overscan flag (always off). */
  function AspectVector(c: LookingGlassDeviceConfig): Vector4
    requires c.DivisorsNonZero()
  {
    var overscan := false;
    Vector4(c.screenW / c.screenH, c.screenW / c.screenH, if overscan then 1.0 else 0.0, 0.0)
  }

  /** The eleven material properties PassConfigToMaterial writes. */
  function LenticularParams(m: Mathf, c: LookingGlassDeviceConfig, d: LookingGlassRenderingInfo,
                            portion: (real, real)): map<string, MaterialValue>
    requires c.DivisorsNonZero()
  {
    map["pitch" := FloatValue(Pitch(m, c)),
        "tilt" := FloatValue(Tilt(c)),
        "center" := FloatValue(Center(c)),
        "invView" := FloatValue(c.invView),
        "flipX" := FloatValue(c.flipImageX),
        "flipY" := FloatValue(c.flipImageY),
        "subp" := FloatValue(Subp(c)),
        "ri" := IntValue(RedIndex(c)),
        "bi" := IntValue(BlueIndex(c)),
        "tile" := VectorValue(TileVector(d, portion)),
        "aspect" := VectorValue(AspectVector(c))]
  }

  /** The parameters as PassConfigToMaterial writes them, one property after another. */
  lemma ParamsInWriteOrder(m: Mathf, c: LookingGlassDeviceConfig, d: LookingGlassRenderingInfo, portion: (real, real))
    requires c.DivisorsNonZero()
    ensures LenticularParams(m, c, d, portion) ==
            map[]["pitch" := FloatValue(Pitch(m, c))]["tilt" := FloatValue(Tilt(c))]["center" := FloatValue(Center(c))]
                 ["invView" := FloatValue(c.invView)]["flipX" := FloatValue(c.flipImageX)]["flipY" := FloatValue(c.flipImageY)]
                 ["subp" := FloatValue(Subp(c))]["ri" := IntValue(RedIndex(c))]["bi" := IntValue(BlueIndex(c))]
                 ["tile" := VectorValue(TileVector(d, portion))]["aspect" := VectorValue(AspectVector(c))]
  {
  }

  lemma UnionUpdate<K, V>(p: map<K, V>, q: map<K, V>, k: K, v: V)
    ensures (p + q)[k := v] == p + q[k := v]
  {
  }

  /** The compositing draw: camera target, identity matrices, the camera's viewport, one quad. */
  function FinalBlit(pixelRect: Rect, properties: map<string, MaterialValue>, mainTexture: Option<RenderTexture>): seq<Event>
  {
    [SetRenderTarget(CameraTarget), SetViewProjectionMatrices(Identity, Identity), SetViewport(pixelRect),
     DrawFullscreenQuad(properties, mainTexture)]
  }

  // ---------------------------------------------------------------------------------------------
  // Properties of the parameter mapping

  /** The unflipped configuration behind `c`: the same calibration with `flipImageX` cleared. */
  function Unflipped(c: LookingGlassDeviceConfig): LookingGlassDeviceConfig
  {
    c.(flipImageX := 0.0)
  }

  /**
   * Flipping the image horizontally negates the tilt and the subpixel width and moves the lens
   * phase by half a lens; without the flip they are the plain calibration terms.
   */
  lemma FlipImageXMirrorsLens(c: LookingGlassDeviceConfig)
    requires c.DivisorsNonZero()
    ensures Tilt(Unflipped(c)) == c.screenH / (c.screenW * c.slope)
    ensures Subp(Unflipped(c)) == 1.0 / (c.screenW * 3.0)
    ensures Center(Unflipped(c)) == c.center
    ensures LookingGlassDeviceConfig.AsBool(c.flipImageX) ==>
              Tilt(c) == -Tilt(Unflipped(c)) && Subp(c) == -Subp(Unflipped(c)) && Center(c) == c.center + 0.5
    ensures !LookingGlassDeviceConfig.AsBool(c.flipImageX) ==>
              Tilt(c) == Tilt(Unflipped(c)) && Subp(c) == Subp(Unflipped(c)) && Center(c) == c.center
  {
  }

  /**
   * What setting `flipImageX` does to the material: `tilt` and `subp` change sign, `center`
   * moves by half a lens, `flipX` carries the flag, and the other seven properties are the
   * same as for the unflipped calibration.
   */
  lemma FlipImageXParams(m: Mathf, c: LookingGlassDeviceConfig, d: LookingGlassRenderingInfo, portion: (real, real),
                         flag: real)
    requires c.DivisorsNonZero() && flag != 0.0
    ensures var on := LenticularParams(m, c.(flipImageX := flag), d, portion);
            var off := LenticularParams(m, c.(flipImageX := 0.0), d, portion);
            on.Keys == off.Keys &&
            on["tilt"].f == -off["tilt"].f && on["subp"].f == -off["subp"].f &&
            on["center"].f == off["center"].f + 0.5 &&
            on["flipX"] == FloatValue(flag) && off["flipX"] == FloatValue(0.0)
    ensures var on := LenticularParams(m, c.(flipImageX := flag), d, portion);
            var off := LenticularParams(m, c.(flipImageX := 0.0), d, portion);
            on["pitch"] == off["pitch"] && on["invView"] == off["invView"] && on["flipY"] == off["flipY"] &&
            on["ri"] == off["ri"] && on["bi"] == off["bi"] && on["tile"] == off["tile"] &&
            on["aspect"] == off["aspect"]
  {
    var con, coff := c.(flipImageX := flag), c.(flipImageX := 0.0);
    ParamsKeys(m, con, d, portion);
    ParamsKeys(m, coff, d, portion);
    ParamsHoldTheirTerms(m, con, d, portion);
    ParamsHoldTheirTerms(m, coff, d, portion);
    FlipImageXMirrorsLens(con);
    FlipImageXMirrorsLens(coff);
    assert Unflipped(con) == Unflipped(coff);
  }

  /** The tilt and subpixel width are never zero, so the flip always changes them. */
  lemma TiltAndSubpNonZero(c: LookingGlassDeviceConfig)
    requires c.DivisorsNonZero()
    ensures Subp(c) != 0.0
    ensures c.screenH != 0.0 ==> Tilt(c) != 0.0
  {
    assert c.screenW * 3.0 != 0.0;
    var u := 1.0 / (c.screenW * 3.0);
    assert u * (c.screenW * 3.0) == 1.0;
    var w := c.screenW * c.slope;
    assert w != 0.0 by { NonZeroProduct(c.screenW, c.slope); }
    assert (c.screenH / w) * w == c.screenH;
  }

  lemma NonZeroProduct(a: real, b: real)
    requires a != 0.0 && b != 0.0
    ensures a * b != 0.0
  {
  }

  /**
   * `ri` and `bi` are always 0 and 2 in some order: `(0, 2)` without the subpixel flip,
   * `(2, 0)` with it.
   */
  lemma SubpixelOrder(c: LookingGlassDeviceConfig)
    ensures {RedIndex(c), BlueIndex(c)} == {0, 2}
    ensures RedIndex(c) == 0 && BlueIndex(c) == 2 <==> c.flipSubp == 0.0
    ensures RedIndex(c) == 2 && BlueIndex(c) == 0 <==> c.flipSubp != 0.0
    ensures RedIndex(c.(flipSubp := 0.0)) == BlueIndex(c.(flipSubp := 1.0))
    ensures BlueIndex(c.(flipSubp := 0.0)) == RedIndex(c.(flipSubp := 1.0))
  {
  }

  /** The aspect vector holds `screenW / screenH` twice, then zero overscan and a zero w. */
  lemma AspectVectorIsScreenRatio(c: LookingGlassDeviceConfig)
    requires c.DivisorsNonZero()
    ensures var a := AspectVector(c);
            a.x == a.y && a.x * c.screenH == c.screenW && a.z == 0.0 && a.w == 0.0
  {
  }

  /**
   * Each property holds its named term: the copied fields verbatim, the tile counts and
   * portions in `tile`, the integer subpixel indices in `ri` and `bi`.
   */
  lemma ParamsHoldTheirTerms(m: Mathf, c: LookingGlassDeviceConfig, d: LookingGlassRenderingInfo, portion: (real, real))
    requires c.DivisorsNonZero()
    ensures var p := LenticularParams(m, c, d, portion);
            p["invView"] == FloatValue(c.invView) && p["flipX"] == FloatValue(c.flipImageX) &&
            p["flipY"] == FloatValue(c.flipImageY) &&
            p["ri"] == IntValue(RedIndex(c)) && p["bi"] == IntValue(BlueIndex(c)) &&
            p["tile"].VectorValue? && p["tile"].v.x == d.tileX as real && p["tile"].v.y == d.tileY as real &&
            p["tile"].v.z == portion.0 && p["tile"].v.w == portion.1 &&
            p["tilt"] == FloatValue(Tilt(c)) && p["center"] == FloatValue(Center(c)) &&
            p["subp"] == FloatValue(Subp(c)) && p["aspect"] == VectorValue(AspectVector(c))
  {
  }

  /** PassConfigToMaterial writes exactly these eleven properties. */
  lemma ParamsKeys(m: Mathf, c: LookingGlassDeviceConfig, d: LookingGlassRenderingInfo, portion: (real, real))
    requires c.DivisorsNonZero()
    ensures LenticularParams(m, c, d, portion).Keys ==
            {"pitch", "tilt", "center", "invView", "flipX", "flipY", "subp", "ri", "bi", "tile", "aspect"}
  {
  }

  /** Only `pitch` depends on the trigonometry; the other ten properties do not. */
  lemma OnlyPitchUsesTrigonometry(m1: Mathf, m2: Mathf, c: LookingGlassDeviceConfig, d: LookingGlassRenderingInfo,
                                  portion: (real, real), key: string)
    requires c.DivisorsNonZero() && key in LenticularParams(m1, c, d, portion) && key != "pitch"
    ensures LenticularParams(m1, c, d, portion)[key] == LenticularParams(m2, c, d, portion)[key]
  {
  }

  /**
   * Passing a configuration again overwrites every property the previous pass wrote: the
   * material ends up the same whatever calibration, trigonometry, layout or portion came before.
   */
  lemma LatestConfigWins(props: map<string, MaterialValue>,
                         m1: Mathf, c1: LookingGlassDeviceConfig, d1: LookingGlassRenderingInfo, portion1: (real, real),
                         m2: Mathf, c2: LookingGlassDeviceConfig, d2: LookingGlassRenderingInfo, portion2: (real, real))
    requires c1.DivisorsNonZero() && c2.DivisorsNonZero()
    ensures props + LenticularParams(m1, c1, d1, portion1) + LenticularParams(m2, c2, d2, portion2) ==
            props + LenticularParams(m2, c2, d2, portion2)
  {
    ParamsKeys(m1, c1, d1, portion1);
    ParamsKeys(m2, c2, d2, portion2);
    OverwriteCovered(props, LenticularParams(m1, c1, d1, portion1), LenticularParams(m2, c2, d2, portion2));
  }

  /** A later write that covers every key of an earlier one hides it. */
  lemma OverwriteCovered<K, V>(props: map<K, V>, p1: map<K, V>, p2: map<K, V>)
    requires p1.Keys <= p2.Keys
    ensures props + p1 + p2 == props + p2
  {
  }

  /** With the default calibration: no flips, and the plain tilt, phase and subpixel terms. */
  lemma DefaultCalibrationParams(c: LookingGlassDeviceConfig)
    ensures var d := c.SetUpDefault();
            Tilt(d) == 1600.0 / (2560.0 * -5.446739) && Tilt(d) < 0.0 &&
            Center(d) == 0.1345109 && Subp(d) == 1.0 / 7680.0 &&
            RedIndex(d) == 0 && BlueIndex(d) == 2 && AspectVector(d).x == 1.6
  {
    var d := c.SetUpDefault();
    assert Tilt(d) == 1600.0 / (2560.0 * -5.446739);
  }

  // ---------------------------------------------------------------------------------------------
  // The pass

  class LookingGlassFinalOutput {
    var tiledTexture: Option<RenderTexture>
    var drawInfo: LookingGlassRenderingInfo
    var lenticularMat: Material?
    var colorAttachmentHandle: RenderTargetHandle
    var deviceConfig: LookingGlassDeviceConfig

    constructor ()
      ensures lenticularMat == null && tiledTexture == None
      ensures drawInfo == LookingGlassRenderingInfo(0, 0) && colorAttachmentHandle == UnsetHandle
      ensures deviceConfig == LookingGlassDeviceConfig(0.0, 0.0, 0.0, 0.0, 0.0, 0.0, 0.0, 0.0, 0.0, 0.0, 0.0, 0.0)
    {
      tiledTexture := None;
      drawInfo := LookingGlassRenderingInfo(0, 0);
      lenticularMat := null;
      colorAttachmentHandle := UnsetHandle;
      deviceConfig := LookingGlassDeviceConfig(0.0, 0.0, 0.0, 0.0, 0.0, 0.0, 0.0, 0.0, 0.0, 0.0, 0.0, 0.0);
    }

    /** SetUp: remembers the colour handle, the quilt texture, the layout and the calibration. */
    method SetUp(colorHandle: RenderTargetHandle, texture: Option<RenderTexture>,
                 dinfo: LookingGlassRenderingInfo, dconfig: LookingGlassDeviceConfig)
      modifies this
      ensures colorAttachmentHandle == colorHandle && tiledTexture == texture
      ensures drawInfo == dinfo && deviceConfig == dconfig
      ensures lenticularMat == old(lenticularMat)
    {
      colorAttachmentHandle := colorHandle;
      tiledTexture := texture;
      drawInfo := dinfo;
      deviceConfig := dconfig;
    }

    /** PassConfigToMaterial: the eleven lenticular parameters are written over the material's properties. */
    method PassConfigToMaterial(m: Mathf, portionOf: PortionOf)
      requires lenticularMat != null && deviceConfig.DivisorsNonZero()
      modifies lenticularMat
      ensures lenticularMat.properties == old(lenticularMat.properties) +
                LenticularParams(m, deviceConfig, drawInfo, portionOf(drawInfo))
      ensures lenticularMat.mainTexture == old(lenticularMat.mainTexture)
    {
      var mat := lenticularMat;
      ghost var c := deviceConfig;
      ghost var p0 := mat.properties;
      // `written` holds what the calls below have set so far: the properties are always `p0 + written`
      ghost var written: map<string, MaterialValue> := map[];
      assert p0 + written == p0;

      var screenInches := deviceConfig.screenW / deviceConfig.DPI;
      var newPitch := deviceConfig.pitch * screenInches;
      newPitch := newPitch * m.cos(m.atan(1.0 / deviceConfig.slope));
      assert newPitch == Pitch(m, c);
      UnionUpdate(p0, written, "pitch", FloatValue(newPitch));
      mat.SetFloat("pitch", newPitch);
      written := written["pitch" := FloatValue(Pitch(m, c))];

      var newTilt := deviceConfig.screenH / (deviceConfig.screenW * deviceConfig.slope);
      newTilt := newTilt * (if LookingGlassDeviceConfig.AsBool(deviceConfig.flipImageX) then -1.0 else 1.0);
      assert newTilt == Tilt(c);
      UnionUpdate(p0, written, "tilt", FloatValue(newTilt));
      mat.SetFloat("tilt", newTilt);
      written := written["tilt" := FloatValue(Tilt(c))];

      var newCenter := deviceConfig.center;
      newCenter := newCenter + (if LookingGlassDeviceConfig.AsBool(deviceConfig.flipImageX) then 0.5 else 0.0);
      assert newCenter == Center(c);
      UnionUpdate(p0, written, "center", FloatValue(newCenter));
      mat.SetFloat("center", newCenter);
      written := written["center" := FloatValue(Center(c))];
      UnionUpdate(p0, written, "invView", FloatValue(deviceConfig.invView));
      mat.SetFloat("invView", deviceConfig.invView);
      written := written["invView" := FloatValue(c.invView)];
      UnionUpdate(p0, written, "flipX", FloatValue(deviceConfig.flipImageX));
      mat.SetFloat("flipX", deviceConfig.flipImageX);
      written := written["flipX" := FloatValue(c.flipImageX)];
      UnionUpdate(p0, written, "flipY", FloatValue(deviceConfig.flipImageY));
      mat.SetFloat("flipY", deviceConfig.flipImageY);
      written := written["flipY" := FloatValue(c.flipImageY)];

      var subp := 1.0 / (deviceConfig.screenW * 3.0);
      subp := subp * (if LookingGlassDeviceConfig.AsBool(deviceConfig.flipImageX) then -1.0 else 1.0);
      assert subp == Subp(c);
      UnionUpdate(p0, written, "subp", FloatValue(subp));
      mat.SetFloat("subp", subp);
      written := written["subp" := FloatValue(Subp(c))];

      var ri := if !LookingGlassDeviceConfig.AsBool(deviceConfig.flipSubp) then 0 else 2;
      UnionUpdate(p0, written, "ri", IntValue(ri));
      mat.SetInt("ri", ri);
      written := written["ri" := IntValue(RedIndex(c))];
      var bi := if !LookingGlassDeviceConfig.AsBool(deviceConfig.flipSubp) then 2 else 0;
      UnionUpdate(p0, written, "bi", IntValue(bi));
      mat.SetInt("bi", bi);
      written := written["bi" := IntValue(BlueIndex(c))];

      var (portionX, portionY) := portionOf(drawInfo);
      var tile := Vector4(drawInfo.tileX as real, drawInfo.tileY as real, portionX, portionY);
      UnionUpdate(p0, written, "tile", VectorValue(tile));
      mat.SetVector("tile", tile);
      written := written["tile" := VectorValue(TileVector(drawInfo, portionOf(drawInfo)))];
      var overscan := false;
      var aspect := Vector4(deviceConfig.screenW / deviceConfig.screenH, deviceConfig.screenW / deviceConfig.screenH,
                            if overscan then 1.0 else 0.0, 0.0);
      UnionUpdate(p0, written, "aspect", VectorValue(aspect));
      mat.SetVector("aspect", aspect);
      written := written["aspect" := VectorValue(AspectVector(c))];
      ParamsInWriteOrder(m, c, drawInfo, portionOf(drawInfo));
    }

    /**
     * Execute: the lenticular material is created on the first call and reused afterwards; it
     * gets the parameters and the quilt texture, and one full-screen quad is drawn with it into
     * the camera target over the camera's pixel rectangle.
     */
    method Execute(m: Mathf, portionOf: PortionOf, backend: Backend, camera: Camera)
      requires deviceConfig.DivisorsNonZero()
      modifies this, lenticularMat, backend
      ensures tiledTexture == old(tiledTexture) && drawInfo == old(drawInfo) && deviceConfig == old(deviceConfig)
      ensures colorAttachmentHandle == old(colorAttachmentHandle)
      ensures lenticularMat != null
      ensures old(lenticularMat) != null ==> lenticularMat == old(lenticularMat)
      ensures old(lenticularMat) == null ==> fresh(lenticularMat) && lenticularMat.shaderName == LenticularShaderName
      ensures lenticularMat.properties ==
                (if old(lenticularMat) == null then map[] else old(lenticularMat.properties)) +
                LenticularParams(m, deviceConfig, drawInfo, portionOf(drawInfo))
      ensures lenticularMat.mainTexture == tiledTexture
      ensures backend.trace == old(backend.trace) + FinalBlit(camera.pixelRect, lenticularMat.properties, tiledTexture)
      ensures backend.nextTextureId == old(backend.nextTextureId) && backend.destroyed == old(backend.destroyed)
    {
      if lenticularMat == null {
        lenticularMat := new Material(LenticularShaderName);
      }
      PassConfigToMaterial(m, portionOf);
      lenticularMat.mainTexture := tiledTexture;
      var cmd := new CommandBuffer();
      cmd.SetRenderTarget(CameraTarget);
      cmd.SetViewProjectionMatrices(Identity, Identity);
      cmd.SetViewport(camera.pixelRect);
      cmd.DrawFullscreenQuad(lenticularMat.properties, lenticularMat.mainTexture);
      backend.ExecuteCommandBuffer(cmd);
    }
  }
}
