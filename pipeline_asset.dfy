/**
 * LookingGlassRenderPipelineAsset: the pipeline's serialised settings, their getters and setters,
 * and the version migration Unity runs after loading an asset saved by an older release.
 *
 * The serialised fields are one record, `SerializedSettings`, grouped as the asset declares them:
 * the asset object holds it, and its setters and `OnAfterDeserialize` replace it. C# enums whose
 * integer value is observable (casts to and from `int`) are integer newtypes, so any stored value
 * is representable; the others are datatypes.
 */
module PipelineAsset {
  import opened MultiTexture

  /** The asset version a new asset is saved with. */
  const CurrentAssetVersion := 4

  datatype ShadowQuality = Disabled | HardShadows | SoftShadows

  /** ShadowResolution: the enum's value is the map size in pixels. */
  newtype ShadowResolution = int
  const Resolution256: ShadowResolution := 256
  const Resolution512: ShadowResolution := 512
  const Resolution1024: ShadowResolution := 1024
  const Resolution2048: ShadowResolution := 2048
  const Resolution4096: ShadowResolution := 4096

  /** MsaaQuality: the enum's value is the sample count. */
  newtype MsaaQuality = int
  const MsaaDisabled: MsaaQuality := 1
  const Msaa2x: MsaaQuality := 2
  const Msaa4x: MsaaQuality := 4
  const Msaa8x: MsaaQuality := 8

  datatype Downsampling = NoDownsampling | Bilinear2x | Box4x | Bilinear4x

  datatype LightRenderingMode = LightsDisabled | PerVertex | PerPixel

  datatype ShaderVariantLogLevel = LogDisabled | OnlyLightweightRPShaders | AllShaders

  datatype GeneralSettings = GeneralSettings(
    requireDepthTexture: bool, requireOpaqueTexture: bool, opaqueDownsampling: Downsampling)

  datatype QualitySettings = QualitySettings(supportsHDR: bool, msaa: MsaaQuality, renderScale: real)

  datatype MainLightSettings = MainLightSettings(
    renderingMode: LightRenderingMode, shadowsSupported: bool, shadowmapResolution: ShadowResolution)

  datatype AdditionalLightSettings = AdditionalLightSettings(
    renderingMode: LightRenderingMode, perObjectLimit: int, shadowsSupported: bool,
    shadowmapResolution: ShadowResolution)

  datatype ShadowSettings = ShadowSettings(
    distance: real, depthBias: real, normalBias: real, softShadowsSupported: bool)

  datatype AdvancedSettings = AdvancedSettings(supportsDynamicBatching: bool, mixedLightingSupported: bool)

  /** The Looking Glass quilt layout and framing as serialised (the `m_lg_` fields). */
  datatype LookingGlassSettings = LookingGlassSettings(
    renderTargetW: int, renderTargetH: int, tileX: int, tileY: int,
    fov: real, size: real, nearClipFactor: real, farClipFactor: real)

  /** Fields older asset versions stored, read only by the migration. */
  datatype DeprecatedSettings = DeprecatedSettings(
    shadowType: ShadowQuality, localShadowsSupported: bool, localShadowsAtlasResolution: ShadowResolution,
    maxPixelLights: int, shadowAtlasResolution: ShadowResolution)

  /** The serialised fields of the asset, grouped as the asset declares them. */
  datatype SerializedSettings = SerializedSettings(
    assetVersion: int, general: GeneralSettings, quality: QualitySettings,
    mainLight: MainLightSettings, additionalLights: AdditionalLightSettings,
    shadows: ShadowSettings, advanced: AdvancedSettings, lookingGlass: LookingGlassSettings,
    deprecated: DeprecatedSettings, shaderVariantLogLevel: ShaderVariantLogLevel)
  {
    /** msaaSampleCount's getter: the sample count. */
    function MsaaSampleCount(): int
    {
      quality.msaa as int
    }

    /** msaaSampleCount's setter: any integer is stored as the enum, and read back unchanged. */
    function WithMsaaSampleCount(value: int): (r: SerializedSettings)
      ensures r.MsaaSampleCount() == value
      ensures r.quality.(msaa := quality.msaa) == quality && r.(quality := quality) == this
    {
      this.(quality := quality.(msaa := value as MsaaQuality))
    }

    /** cascadeCount: this pipeline renders a single shadow cascade, whatever is stored. */
    function CascadeCount(): (r: int)
      ensures r == 1
    {
      1
    }

    function MainLightShadowmapResolution(): int
    {
      mainLight.shadowmapResolution as int
    }

    function AdditionalLightsShadowmapResolution(): int
    {
      additionalLights.shadowmapResolution as int
    }

    function MaxAdditionalLightsCount(): int
    {
      additionalLights.perObjectLimit
    }

    /** lookingGlassInfo: the quilt layout and framing, field for field from the Looking Glass settings. */
    function GetLookingGlassInfo(): (info: LookingGlassInfo)
      ensures info.renderTargetW == lookingGlass.renderTargetW && info.renderTargetH == lookingGlass.renderTargetH
      ensures info.tileX == lookingGlass.tileX && info.tileY == lookingGlass.tileY
      ensures info.fov == lookingGlass.fov && info.size == lookingGlass.size
      ensures info.nearClipFactor == lookingGlass.nearClipFactor && info.farClipFactor == lookingGlass.farClipFactor
    {
      var lg := lookingGlass;
      LookingGlassInfo(lg.renderTargetW, lg.renderTargetH, lg.tileX, lg.tileY,
                       lg.fov, lg.size, lg.nearClipFactor, lg.farClipFactor)
    }
  }

  /** The values a newly created asset is serialised with. */
  function Defaults(): (r: SerializedSettings)
    ensures r.assetVersion == CurrentAssetVersion
    ensures r.lookingGlass == LookingGlassSettings(4096, 4096, 4, 9, 13.5, 2.0, 1.0, 1.5)
    ensures r.MsaaSampleCount() == 4
  {
    SerializedSettings(
      CurrentAssetVersion,
      GeneralSettings(false, false, Bilinear2x),
      QualitySettings(false, Msaa4x, 1.0),
      MainLightSettings(PerPixel, true, Resolution2048),
      AdditionalLightSettings(PerPixel, 4, false, Resolution512),
      ShadowSettings(50.0, 1.0, 1.0, false),
      AdvancedSettings(true, true),
      LookingGlassSettings(4096, 4096, 4, 9, 13.5, 2.0, 1.0, 1.5),
      DeprecatedSettings(HardShadows, false, Resolution256, 0, Resolution256),
      LogDisabled)
  }

  /** The default layout is a 4 by 9 quilt of 36 views on a 4096 square texture. */
  lemma DefaultQuiltHas36Views()
    ensures var info := Defaults().GetLookingGlassInfo();
      info == LookingGlassInfo(4096, 4096, 4, 9, 13.5, 2.0, 1.0, 1.5) &&
      info.tileX * info.tileY == 36 &&
      TileWidth(info) == 1024 && TileHeight(info) == 455
  {
  }

  /** Version 3: soft-shadow support comes from the deprecated shadow type. */
  function MigrateTo3(s: SerializedSettings): SerializedSettings
  {
    s.(assetVersion := 3, shadows := s.shadows.(softShadowsSupported := s.deprecated.shadowType == SoftShadows))
  }

  /** Version 4: the additional-light and main-light shadow settings come from the deprecated fields. */
  function MigrateTo4(s: SerializedSettings): SerializedSettings
  {
    var d := s.deprecated;
    s.(assetVersion := 4,
       additionalLights := s.additionalLights.(shadowsSupported := d.localShadowsSupported,
                                               shadowmapResolution := d.localShadowsAtlasResolution,
                                               perObjectLimit := d.maxPixelLights),
       mainLight := s.mainLight.(shadowmapResolution := d.shadowAtlasResolution))
  }

  /**
   * The migration OnAfterDeserialize performs: an asset older than version 3 derives soft-shadow
   * support from its deprecated shadow type; one older than version 4 takes its additional-light
   * and main-light shadow settings from the deprecated fields. The version becomes at least 4.
   */
  function Migrate(s: SerializedSettings): (r: SerializedSettings)
    ensures r.assetVersion == if s.assetVersion < 4 then 4 else s.assetVersion
    ensures r.shadows.softShadowsSupported ==
      if s.assetVersion < 3 then s.deprecated.shadowType == SoftShadows else s.shadows.softShadowsSupported
    ensures s.assetVersion < 4 ==>
      r.additionalLights.shadowsSupported == s.deprecated.localShadowsSupported &&
      r.additionalLights.shadowmapResolution == s.deprecated.localShadowsAtlasResolution &&
      r.additionalLights.perObjectLimit == s.deprecated.maxPixelLights &&
      r.mainLight.shadowmapResolution == s.deprecated.shadowAtlasResolution
    ensures s.assetVersion >= 4 ==> r == s
  {
    var s3 := if s.assetVersion < 3 then MigrateTo3(s) else s;
    if s3.assetVersion < 4 then MigrateTo4(s3) else s3
  }

  /** The migration touches only the version, soft shadows and the four migrated settings. */
  lemma MigrateKeepsOtherSettings(s: SerializedSettings)
    ensures var r := Migrate(s);
      r.general == s.general && r.quality == s.quality && r.advanced == s.advanced &&
      r.lookingGlass == s.lookingGlass && r.deprecated == s.deprecated &&
      r.shaderVariantLogLevel == s.shaderVariantLogLevel &&
      r.mainLight.(shadowmapResolution := s.mainLight.shadowmapResolution) == s.mainLight &&
      r.additionalLights.renderingMode == s.additionalLights.renderingMode &&
      r.shadows.(softShadowsSupported := s.shadows.softShadowsSupported) == s.shadows
  {
  }

  /** Loading an asset twice migrates it once: the second migration changes nothing. */
  lemma MigrateIdempotent(s: SerializedSettings)
    ensures Migrate(Migrate(s)) == Migrate(s)
  {
  }

  /** The versions only move forward. */
  lemma MigrateMonotone(s: SerializedSettings, t: SerializedSettings)
    requires s.assetVersion <= t.assetVersion
    ensures Migrate(s).assetVersion <= Migrate(t).assetVersion
    ensures Migrate(s).assetVersion >= s.assetVersion
  {
  }

  /** A freshly created asset is already current. */
  lemma DefaultsNeedNoMigration()
    ensures Migrate(Defaults()) == Defaults()
  {
  }

  class LookingGlassRenderPipelineAsset {
    var settings: SerializedSettings

    /** A new asset carries the defaults. */
    constructor ()
      ensures settings == Defaults()
    {
      settings := Defaults();
    }

    function MsaaSampleCount(): int
      reads this
    {
      settings.MsaaSampleCount()
    }

    /** Setting msaaSampleCount changes that setting alone; reading it back gives the value set. */
    method SetMsaaSampleCount(value: int)
      modifies this
      ensures settings == old(settings).WithMsaaSampleCount(value)
      ensures MsaaSampleCount() == value
    {
      settings := settings.(quality := settings.quality.(msaa := value as MsaaQuality));
    }

    method SetRenderScale(value: real)
      modifies this
      ensures settings == old(settings).(quality := old(settings).quality.(renderScale := value))
    {
      settings := settings.(quality := settings.quality.(renderScale := value));
    }

    method SetShadowDistance(value: real)
      modifies this
      ensures settings == old(settings).(shadows := old(settings).shadows.(distance := value))
    {
      settings := settings.(shadows := settings.shadows.(distance := value));
    }

    method SetShadowDepthBias(value: real)
      modifies this
      ensures settings == old(settings).(shadows := old(settings).shadows.(depthBias := value))
    {
      settings := settings.(shadows := settings.shadows.(depthBias := value));
    }

    method SetShadowNormalBias(value: real)
      modifies this
      ensures settings == old(settings).(shadows := old(settings).shadows.(normalBias := value))
    {
      settings := settings.(shadows := settings.shadows.(normalBias := value));
    }

    /** OnAfterDeserialize: brings an asset saved by an older version up to date, step by step. */
    method OnAfterDeserialize()
      modifies this
      ensures settings == Migrate(old(settings))
      ensures old(settings).assetVersion >= CurrentAssetVersion ==> settings == old(settings)
    {
      if settings.assetVersion < 3 {
        settings := settings.(assetVersion := 3);
        settings := settings.(shadows := settings.shadows.(softShadowsSupported := settings.deprecated.shadowType == SoftShadows));
      }
      if settings.assetVersion < 4 {
        var d := settings.deprecated;
        settings := settings.(assetVersion := 4);
        settings := settings.(additionalLights := settings.additionalLights.(shadowsSupported := d.localShadowsSupported));
        settings := settings.(additionalLights := settings.additionalLights.(shadowmapResolution := d.localShadowsAtlasResolution));
        settings := settings.(additionalLights := settings.additionalLights.(perObjectLimit := d.maxPixelLights));
        settings := settings.(mainLight := settings.mainLight.(shadowmapResolution := d.shadowAtlasResolution));
      }
    }
  }
}
