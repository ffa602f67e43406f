/**
 * DefaultRendererSetup: the per-camera choice of render passes.
 *
 * `Init` builds the passes and names the intermediate render targets, once. `Setup` then enqueues,
 * for every camera, the passes that render it: the shared lighting set-up, and either the two
 * Looking Glass passes (game view, drawing into one quilt texture kept alive across frames) or
 * the forward passes of the scene view. An enqueued pass is modelled as a value carrying the
 * arguments its own `Setup` was given; only the multi-texture pass's `Setup` is modelled as a call.
 */
module RendererSetup {
  import opened Wrappers
  import opened Engine
  import opened MultiTexture
  import FinalOutput

  // The shader property names `Init` gives the intermediate targets
  const ColorAttachmentName := "_CameraColorTexture"
  const DepthAttachmentName := "_CameraDepthAttachment"
  const DepthTextureName := "_CameraDepthTexture"
  const OpaqueColorName := "_CameraOpaqueTexture"
  const MainLightShadowmapName := "_MainLightShadowmapTexture"

  /** Camera.clearFlags */
  datatype CameraClearFlags = Skybox | SolidColor | Depth | Nothing

  /** The fields of the camera data `Setup` reads. */
  datatype CameraData = CameraData(
    isSceneViewCamera: bool, isOffscreenRender: bool, msaaSamples: int,
    clearFlags: CameraClearFlags, lookingGlassInfo: LookingGlassInfo)

  /** The fields of the rendering data `Setup` reads. */
  datatype RenderingData = RenderingData(cameraData: CameraData, supportsMainLightShadows: bool)

  /**
   * What the engine answers during `Setup`: whether the camera needs an intermediate colour
   * texture (ScriptableRenderer.RequiresIntermediateColorTexture), what the main-light shadow
   * pass's own `Setup` returns, and whether a skybox material is assigned (RenderSettings.skybox).
   */
  datatype EngineQueries = EngineQueries(
    requiresIntermediateColorTexture: bool, mainLightShadowSetup: bool, skyboxAssigned: bool)

  /** An enqueued pass, with the targets and settings its `Setup` was given. */
  datatype Pass =
    | CreateLightweightRenderTextures(color: RenderTargetHandle, depth: RenderTargetHandle, samples: int)
    | MainLightShadowCaster(shadowmap: RenderTargetHandle)
    | SetupForwardRendering
    | SetupLightweightConstants
    | LookingMultiTexture(tileTexture: Option<RenderTexture>, info: LookingGlassInfo)
    | LookingFinal(color: RenderTargetHandle, tileTexture: Option<RenderTexture>, info: LookingGlassInfo)
    | RenderOpaqueForward(color: RenderTargetHandle, depth: RenderTargetHandle)
    | DrawSkybox(color: RenderTargetHandle, depth: RenderTargetHandle)
    | RenderTransparentForward(color: RenderTargetHandle, depth: RenderTargetHandle)
    | FinalBlit(color: RenderTargetHandle)
    | SceneViewDepthCopy(depth: RenderTargetHandle)

  /** The position of a kind of pass in the order `Setup` enqueues them. */
  function Rank(p: Pass): nat
  {
    match p
    case CreateLightweightRenderTextures(_, _, _) => 0
    case MainLightShadowCaster(_) => 1
    case SetupForwardRendering => 2
    case SetupLightweightConstants => 3
    case LookingMultiTexture(_, _) => 4
    case LookingFinal(_, _, _) => 5
    case RenderOpaqueForward(_, _) => 6
    case DrawSkybox(_, _) => 7
    case RenderTransparentForward(_, _) => 8
    case FinalBlit(_) => 9
    case SceneViewDepthCopy(_) => 10
  }

  /** The passes that draw into the colour target. */
  predicate UsesColor(p: Pass)
  {
    p.CreateLightweightRenderTextures? || p.LookingFinal? || p.RenderOpaqueForward? ||
    p.DrawSkybox? || p.RenderTransparentForward? || p.FinalBlit?
  }

  /** The passes that draw into the depth target. */
  predicate UsesDepth(p: Pass)
  {
    p.CreateLightweightRenderTextures? || p.RenderOpaqueForward? || p.DrawSkybox? ||
    p.RenderTransparentForward?
  }

  // ---------------------------------------------------------------------------------------------
  // The pass list, as a function of the camera and the engine's answers

  /** The colour target: the named intermediate texture when one is required, else the camera's. */
  function ColorHandle(q: EngineQueries): RenderTargetHandle
  {
    if q.requiresIntermediateColorTexture then NamedHandle(ColorAttachmentName) else CameraTargetHandle
  }

  /** The depth target, chosen in the same way. */
  function DepthHandle(q: EngineQueries): RenderTargetHandle
  {
    if q.requiresIntermediateColorTexture then NamedHandle(DepthAttachmentName) else CameraTargetHandle
  }

  function TexturePasses(data: RenderingData, q: EngineQueries): seq<Pass>
  {
    if q.requiresIntermediateColorTexture
    then [CreateLightweightRenderTextures(ColorHandle(q), DepthHandle(q), data.cameraData.msaaSamples)]
    else []
  }

  function ShadowPasses(data: RenderingData, q: EngineQueries): seq<Pass>
  {
    if data.supportsMainLightShadows && q.mainLightShadowSetup
    then [MainLightShadowCaster(NamedHandle(MainLightShadowmapName))]
    else []
  }

  function ForwardPasses(): seq<Pass>
  {
    [SetupForwardRendering, SetupLightweightConstants]
  }

  function GameViewPasses(data: RenderingData, q: EngineQueries, tile: Option<RenderTexture>): seq<Pass>
  {
    var info := data.cameraData.lookingGlassInfo;
    [LookingMultiTexture(tile, info), LookingFinal(ColorHandle(q), tile, info)]
  }

  function SkyboxPasses(data: RenderingData, q: EngineQueries): seq<Pass>
  {
    if data.cameraData.clearFlags == Skybox && q.skyboxAssigned
    then [DrawSkybox(ColorHandle(q), DepthHandle(q))]
    else []
  }

  function BlitPasses(data: RenderingData, q: EngineQueries): seq<Pass>
  {
    if !data.cameraData.isOffscreenRender && ColorHandle(q) != CameraTargetHandle
    then [FinalBlit(ColorHandle(q))]
    else []
  }

  function SceneViewPasses(data: RenderingData, q: EngineQueries): seq<Pass>
  {
    [RenderOpaqueForward(ColorHandle(q), DepthHandle(q))] + SkyboxPasses(data, q) +
    [RenderTransparentForward(ColorHandle(q), DepthHandle(q))] + BlitPasses(data, q)
  }

  /** The scene-view depth copy exists only in editor builds. */
  function EditorPasses(data: RenderingData, editorBuild: bool): seq<Pass>
  {
    if editorBuild && data.cameraData.isSceneViewCamera
    then [SceneViewDepthCopy(NamedHandle(DepthTextureName))]
    else []
  }

  /** Everything one `Setup` enqueues, in order. */
  function SetupPasses(data: RenderingData, q: EngineQueries, tile: Option<RenderTexture>, editorBuild: bool): seq<Pass>
  {
    TexturePasses(data, q) + ShadowPasses(data, q) + ForwardPasses() +
    (if data.cameraData.isSceneViewCamera then SceneViewPasses(data, q) else GameViewPasses(data, q, tile)) +
    EditorPasses(data, editorBuild)
  }

  /** Some pass in `ps` has rank `r`. */
  predicate Enqueued(ps: seq<Pass>, r: nat)
  {
    exists k :: 0 <= k < |ps| && Rank(ps[k]) == r
  }

  // ---------------------------------------------------------------------------------------------
  // Ordering: every pass appears at most once, in rank order

  /** Ranks strictly increase along `ps`. */
  predicate Increasing(ps: seq<Pass>)
  {
    forall i, j :: 0 <= i < j < |ps| ==> Rank(ps[i]) < Rank(ps[j])
  }

  /** Every pass of `ps` ranks in `[lo, hi)`. */
  predicate RanksWithin(ps: seq<Pass>, lo: nat, hi: nat)
  {
    forall k :: 0 <= k < |ps| ==> lo <= Rank(ps[k]) < hi
  }

  lemma IncreasingConcat(a: seq<Pass>, b: seq<Pass>, lo: nat, mid: nat, hi: nat)
    requires Increasing(a) && Increasing(b) && lo <= mid <= hi
    requires RanksWithin(a, lo, mid) && RanksWithin(b, mid, hi)
    ensures Increasing(a + b) && RanksWithin(a + b, lo, hi)
  {
    var c := a + b;
    forall i, j | 0 <= i < j < |c|
      ensures Rank(c[i]) < Rank(c[j])
    {
      if j < |a| {
        assert c[i] == a[i] && c[j] == a[j];
      } else if i >= |a| {
        assert c[i] == b[i - |a|] && c[j] == b[j - |a|];
      } else {
        assert c[i] == a[i] && c[j] == b[j - |a|];
      }
    }
    forall k | 0 <= k < |c|
      ensures lo <= Rank(c[k]) < hi
    {
      if k < |a| {
        assert c[k] == a[k];
      } else {
        assert c[k] == b[k - |a|];
      }
    }
  }

  /** A list of at most one pass of rank in `[lo, hi)`. */
  lemma SingleIncreasing(ps: seq<Pass>, lo: nat, hi: nat)
    requires |ps| <= 1 && (|ps| == 1 ==> lo <= Rank(ps[0]) < hi)
    ensures Increasing(ps) && RanksWithin(ps, lo, hi)
  {
  }

  lemma SceneViewIncreasing(data: RenderingData, q: EngineQueries)
    ensures Increasing(SceneViewPasses(data, q)) && RanksWithin(SceneViewPasses(data, q), 6, 10)
  {
    var o := [RenderOpaqueForward(ColorHandle(q), DepthHandle(q))];
    var sky := SkyboxPasses(data, q);
    var tr := [RenderTransparentForward(ColorHandle(q), DepthHandle(q))];
    var b := BlitPasses(data, q);
    SingleIncreasing(o, 6, 7);
    SingleIncreasing(sky, 7, 8);
    SingleIncreasing(tr, 8, 9);
    SingleIncreasing(b, 9, 10);
    IncreasingConcat(o, sky, 6, 7, 8);
    IncreasingConcat(o + sky, tr, 6, 8, 9);
    IncreasingConcat(o + sky + tr, b, 6, 9, 10);
  }

  lemma TextureIncreasing(data: RenderingData, q: EngineQueries)
    ensures Increasing(TexturePasses(data, q)) && RanksWithin(TexturePasses(data, q), 0, 1)
  {
    SingleIncreasing(TexturePasses(data, q), 0, 1);
  }

  lemma ShadowIncreasing(data: RenderingData, q: EngineQueries)
    ensures Increasing(ShadowPasses(data, q)) && RanksWithin(ShadowPasses(data, q), 1, 2)
  {
    SingleIncreasing(ShadowPasses(data, q), 1, 2);
  }

  lemma ForwardIncreasing()
    ensures Increasing(ForwardPasses()) && RanksWithin(ForwardPasses(), 2, 4)
  {
  }

  lemma GameViewIncreasing(data: RenderingData, q: EngineQueries, tile: Option<RenderTexture>)
    ensures Increasing(GameViewPasses(data, q, tile)) && RanksWithin(GameViewPasses(data, q, tile), 4, 6)
  {
  }

  /** The passes every camera gets, before the view-specific ones. */
  lemma CommonIncreasing(data: RenderingData, q: EngineQueries)
    ensures var c := TexturePasses(data, q) + ShadowPasses(data, q) + ForwardPasses();
      Increasing(c) && RanksWithin(c, 0, 4)
  {
    var t := TexturePasses(data, q);
    var s := ShadowPasses(data, q);
    TextureIncreasing(data, q);
    ShadowIncreasing(data, q);
    ForwardIncreasing();
    IncreasingConcat(t, s, 0, 1, 2);
    IncreasingConcat(t + s, ForwardPasses(), 0, 2, 4);
  }

  /** The common passes followed by the view-specific ones. */
  lemma ViewIncreasing(data: RenderingData, q: EngineQueries, tile: Option<RenderTexture>)
    ensures var c := TexturePasses(data, q) + ShadowPasses(data, q) + ForwardPasses() +
      (if data.cameraData.isSceneViewCamera then SceneViewPasses(data, q) else GameViewPasses(data, q, tile));
      Increasing(c) && RanksWithin(c, 0, 10)
  {
    var c := TexturePasses(data, q) + ShadowPasses(data, q) + ForwardPasses();
    CommonIncreasing(data, q);
    if data.cameraData.isSceneViewCamera {
      SceneViewIncreasing(data, q);
      IncreasingConcat(c, SceneViewPasses(data, q), 0, 4, 10);
    } else {
      GameViewIncreasing(data, q, tile);
      IncreasingConcat(c, GameViewPasses(data, q, tile), 0, 4, 6);
      assert RanksWithin(c + GameViewPasses(data, q, tile), 0, 10);
    }
  }

  /** `Setup` enqueues each kind of pass at most once, and always in the same relative order. */
  lemma {:induction false} PassesInSetupOrder(data: RenderingData, q: EngineQueries, tile: Option<RenderTexture>, editorBuild: bool)
    ensures Increasing(SetupPasses(data, q, tile, editorBuild))
  {
    var v := TexturePasses(data, q) + ShadowPasses(data, q) + ForwardPasses() +
      (if data.cameraData.isSceneViewCamera then SceneViewPasses(data, q) else GameViewPasses(data, q, tile));
    var e := EditorPasses(data, editorBuild);
    ViewIncreasing(data, q, tile);
    SingleIncreasing(e, 10, 11);
    IncreasingConcat(v, e, 0, 10, 11);
  }

  // ---------------------------------------------------------------------------------------------
  // Which passes are enqueued, and with which targets

  /** The pass list splits into its parts; a rank that belongs to one part is found only there. */
  lemma EnqueuedInPart(a: seq<Pass>, b: seq<Pass>, r: nat)
    ensures Enqueued(a + b, r) <==> Enqueued(a, r) || Enqueued(b, r)
  {
    if Enqueued(a + b, r) {
      var k :| 0 <= k < |a + b| && Rank((a + b)[k]) == r;
      if k < |a| {
        assert a[k] == (a + b)[k];
      } else {
        assert b[k - |a|] == (a + b)[k];
      }
    }
    if Enqueued(a, r) {
      var k :| 0 <= k < |a| && Rank(a[k]) == r;
      assert (a + b)[k] == a[k];
    }
    if Enqueued(b, r) {
      var k :| 0 <= k < |b| && Rank(b[k]) == r;
      assert (a + b)[|a| + k] == b[k];
    }
  }

  /** Whether rank `r` is enqueued, part by part. */
  lemma EnqueuedParts(data: RenderingData, q: EngineQueries, tile: Option<RenderTexture>, editorBuild: bool, r: nat)
    ensures Enqueued(SetupPasses(data, q, tile, editorBuild), r) <==>
      Enqueued(TexturePasses(data, q), r) || Enqueued(ShadowPasses(data, q), r) ||
      Enqueued(ForwardPasses(), r) ||
      (data.cameraData.isSceneViewCamera && Enqueued(SceneViewPasses(data, q), r)) ||
      (!data.cameraData.isSceneViewCamera && Enqueued(GameViewPasses(data, q, tile), r)) ||
      Enqueued(EditorPasses(data, editorBuild), r)
  {
    var t := TexturePasses(data, q);
    var s := ShadowPasses(data, q);
    var f := ForwardPasses();
    var v := if data.cameraData.isSceneViewCamera then SceneViewPasses(data, q) else GameViewPasses(data, q, tile);
    var e := EditorPasses(data, editorBuild);
    EnqueuedInPart(t + s + f + v, e, r);
    EnqueuedInPart(t + s + f, v, r);
    EnqueuedInPart(t + s, f, r);
    EnqueuedInPart(t, s, r);
  }

  lemma SceneViewParts(data: RenderingData, q: EngineQueries, r: nat)
    ensures Enqueued(SceneViewPasses(data, q), r) <==>
      r == 6 || r == 8 || Enqueued(SkyboxPasses(data, q), r) || Enqueued(BlitPasses(data, q), r)
  {
    var c := ColorHandle(q);
    var d := DepthHandle(q);
    var o := [RenderOpaqueForward(c, d)];
    var sky := SkyboxPasses(data, q);
    var tr := [RenderTransparentForward(c, d)];
    EnqueuedInPart(o + sky + tr, BlitPasses(data, q), r);
    EnqueuedInPart(o + sky, tr, r);
    EnqueuedInPart(o, sky, r);
    assert Enqueued(o, r) <==> r == 6 by {
      if r == 6 { assert Rank(o[0]) == 6; }
    }
    assert Enqueued(tr, r) <==> r == 8 by {
      if r == 8 { assert Rank(tr[0]) == 8; }
    }
  }

  /**
   * The texture-creation pass is enqueued iff an intermediate colour texture is required, and it
   * is then the first pass, creating the named colour and depth attachments at the camera's MSAA.
   */
  lemma CreateTexturesIffRenderToTexture(data: RenderingData, q: EngineQueries, tile: Option<RenderTexture>, editorBuild: bool)
    ensures Enqueued(SetupPasses(data, q, tile, editorBuild), 0) <==> q.requiresIntermediateColorTexture
    ensures q.requiresIntermediateColorTexture ==>
      SetupPasses(data, q, tile, editorBuild)[0] ==
        CreateLightweightRenderTextures(NamedHandle(ColorAttachmentName), NamedHandle(DepthAttachmentName),
                                        data.cameraData.msaaSamples)
  {
    EnqueuedParts(data, q, tile, editorBuild, 0);
    SceneViewParts(data, q, 0);
    if q.requiresIntermediateColorTexture {
      assert Rank(TexturePasses(data, q)[0]) == 0;
    }
  }

  /** Every pass of `ps` that draws into colour or depth uses the targets `c` and `d`. */
  predicate TargetsAre(ps: seq<Pass>, c: RenderTargetHandle, d: RenderTargetHandle)
  {
    forall k :: 0 <= k < |ps| ==> (UsesColor(ps[k]) ==> ps[k].color == c) && (UsesDepth(ps[k]) ==> ps[k].depth == d)
  }

  lemma TargetsConcat(a: seq<Pass>, b: seq<Pass>, c: RenderTargetHandle, d: RenderTargetHandle)
    requires TargetsAre(a, c, d) && TargetsAre(b, c, d)
    ensures TargetsAre(a + b, c, d)
  {
    forall k | 0 <= k < |a + b|
      ensures (UsesColor((a + b)[k]) ==> (a + b)[k].color == c) && (UsesDepth((a + b)[k]) ==> (a + b)[k].depth == d)
    {
      if k < |a| {
        assert (a + b)[k] == a[k];
      } else {
        assert (a + b)[k] == b[k - |a|];
      }
    }
  }

  lemma SceneViewTargets(data: RenderingData, q: EngineQueries)
    ensures TargetsAre(SceneViewPasses(data, q), ColorHandle(q), DepthHandle(q))
  {
    var c := ColorHandle(q);
    var d := DepthHandle(q);
    var o := [RenderOpaqueForward(c, d)];
    var tr := [RenderTransparentForward(c, d)];
    TargetsConcat(o, SkyboxPasses(data, q), c, d);
    TargetsConcat(o + SkyboxPasses(data, q), tr, c, d);
    TargetsConcat(o + SkyboxPasses(data, q) + tr, BlitPasses(data, q), c, d);
  }

  /**
   * Every pass drawing into colour or depth gets the same targets, and they leave the camera's
   * own target exactly when an intermediate texture is required.
   */
  lemma {:induction false} TargetsSwitchOnlyForRenderToTexture(data: RenderingData, q: EngineQueries, tile: Option<RenderTexture>, editorBuild: bool)
    ensures TargetsAre(SetupPasses(data, q, tile, editorBuild), ColorHandle(q), DepthHandle(q))
    ensures ColorHandle(q) != CameraTargetHandle <==> q.requiresIntermediateColorTexture
    ensures DepthHandle(q) != CameraTargetHandle <==> q.requiresIntermediateColorTexture
    ensures q.requiresIntermediateColorTexture ==>
      ColorHandle(q) == NamedHandle(ColorAttachmentName) && DepthHandle(q) == NamedHandle(DepthAttachmentName)
  {
    var c := ColorHandle(q);
    var d := DepthHandle(q);
    var t := TexturePasses(data, q);
    var s := ShadowPasses(data, q);
    var f := ForwardPasses();
    var v := if data.cameraData.isSceneViewCamera then SceneViewPasses(data, q) else GameViewPasses(data, q, tile);
    var e := EditorPasses(data, editorBuild);
    if data.cameraData.isSceneViewCamera {
      SceneViewTargets(data, q);
    }
    TargetsConcat(t, s, c, d);
    TargetsConcat(t + s, f, c, d);
    TargetsConcat(t + s + f, v, c, d);
    TargetsConcat(t + s + f + v, e, c, d);
  }

  /** The main-light shadow pass is enqueued iff the pipeline supports it and its own set-up succeeded. */
  lemma ShadowCasterIffSupportedAndSetUp(data: RenderingData, q: EngineQueries, tile: Option<RenderTexture>, editorBuild: bool)
    ensures Enqueued(SetupPasses(data, q, tile, editorBuild), 1) <==>
      data.supportsMainLightShadows && q.mainLightShadowSetup
  {
    EnqueuedParts(data, q, tile, editorBuild, 1);
    SceneViewParts(data, q, 1);
    if data.supportsMainLightShadows && q.mainLightShadowSetup {
      assert Rank(ShadowPasses(data, q)[0]) == 1;
    }
  }

  /**
   * A game-view camera's list ends with forward set-up, the constants, the multi-texture pass and
   * the final Looking Glass pass, both Looking Glass passes getting the same quilt texture and layout.
   */
  lemma GameViewEndsWithLookingGlassPasses(data: RenderingData, q: EngineQueries, tile: Option<RenderTexture>, editorBuild: bool)
    requires !data.cameraData.isSceneViewCamera
    ensures var ps := SetupPasses(data, q, tile, editorBuild);
      |ps| >= 4 &&
      ps[|ps| - 4..] == [SetupForwardRendering, SetupLightweightConstants,
                         LookingMultiTexture(tile, data.cameraData.lookingGlassInfo),
                         LookingFinal(ColorHandle(q), tile, data.cameraData.lookingGlassInfo)]
  {
    var ps := SetupPasses(data, q, tile, editorBuild);
    var pre := TexturePasses(data, q) + ShadowPasses(data, q);
    assert ps == pre + ForwardPasses() + GameViewPasses(data, q, tile);
  }

  /** No pass of a list whose ranks lie in `[lo, hi)` has a rank outside it. */
  lemma NotEnqueuedOutside(ps: seq<Pass>, lo: nat, hi: nat, r: nat)
    requires RanksWithin(ps, lo, hi) && !(lo <= r < hi)
    ensures !Enqueued(ps, r)
  {
  }

  /** A list of at most one pass holds rank `r` iff its pass has that rank. */
  lemma EnqueuedSingle(ps: seq<Pass>, r: nat)
    requires |ps| <= 1
    ensures Enqueued(ps, r) <==> |ps| == 1 && Rank(ps[0]) == r
  {
  }

  /** From rank 4 upwards only the view-specific and editor passes can hold a rank. */
  lemma UpperRanks(data: RenderingData, q: EngineQueries, tile: Option<RenderTexture>, editorBuild: bool, r: nat)
    requires 4 <= r
    ensures Enqueued(SetupPasses(data, q, tile, editorBuild), r) <==>
      (data.cameraData.isSceneViewCamera && Enqueued(SceneViewPasses(data, q), r)) ||
      (!data.cameraData.isSceneViewCamera && Enqueued(GameViewPasses(data, q, tile), r)) ||
      Enqueued(EditorPasses(data, editorBuild), r)
  {
    EnqueuedParts(data, q, tile, editorBuild, r);
    TextureIncreasing(data, q);
    ShadowIncreasing(data, q);
    ForwardIncreasing();
    NotEnqueuedOutside(TexturePasses(data, q), 0, 1, r);
    NotEnqueuedOutside(ShadowPasses(data, q), 1, 2, r);
    NotEnqueuedOutside(ForwardPasses(), 2, 4, r);
  }

  /** Which ranks the scene view's own passes hold. */
  lemma SceneViewRanks(data: RenderingData, q: EngineQueries, r: nat)
    ensures Enqueued(SceneViewPasses(data, q), r) <==>
      r == 6 || r == 8 ||
      (r == 7 && data.cameraData.clearFlags == Skybox && q.skyboxAssigned) ||
      (r == 9 && !data.cameraData.isOffscreenRender && q.requiresIntermediateColorTexture)
  {
    SceneViewParts(data, q, r);
    EnqueuedSingle(SkyboxPasses(data, q), r);
    EnqueuedSingle(BlitPasses(data, q), r);
  }

  /** For a scene-view camera, which ranks from 4 upwards are enqueued. */
  lemma SceneViewRank(data: RenderingData, q: EngineQueries, tile: Option<RenderTexture>, editorBuild: bool, r: nat)
    requires data.cameraData.isSceneViewCamera && 4 <= r
    ensures Enqueued(SetupPasses(data, q, tile, editorBuild), r) <==>
      r == 6 || r == 8 ||
      (r == 7 && data.cameraData.clearFlags == Skybox && q.skyboxAssigned) ||
      (r == 9 && !data.cameraData.isOffscreenRender && q.requiresIntermediateColorTexture) ||
      (r == 10 && editorBuild)
  {
    UpperRanks(data, q, tile, editorBuild, r);
    SceneViewRanks(data, q, r);
    EnqueuedSingle(EditorPasses(data, editorBuild), r);
  }

  /**
   * A scene-view camera gets no Looking Glass pass; it always gets the opaque and transparent
   * passes, the skybox only for a skybox-clearing camera with a skybox assigned, the final blit
   * only on screen and from an intermediate texture, and the depth copy in editor builds.
   * With `PassesInSetupOrder` this fixes the whole list.
   */
  lemma SceneViewPassSelection(data: RenderingData, q: EngineQueries, tile: Option<RenderTexture>, editorBuild: bool)
    requires data.cameraData.isSceneViewCamera
    ensures var ps := SetupPasses(data, q, tile, editorBuild);
      !Enqueued(ps, 4) && !Enqueued(ps, 5) && Enqueued(ps, 6) && Enqueued(ps, 8) &&
      (Enqueued(ps, 7) <==> data.cameraData.clearFlags == Skybox && q.skyboxAssigned) &&
      (Enqueued(ps, 9) <==> !data.cameraData.isOffscreenRender && q.requiresIntermediateColorTexture) &&
      (Enqueued(ps, 10) <==> editorBuild)
  {
    SceneViewRank(data, q, tile, editorBuild, 4);
    SceneViewRank(data, q, tile, editorBuild, 5);
    SceneViewRank(data, q, tile, editorBuild, 6);
    SceneViewRank(data, q, tile, editorBuild, 7);
    SceneViewRank(data, q, tile, editorBuild, 8);
    SceneViewRank(data, q, tile, editorBuild, 9);
    SceneViewRank(data, q, tile, editorBuild, 10);
  }

  /** A game-view camera gets none of the scene view's forward passes, nor the depth copy. */
  lemma GameViewHasNoSceneViewPasses(data: RenderingData, q: EngineQueries, tile: Option<RenderTexture>, editorBuild: bool, r: nat)
    requires !data.cameraData.isSceneViewCamera && 6 <= r
    ensures !Enqueued(SetupPasses(data, q, tile, editorBuild), r)
  {
    UpperRanks(data, q, tile, editorBuild, r);
    GameViewIncreasing(data, q, tile);
    NotEnqueuedOutside(GameViewPasses(data, q, tile), 4, 6, r);
    EnqueuedSingle(EditorPasses(data, editorBuild), r);
  }

  // ---------------------------------------------------------------------------------------------
  // Depth copy support

  /**
   * CanCopyDepth: whether the camera's depth can be copied. The depth is copied without MSAA when
   * the device renders depth textures or copies textures; MSAA depth resolve is switched off.
   */
  function CanCopyDepth(msaaSamples: int, supportsTextureCopy: bool, supportsDepthTarget: bool): (r: bool)
    ensures r <==> msaaSamples <= 1 && (supportsDepthTarget || supportsTextureCopy)
  {
    var msaaEnabledForCamera := msaaSamples > 1;
    var supportsDepthCopy := !msaaEnabledForCamera && (supportsDepthTarget || supportsTextureCopy);
    var msaaDepthResolve := false;
    supportsDepthCopy || msaaDepthResolve
  }

  // ---------------------------------------------------------------------------------------------
  // The renderer and the set-up object

  /** The scriptable renderer's queue of passes for the current camera. */
  class ScriptableRenderer {
    var activePasses: seq<Pass>

    constructor ()
      ensures activePasses == []
    {
      activePasses := [];
    }

    method EnqueuePass(p: Pass)
      modifies this
      ensures activePasses == old(activePasses) + [p]
    {
      activePasses := activePasses + [p];
    }
  }

  /** The quilt texture must be (re)created: it was never made, or the engine destroyed it. */
  predicate TileMissing(tile: Option<RenderTexture>, destroyed: set<nat>)
  {
    tile.None? || tile.value.id in destroyed
  }

  class DefaultRendererSetup {
    /** Whether the player is an editor build (the code under UNITY_EDITOR). */
    const editorBuild: bool
    var initialized: bool
    var multiTexturePass: LookingGlassMultiTextureRenderer?
    var finalPass: FinalOutput.LookingGlassFinalOutput?
    var colorAttachment: RenderTargetHandle
    var depthAttachment: RenderTargetHandle
    var depthTexture: RenderTargetHandle
    var opaqueColor: RenderTargetHandle
    var mainLightShadowmap: RenderTargetHandle
    var tileTexture: Option<RenderTexture>

    /** The targets carry the names `Init` gives them. */
    predicate HandlesNamed()
      reads this
    {
      colorAttachment == NamedHandle(ColorAttachmentName) &&
      depthAttachment == NamedHandle(DepthAttachmentName) &&
      depthTexture == NamedHandle(DepthTextureName) &&
      opaqueColor == NamedHandle(OpaqueColorName) &&
      mainLightShadowmap == NamedHandle(MainLightShadowmapName)
    }

    /** Once initialised, the passes exist and the targets are named. */
    predicate Valid()
      reads this, multiTexturePass, if multiTexturePass != null then {multiTexturePass.commandBuffer} else {}
    {
      initialized ==> multiTexturePass != null && finalPass != null && multiTexturePass.Valid() && HandlesNamed()
    }

    constructor (editorBuild: bool)
      ensures Valid() && !initialized && this.editorBuild == editorBuild
      ensures multiTexturePass == null && finalPass == null && tileTexture == None
      ensures colorAttachment == UnsetHandle && depthAttachment == UnsetHandle && depthTexture == UnsetHandle
      ensures opaqueColor == UnsetHandle && mainLightShadowmap == UnsetHandle
    {
      this.editorBuild := editorBuild;
      initialized := false;
      multiTexturePass := null;
      finalPass := null;
      colorAttachment := UnsetHandle;
      depthAttachment := UnsetHandle;
      depthTexture := UnsetHandle;
      opaqueColor := UnsetHandle;
      mainLightShadowmap := UnsetHandle;
      tileTexture := None;
    }

    /** Init: builds the passes and names the targets the first time; later calls change nothing. */
    method Init()
      requires Valid()
      modifies this
      ensures Valid() && initialized && tileTexture == old(tileTexture)
      ensures old(initialized) ==> unchanged(this)
      ensures !old(initialized) ==> fresh(multiTexturePass) && fresh(finalPass)
    {
      if initialized {
        return;
      }
      multiTexturePass := new LookingGlassMultiTextureRenderer();
      finalPass := new FinalOutput.LookingGlassFinalOutput();
      NameTargets();
      initialized := true;
    }

    /** RenderTargetHandle.Init on each of the five targets. */
    method NameTargets()
      modifies this`colorAttachment, this`depthAttachment, this`depthTexture, this`opaqueColor, this`mainLightShadowmap
      ensures HandlesNamed()
    {
      colorAttachment := NamedHandle(ColorAttachmentName);
      depthAttachment := NamedHandle(DepthAttachmentName);
      depthTexture := NamedHandle(DepthTextureName);
      opaqueColor := NamedHandle(OpaqueColorName);
      mainLightShadowmap := NamedHandle(MainLightShadowmapName);
    }

    /**
     * Setup: enqueues the passes for one camera. A game-view camera reuses the quilt texture and
     * creates one of the layout's render-target size only when there is none alive.
     */
    method Setup(backend: Backend, renderer: ScriptableRenderer, data: RenderingData, q: EngineQueries)
      requires Valid()
      modifies this, renderer, backend, multiTexturePass
      ensures Valid() && initialized
      ensures old(initialized) ==> multiTexturePass == old(multiTexturePass) && finalPass == old(finalPass)
      ensures !old(initialized) ==> fresh(multiTexturePass) && fresh(finalPass)
      ensures backend.destroyed == old(backend.destroyed)
      ensures data.cameraData.isSceneViewCamera || !TileMissing(old(tileTexture), old(backend.destroyed)) ==>
        tileTexture == old(tileTexture) && backend.trace == old(backend.trace) &&
        backend.nextTextureId == old(backend.nextTextureId)
      ensures !data.cameraData.isSceneViewCamera && TileMissing(old(tileTexture), old(backend.destroyed)) ==>
        tileTexture == Some(RenderTexture(old(backend.nextTextureId), data.cameraData.lookingGlassInfo.renderTargetW,
                                          data.cameraData.lookingGlassInfo.renderTargetH)) &&
        backend.trace == old(backend.trace) + [CreateTexture(tileTexture.value)] &&
        backend.nextTextureId == old(backend.nextTextureId) + 1
      ensures !data.cameraData.isSceneViewCamera ==>
        multiTexturePass.dstTiledTexture == tileTexture && multiTexturePass.drawInfo == data.cameraData.lookingGlassInfo
      ensures old(initialized) && data.cameraData.isSceneViewCamera ==>
        multiTexturePass.dstTiledTexture == old(multiTexturePass.dstTiledTexture) &&
        multiTexturePass.drawInfo == old(multiTexturePass.drawInfo)
      ensures renderer.activePasses == old(renderer.activePasses) + SetupPasses(data, q, tileTexture, editorBuild)
    {
      Init();
      ghost var p0 := renderer.activePasses;
      var colorHandle, depthHandle := EnqueueCommonPasses(renderer, data, q, colorAttachment, depthAttachment, mainLightShadowmap);
      ghost var p1 := renderer.activePasses;
      if !data.cameraData.isSceneViewCamera {
        SetupGameView(backend, renderer, data, q, colorHandle);
      } else {
        EnqueueSceneViewPasses(renderer, data, q, colorHandle, depthHandle);
      }
      ghost var p2 := renderer.activePasses;
      if editorBuild && data.cameraData.isSceneViewCamera {
        renderer.EnqueuePass(SceneViewDepthCopy(depthTexture));
      }
      assert renderer.activePasses == p2 + EditorPasses(data, editorBuild);
      SetupPassesParts(data, q, tileTexture, editorBuild, p0, p1, p2, renderer.activePasses);
    }

    /**
     * The game-view half of `Setup`: the quilt texture is created only when none is alive, and
     * both Looking Glass passes get it with the camera's layout.
     */
    method SetupGameView(backend: Backend, renderer: ScriptableRenderer, data: RenderingData, q: EngineQueries,
                         colorHandle: RenderTargetHandle)
      requires Valid() && initialized && colorHandle == ColorHandle(q)
      modifies this`tileTexture, renderer, backend, multiTexturePass
      ensures Valid()
      ensures backend.destroyed == old(backend.destroyed)
      ensures !TileMissing(old(tileTexture), old(backend.destroyed)) ==>
        tileTexture == old(tileTexture) && backend.trace == old(backend.trace) &&
        backend.nextTextureId == old(backend.nextTextureId)
      ensures TileMissing(old(tileTexture), old(backend.destroyed)) ==>
        tileTexture == Some(RenderTexture(old(backend.nextTextureId), data.cameraData.lookingGlassInfo.renderTargetW,
                                          data.cameraData.lookingGlassInfo.renderTargetH)) &&
        backend.trace == old(backend.trace) + [CreateTexture(tileTexture.value)] &&
        backend.nextTextureId == old(backend.nextTextureId) + 1
      ensures multiTexturePass.dstTiledTexture == tileTexture && multiTexturePass.drawInfo == data.cameraData.lookingGlassInfo
      ensures renderer.activePasses == old(renderer.activePasses) + GameViewPasses(data, q, tileTexture)
    {
      var info := data.cameraData.lookingGlassInfo;
      if tileTexture.None? || tileTexture.value.id in backend.destroyed {
        var t := backend.CreateRenderTexture(info.renderTargetW, info.renderTargetH);
        tileTexture := Some(t);
      }
      multiTexturePass.Setup(tileTexture, info);
      renderer.EnqueuePass(LookingMultiTexture(tileTexture, info));
      renderer.EnqueuePass(LookingFinal(colorHandle, tileTexture, info));
    }
  }

  /** Gluing the parts `Setup` appends one after the other. */
  lemma SetupPassesParts(data: RenderingData, q: EngineQueries, tile: Option<RenderTexture>, editorBuild: bool,
                         p0: seq<Pass>, p1: seq<Pass>, p2: seq<Pass>, p3: seq<Pass>)
    requires p1 == p0 + TexturePasses(data, q) + ShadowPasses(data, q) + ForwardPasses()
    requires p2 == p1 + (if data.cameraData.isSceneViewCamera then SceneViewPasses(data, q) else GameViewPasses(data, q, tile))
    requires p3 == p2 + EditorPasses(data, editorBuild)
    ensures p3 == p0 + SetupPasses(data, q, tile, editorBuild)
  {
  }

  /** The passes every camera gets: the attachments (when needed), the shadow map, forward set-up and constants. */
  method EnqueueCommonPasses(renderer: ScriptableRenderer, data: RenderingData, q: EngineQueries,
                             colorAttachment: RenderTargetHandle, depthAttachment: RenderTargetHandle,
                             mainLightShadowmap: RenderTargetHandle)
      returns (colorHandle: RenderTargetHandle, depthHandle: RenderTargetHandle)
    requires colorAttachment == NamedHandle(ColorAttachmentName) && depthAttachment == NamedHandle(DepthAttachmentName)
    requires mainLightShadowmap == NamedHandle(MainLightShadowmapName)
    modifies renderer
    ensures colorHandle == ColorHandle(q) && depthHandle == DepthHandle(q)
    ensures renderer.activePasses == old(renderer.activePasses) + TexturePasses(data, q) + ShadowPasses(data, q) + ForwardPasses()
  {
    var requiresRenderToTexture := q.requiresIntermediateColorTexture;
    colorHandle := CameraTargetHandle;
    depthHandle := CameraTargetHandle;
    if requiresRenderToTexture {
      colorHandle := colorAttachment;
      depthHandle := depthAttachment;
      renderer.EnqueuePass(CreateLightweightRenderTextures(colorHandle, depthHandle, data.cameraData.msaaSamples));
    }
    var mainLightShadows := false;
    if data.supportsMainLightShadows {
      mainLightShadows := q.mainLightShadowSetup;
      if mainLightShadows {
        renderer.EnqueuePass(MainLightShadowCaster(mainLightShadowmap));
      }
    }
    renderer.EnqueuePass(SetupForwardRendering);
    renderer.EnqueuePass(SetupLightweightConstants);
  }

  /** The scene view's forward passes: opaque, skybox, transparent and the final blit. */
  method EnqueueSceneViewPasses(renderer: ScriptableRenderer, data: RenderingData, q: EngineQueries,
                                colorHandle: RenderTargetHandle, depthHandle: RenderTargetHandle)
    requires colorHandle == ColorHandle(q) && depthHandle == DepthHandle(q)
    modifies renderer
    ensures renderer.activePasses == old(renderer.activePasses) + SceneViewPasses(data, q)
  {
    renderer.EnqueuePass(RenderOpaqueForward(colorHandle, depthHandle));
    if data.cameraData.clearFlags == Skybox && q.skyboxAssigned {
      renderer.EnqueuePass(DrawSkybox(colorHandle, depthHandle));
    }
    renderer.EnqueuePass(RenderTransparentForward(colorHandle, depthHandle));
    if !data.cameraData.isOffscreenRender && colorHandle != CameraTargetHandle {
      renderer.EnqueuePass(FinalBlit(colorHandle));
    }
  }
}
