/**
 * The surface of the Unity engine that the Looking Glass passes use, reduced to what the passes
 * observe: plain vector and matrix values, the camera's fields, texture handles, command buffers,
 * and the render backend seen as one ordered log of the calls made to it.
 *
 * Floats are `real`. Trigonometry is not computed: `Mathf` carries `Tan`, `Cos` and `Atan` as
 * opaque functions that every caller passes down.
 */
module Engine {
  import opened Wrappers

  datatype Vector3 = Vector3(x: real, y: real, z: real)

  datatype Vector4 = Vector4(x: real, y: real, z: real, w: real)

  /** The zero vector, the value C# gives every element of a new `Vector4[]`. */
  const Zero4 := Vector4(0.0, 0.0, 0.0, 0.0)

  datatype Quaternion = Quaternion(x: real, y: real, z: real, w: real)

  /** Quaternion.identity */
  const IdentityRotation := Quaternion(0.0, 0.0, 0.0, 1.0)

  datatype Rect = Rect(x: real, y: real, width: real, height: real)

  /** Matrix4x4 with Unity's field names: `mRC` is row R, column C. */
  datatype Matrix4x4 = Matrix4x4(
    m00: real, m01: real, m02: real, m03: real,
    m10: real, m11: real, m12: real, m13: real,
    m20: real, m21: real, m22: real, m23: real,
    m30: real, m31: real, m32: real, m33: real)

  /** The entry in row `row` and column `col`. */
  function Entry(m: Matrix4x4, row: int, col: int): real
    requires 0 <= row < 4 && 0 <= col < 4
  {
    if row == 0 then (if col == 0 then m.m00 else if col == 1 then m.m01 else if col == 2 then m.m02 else m.m03)
    else if row == 1 then (if col == 0 then m.m10 else if col == 1 then m.m11 else if col == 2 then m.m12 else m.m13)
    else if row == 2 then (if col == 0 then m.m20 else if col == 1 then m.m21 else if col == 2 then m.m22 else m.m23)
    else (if col == 0 then m.m30 else if col == 1 then m.m31 else if col == 2 then m.m32 else m.m33)
  }

  /** Matrix4x4.zero, the value C# gives every element of a new `Matrix4x4[]`. */
  const ZeroMatrix := Matrix4x4(
    0.0, 0.0, 0.0, 0.0,
    0.0, 0.0, 0.0, 0.0,
    0.0, 0.0, 0.0, 0.0,
    0.0, 0.0, 0.0, 0.0)

  /** Matrix4x4.identity */
  const Identity := Matrix4x4(
    1.0, 0.0, 0.0, 0.0,
    0.0, 1.0, 0.0, 0.0,
    0.0, 0.0, 1.0, 0.0,
    0.0, 0.0, 0.0, 1.0)

  /** Unity's Mathf trigonometry, left uninterpreted: `tan`, `cos` and `atan` (radians). */
  datatype Mathf = Mathf(tan: real -> real, cos: real -> real, atan: real -> real)

  /** Mathf.Deg2Rad: `2 * PI / 360` as a single-precision float. */
  const Deg2Rad: real := 0.0174532924

  /** Mathf.Abs */
  function Abs(x: real): real
  {
    if x < 0.0 then -x else x
  }

  /** C#'s integer division, which truncates toward zero (Dafny's `/` is Euclidean). */
  function CsDiv(a: int, b: int): (q: int)
    requires b != 0
    ensures a >= 0 ==> q == a / b
    ensures a <= 0 ==> q == -((-a) / b)
  {
    var n := if a < 0 then -a else a;
    var d := if b < 0 then -b else b;
    DivByNegative(a, b);
    DivByNegative(-a, b);
    if (a < 0) != (b < 0) then -(n / d) else n / d
  }

  /** Euclidean division by a negative divisor negates the quotient by its absolute value. */
  lemma DivByNegative(a: int, b: int)
    requires b != 0
    ensures b < 0 ==> a / b == -(a / (-b))
  {
    if b < 0 {
      var q, r := a / (-b), a % (-b);
      assert a == b * (-q) + r && 0 <= r < -b;
      DivUnique(a, b, -q, r);
    }
  }

  /** The quotient and remainder of Euclidean division are unique. */
  lemma DivUnique(a: int, b: int, q: int, r: int)
    requires b != 0 && a == b * q + r && 0 <= r < (if b < 0 then -b else b)
    ensures a / b == q
  {
    var q0, r0 := a / b, a % b;
    var n := if b < 0 then -b else b;
    var d := q - q0;
    assert b * d == r0 - r by {
      assert b * q0 + r0 == a;
      MulSub(b, q, q0);
    }
    if d != 0 {
      MulAbsAtLeast(b, d, n);
    }
  }

  /** Multiplication distributes over subtraction. */
  lemma MulSub(b: int, x: int, y: int)
    ensures b * (x - y) == b * x - b * y
  {
  }

  /** A non-zero multiple of `b` is at least `|b|` away from zero. */
  lemma MulAbsAtLeast(b: int, d: int, n: int)
    requires b != 0 && d != 0 && n == (if b < 0 then -b else b)
    ensures b * d >= n || b * d <= -n
  {
    var m := if d < 0 then -d else d;
    assert m >= 1;
    assert n * m >= n by { assert n * m == n * (m - 1) + n; }
    assert b * d == n * m || b * d == -(n * m);
  }

  /** A texture handle: the engine's identity for it and its size in pixels. */
  datatype RenderTexture = RenderTexture(id: nat, width: int, height: int)

  /** Where draws go: the camera's own target or a texture (`None`: a texture field that was never set). */
  datatype RenderTarget = CameraTarget | TextureTarget(texture: Option<RenderTexture>)

  /**
   * A render target handle: the default value a handle field holds before anything names it,
   * the camera's own target, or a shader property named by `Init`.
   * Handles compare by identity, so no named handle is the camera target.
   */
  datatype RenderTargetHandle = UnsetHandle | CameraTargetHandle | NamedHandle(name: string)

  /** RenderQueueRange.opaque and RenderQueueRange.transparent */
  datatype RenderQueueRange = Opaque | Transparent

  datatype Mesh = Mesh(id: nat)

  /** A scene material as the instancing pass reads it. */
  datatype SharedMaterial = SharedMaterial(id: nat, enableInstancing: bool)

  /** A MeshRenderer component: its shared material, if one is assigned. */
  datatype MeshRenderer = MeshRenderer(sharedMaterial: Option<SharedMaterial>)

  /**
   * A MeshFilter component as the instancing pass sees it: its shared mesh, the MeshRenderer on
   * the same game object (if any) and its transform's local-to-world matrix.
   */
  datatype MeshFilter = MeshFilter(sharedMesh: Option<Mesh>, renderer: Option<MeshRenderer>,
                                   localToWorld: Matrix4x4)

  /** A MaterialPropertyBlock holding the two per-view vector arrays of the instanced path. */
  datatype PropertyBlock = PropertyBlock(vpOffsets: seq<Vector4>, screenRects: seq<Vector4>)

  /** A value stored in a material property (SetFloat, SetInt, SetVector). */
  datatype MaterialValue = FloatValue(f: real) | IntValue(i: int) | VectorValue(v: Vector4)

  /** One call observed by the render backend, in the order it was made. */
  datatype Event =
    | CreateTexture(texture: RenderTexture)
    | AcquireTemporary(texture: RenderTexture)
    | ReleaseTemporary(texture: RenderTexture)
    | SetViewProjectionMatrices(view: Matrix4x4, proj: Matrix4x4)
    | SetRenderTarget(target: RenderTarget)
    | ClearRenderTarget
    | DrawRenderers(queue: RenderQueueRange)
    | RenderObjectsWithError
    | CopyTexture(src: RenderTexture, srcX: int, srcY: int, width: int, height: int,
                  dst: Option<RenderTexture>, dstX: int, dstY: int)
    | DrawMeshInstanced(mesh: Mesh, material: SharedMaterial, matrices: seq<Matrix4x4>,
                        count: int, block: PropertyBlock)
    | SetViewport(rect: Rect)
    | DrawFullscreenQuad(properties: map<string, MaterialValue>, mainTexture: Option<RenderTexture>)
    | EnableKeyword(keyword: string)
    | DisableKeyword(keyword: string)
    | Submit

  /**
   * How the engine derives a camera's matrices: the projection from the field of view, the
   * near and far clip planes and the aspect; the world-to-camera matrix from the transform's
   * position and rotation. The engine's formulas themselves are not modelled.
   */
  datatype CameraMath = CameraMath(
    projection: (real, real, real, real) -> Matrix4x4,
    worldToCamera: (Vector3, Quaternion) -> Matrix4x4)

  /** The fields of a Camera (and its transform) that the passes read or write. */
  class Camera {
    const math: CameraMath
    var fieldOfView: real
    var nearClipPlane: real
    var farClipPlane: real
    var position: Vector3
    var localRotation: Quaternion
    var aspect: real
    var pixelRect: Rect

    constructor (math: CameraMath)
      ensures this.math == math
    {
      this.math := math;
    }

    /** Camera.projectionMatrix: derived from the current framing and aspect. */
    function ProjectionMatrix(): Matrix4x4
      reads this
    {
      math.projection(fieldOfView, nearClipPlane, farClipPlane, aspect)
    }

    /** Camera.worldToCameraMatrix: derived from the current transform. */
    function WorldToCameraMatrix(): Matrix4x4
      reads this
    {
      math.worldToCamera(position, localRotation)
    }
  }

  /** A CommandBuffer: commands recorded now and handed to the backend later. */
  class CommandBuffer {
    var commands: seq<Event>

    constructor ()
      ensures commands == []
    {
      commands := [];
    }

    method Clear()
      modifies this
      ensures commands == []
    {
      commands := [];
    }

    method SetRenderTarget(target: RenderTarget)
      modifies this
      ensures commands == old(commands) + [Event.SetRenderTarget(target)]
    {
      commands := commands + [Event.SetRenderTarget(target)];
    }

    method ClearRenderTarget()
      modifies this
      ensures commands == old(commands) + [Event.ClearRenderTarget]
    {
      commands := commands + [Event.ClearRenderTarget];
    }

    method SetViewProjectionMatrices(view: Matrix4x4, proj: Matrix4x4)
      modifies this
      ensures commands == old(commands) + [Event.SetViewProjectionMatrices(view, proj)]
    {
      commands := commands + [Event.SetViewProjectionMatrices(view, proj)];
    }

    method CopyTexture(src: RenderTexture, srcX: int, srcY: int, width: int, height: int,
                       dst: Option<RenderTexture>, dstX: int, dstY: int)
      modifies this
      ensures commands == old(commands) + [Event.CopyTexture(src, srcX, srcY, width, height, dst, dstX, dstY)]
    {
      commands := commands + [Event.CopyTexture(src, srcX, srcY, width, height, dst, dstX, dstY)];
    }

    method DrawMeshInstanced(mesh: Mesh, material: SharedMaterial, matrices: seq<Matrix4x4>,
                             count: int, block: PropertyBlock)
      modifies this
      ensures commands == old(commands) + [Event.DrawMeshInstanced(mesh, material, matrices, count, block)]
    {
      commands := commands + [Event.DrawMeshInstanced(mesh, material, matrices, count, block)];
    }

    method SetViewport(rect: Rect)
      modifies this
      ensures commands == old(commands) + [Event.SetViewport(rect)]
    {
      commands := commands + [Event.SetViewport(rect)];
    }

    /** ScriptableRenderer.RenderFullscreenQuad: draws the material as it is now. */
    method DrawFullscreenQuad(properties: map<string, MaterialValue>, mainTexture: Option<RenderTexture>)
      modifies this
      ensures commands == old(commands) + [Event.DrawFullscreenQuad(properties, mainTexture)]
    {
      commands := commands + [Event.DrawFullscreenQuad(properties, mainTexture)];
    }
  }

  /** A Material whose properties the compositor sets one at a time. */
  class Material {
    const shaderName: string
    var properties: map<string, MaterialValue>
    var mainTexture: Option<RenderTexture>

    constructor (shaderName: string)
      ensures this.shaderName == shaderName && properties == map[] && mainTexture == None
    {
      this.shaderName := shaderName;
      properties := map[];
      mainTexture := None;
    }

    method SetFloat(name: string, value: real)
      modifies this
      ensures properties == old(properties)[name := FloatValue(value)]
      ensures mainTexture == old(mainTexture)
    {
      properties := properties[name := FloatValue(value)];
    }

    method SetInt(name: string, value: int)
      modifies this
      ensures properties == old(properties)[name := IntValue(value)]
      ensures mainTexture == old(mainTexture)
    {
      properties := properties[name := IntValue(value)];
    }

    method SetVector(name: string, value: Vector4)
      modifies this
      ensures properties == old(properties)[name := VectorValue(value)]
      ensures mainTexture == old(mainTexture)
    {
      properties := properties[name := VectorValue(value)];
    }
  }

  /**
   * The render backend: the scriptable render context, the temporary-texture pool, texture
   * allocation and the global shader keywords, observed as one ordered `trace` of calls.
   * Executing a command buffer appends what it recorded. Texture ids are handed out in order;
   * `destroyed` holds the ids of textures the engine has destroyed behind the pipeline's back.
   */
  class Backend {
    var trace: seq<Event>
    var nextTextureId: nat
    var destroyed: set<nat>

    method ExecuteCommandBuffer(cmd: CommandBuffer)
      modifies this
      ensures trace == old(trace) + cmd.commands
      ensures nextTextureId == old(nextTextureId) && destroyed == old(destroyed)
    {
      trace := trace + cmd.commands;
    }

    method Submit()
      modifies this
      ensures trace == old(trace) + [Event.Submit]
      ensures nextTextureId == old(nextTextureId) && destroyed == old(destroyed)
    {
      trace := trace + [Event.Submit];
    }

    method DrawRenderers(queue: RenderQueueRange)
      modifies this
      ensures trace == old(trace) + [Event.DrawRenderers(queue)]
      ensures nextTextureId == old(nextTextureId) && destroyed == old(destroyed)
    {
      trace := trace + [Event.DrawRenderers(queue)];
    }

    /** ScriptableRenderer.RenderObjectsWithError */
    method RenderObjectsWithError()
      modifies this
      ensures trace == old(trace) + [Event.RenderObjectsWithError]
      ensures nextTextureId == old(nextTextureId) && destroyed == old(destroyed)
    {
      trace := trace + [Event.RenderObjectsWithError];
    }

    /** Shader.EnableKeyword */
    method EnableKeyword(keyword: string)
      modifies this
      ensures trace == old(trace) + [Event.EnableKeyword(keyword)]
      ensures nextTextureId == old(nextTextureId) && destroyed == old(destroyed)
    {
      trace := trace + [Event.EnableKeyword(keyword)];
    }

    /** Shader.DisableKeyword */
    method DisableKeyword(keyword: string)
      modifies this
      ensures trace == old(trace) + [Event.DisableKeyword(keyword)]
      ensures nextTextureId == old(nextTextureId) && destroyed == old(destroyed)
    {
      trace := trace + [Event.DisableKeyword(keyword)];
    }

    /** RenderTexture.GetTemporary */
    method GetTemporary(width: int, height: int) returns (t: RenderTexture)
      modifies this
      ensures t == RenderTexture(old(nextTextureId), width, height)
      ensures trace == old(trace) + [AcquireTemporary(t)]
      ensures nextTextureId == old(nextTextureId) + 1 && destroyed == old(destroyed)
    {
      t := RenderTexture(nextTextureId, width, height);
      nextTextureId := nextTextureId + 1;
      trace := trace + [AcquireTemporary(t)];
    }

    /** RenderTexture.ReleaseTemporary */
    method ReleaseTemporary(t: RenderTexture)
      modifies this
      ensures trace == old(trace) + [Event.ReleaseTemporary(t)]
      ensures nextTextureId == old(nextTextureId) && destroyed == old(destroyed)
    {
      trace := trace + [Event.ReleaseTemporary(t)];
    }

    /** `new RenderTexture(width, height, 0)` */
    method CreateRenderTexture(width: int, height: int) returns (t: RenderTexture)
      modifies this
      ensures t == RenderTexture(old(nextTextureId), width, height)
      ensures trace == old(trace) + [CreateTexture(t)]
      ensures nextTextureId == old(nextTextureId) + 1 && destroyed == old(destroyed)
    {
      t := RenderTexture(nextTextureId, width, height);
      nextTextureId := nextTextureId + 1;
      trace := trace + [CreateTexture(t)];
    }
  }

  /**
   * The fields of LookingGlassRenderingInfo that the instancing and compositing passes read.
   * That type's own source (and its CalculatePortion) is not part of this model.
   */
  datatype LookingGlassRenderingInfo = LookingGlassRenderingInfo(tileX: int, tileY: int)
}
