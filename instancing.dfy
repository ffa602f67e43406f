/**
 * LookingGlassInstancingRenderPass: the single-pass quilt renderer. Instead of rendering the
 * scene once per view, it draws every instancing-enabled mesh once, instanced `tileX * tileY`
 * times, and hands the shader one view offset and one screen rectangle (in normalised device
 * coordinates) per instance; the `LG_SINGLEPASS_INSTANCING` keyword is on around the draws.
 */
module Instancing {
  import opened Wrappers
  import opened Engine
  import opened Util
  import opened Quilt
  import opened CameraInfo

  /** The shader keyword that switches the instanced quilt path on. */
  const LgInstancingShaderKeyword := "LG_SINGLEPASS_INSTANCING"

  // ---------------------------------------------------------------------------------------------
  // Screen rectangles

  /**
   * The screen rectangle of the tile in row `i`, column `j`, as the shader receives it: centre
   * x, centre y, width and height in normalised device coordinates.
   */
  function TileRect(tileX: int, tileY: int, i: int, j: int): Vector4
    requires tileX != 0 && tileY != 0
  {
    var width := 2.0 / tileX as real;
    var height := 2.0 / tileY as real;
    Vector4((j as real / tileX as real) * 2.0 - 1.0 + width * 0.5,
            (i as real / tileY as real) * 2.0 - 1.0 + height * 0.5,
            width, height)
  }

  /** The device coordinate `2 c / n - 1` at which cell `c` of `n` equal cells starts. */
  function CellEdge(n: int, c: int): real
    requires n > 0
  {
    (c as real / n as real) * 2.0 - 1.0
  }

  lemma DivAddOne(a: real, n: real)
    requires n > 0.0
    ensures (a + 1.0) / n == a / n + 1.0 / n
  {
  }

  /** The rectangle of tile `(i, j)` spans cells `j .. j + 1` across and `i .. i + 1` up. */
  lemma RectEdges(tileX: int, tileY: int, i: int, j: int)
    requires tileX > 0 && tileY > 0
    ensures var r := TileRect(tileX, tileY, i, j);
            r.x - r.z * 0.5 == CellEdge(tileX, j) && r.x + r.z * 0.5 == CellEdge(tileX, j + 1) &&
            r.y - r.w * 0.5 == CellEdge(tileY, i) && r.y + r.w * 0.5 == CellEdge(tileY, i + 1)
  {
    DivAddOne(j as real, tileX as real);
    DivAddOne(i as real, tileY as real);
  }

  lemma DivNonneg(a: real, n: real)
    requires n > 0.0 && a >= 0.0
    ensures a / n >= 0.0
  {
    assert (a / n) * n == a;
  }

  lemma DivInUnit(c: real, n: real)
    requires n > 0.0 && 0.0 <= c <= n
    ensures 0.0 <= c / n <= 1.0
  {
    var q := c / n;
    assert q * n == c;
  }

  /** Cell edges run from -1 (cell 0) to +1 (cell `n`). */
  lemma CellEdgeBounds(n: int, c: int)
    requires n > 0 && 0 <= c <= n
    ensures -1.0 <= CellEdge(n, c) <= 1.0
    ensures c == 0 ==> CellEdge(n, c) == -1.0
    ensures c == n ==> CellEdge(n, c) == 1.0
  {
    DivInUnit(c as real, n as real);
  }

  /** Cell edges grow with the cell number. */
  lemma CellEdgeMonotone(n: int, c1: int, c2: int)
    requires n > 0 && c1 <= c2
    ensures CellEdge(n, c1) <= CellEdge(n, c2)
  {
    var d := (c2 - c1) as real;
    assert c2 as real / n as real - c1 as real / n as real == d / n as real;
    DivNonneg(d, n as real);
  }

  /** Each tile's rectangle lies inside the screen `[-1, 1] x [-1, 1]` and has the tile's size. */
  lemma RectInsideScreen(tileX: int, tileY: int, i: int, j: int)
    requires tileX > 0 && tileY > 0 && 0 <= i < tileY && 0 <= j < tileX
    ensures var r := TileRect(tileX, tileY, i, j);
            r.z == 2.0 / tileX as real && r.w == 2.0 / tileY as real &&
            -1.0 <= r.x - r.z * 0.5 && r.x + r.z * 0.5 <= 1.0 &&
            -1.0 <= r.y - r.w * 0.5 && r.y + r.w * 0.5 <= 1.0
  {
    RectEdges(tileX, tileY, i, j);
    CellEdgeBounds(tileX, j);
    CellEdgeBounds(tileX, j + 1);
    CellEdgeBounds(tileY, i);
    CellEdgeBounds(tileY, i + 1);
  }

  /** Tile `(i, j + 1)`'s rectangle starts exactly where tile `(i, j)`'s ends, in the same row. */
  lemma RectsAbutHorizontally(tileX: int, tileY: int, i: int, j: int)
    requires tileX > 0 && tileY > 0
    ensures var a := TileRect(tileX, tileY, i, j);
            var b := TileRect(tileX, tileY, i, j + 1);
            a.x + a.z * 0.5 == b.x - b.z * 0.5 && a.y == b.y && a.z == b.z && a.w == b.w
  {
    RectEdges(tileX, tileY, i, j);
    RectEdges(tileX, tileY, i, j + 1);
  }

  /** Tile `(i + 1, j)`'s rectangle starts exactly where tile `(i, j)`'s ends, in the same column. */
  lemma RectsAbutVertically(tileX: int, tileY: int, i: int, j: int)
    requires tileX > 0 && tileY > 0
    ensures var a := TileRect(tileX, tileY, i, j);
            var b := TileRect(tileX, tileY, i + 1, j);
            a.y + a.w * 0.5 == b.y - b.w * 0.5 && a.x == b.x && a.z == b.z && a.w == b.w
  {
    RectEdges(tileX, tileY, i, j);
    RectEdges(tileX, tileY, i + 1, j);
  }

  /** The first and last tiles of each row and column touch the screen's edges. */
  lemma RectsReachScreenEdges(tileX: int, tileY: int, i: int, j: int)
    requires tileX > 0 && tileY > 0
    ensures var left := TileRect(tileX, tileY, i, 0);
            var right := TileRect(tileX, tileY, i, tileX - 1);
            left.x - left.z * 0.5 == -1.0 && right.x + right.z * 0.5 == 1.0
    ensures var bottom := TileRect(tileX, tileY, 0, j);
            var top := TileRect(tileX, tileY, tileY - 1, j);
            bottom.y - bottom.w * 0.5 == -1.0 && top.y + top.w * 0.5 == 1.0
  {
    RectEdges(tileX, tileY, i, 0);
    RectEdges(tileX, tileY, i, tileX - 1);
    RectEdges(tileX, tileY, 0, j);
    RectEdges(tileX, tileY, tileY - 1, j);
    CellEdgeBounds(tileX, 0);
    CellEdgeBounds(tileX, tileX);
    CellEdgeBounds(tileY, 0);
    CellEdgeBounds(tileY, tileY);
  }

  /** The rectangles of two different tiles do not overlap. */
  lemma RectsDisjoint(tileX: int, tileY: int, i1: int, j1: int, i2: int, j2: int)
    requires tileX > 0 && tileY > 0 && (i1, j1) != (i2, j2)
    ensures var a := TileRect(tileX, tileY, i1, j1);
            var b := TileRect(tileX, tileY, i2, j2);
            a.x + a.z * 0.5 <= b.x - b.z * 0.5 || b.x + b.z * 0.5 <= a.x - a.z * 0.5 ||
            a.y + a.w * 0.5 <= b.y - b.w * 0.5 || b.y + b.w * 0.5 <= a.y - a.w * 0.5
  {
    RectEdges(tileX, tileY, i1, j1);
    RectEdges(tileX, tileY, i2, j2);
    if j1 < j2 {
      CellEdgeMonotone(tileX, j1 + 1, j2);
    } else if j2 < j1 {
      CellEdgeMonotone(tileX, j2 + 1, j1);
    } else if i1 < i2 {
      CellEdgeMonotone(tileY, i1 + 1, i2);
    } else {
      CellEdgeMonotone(tileY, i2 + 1, i1);
    }
  }

  // ---------------------------------------------------------------------------------------------
  // The per-view arrays

  /** The view offsets for views `0 .. tileNum - 1`, in view order. */
  function VpOffsets(m: Mathf, aspect: real, fov: real, size: real, tileNum: nat): (r: seq<Vector4>)
    requires OffsetsDefined(m, aspect, fov, size)
    ensures |r| == tileNum
  {
    seq(tileNum, k => GetVPMatrixOffsets(m, aspect, fov, size, k, tileNum))
  }

  /** The screen rectangle of view `k`: the tile in row `k / tileX`, column `k % tileX`. */
  function RectOfView(tileX: int, tileY: int, k: int): Vector4
    requires tileX > 0 && tileY > 0
  {
    TileRect(tileX, tileY, k / tileX, k % tileX)
  }

  /** The screen rectangles of the tiles in view order. */
  function ScreenRects(tileX: int, tileY: int): (r: seq<Vector4>)
    requires tileX > 0 && tileY > 0
    ensures |r| == tileX * tileY
  {
    seq(tileX * tileY, k => RectOfView(tileX, tileY, k))
  }

  /** Entry `i * tileX + j` of the arrays belongs to tile `(i, j)`: its view offset and its rectangle. */
  lemma TileEntries(m: Mathf, aspect: real, fov: real, size: real, tileX: int, tileY: int, i: int, j: int)
    requires OffsetsDefined(m, aspect, fov, size)
    requires tileX > 0 && tileY > 0 && 0 <= i < tileY && 0 <= j < tileX
    ensures var k := ViewIndex(tileX, i, j);
            0 <= k < tileX * tileY &&
            VpOffsets(m, aspect, fov, size, tileX * tileY)[k] == GetVPMatrixOffsets(m, aspect, fov, size, k, tileX * tileY) &&
            ScreenRects(tileX, tileY)[k] == TileRect(tileX, tileY, i, j)
  {
    ViewIndexInRange(tileX, tileY, i, j);
  }

  /** The `tileNum` copies of a mesh's transform, one per instance. */
  function Instances(tileNum: nat, origin: Matrix4x4): (r: seq<Matrix4x4>)
    ensures |r| == tileNum && forall k :: 0 <= k < tileNum ==> r[k] == origin
  {
    seq(tileNum, _ => origin)
  }

  // ---------------------------------------------------------------------------------------------
  // Which meshes are drawn

  /** A mesh filter is drawn when it has a mesh and a renderer whose material enables instancing. */
  predicate Instanceable(mf: MeshFilter)
  {
    mf.sharedMesh.Some? && mf.renderer.Some? && mf.renderer.value.sharedMaterial.Some? &&
    mf.renderer.value.sharedMaterial.value.enableInstancing
  }

  /** The instanced draw of one drawable mesh filter: `tileNum` instances of its transform. */
  function DrawOf(mf: MeshFilter, tileNum: nat, block: PropertyBlock): Event
    requires Instanceable(mf)
  {
    DrawMeshInstanced(mf.sharedMesh.value, mf.renderer.value.sharedMaterial.value,
                      Instances(tileNum, mf.localToWorld), tileNum, block)
  }

  /** The draws recorded for the mesh filters, in their order: one per drawable filter. */
  function Draws(filters: seq<MeshFilter>, tileNum: nat, block: PropertyBlock): seq<Event>
  {
    if |filters| == 0 then []
    else
      var rest := Draws(filters[..|filters| - 1], tileNum, block);
      var mf := filters[|filters| - 1];
      if Instanceable(mf) then rest + [DrawOf(mf, tileNum, block)] else rest
  }

  /** Every draw is an instanced draw of some drawable filter, with `tileNum` instances and the pass's block. */
  lemma {:induction false} DrawsComeFromDrawableFilters(filters: seq<MeshFilter>, tileNum: nat, block: PropertyBlock, e: Event)
    requires e in Draws(filters, tileNum, block)
    ensures e.DrawMeshInstanced? && e.count == tileNum && |e.matrices| == tileNum && e.block == block
    ensures exists k :: 0 <= k < |filters| && Instanceable(filters[k]) && e == DrawOf(filters[k], tileNum, block)
  {
    var init := filters[..|filters| - 1];
    var mf := filters[|filters| - 1];
    if e in Draws(init, tileNum, block) {
      DrawsComeFromDrawableFilters(init, tileNum, block, e);
      var k :| 0 <= k < |init| && Instanceable(init[k]) && e == DrawOf(init[k], tileNum, block);
      assert filters[k] == init[k];
    } else {
      assert Instanceable(mf) && e == DrawOf(mf, tileNum, block);
    }
  }

  /** Every drawable filter is drawn. */
  lemma {:induction false} DrawableFiltersAreDrawn(filters: seq<MeshFilter>, tileNum: nat, block: PropertyBlock, k: int)
    requires 0 <= k < |filters| && Instanceable(filters[k])
    ensures DrawOf(filters[k], tileNum, block) in Draws(filters, tileNum, block)
  {
    var init := filters[..|filters| - 1];
    if k < |filters| - 1 {
      assert init[k] == filters[k];
      DrawableFiltersAreDrawn(init, tileNum, block, k);
    }
  }

  /** There is at most one draw per filter, and none at all when no filter is drawable. */
  lemma {:induction false} DrawsAtMostOnePerFilter(filters: seq<MeshFilter>, tileNum: nat, block: PropertyBlock)
    ensures |Draws(filters, tileNum, block)| <= |filters|
    ensures (forall k :: 0 <= k < |filters| ==> !Instanceable(filters[k])) ==> Draws(filters, tileNum, block) == []
  {
    if |filters| > 0 {
      var init := filters[..|filters| - 1];
      DrawsAtMostOnePerFilter(init, tileNum, block);
      if forall k :: 0 <= k < |filters| ==> !Instanceable(filters[k]) {
        assert forall k :: 0 <= k < |init| ==> init[k] == filters[k];
      }
    }
  }

  /** The draws keep the filters' order: appending a filter appends its draw, if any. */
  lemma DrawsAppend(filters: seq<MeshFilter>, mf: MeshFilter, tileNum: nat, block: PropertyBlock)
    ensures Draws(filters + [mf], tileNum, block) ==
            Draws(filters, tileNum, block) + (if Instanceable(mf) then [DrawOf(mf, tileNum, block)] else [])
  {
    assert (filters + [mf])[..|filters|] == filters;
  }

  // ---------------------------------------------------------------------------------------------
  // What one Execute does

  /** The clear of the quilt texture that starts every Execute. */
  function ClearEvents(dst: Option<RenderTexture>): seq<Event>
  {
    [SetRenderTarget(TextureTarget(dst)), ClearRenderTarget, Submit]
  }

  /** Everything a successful Execute does: clear, keyword on, the draws, submit, keyword off. */
  function ExecuteEvents(dst: Option<RenderTexture>, filters: seq<MeshFilter>, tileNum: nat, block: PropertyBlock): seq<Event>
  {
    ClearEvents(dst) + [EnableKeyword(LgInstancingShaderKeyword)] + Draws(filters, tileNum, block) +
    [Submit, DisableKeyword(LgInstancingShaderKeyword)]
  }

  /**
   * The quilt is cleared and submitted before the keyword goes on; every instanced draw comes
   * after the keyword is enabled and before the final submit, after which it is disabled.
   */
  lemma KeywordBrackets(dst: Option<RenderTexture>, filters: seq<MeshFilter>, tileNum: nat, block: PropertyBlock)
    ensures var t := ExecuteEvents(dst, filters, tileNum, block);
            |t| >= 6 && t[..3] == ClearEvents(dst) && t[3] == EnableKeyword(LgInstancingShaderKeyword) &&
            t[|t| - 2] == Submit && t[|t| - 1] == DisableKeyword(LgInstancingShaderKeyword) &&
            forall x :: 0 <= x < |t| && t[x].DrawMeshInstanced? ==> 3 < x < |t| - 2
  {
    var t := ExecuteEvents(dst, filters, tileNum, block);
    var d := Draws(filters, tileNum, block);
    assert t == ClearEvents(dst) + [EnableKeyword(LgInstancingShaderKeyword)] + d +
                [Submit, DisableKeyword(LgInstancingShaderKeyword)];
    assert t[0].SetRenderTarget? && t[1].ClearRenderTarget? && t[2].Submit? && t[3].EnableKeyword?;
    assert t[|t| - 2].Submit? && t[|t| - 1].DisableKeyword?;
  }

  /**
   * One row of CalculateVpMatrixOffsetsAndTileRects' loops: entries `i * tileX .. (i + 1) * tileX - 1`
   * get their tile's view offset and screen rectangle; the other entries are left alone.
   */
  method FillRow(m: Mathf, aspect: real, fov: real, size: real, tileX: int, tileY: int, tileNum: int,
                 vp: array<Vector4>, sr: array<Vector4>, i: int, counter0: int) returns (counter: int)
    requires vp != sr && tileX > 0 && tileY > 0 && 0 <= i < tileY && tileNum == tileX * tileY
    requires OffsetsDefined(m, aspect, fov, size)
    requires vp.Length == tileNum && sr.Length == tileNum
    requires counter0 == i * tileX && 0 <= counter0 && counter0 + tileX <= tileNum
    requires vp[..counter0] == VpOffsets(m, aspect, fov, size, tileNum)[..counter0]
    requires sr[..counter0] == ScreenRects(tileX, tileY)[..counter0]
    modifies vp, sr
    ensures counter == counter0 + tileX
    ensures vp[..counter] == VpOffsets(m, aspect, fov, size, tileNum)[..counter]
    ensures sr[..counter] == ScreenRects(tileX, tileY)[..counter]
  {
    ghost var vps := VpOffsets(m, aspect, fov, size, tileNum);
    ghost var rects := ScreenRects(tileX, tileY);
    var width := 2.0 / tileX as real;
    var height := 2.0 / tileY as real;
    counter := counter0;
    var j := 0;
    while j < tileX
      invariant 0 <= j <= tileX && counter == counter0 + j
      invariant vp[..counter] == vps[..counter]
      invariant sr[..counter] == rects[..counter]
    {
      DivModUnique(counter, tileX, i, j);
      vp[counter] := GetVPMatrixOffsets(m, aspect, fov, size, counter, tileNum);
      sr[counter] := Vector4((j as real / tileX as real) * 2.0 - 1.0 + width * 0.5,
                             (i as real / tileY as real) * 2.0 - 1.0 + height * 0.5,
                             width, height);
      assert vp[..counter + 1] == vp[..counter] + [vps[counter]];
      assert sr[..counter + 1] == sr[..counter] + [rects[counter]];
      counter := counter + 1;
      j := j + 1;
    }
  }

  /** The two nested loops of CalculateVpMatrixOffsetsAndTileRects, for positive tile counts. */
  method FillArrays(m: Mathf, aspect: real, fov: real, size: real, tileX: int, tileY: int,
                    vp: array<Vector4>, sr: array<Vector4>)
    requires vp != sr && tileX > 0 && tileY > 0
    requires OffsetsDefined(m, aspect, fov, size)
    requires vp.Length == tileX * tileY && sr.Length == tileX * tileY
    modifies vp, sr
    ensures vp[..] == VpOffsets(m, aspect, fov, size, tileX * tileY)
    ensures sr[..] == ScreenRects(tileX, tileY)
  {
    var tileNum := tileX * tileY;
    var counter := 0;
    var i := 0;
    while i < tileY
      invariant 0 <= i <= tileY && counter == i * tileX
      invariant vp[..counter] == VpOffsets(m, aspect, fov, size, tileNum)[..counter]
      invariant sr[..counter] == ScreenRects(tileX, tileY)[..counter]
    {
      RowBounds(tileX, tileY, i);
      counter := FillRow(m, aspect, fov, size, tileX, tileY, tileNum, vp, sr, i, counter);
      RowsAdvance(i, tileX);
      i := i + 1;
    }
    assert counter == tileNum;
    assert vp[..] == vp[..counter];
    assert sr[..] == sr[..counter];
  }

  class LookingGlassInstancingRenderPass {
    var drawInfo: LookingGlassRenderingInfo
    var perCameraInfo: LookingGlassRenderInfoPerCamera
    var dstTiledTexture: Option<RenderTexture>
    var vpOffsetParam: array?<Vector4>
    var screenRectParam: array?<Vector4>
    var renderMatrix: array?<Matrix4x4>
    const commandBuffer: CommandBuffer

    /** Between calls the command buffer is empty and the two vector arrays are distinct. */
    predicate Valid()
      reads this, commandBuffer
    {
      commandBuffer.commands == [] &&
      (vpOffsetParam != null && screenRectParam != null ==> vpOffsetParam != screenRectParam)
    }

    /** `tileX * tileY`, the number of views and of instances per mesh. */
    function TileNum(): int
      reads this
    {
      drawInfo.tileX * drawInfo.tileY
    }

    constructor ()
      ensures Valid() && fresh(commandBuffer)
      ensures drawInfo == LookingGlassRenderingInfo(0, 0) && dstTiledTexture == None
      ensures perCameraInfo == LookingGlassRenderInfoPerCamera(0.0, 0.0, 0.0, 0.0)
      ensures vpOffsetParam == null && screenRectParam == null && renderMatrix == null
    {
      drawInfo := LookingGlassRenderingInfo(0, 0);
      perCameraInfo := LookingGlassRenderInfoPerCamera(0.0, 0.0, 0.0, 0.0);
      dstTiledTexture := None;
      vpOffsetParam := null;
      screenRectParam := null;
      renderMatrix := null;
      commandBuffer := new CommandBuffer();
    }

    /** Setup: remembers the quilt texture, the layout and the camera framing for the next Execute. */
    method Setup(dst: Option<RenderTexture>, dinfo: LookingGlassRenderingInfo, perCamInfo: LookingGlassRenderInfoPerCamera)
      requires Valid()
      modifies this
      ensures Valid()
      ensures dstTiledTexture == dst && drawInfo == dinfo && perCameraInfo == perCamInfo
      ensures vpOffsetParam == old(vpOffsetParam) && screenRectParam == old(screenRectParam)
      ensures renderMatrix == old(renderMatrix)
    {
      dstTiledTexture := dst;
      drawInfo := dinfo;
      perCameraInfo := perCamInfo;
    }

    /**
     * CalculateInstancingMatrix: every entry of the instancing matrices becomes `origin`. The
     * array is reused when it already holds `tileNum` entries and reallocated otherwise; a
     * negative `tileNum` makes the allocation throw (`ok == false`, nothing changes).
     */
    method CalculateInstancingMatrix(origin: Matrix4x4) returns (ok: bool)
      modifies this, renderMatrix
      ensures ok <==> TileNum() >= 0
      ensures !ok ==> renderMatrix == old(renderMatrix) &&
                      (renderMatrix != null ==> renderMatrix[..] == old(renderMatrix[..]))
      ensures ok ==> renderMatrix != null && renderMatrix[..] == Instances(TileNum(), origin)
      ensures ok && old(renderMatrix) != null && old(renderMatrix.Length) == TileNum() ==> renderMatrix == old(renderMatrix)
      ensures ok && (old(renderMatrix) == null || old(renderMatrix.Length) != TileNum()) ==> fresh(renderMatrix)
      ensures drawInfo == old(drawInfo) && perCameraInfo == old(perCameraInfo) && dstTiledTexture == old(dstTiledTexture)
      ensures vpOffsetParam == old(vpOffsetParam) && screenRectParam == old(screenRectParam)
    {
      var tileNum := drawInfo.tileX * drawInfo.tileY;
      if renderMatrix == null || renderMatrix.Length != tileNum {
        if tileNum < 0 {
          return false;
        }
        renderMatrix := new Matrix4x4[tileNum](_ => ZeroMatrix);
      }
      var a := renderMatrix;
      var i := 0;
      while i < tileNum
        invariant 0 <= i <= tileNum == a.Length
        invariant forall k :: 0 <= k < i ==> a[k] == origin
        modifies a
      {
        a[i] := origin;
        i := i + 1;
      }
      ok := true;
    }

    /**
     * CalculateVpMatrixOffsetsAndTileRects: the arrays get `tileNum` entries each (reused when
     * they already have that many, reallocated as zeroes otherwise); with positive tile counts
     * entry `k` is view `k`'s offset and tile `k`'s screen rectangle. A negative `tileNum` makes
     * the allocation throw (`ok == false`, nothing changes).
     */
    method CalculateVpMatrixOffsetsAndTileRects(m: Mathf, camera: Camera) returns (ok: bool)
      requires Valid()
      requires drawInfo.tileX > 0 && drawInfo.tileY > 0 ==>
                 OffsetsDefined(m, camera.aspect, perCameraInfo.fov, perCameraInfo.size)
      modifies this, vpOffsetParam, screenRectParam
      ensures Valid()
      ensures ok <==> TileNum() >= 0
      ensures drawInfo == old(drawInfo) && perCameraInfo == old(perCameraInfo) && dstTiledTexture == old(dstTiledTexture)
      ensures renderMatrix == old(renderMatrix)
      ensures !ok ==> vpOffsetParam == old(vpOffsetParam) && screenRectParam == old(screenRectParam) &&
                      (vpOffsetParam != null ==> vpOffsetParam[..] == old(vpOffsetParam[..])) &&
                      (screenRectParam != null ==> screenRectParam[..] == old(screenRectParam[..]))
      ensures ok ==> vpOffsetParam != null && screenRectParam != null &&
                     vpOffsetParam.Length == TileNum() && screenRectParam.Length == TileNum()
      ensures ok && old(vpOffsetParam) != null && old(vpOffsetParam.Length) == TileNum() ==> vpOffsetParam == old(vpOffsetParam)
      ensures ok && (old(vpOffsetParam) == null || old(vpOffsetParam.Length) != TileNum()) ==> fresh(vpOffsetParam)
      ensures ok && old(screenRectParam) != null && old(screenRectParam.Length) == TileNum() ==> screenRectParam == old(screenRectParam)
      ensures ok && (old(screenRectParam) == null || old(screenRectParam.Length) != TileNum()) ==> fresh(screenRectParam)
      ensures ok && drawInfo.tileX > 0 && drawInfo.tileY > 0 ==>
                vpOffsetParam[..] == VpOffsets(m, camera.aspect, perCameraInfo.fov, perCameraInfo.size, TileNum()) &&
                screenRectParam[..] == ScreenRects(drawInfo.tileX, drawInfo.tileY)
      ensures ok && !(drawInfo.tileX > 0 && drawInfo.tileY > 0) ==>
                (if old(vpOffsetParam) != null && old(vpOffsetParam.Length) == TileNum()
                 then vpOffsetParam[..] == old(vpOffsetParam[..]) else vpOffsetParam[..] == seq(TileNum(), _ => Zero4)) &&
                (if old(screenRectParam) != null && old(screenRectParam.Length) == TileNum()
                 then screenRectParam[..] == old(screenRectParam[..]) else screenRectParam[..] == seq(TileNum(), _ => Zero4))
    {
      var tileNum := drawInfo.tileX * drawInfo.tileY;
      var aspect := camera.aspect;
      if vpOffsetParam == null || vpOffsetParam.Length != tileNum {
        if tileNum < 0 {
          return false;
        }
        vpOffsetParam := new Vector4[tileNum](_ => Zero4);
      }
      if screenRectParam == null || screenRectParam.Length != tileNum {
        screenRectParam := new Vector4[tileNum](_ => Zero4);
      }
      ok := true;
      if drawInfo.tileX > 0 && drawInfo.tileY > 0 {
        FillArrays(m, aspect, perCameraInfo.fov, perCameraInfo.size, drawInfo.tileX, drawInfo.tileY,
                   vpOffsetParam, screenRectParam);
      }
    }

    /** The start of Execute: the quilt texture is cleared to black and submitted. */
    method ClearQuilt(backend: Backend)
      requires Valid()
      modifies backend, commandBuffer
      ensures Valid()
      ensures backend.trace == old(backend.trace) + ClearEvents(dstTiledTexture)
      ensures backend.nextTextureId == old(backend.nextTextureId) && backend.destroyed == old(backend.destroyed)
    {
      commandBuffer.SetRenderTarget(TextureTarget(dstTiledTexture));
      commandBuffer.ClearRenderTarget();
      backend.ExecuteCommandBuffer(commandBuffer);
      backend.Submit();
      commandBuffer.Clear();
    }

    /** The end of Execute: the instanced draws, between the keyword being enabled and disabled. */
    method DrawInstanced(backend: Backend, meshFilters: seq<MeshFilter>, block: PropertyBlock)
      requires Valid() && TileNum() >= 0
      modifies this, backend, commandBuffer, renderMatrix
      ensures drawInfo == old(drawInfo) && perCameraInfo == old(perCameraInfo) && dstTiledTexture == old(dstTiledTexture)
      ensures vpOffsetParam == old(vpOffsetParam) && screenRectParam == old(screenRectParam)
      ensures Valid()
      ensures backend.trace == old(backend.trace) + [EnableKeyword(LgInstancingShaderKeyword)] +
                Draws(meshFilters, TileNum(), block) + [Submit, DisableKeyword(LgInstancingShaderKeyword)]
      ensures backend.nextTextureId == old(backend.nextTextureId) && backend.destroyed == old(backend.destroyed)
    {
      backend.EnableKeyword(LgInstancingShaderKeyword);
      RecordDraws(meshFilters, block);
      backend.ExecuteCommandBuffer(commandBuffer);
      backend.Submit();
      commandBuffer.Clear();
      backend.DisableKeyword(LgInstancingShaderKeyword);
    }

    /** The foreach loop of Execute: one instanced draw recorded per drawable mesh filter. */
    method RecordDraws(meshFilters: seq<MeshFilter>, block: PropertyBlock)
      requires commandBuffer.commands == [] && TileNum() >= 0
      modifies this, commandBuffer, renderMatrix
      ensures drawInfo == old(drawInfo) && perCameraInfo == old(perCameraInfo) && dstTiledTexture == old(dstTiledTexture)
      ensures commandBuffer.commands == Draws(meshFilters, TileNum(), block)
      ensures vpOffsetParam == old(vpOffsetParam) && screenRectParam == old(screenRectParam)
    {
      var n := 0;
      while n < |meshFilters|
        invariant 0 <= n <= |meshFilters|
        invariant drawInfo == old(drawInfo) && perCameraInfo == old(perCameraInfo) && dstTiledTexture == old(dstTiledTexture)
        invariant commandBuffer.commands == Draws(meshFilters[..n], TileNum(), block)
        invariant vpOffsetParam == old(vpOffsetParam) && screenRectParam == old(screenRectParam)
        invariant renderMatrix == old(renderMatrix) || fresh(renderMatrix)
      {
        var meshFilter := meshFilters[n];
        DrawsAppend(meshFilters[..n], meshFilter, TileNum(), block);
        assert meshFilters[..n + 1] == meshFilters[..n] + [meshFilter];
        n := n + 1;
        if meshFilter.sharedMesh.None? {
          continue;
        }
        if meshFilter.renderer.None? || meshFilter.renderer.value.sharedMaterial.None? {
          continue;
        }
        var material := meshFilter.renderer.value.sharedMaterial.value;
        if !material.enableInstancing {
          continue;
        }
        var matrix := meshFilter.localToWorld;
        var _ := CalculateInstancingMatrix(matrix);
        commandBuffer.DrawMeshInstanced(meshFilter.sharedMesh.value, material, renderMatrix[..],
                                        renderMatrix.Length, block);
      }
      assert meshFilters[..n] == meshFilters;
    }

    /** Execute after the camera is framed: the clear, the per-view arrays and the instanced draws. */
    method Render(m: Mathf, backend: Backend, camera: Camera, meshFilters: seq<MeshFilter>) returns (ok: bool)
      requires Valid()
      requires drawInfo.tileX > 0 && drawInfo.tileY > 0 ==>
                 OffsetsDefined(m, camera.aspect, perCameraInfo.fov, perCameraInfo.size)
      modifies this, backend, commandBuffer, vpOffsetParam, screenRectParam, renderMatrix
      ensures Valid()
      ensures drawInfo == old(drawInfo) && perCameraInfo == old(perCameraInfo) && dstTiledTexture == old(dstTiledTexture)
      ensures ok <==> TileNum() >= 0
      ensures !ok ==> backend.trace == old(backend.trace) + ClearEvents(dstTiledTexture)
      ensures ok ==> vpOffsetParam != null && screenRectParam != null &&
                     backend.trace == old(backend.trace) +
                       ExecuteEvents(dstTiledTexture, meshFilters, TileNum(),
                                     PropertyBlock(vpOffsetParam[..], screenRectParam[..]))
      ensures ok && drawInfo.tileX > 0 && drawInfo.tileY > 0 ==>
                vpOffsetParam[..] == VpOffsets(m, camera.aspect, perCameraInfo.fov, perCameraInfo.size, TileNum()) &&
                screenRectParam[..] == ScreenRects(drawInfo.tileX, drawInfo.tileY)
      ensures backend.nextTextureId == old(backend.nextTextureId) && backend.destroyed == old(backend.destroyed)
    {
      ClearQuilt(backend);
      ok := CalculateVpMatrixOffsetsAndTileRects(m, camera);
      if !ok {
        return;
      }
      var block := PropertyBlock(vpOffsetParam[..], screenRectParam[..]);
      DrawInstanced(backend, meshFilters, block);
    }

    /**
     * Execute: frames the camera, clears the quilt texture, fills the per-view arrays and draws
     * every drawable mesh instanced once per view, with the instancing keyword on around the
     * draws. The mesh filters are the scene's, in the order the engine lists them. A negative
     * `tileNum` makes the array allocation throw after the clear (`ok == false`).
     */
    method Execute(m: Mathf, backend: Backend, camera: Camera, meshFilters: seq<MeshFilter>) returns (ok: bool)
      requires Valid() && DistanceDefined(m, perCameraInfo.fov)
      requires drawInfo.tileX > 0 && drawInfo.tileY > 0 ==>
                 OffsetsDefined(m, camera.aspect, perCameraInfo.fov, perCameraInfo.size)
      modifies this, backend, commandBuffer, camera, vpOffsetParam, screenRectParam, renderMatrix
      ensures Valid()
      ensures drawInfo == old(drawInfo) && perCameraInfo == old(perCameraInfo) && dstTiledTexture == old(dstTiledTexture)
      ensures ok <==> TileNum() >= 0
      ensures FramingOf(camera) == CameraFraming(m, perCameraInfo.fov, perCameraInfo.size,
                                                 perCameraInfo.nearClipFactor, perCameraInfo.farClipFactor)
      ensures camera.aspect == old(camera.aspect) && camera.pixelRect == old(camera.pixelRect)
      ensures !ok ==> backend.trace == old(backend.trace) + ClearEvents(dstTiledTexture)
      ensures ok ==> vpOffsetParam != null && screenRectParam != null &&
                     backend.trace == old(backend.trace) +
                       ExecuteEvents(dstTiledTexture, meshFilters, TileNum(),
                                     PropertyBlock(vpOffsetParam[..], screenRectParam[..]))
      ensures ok && drawInfo.tileX > 0 && drawInfo.tileY > 0 ==>
                vpOffsetParam[..] == VpOffsets(m, camera.aspect, perCameraInfo.fov, perCameraInfo.size, TileNum()) &&
                screenRectParam[..] == ScreenRects(drawInfo.tileX, drawInfo.tileY)
      ensures backend.nextTextureId == old(backend.nextTextureId) && backend.destroyed == old(backend.destroyed)
    {
      SetupCameraInfo(m, camera, perCameraInfo.fov, perCameraInfo.size,
                      perCameraInfo.nearClipFactor, perCameraInfo.farClipFactor);
      ok := Render(m, backend, camera, meshFilters);
    }
  }
}
