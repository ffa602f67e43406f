/**
 * LookingGlassMultiTextureRenderer: the multi-pass quilt renderer. For every tile of a
 * `tileY` x `tileX` grid, row by row, it shifts the camera to that tile's view, renders the scene
 * into a temporary texture of one tile's size and copies it into the tile's place in the quilt.
 */
module MultiTexture {
  import opened Wrappers
  import opened Engine
  import opened Util
  import opened Quilt

  /** The quilt's layout and the camera framing the renderer uses. */
  datatype LookingGlassInfo = LookingGlassInfo(
    renderTargetW: int, renderTargetH: int, tileX: int, tileY: int,
    fov: real, size: real, nearClipFactor: real, farClipFactor: real)

  /** The width of one tile in pixels (C# integer division). */
  function TileWidth(info: LookingGlassInfo): int
    requires info.tileX != 0
  {
    CsDiv(info.renderTargetW, info.tileX)
  }

  /** The height of one tile in pixels (C# integer division). */
  function TileHeight(info: LookingGlassInfo): int
    requires info.tileY != 0
  {
    CsDiv(info.renderTargetH, info.tileY)
  }

  /** The view matrix moved sideways by the offsets. */
  function ShiftView(v: Matrix4x4, o: Vector4): Matrix4x4
  {
    v.(m03 := v.m03 - o.x, m13 := v.m13 - o.y)
  }

  /** The projection matrix skewed by the offsets. */
  function ShiftProjection(p: Matrix4x4, o: Vector4): Matrix4x4
  {
    p.(m02 := p.m02 - o.z, m12 := p.m12 - o.w)
  }

  /** Shifting the view moves the camera's translation by `-(x, y)` and changes no other entry. */
  lemma ShiftViewTranslatesOnly(v: Matrix4x4, o: Vector4)
    ensures var r := ShiftView(v, o);
            Entry(r, 0, 3) == Entry(v, 0, 3) - o.x && Entry(r, 1, 3) == Entry(v, 1, 3) - o.y &&
            forall row, col :: 0 <= row < 4 && 0 <= col < 4 && !(col == 3 && row < 2) ==>
              Entry(r, row, col) == Entry(v, row, col)
  {
  }

  /** Shifting the projection skews its third column by `-(z, w)` and changes no other entry. */
  lemma ShiftProjectionSkewsOnly(p: Matrix4x4, o: Vector4)
    ensures var r := ShiftProjection(p, o);
            Entry(r, 0, 2) == Entry(p, 0, 2) - o.z && Entry(r, 1, 2) == Entry(p, 1, 2) - o.w &&
            forall row, col :: 0 <= row < 4 && 0 <= col < 4 && !(col == 2 && row < 2) ==>
              Entry(r, row, col) == Entry(p, row, col)
  {
  }

  /** A lone view (or none) is rendered with the camera's own matrices (given tan 0 = 0). */
  lemma SingleViewUnshifted(m: Mathf, aspect: real, fov: real, size: real, view: int, numViews: int,
                            v: Matrix4x4, p: Matrix4x4)
    requires OffsetsDefined(m, aspect, fov, size) && m.tan(0.0) == 0.0 && numViews <= 1
    ensures var o := GetVPMatrixOffsets(m, aspect, fov, size, view, numViews);
            ShiftView(v, o) == v && ShiftProjection(p, o) == p
  {
    SingleViewNoOffset(m, aspect, fov, size, view, numViews);
  }

  /** Mirrored views (with an odd tan) move the camera by opposite amounts, in both matrices. */
  lemma MirroredViewsShiftOppositely(m: Mathf, aspect: real, fov: real, size: real, view: int, numViews: int,
                                     v: Matrix4x4, p: Matrix4x4)
    requires OffsetsDefined(m, aspect, fov, size) && numViews > 1
    requires forall x :: m.tan(-x) == -m.tan(x)
    ensures var a := GetVPMatrixOffsets(m, aspect, fov, size, view, numViews);
            var b := GetVPMatrixOffsets(m, aspect, fov, size, numViews - 1 - view, numViews);
            ShiftView(v, a).m03 - v.m03 == -(ShiftView(v, b).m03 - v.m03) &&
            ShiftProjection(p, a).m02 - p.m02 == -(ShiftProjection(p, b).m02 - p.m02)
  {
    MirroredViewOffsets(m, aspect, fov, size, view, numViews);
  }

  /**
   * What one Execute works with: the layout, the camera's aspect and matrices, the temporary
   * tile texture and the quilt texture.
   */
  datatype Frame = Frame(m: Mathf, info: LookingGlassInfo, aspect: real, view: Matrix4x4, proj: Matrix4x4,
                         temp: RenderTexture, dst: Option<RenderTexture>)
  {
    predicate Valid()
    {
      info.tileX != 0 && info.tileY != 0 && OffsetsDefined(m, aspect, info.fov, info.size) &&
      temp.width == TileWidth(info) && temp.height == TileHeight(info)
    }
  }

  /** The copy of the rendered tile `(i, j)` into its `w` x `h` place `(j * w, i * h)` of the quilt. */
  function TileCopy(f: Frame, i: int, j: int): Event
    requires f.Valid()
  {
    CopyTexture(f.temp, 0, 0, f.temp.width, f.temp.height, f.dst, j * TileWidth(f.info), i * TileHeight(f.info))
  }

  /**
   * The calls that render the view of tile `(i, j)` into the temporary texture: set the
   * shifted matrices of view `i * tileX + j`, target and clear the temporary texture, draw
   * opaque objects, objects without a matching shader pass, and transparent objects.
   */
  function TileView(f: Frame, i: int, j: int): seq<Event>
    requires f.Valid()
  {
    var o := GetVPMatrixOffsets(f.m, f.aspect, f.info.fov, f.info.size,
                                ViewIndex(f.info.tileX, i, j), f.info.tileX * f.info.tileY);
    [ SetViewProjectionMatrices(ShiftView(f.view, o), ShiftProjection(f.proj, o)),
      SetRenderTarget(TextureTarget(Some(f.temp))),
      ClearRenderTarget,
      DrawRenderers(Opaque),
      RenderObjectsWithError,
      DrawRenderers(Transparent) ]
  }

  /** The calls made for the tile in row `i`, column `j`: render its view, copy it into the quilt, submit. */
  function TileEvents(f: Frame, i: int, j: int): seq<Event>
    requires f.Valid()
  {
    TileView(f, i, j) + [TileCopy(f, i, j), Submit]
  }

  /** The calls of tiles `0 .. n - 1`, one tile after the other. */
  function Concat(tile: int -> seq<Event>, n: nat): seq<Event>
  {
    if n == 0 then [] else Concat(tile, n - 1) + tile(n - 1)
  }

  /** With 8 calls per tile, `n` tiles make `8 * n` calls. */
  lemma {:induction false} ConcatLength(tile: int -> seq<Event>, n: nat)
    requires forall k :: 0 <= k < n ==> |tile(k)| == 8
    ensures |Concat(tile, n)| == 8 * n
  {
    if n > 0 {
      ConcatLength(tile, n - 1);
    }
  }

  /** With 8 calls per tile, tile `k`'s calls are the 8 calls starting at `8 * k`. */
  lemma {:induction false} ConcatSlice(tile: int -> seq<Event>, n: nat, k: int)
    requires forall x :: 0 <= x < n ==> |tile(x)| == 8
    requires 0 <= k < n
    ensures 8 * k + 8 <= |Concat(tile, n)|
    ensures Concat(tile, n)[8 * k .. 8 * k + 8] == tile(k)
  {
    var a := Concat(tile, n - 1);
    ConcatLength(tile, n - 1);
    if k < n - 1 {
      ConcatSlice(tile, n - 1, k);
      SliceLeft(a, tile(n - 1), 8 * k, 8 * k + 8);
    } else {
      SliceRight(a, tile(n - 1));
    }
  }

  /** Every call of the first `n` tiles is made by one of them. */
  lemma {:induction false} ConcatMember(tile: int -> seq<Event>, n: nat, e: Event)
    requires e in Concat(tile, n)
    ensures exists k :: 0 <= k < n && e in tile(k)
  {
    if e in Concat(tile, n - 1) {
      ConcatMember(tile, n - 1, e);
    } else {
      assert e in tile(n - 1);
    }
  }

  /** The calls of the `k`-th tile rendered: row `k / tileX`, column `k % tileX`. */
  function TileAt(f: Frame): int -> seq<Event>
    requires f.Valid()
  {
    k => TileEvents(f, k / f.info.tileX, k % f.info.tileX)
  }

  /** The calls for the first `n` tiles in rendering order. */
  function Rendered(f: Frame, n: nat): seq<Event>
    requires f.Valid()
  {
    Concat(TileAt(f), n)
  }

  /**
   * Everything one successful Execute does: acquire the temporary texture, clear the current
   * target and submit, render every tile row by row, release the temporary texture.
   */
  function ExecuteEvents(f: Frame): seq<Event>
    requires f.Valid()
  {
    [AcquireTemporary(f.temp), ClearRenderTarget, Submit] +
    Rendered(f, Count(f.info.tileY) * Count(f.info.tileX)) +
    [ReleaseTemporary(f.temp)]
  }

  /** The calls of Execute, in the pieces they are made in. */
  lemma ExecuteTrace(f: Frame, start: seq<Event>)
    requires f.Valid()
    ensures start + [AcquireTemporary(f.temp)] + [ClearRenderTarget] + [Submit] +
            Rendered(f, Count(f.info.tileY) * Count(f.info.tileX)) + [ReleaseTemporary(f.temp)]
         == start + ExecuteEvents(f)
  {
  }

  /** After tile `(i, j)`, numbered `n`, the trace holds the first `n + 1` tiles. */
  lemma RenderedStep(f: Frame, prefix: seq<Event>, before: seq<Event>, after: seq<Event>, n: nat, i: int, j: int)
    requires f.Valid() && 0 <= j < f.info.tileX && n == ViewIndex(f.info.tileX, i, j)
    requires before == prefix + Rendered(f, n)
    requires after == before + TileEvents(f, i, j)
    ensures after == prefix + Rendered(f, n + 1)
  {
    DivModUnique(n, f.info.tileX, i, j);
    assert TileAt(f)(n) == TileEvents(f, i, j);
  }

  /** For positive bounds the two nested loops run `a * b` times. */
  lemma CountProduct(a: int, b: int)
    requires a > 0 && b > 0
    ensures Count(b) * Count(a) == a * b
  {
  }

  /** Every tile makes 8 calls. */
  lemma TileAtLength(f: Frame)
    requires f.Valid()
    ensures forall k :: |TileAt(f)(k)| == 8
  {
  }

  /** The loop body runs exactly `tileX * tileY` times (none at all if either count is negative). */
  lemma ExecuteEventsLength(f: Frame)
    requires f.Valid()
    ensures |ExecuteEvents(f)| == 4 + 8 * (Count(f.info.tileY) * Count(f.info.tileX))
    ensures f.info.tileX > 0 && f.info.tileY > 0 ==>
              |ExecuteEvents(f)| == 4 + 8 * (f.info.tileX * f.info.tileY)
  {
    var n := Count(f.info.tileY) * Count(f.info.tileX);
    TileAtLength(f);
    ConcatLength(TileAt(f), n);
    if f.info.tileX > 0 && f.info.tileY > 0 {
      CountProduct(f.info.tileX, f.info.tileY);
    }
  }

  /**
   * The calls for tile `(i, j)` are the 8 calls starting at position `3 + 8 * (i * tileX + j)`:
   * tiles are rendered row-major, and the `k`-th tile rendered shows view `k`.
   */
  lemma ExecuteTileSlice(f: Frame, i: int, j: int)
    requires f.Valid() && 0 <= i < f.info.tileY && 0 <= j < f.info.tileX
    ensures var k := 3 + 8 * ViewIndex(f.info.tileX, i, j);
            0 <= k && k + 8 <= |ExecuteEvents(f)| && ExecuteEvents(f)[k .. k + 8] == TileEvents(f, i, j)
  {
    var n := Count(f.info.tileY) * Count(f.info.tileX);
    var k := ViewIndex(f.info.tileX, i, j);
    ViewIndexInRange(f.info.tileX, f.info.tileY, i, j);
    CountProduct(f.info.tileX, f.info.tileY);
    TileAtLength(f);
    ConcatSlice(TileAt(f), n, k);
    assert TileAt(f)(k) == TileEvents(f, i, j);
    SliceInner([AcquireTemporary(f.temp), ClearRenderTarget, Submit], Rendered(f, n),
               [ReleaseTemporary(f.temp)], 8 * k, 8 * k + 8);
  }

  /** No tile acquires or releases a temporary texture. */
  lemma RenderedHasNoTemporaries(f: Frame, n: nat)
    requires f.Valid()
    ensures forall e :: e in Rendered(f, n) ==> !e.AcquireTemporary? && !e.ReleaseTemporary?
  {
    forall e | e in Rendered(f, n)
      ensures !e.AcquireTemporary? && !e.ReleaseTemporary?
    {
      ConcatMember(TileAt(f), n, e);
    }
  }

  /** The temporary texture is acquired once, first, and released once, last. */
  lemma TemporaryAcquiredOnceReleasedOnce(f: Frame)
    requires f.Valid()
    ensures var t := ExecuteEvents(f);
            t[0] == AcquireTemporary(f.temp) && t[|t| - 1] == ReleaseTemporary(f.temp) &&
            forall k :: 0 < k < |t| - 1 ==> !t[k].AcquireTemporary? && !t[k].ReleaseTemporary?
  {
    var t := ExecuteEvents(f);
    var n := Count(f.info.tileY) * Count(f.info.tileX);
    var g := Rendered(f, n);
    RenderedHasNoTemporaries(f, n);
    forall k | 0 < k < |t| - 1
      ensures !t[k].AcquireTemporary? && !t[k].ReleaseTemporary?
    {
      if k >= 3 {
        IndexInner([AcquireTemporary(f.temp), ClearRenderTarget, Submit], g, [ReleaseTemporary(f.temp)], k - 3);
      }
    }
  }

  /** The copy of tile `(i, j)` writes a `w` x `h` region at `(j * w, i * h)` inside the quilt. */
  lemma CopyRegionInBounds(f: Frame, i: int, j: int)
    requires f.Valid() && f.info.renderTargetW >= 0 && f.info.renderTargetH >= 0
    requires 0 <= i < f.info.tileY && 0 <= j < f.info.tileX
    ensures var c := TileCopy(f, i, j);
            c.src == f.temp && c.dst == f.dst &&
            c.width == TileWidth(f.info) && c.height == TileHeight(f.info) &&
            c.dstX == j * TileWidth(f.info) && c.dstY == i * TileHeight(f.info) &&
            0 <= c.dstX && c.dstX + c.width <= f.info.renderTargetW &&
            0 <= c.dstY && c.dstY + c.height <= f.info.renderTargetH
  {
    SpanInBounds(f.info.renderTargetW, f.info.tileX, j);
    SpanInBounds(f.info.renderTargetH, f.info.tileY, i);
  }

  /** Cell `k` of `n` equal cells of `total / n` pixels ends within `total`. */
  lemma SpanInBounds(total: int, n: int, k: int)
    requires total >= 0 && 0 <= k < n
    ensures 0 <= k * CsDiv(total, n) && k * CsDiv(total, n) + CsDiv(total, n) <= total
  {
    var w := total / n;
    MulMono(k + 1, n, w);
    assert k * w + w == (k + 1) * w;
    assert n * w <= total;
  }

  /** The copies of two different tiles write disjoint regions of the quilt. */
  lemma CopyRegionsDisjoint(f: Frame, i1: int, j1: int, i2: int, j2: int)
    requires f.Valid() && f.info.renderTargetW >= 0 && f.info.renderTargetH >= 0
    requires 0 <= i1 < f.info.tileY && 0 <= j1 < f.info.tileX
    requires 0 <= i2 < f.info.tileY && 0 <= j2 < f.info.tileX
    requires (i1, j1) != (i2, j2)
    ensures var a := TileCopy(f, i1, j1);
            var b := TileCopy(f, i2, j2);
            a.dstX + a.width <= b.dstX || b.dstX + b.width <= a.dstX ||
            a.dstY + a.height <= b.dstY || b.dstY + b.height <= a.dstY
  {
    var w := TileWidth(f.info);
    var h := TileHeight(f.info);
    if j1 < j2 {
      SpansApart(j1, j2, w);
    } else if j2 < j1 {
      SpansApart(j2, j1, w);
    } else if i1 < i2 {
      SpansApart(i1, i2, h);
    } else {
      SpansApart(i2, i1, h);
    }
  }

  /** Cell `a` of width `w` ends where cell `a + 1` starts, so before cell `b > a`. */
  lemma SpansApart(a: int, b: int, w: int)
    requires 0 <= a < b && w >= 0
    ensures a * w + w <= b * w
  {
    MulMono(a + 1, b, w);
  }

  class LookingGlassMultiTextureRenderer {
    var drawInfo: LookingGlassInfo
    var dstTiledTexture: Option<RenderTexture>
    const commandBuffer: CommandBuffer

    /** Between calls the pass's command buffer holds nothing. */
    predicate Valid()
      reads this, commandBuffer
    {
      commandBuffer.commands == []
    }

    constructor ()
      ensures Valid() && fresh(commandBuffer)
      ensures dstTiledTexture == None && drawInfo == LookingGlassInfo(0, 0, 0, 0, 0.0, 0.0, 0.0, 0.0)
    {
      drawInfo := LookingGlassInfo(0, 0, 0, 0, 0.0, 0.0, 0.0, 0.0);
      dstTiledTexture := None;
      commandBuffer := new CommandBuffer();
    }

    /** Setup: remembers the quilt texture and the layout for the next Execute. */
    method Setup(dst: Option<RenderTexture>, dinfo: LookingGlassInfo)
      requires Valid()
      modifies this
      ensures Valid()
      ensures dstTiledTexture == dst && drawInfo == dinfo
    {
      dstTiledTexture := dst;
      drawInfo := dinfo;
    }

    /** SetupVPMatrices: records the camera's matrices shifted for view `view` of `numViews` and executes them. */
    method SetupVPMatrices(m: Mathf, backend: Backend, camera: Camera, view: int, numViews: int)
      requires Valid() && OffsetsDefined(m, camera.aspect, drawInfo.fov, drawInfo.size)
      modifies backend, commandBuffer
      ensures Valid()
      ensures var o := GetVPMatrixOffsets(m, camera.aspect, drawInfo.fov, drawInfo.size, view, numViews);
              backend.trace == old(backend.trace) +
                [SetViewProjectionMatrices(ShiftView(camera.WorldToCameraMatrix(), o),
                                           ShiftProjection(camera.ProjectionMatrix(), o))]
      ensures backend.nextTextureId == old(backend.nextTextureId) && backend.destroyed == old(backend.destroyed)
    {
      var projMatrix := camera.ProjectionMatrix();
      var viewMatrix := camera.WorldToCameraMatrix();
      var offsets := GetVPMatrixOffsets(m, camera.aspect, drawInfo.fov, drawInfo.size, view, numViews);
      viewMatrix := ShiftView(viewMatrix, offsets);
      projMatrix := ShiftProjection(projMatrix, offsets);
      commandBuffer.SetViewProjectionMatrices(viewMatrix, projMatrix);
      backend.ExecuteCommandBuffer(commandBuffer);
      commandBuffer.Clear();
    }

    /** The first part of one iteration of Execute's tile loop: render view `counter` of `tileNum`. */
    method RenderView(ghost f: Frame, m: Mathf, backend: Backend, camera: Camera, tempRenderTexture: RenderTexture,
                      i: int, j: int, counter: int, tileNum: int)
      requires Valid() && f.Valid()
      requires f.m == m && f.info == drawInfo && f.aspect == camera.aspect && f.temp == tempRenderTexture
      requires f.view == camera.WorldToCameraMatrix() && f.proj == camera.ProjectionMatrix()
      requires counter == ViewIndex(drawInfo.tileX, i, j) && tileNum == drawInfo.tileX * drawInfo.tileY
      modifies backend, commandBuffer
      ensures Valid()
      ensures backend.trace == old(backend.trace) + TileView(f, i, j)
      ensures backend.nextTextureId == old(backend.nextTextureId) && backend.destroyed == old(backend.destroyed)
    {
      SetupVPMatrices(m, backend, camera, counter, tileNum);

      commandBuffer.SetRenderTarget(TextureTarget(Some(tempRenderTexture)));
      commandBuffer.ClearRenderTarget();
      backend.ExecuteCommandBuffer(commandBuffer);
      commandBuffer.Clear();

      // opaque objects, objects without a matching shader pass, transparent objects
      backend.DrawRenderers(Opaque);
      backend.RenderObjectsWithError();
      backend.DrawRenderers(Transparent);
    }

    /**
     * One iteration of Execute's tile loop: render view `counter` of `tileNum` into the temporary
     * texture and copy it to tile `(i, j)` of the quilt.
     */
    method RenderTile(ghost f: Frame, m: Mathf, backend: Backend, camera: Camera, tempRenderTexture: RenderTexture,
                      i: int, j: int, counter: int, tileNum: int, w: int, h: int)
      requires Valid() && f.Valid()
      requires f.m == m && f.info == drawInfo && f.aspect == camera.aspect && f.temp == tempRenderTexture
      requires f.view == camera.WorldToCameraMatrix() && f.proj == camera.ProjectionMatrix() && f.dst == dstTiledTexture
      requires counter == ViewIndex(drawInfo.tileX, i, j) && tileNum == drawInfo.tileX * drawInfo.tileY
      requires w == TileWidth(drawInfo) && h == TileHeight(drawInfo)
      modifies backend, commandBuffer
      ensures Valid()
      ensures backend.trace == old(backend.trace) + TileEvents(f, i, j)
      ensures backend.nextTextureId == old(backend.nextTextureId) && backend.destroyed == old(backend.destroyed)
    {
      RenderView(f, m, backend, camera, tempRenderTexture, i, j, counter, tileNum);
      commandBuffer.CopyTexture(tempRenderTexture, 0, 0, tempRenderTexture.width, tempRenderTexture.height,
                                dstTiledTexture, j * w, i * h);
      backend.ExecuteCommandBuffer(commandBuffer);
      backend.Submit();
      commandBuffer.Clear();
    }

    /** Execute's inner loop: the tiles of row `i`, left to right. */
    method RenderRow(ghost f: Frame, ghost prefix: seq<Event>, m: Mathf, backend: Backend, camera: Camera,
                     tempRenderTexture: RenderTexture, i: int, counter0: int, tileNum: int, w: int, h: int)
        returns (counter: int)
      requires Valid() && f.Valid() && 0 <= i
      requires f.m == m && f.info == drawInfo && f.aspect == camera.aspect && f.temp == tempRenderTexture
      requires f.view == camera.WorldToCameraMatrix() && f.proj == camera.ProjectionMatrix() && f.dst == dstTiledTexture
      requires counter0 == i * Count(drawInfo.tileX) && tileNum == drawInfo.tileX * drawInfo.tileY
      requires w == TileWidth(drawInfo) && h == TileHeight(drawInfo)
      requires backend.trace == prefix + Rendered(f, counter0)
      modifies backend, commandBuffer
      ensures Valid()
      ensures counter == counter0 + Count(drawInfo.tileX)
      ensures backend.trace == prefix + Rendered(f, counter)
      ensures backend.nextTextureId == old(backend.nextTextureId) && backend.destroyed == old(backend.destroyed)
    {
      counter := counter0;
      var j := 0;
      while j < drawInfo.tileX
        invariant 0 <= j <= Count(drawInfo.tileX)
        invariant counter == counter0 + j
        invariant commandBuffer.commands == []
        invariant backend.trace == prefix + Rendered(f, counter)
        invariant backend.nextTextureId == old(backend.nextTextureId)
        invariant backend.destroyed == old(backend.destroyed)
        modifies backend, commandBuffer
      {
        ghost var before := backend.trace;
        RenderTile(f, m, backend, camera, tempRenderTexture, i, j, counter, tileNum, w, h);
        RenderedStep(f, prefix, before, backend.trace, counter, i, j);
        counter := counter + 1;
        j := j + 1;
      }
    }

    /** Execute's two nested loops: every tile, row by row, left to right. */
    method RenderTiles(ghost f: Frame, m: Mathf, backend: Backend, camera: Camera, tempRenderTexture: RenderTexture,
                       w: int, h: int)
      requires Valid() && f.Valid()
      requires f.m == m && f.info == drawInfo && f.aspect == camera.aspect && f.temp == tempRenderTexture
      requires f.view == camera.WorldToCameraMatrix() && f.proj == camera.ProjectionMatrix() && f.dst == dstTiledTexture
      requires w == TileWidth(drawInfo) && h == TileHeight(drawInfo)
      modifies backend, commandBuffer
      ensures Valid()
      ensures backend.trace == old(backend.trace) + Rendered(f, Count(drawInfo.tileY) * Count(drawInfo.tileX))
      ensures backend.nextTextureId == old(backend.nextTextureId) && backend.destroyed == old(backend.destroyed)
    {
      ghost var prefix := backend.trace;
      var counter := 0;
      var tileNum := drawInfo.tileX * drawInfo.tileY;
      var i := 0;
      while i < drawInfo.tileY
        invariant 0 <= i <= Count(drawInfo.tileY)
        invariant counter == i * Count(drawInfo.tileX)
        invariant commandBuffer.commands == []
        invariant backend.trace == prefix + Rendered(f, counter)
        invariant backend.nextTextureId == old(backend.nextTextureId)
        invariant backend.destroyed == old(backend.destroyed)
        modifies backend, commandBuffer
      {
        counter := RenderRow(f, prefix, m, backend, camera, tempRenderTexture, i, counter, tileNum, w, h);
        RowsAdvance(i, Count(drawInfo.tileX));
        i := i + 1;
      }
    }

    /**
     * Execute: renders every tile into the quilt. A zero tile count makes the C# integer
     * division throw before anything happens; that outcome is `ok == false`.
     */
    method Execute(m: Mathf, backend: Backend, camera: Camera) returns (ok: bool)
      requires Valid() && OffsetsDefined(m, camera.aspect, drawInfo.fov, drawInfo.size)
      modifies backend, commandBuffer, camera
      ensures Valid()
      ensures ok <==> drawInfo.tileX != 0 && drawInfo.tileY != 0
      ensures !ok ==> backend.trace == old(backend.trace) && unchanged(camera)
      ensures ok ==> backend.trace == old(backend.trace) + ExecuteEvents(
                var fr := CameraFraming(m, drawInfo.fov, drawInfo.size, drawInfo.nearClipFactor, drawInfo.farClipFactor);
                Frame(m, drawInfo, old(camera.aspect), FramedView(camera.math, fr), FramedProjection(camera.math, fr, old(camera.aspect)),
                      RenderTexture(old(backend.nextTextureId), TileWidth(drawInfo), TileHeight(drawInfo)),
                      dstTiledTexture))
      ensures ok ==> backend.nextTextureId == old(backend.nextTextureId) + 1
      ensures ok ==> FramingOf(camera) == CameraFraming(m, drawInfo.fov, drawInfo.size,
                                                         drawInfo.nearClipFactor, drawInfo.farClipFactor)
      ensures !ok ==> backend.nextTextureId == old(backend.nextTextureId)
      ensures backend.destroyed == old(backend.destroyed)
      ensures camera.aspect == old(camera.aspect) && camera.pixelRect == old(camera.pixelRect)
    {
      if drawInfo.tileX == 0 || drawInfo.tileY == 0 {
        return false;
      }
      ok := true;
      ghost var start := backend.trace;
      var w := CsDiv(drawInfo.renderTargetW, drawInfo.tileX);
      var h := CsDiv(drawInfo.renderTargetH, drawInfo.tileY);
      var tempRenderTexture := backend.GetTemporary(w, h);
      SetupCameraInfo(m, camera, drawInfo.fov, drawInfo.size, drawInfo.nearClipFactor, drawInfo.farClipFactor);
      ghost var f := Frame(m, drawInfo, camera.aspect, camera.WorldToCameraMatrix(), camera.ProjectionMatrix(),
                           tempRenderTexture, dstTiledTexture);

      // clear the current target
      commandBuffer.ClearRenderTarget();
      backend.ExecuteCommandBuffer(commandBuffer);
      backend.Submit();
      commandBuffer.Clear();
      ghost var prefix := backend.trace;
      assert prefix == start + [AcquireTemporary(tempRenderTexture)] + [ClearRenderTarget] + [Submit];

      RenderTiles(f, m, backend, camera, tempRenderTexture, w, h);
      backend.ReleaseTemporary(tempRenderTexture);
      ExecuteTrace(f, start);
    }
  }
}
