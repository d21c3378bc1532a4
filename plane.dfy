/**
 * The plane mesh (we.gl.Plane): a width x height rectangle in the z = 0
 * plane, as a four-vertex triangle strip with matching texture coordinates.
 * JavaScript numbers are modelled as reals copied verbatim.
 */
module Planes {
  import opened Gl

  /** Vertices per plane, and the components per position and per coordinate. */
  const CORNERS := 4
  const POSITION_SIZE := 3
  const TEX_COORD_SIZE := 2

  /** The position data: (w,h,0), (0,h,0), (w,0,0), (0,0,0). */
  function PlaneVertices(width: real, height: real): (r: seq<real>)
    ensures |r| == POSITION_SIZE * CORNERS
    ensures forall i :: 0 <= i < CORNERS ==> r[3 * i + 2] == 0.0
    ensures forall i :: 0 <= i < CORNERS ==> r[3 * i] in {0.0, width} && r[3 * i + 1] in {0.0, height}
  {
    [ width, height, 0.0,
      0.0, height, 0.0,
      width, 0.0, 0.0,
      0.0, 0.0, 0.0 ]
  }

  /** The texture-coordinate data: (1,1), (0,1), (1,0), (0,0). */
  function PlaneTexCoords(): (r: seq<real>)
    ensures |r| == TEX_COORD_SIZE * CORNERS
    ensures forall k :: 0 <= k < |r| ==> r[k] in {0.0, 1.0}
  {
    [ 1.0, 1.0,
      0.0, 1.0,
      1.0, 0.0,
      0.0, 0.0 ]
  }

  /**
   * Vertex i and texture coordinate i name the same corner of the
   * rectangle: u = 1 on the x = width side, v = 1 on the y = height side.
   */
  lemma CornerCorrespondence(width: real, height: real, i: int)
    requires 0 <= i < CORNERS
    ensures PlaneVertices(width, height)[3 * i]
      == if PlaneTexCoords()[2 * i] == 1.0 then width else 0.0
    ensures PlaneVertices(width, height)[3 * i + 1]
      == if PlaneTexCoords()[2 * i + 1] == 1.0 then height else 0.0
    ensures PlaneVertices(width, height)[3 * i + 2] == 0.0
  {
  }

  /** The four texture coordinates are the four corners of the unit square, each once. */
  lemma TexCoordsDistinct(i: int, j: int)
    requires 0 <= i < j < CORNERS
    ensures PlaneTexCoords()[2 * i] != PlaneTexCoords()[2 * j]
      || PlaneTexCoords()[2 * i + 1] != PlaneTexCoords()[2 * j + 1]
  {
  }

  /** The calls the constructor makes on the context, in order. */
  function PlaneCalls(vertexBuffer: Buffer, texCoordBuffer: Buffer, width: real, height: real): seq<Call> {
    [ CreateBufferCall(vertexBuffer), CreateBufferCall(texCoordBuffer),
      BindBufferCall(vertexBuffer), BufferDataCall(PlaneVertices(width, height), StaticDraw),
      BindBufferCall(texCoordBuffer), BufferDataCall(PlaneTexCoords(), StaticDraw) ]
  }

  /**
   * Whatever came before, the constructor's two uploads go to the buffer
   * bound just before each: positions to the vertex buffer, coordinates to
   * the texture-coordinate buffer, both with STATIC_DRAW.
   */
  lemma PlaneUploads(prior: seq<Call>, vertexBuffer: Buffer, texCoordBuffer: Buffer, width: real, height: real)
    ensures Uploads(prior + PlaneCalls(vertexBuffer, texCoordBuffer, width, height))
      == Uploads(prior)
         + [ Upload(vertexBuffer, PlaneVertices(width, height), StaticDraw),
             Upload(texCoordBuffer, PlaneTexCoords(), StaticDraw) ]
  {
    var calls := prior + PlaneCalls(vertexBuffer, texCoordBuffer, width, height);
    var n := |prior|;
    var before := Uploads(prior);
    assert calls[..n] == prior;
    assert calls[..n + 1][..n] == prior;
    assert Uploads(calls[..n + 1]) == before;
    assert calls[..n + 2][..n + 1] == calls[..n + 1];
    assert Uploads(calls[..n + 2]) == before;
    assert calls[..n + 3][..n + 2] == calls[..n + 2];
    assert Uploads(calls[..n + 3]) == before;
    assert LastBound(calls[..n + 3]) == vertexBuffer;
    assert calls[..n + 4][..n + 3] == calls[..n + 3];
    var first := before + [Upload(vertexBuffer, PlaneVertices(width, height), StaticDraw)];
    assert Uploads(calls[..n + 4]) == first;
    assert calls[..n + 5][..n + 4] == calls[..n + 4];
    assert Uploads(calls[..n + 5]) == first;
    assert LastBound(calls[..n + 5]) == texCoordBuffer;
    assert calls[..n + 6][..n + 5] == calls[..n + 5];
    assert calls[..n + 6] == calls;
  }

  /** The layout a renderer relies on: itemSize values per item, numItems items. */
  ghost predicate Shaped(buffer: Buffer, itemSize: nat, numItems: nat)
    reads buffer
  {
    buffer.itemSize == itemSize && buffer.numItems == numItems
    && |buffer.data| == itemSize * numItems
  }

  /** A plane: two buffers created, filled and tagged by the constructor. */
  class Plane {
    const gl: Context
    var vertexBuffer: Buffer
    var texCoordBuffer: Buffer

    /** The mesh contract: positions of 3 and coordinates of 2 floats, for 4 vertices. */
    ghost predicate IsMesh()
      reads this, vertexBuffer, texCoordBuffer
    {
      vertexBuffer != texCoordBuffer
      && Shaped(vertexBuffer, POSITION_SIZE, CORNERS)
      && Shaped(texCoordBuffer, TEX_COORD_SIZE, CORNERS)
    }

    constructor (context: Context, width: real, height: real)
      requires context.Valid()
      modifies context
      ensures gl == context && context.Valid()
      ensures fresh(vertexBuffer) && fresh(texCoordBuffer) && IsMesh()
      ensures vertexBuffer.data == PlaneVertices(width, height) && vertexBuffer.usage == StaticDraw
      ensures texCoordBuffer.data == PlaneTexCoords() && texCoordBuffer.usage == StaticDraw
      ensures context.arrayBuffer == texCoordBuffer
      ensures context.calls == old(context.calls) + PlaneCalls(vertexBuffer, texCoordBuffer, width, height)
      ensures Uploads(context.calls)
        == old(Uploads(context.calls))
           + [ Upload(vertexBuffer, PlaneVertices(width, height), StaticDraw),
               Upload(texCoordBuffer, PlaneTexCoords(), StaticDraw) ]
    {
      gl := context;
      ghost var called := context.calls;
      var vb := context.CreateBuffer();
      var tb := context.CreateBuffer();
      ghost var created := context.calls;
      Fill(context, vb, PlaneVertices(width, height), POSITION_SIZE, CORNERS);
      Fill(context, tb, PlaneTexCoords(), TEX_COORD_SIZE, CORNERS);
      vertexBuffer, texCoordBuffer := vb, tb;
      assert context.calls == called + PlaneCalls(vb, tb, width, height) by {
        assert created == called + [CreateBufferCall(vb), CreateBufferCall(tb)];
      }
      PlaneUploads(called, vb, tb, width, height);
    }
  }

  /**
   * One buffer's part of the constructor: bind it to ARRAY_BUFFER, upload
   * the data with STATIC_DRAW, then tag it with its item size and count.
   */
  method Fill(context: Context, buffer: Buffer, data: seq<real>, itemSize: nat, numItems: nat)
    requires context.Valid()
    modifies context, buffer
    ensures context.Valid() && context.arrayBuffer == buffer
    ensures buffer.data == data && buffer.usage == StaticDraw
    ensures buffer.itemSize == itemSize && buffer.numItems == numItems
    ensures context.calls == old(context.calls) + [BindBufferCall(buffer), BufferDataCall(data, StaticDraw)]
  {
    context.BindBuffer(buffer);
    context.BufferData(data, StaticDraw);
    buffer.itemSize := itemSize;
    buffer.numItems := numItems;
  }
}
