/**
 * The mesh built from a height map: a vertex grid with a colour and a normal
 * per vertex, two triangles per grid cell, and the wireframe derived from the
 * triangles. The arrays the caller hands in are only ever appended to; each
 * is a Buffer, whose contents after the call are proved to be its contents
 * before it followed by a function of the inputs.
 */
module Mesh {
  import opened Arith
  import opened Wrappers

  /** A JavaScript array owned by the caller, which the mesh code only pushes onto. */
  class Buffer<T> {
    var items: seq<T>

    /** An array holding `s`; `[]` for a fresh one. */
    constructor (s: seq<T>)
      ensures items == s
    {
      items := s;
    }

    method Push(v: T)
      modifies this
      ensures items == old(items) + [v]
    {
      items := items + [v];
    }
  }

  /** `s[k]` as JavaScript reads it: `undefined` past the end. */
  function At<T>(s: seq<T>, k: int): (r: Option<T>)
    ensures r.Some? <==> 0 <= k < |s|
    ensures r.Some? ==> r.value == s[k]
  {
    if 0 <= k < |s| then Some(s[k]) else None
  }

  // ---------------------------------------------------------------------------
  // Row-major double loops

  /**
   * What a double loop over rows of `cols` cells has appended before it
   * reaches cell `(i, j)`: the piece `cell(r, c)` of every earlier cell, in
   * loop order.
   */
  function Grid<T>(cols: nat, cell: (nat, nat) -> seq<T>, i: nat, j: nat): seq<T>
    decreases i, j
  {
    if j == 0 then (if i == 0 then [] else Grid(cols, cell, i - 1, cols))
    else Grid(cols, cell, i, j - 1) + cell(i, j - 1)
  }

  /** One more iteration of the inner loop appends one more piece after what is there. */
  lemma GridStep<T>(cols: nat, cell: (nat, nat) -> seq<T>, prefix: seq<T>, i: nat, j: nat)
    ensures prefix + Grid(cols, cell, i, j + 1) == (prefix + Grid(cols, cell, i, j)) + cell(i, j)
  {
    assert Grid(cols, cell, i, j + 1) == Grid(cols, cell, i, j) + cell(i, j);
  }

  /** Three or four pushes in a row append the three or four values. */
  lemma Pushed3<T>(s: seq<T>, a: T, b: T, c: T)
    ensures s + [a] + [b] + [c] == s + [a, b, c]
  {
  }

  lemma Pushed4<T>(s: seq<T>, a: T, b: T, c: T, d: T)
    ensures s + [a] + [b] + [c] + [d] == s + [a, b, c, d]
  {
  }

  lemma Pushed6<T>(s: seq<T>, a: T, b: T, c: T, d: T, e: T, f: T)
    ensures s + [a] + [b] + [c] + [d] + [e] + [f] == s + [a, b, c, d, e, f]
  {
  }

  /** Every cell contributes `w` entries. */
  ghost predicate Uniform<T>(cell: (nat, nat) -> seq<T>, w: nat)
  {
    forall r: nat, c: nat :: |cell(r, c)| == w
  }

  lemma {:induction false} GridLength<T>(cols: nat, cell: (nat, nat) -> seq<T>, w: nat, i: nat, j: nat)
    requires Uniform(cell, w) && j <= cols
    ensures |Grid(cols, cell, i, j)| == (i * cols + j) * w
    decreases i, j
  {
    if j == 0 {
      if i > 0 {
        GridLength(cols, cell, w, i - 1, cols);
        assert ((i - 1) * cols + cols) * w == (i * cols) * w;
      }
    } else {
      GridLength(cols, cell, w, i, j - 1);
      assert (i * cols + j) * w == (i * cols + (j - 1)) * w + w;
    }
  }

  /** Entry `k` of cell `(r, c)` sits at position `(r * cols + c) * w + k`. */
  lemma {:induction false} GridAt<T>(cols: nat, cell: (nat, nat) -> seq<T>, w: nat, i: nat, j: nat, r: nat, c: nat, k: nat)
    requires Uniform(cell, w) && j <= cols && c < cols && k < w
    requires r < i || (r == i && c < j)
    ensures (r * cols + c) * w + k < |Grid(cols, cell, i, j)|
    ensures Grid(cols, cell, i, j)[(r * cols + c) * w + k] == cell(r, c)[k]
    decreases i, j
  {
    if j == 0 {
      GridAt(cols, cell, w, i - 1, cols, r, c, k);
    } else {
      GridLength(cols, cell, w, i, j - 1);
      if r == i && c == j - 1 {
        assert (r * cols + c) * w + k == (i * cols + (j - 1)) * w + k;
      } else {
        GridAt(cols, cell, w, i, j - 1, r, c, k);
      }
    }
  }

  /**
   * After the whole double loop over `rows` rows, entry `k` of the `v`-th
   * cell in loop order sits at `v * w + k`.
   */
  lemma GridCellAt<T>(cols: nat, cell: (nat, nat) -> seq<T>, w: nat, rows: nat, v: nat, k: nat)
    requires Uniform(cell, w) && cols > 0 && v < rows * cols && k < w
    ensures v * w + k < |Grid(cols, cell, rows, 0)|
    ensures Grid(cols, cell, rows, 0)[v * w + k] == cell(v / cols, v % cols)[k]
  {
    var r, c := v / cols, v % cols;
    assert v == r * cols + c;
    assert r < rows;
    GridAt(cols, cell, w, rows, 0, r, c, k);
  }

  /** Every entry of `s` satisfies `p`. */
  ghost predicate All<T>(s: seq<T>, p: T -> bool)
  {
    forall k :: 0 <= k < |s| ==> p(s[k])
  }

  /** When every piece of every earlier cell satisfies `p`, so does everything appended. */
  lemma {:induction false} GridAll<T>(cols: nat, cell: (nat, nat) -> seq<T>, p: T -> bool, i: nat, j: nat)
    requires j <= cols
    requires forall r: nat, c: nat :: c < cols && (r < i || (r == i && c < j)) ==> All(cell(r, c), p)
    ensures All(Grid(cols, cell, i, j), p)
    decreases i, j
  {
    if j == 0 {
      if i > 0 {
        GridAll(cols, cell, p, i - 1, cols);
      }
    } else {
      GridAll(cols, cell, p, i, j - 1);
      var s := Grid(cols, cell, i, j - 1);
      var t := cell(i, j - 1);
      assert All(t, p);
      forall k | 0 <= k < |s + t|
        ensures p((s + t)[k])
      {
        if k >= |s| {
          assert (s + t)[k] == t[k - |s|];
        }
      }
    }
  }

  // ---------------------------------------------------------------------------
  // terrainFromIteration

  /** The side of the height map, `2^n + 1`; the vertex grid has one more vertex per side. */
  function Edge(n: nat): (e: nat)
    ensures e >= 2
  {
    Pow2(n) + 1
  }

  /** The three colour bands: snow, rock and water. */
  const White: seq<real> := [1.0, 1.0, 1.0, 1.0]
  const Red: seq<real> := [0.22, 0.0, 0.0, 1.0]
  const Blue: seq<real> := [0.0, 0.0, 0.33, 1.0]

  /**
   * The colour of a vertex at height `z`. A height read past the end of the
   * map (JavaScript's `undefined`) fails both comparisons, so it is water.
   */
  function Band(z: Option<real>): (c: seq<real>)
    ensures |c| == 4
  {
    match z
    case Some(v) => if v > 1.5 then White else if v > 0.0 && v <= 1.5 then Red else Blue
    case None => Blue
  }

  /** The bands split the heights at 0 and 1.5; an undefined height is water. */
  lemma BandCases(z: Option<real>)
    ensures Band(z) == White <==> z.Some? && z.value > 1.5
    ensures Band(z) == Red <==> z.Some? && 0.0 < z.value <= 1.5
    ensures Band(z) == Blue <==> z.None? || z.value <= 0.0
  {
    assert White[0] != Red[0] && Red[0] != Blue[0] && White[0] != Blue[0];
  }

  /** The height of vertex `(i, j)`: the map is read with row stride `edge`, not `edge + 1`. */
  function HeightAt(hm: seq<real>, n: nat, i: nat, j: nat): Option<real>
  {
    At(hm, j + i * Edge(n))
  }

  /** The spacing of the vertex grid along one axis. */
  function Delta(lo: real, hi: real, n: nat): real
    requires n >= 1
  {
    (hi - lo) / (n as real)
  }

  /** Position and height of vertex `(i, j)`: row `i` lies at `y`, column `j` at `x`. */
  function VertexCell(hm: seq<real>, n: nat, minX: real, deltaX: real, minY: real, deltaY: real, i: nat, j: nat): seq<Option<real>>
  {
    [Some(minX + deltaX * (j as real)), Some(minY + deltaY * (i as real)), HeightAt(hm, n, i, j)]
  }

  function VertexCells(hm: seq<real>, n: nat, minX: real, deltaX: real, minY: real, deltaY: real): (cell: (nat, nat) -> seq<Option<real>>)
  {
    (i: nat, j: nat) => VertexCell(hm, n, minX, deltaX, minY, deltaY, i, j)
  }

  function ColourCells(hm: seq<real>, n: nat): (cell: (nat, nat) -> seq<real>)
  {
    (i: nat, j: nat) => Band(HeightAt(hm, n, i, j))
  }

  /** Every normal is `(0, 0, 1)`: the mesh is treated as flat for shading. */
  function NormalCells(): (cell: (nat, nat) -> seq<real>)
  {
    (i: nat, j: nat) => [0.0, 0.0, 1.0]
  }

  /**
   * The two triangles of grid cell `(i, j)`, whose top-left vertex is
   * `vid = i * (edge + 1) + j`: `(vid, vid+1, vid+edge+1)` and
   * `(vid+1, vid+edge+2, vid+edge+1)`.
   */
  function FaceCell(edge: nat, i: nat, j: nat): seq<nat>
  {
    var vid := i * (edge + 1) + j;
    [vid, vid + 1, vid + edge + 1, vid + 1, vid + 1 + edge + 1, vid + edge + 1]
  }

  function FaceCells(edge: nat): (cell: (nat, nat) -> seq<nat>)
  {
    (i: nat, j: nat) => FaceCell(edge, i, j)
  }

  /** What the first loop nest appends to each array, over `(edge + 1)^2` vertices. */
  function Vertices(hm: seq<real>, n: nat, minX: real, maxX: real, minY: real, maxY: real): seq<Option<real>>
    requires n >= 1
  {
    Grid(Edge(n) + 1, VertexCells(hm, n, minX, Delta(minX, maxX, n), minY, Delta(minY, maxY, n)), Edge(n) + 1, 0)
  }

  function Colours(hm: seq<real>, n: nat): seq<real>
  {
    Grid(Edge(n) + 1, ColourCells(hm, n), Edge(n) + 1, 0)
  }

  function Normals(n: nat): seq<real>
  {
    Grid(Edge(n) + 1, NormalCells(), Edge(n) + 1, 0)
  }

  /** What the second loop nest appends, over `edge^2` grid cells. */
  function Faces(n: nat): seq<nat>
  {
    Grid(Edge(n), FaceCells(Edge(n)), Edge(n), 0)
  }

  /**
   * Appends the vertex grid, its colours and normals, and the triangles, and
   * returns the number of triangles. Colours and normals hold the same kind
   * of entry and are required to be two arrays; the other arrays differ in
   * type. The two loop nests are the methods VertexLoops and FaceLoops.
   */
  method TerrainFromIteration(n: nat, minX: real, maxX: real, minY: real, maxY: real,
                              vertexArray: Buffer<Option<real>>, faceArray: Buffer<nat>, normalArray: Buffer<real>,
                              heightMap: array<real>, colors: Buffer<real>)
    returns (numT: nat)
    requires n >= 1 && normalArray != colors
    modifies vertexArray, faceArray, normalArray, colors
    ensures vertexArray.items == old(vertexArray.items) + Vertices(heightMap[..], n, minX, maxX, minY, maxY)
    ensures colors.items == old(colors.items) + Colours(heightMap[..], n)
    ensures normalArray.items == old(normalArray.items) + Normals(n)
    ensures faceArray.items == old(faceArray.items) + Faces(n)
    ensures numT == 2 * (Edge(n) * Edge(n))
  {
    var edge := Pow2(n) + 1;
    var deltaX := (maxX - minX) / (n as real);
    var deltaY := (maxY - minY) / (n as real);
    VertexLoops(n, edge, minX, deltaX, minY, deltaY, vertexArray, normalArray, heightMap, colors);
    assert vertexArray.items == old(vertexArray.items) + Vertices(heightMap[..], n, minX, maxX, minY, maxY);
    numT := FaceLoops(edge, faceArray);
  }

  /** The first loop nest: position, height, colour and normal of every vertex. */
  method VertexLoops(n: nat, edge: nat, minX: real, deltaX: real, minY: real, deltaY: real,
                     vertexArray: Buffer<Option<real>>, normalArray: Buffer<real>, heightMap: array<real>, colors: Buffer<real>)
    requires edge == Edge(n) && normalArray != colors
    modifies vertexArray, normalArray, colors
    ensures vertexArray.items == old(vertexArray.items) + Grid(edge + 1, VertexCells(heightMap[..], n, minX, deltaX, minY, deltaY), edge + 1, 0)
    ensures colors.items == old(colors.items) + Colours(heightMap[..], n)
    ensures normalArray.items == old(normalArray.items) + Normals(n)
  {
    ghost var vcell := VertexCells(heightMap[..], n, minX, deltaX, minY, deltaY);
    ghost var ccell := ColourCells(heightMap[..], n);
    ghost var v0, c0, n0 := vertexArray.items, colors.items, normalArray.items;
    var i: nat := 0;
    while i <= edge
      invariant i <= edge + 1
      invariant vertexArray.items == v0 + Grid(edge + 1, vcell, i, 0)
      invariant colors.items == c0 + Grid(edge + 1, ccell, i, 0)
      invariant normalArray.items == n0 + Grid(edge + 1, NormalCells(), i, 0)
    {
      var j: nat := 0;
      while j <= edge
        invariant j <= edge + 1
        invariant vertexArray.items == v0 + Grid(edge + 1, vcell, i, j)
        invariant colors.items == c0 + Grid(edge + 1, ccell, i, j)
        invariant normalArray.items == n0 + Grid(edge + 1, NormalCells(), i, j)
      {
        PushVertex(n, edge, minX, deltaX, minY, deltaY, vertexArray, normalArray, heightMap, colors, i, j);
        GridStep(edge + 1, vcell, v0, i, j);
        GridStep(edge + 1, ccell, c0, i, j);
        GridStep(edge + 1, NormalCells(), n0, i, j);
        j := j + 1;
      }
      i := i + 1;
    }
  }

  /** The body of the first loop nest: vertex `(i, j)`'s position and height, colour and normal. */
  method PushVertex(n: nat, edge: nat, minX: real, deltaX: real, minY: real, deltaY: real,
                    vertexArray: Buffer<Option<real>>, normalArray: Buffer<real>, heightMap: array<real>, colors: Buffer<real>,
                    i: nat, j: nat)
    requires edge == Edge(n) && normalArray != colors
    modifies vertexArray, normalArray, colors
    ensures vertexArray.items == old(vertexArray.items) + VertexCells(heightMap[..], n, minX, deltaX, minY, deltaY)(i, j)
    ensures colors.items == old(colors.items) + ColourCells(heightMap[..], n)(i, j)
    ensures normalArray.items == old(normalArray.items) + NormalCells()(i, j)
  {
    ghost var vs, cs, ns := vertexArray.items, colors.items, normalArray.items;
    vertexArray.Push(Some(minX + deltaX * (j as real)));
    vertexArray.Push(Some(minY + deltaY * (i as real)));
    vertexArray.Push(At(heightMap[..], j + i * edge));
    Pushed3(vs, Some(minX + deltaX * (j as real)), Some(minY + deltaY * (i as real)), At(heightMap[..], j + i * edge));
    assert vertexArray.items == vs + VertexCells(heightMap[..], n, minX, deltaX, minY, deltaY)(i, j);
    var z := At(heightMap[..], j + i * edge);
    if z.Some? && z.value > 1.5 {
      colors.Push(1.0);
      colors.Push(1.0);
      colors.Push(1.0);
      colors.Push(1.0);
      Pushed4(cs, 1.0, 1.0, 1.0, 1.0);
    } else if z.Some? && z.value > 0.0 && z.value <= 1.5 {
      colors.Push(0.22);
      colors.Push(0.0);
      colors.Push(0.0);
      colors.Push(1.0);
      Pushed4(cs, 0.22, 0.0, 0.0, 1.0);
    } else {
      colors.Push(0.0);
      colors.Push(0.0);
      colors.Push(0.33);
      colors.Push(1.0);
      Pushed4(cs, 0.0, 0.0, 0.33, 1.0);
    }
    assert colors.items == cs + ColourCells(heightMap[..], n)(i, j);
    normalArray.Push(0.0);
    normalArray.Push(0.0);
    normalArray.Push(1.0);
    Pushed3(ns, 0.0, 0.0, 1.0);
    assert normalArray.items == ns + NormalCells()(i, j);
  }

  /** The body of the second loop nest: the two triangles of grid cell `(i, j)`. */
  method PushTriangles(edge: nat, faceArray: Buffer<nat>, i: nat, j: nat)
    modifies faceArray
    ensures faceArray.items == old(faceArray.items) + FaceCells(edge)(i, j)
  {
    var vid := i * (edge + 1) + j;
    faceArray.Push(vid);
    faceArray.Push(vid + 1);
    faceArray.Push(vid + edge + 1);
    faceArray.Push(vid + 1);
    faceArray.Push(vid + 1 + edge + 1);
    faceArray.Push(vid + edge + 1);
    Pushed6(old(faceArray.items), vid, vid + 1, vid + edge + 1, vid + 1, vid + 1 + edge + 1, vid + edge + 1);
  }

  /** The second loop nest: two triangles per grid cell; returns their number. */
  method FaceLoops(edge: nat, faceArray: Buffer<nat>) returns (numT: nat)
    modifies faceArray
    ensures faceArray.items == old(faceArray.items) + Grid(edge, FaceCells(edge), edge, 0)
    ensures numT == 2 * (edge * edge)
  {
    numT := 0;
    var i: nat := 0;
    while i < edge
      invariant i <= edge
      invariant faceArray.items == old(faceArray.items) + Grid(edge, FaceCells(edge), i, 0)
      invariant numT == 2 * (i * edge)
    {
      var j: nat := 0;
      while j < edge
        invariant j <= edge
        invariant faceArray.items == old(faceArray.items) + Grid(edge, FaceCells(edge), i, j)
        invariant numT == 2 * (i * edge + j)
      {
        PushTriangles(edge, faceArray, i, j);
        GridStep(edge, FaceCells(edge), old(faceArray.items), i, j);
        numT := numT + 2;
        j := j + 1;
      }
      assert i * edge + edge == (i + 1) * edge;
      i := i + 1;
    }
  }

  // ---------------------------------------------------------------------------
  // What terrainFromIteration appends

  lemma VerticesUniform(hm: seq<real>, n: nat, minX: real, deltaX: real, minY: real, deltaY: real)
    ensures Uniform(VertexCells(hm, n, minX, deltaX, minY, deltaY), 3)
  {
  }

  lemma ColoursUniform(hm: seq<real>, n: nat)
    ensures Uniform(ColourCells(hm, n), 4)
  {
  }

  lemma NormalsUniform()
    ensures Uniform(NormalCells(), 3)
  {
  }

  lemma FacesUniform(edge: nat)
    ensures Uniform(FaceCells(edge), 6)
  {
  }

  /**
   * Over `(edge + 1)^2` vertices: three coordinates, four colour components
   * and three normal components each; over `edge^2` grid cells six face
   * indices each, that is three per triangle returned.
   */
  lemma MeshSizes(hm: seq<real>, n: nat, minX: real, maxX: real, minY: real, maxY: real)
    requires n >= 1
    ensures |Vertices(hm, n, minX, maxX, minY, maxY)| == 3 * ((Edge(n) + 1) * (Edge(n) + 1))
    ensures |Colours(hm, n)| == 4 * ((Edge(n) + 1) * (Edge(n) + 1))
    ensures |Normals(n)| == 3 * ((Edge(n) + 1) * (Edge(n) + 1))
    ensures |Faces(n)| == 6 * (Edge(n) * Edge(n)) == 3 * (2 * (Edge(n) * Edge(n)))
  {
    VerticesSize(hm, n, minX, maxX, minY, maxY);
    ColoursSize(hm, n);
    NormalsSize(n);
    FacesSize(n);
  }

  lemma VerticesSize(hm: seq<real>, n: nat, minX: real, maxX: real, minY: real, maxY: real)
    requires n >= 1
    ensures |Vertices(hm, n, minX, maxX, minY, maxY)| == 3 * ((Edge(n) + 1) * (Edge(n) + 1))
  {
    var e := Edge(n);
    VerticesUniform(hm, n, minX, Delta(minX, maxX, n), minY, Delta(minY, maxY, n));
    GridLength(e + 1, VertexCells(hm, n, minX, Delta(minX, maxX, n), minY, Delta(minY, maxY, n)), 3, e + 1, 0);
  }

  lemma ColoursSize(hm: seq<real>, n: nat)
    ensures |Colours(hm, n)| == 4 * ((Edge(n) + 1) * (Edge(n) + 1))
  {
    var e := Edge(n);
    ColoursUniform(hm, n);
    GridLength(e + 1, ColourCells(hm, n), 4, e + 1, 0);
  }

  lemma NormalsSize(n: nat)
    ensures |Normals(n)| == 3 * ((Edge(n) + 1) * (Edge(n) + 1))
  {
    var e := Edge(n);
    NormalsUniform();
    GridLength(e + 1, NormalCells(), 3, e + 1, 0);
  }

  lemma FacesSize(n: nat)
    ensures |Faces(n)| == 6 * (Edge(n) * Edge(n))
  {
    var e := Edge(n);
    FacesUniform(e);
    GridLength(e, FaceCells(e), 6, e, 0);
  }

  /**
   * Vertex `v` lies in row `v / (edge + 1)` and column `v % (edge + 1)`, and
   * its height is read at offset `column + row * edge` of the height map.
   */
  lemma VertexAt(hm: seq<real>, n: nat, minX: real, maxX: real, minY: real, maxY: real, v: nat)
    requires n >= 1 && v < (Edge(n) + 1) * (Edge(n) + 1)
    ensures 3 * v + 2 < |Vertices(hm, n, minX, maxX, minY, maxY)|
    ensures Vertices(hm, n, minX, maxX, minY, maxY)[3 * v + 2] == At(hm, v % (Edge(n) + 1) + v / (Edge(n) + 1) * Edge(n))
  {
    var e := Edge(n);
    var vcell := VertexCells(hm, n, minX, Delta(minX, maxX, n), minY, Delta(minY, maxY, n));
    VerticesUniform(hm, n, minX, Delta(minX, maxX, n), minY, Delta(minY, maxY, n));
    GridCellAt(e + 1, vcell, 3, e + 1, v, 2);
  }

  /** The colour of vertex `v` is the band of its height. */
  lemma ColourAt(hm: seq<real>, n: nat, v: nat)
    requires v < (Edge(n) + 1) * (Edge(n) + 1)
    ensures 4 * v + 4 <= |Colours(hm, n)|
    ensures Colours(hm, n)[4 * v..4 * v + 4] == Band(At(hm, v % (Edge(n) + 1) + v / (Edge(n) + 1) * Edge(n)))
  {
    var e := Edge(n);
    var band := ColourCells(hm, n)(v / (e + 1), v % (e + 1));
    ColoursUniform(hm, n);
    GridCellAt(e + 1, ColourCells(hm, n), 4, e + 1, v, 0);
    GridCellAt(e + 1, ColourCells(hm, n), 4, e + 1, v, 1);
    GridCellAt(e + 1, ColourCells(hm, n), 4, e + 1, v, 2);
    GridCellAt(e + 1, ColourCells(hm, n), 4, e + 1, v, 3);
    var slice := Colours(hm, n)[4 * v..4 * v + 4];
    assert slice[0] == band[0] && slice[1] == band[1] && slice[2] == band[2] && slice[3] == band[3];
  }

  /** The normal of vertex `v` is `(0, 0, 1)`. */
  lemma NormalAt(n: nat, v: nat)
    requires v < (Edge(n) + 1) * (Edge(n) + 1)
    ensures 3 * v + 3 <= |Normals(n)|
    ensures Normals(n)[3 * v..3 * v + 3] == [0.0, 0.0, 1.0]
  {
    var e := Edge(n);
    NormalsUniform();
    GridCellAt(e + 1, NormalCells(), 3, e + 1, v, 0);
    GridCellAt(e + 1, NormalCells(), 3, e + 1, v, 1);
    GridCellAt(e + 1, NormalCells(), 3, e + 1, v, 2);
  }

  /** The triangles of grid cell `(i, j)` use only vertices of the `(edge + 1)^2` grid. */
  lemma FaceCellBelow(edge: nat, i: nat, j: nat)
    requires i < edge && j < edge
    ensures All(FaceCell(edge, i, j), (x: nat) => x < (edge + 1) * (edge + 1))
  {
    assert i * (edge + 1) <= (edge - 1) * (edge + 1);
    assert (edge - 1) * (edge + 1) + (edge - 1) + edge + 2 == (edge + 1) * (edge + 1) - 1;
  }

  /** Every face index names one of the `(edge + 1)^2` vertices. */
  lemma FacesBelow(n: nat)
    ensures forall m :: 0 <= m < |Faces(n)| ==> Faces(n)[m] < (Edge(n) + 1) * (Edge(n) + 1)
  {
    var e := Edge(n);
    var p := (x: nat) => x < (e + 1) * (e + 1);
    forall r: nat, c: nat | c < e && (r < e || (r == e && c < 0))
      ensures All(FaceCells(e)(r, c), p)
    {
      FaceCellBelow(e, r, c);
    }
    GridAll(e, FaceCells(e), p, e, 0);
  }

  /**
   * With the map of side `edge` that render fills, the last row of vertices
   * reads past its end: those heights are `undefined`, and the vertices are
   * coloured as water.
   */
  lemma LastRowUndefined(hm: seq<real>, n: nat, minX: real, maxX: real, minY: real, maxY: real, j: nat)
    requires n >= 1 && |hm| == Edge(n) * Edge(n) && j <= Edge(n)
    ensures 3 * (Edge(n) * (Edge(n) + 1) + j) + 2 < |Vertices(hm, n, minX, maxX, minY, maxY)|
    ensures Vertices(hm, n, minX, maxX, minY, maxY)[3 * (Edge(n) * (Edge(n) + 1) + j) + 2] == None
    ensures 4 * (Edge(n) * (Edge(n) + 1) + j) + 4 <= |Colours(hm, n)|
    ensures Colours(hm, n)[4 * (Edge(n) * (Edge(n) + 1) + j)..4 * (Edge(n) * (Edge(n) + 1) + j) + 4] == Blue
  {
    var e := Edge(n);
    var v := e * (e + 1) + j;
    assert v < (e + 1) * (e + 1);
    DivModUnique(v, e + 1, e, j);
    VertexAt(hm, n, minX, maxX, minY, maxY, v);
    ColourAt(hm, n, v);
  }

  // ---------------------------------------------------------------------------
  // generateLinesFromIndexedTriangles

  /** The three edges a-b, b-c, c-a of triangle `f`, whose corners are entries `3f`, `3f+1`, `3f+2`. */
  function Edges(faces: seq<nat>, f: nat): seq<Option<nat>>
  {
    var a, b, c := At(faces, 3 * f), At(faces, 3 * f + 1), At(faces, 3 * f + 2);
    [a, b, b, c, c, a]
  }

  /** The edges of triangles `0 .. f-1`, in triangle order. */
  function Lines(faces: seq<nat>, f: nat): seq<Option<nat>>
  {
    if f == 0 then [] else Lines(faces, f - 1) + Edges(faces, f - 1)
  }

  /**
   * How many triangles the loop visits: it runs while `f < len / 3` in real
   * arithmetic, that is for `ceil(len / 3)` values of `f`.
   */
  function Triangles(len: nat): nat
  {
    (len + 2) / 3
  }

  lemma TrianglesCount(len: nat, f: nat)
    ensures f < Triangles(len) <==> (f as real) < (len as real) / 3.0
  {
  }

  /** Appends the three edges of every triangle of `faceArray`, two entries each. */
  method GenerateLinesFromIndexedTriangles(faceArray: Buffer<nat>, lineArray: Buffer<Option<nat>>)
    modifies lineArray
    ensures lineArray.items == old(lineArray.items) + Lines(faceArray.items, Triangles(|faceArray.items|))
  {
    var numTris: real := (|faceArray.items| as real) / 3.0;
    var f: nat := 0;
    while (f as real) < numTris
      invariant f <= Triangles(|faceArray.items|)
      invariant lineArray.items == old(lineArray.items) + Lines(faceArray.items, f)
      decreases Triangles(|faceArray.items|) - f
    {
      TrianglesCount(|faceArray.items|, f);
      PushEdges(faceArray, lineArray, f);
      f := f + 1;
    }
    TrianglesCount(|faceArray.items|, f);
  }

  /** The body of the loop: the edges of triangle `f`. */
  method PushEdges(faceArray: Buffer<nat>, lineArray: Buffer<Option<nat>>, f: nat)
    modifies lineArray
    ensures lineArray.items == old(lineArray.items) + Edges(faceArray.items, f)
  {
    var fid := f * 3;
    lineArray.Push(At(faceArray.items, fid));
    lineArray.Push(At(faceArray.items, fid + 1));
    lineArray.Push(At(faceArray.items, fid + 1));
    lineArray.Push(At(faceArray.items, fid + 2));
    lineArray.Push(At(faceArray.items, fid + 2));
    lineArray.Push(At(faceArray.items, fid));
    Pushed6(old(lineArray.items), At(faceArray.items, fid), At(faceArray.items, fid + 1), At(faceArray.items, fid + 1),
            At(faceArray.items, fid + 2), At(faceArray.items, fid + 2), At(faceArray.items, fid));
  }

  lemma {:induction false} LinesLength(faces: seq<nat>, f: nat)
    ensures |Lines(faces, f)| == 6 * f
  {
    if f > 0 {
      LinesLength(faces, f - 1);
    }
  }

  /** Entry `k` of the edges of triangle `t` sits at `6t + k`. */
  lemma {:induction false} LinesAt(faces: seq<nat>, f: nat, t: nat, k: nat)
    requires t < f && k < 6
    ensures 6 * t + k < |Lines(faces, f)|
    ensures Lines(faces, f)[6 * t + k] == Edges(faces, t)[k]
  {
    LinesLength(faces, f - 1);
    if t < f - 1 {
      LinesAt(faces, f - 1, t, k);
    }
  }

  /** The edges of triangle `t` sit at `6t .. 6t+6`. */
  lemma LinesSlice(faces: seq<nat>, f: nat, t: nat)
    requires t < f
    ensures 6 * t + 6 <= |Lines(faces, f)|
    ensures Lines(faces, f)[6 * t..6 * t + 6] == Edges(faces, t)
  {
    LinesAt(faces, f, t, 0);
    LinesAt(faces, f, t, 1);
    LinesAt(faces, f, t, 2);
    LinesAt(faces, f, t, 3);
    LinesAt(faces, f, t, 4);
    LinesAt(faces, f, t, 5);
    var slice := Lines(faces, f)[6 * t..6 * t + 6];
    assert slice[0] == Edges(faces, t)[0] && slice[1] == Edges(faces, t)[1] && slice[2] == Edges(faces, t)[2];
    assert slice[3] == Edges(faces, t)[3] && slice[4] == Edges(faces, t)[4] && slice[5] == Edges(faces, t)[5];
  }

  /**
   * For a face array of whole triangles, twice as many entries as faces, and
   * triangle `(a, b, c)` gives `a, b, b, c, c, a`.
   */
  lemma LinesOfTriangles(faces: seq<nat>, t: nat)
    requires |faces| % 3 == 0 && 3 * t < |faces|
    ensures |Lines(faces, Triangles(|faces|))| == 2 * |faces|
    ensures Lines(faces, Triangles(|faces|))[6 * t..6 * t + 6] ==
      [Some(faces[3 * t]), Some(faces[3 * t + 1]), Some(faces[3 * t + 1]),
       Some(faces[3 * t + 2]), Some(faces[3 * t + 2]), Some(faces[3 * t])]
  {
    LinesLength(faces, Triangles(|faces|));
    LinesSlice(faces, Triangles(|faces|), t);
  }

  /** A face array with a partial last triangle makes the loop read past its end. */
  lemma LinesPastEnd(faces: seq<nat>)
    requires |faces| % 3 != 0
    ensures Triangles(|faces|) >= 1 && |Lines(faces, Triangles(|faces|))| == 6 * Triangles(|faces|)
    ensures Lines(faces, Triangles(|faces|))[6 * Triangles(|faces|) - 3] == None
  {
    var f := Triangles(|faces|);
    LinesLength(faces, f);
    LinesAt(faces, f, f - 1, 3);
  }

  /** Over whole triangles every entry is defined and is one of the face indices. */
  lemma {:induction false} LinesFromFaces(faces: seq<nat>, f: nat)
    requires 3 * f <= |faces|
    ensures forall m :: 0 <= m < |Lines(faces, f)| ==> Lines(faces, f)[m].Some? && Lines(faces, f)[m].value in faces
  {
    if f > 0 {
      LinesFromFaces(faces, f - 1);
      var s: seq<Option<nat>>, e: seq<Option<nat>> := Lines(faces, f - 1), Edges(faces, f - 1);
      forall m | 0 <= m < |s + e|
        ensures (s + e)[m].Some? && (s + e)[m].value in faces
      {
        if m >= |s| {
          assert (s + e)[m] == e[m - |s|];
        }
      }
    }
  }

  /**
   * The wireframe of the terrain mesh has six entries per triangle that
   * terrainFromIteration counts, and joins only vertices of the grid.
   */
  lemma TerrainLines(n: nat)
    ensures |Lines(Faces(n), Triangles(|Faces(n)|))| == 6 * (2 * (Edge(n) * Edge(n)))
    ensures forall m :: 0 <= m < |Lines(Faces(n), Triangles(|Faces(n)|))| ==>
      Lines(Faces(n), Triangles(|Faces(n)|))[m].Some? &&
      Lines(Faces(n), Triangles(|Faces(n)|))[m].value < (Edge(n) + 1) * (Edge(n) + 1)
  {
    var e := Edge(n);
    FacesUniform(e);
    GridLength(e, FaceCells(e), 6, e, 0);
    var faces := Faces(n);
    assert |faces| % 3 == 0;
    LinesLength(faces, Triangles(|faces|));
    LinesFromFaces(faces, Triangles(|faces|));
    FacesBelow(n);
  }
}
