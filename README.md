# Diamond-square terrain: a Dafny model

This project models `terrainModeling.js`, a small WebGL helper that

- builds a square height map of side `2^n + 1` with the diamond-square
  algorithm: seed the four corners, then repeatedly set square centres and
  diamond centres to the average of their neighbours plus a random offset;
- turns a height map into a mesh: a grid of vertex positions, a colour and a
  normal per vertex, two triangles per grid cell;
- derives the wireframe line list from the triangle list.

Modules:

- `Wrappers`: `Option`, which stands for JavaScript's `undefined` read past
  the end of an array.
- `Arith`: `Pow2` (`Math.pow(2, n)`), `IsPow2`, and the facts about
  row-major indexing `y * size + x`.
- `HeightMap`: the height map as a value (`seq<real>`). It holds the
  bounds-checked `Get`/`Set` with the sentinel -1 and the averaging rule
  `Mean`. It also holds one square or diamond sweep as the functions
  `Row`/`Rows`, which walk the cells in the source's loop order, and the
  whole of `render` as `Generate`. The properties of render and division are
  proved here.
- `DiamondSquare`: the terrain object as a class `Terrain` whose `heightMap` is an
  `array<real>` updated in place. It holds `getHeight`, `setHeight`,
  `render`, `division` (its two loop nests are the methods `SquarePass` and
  `DiamondPass`), `average`, `InSquare` and `InDiamond`. Each method is
  proved to compute the matching `HeightMap` function of the array's
  contents.
- `Mesh`: a JavaScript array the functions push onto is a `Buffer`, a class
  with a `seq` field. `terrainFromIteration` and
  `generateLinesFromIndexedTriangles` are methods proved to append exactly
  `Vertices`, `Colours`, `Normals`, `Faces` and `Lines`. These are
  functions built on a generic row-major double loop, `Grid`, and the
  lemmas state their sizes and contents.

Behaviour kept exactly as the code has it:

- The diamond sweep steps `x` by the half-step `mid`, so it revisits the
  square centres of the same level.
- Both sweeps stop at `max` (strict `<`), so the last row and the last
  column are never written after the corners are seeded.
- `FlatThreeByThree` works out the outcome for `n = 1` with factor 0. The
  centre is first the corner average 2.75. It then becomes 1.375, because
  two of the diamond's neighbours are never-written cells that still hold 0.
- The mesh reads heights with row stride `edge` while it lays out
  `edge + 1` vertices per row. With a map of side `edge` the last row of
  vertices therefore reads `undefined` and is coloured as water.

The mesh colours and normals:

- The code has three colour bands: white above 1.5, dark red in `(0, 1.5]`,
  and blue for every other height.
- Every normal is the constant `(0, 0, 1)`.

## Model

| member | source | states |
|---|---|---|
| Arith.Pow2IsPow2 | terrainModeling.js:9-10 | `2^n` is a power of two, and for `n > 0` it is even and its half is `2^(n-1)` |
| Arith.Pow2 | terrainModeling.js:9 | defines `Math.pow(2, n)` for a natural `n`, which is at least 1 |
| Arith.CellIndex | terrainModeling.js:23 | the row-major index `y * size + x` of an in-range cell lies inside the `size * size` buffer |
| Arith.CellInjective | terrainModeling.js:35 | distinct in-range cells have distinct row-major indices |
| DiamondSquare.Terrain.constructor | terrainModeling.js:8-12 | a fresh terrain is `Valid()` (so `max` is a power of two), has `size = 2^n + 1` and `max = size - 1`, and all `size * size` cells are zero |
| DiamondSquare.Terrain.GetHeight | terrainModeling.js:20-24 | out of `[0, max]` in either coordinate the result is -1; otherwise it is `Get` of the contents, the cell at `y * size + x` |
| DiamondSquare.Terrain.SetHeight | terrainModeling.js:32-36 | rejects exactly the out-of-range coordinates, and then changes nothing; otherwise writes `val` at `(x, y)` only |
| HeightMap.GetSetSame | terrainModeling.js:20-36 | an in-range write followed by a read of the same cell returns the written value |
| HeightMap.GetSetOther | terrainModeling.js:20-36 | a write leaves every other cell as it was, and an out-of-range write leaves every cell as it was |
| HeightMap.Get | terrainModeling.js:20-24 | defines the bounds-checked read on the contents: the sentinel -1 outside `[0, max]`, else the cell at `y * size + x` |
| HeightMap.Set | terrainModeling.js:32-36 | defines the bounds-checked write on the contents: outside `[0, max]` nothing changes, else the cell at `y * size + x` becomes `val` |
| DiamondSquare.Terrain.Render | terrainModeling.js:38-47 | the map becomes `Generate` of its old contents for the given factor and random source, and the corners `(0,0)`, `(0,max)`, `(max,0)`, `(max,max)` then hold 2, 4, 3, 2 |
| HeightMap.Sum | terrainModeling.js:76-80 | defines the left-to-right sum of the accumulating loop |
| HeightMap.Mean | terrainModeling.js:73-82 | defines what `average` returns: -1 unless there are three or four values, otherwise their sum divided by their count |
| DiamondSquare.Average | terrainModeling.js:73-82 | the summing loop computes `Mean` of the values |
| HeightMap.SumBounds | terrainModeling.js:76-80 | a sum of values within `[lo, hi]` lies within `[len * lo, len * hi]` |
| HeightMap.MeanWithin | terrainModeling.js:73-82 | the average of three or four values within `[lo, hi]` lies within `[lo, hi]` |
| HeightMap.Read | terrainModeling.js:91-126 | defines the `i`-th of the four reads: for InSquare `(x-d,y-d)`, `(x+d,y+d)`, `(x+d,y-d)`, `(x-d,y+d)`; for InDiamond `(x,y-d)`, `(x+d,y)`, `(x,y+d)`, `(x-d,y)` |
| HeightMap.Keep | terrainModeling.js:92-126 | defines the guarded push: a read equal to -1 adds nothing, any other read adds itself |
| HeightMap.Pushed | terrainModeling.js:89-102 | the local array holds at most as many values as reads were made, and never the sentinel -1 |
| HeightMap.TallyOfPushed | terrainModeling.js:89-104 | the count and total of the kept reads are the length and the sum of the local array |
| HeightMap.BlendIsMean | terrainModeling.js:104 | the new height before the offset is `average` of the local array |
| HeightMap.Step | terrainModeling.js:88-130 | defines one call of InSquare or InDiamond on the contents: `(x, y)` is written with the average of the kept reads plus `random_val`; the map keeps its length |
| HeightMap.StepWrites | terrainModeling.js:88-130 | a square or diamond step changes no cell but `(x, y)`; an in-range `(x, y)` receives the average of the kept reads plus the offset |
| DiamondSquare.InSquare | terrainModeling.js:88-107 | the map becomes `Step` for the four diagonal reads in source order, so only `(x, y)` changes |
| DiamondSquare.SquareReads | terrainModeling.js:89-102 | the local array after the four diagonal reads is `Pushed` of the map: every read that is not -1, in source order |
| DiamondSquare.DiamondReads | terrainModeling.js:113-126 | the local array after the four axis reads is `Pushed` of the map: every read that is not -1, in source order |
| DiamondSquare.InDiamond | terrainModeling.js:112-130 | the map becomes `Step` for the four axis reads in source order, so only `(x, y)` changes |
| HeightMap.Offset | terrainModeling.js:51-62 | the offset `random * 2 * scale - scale` is 0 for factor 0, and lies within `[-scale, scale]` for a factor of at least 0 and a random value in `[0, 1)` |
| HeightMap.Schedule | terrainModeling.js:50-65 | every level that does work has a step of at least 2 |
| HeightMap.ScheduleOfPow2 | terrainModeling.js:46-65 | from `2^n`, division works through exactly `n` levels with steps `2^n, ..., 2`, and every half-step `mid` is a whole number |
| DiamondSquare.Division | terrainModeling.js:50-66 | the map becomes `Divide` of its old contents: the levels of `Schedule(size)` in order, square sweep then diamond sweep |
| DiamondSquare.SquarePass | terrainModeling.js:55-59 | the square loop nest computes `SweepAll` for the square sweep: rows and columns from `mid` by `size`, while `< max` |
| DiamondSquare.DiamondPass | terrainModeling.js:60-64 | the diamond loop nest computes `SweepAll` for the diamond sweep: rows from 0 by `mid`, columns from `(y + mid) % size` by `mid`, while `< max` |
| HeightMap.Row | terrainModeling.js:56-58 | defines the rest of one row of a sweep from column `x`: a step at `(x, y)`, then the next column one stride on, while `x < max` |
| HeightMap.Rows | terrainModeling.js:55-64 | defines the rest of a sweep from row `y`: the row from its first column, then the next row one stride on, while `y < max` |
| HeightMap.SweepAll | terrainModeling.js:55-64 | defines a whole sweep: square rows from `mid`, diamond rows from 0 |
| HeightMap.Level | terrainModeling.js:55-64 | defines one level of division: the square sweep, then the diamond sweep on its result |
| HeightMap.RunLevels | terrainModeling.js:50-66 | defines the levels of a schedule applied in order |
| HeightMap.Divide | terrainModeling.js:50-66 | defines `division(factor, step, max, obj)`: the levels of `Schedule(step)` in order |
| HeightMap.Seeded | terrainModeling.js:41-44 | defines the four corner writes of render: `(0,0)` = 2, `(0,max)` = 4, `(max,0)` = 3, `(max,max)` = 2, in that order |
| HeightMap.Generate | terrainModeling.js:38-47 | defines render: the seeded map, then division from step `max` |
| HeightMap.RowReachesRow | terrainModeling.js:56-58 | the inner loop's invariant: what is left of the row reaches the row's final map |
| HeightMap.RowsReachRows | terrainModeling.js:55-59 | the outer loop's invariant: what is left of the sweep reaches the sweep's final map |
| HeightMap.RowKeeps | terrainModeling.js:56-58 | one row of a sweep never writes a cell of the last column or the last row, nor `(0, 0)` |
| HeightMap.RowsKeep | terrainModeling.js:55-64 | neither does any later part of a sweep |
| HeightMap.SweepKeeps | terrainModeling.js:55-64 | neither does a whole square or diamond sweep |
| HeightMap.RunLevelsKeeps | terrainModeling.js:50-66 | neither does any run of levels |
| HeightMap.DivideKeeps | terrainModeling.js:50-66 | division leaves the last row, the last column and `(0, 0)` as they were |
| HeightMap.CornersAfterGenerate | terrainModeling.js:38-47 | after render the four corners hold exactly the seeded heights 2, 4, 3, 2 |
| HeightMap.RowNoiseFree | terrainModeling.js:52-58 | with factor 0 a row does not depend on the random source |
| HeightMap.RowsNoiseFree | terrainModeling.js:52-64 | nor does a sweep |
| HeightMap.RunLevelsNoiseFree | terrainModeling.js:50-66 | nor does a run of levels |
| HeightMap.GenerateNoiseFree | terrainModeling.js:38-66 | with factor 0 render gives the same terrain whatever the random source returns |
| HeightMap.TallyOfFour | terrainModeling.js:89-102 | the tally of the four reads is the count and the sum of the reads that are not -1 |
| HeightMap.FlatThreeByThree | terrainModeling.js:38-66 | for `n = 1` and factor 0: after the square sweep the centre is the corner average 2.75, and the final map is `[2, 31/12, 3; 35/12, 11/8, 0; 4, 0, 2]` |
| Mesh.Buffer.Push | terrainModeling.js:143 | a push appends one value and keeps the earlier contents |
| Mesh.At | terrainModeling.js:145 | defines a JavaScript array read: the element at an index inside the array, `undefined` (`None`) anywhere else |
| Mesh.Edge | terrainModeling.js:137 | `edge = 2^n + 1` is at least 2 |
| Mesh.HeightAt | terrainModeling.js:145 | defines the height read of vertex `(i, j)`: the map entry at `j + i * edge`, `undefined` past the end |
| Mesh.VertexCell | terrainModeling.js:143-145 | defines the three numbers of vertex `(i, j)`: `minX + deltaX * j`, `minY + deltaY * i` and its height |
| Mesh.FaceCell | terrainModeling.js:175-182 | defines the six indices of grid cell `(i, j)` with `vid = i * (edge + 1) + j` |
| Mesh.Band | terrainModeling.js:147-164 | every colour has four components |
| Mesh.BandCases | terrainModeling.js:147-164 | white exactly for heights above 1.5, dark red exactly for heights in `(0, 1.5]`, blue exactly for the rest and for an undefined height |
| Mesh.Vertices | terrainModeling.js:140-145 | defines what the first loop nest pushes onto the vertex array: the vertex cells of `(edge + 1)^2` vertices in row-major order |
| Mesh.Colours | terrainModeling.js:140-164 | defines what it pushes onto the colour array: the band of each vertex's height, in the same order |
| Mesh.Normals | terrainModeling.js:140-168 | defines what it pushes onto the normal array: `(0, 0, 1)` for each vertex |
| Mesh.Faces | terrainModeling.js:171-184 | defines what the second loop nest pushes onto the face array: the face cells of `edge^2` grid cells in row-major order |
| Mesh.TerrainFromIteration | terrainModeling.js:135-188 | each array keeps its old contents followed by exactly the vertices, colours, normals and faces of the grid; the result is `2 * edge^2` |
| Mesh.VertexLoops | terrainModeling.js:140-169 | the first loop nest appends, for the `(edge + 1)^2` vertices in row-major order, position and height, colour, and normal |
| Mesh.PushVertex | terrainModeling.js:143-168 | one vertex appends `(minX + deltaX * j, minY + deltaY * i, heightMap[j + i * edge])`, its band colour, and `(0, 0, 1)` |
| Mesh.FaceLoops | terrainModeling.js:171-184 | the second loop nest appends the two triangles of each of the `edge^2` cells in row-major order and counts `2 * edge^2` triangles |
| Mesh.PushTriangles | terrainModeling.js:175-183 | one cell appends `vid, vid+1, vid+edge+1, vid+1, vid+edge+2, vid+edge+1` with `vid = i * (edge + 1) + j` |
| Mesh.VerticesUniform | terrainModeling.js:143-145 | every vertex contributes three numbers |
| Mesh.ColoursUniform | terrainModeling.js:147-164 | every vertex contributes four colour components |
| Mesh.NormalsUniform | terrainModeling.js:166-168 | every vertex contributes three normal components |
| Mesh.FacesUniform | terrainModeling.js:176-182 | every grid cell contributes six face indices |
| Mesh.MeshSizes | terrainModeling.js:135-188 | `3 (edge+1)^2` vertex numbers, `4 (edge+1)^2` colour components, `3 (edge+1)^2` normal components, and `6 edge^2 = 3 * numT` face indices |
| Mesh.VerticesSize | terrainModeling.js:140-145 | the vertex array grows by `3 (edge+1)^2` |
| Mesh.ColoursSize | terrainModeling.js:140-164 | the colour array grows by `4 (edge+1)^2` |
| Mesh.NormalsSize | terrainModeling.js:140-168 | the normal array grows by `3 (edge+1)^2` |
| Mesh.FacesSize | terrainModeling.js:172-182 | the face array grows by `6 edge^2` |
| Mesh.VertexAt | terrainModeling.js:143-145 | the height of vertex `v` is the map entry at `v % (edge+1) + (v / (edge+1)) * edge`, or undefined past the map's end |
| Mesh.ColourAt | terrainModeling.js:147-164 | the four colour components of vertex `v` are the band of that same height |
| Mesh.NormalAt | terrainModeling.js:166-168 | the normal of every vertex is `(0, 0, 1)` |
| Mesh.FaceCellBelow | terrainModeling.js:175-182 | the six indices of one grid cell are vertices of the grid |
| Mesh.FacesBelow | terrainModeling.js:171-184 | every face index is below `(edge + 1)^2` |
| Mesh.LastRowUndefined | terrainModeling.js:140-164 | with a map of side `edge`, every vertex of the last row has an undefined height and the water colour |
| Mesh.Edges | terrainModeling.js:195-203 | defines the six entries of triangle `f`: face entries `3f, 3f+1, 3f+1, 3f+2, 3f+2, 3f`, each `undefined` past the end |
| Mesh.Lines | terrainModeling.js:193-204 | defines the entries pushed for triangles `0 .. f-1`, in triangle order |
| Mesh.Triangles | terrainModeling.js:192-193 | defines how many triangles the loop visits: `ceil(length / 3)` |
| Mesh.TrianglesCount | terrainModeling.js:192-193 | the loop condition `f < length / 3` holds exactly for `f < ceil(length / 3)` |
| Mesh.GenerateLinesFromIndexedTriangles | terrainModeling.js:190-205 | the line array keeps its old contents followed by `a, b, b, c, c, a` for every triangle the loop visits |
| Mesh.PushEdges | terrainModeling.js:195-203 | one triangle appends entries `3f, 3f+1, 3f+1, 3f+2, 3f+2, 3f` of the face array |
| Mesh.LinesLength | terrainModeling.js:193-204 | `f` triangles give `6 f` line entries |
| Mesh.LinesAt | terrainModeling.js:195-203 | entry `k` of triangle `t`'s edges sits at `6 t + k` |
| Mesh.LinesSlice | terrainModeling.js:195-203 | triangle `t`'s edges fill entries `6 t` to `6 t + 5` |
| Mesh.LinesOfTriangles | terrainModeling.js:190-205 | for whole triangles there are `2 * length` entries, and triangle `(a, b, c)` gives `a, b, b, c, c, a` |
| Mesh.LinesPastEnd | terrainModeling.js:192-203 | when the length is not a multiple of 3 the last triangle reads past the end, so an entry is undefined |
| Mesh.LinesFromFaces | terrainModeling.js:193-204 | for whole triangles every entry is defined and is one of the face indices |
| Mesh.TerrainLines | terrainModeling.js:171-205 | the wireframe of the terrain mesh has `6 * numT` entries, each a vertex of the grid |

## Left out

- `Math.random` is not modelled. It is a parameter `random: Draw -> real`, a function of which draw is meant (the sweep, the level's step and the cell). No two draws in one render share a key, so the function can stand for any sequence of outcomes.
- The `Float32Array` of the height map, and JavaScript's double arithmetic, are modelled with exact `real` arithmetic. Rounding to 32 or 64 bits is not modelled.
- Vertex world coordinates are computed in exact `real` arithmetic, and nothing is claimed about them beyond their formula.
- The `console.log` calls in `terrainFromIteration` are left out: they are output only.
- Drawing with WebGL is not part of this model.
- `numTris` is a global variable in the source. The model keeps it as a local of `GenerateLinesFromIndexedTriangles`, so the value it leaves behind in the global is not modelled.
- Mesh.TerrainFromIteration: requires `n >= 1`, because with `n = 0` the source divides by zero for the world coordinates and the positions become NaN or infinite.
- DiamondSquare.Division: requires its step to be a power of two, which is what render passes (`max = 2^n`). Other steps would make `mid` fractional, and then the JavaScript cell indices are fractional.
- DiamondSquare.Terrain.Render: requires `Valid()`, which includes `max` being a power of two; the constructor guarantees it.
- Mesh.TerrainFromIteration: requires the colour and normal arrays to be distinct objects. In JavaScript one array could be passed for both, and then their pushes would interleave. The other arrays differ in element type here, so they cannot alias.
- Faces are `nat` and vertex entries are `Option<real>`. JavaScript arrays are untyped, and a height read past the end of the map is pushed as `undefined`, which the model keeps as `None`.
- The loop nests and loop bodies of `division`, the reads of `InSquare` and `InDiamond`, and those of `terrainFromIteration` and `generateLinesFromIndexedTriangles` are separate methods: `SquarePass`, `DiamondPass`, `SquareReads`, `DiamondReads`, `VertexLoops`, `PushVertex`, `FaceLoops`, `PushTriangles` and `PushEdges`. Their bounds, increments and order of pushes are the source's.
