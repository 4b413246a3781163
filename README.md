# Trismegistus: the memoised Sierpinski-tetrahedron builder

This project models the logic of `app/js/app.js`, a page that shows a Sierpinski tetrahedron
and lets the user change its recursion level. Four parts are modelled:

- **`half`**, the midpoint of two points.
- **`build(level, side, v0, geometry)`**, the recursive mesh builder, with its memo table
  `geometryCache`. At level 1 it appends four corners and four faces to an accumulator
  geometry. At higher levels it runs four half-size builds from `v0` and from the midpoints
  towards the other three corners. Every finished call is memoised under
  `(level, side, v0.x, v0.y, v0.z)`:
  - on a memo hit it returns the stored geometry and appends nothing;
  - on a miss it stores the shared accumulator itself under the key.
- **`sierpinski`'s call into `build`** from the canonical first corner, and **`memoized`**,
  which keeps one mesh per `(level, side)`.
- **The page state** `level`, `side`, `stop` and the mesh on show (`trismegistus`), changed by
  the three buttons `incLev`, `decLev` and `toggleRot`.

## Layout

- `shapes.dfy` (module `Shapes`) holds the basic shapes:
  - points and faces;
  - `half`, the corner computation and the child origins;
  - the four faces of one tetrahedron;
  - the mutable `Geometry` (vertex and face lists that grow by `push`) and `Mesh`.
- `tetra.dfy` (module `Tetra`) holds the specification of `build`:
  - `Grow`/`GrowEach` give the effect of one call on the state (the accumulator's two lists
    and the memo table), as a function of the state before the call;
  - reference definitions of the whole figure: `FractalVertices`, `MeshFaces` and `TreeKeys`;
  - the lemmas about them.
- `builder.dfy` (module `MeshBuilder`) holds the code itself:
  - `Builder` owns `geometryCache`;
  - `Build` is the recursive method and is proved against `Grow`;
  - `Sierpinski` builds from the canonical origin.
- `app.dfy` (module `Interaction`) holds `App`: the page's globals, `memoized` and the three
  button handlers. Its invariant `Valid` connects the two memo tables.

### How the closed form is reached

`Build` is specified by `Grow` whether or not the memo table is hit. When no call of a build
meets a memo entry, `GrowFreshVertices` and `GrowFreshFaces` show the build appends exactly:

- the reference vertices;
- the faces of 4^(level-1) tetrahedra.

That no call meets an entry is itself proved, in two parts:

- **Within one build** (`ChildrenDisjoint`), the four half-size subtrees start in disjoint
  boxes, so they never share a key. This holds over the reals, with sin(pi/3) as the decimal
  constant the page computes.
- **Across builds** (`LevelsDisjoint`), two builds of different top levels with the same side
  give each call a different side at each level, so they never share a key.

Because of this, the page's invariant (`App.CacheValid`) keeps every level not yet shown free of
memo entries. Every miss of `memoized` therefore yields the whole figure.

The code counts 4^(level-1) smallest tetrahedra, so 4^level vertices and 4^level faces: a
level-1 build gives 4 vertices and 4 faces.

## Model

| member | source | states |
|---|---|---|
| Shapes.Half | app/js/app.js:12-16 | the result is the midpoint: on each axis it is as far from p as q is from it |
| Shapes.Corners | app/js/app.js:29-37 | v1 = v0 + (side,0,0); v2.x = v3.x = v0.x + side/2; v2.y = v0.y + side·S; v2.z = v0.z + side/(4S); v3.y = v0.y; v3.z = v0.z + side·S, where S = sin(pi/3) |
| Shapes.SubOriginsAreMidpoints | app/js/app.js:50-58 | the four recursive calls start at v0, half(v0,v1), half(v0,v2) and half(v0,v3) |
| Shapes.Origin | app/js/app.js:75 | sierpinski's first corner (-side/2, 0, -side/(4S)): its y is 0, the first edge v0–v1 is centred on x = 0, and the apex v2 of the corner computation is (0, side·S, 0), on the y axis |
| Shapes.TetraFaces | app/js/app.js:46-49 | four faces; face k uses exactly the three corner indices other than the one it leaves out, so together they cover the tetrahedron |
| Shapes.TetraFacesPointOutward | app/js/app.js:46-49 | for side > 0 and every face k of TetraFaces(0) over the corners [v0, v1, v2, v3], the winding gives a normal pointing away from the corner the face leaves out, i.e. outward |
| Shapes.Geometry.constructor | app/js/app.js:20 | a new geometry has no vertices and no faces |
| Shapes.Geometry.PushVertex | app/js/app.js:41-44 | appends one vertex and leaves the faces unchanged |
| Shapes.Geometry.PushFace | app/js/app.js:46-49 | appends one face and leaves the vertices unchanged |
| Shapes.Mesh.constructor | app/js/app.js:78 | the mesh wraps the given geometry object |
| Tetra.KeyOf | app/js/app.js:22 | the memo key records the level, the side and the three coordinates of the first corner |
| Tetra.AddTetra | app/js/app.js:39-49 | the level-1 step appends exactly 4 vertices and keeps the old ones as a prefix; it appends the faces (i,i+2,i+1), (i+1,i+2,i+3), (i+3,i+2,i), (i,i+1,i+3), with i the old vertex count; the memo table is unchanged |
| Tetra.Grow | app/js/app.js:19-64 | no contract of its own: it defines the effect of one build call on the accumulator's lists and the memo table. A hit leaves the state as it is; a miss appends one tetrahedron at level 1, or folds the four half-size builds above it, then maps the call's key to the accumulator. Build is proved equal to it, and the Grow* lemmas state its properties |
| Tetra.GrowEach | app/js/app.js:50-59 | no contract of its own: it defines the four child builds as a fold, run in turn from each origin into the same accumulator |
| Tetra.GrowEachFour | app/js/app.js:52-58 | four builds in turn are the fold over their four origins |
| Tetra.GrowExtends | app/js/app.js:19-64 | a build call only appends to both lists and keeps every memo entry; new entries map to the accumulator; its own key is in the memo table afterwards |
| Tetra.GrowEachExtends | app/js/app.js:50-59 | the same for the four child builds together |
| Tetra.GrowIndexed | app/js/app.js:40-58 | if every face index was below the vertex count before a call, the same holds after it |
| Tetra.GrowEachIndexed | app/js/app.js:50-59 | the same for the four child builds together |
| Tetra.FractalVerticesLength | app/js/app.js:39-58 | the reference vertex list of a build has 4^level entries |
| Tetra.EachVerticesLength | app/js/app.js:50-58 | the children of n trees of a level contribute n·4^level vertices |
| Tetra.MeshFacesShape | app/js/app.js:46-49 | the faces of n tetrahedra numbered from base are 4n faces, all with indices below base + 4n |
| Tetra.MeshFacesSplit | app/js/app.js:46-49 | the faces of n + m tetrahedra are those of the first n followed by those of the next m |
| Tetra.FractalSize | app/js/app.js:39-58 | a fresh build of level L has 4^L vertices and 4^L faces, every face index below 4^L |
| Tetra.LeafCountFour | app/js/app.js:50-58 | four trees of one level hold as many smallest tetrahedra as one tree one level up |
| Tetra.HalvedPositive | app/js/app.js:51 | halving a positive side any number of times stays positive |
| Tetra.HalvedDecreases | app/js/app.js:51 | halving more often gives a strictly smaller side |
| Tetra.TreeKeysScaled | app/js/app.js:50-58 | every call of a build of level L has a level between 1 and L and the top side halved once per level below L |
| Tetra.EachKeysScaled | app/js/app.js:51-58 | the same for the children's calls |
| Tetra.TreeKeysInBox | app/js/app.js:29-37 | every call of a build starts inside the top call's box (edge side along x, side·S along y and z) |
| Tetra.EachKeysInBox | app/js/app.js:51-58 | the children's calls start inside any box that holds each child's box |
| Tetra.ChildrenDisjoint | app/js/app.js:22-27 | the four half-size subtrees of a call share no memo key, and none of them has the call's own key |
| Tetra.LevelsDisjoint | app/js/app.js:22 | builds of different top levels from the same side share no memo key |
| Tetra.GrowFreshKeys | app/js/app.js:61-63 | when no key of the tree is in the memo table, a build adds exactly the tree's keys |
| Tetra.GrowEachFreshKeys | app/js/app.js:61-63 | the same for the four child builds together |
| Tetra.GrowFreshVertices | app/js/app.js:39-58 | when no key of the tree is in the memo table, a build appends exactly the reference vertices |
| Tetra.GrowEachFreshVertices | app/js/app.js:50-58 | the same for the four child builds together |
| Tetra.GrowFreshFaces | app/js/app.js:39-58 | when no key of the tree is in the memo table, a build appends the faces of 4^(level-1) tetrahedra, numbered from the old vertex count |
| Tetra.GrowEachFreshFaces | app/js/app.js:50-58 | the same for the four child builds together |
| MeshBuilder.Builder.constructor | app/js/app.js:8 | the memo table starts empty |
| MeshBuilder.Builder.Build | app/js/app.js:19-64 | the accumulator and memo table end as Grow of their old values. The contract also states: append-only growth; indices stay in range; memo entries are kept. On a hit it returns the stored geometry and changes nothing. On a miss it returns the passed accumulator, or a new one when none is passed, and maps the key to it |
| MeshBuilder.Builder.BuildChildren | app/js/app.js:50-59 | the four half-size builds from v0, half(v0,v1), half(v0,v2) and half(v0,v3) fold the state as GrowEach does |
| MeshBuilder.Builder.Sierpinski | app/js/app.js:74-80 | on a hit of the top key, the mesh wraps the stored geometry and the memo table is unchanged. On a miss it wraps a new geometry, and the geometry and memo table are Grow of an empty accumulator and the old table. When no key of the tree is stored, it wraps a new geometry holding exactly the reference vertices and faces (4^level of each, indices in range), and the memo table gains exactly the tree's keys |
| Interaction.App.constructor | app/js/app.js:103-105 | the globals start at level 2 with rotation stopped and both tables empty (lines 8-9); after initialize's one memoized call (line 134) the page cache holds only the level-2 mesh, which is the mesh on show, the builder is new and its memo table holds exactly the keys of that level-2 build, each mapped to the geometry on show; the invariant holds |
| Interaction.App.Memoized | app/js/app.js:82-90 | a stored mesh is returned as the identical object and build's memo table is unchanged, so nothing is rebuilt; otherwise one new mesh is built and stored, and build's memo table keeps every old entry and gains exactly the keys of that build, each mapped to the new mesh's geometry (line 62). Either way the entry for the level is the returned mesh (so a second call returns the same object), and it holds the whole figure. The cache invariant is kept |
| Interaction.App.IncLev | app/js/app.js:172-178 | level goes up by one, and the mesh on show is the memoized mesh of the new level (a hit when cached, with build's memo table unchanged; otherwise exactly one new entry, and build's memo table keeps every old entry and gains exactly that build's keys, each mapped to the shown geometry); the invariant, including level ≥ 1, is kept |
| Interaction.App.DecLev | app/js/app.js:180-191 | the alert is raised exactly when level ≤ 1, and then nothing changes; otherwise level goes down by one and the memoized mesh of the new level is shown, with build's memo table unchanged on a hit and on a miss keeping every old entry and gaining exactly that build's keys, each mapped to the shown geometry; level ≥ 1 is kept, so the displayed counter level - 1 is never negative |
| Interaction.App.ToggleRot | app/js/app.js:164-171 | stop becomes its negation (so two toggles restore it); nothing else changes |

## Left out

- The three.js scene, camera, lights, renderer, orbit controls and `setTrismegistus`'s
  rotation (app/js/app.js:111-141) are foreign library calls. Removing and adding the mesh in
  the scene is modelled only as the change of the mesh on show.
- `computeFaceNormals`, the material and `tMaterial` (app/js/app.js:66-80) are library code.
  What the model keeps is that the face winding gives outward normals
  (`TetraFacesPointOutward`).
- The frame loop `animate`/`render`/`resizeCanvasToDisplaySize` (app/js/app.js:92-101,
  app/js/app.js:143-158) is driven by the display and the clock. Only the flag `stop` it reads
  is modelled.
- The button wiring, `levelCounter.innerHTML` and the text of `alert` (app/js/app.js:5,
  app/js/app.js:160-162) are user-interface output. `DecLev` returns whether it alerted.
- IEEE double rounding is not modelled. Coordinates and sides are reals, and sin(pi/3) is the
  shortest decimal that prints the double, 0.8660254037844386, read as a real. The proofs that
  calls never share a memo key hold over the reals. With doubles, and with keys formed by printing numbers into a string, two different
  calls could in principle print the same key; this is not modelled.
- The string memo keys of both tables are modelled as structured keys (`Tetra.Key` and the
  pair `(level, side)`). Two keys are equal exactly when their fields are.
- Vertices are values. The source pushes the very `Vector3` objects it computed (the child
  build at `v0` pushes the parent's `v0` object). No vertex object is changed after it is
  pushed, so sharing them is not observable here.
- MeshBuilder.Builder.Build: requires level ≥ 1. With a level below 1 the source never reaches
  the level-1 case and recurses without end; the page only ever passes levels ≥ 1.
- MeshBuilder.Builder.Sierpinski: the closed form (reference vertices and faces) is stated
  only when no key of the tree is already stored. With partial hits the contract gives the
  result only as `Grow` of an empty accumulator, which omits the subtrees that hit.
- Interaction.App.Memoized: takes only the level. Every call site passes the global `side`,
  which is never reassigned, so the side is the constant 500.
