/** Points, faces and the mutable mesh containers the fractal builder fills. */
module Shapes {

  /** sin(pi/3): the shortest decimal that prints the double Math.sin(Math.PI / 3), read as a real. */
  const SinPi3: real := 0.8660254037844386

  /** A point in space (a THREE.Vector3 that is never mutated once it is pushed). */
  datatype Vertex = Vertex(x: real, y: real, z: real)

  /** A triangle given by three indices into a vertex list; the order is its winding. */
  datatype Face = Face(a: nat, b: nat, c: nat)

  /** The midpoint of p and q. */
  function Half(p: Vertex, q: Vertex): (h: Vertex)
    ensures h.x - p.x == q.x - h.x && h.y - p.y == q.y - h.y && h.z - p.z == q.z - h.z
  {
    Vertex((p.x + q.x) / 2.0, (p.y + q.y) / 2.0, (p.z + q.z) / 2.0)
  }

  /** The three other corners of the tetrahedron of edge `side` whose first corner is v0,
      computed as the builder does: copies of v0 whose coordinates are shifted one by one. */
  function Corners(side: real, v0: Vertex): (c: (Vertex, Vertex, Vertex))
    ensures c.0 == Vertex(v0.x + side, v0.y, v0.z)
    ensures c.1.x == c.2.x == v0.x + side / 2.0
    ensures c.1.y == v0.y + side * SinPi3 && c.1.z == v0.z + side / (4.0 * SinPi3)
    ensures c.2.y == v0.y && c.2.z == v0.z + side * SinPi3
  {
    var v1 := v0.(x := v0.x + side);
    var v2 := v0.(x := v0.x + (v1.x - v0.x) / 2.0);
    var v2 := v2.(y := v2.y + side * SinPi3);
    var v2 := v2.(z := v2.z + side / (SinPi3 * 4.0));
    var v3 := v0.(x := v2.x);
    var v3 := v3.(z := v3.z + side * SinPi3);
    (v1, v2, v3)
  }

  /** The first corners of the four half-size tetrahedra, in closed form
      (SubOriginsAreMidpoints shows they are v0 and its midpoints towards v1, v2 and v3). */
  function SubOrigins(side: real, v0: Vertex): seq<Vertex>
  {
    [ v0,
      Vertex(v0.x + side / 2.0, v0.y, v0.z),
      Vertex(v0.x + side / 4.0, v0.y + side * SinPi3 / 2.0, v0.z + side / (8.0 * SinPi3)),
      Vertex(v0.x + side / 4.0, v0.y, v0.z + side * SinPi3 / 2.0) ]
  }

  /** The recursive calls start at v0, half(v0, v1), half(v0, v2) and half(v0, v3). */
  lemma SubOriginsAreMidpoints(side: real, v0: Vertex)
    ensures var (v1, v2, v3) := Corners(side, v0);
      SubOrigins(side, v0) == [v0, Half(v0, v1), Half(v0, v2), Half(v0, v3)]
  {
  }

  /** The first corner of the whole figure, chosen so that the first edge is centred on x = 0
      and the apex v2 lies on the y axis. */
  function Origin(side: real): (o: Vertex)
    ensures var (v1, v2, v3) := Corners(side, o);
      && o.y == 0.0 && o.x + v1.x == 0.0
      && v2 == Vertex(0.0, side * SinPi3, 0.0)
  {
    Vertex(-side / 2.0, 0.0, -side / (SinPi3 * 4.0))
  }

  /** The four faces of the tetrahedron whose corners are stored at indices i .. i+3. */
  function TetraFaces(i: nat): (fs: seq<Face>)
    ensures |fs| == 4
    ensures forall k :: 0 <= k < 4 ==>
      {fs[k].a, fs[k].b, fs[k].c} == {i, i + 1, i + 2, i + 3} - {i + (k + 3) % 4}
  {
    [Face(i, i + 2, i + 1), Face(i + 1, i + 2, i + 3), Face(i + 3, i + 2, i), Face(i, i + 1, i + 3)]
  }

  function Sub(p: Vertex, q: Vertex): Vertex
  {
    Vertex(p.x - q.x, p.y - q.y, p.z - q.z)
  }

  function Cross(p: Vertex, q: Vertex): Vertex
  {
    Vertex(p.y * q.z - p.z * q.y, p.z * q.x - p.x * q.z, p.x * q.y - p.y * q.x)
  }

  function Dot(p: Vertex, q: Vertex): real
  {
    p.x * q.x + p.y * q.y + p.z * q.z
  }

  /** The face (a, b, c) faces away from d: its normal (b - a) x (c - a), the one a
      renderer computes from the winding, points to the side of the plane opposite d. */
  predicate FacesAway(a: Vertex, b: Vertex, c: Vertex, d: Vertex)
  {
    Dot(Cross(Sub(b, a), Sub(c, a)), Sub(d, a)) < 0.0
  }

  /** Every face of a tetrahedron, with the winding TetraFaces gives it, faces away from the
      corner it leaves out, so the computed normals all point outward. Face k of TetraFaces(0)
      indexes the corners [v0, v1, v2, v3] and leaves out corner (k + 3) % 4. */
  lemma TetraFacesPointOutward(side: real, v0: Vertex)
    requires side > 0.0
    ensures var (v1, v2, v3) := Corners(side, v0);
      var vs := [v0, v1, v2, v3];
      forall k :: 0 <= k < 4 ==>
        FacesAway(vs[TetraFaces(0)[k].a], vs[TetraFaces(0)[k].b], vs[TetraFaces(0)[k].c], vs[(k + 3) % 4])
  {
    // The faces are (v0, v2, v1), (v1, v2, v3), (v3, v2, v0) and (v0, v1, v3).
  }

  /** A growable vertex and face list (THREE.Geometry); the builder appends to it in place. */
  class Geometry {
    var vertices: seq<Vertex>
    var faces: seq<Face>

    constructor ()
      ensures vertices == [] && faces == []
    {
      vertices := [];
      faces := [];
    }

    method PushVertex(v: Vertex)
      modifies this
      ensures vertices == old(vertices) + [v] && faces == old(faces)
    {
      vertices := vertices + [v];
    }

    method PushFace(f: Face)
      modifies this
      ensures faces == old(faces) + [f] && vertices == old(vertices)
    {
      faces := faces + [f];
    }
  }

  /** A renderable object wrapping one geometry (THREE.Mesh; its material is not modelled). */
  class Mesh {
    const geometry: Geometry

    constructor (geometry: Geometry)
      ensures this.geometry == geometry
    {
      this.geometry := geometry;
    }
  }
}
