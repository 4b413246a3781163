/** The memoised recursive builder and the function that builds the whole figure with it. */
module MeshBuilder {
  import opened Shapes
  import opened Tetra

  /** Owns the memo table that maps the key of every finished build call to the geometry
      that call filled. */
  class Builder {
    var geometryCache: map<Key, Geometry>

    constructor ()
      ensures geometryCache == map[]
    {
      geometryCache := map[];
    }

    /** build(level, side, v0, geometry): on a memo hit, return the stored geometry and change
        nothing; otherwise fill geometry (a new one when none is given) with the tetrahedron or
        the four half-size builds, record it under the call's key and return it. */
    method Build(level: int, side: real, v0: Vertex, geometry: Geometry?) returns (g: Geometry)
      requires level >= 1
      modifies this, geometry
      decreases level, 1
      ensures geometry != null ==>
        Accum(geometry.vertices, geometry.faces, geometryCache)
          == Grow(level, side, v0, geometry, Accum(old(geometry.vertices), old(geometry.faces), old(geometryCache)))
      ensures geometry != null ==> old(geometry.vertices) <= geometry.vertices && old(geometry.faces) <= geometry.faces
      ensures geometry != null && Indexed(old(geometry.faces), |old(geometry.vertices)|) ==>
        Indexed(geometry.faces, |geometry.vertices|)
      ensures forall k :: k in old(geometryCache) ==> k in geometryCache && geometryCache[k] == old(geometryCache)[k]
      ensures KeyOf(level, side, v0) in old(geometryCache) ==>
        && g == old(geometryCache)[KeyOf(level, side, v0)]
        && geometryCache == old(geometryCache)
        && (geometry != null ==> geometry.vertices == old(geometry.vertices) && geometry.faces == old(geometry.faces))
      ensures KeyOf(level, side, v0) !in old(geometryCache) ==>
        && KeyOf(level, side, v0) in geometryCache && geometryCache[KeyOf(level, side, v0)] == g
        && (geometry != null ==> g == geometry)
        && (geometry == null ==>
              && fresh(g)
              && Accum(g.vertices, g.faces, geometryCache) == Grow(level, side, v0, g, Accum([], [], old(geometryCache))))
    {
      var acc := geometry;
      if acc == null {
        acc := new Geometry();
      }
      ghost var s0 := Accum(acc.vertices, acc.faces, geometryCache);
      assert geometry != null ==> s0 == Accum(old(geometry.vertices), old(geometry.faces), old(geometryCache));
      var key := KeyOf(level, side, v0);
      if key in geometryCache {
        assert Grow(level, side, v0, acc, s0) == s0;
        return geometryCache[key];
      }
      var v1 := v0.(x := v0.x + side);
      var v2 := v0.(x := v0.x + (v1.x - v0.x) / 2.0);
      v2 := v2.(y := v2.y + side * SinPi3);
      v2 := v2.(z := v2.z + side / (SinPi3 * 4.0));
      var v3 := v0.(x := v2.x);
      v3 := v3.(z := v3.z + side * SinPi3);
      assert (v1, v2, v3) == Corners(side, v0);
      ghost var t: Accum;
      if level == 1 {
        var i := |acc.vertices|;
        acc.PushVertex(v0);
        acc.PushVertex(v1);
        acc.PushVertex(v2);
        acc.PushVertex(v3);
        acc.PushFace(Face(i + 0, i + 2, i + 1));
        acc.PushFace(Face(i + 1, i + 2, i + 3));
        acc.PushFace(Face(i + 3, i + 2, i + 0));
        acc.PushFace(Face(i + 0, i + 1, i + 3));
        assert acc.vertices == s0.vertices + [v0, v1, v2, v3];
        assert acc.faces == s0.faces + TetraFaces(i);
        t := Accum(acc.vertices, acc.faces, geometryCache);
        assert t == AddTetra(s0, side, v0);
        GrowLeaf(side, v0, acc, s0);
        assert Grow(level, side, v0, acc, s0) == t.(cache := t.cache[key := acc]);
      } else {
        BuildChildren(level, side, v0, v1, v2, v3, acc);
        t := Accum(acc.vertices, acc.faces, geometryCache);
        SubOriginsAreMidpoints(side, v0);
        GrowInner(level, side, v0, acc, s0);
        assert Grow(level, side, v0, acc, s0) == t.(cache := t.cache[key := acc]);
      }
      geometryCache := geometryCache[key := acc];
      g := acc;
      assert Accum(acc.vertices, acc.faces, geometryCache) == Grow(level, side, v0, acc, s0);
      GrowExtends(level, side, v0, acc, s0);
      if Indexed(s0.faces, |s0.vertices|) {
        GrowIndexed(level, side, v0, acc, s0);
      }
    }

    /** The recursive half of build at level > 1: the four half-size builds from v0 and its
        midpoints towards v1, v2 and v3, in that order, all into acc. */
    method BuildChildren(level: int, side: real, v0: Vertex, v1: Vertex, v2: Vertex, v3: Vertex, acc: Geometry)
      requires level >= 2
      modifies this, acc
      decreases level, 0
      ensures Accum(acc.vertices, acc.faces, geometryCache)
        == GrowEach(level - 1, side / 2.0, [v0, Half(v0, v1), Half(v0, v2), Half(v0, v3)], acc,
                    Accum(old(acc.vertices), old(acc.faces), old(geometryCache)))
    {
      ghost var s0 := Accum(acc.vertices, acc.faces, geometryCache);
      var hside := side / 2.0;
      var _ := Build(level - 1, hside, v0, acc);
      ghost var s1 := Accum(acc.vertices, acc.faces, geometryCache);
      var v01 := Half(v0, v1);
      var _ := Build(level - 1, hside, v01, acc);
      ghost var s2 := Accum(acc.vertices, acc.faces, geometryCache);
      var v02 := Half(v0, v2);
      var _ := Build(level - 1, hside, v02, acc);
      ghost var s3 := Accum(acc.vertices, acc.faces, geometryCache);
      var v03 := Half(v0, v3);
      var _ := Build(level - 1, hside, v03, acc);
      ghost var s4 := Accum(acc.vertices, acc.faces, geometryCache);
      GrowEachFour(level - 1, hside, v0, v01, v02, v03, acc, s0, s1, s2, s3, s4);
    }

    /** sierpinski(level, side): build the whole figure from the canonical first corner with a
        new accumulator and wrap the geometry in a mesh. When the top call misses, the new
        geometry and the memo table are as Grow gives them from an empty accumulator. When no
        call of the build meets the memo table, the mesh holds a new geometry with exactly the
        reference vertices and the faces of its 4^(level-1) tetrahedra, and the memo table
        gains exactly the build's keys. */
    method Sierpinski(level: int, side: real) returns (m: Mesh)
      requires level >= 1
      modifies this
      ensures fresh(m)
      ensures KeyOf(level, side, Origin(side)) in old(geometryCache) ==>
        m.geometry == old(geometryCache)[KeyOf(level, side, Origin(side))] && geometryCache == old(geometryCache)
      ensures KeyOf(level, side, Origin(side)) !in old(geometryCache) ==>
        && fresh(m.geometry)
        && Accum(m.geometry.vertices, m.geometry.faces, geometryCache)
             == Grow(level, side, Origin(side), m.geometry, Accum([], [], old(geometryCache)))
      ensures side > 0.0 && TreeKeys(level, side, Origin(side)) !! old(geometryCache).Keys ==>
        && fresh(m.geometry)
        && m.geometry.vertices == FractalVertices(level, side, Origin(side))
        && m.geometry.faces == MeshFaces(0, Pow4(level - 1))
        && geometryCache.Keys == old(geometryCache).Keys + TreeKeys(level, side, Origin(side))
        && |m.geometry.vertices| == Pow4(level) && |m.geometry.faces| == Pow4(level)
        && Indexed(m.geometry.faces, |m.geometry.vertices|)
    {
      var geometry := Build(level, side, Origin(side), null);
      if side > 0.0 && TreeKeys(level, side, Origin(side)) !! old(geometryCache).Keys {
        assert KeyOf(level, side, Origin(side)) in TreeKeys(level, side, Origin(side));
        GrowFreshVertices(level, side, Origin(side), geometry, Accum([], [], old(geometryCache)));
        GrowFreshFaces(level, side, Origin(side), geometry, Accum([], [], old(geometryCache)));
        GrowFreshKeys(level, side, Origin(side), geometry, Accum([], [], old(geometryCache)));
        FractalSize(level, side, Origin(side));
      }
      m := new Mesh(geometry);
    }
  }
}
