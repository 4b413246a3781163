/** What one call of the recursive builder does to the accumulator and the memo table,
    written as functions of the state before the call, and what follows from it. */
module Tetra {
  import opened Shapes

  /** The memo key of a call: its level, its side and its first corner. */
  datatype Key = Key(level: int, side: real, x: real, y: real, z: real)

  function KeyOf(level: int, side: real, v0: Vertex): (k: Key)
    ensures k.level == level && k.side == side && Vertex(k.x, k.y, k.z) == v0
  {
    Key(level, side, v0.x, v0.y, v0.z)
  }

  /** The state one build call works on: the accumulator's vertex and face lists and the memo table. */
  datatype Accum = Accum(vertices: seq<Vertex>, faces: seq<Face>, cache: map<Key, Geometry>)

  /** Every face refers to a vertex below n. */
  predicate Indexed(faces: seq<Face>, n: nat)
  {
    forall i :: 0 <= i < |faces| ==> faces[i].a < n && faces[i].b < n && faces[i].c < n
  }

  /** The level-1 step: push the four corners, then the four faces numbered from the old vertex count. */
  function AddTetra(s: Accum, side: real, v0: Vertex): (r: Accum)
    ensures r.cache == s.cache
    ensures |r.vertices| == |s.vertices| + 4 && s.vertices <= r.vertices
    ensures r.faces == s.faces + TetraFaces(|s.vertices|)
  {
    var (v1, v2, v3) := Corners(side, v0);
    s.(vertices := s.vertices + [v0, v1, v2, v3], faces := s.faces + TetraFaces(|s.vertices|))
  }

  /** The effect of build(level, side, v0, acc) on the state s, acc being the accumulator object:
      a memo hit changes nothing; a miss appends one tetrahedron (level 1) or runs the four
      half-size builds in turn, then maps the call's key to acc. */
  function Grow(level: int, side: real, v0: Vertex, acc: Geometry, s: Accum): Accum
    requires level >= 1
    decreases level, 0
  {
    var key := KeyOf(level, side, v0);
    if key in s.cache then s
    else
      var t :=
        if level == 1 then AddTetra(s, side, v0)
        else GrowEach(level - 1, side / 2.0, SubOrigins(side, v0), acc, s);
      t.(cache := t.cache[key := acc])
  }

  /** The builds of the given level and side from each origin in turn, all into acc. */
  function GrowEach(level: int, side: real, origins: seq<Vertex>, acc: Geometry, s: Accum): Accum
    requires level >= 1
    decreases level, |origins|
  {
    if origins == [] then s
    else GrowEach(level, side, origins[1..], acc, Grow(level, side, origins[0], acc, s))
  }

  /** A level-1 call that misses the memo table adds one tetrahedron and its key. */
  lemma GrowLeaf(side: real, v0: Vertex, acc: Geometry, s: Accum)
    requires KeyOf(1, side, v0) !in s.cache
    ensures var t := AddTetra(s, side, v0);
      Grow(1, side, v0, acc, s) == t.(cache := t.cache[KeyOf(1, side, v0) := acc])
  {
  }

  /** A higher call that misses the memo table runs the four half-size builds, then adds its key. */
  lemma GrowInner(level: int, side: real, v0: Vertex, acc: Geometry, s: Accum)
    requires level >= 2 && KeyOf(level, side, v0) !in s.cache
    ensures var t := GrowEach(level - 1, side / 2.0, SubOrigins(side, v0), acc, s);
      Grow(level, side, v0, acc, s) == t.(cache := t.cache[KeyOf(level, side, v0) := acc])
  {
  }

  /** The fold over a first origin and the rest runs the first build, then folds the rest. */
  lemma GrowEachCons(level: int, side: real, a: Vertex, rest: seq<Vertex>, acc: Geometry, s: Accum)
    requires level >= 1
    ensures GrowEach(level, side, [a] + rest, acc, s) == GrowEach(level, side, rest, acc, Grow(level, side, a, acc, s))
  {
  }

  /** Four builds in turn, taking the state through s1 .. s4, are the fold over their four origins. */
  lemma GrowEachFour(level: int, side: real, a: Vertex, b: Vertex, c: Vertex, d: Vertex, acc: Geometry,
                     s: Accum, s1: Accum, s2: Accum, s3: Accum, s4: Accum)
    requires level >= 1
    requires s1 == Grow(level, side, a, acc, s) && s2 == Grow(level, side, b, acc, s1)
    requires s3 == Grow(level, side, c, acc, s2) && s4 == Grow(level, side, d, acc, s3)
    ensures GrowEach(level, side, [a, b, c, d], acc, s) == s4
  {
    assert [d] == [d] + [];
    GrowEachCons(level, side, d, [], acc, s3);
    assert [c, d] == [c] + [d];
    GrowEachCons(level, side, c, [d], acc, s2);
    assert [b, c, d] == [b] + [c, d];
    GrowEachCons(level, side, b, [c, d], acc, s1);
    assert [a, b, c, d] == [a] + [b, c, d];
    GrowEachCons(level, side, a, [b, c, d], acc, s);
  }

  function Pow4(n: nat): (p: nat)
    ensures p >= 1
  {
    if n == 0 then 1 else 4 * Pow4(n - 1)
  }

  /** The number of smallest tetrahedra in n recursion trees of the given level. */
  function LeafCount(level: int, n: nat): nat
    requires level >= 1
  {
    if n == 0 then 0 else Pow4(level - 1) + LeafCount(level, n - 1)
  }

  /** side halved n times. */
  function Halved(side: real, n: nat): real
    decreases n
  {
    if n == 0 then side else Halved(side / 2.0, n - 1)
  }

  /** Reference definition: the corners of all the smallest tetrahedra, in the order the
      recursion visits them. */
  function FractalVertices(level: int, side: real, v0: Vertex): seq<Vertex>
    requires level >= 1
    decreases level, 0
  {
    if level == 1 then
      var (v1, v2, v3) := Corners(side, v0);
      [v0, v1, v2, v3]
    else EachVertices(level - 1, side / 2.0, SubOrigins(side, v0))
  }

  function EachVertices(level: int, side: real, origins: seq<Vertex>): seq<Vertex>
    requires level >= 1
    decreases level, |origins|
  {
    if origins == [] then []
    else FractalVertices(level, side, origins[0]) + EachVertices(level, side, origins[1..])
  }

  /** Reference definition: the faces of n tetrahedra whose corners lie at base, base + 4, ... */
  function MeshFaces(base: nat, n: nat): seq<Face>
    decreases n
  {
    if n == 0 then [] else TetraFaces(base) + MeshFaces(base + 4, n - 1)
  }

  /** The keys of every call in the recursion tree of build(level, side, v0). */
  function TreeKeys(level: int, side: real, v0: Vertex): set<Key>
    requires level >= 1
    decreases level, 0
  {
    {KeyOf(level, side, v0)} + if level == 1 then {} else EachKeys(level - 1, side / 2.0, SubOrigins(side, v0))
  }

  function EachKeys(level: int, side: real, origins: seq<Vertex>): set<Key>
    requires level >= 1
    decreases level, |origins|
  {
    if origins == [] then {}
    else TreeKeys(level, side, origins[0]) + EachKeys(level, side, origins[1..])
  }

  /** The recursion trees from the given origins share no key. */
  predicate Separate(level: int, side: real, origins: seq<Vertex>)
    requires level >= 1
    decreases |origins|
  {
    origins != [] ==>
      TreeKeys(level, side, origins[0]) !! EachKeys(level, side, origins[1..])
      && Separate(level, side, origins[1..])
  }

  /** The axis-aligned box of edge `side` (side * SinPi3 along y and z) whose lowest corner is v0. */
  predicate InBox(k: Key, side: real, v0: Vertex)
  {
    && v0.x <= k.x < v0.x + side
    && v0.y <= k.y < v0.y + side * SinPi3
    && v0.z <= k.z < v0.z + side * SinPi3
  }

  /** r only extends s: both lists keep s's as a prefix, every memo entry of s stays, and
      every new entry maps to the accumulator acc. */
  predicate Extends(s: Accum, r: Accum, acc: Geometry)
  {
    && s.vertices <= r.vertices
    && s.faces <= r.faces
    && (forall k :: k in s.cache ==> k in r.cache && r.cache[k] == s.cache[k])
    && (forall k :: k in r.cache && k !in s.cache ==> r.cache[k] == acc)
  }

  // ---------------------------------------------------------------------------------------
  // What every build call does: it only appends, and the memo table only grows

  lemma ExtendsTransitive(s: Accum, t: Accum, r: Accum, acc: Geometry)
    requires Extends(s, t, acc) && Extends(t, r, acc)
    ensures Extends(s, r, acc)
  {
  }

  /** A build call only appends to the accumulator, keeps every memo entry, stores only the
      accumulator under new keys, and leaves its own key in the memo table. */
  lemma {:induction false} GrowExtends(level: int, side: real, v0: Vertex, acc: Geometry, s: Accum)
    requires level >= 1
    decreases level, 0
    ensures Extends(s, Grow(level, side, v0, acc, s), acc)
    ensures KeyOf(level, side, v0) in Grow(level, side, v0, acc, s).cache
  {
    var key := KeyOf(level, side, v0);
    if key !in s.cache {
      var t := if level == 1 then AddTetra(s, side, v0)
               else GrowEach(level - 1, side / 2.0, SubOrigins(side, v0), acc, s);
      if level > 1 {
        GrowEachExtends(level - 1, side / 2.0, SubOrigins(side, v0), acc, s);
      }
      assert Extends(s, t, acc);
    }
  }

  lemma {:induction false} GrowEachExtends(level: int, side: real, origins: seq<Vertex>, acc: Geometry, s: Accum)
    requires level >= 1
    decreases level, |origins|
    ensures Extends(s, GrowEach(level, side, origins, acc, s), acc)
  {
    if origins != [] {
      var t := Grow(level, side, origins[0], acc, s);
      GrowExtends(level, side, origins[0], acc, s);
      GrowEachExtends(level, side, origins[1..], acc, t);
      ExtendsTransitive(s, t, GrowEach(level, side, origins[1..], acc, t), acc);
    }
  }

  /** After any build call every face refers to an existing vertex, if that held before. */
  lemma {:induction false} GrowIndexed(level: int, side: real, v0: Vertex, acc: Geometry, s: Accum)
    requires level >= 1
    requires Indexed(s.faces, |s.vertices|)
    decreases level, 0
    ensures var r := Grow(level, side, v0, acc, s); Indexed(r.faces, |r.vertices|)
  {
    var key := KeyOf(level, side, v0);
    if key !in s.cache {
      if level == 1 {
        var r := AddTetra(s, side, v0);
        forall i | 0 <= i < |r.faces|
          ensures r.faces[i].a < |r.vertices| && r.faces[i].b < |r.vertices| && r.faces[i].c < |r.vertices|
        {
          if i >= |s.faces| {
            assert r.faces[i] == TetraFaces(|s.vertices|)[i - |s.faces|];
          }
        }
      } else {
        GrowEachIndexed(level - 1, side / 2.0, SubOrigins(side, v0), acc, s);
      }
    }
  }

  lemma {:induction false} GrowEachIndexed(level: int, side: real, origins: seq<Vertex>, acc: Geometry, s: Accum)
    requires level >= 1
    requires Indexed(s.faces, |s.vertices|)
    decreases level, |origins|
    ensures var r := GrowEach(level, side, origins, acc, s); Indexed(r.faces, |r.vertices|)
  {
    if origins != [] {
      GrowIndexed(level, side, origins[0], acc, s);
      GrowEachIndexed(level, side, origins[1..], acc, Grow(level, side, origins[0], acc, s));
    }
  }

  // ---------------------------------------------------------------------------------------
  // Sizes of the reference definitions

  lemma {:induction false} FractalVerticesLength(level: int, side: real, v0: Vertex)
    requires level >= 1
    decreases level, 0
    ensures |FractalVertices(level, side, v0)| == Pow4(level)
  {
    if level > 1 {
      EachVerticesLength(level - 1, side / 2.0, SubOrigins(side, v0));
    }
  }

  lemma {:induction false} EachVerticesLength(level: int, side: real, origins: seq<Vertex>)
    requires level >= 1
    decreases level, |origins|
    ensures |EachVertices(level, side, origins)| == |origins| * Pow4(level)
  {
    if origins != [] {
      FractalVerticesLength(level, side, origins[0]);
      EachVerticesLength(level, side, origins[1..]);
      assert |origins| * Pow4(level) == Pow4(level) + (|origins| - 1) * Pow4(level);
    }
  }

  lemma {:induction false} MeshFacesShape(base: nat, n: nat)
    decreases n
    ensures |MeshFaces(base, n)| == 4 * n
    ensures Indexed(MeshFaces(base, n), base + 4 * n)
  {
    if n > 0 {
      MeshFacesShape(base + 4, n - 1);
      var fs := MeshFaces(base, n);
      var rest := MeshFaces(base + 4, n - 1);
      forall i | 0 <= i < |fs|
        ensures fs[i].a < base + 4 * n && fs[i].b < base + 4 * n && fs[i].c < base + 4 * n
      {
        if i >= 4 {
          assert fs[i] == rest[i - 4];
        }
      }
    }
  }

  /** The faces of n + m tetrahedra are those of the first n followed by those of the next m. */
  lemma {:induction false} MeshFacesSplit(base: nat, n: nat, m: nat)
    decreases n
    ensures MeshFaces(base, n + m) == MeshFaces(base, n) + MeshFaces(base + 4 * n, m)
  {
    if n > 0 {
      MeshFacesSplit(base + 4, n - 1, m);
    }
  }

  /** A fresh build of the given level yields 4^level vertices and 4^level faces, every face
      referring to one of those vertices. */
  lemma FractalSize(level: int, side: real, v0: Vertex)
    requires level >= 1
    ensures |FractalVertices(level, side, v0)| == Pow4(level)
    ensures |MeshFaces(0, Pow4(level - 1))| == Pow4(level)
    ensures Indexed(MeshFaces(0, Pow4(level - 1)), Pow4(level))
  {
    FractalVerticesLength(level, side, v0);
    MeshFacesShape(0, Pow4(level - 1));
  }

  // ---------------------------------------------------------------------------------------
  // The calls of one build never share a key

  lemma {:induction false} HalvedDecreases(side: real, n: nat, m: nat)
    requires side > 0.0 && n < m
    decreases m
    ensures 0.0 < Halved(side, m) < Halved(side, n)
  {
    if n == 0 {
      HalvedPositive(side / 2.0, m - 1);
      if m > 1 {
        HalvedDecreases(side / 2.0, 0, m - 1);
      }
    } else {
      HalvedDecreases(side / 2.0, n - 1, m - 1);
    }
  }

  lemma {:induction false} HalvedPositive(side: real, n: nat)
    requires side > 0.0
    decreases n
    ensures Halved(side, n) > 0.0
  {
    if n > 0 {
      HalvedPositive(side / 2.0, n - 1);
    }
  }

  /** Every call in the recursion tree has a level between 1 and the top level, and the
      top side halved once per level below the top. */
  lemma {:induction false} TreeKeysScaled(level: int, side: real, v0: Vertex)
    requires level >= 1
    decreases level, 0
    ensures forall k :: k in TreeKeys(level, side, v0) ==>
      1 <= k.level <= level && k.side == Halved(side, level - k.level)
  {
    if level > 1 {
      EachKeysScaled(level - 1, side / 2.0, SubOrigins(side, v0));
    }
  }

  lemma {:induction false} EachKeysScaled(level: int, side: real, origins: seq<Vertex>)
    requires level >= 1
    decreases level, |origins|
    ensures forall k :: k in EachKeys(level, side, origins) ==>
      1 <= k.level <= level && k.side == Halved(side, level - k.level)
  {
    if origins != [] {
      TreeKeysScaled(level, side, origins[0]);
      EachKeysScaled(level, side, origins[1..]);
    }
  }

  /** The box of edge `side` at o lies within the box of edge `big` at corner. */
  predicate BoxWithin(side: real, o: Vertex, big: real, corner: Vertex)
  {
    && corner.x <= o.x && o.x + side <= corner.x + big
    && corner.y <= o.y && o.y + side * SinPi3 <= corner.y + big * SinPi3
    && corner.z <= o.z && o.z + side * SinPi3 <= corner.z + big * SinPi3
  }

  /** Every call in the recursion tree starts inside the top call's box. */
  lemma {:induction false} TreeKeysInBox(level: int, side: real, v0: Vertex)
    requires level >= 1 && side > 0.0
    decreases level, 0
    ensures forall k :: k in TreeKeys(level, side, v0) ==> InBox(k, side, v0)
  {
    if level > 1 {
      var o := SubOrigins(side, v0);
      assert forall i :: 0 <= i < 4 ==> BoxWithin(side / 2.0, o[i], side, v0);
      EachKeysInBox(level - 1, side / 2.0, o, side, v0);
    }
  }

  lemma {:induction false} EachKeysInBox(level: int, side: real, origins: seq<Vertex>, big: real, corner: Vertex)
    requires level >= 1 && side > 0.0
    requires forall i :: 0 <= i < |origins| ==> BoxWithin(side, origins[i], big, corner)
    decreases level, |origins|
    ensures forall k :: k in EachKeys(level, side, origins) ==> InBox(k, big, corner)
  {
    if origins != [] {
      TreeKeysInBox(level, side, origins[0]);
      assert BoxWithin(side, origins[0], big, corner);
      EachKeysInBox(level, side, origins[1..], big, corner);
    }
  }

  /** The four half-size subtrees of a call share no key, and none has the call's own key. */
  lemma ChildrenDisjoint(level: int, side: real, v0: Vertex)
    requires level >= 2 && side > 0.0
    ensures Separate(level - 1, side / 2.0, SubOrigins(side, v0))
    ensures KeyOf(level, side, v0) !in EachKeys(level - 1, side / 2.0, SubOrigins(side, v0))
  {
    var o := SubOrigins(side, v0);
    var l, h := level - 1, side / 2.0;
    var t0, t1, t2, t3 := TreeKeys(l, h, o[0]), TreeKeys(l, h, o[1]), TreeKeys(l, h, o[2]), TreeKeys(l, h, o[3]);
    TreeKeysInBox(l, h, o[0]);
    TreeKeysInBox(l, h, o[1]);
    TreeKeysInBox(l, h, o[2]);
    TreeKeysInBox(l, h, o[3]);
    // The first two lie in the lower half of y and z and are split by x; the third lies in
    // the upper half of y; the fourth in the lower half of y and the upper half of z.
    assert forall k :: k in t0 ==> k.x < v0.x + h && k.y < v0.y + h * SinPi3 && k.z < v0.z + h * SinPi3;
    assert forall k :: k in t1 ==> k.x >= v0.x + h && k.y < v0.y + h * SinPi3 && k.z < v0.z + h * SinPi3;
    assert forall k :: k in t2 ==> k.y >= v0.y + h * SinPi3;
    assert forall k :: k in t3 ==> k.y < v0.y + h * SinPi3 && k.z >= v0.z + h * SinPi3;
    assert o[1..][1..][1..][1..] == [];
    assert EachKeys(l, h, o[1..][1..][1..]) == t3;
    assert EachKeys(l, h, o[1..][1..]) == t2 + t3;
    assert EachKeys(l, h, o[1..]) == t1 + t2 + t3;
    assert Separate(l, h, o[1..][1..][1..]);
    assert Separate(l, h, o[1..][1..]);
    assert Separate(l, h, o[1..]);
    EachKeysScaled(l, h, o);
  }

  /** Builds of two different levels from the same side never share a key. */
  lemma LevelsDisjoint(l1: int, l2: int, side: real, o1: Vertex, o2: Vertex)
    requires 1 <= l1 && 1 <= l2 && l1 != l2 && side > 0.0
    ensures TreeKeys(l1, side, o1) !! TreeKeys(l2, side, o2)
  {
    TreeKeysScaled(l1, side, o1);
    TreeKeysScaled(l2, side, o2);
    forall k | k in TreeKeys(l1, side, o1)
      ensures k !in TreeKeys(l2, side, o2)
    {
      if 1 <= k.level <= l2 {
        var n1, n2 := l1 - k.level, l2 - k.level;
        if n1 < n2 {
          HalvedDecreases(side, n1, n2);
        } else {
          HalvedDecreases(side, n2, n1);
        }
        assert k.side != Halved(side, n2);
      }
    }
  }

  // ---------------------------------------------------------------------------------------
  // A build that meets no memo entry

  /** When no key of the recursion tree is in the memo table, no call hits it, and the build
      adds exactly the tree's keys. */
  lemma {:induction false} GrowFreshKeys(level: int, side: real, v0: Vertex, acc: Geometry, s: Accum)
    requires level >= 1 && side > 0.0
    requires TreeKeys(level, side, v0) !! s.cache.Keys
    decreases level, 0
    ensures Grow(level, side, v0, acc, s).cache.Keys == s.cache.Keys + TreeKeys(level, side, v0)
  {
    assert KeyOf(level, side, v0) in TreeKeys(level, side, v0);
    if level > 1 {
      ChildrenDisjoint(level, side, v0);
      GrowEachFreshKeys(level - 1, side / 2.0, SubOrigins(side, v0), acc, s);
    }
  }

  lemma {:induction false} GrowEachFreshKeys(level: int, side: real, origins: seq<Vertex>, acc: Geometry, s: Accum)
    requires level >= 1 && side > 0.0
    requires Separate(level, side, origins)
    requires EachKeys(level, side, origins) !! s.cache.Keys
    decreases level, |origins|
    ensures GrowEach(level, side, origins, acc, s).cache.Keys == s.cache.Keys + EachKeys(level, side, origins)
  {
    if origins != [] {
      GrowFreshKeys(level, side, origins[0], acc, s);
      GrowEachFreshKeys(level, side, origins[1..], acc, Grow(level, side, origins[0], acc, s));
    }
  }

  /** Four trees of one level have as many smallest tetrahedra as one tree a level up. */
  lemma LeafCountFour(level: int)
    requires level >= 1
    ensures LeafCount(level, 4) == Pow4(level)
  {
    assert LeafCount(level, 1) == Pow4(level - 1);
    assert LeafCount(level, 2) == 2 * Pow4(level - 1);
    assert LeafCount(level, 3) == 3 * Pow4(level - 1);
  }

  /** When no key of the recursion tree is in the memo table, the build appends exactly the
      reference vertices. */
  lemma {:induction false} GrowFreshVertices(level: int, side: real, v0: Vertex, acc: Geometry, s: Accum)
    requires level >= 1 && side > 0.0
    requires TreeKeys(level, side, v0) !! s.cache.Keys
    decreases level, 0
    ensures Grow(level, side, v0, acc, s).vertices == s.vertices + FractalVertices(level, side, v0)
  {
    assert KeyOf(level, side, v0) in TreeKeys(level, side, v0);
    if level > 1 {
      ChildrenDisjoint(level, side, v0);
      GrowEachFreshVertices(level - 1, side / 2.0, SubOrigins(side, v0), acc, s);
    }
  }

  lemma {:induction false} GrowEachFreshVertices(level: int, side: real, origins: seq<Vertex>, acc: Geometry, s: Accum)
    requires level >= 1 && side > 0.0
    requires Separate(level, side, origins)
    requires EachKeys(level, side, origins) !! s.cache.Keys
    decreases level, |origins|
    ensures GrowEach(level, side, origins, acc, s).vertices == s.vertices + EachVertices(level, side, origins)
  {
    if origins != [] {
      var t := Grow(level, side, origins[0], acc, s);
      GrowFreshVertices(level, side, origins[0], acc, s);
      GrowFreshKeys(level, side, origins[0], acc, s);
      GrowEachFreshVertices(level, side, origins[1..], acc, t);
      assert EachVertices(level, side, origins)
          == FractalVertices(level, side, origins[0]) + EachVertices(level, side, origins[1..]);
    }
  }

  /** When no key of the recursion tree is in the memo table, the build appends the faces of
      4^(level-1) tetrahedra whose corners are numbered from the old vertex count on. */
  lemma {:induction false} GrowFreshFaces(level: int, side: real, v0: Vertex, acc: Geometry, s: Accum)
    requires level >= 1 && side > 0.0
    requires TreeKeys(level, side, v0) !! s.cache.Keys
    decreases level, 0
    ensures Grow(level, side, v0, acc, s).faces == s.faces + MeshFaces(|s.vertices|, Pow4(level - 1))
  {
    assert KeyOf(level, side, v0) in TreeKeys(level, side, v0);
    if level == 1 {
      assert MeshFaces(|s.vertices|, 1) == TetraFaces(|s.vertices|);
    } else {
      ChildrenDisjoint(level, side, v0);
      GrowEachFreshFaces(level - 1, side / 2.0, SubOrigins(side, v0), acc, s);
      LeafCountFour(level - 1);
    }
  }

  lemma {:induction false} GrowEachFreshFaces(level: int, side: real, origins: seq<Vertex>, acc: Geometry, s: Accum)
    requires level >= 1 && side > 0.0
    requires Separate(level, side, origins)
    requires EachKeys(level, side, origins) !! s.cache.Keys
    decreases level, |origins|
    ensures GrowEach(level, side, origins, acc, s).faces
         == s.faces + MeshFaces(|s.vertices|, LeafCount(level, |origins|))
  {
    if origins != [] {
      var n := Pow4(level - 1);
      var t := Grow(level, side, origins[0], acc, s);
      assert Separate(level, side, origins[1..]) && EachKeys(level, side, origins[1..]) !! t.cache.Keys by {
        GrowFreshKeys(level, side, origins[0], acc, s);
      }
      assert |t.vertices| == |s.vertices| + 4 * n by {
        GrowFreshVertices(level, side, origins[0], acc, s);
        FractalVerticesLength(level, side, origins[0]);
      }
      assert t.faces == s.faces + MeshFaces(|s.vertices|, n) by {
        GrowFreshFaces(level, side, origins[0], acc, s);
      }
      GrowEachFreshFaces(level, side, origins[1..], acc, t);
      MeshFacesSplit(|s.vertices|, n, LeafCount(level, |origins| - 1));
    }
  }
}
