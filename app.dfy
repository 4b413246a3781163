/** The page's state: the current level, the rotation switch, the mesh cache and the mesh on
    show, and the three button handlers that change them. */
module Interaction {
  import opened Shapes
  import opened Tetra
  import opened MeshBuilder

  class App {
    /** The edge of the whole figure; every mesh the page asks for has this side. */
    const side: real := 500.0
    var level: int
    /** True while the rotation is paused. */
    var stop: bool
    /** memoized's table, keyed by (level, side). */
    var sierpinskiCache: map<(int, real), Mesh>
    /** The mesh in the scene. */
    var trismegistus: Mesh?
    /** The owner of build's memo table, shared by every build the page runs. */
    const builder: Builder

    /** The geometries of the cached meshes. */
    function Shown(): set<Geometry>
      reads this
    {
      set k | k in sierpinskiCache :: sierpinskiCache[k].geometry
    }

    /** Every cached mesh was built at its level from side 500 and holds the whole figure;
        for every level not cached yet, build's memo table holds no key a build of that level
        would look up, so its build will meet no memo entry. */
    ghost predicate CacheValid()
      reads this, builder, Shown()
    {
      && (forall k :: k in sierpinskiCache ==>
            k.0 >= 1 && k.1 == side && Whole(k.0, sierpinskiCache[k].geometry))
      && (forall l :: l >= 1 && (l, side) !in sierpinskiCache ==>
            TreeKeys(l, side, Origin(side)) !! builder.geometryCache.Keys)
    }

    /** g holds the whole figure of the given level, built from side 500. */
    ghost predicate Whole(l: int, g: Geometry)
      requires l >= 1
      reads g
    {
      g.vertices == FractalVertices(l, side, Origin(side)) && g.faces == MeshFaces(0, Pow4(l - 1))
    }

    /** The cache is valid, the level is at least 1 and the mesh on show is the cached one for it. */
    ghost predicate Valid()
      reads this, builder, Shown()
    {
      && CacheValid()
      && level >= 1
      && (level, side) in sierpinskiCache
      && trismegistus == sierpinskiCache[(level, side)]
    }

    /** The globals' initial values and two empty tables, then initialize's memoized(level, side):
        afterwards the page cache holds only the level-2 mesh and build's memo table exactly the
        keys of that one build, each mapped to the geometry on show. */
    constructor ()
      ensures Valid()
      ensures level == 2 && stop
      ensures fresh(builder)
      ensures sierpinskiCache == map[(2, side) := trismegistus]
      ensures builder.geometryCache.Keys == TreeKeys(2, side, Origin(side))
      ensures forall k :: k in builder.geometryCache ==> builder.geometryCache[k] == trismegistus.geometry
    {
      level := 2;
      stop := true;
      sierpinskiCache := map[];
      trismegistus := null;
      builder := new Builder();
      new;
      trismegistus := Memoized(level);
    }

    /** memoized(lvl, side): the cached mesh for (lvl, side) when there is one, the very same
        object, and nothing is built; otherwise a new mesh from sierpinski, which is cached, and
        build's memo table keeps its entries and gains exactly the keys of that build, each
        mapped to the new mesh's geometry. Either way the mesh holds the whole figure of that
        level. */
    method Memoized(lvl: int) returns (m: Mesh)
      requires lvl >= 1 && CacheValid()
      modifies this, builder
      ensures CacheValid()
      ensures (lvl, side) in old(sierpinskiCache) ==>
        m == old(sierpinskiCache)[(lvl, side)] && sierpinskiCache == old(sierpinskiCache)
      ensures (lvl, side) !in old(sierpinskiCache) ==>
        fresh(m) && sierpinskiCache == old(sierpinskiCache)[(lvl, side) := m]
      ensures (lvl, side) in old(sierpinskiCache) ==> builder.geometryCache == old(builder.geometryCache)
      ensures (lvl, side) !in old(sierpinskiCache) ==>
        builder.geometryCache.Keys == old(builder.geometryCache.Keys) + TreeKeys(lvl, side, Origin(side))
      ensures (lvl, side) !in old(sierpinskiCache) ==>
        forall k :: k in builder.geometryCache ==>
          builder.geometryCache[k] == if k in old(builder.geometryCache) then old(builder.geometryCache)[k] else m.geometry
      ensures (lvl, side) in sierpinskiCache && sierpinskiCache[(lvl, side)] == m
      ensures Whole(lvl, m.geometry)
      ensures level == old(level) && stop == old(stop) && trismegistus == old(trismegistus)
    {
      var key := (lvl, side);
      if key in sierpinskiCache {
        return sierpinskiCache[key];
      }
      ghost var oc := builder.geometryCache;
      m := builder.Sierpinski(lvl, side);
      GrowExtends(lvl, side, Origin(side), m.geometry, Accum([], [], oc));
      forall l | l >= 1 && (l, side) !in sierpinskiCache[key := m]
        ensures TreeKeys(l, side, Origin(side)) !! builder.geometryCache.Keys
      {
        LevelsDisjoint(l, lvl, side, Origin(side), Origin(side));
      }
      sierpinskiCache := sierpinskiCache[key := m];
    }

    /** The "+" button: one level up, and show that level's mesh. */
    method IncLev()
      requires Valid()
      modifies this, builder
      ensures Valid()
      ensures level == old(level) + 1 && stop == old(stop)
      ensures Whole(level, trismegistus.geometry)
      ensures (level, side) in old(sierpinskiCache) ==>
        trismegistus == old(sierpinskiCache)[(level, side)] && sierpinskiCache == old(sierpinskiCache)
      ensures (level, side) !in old(sierpinskiCache) ==>
        sierpinskiCache == old(sierpinskiCache)[(level, side) := trismegistus]
      ensures (level, side) in old(sierpinskiCache) ==> builder.geometryCache == old(builder.geometryCache)
      ensures (level, side) !in old(sierpinskiCache) ==>
        builder.geometryCache.Keys == old(builder.geometryCache.Keys) + TreeKeys(level, side, Origin(side))
      ensures (level, side) !in old(sierpinskiCache) ==>
        forall k :: k in builder.geometryCache ==>
          builder.geometryCache[k]
            == if k in old(builder.geometryCache) then old(builder.geometryCache)[k] else trismegistus.geometry
    {
      level := level + 1;
      trismegistus := Memoized(level);
    }

    /** The "-" button: one level down and show that level's mesh, unless the level is 1 or
        less, in which case nothing changes and the user is alerted. */
    method DecLev() returns (alerted: bool)
      requires Valid()
      modifies this, builder
      ensures Valid()
      ensures alerted <==> old(level) <= 1
      ensures level == if alerted then old(level) else old(level) - 1
      ensures alerted ==>
        && trismegistus == old(trismegistus)
        && sierpinskiCache == old(sierpinskiCache)
        && builder.geometryCache == old(builder.geometryCache)
      ensures !alerted && (level, side) in old(sierpinskiCache) ==>
        trismegistus == old(sierpinskiCache)[(level, side)] && sierpinskiCache == old(sierpinskiCache)
      ensures !alerted && (level, side) !in old(sierpinskiCache) ==>
        sierpinskiCache == old(sierpinskiCache)[(level, side) := trismegistus]
      ensures !alerted && (level, side) in old(sierpinskiCache) ==>
        builder.geometryCache == old(builder.geometryCache)
      ensures !alerted && (level, side) !in old(sierpinskiCache) ==>
        builder.geometryCache.Keys == old(builder.geometryCache.Keys) + TreeKeys(level, side, Origin(side))
      ensures !alerted && (level, side) !in old(sierpinskiCache) ==>
        forall k :: k in builder.geometryCache ==>
          builder.geometryCache[k]
            == if k in old(builder.geometryCache) then old(builder.geometryCache)[k] else trismegistus.geometry
      ensures stop == old(stop)
      ensures Whole(level, trismegistus.geometry)
    {
      if level > 1 {
        level := level - 1;
        trismegistus := Memoized(level);
        alerted := false;
      } else {
        alerted := true;
      }
    }

    /** The rotation button: pause a running rotation, resume a paused one. */
    method ToggleRot()
      requires Valid()
      modifies this
      ensures Valid()
      ensures stop == !old(stop)
      ensures level == old(level) && trismegistus == old(trismegistus) && sierpinskiCache == old(sierpinskiCache)
    {
      if !stop {
        stop := true;
      } else {
        stop := false;
      }
    }
  }
}
