/** The flat mesh encoding of the nameplate scripts: an STL triangle soup is
    written into a 3MF `mesh` element (3MF Core Specification, chapter 4) by
    appending the three corners of every facet to `vertices` and one
    `triangle` naming those three fresh, zero-based, object-local indices. */
module Geometry {

  /** A point in millimetres. Coordinates are reals; the float32 values that
      numpy-stl produces and their decimal text form are not modelled. */
  datatype Vertex = Vertex(x: real, y: real, z: real)

  /** One entry of `mesh.vectors`: three corners in their winding order. */
  datatype Facet = Facet(a: Vertex, b: Vertex, c: Vertex)

  /** A 3MF `triangle` element: the `v1`, `v2`, `v3` indices. */
  datatype Triangle = Triangle(v1: int, v2: int, v3: int)

  /** A 3MF `mesh` element: its `vertices` and `triangles` children in order. */
  datatype Mesh = Mesh(vertices: seq<Vertex>, triangles: seq<Triangle>)

  /** The corners of a facet in the order `for vertex in triangle` visits them. */
  function Corners(f: Facet): seq<Vertex>
  {
    [f.a, f.b, f.c]
  }

  /** A vertex moved up by `dz` millimetres (x and y unchanged). */
  function Raise(v: Vertex, dz: real): Vertex
  {
    v.(z := v.z + dz)
  }

  function RaiseFacet(f: Facet, dz: real): Facet
  {
    Facet(Raise(f.a, dz), Raise(f.b, dz), Raise(f.c, dz))
  }

  /** The input soup with every corner raised by `dz`. */
  function RaiseAll(facets: seq<Facet>, dz: real): seq<Facet>
  {
    seq(|facets|, i requires 0 <= i < |facets| => RaiseFacet(facets[i], dz))
  }

  /** Reference definition of the `vertices` list: the corners of the facets,
      flattened facet by facet, each raised by `dz`. */
  function Flatten(facets: seq<Facet>, dz: real): seq<Vertex>
  {
    if facets == [] then []
    else Flatten(facets[..|facets| - 1], dz) + Corners(RaiseFacet(facets[|facets| - 1], dz))
  }

  /** Reference definition of the `triangles` list for `n` facets: triangle
      `i` is `(3i, 3i+1, 3i+2)`. */
  function Indexed(n: nat): seq<Triangle>
  {
    if n == 0 then [] else Indexed(n - 1) + [Triangle(3 * (n - 1), 3 * (n - 1) + 1, 3 * (n - 1) + 2)]
  }

  /** The mesh element that the encoding produces for a soup and a z offset. */
  function Encode(facets: seq<Facet>, dz: real): Mesh
  {
    Mesh(Flatten(facets, dz), Indexed(|facets|))
  }

  /** A triangle whose three indices are distinct and name vertices of `m`. */
  predicate IndexesInto(m: Mesh, t: Triangle)
  {
    0 <= t.v1 < |m.vertices| && 0 <= t.v2 < |m.vertices| && 0 <= t.v3 < |m.vertices| &&
    t.v1 != t.v2 && t.v2 != t.v3 && t.v1 != t.v3
  }

  /** Every triangle of `m` is well formed in the sense of the 3MF mesh rules:
      indices are zero-based, local to the object, in range and distinct. */
  predicate WellIndexed(m: Mesh)
  {
    forall t :: t in m.triangles ==> IndexesInto(m, t)
  }

  /** Reading a mesh element back: triangle by triangle, the three vertices
      it names, in index order (so the winding is the triangle's). The
      scripts never read a mesh back; this is the partner against which
      `Encode` is proved lossless (`EncodeRoundTrip`). */
  function Decode(m: Mesh): (r: seq<Facet>)
    requires WellIndexed(m)
    ensures |r| == |m.triangles|
  {
    seq(|m.triangles|, i requires 0 <= i < |m.triangles| =>
      var t := m.triangles[i];
      assert t in m.triangles;
      Facet(m.vertices[t.v1], m.vertices[t.v2], m.vertices[t.v3]))
  }

  lemma {:induction false} FlattenAt(facets: seq<Facet>, dz: real)
    ensures |Flatten(facets, dz)| == 3 * |facets|
    ensures forall i :: 0 <= i < |facets| ==>
      Flatten(facets, dz)[3 * i] == Raise(facets[i].a, dz) &&
      Flatten(facets, dz)[3 * i + 1] == Raise(facets[i].b, dz) &&
      Flatten(facets, dz)[3 * i + 2] == Raise(facets[i].c, dz)
  {
    if facets != [] {
      var init := facets[..|facets| - 1];
      FlattenAt(init, dz);
      forall i | 0 <= i < |init|
        ensures init[i] == facets[i]
      {
      }
    }
  }

  lemma {:induction false} IndexedAt(n: nat)
    ensures |Indexed(n)| == n
    ensures forall i :: 0 <= i < n ==> Indexed(n)[i] == Triangle(3 * i, 3 * i + 1, 3 * i + 2)
  {
    if n > 0 {
      IndexedAt(n - 1);
    }
  }

  /** The encoding keeps the flat-mesh invariant: three vertices per
      triangle, and every triangle names three distinct in-range indices. */
  lemma EncodeWellIndexed(facets: seq<Facet>, dz: real)
    ensures |Encode(facets, dz).vertices| == 3 * |Encode(facets, dz).triangles|
    ensures |Encode(facets, dz).triangles| == |facets|
    ensures WellIndexed(Encode(facets, dz))
  {
    FlattenAt(facets, dz);
    IndexedAt(|facets|);
    var m := Encode(facets, dz);
    forall t | t in m.triangles
      ensures IndexesInto(m, t)
    {
      var i :| 0 <= i < |m.triangles| && m.triangles[i] == t;
    }
  }

  /** Round trip: reading back the triangles of the encoded mesh yields the
      input soup, facet by facet with the winding kept, each corner raised by
      `dz` (by nothing when `dz` is 0). */
  lemma EncodeRoundTrip(facets: seq<Facet>, dz: real)
    ensures WellIndexed(Encode(facets, dz))
    ensures Decode(Encode(facets, dz)) == RaiseAll(facets, dz)
    ensures dz == 0.0 ==> Decode(Encode(facets, dz)) == facets
  {
    EncodeWellIndexed(facets, dz);
    FlattenAt(facets, dz);
    IndexedAt(|facets|);
    var d := Decode(Encode(facets, dz));
    forall i | 0 <= i < |facets|
      ensures d[i] == RaiseFacet(facets[i], dz)
    {
    }
    if dz == 0.0 {
      forall i | 0 <= i < |facets|
        ensures d[i] == facets[i]
      {
        assert RaiseFacet(facets[i], dz) == facets[i];
      }
    }
  }

  /** `_add_mesh_to_object`: walks the soup with the running `vertex_idx`
      counter, appending three vertices and then one triangle per facet. The
      counter starts at 0 on every call, so indices are local to the object. */
  method AddMeshToObject(facets: seq<Facet>, dz: real) returns (m: Mesh)
    ensures m == Encode(facets, dz)
    ensures |m.vertices| == 3 * |m.triangles| && |m.triangles| == |facets|
    ensures forall i :: 0 <= i < |facets| ==> m.triangles[i] == Triangle(3 * i, 3 * i + 1, 3 * i + 2)
  {
    var vertices: seq<Vertex> := [];
    var triangles: seq<Triangle> := [];
    var vertexIdx := 0;
    var i := 0;
    while i < |facets|
      invariant 0 <= i <= |facets|
      invariant vertexIdx == 3 * i
      invariant vertices == Flatten(facets[..i], dz)
      invariant triangles == Indexed(i)
    {
      var corners := Corners(facets[i]);
      ghost var before := vertices;
      var k := 0;
      while k < 3
        invariant 0 <= k <= 3
        invariant vertices == before + Corners(RaiseFacet(facets[i], dz))[..k]
      {
        vertices := vertices + [Raise(corners[k], dz)];
        k := k + 1;
      }
      triangles := triangles + [Triangle(vertexIdx, vertexIdx + 1, vertexIdx + 2)];
      vertexIdx := vertexIdx + 3;
      assert facets[..i + 1][..i] == facets[..i];
      i := i + 1;
    }
    assert facets[..|facets|] == facets;
    m := Mesh(vertices, triangles);
    IndexedAt(|facets|);
    FlattenAt(facets, dz);
  }
}
