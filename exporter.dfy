/** The index bookkeeping of the Blender exporter ps1_exporter.py: the Y-up to Z-up
    axis remap, the per-polygon colour lookup, and export_model's walk over the mesh
    objects, which appends one face record and one material record per triangle or
    quad, rewinds the corners (0,2,1 for triangles, 3,2,0,1 for quads), offsets the
    vertex indices by the vertices of earlier objects, numbers the UVs it appends, and
    numbers texture names in the order they are first seen.

    Blender is not part of this model: a mesh is its vertex count, its loops' vertex
    indices, its polygons (loop start, corner count and the material properties
    detect_material_properties reports) and whether it has an active UV layer.
    Coordinates, UV values and colours are carried symbolically: an appended UV is
    recorded as the (object, loop) it was read from. */
module Exporter {
  import opened Types

  /** A coordinate triple. */
  datatype Coord = Coord(x: int, y: int, z: int)

  /** convert_coordinate (ps1_exporter.py:46-50): `(x, -z, y)` when converting to
      Z-up, the coordinate itself otherwise. */
  function ConvertCoordinate(c: Coord, toZUp: bool): Coord {
    if toZUp then Coord(c.x, -c.z, c.y) else c
  }

  /** The inverse remap, Z-up back to Y-up. */
  function UnconvertCoordinate(c: Coord, toZUp: bool): Coord {
    if toZUp then Coord(c.x, c.z, -c.y) else c
  }

  /** The remap loses nothing: each direction undoes the other. */
  lemma ConvertRoundTrip(c: Coord, toZUp: bool)
    ensures UnconvertCoordinate(ConvertCoordinate(c, toZUp), toZUp) == c
    ensures ConvertCoordinate(UnconvertCoordinate(c, toZUp), toZUp) == c
  {
  }

  /** The remap is a quarter turn about the X axis: it keeps X and the squared length,
      and four of them are the identity. */
  lemma ConvertIsQuarterTurn(c: Coord)
    ensures var r := ConvertCoordinate(c, true);
            r.x == c.x && r.x * r.x + r.y * r.y + r.z * r.z == c.x * c.x + c.y * c.y + c.z * c.z
    ensures ConvertCoordinate(ConvertCoordinate(ConvertCoordinate(ConvertCoordinate(c, true), true), true), true) == c
    ensures ConvertCoordinate(ConvertCoordinate(c, true), true) == Coord(c.x, -c.y, -c.z)
  {
  }

  /** The `domain` of a colour attribute as get_poly_color tests it; any other name
      matches no branch. */
  datatype Domain = CornerDomain | VertexDomain | FaceDomain | OtherDomain

  /** The fields of a Blender polygon get_poly_color reads. */
  datatype PolyRef = PolyRef(vertices: seq<nat>, loopStart: nat, index: nat)

  /** The colours of corners `start .. start+n-1` that exist, in order. */
  function CornerColours<C>(colours: seq<C>, start: nat, n: nat): seq<C> {
    if n == 0 then []
    else CornerColours(colours, start, n - 1) + (if start + n - 1 < |colours| then [colours[start + n - 1]] else [])
  }

  /** The colours of the listed vertices that exist, in order. */
  function VertexColours<C>(colours: seq<C>, vs: seq<nat>): seq<C> {
    if vs == [] then []
    else VertexColours(colours, vs[..|vs| - 1]) + (if vs[|vs| - 1] < |colours| then [colours[vs[|vs| - 1]]] else [])
  }

  /** What get_poly_color returns: None without colours or a domain, else the colours
      of the polygon's corners, of its vertices, or of the face, skipping any whose
      index is past the colour list. */
  function PolyColours<C>(poly: PolyRef, colours: seq<C>, domain: Option<Domain>): Option<seq<C>> {
    if colours == [] || domain == None then None
    else Some(match domain.value
      case CornerDomain => CornerColours(colours, poly.loopStart, |poly.vertices|)
      case VertexDomain => VertexColours(colours, poly.vertices)
      case FaceDomain => if poly.index < |colours| then [colours[poly.index]] else []
      case OtherDomain => [])
  }

  /** With every corner present, the corner colours are exactly the polygon's run of
      the colour list; in general there are at most as many as corners. */
  lemma {:induction false} CornerColoursRun<C>(colours: seq<C>, start: nat, n: nat)
    ensures |CornerColours(colours, start, n)| <= n
    ensures start + n <= |colours| ==> CornerColours(colours, start, n) == colours[start..start + n]
  {
    if n > 0 {
      CornerColoursRun(colours, start, n - 1);
    }
  }

  /** There are at most as many vertex colours as vertices. */
  lemma {:induction false} VertexColoursAtMost<C>(colours: seq<C>, vs: seq<nat>)
    ensures |VertexColours(colours, vs)| <= |vs|
  {
    if vs != [] {
      VertexColoursAtMost(colours, vs[..|vs| - 1]);
    }
  }

  /** With every vertex index in range, the vertex colours are the colours of the
      polygon's vertices one for one. */
  lemma {:induction false} VertexColoursOneForOne<C>(colours: seq<C>, vs: seq<nat>)
    requires forall i :: 0 <= i < |vs| ==> vs[i] < |colours|
    ensures |VertexColours(colours, vs)| == |vs|
    ensures forall i :: 0 <= i < |vs| ==> VertexColours(colours, vs)[i] == colours[vs[i]]
  {
    if vs != [] {
      var init := vs[..|vs| - 1];
      var last := vs[|vs| - 1];
      assert forall i :: 0 <= i < |init| ==> init[i] == vs[i];
      VertexColoursOneForOne(colours, init);
      assert VertexColours(colours, vs) == VertexColours(colours, init) + [colours[last]];
    }
  }

  /** get_poly_color (ps1_exporter.py:92-112), building the list by appends. */
  method GetPolyColor<C>(poly: PolyRef, colours: seq<C>, domain: Option<Domain>) returns (r: Option<seq<C>>)
    ensures r == PolyColours(poly, colours, domain)
  {
    if colours == [] || domain == None {
      return None;
    }
    var out: seq<C> := [];
    match domain.value {
      case CornerDomain =>
        var i := 0;
        while i < |poly.vertices|
          invariant 0 <= i <= |poly.vertices|
          invariant out == CornerColours(colours, poly.loopStart, i)
        {
          var idx := poly.loopStart + i;
          if idx < |colours| {
            out := out + [colours[idx]];
          }
          i := i + 1;
        }
        assert PolyColours(poly, colours, domain) == Some(CornerColours(colours, poly.loopStart, |poly.vertices|));
      case VertexDomain =>
        var i := 0;
        while i < |poly.vertices|
          invariant 0 <= i <= |poly.vertices|
          invariant out == VertexColours(colours, poly.vertices[..i])
        {
          var v := poly.vertices[i];
          assert poly.vertices[..i + 1][..i] == poly.vertices[..i];
          if v < |colours| {
            out := out + [colours[v]];
          }
          i := i + 1;
        }
        assert poly.vertices[..|poly.vertices|] == poly.vertices;
        assert PolyColours(poly, colours, domain) == Some(VertexColours(colours, poly.vertices));
      case FaceDomain =>
        if poly.index < |colours| {
          out := [colours[poly.index]];
        }
      case OtherDomain =>
    }
    r := Some(out);
  }

  /** The material properties detect_material_properties reports for a polygon. A
      texture name is a Blender image name, which is never empty, so the truthiness
      test `if texture_name` (ps1_exporter.py:329) is the test for `Some`; an empty
      name, which Python would skip, is not modelled. */
  datatype Props = Props(isLit: bool, isTextured: bool, isSmooth: bool, hasVertexColours: bool,
                         textureName: Option<string>)

  /** One entry of `all_materials`: the properties and the assigned `texture_index`
      (-1 without a texture). */
  datatype FaceMaterial = FaceMaterial(props: Props, textureIndex: int)

  /** A polygon: where its loops start, how many corners it has, its material. */
  datatype MeshPoly = MeshPoly(loopStart: nat, size: nat, props: Props)

  /** A mesh object: its vertex count, each loop's vertex index, its polygons, and
      whether it has an active UV layer. */
  datatype Mesh = Mesh(vertexCount: nat, loops: seq<nat>, polys: seq<MeshPoly>, hasUvLayer: bool)

  /** An entry of `all_uvs`: the object and loop its UV was read from. */
  datatype UvRef = UvRef(obj: nat, loop: nat)

  /** One entry of `all_faces`. */
  datatype Face = Face(vertices: seq<int>, uvs: seq<int>, isTri: bool)

  /** export_model's accumulators: `all_faces`, `all_materials`, `all_uvs`,
      `texture_names`, `texture_name_to_idx`, `vertex_offset` and `uv_offset`. */
  datatype Export = Export(faces: seq<Face>, materials: seq<FaceMaterial>, uvs: seq<UvRef>,
                           textureNames: seq<string>, textureIndex: map<string, int>,
                           vertexOffset: int, uvOffset: int)

  const Start: Export := Export([], [], [], [], map[], 0, 0)

  /** The corner order of an exported face: 0, 2, 1 for a triangle and 3, 2, 0, 1 for a
      quad, which flips the winding. */
  function Corners(size: nat): (order: seq<nat>)
    ensures (size == 3 || size == 4) ==> |order| == size && forall j :: 0 <= j < |order| ==> order[j] < size
  {
    if size == 3 then [0, 2, 1] else [3, 2, 0, 1]
  }

  /** Blender guarantees a polygon's loops exist. */
  predicate WellFormed(m: Mesh) {
    forall p :: p in m.polys ==> p.loopStart + p.size <= |m.loops|
  }

  /** The texture-index step (ps1_exporter.py:329-334): a name not yet in the map gets
      the next index and is appended to `texture_names`. */
  function Register(e: Export, name: string): Export {
    if name in e.textureIndex then e
    else e.(textureIndex := e.textureIndex[name := |e.textureNames|], textureNames := e.textureNames + [name])
  }

  /** The loop body for one polygon (ps1_exporter.py:325-419). The texture name is
      registered before the corner count is looked at, so a polygon that is neither a
      triangle nor a quad can still add a texture name. */
  function AddPoly(e: Export, o: nat, m: Mesh, p: MeshPoly): Export
    requires p.loopStart + p.size <= |m.loops|
  {
    var e1 := if p.props.textureName.Some? then Register(e, p.props.textureName.value) else e;
    if p.size != 3 && p.size != 4 then e1
    else
      var order := Corners(p.size);
      var verts := seq(|order|, j requires 0 <= j < |order| => m.loops[p.loopStart + order[j]] + e.vertexOffset);
      var texIdx := if p.props.textureName.Some? then e1.textureIndex[p.props.textureName.value] else -1;
      var mat := FaceMaterial(p.props, texIdx);
      if m.hasUvLayer then
        var uvIdx := seq(|order|, j => e.uvOffset + j);
        var refs := seq(|order|, j requires 0 <= j < |order| => UvRef(o, p.loopStart + order[j]));
        e1.(faces := e1.faces + [Face(verts, uvIdx, p.size == 3)], materials := e1.materials + [mat],
            uvs := e1.uvs + refs, uvOffset := e1.uvOffset + |order|)
      else
        e1.(faces := e1.faces + [Face(verts, seq(|order|, _ => 0), p.size == 3)], materials := e1.materials + [mat])
  }

  /** The first `n` polygons of object `o`. */
  function AddPolys(e: Export, o: nat, m: Mesh, n: nat): Export
    requires WellFormed(m) && n <= |m.polys|
  {
    if n == 0 then e
    else
      assert m.polys[n - 1] in m.polys;
      AddPoly(AddPolys(e, o, m, n - 1), o, m, m.polys[n - 1])
  }

  /** One object: all its polygons, then `vertex_offset += len(mesh.vertices)`. */
  function AddMesh(e: Export, o: nat, m: Mesh): Export
    requires WellFormed(m)
  {
    var r := AddPolys(e, o, m, |m.polys|);
    r.(vertexOffset := r.vertexOffset + m.vertexCount)
  }

  /** The first `n` objects. */
  function ExportAll(meshes: seq<Mesh>, n: nat): Export
    requires n <= |meshes| && forall i :: 0 <= i < |meshes| ==> WellFormed(meshes[i])
  {
    if n == 0 then Start else AddMesh(ExportAll(meshes, n - 1), n - 1, meshes[n - 1])
  }

  /** One polygon of export_model, on the accumulators. */
  method ExportPoly(e: Export, o: nat, m: Mesh, p: MeshPoly) returns (r: Export)
    requires p.loopStart + p.size <= |m.loops|
    ensures r == AddPoly(e, o, m, p)
  {
    var names, index := e.textureNames, e.textureIndex;
    var texIdx := -1;
    if p.props.textureName.Some? {
      var name := p.props.textureName.value;
      if name !in index {
        index := index[name := |names|];
        names := names + [name];
      }
      texIdx := index[name];
    }
    var ls, vo := p.loopStart, e.vertexOffset;
    var verts: seq<int>;
    var uvIdx: seq<int>;
    var uvs, uvOffset := e.uvs, e.uvOffset;
    if p.size == 3 {
      verts := [m.loops[ls] + vo, m.loops[ls + 2] + vo, m.loops[ls + 1] + vo];
      uvIdx := [0, 0, 0];
      if m.hasUvLayer {
        uvs := uvs + [UvRef(o, ls), UvRef(o, ls + 2), UvRef(o, ls + 1)];
        uvIdx := [uvOffset, uvOffset + 1, uvOffset + 2];
        uvOffset := uvOffset + 3;
      }
    } else if p.size == 4 {
      verts := [m.loops[ls + 3] + vo, m.loops[ls + 2] + vo, m.loops[ls] + vo, m.loops[ls + 1] + vo];
      uvIdx := [0, 0, 0, 0];
      if m.hasUvLayer {
        uvs := uvs + [UvRef(o, ls + 3), UvRef(o, ls + 2), UvRef(o, ls), UvRef(o, ls + 1)];
        uvIdx := [uvOffset, uvOffset + 1, uvOffset + 2, uvOffset + 3];
        uvOffset := uvOffset + 4;
      }
    } else {
      return e.(textureNames := names, textureIndex := index);
    }
    ghost var order := Corners(p.size);
    assert verts == seq(|order|, j requires 0 <= j < |order| => m.loops[p.loopStart + order[j]] + e.vertexOffset);
    assert m.hasUvLayer ==> uvIdx == seq(|order|, j => e.uvOffset + j);
    assert m.hasUvLayer ==> uvs == e.uvs + seq(|order|, j requires 0 <= j < |order| => UvRef(o, p.loopStart + order[j]));
    assert !m.hasUvLayer ==> uvIdx == seq(|order|, _ => 0);
    r := Export(e.faces + [Face(verts, uvIdx, p.size == 3)], e.materials + [FaceMaterial(p.props, texIdx)],
                uvs, names, index, vo, uvOffset);
  }

  /** export_model (ps1_exporter.py:257-424) without the vertex positions and colours:
      the object loop and, inside it, the polygon loop. */
  method ExportModel(meshes: seq<Mesh>) returns (r: Export)
    requires forall i :: 0 <= i < |meshes| ==> WellFormed(meshes[i])
    ensures r == ExportAll(meshes, |meshes|)
  {
    r := Start;
    var o := 0;
    while o < |meshes|
      invariant 0 <= o <= |meshes|
      invariant r == ExportAll(meshes, o)
    {
      var m := meshes[o];
      var before := r;
      var j := 0;
      while j < |m.polys|
        invariant 0 <= j <= |m.polys|
        invariant r == AddPolys(before, o, m, j)
      {
        assert m.polys[j] in m.polys;
        r := ExportPoly(r, o, m, m.polys[j]);
        j := j + 1;
      }
      r := r.(vertexOffset := r.vertexOffset + m.vertexCount);
      o := o + 1;
    }
  }

  /** The exported corner order reverses Blender's winding: a triangle is read 0, 2, 1,
      the reverse cycle of 0, 1, 2; a quad is read in the GPU's strip order, whose
      outline (strip positions 0, 1, 3, 2) is 3, 2, 1, 0, the reverse cycle of 0, 1, 2, 3. */
  lemma WindingReversed()
    ensures forall j :: 0 <= j < 3 ==> Corners(3)[j] == (3 - j) % 3
    ensures var q := Corners(4); [q[0], q[1], q[3], q[2]] == [3, 2, 1, 0]
  {
  }

  /** The texture numbering: entry `i` of `texture_names` maps to `i`, and every key
      of the map is one of the names. */
  predicate TextureNumbering(names: seq<string>, index: map<string, int>) {
    && (forall i :: 0 <= i < |names| ==> names[i] in index && index[names[i]] == i)
    && (forall n :: n in index ==> n in names)
  }

  /** A material's `texture_index` is its name's number, or -1 without a texture. */
  predicate Numbered(mat: FaceMaterial, index: map<string, int>) {
    match mat.props.textureName
    case Some(n) => n in index && mat.textureIndex == index[n]
    case None => mat.textureIndex == -1
  }

  /** What export_model keeps true: one material per face, `uv_offset == len(all_uvs)`,
      and the texture numbering, which every material agrees with. */
  predicate Consistent(e: Export) {
    && |e.faces| == |e.materials|
    && e.uvOffset == |e.uvs|
    && TextureNumbering(e.textureNames, e.textureIndex)
    && forall i :: 0 <= i < |e.materials| ==> Numbered(e.materials[i], e.textureIndex)
  }

  /** Registering a name keeps the numbering and every existing entry. */
  lemma RegisterKeeps(e: Export, name: string)
    requires TextureNumbering(e.textureNames, e.textureIndex)
    ensures var r := Register(e, name);
            TextureNumbering(r.textureNames, r.textureIndex) && name in r.textureIndex
            && (forall n :: n in e.textureIndex ==> n in r.textureIndex && r.textureIndex[n] == e.textureIndex[n])
            && r.textureNames == (if name in e.textureNames then e.textureNames else e.textureNames + [name])
  {
    if name !in e.textureIndex {
      var r := Register(e, name);
      forall i | 0 <= i < |r.textureNames|
        ensures r.textureNames[i] in r.textureIndex && r.textureIndex[r.textureNames[i]] == i
      {
        if i < |e.textureNames| {
          assert r.textureNames[i] == e.textureNames[i];
        }
      }
    }
  }

  /** Registering a name keeps the export consistent. */
  lemma RegisterConsistent(e: Export, name: string)
    requires Consistent(e)
    ensures Consistent(Register(e, name)) && name in Register(e, name).textureIndex
  {
    var r := Register(e, name);
    RegisterKeeps(e, name);
    forall i | 0 <= i < |r.materials|
      ensures Numbered(r.materials[i], r.textureIndex)
    {
      assert Numbered(e.materials[i], e.textureIndex);
    }
  }

  /** Adding a face with a material numbered like the export, and as many uv
      references as the offset advances, keeps the export consistent. */
  lemma AppendConsistent(e: Export, f: Face, mat: FaceMaterial, refs: seq<UvRef>)
    requires Consistent(e) && Numbered(mat, e.textureIndex)
    ensures Consistent(e.(faces := e.faces + [f], materials := e.materials + [mat],
                          uvs := e.uvs + refs, uvOffset := e.uvOffset + |refs|))
  {
  }

  /** One polygon keeps the export consistent. */
  lemma AddPolyConsistent(e: Export, o: nat, m: Mesh, p: MeshPoly)
    requires p.loopStart + p.size <= |m.loops| && Consistent(e)
    ensures Consistent(AddPoly(e, o, m, p))
  {
    var e1 := if p.props.textureName.Some? then Register(e, p.props.textureName.value) else e;
    assert Consistent(e1) by {
      if p.props.textureName.Some? {
        RegisterConsistent(e, p.props.textureName.value);
      }
    }
    if p.size == 3 || p.size == 4 {
      var order := Corners(p.size);
      var verts := seq(|order|, j requires 0 <= j < |order| => m.loops[p.loopStart + order[j]] + e.vertexOffset);
      var texIdx := if p.props.textureName.Some? then e1.textureIndex[p.props.textureName.value] else -1;
      var mat := FaceMaterial(p.props, texIdx);
      assert Numbered(mat, e1.textureIndex);
      if m.hasUvLayer {
        var uvIdx := seq(|order|, j => e.uvOffset + j);
        var refs := seq(|order|, j requires 0 <= j < |order| => UvRef(o, p.loopStart + order[j]));
        AppendConsistent(e1, Face(verts, uvIdx, p.size == 3), mat, refs);
      } else {
        AppendConsistent(e1, Face(verts, seq(|order|, _ => 0), p.size == 3), mat, []);
        assert e1.uvs + [] == e1.uvs;
      }
    }
  }

  /** The first `n` polygons keep the export consistent and leave `vertex_offset` and
      the faces already exported alone. */
  lemma {:induction false} AddPolysConsistent(e: Export, o: nat, m: Mesh, n: nat)
    requires WellFormed(m) && n <= |m.polys| && Consistent(e)
    ensures var r := AddPolys(e, o, m, n);
            Consistent(r) && r.vertexOffset == e.vertexOffset
            && |e.faces| <= |r.faces| && forall k :: 0 <= k < |e.faces| ==> r.faces[k] == e.faces[k]
  {
    if n > 0 {
      AddPolysConsistent(e, o, m, n - 1);
      assert m.polys[n - 1] in m.polys;
      AddPolyConsistent(AddPolys(e, o, m, n - 1), o, m, m.polys[n - 1]);
    }
  }

  /** The total number of vertices of the first `n` objects. */
  function VertexTotal(meshes: seq<Mesh>, n: nat): nat
    requires n <= |meshes|
  {
    if n == 0 then 0 else VertexTotal(meshes, n - 1) + meshes[n - 1].vertexCount
  }

  /** After any number of objects the export is consistent and `vertex_offset` is the
      number of vertices exported so far. */
  lemma {:induction false} ExportConsistent(meshes: seq<Mesh>, n: nat)
    requires n <= |meshes| && forall i :: 0 <= i < |meshes| ==> WellFormed(meshes[i])
    ensures Consistent(ExportAll(meshes, n)) && ExportAll(meshes, n).vertexOffset == VertexTotal(meshes, n)
  {
    if n > 0 {
      ExportConsistent(meshes, n - 1);
      AddPolysConsistent(ExportAll(meshes, n - 1), n - 1, meshes[n - 1], |meshes[n - 1].polys|);
    }
  }

  /** `face_texture_idx` is right: a textured face's index names its own texture in
      `texture_names`, so two faces with the same texture get the same index; an
      untextured face gets -1. */
  lemma TextureIndexNamesTexture(meshes: seq<Mesh>, i: int, j: int)
    requires forall k :: 0 <= k < |meshes| ==> WellFormed(meshes[k])
    requires 0 <= i < |ExportAll(meshes, |meshes|).materials| && 0 <= j < |ExportAll(meshes, |meshes|).materials|
    ensures var r := ExportAll(meshes, |meshes|);
            var mi := r.materials[i];
            (mi.props.textureName.Some? ==> 0 <= mi.textureIndex < |r.textureNames| && r.textureNames[mi.textureIndex] == mi.props.textureName.value)
            && (mi.props.textureName.None? ==> mi.textureIndex == -1)
            && (mi.props.textureName.Some? && mi.props.textureName == r.materials[j].props.textureName ==> mi.textureIndex == r.materials[j].textureIndex)
  {
    ExportConsistent(meshes, |meshes|);
    var r := ExportAll(meshes, |meshes|);
    var mi := r.materials[i];
    assert Numbered(mi, r.textureIndex) && Numbered(r.materials[j], r.textureIndex);
    if mi.props.textureName.Some? {
      var n := mi.props.textureName.value;
      var k :| 0 <= k < |r.textureNames| && r.textureNames[k] == n;
    }
  }

  /** A polygon's contribution to the texture-name stream. */
  function NameOf(p: MeshPoly): seq<string> {
    if p.props.textureName.Some? then [p.props.textureName.value] else []
  }

  /** The texture names of the first `n` polygons, in order, repeats included. */
  function PolyNames(m: Mesh, n: nat): seq<string>
    requires n <= |m.polys|
  {
    if n == 0 then [] else PolyNames(m, n - 1) + NameOf(m.polys[n - 1])
  }

  /** The texture names of the first `n` objects' polygons, in order. */
  function MeshNames(meshes: seq<Mesh>, n: nat): seq<string>
    requires n <= |meshes|
  {
    if n == 0 then [] else MeshNames(meshes, n - 1) + PolyNames(meshes[n - 1], |meshes[n - 1].polys|)
  }

  /** `acc` extended by the names of `s` not seen before, each at its first occurrence. */
  function FirstSeenFrom(acc: seq<string>, s: seq<string>): seq<string> {
    if s == [] then acc
    else
      var prev := FirstSeenFrom(acc, s[..|s| - 1]);
      if s[|s| - 1] in prev then prev else prev + [s[|s| - 1]]
  }

  /** Folding over `a + b` is folding over `a`, then over `b`. */
  lemma {:induction false} FirstSeenAppend(acc: seq<string>, a: seq<string>, b: seq<string>)
    ensures FirstSeenFrom(acc, a + b) == FirstSeenFrom(FirstSeenFrom(acc, a), b)
  {
    if b != [] {
      assert (a + b)[..|a + b| - 1] == a + b[..|b| - 1];
      FirstSeenAppend(acc, a, b[..|b| - 1]);
    } else {
      assert a + b == a;
    }
  }

  /** The first-seen list has no repeats and holds exactly the names of `acc` and `s`. */
  lemma {:induction false} FirstSeenDistinct(acc: seq<string>, s: seq<string>)
    requires forall i, j :: 0 <= i < j < |acc| ==> acc[i] != acc[j]
    ensures var r := FirstSeenFrom(acc, s);
            (forall i, j :: 0 <= i < j < |r| ==> r[i] != r[j])
            && (forall n :: n in r <==> n in acc || n in s)
  {
    if s != [] {
      FirstSeenDistinct(acc, s[..|s| - 1]);
      assert forall n :: n in s <==> n in s[..|s| - 1] || n == s[|s| - 1] by {
        assert s == s[..|s| - 1] + [s[|s| - 1]];
      }
    }
  }

  /** One polygon registers its texture name, if any, exactly as the first-seen fold
      takes one more name. */
  lemma AddPolyFirstSeen(e: Export, o: nat, m: Mesh, p: MeshPoly, acc: seq<string>, names: seq<string>)
    requires p.loopStart + p.size <= |m.loops| && Consistent(e)
    requires e.textureNames == FirstSeenFrom(acc, names)
    ensures AddPoly(e, o, m, p).textureNames == FirstSeenFrom(acc, names + NameOf(p))
  {
    var e1 := if p.props.textureName.Some? then Register(e, p.props.textureName.value) else e;
    assert AddPoly(e, o, m, p).textureNames == e1.textureNames;
    if p.props.textureName.Some? {
      RegisterKeeps(e, p.props.textureName.value);
      assert (names + NameOf(p))[..|names + NameOf(p)| - 1] == names;
    } else {
      assert names + NameOf(p) == names;
    }
  }

  /** The polygon loop numbers textures in first-seen order. */
  lemma {:induction false} AddPolysFirstSeen(e: Export, o: nat, m: Mesh, n: nat)
    requires WellFormed(m) && n <= |m.polys| && Consistent(e)
    ensures AddPolys(e, o, m, n).textureNames == FirstSeenFrom(e.textureNames, PolyNames(m, n))
  {
    if n > 0 {
      var prev := AddPolys(e, o, m, n - 1);
      var p := m.polys[n - 1];
      assert p in m.polys;
      assert prev.textureNames == FirstSeenFrom(e.textureNames, PolyNames(m, n - 1)) by {
        AddPolysFirstSeen(e, o, m, n - 1);
      }
      assert Consistent(prev) by {
        AddPolysConsistent(e, o, m, n - 1);
      }
      AddPolyFirstSeen(prev, o, m, p, e.textureNames, PolyNames(m, n - 1));
      assert AddPolys(e, o, m, n) == AddPoly(prev, o, m, p);
      assert PolyNames(m, n) == PolyNames(m, n - 1) + NameOf(p);
    }
  }

  /** `texture_names` after the export is every texture name of every polygon of every
      object, in the order first seen, without repeats. */
  lemma {:induction false} TextureNamesFirstSeen(meshes: seq<Mesh>, n: nat)
    requires n <= |meshes| && forall i :: 0 <= i < |meshes| ==> WellFormed(meshes[i])
    ensures ExportAll(meshes, n).textureNames == FirstSeenFrom([], MeshNames(meshes, n))
  {
    if n > 0 {
      var prev := ExportAll(meshes, n - 1);
      var m := meshes[n - 1];
      TextureNamesFirstSeen(meshes, n - 1);
      ExportConsistent(meshes, n - 1);
      AddPolysFirstSeen(prev, n - 1, m, |m.polys|);
      FirstSeenAppend([], MeshNames(meshes, n - 1), PolyNames(m, |m.polys|));
      assert ExportAll(meshes, n).textureNames == AddPolys(prev, n - 1, m, |m.polys|).textureNames;
    }
  }

  /** Every loop's vertex index is one of the object's vertices. */
  predicate LoopsInRange(m: Mesh) {
    forall l :: l in m.loops ==> l < m.vertexCount
  }

  /** The face one polygon adds refers only to the object's vertices, and the faces
      already exported stay as they were. */
  lemma AddPolyVerticesInRange(e: Export, o: nat, m: Mesh, p: MeshPoly)
    requires WellFormed(m) && LoopsInRange(m) && p in m.polys && Consistent(e)
    ensures var r := AddPoly(e, o, m, p);
            |e.faces| <= |r.faces| && (forall k :: 0 <= k < |e.faces| ==> r.faces[k] == e.faces[k])
            && forall k, v :: |e.faces| <= k < |r.faces| && v in r.faces[k].vertices ==>
                 e.vertexOffset <= v < e.vertexOffset + m.vertexCount
  {
    if p.size == 3 || p.size == 4 {
      var order := Corners(p.size);
      forall j | 0 <= j < |order|
        ensures m.loops[p.loopStart + order[j]] < m.vertexCount
      {
        assert m.loops[p.loopStart + order[j]] in m.loops;
      }
    }
  }

  /** The faces the polygon loop adds for an object refer only to that object's
      vertices, which sit at `vertex_offset .. vertex_offset + vertexCount - 1`: before
      all later objects' vertices and after all earlier ones. */
  lemma {:induction false} AddPolysVerticesInRange(e: Export, o: nat, m: Mesh, n: nat)
    requires WellFormed(m) && LoopsInRange(m) && n <= |m.polys| && Consistent(e)
    ensures var r := AddPolys(e, o, m, n);
            forall k, v :: |e.faces| <= k < |r.faces| && v in r.faces[k].vertices ==>
              e.vertexOffset <= v < e.vertexOffset + m.vertexCount
  {
    if n > 0 {
      var prev := AddPolys(e, o, m, n - 1);
      var p := m.polys[n - 1];
      var r := AddPolys(e, o, m, n);
      assert p in m.polys;
      assert r == AddPoly(prev, o, m, p);
      AddPolysVerticesInRange(e, o, m, n - 1);
      AddPolysConsistent(e, o, m, n - 1);
      AddPolyVerticesInRange(prev, o, m, p);
    }
  }

  /** With a UV layer, the UV indices of the face a triangle or quad adds are the next
      consecutive ones, and UV `j` of the face was read from the same loop as vertex
      `j`; without one, the indices are all 0 and no UV is added. */
  lemma AddPolyUvs(e: Export, o: nat, m: Mesh, p: MeshPoly)
    requires p.loopStart + p.size <= |m.loops| && Consistent(e) && (p.size == 3 || p.size == 4)
    ensures var r := AddPoly(e, o, m, p);
            var f := r.faces[|r.faces| - 1];
            |r.faces| == |e.faces| + 1 && |f.vertices| == |f.uvs| == p.size && f.isTri == (p.size == 3)
            && (m.hasUvLayer ==> r.uvOffset == e.uvOffset + p.size && forall j :: 0 <= j < p.size ==>
                  f.uvs[j] == e.uvOffset + j && r.uvs[f.uvs[j]].obj == o
                  && f.vertices[j] == m.loops[r.uvs[f.uvs[j]].loop] + e.vertexOffset)
            && (!m.hasUvLayer ==> r.uvs == e.uvs && r.uvOffset == e.uvOffset && forall j :: 0 <= j < p.size ==> f.uvs[j] == 0)
  {
  }
}
