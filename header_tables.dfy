/** The tables write_header_file (ps1_exporter.py:426-567) emits from export_model's
    records: the material-flag byte of each face, the triangle and quad index tables,
    the per-face texture index and the `TEXTURE_<name>` defines. The C text itself
    (number formatting, comments, the cleaned define names) is not modelled; each table
    is the sequence of its rows.

    Two of the tables as written disagree with their readers (see README, "Findings"):
    `material_flags` keeps the exporter's face order although the renderer reads it
    triangles first, and the defines number the texture names in sorted order
    although `face_texture_idx` numbers them in first-seen order. The `...AsWritten`
    members model the code as it is; WriteTables uses the corrected tables. */
module HeaderTables {
  import opened Types
  import opened Gpu
  import opened Material
  import opened Model
  import opened Exporter

  /** The flag byte of one material (ps1_exporter.py:534-543): bit 0 unlit, bit 1
      textured, bit 2 smooth, bit 3 vertex-coloured. */
  function FlagsOf(p: Props): Flags {
    var f: Flags := 0;
    var f := if !p.isLit then f | 1 else f;
    var f := if p.isTextured then f | 2 else f;
    var f := if p.isSmooth then f | 4 else f;
    if p.hasVertexColours then f | 8 else f
  }

  /** Each bit the exporter sets means what the renderer's MAT_FLAG_ constants say it
      means, and the renderer's alpha, cutout, specular and metallic bits are never
      set; so the shape the renderer picks is the one the material asks for. */
  lemma FlagsAgreeWithRenderer(p: Props)
    ensures Has(FlagsOf(p), UNLIT) <==> !p.isLit
    ensures Has(FlagsOf(p), TEXTURED) <==> p.isTextured
    ensures Has(FlagsOf(p), SMOOTH) <==> p.isSmooth
    ensures Has(FlagsOf(p), VERTEX_COLOR) <==> p.hasVertexColours
    ensures FlagsOf(p) & 0xF0 == 0
    ensures !Has(FlagsOf(p), ALPHA) && !Has(FlagsOf(p), CUTOUT) && !Has(FlagsOf(p), SPECULAR) && !Has(FlagsOf(p), METALLIC)
    ensures ShapeOf(FlagsOf(p)) == (if p.isTextured then (if p.isSmooth then GT else FT) else (if p.isSmooth then G else F))
  {
  }

  /** An exported face with its material: `all_faces[i]` beside `all_materials[i]`. */
  datatype Entry = Entry(face: Face, mat: FaceMaterial)

  /** The two lists side by side. */
  function Entries(faces: seq<Face>, mats: seq<FaceMaterial>): (r: seq<Entry>)
    requires |faces| == |mats|
    ensures |r| == |faces| && forall i :: 0 <= i < |r| ==> r[i] == Entry(faces[i], mats[i])
  {
    seq(|faces|, i requires 0 <= i < |faces| => Entry(faces[i], mats[i]))
  }

  /** The entries whose face is (`tri`) or is not (`!tri`) a triangle, in order. */
  function OfKind(es: seq<Entry>, tri: bool): seq<Entry> {
    if es == [] then []
    else OfKind(es[..|es| - 1], tri) + (if es[|es| - 1].face.isTri == tri then [es[|es| - 1]] else [])
  }

  /** `tri_count`, `sum(1 for f in faces if f['is_tri'])`. */
  function TriCount(es: seq<Entry>): nat {
    if es == [] then 0 else TriCount(es[..|es| - 1]) + (if es[|es| - 1].face.isTri then 1 else 0)
  }

  /** The triangle and quad tables split the faces: `tri_count` triangles,
      `len(faces) - tri_count` quads, and together exactly the exported entries. */
  lemma {:induction false} KindsPartition(es: seq<Entry>)
    ensures |OfKind(es, true)| == TriCount(es) && |OfKind(es, false)| == |es| - TriCount(es)
    ensures multiset(OfKind(es, true) + OfKind(es, false)) == multiset(es)
  {
    if es != [] {
      var init := es[..|es| - 1];
      var last := es[|es| - 1];
      KindsPartition(init);
      assert es == init + [last];
      assert multiset(es) == multiset(init) + multiset{last};
    }
  }

  /** Each table holds the entries of its kind and no others. */
  lemma {:induction false} KindsMembers(es: seq<Entry>, tri: bool)
    ensures forall e :: e in OfKind(es, tri) <==> e in es && e.face.isTri == tri
  {
    if es != [] {
      var init := es[..|es| - 1];
      KindsMembers(init, tri);
      assert es == init + [es[|es| - 1]];
    }
  }

  /** A table's rows: one per entry, taken from the face or its material. */
  function VertexRows(es: seq<Entry>): (r: seq<seq<int>>)
    ensures |r| == |es| && forall i :: 0 <= i < |es| ==> r[i] == es[i].face.vertices
  {
    seq(|es|, i requires 0 <= i < |es| => es[i].face.vertices)
  }

  function UvRows(es: seq<Entry>): (r: seq<seq<int>>)
    ensures |r| == |es| && forall i :: 0 <= i < |es| ==> r[i] == es[i].face.uvs
  {
    seq(|es|, i requires 0 <= i < |es| => es[i].face.uvs)
  }

  function FlagRows(es: seq<Entry>): (r: seq<Flags>)
    ensures |r| == |es| && forall i :: 0 <= i < |es| ==> r[i] == FlagsOf(es[i].mat.props)
  {
    seq(|es|, i requires 0 <= i < |es| => FlagsOf(es[i].mat.props))
  }

  /** `material_flags` as written (ps1_exporter.py:534-544): in the exporter's face
      order. */
  function MaterialFlagsAsWritten(es: seq<Entry>): seq<Flags> {
    FlagRows(es)
  }

  /** `material_flags` as the renderer reads it: the triangles' flags, then the
      quads'. */
  function MaterialFlags(es: seq<Entry>): seq<Flags> {
    FlagRows(OfKind(es, true)) + FlagRows(OfKind(es, false))
  }

  /** The header's tables. `triUvs`/`quadUvs` are empty when there are no UVs. */
  datatype Header = Header(triFaces: seq<seq<int>>, triUvs: seq<seq<int>>,
                           quadFaces: seq<seq<int>>, quadUvs: seq<seq<int>>,
                           faceTextureIdx: seq<int>, materialFlags: seq<Flags>,
                           defines: seq<Define>)

  /** `#define TEXTURE_<name> <number>`, with the name before cleaning. */
  datatype Define = Define(name: string, number: int)

  /** The fields of ModelData the header provides; the rest are empty. */
  function AsModelData(h: Header): ModelData {
    ModelData(|h.triFaces|, |h.quadFaces|, h.triFaces, h.triUvs, h.quadFaces, h.quadUvs,
              [], [], h.materialFlags, [], None, None, None, 0)
  }

  /** The header with the flag table as written. */
  function HeaderAsWritten(es: seq<Entry>, hasUvs: bool, names: seq<string>): Header {
    Header(VertexRows(OfKind(es, true)), if hasUvs then UvRows(OfKind(es, true)) else [],
           VertexRows(OfKind(es, false)), if hasUvs then UvRows(OfKind(es, false)) else [],
           seq(|es|, i requires 0 <= i < |es| => es[i].mat.textureIndex), MaterialFlagsAsWritten(es),
           DefinesAsWritten(names))
  }

  /** The header with the corrected flag table and defines. */
  function HeaderSpec(es: seq<Entry>, hasUvs: bool, names: seq<string>): Header {
    Header(VertexRows(OfKind(es, true)), if hasUvs then UvRows(OfKind(es, true)) else [],
           VertexRows(OfKind(es, false)), if hasUvs then UvRows(OfKind(es, false)) else [],
           seq(|es|, i requires 0 <= i < |es| => es[i].mat.textureIndex), MaterialFlags(es),
           Defines(names))
  }

  /** With the corrected table, the renderer reads triangle `k`'s flags from the
      material of the polygon whose vertices it draws as triangle `k`, and likewise
      for quad `k` at `tri_count + k`. */
  lemma RendererReadsOwnFlags(es: seq<Entry>, hasUvs: bool, names: seq<string>, k: int)
    ensures var md := AsModelData(HeaderSpec(es, hasUvs, names));
            var tris := OfKind(es, true);
            var quads := OfKind(es, false);
            (0 <= k < |tris| ==> FaceVerts(md, Tri, k) == tris[k].face.vertices && FaceFlags(md, Tri, k) == FlagsOf(tris[k].mat.props))
            && (0 <= k < |quads| ==> FaceVerts(md, Quad, k) == quads[k].face.vertices && FaceFlags(md, Quad, k) == FlagsOf(quads[k].mat.props))
  {
  }

  /** Finding: with the table as written, a quad textured and a triangle untextured,
      exported in that order, make the renderer draw the triangle with the quad's
      flags (textured). */
  lemma FlagsAsWrittenMisread()
    ensures var quad := Entry(Face([3, 2, 0, 1], [0, 0, 0, 0], false), FaceMaterial(Props(true, true, false, false, None), -1));
            var tri := Entry(Face([4, 6, 5], [0, 0, 0], true), FaceMaterial(Props(true, false, false, false, None), -1));
            var md := AsModelData(HeaderAsWritten([quad, tri], false, []));
            FaceVerts(md, Tri, 0) == tri.face.vertices
            && FaceFlags(md, Tri, 0) == FlagsOf(quad.mat.props) != FlagsOf(tri.mat.props)
            && Has(FaceFlags(md, Tri, 0), TEXTURED) && !tri.mat.props.isTextured
  {
    var quad := Entry(Face([3, 2, 0, 1], [0, 0, 0, 0], false), FaceMaterial(Props(true, true, false, false, None), -1));
    var tri := Entry(Face([4, 6, 5], [0, 0, 0], true), FaceMaterial(Props(true, false, false, false, None), -1));
    var es := [quad, tri];
    assert es[..1] == [quad] && [quad][..0] == [];
    assert OfKind([quad], true) == [];
    assert OfKind(es, true) == [tri];
  }

  /** Python's string order: code point by code point, a proper prefix first. */
  predicate StrLess(a: string, b: string) {
    if a == [] then b != []
    else if b == [] then false
    else if a[0] != b[0] then a[0] < b[0]
    else StrLess(a[1..], b[1..])
  }

  /** `sorted(names)`, by insertion. */
  function SortNames(names: seq<string>): (r: seq<string>)
    ensures multiset(r) == multiset(names)
  {
    if names == [] then []
    else
      assert names == [names[0]] + names[1..];
      InsertName(names[0], SortNames(names[1..]))
  }

  function InsertName(n: string, s: seq<string>): (r: seq<string>)
    ensures multiset(r) == multiset(s) + multiset{n}
  {
    if s == [] || !StrLess(s[0], n) then [n] + s
    else
      assert s == [s[0]] + s[1..];
      [s[0]] + InsertName(n, s[1..])
  }

  /** The defines as written (ps1_exporter.py:472-476): the `i`-th name in sorted
      order gets `i`. */
  function DefinesAsWritten(names: seq<string>): seq<Define> {
    var sorted := SortNames(names);
    seq(|sorted|, i requires 0 <= i < |sorted| => Define(sorted[i], i))
  }

  /** The defines numbered as `face_texture_idx` numbers textures: the `i`-th name in
      first-seen order gets `i`. */
  function Defines(names: seq<string>): (r: seq<Define>)
    ensures |r| == |names|
  {
    seq(|names|, i requires 0 <= i < |names| => Define(names[i], i))
  }

  /** The number the first define for `name` gives it, if any. */
  function DefineFor(ds: seq<Define>, name: string): Option<int> {
    if ds == [] then None
    else if ds[0].name == name then Some(ds[0].number)
    else DefineFor(ds[1..], name)
  }

  /** With the exporter's numbering, the corrected defines give every texture of every
      face the same number `face_texture_idx` gives it. */
  lemma {:induction false} DefinesMatchTextureIndex(names: seq<string>, index: map<string, int>, name: string)
    requires TextureNumbering(names, index) && name in index
    ensures DefineFor(Defines(names), name) == Some(index[name])
  {
    var k :| 0 <= k < |names| && names[k] == name;
    DefineForAt(Defines(names), k, name);
  }

  /** When `name` first appears at position `k`, DefineFor finds entry `k`. */
  lemma {:induction false} DefineForAt(ds: seq<Define>, k: int, name: string)
    requires 0 <= k < |ds| && ds[k].name == name && forall j :: 0 <= j < k ==> ds[j].name != name
    ensures DefineFor(ds, name) == Some(ds[k].number)
  {
    if k > 0 {
      DefineForAt(ds[1..], k - 1, name);
    }
  }

  /** Finding: with texture names first seen as "b", then "a", a face textured with
      "b" has `face_texture_idx` 0 but `TEXTURE_B` is defined as 1. */
  lemma DefinesAsWrittenMisnumber()
    ensures var names := ["b", "a"];
            var index := map["b" := 0, "a" := 1];
            TextureNumbering(names, index)
            && DefineFor(DefinesAsWritten(names), "b") == Some(1) != Some(index["b"])
  {
    assert StrLess("a", "b");
    assert SortNames(["a"]) == ["a"];
    assert SortNames(["b", "a"]) == InsertName("b", ["a"]) == ["a", "b"];
    assert DefinesAsWritten(["b", "a"]) == [Define("a", 0), Define("b", 1)];
  }

  /** One of the four index-table loops (ps1_exporter.py:493-520): the vertex or UV
      rows of the faces of one kind, appended in face order. */
  method CollectRows(es: seq<Entry>, tri: bool, uvs: bool) returns (rows: seq<seq<int>>)
    ensures rows == if uvs then UvRows(OfKind(es, tri)) else VertexRows(OfKind(es, tri))
  {
    rows := [];
    var i := 0;
    while i < |es|
      invariant 0 <= i <= |es|
      invariant rows == if uvs then UvRows(OfKind(es[..i], tri)) else VertexRows(OfKind(es[..i], tri))
    {
      assert es[..i + 1][..i] == es[..i];
      if es[i].face.isTri == tri {
        rows := rows + [if uvs then es[i].face.uvs else es[i].face.vertices];
      }
      i := i + 1;
    }
    assert es[..|es|] == es;
  }

  /** The flag loop (ps1_exporter.py:534-552), over the entries in the order given. */
  method CollectFlags(es: seq<Entry>) returns (flags: seq<Flags>)
    ensures flags == FlagRows(es)
  {
    flags := [];
    var i := 0;
    while i < |es|
      invariant 0 <= i <= |es|
      invariant flags == FlagRows(es[..i])
    {
      var p := es[i].mat.props;
      var f: Flags := 0;
      if !p.isLit { f := f | 1; }
      if p.isTextured { f := f | 2; }
      if p.isSmooth { f := f | 4; }
      if p.hasVertexColours { f := f | 8; }
      flags := flags + [f];
      i := i + 1;
    }
  }

  /** The `face_texture_idx` loop (ps1_exporter.py:526-527). */
  method CollectTextureIdx(es: seq<Entry>) returns (idx: seq<int>)
    ensures idx == seq(|es|, i requires 0 <= i < |es| => es[i].mat.textureIndex)
  {
    idx := [];
    var i := 0;
    while i < |es|
      invariant 0 <= i <= |es|
      invariant idx == seq(i, j requires 0 <= j < i => es[j].mat.textureIndex)
    {
      idx := idx + [es[i].mat.textureIndex];
      i := i + 1;
    }
  }

  /** The defines loop (ps1_exporter.py:472-476) numbering names in the given order. */
  method CollectDefines(names: seq<string>) returns (defines: seq<Define>)
    ensures defines == Defines(names)
  {
    defines := [];
    var i := 0;
    while i < |names|
      invariant 0 <= i <= |names|
      invariant defines == seq(i, j requires 0 <= j < i => Define(names[j], j))
    {
      defines := defines + [Define(names[i], i)];
      i := i + 1;
    }
  }

  /** write_header_file's tables, with the flags grouped triangles first and the
      defines in first-seen order. */
  method WriteTables(faces: seq<Face>, mats: seq<FaceMaterial>, hasUvs: bool, names: seq<string>) returns (h: Header)
    requires |faces| == |mats|
    ensures h == HeaderSpec(Entries(faces, mats), hasUvs, names)
  {
    var es := Entries(faces, mats);
    var triFaces := CollectRows(es, true, false);
    var triUvs: seq<seq<int>> := [];
    if hasUvs {
      triUvs := CollectRows(es, true, true);
    }
    var quadFaces := CollectRows(es, false, false);
    var quadUvs: seq<seq<int>> := [];
    if hasUvs {
      quadUvs := CollectRows(es, false, true);
    }
    var texIdx := CollectTextureIdx(es);
    var triFlags := CollectFlags(OfKind(es, true));
    var quadFlags := CollectFlags(OfKind(es, false));
    var defines := CollectDefines(names);
    h := Header(triFaces, triUvs, quadFaces, quadUvs, texIdx, triFlags + quadFlags, defines);
  }
}
