/** The per-face primitive builder of examples/psyq/lib/model.c: for every triangle and
    quad it reads the face's material flags, picks one of four shapes, asks the GTE for
    a depth key, drops the face unless `0 < otz < ot_length`, fills colours (straight
    from the data when unlit, through NormalColorCol and the specular and metallic
    passes when lit), links the record into bucket `otz` and advances the arena cursor
    `nextpri` by the record's size.

    The C code checks none of the indices it reads with; an index outside its array is
    undefined behaviour there. The model reads every array through `At`, which gives
    a fixed default outside the array, so every function here is total and agrees with
    the C code on all in-range data. */
module Model {
  import opened Types
  import opened Gpu
  import opened Material
  import opened Shading

  /** ModelData (examples/psyq/lib/model.h:13-28). A null `specular` or `metallic`
      pointer is None. `meshIds` and `visibleMeshes` are carried but never read. */
  datatype ModelData = ModelData(
    triCount: int,
    quadCount: int,
    triFaces: seq<seq<int>>,
    triUvs: seq<seq<int>>,
    quadFaces: seq<seq<int>>,
    quadUvs: seq<seq<int>>,
    uvs: seq<Svec>,
    normals: seq<Svec>,
    materialFlags: seq<Flags>,
    vertexColors: seq<Rgb>,
    specular: Option<seq<byte>>,
    metallic: Option<seq<byte>>,
    meshIds: Option<seq<byte>>,
    visibleMeshes: int)

  /** What RotAverage3/RotAverage4 return: the depth key and the projected points. */
  datatype Projection = Projection(otz: int, xy: seq<ScreenXY>)

  /** The GTE and lighting library calls, as functions the model does not interpret. */
  datatype Gte = Gte(
    rotAverage3: (Svec, Svec, Svec) -> Projection,
    rotAverage4: (Svec, Svec, Svec, Svec) -> Projection,
    normalColorCol: (Svec, Rgb) -> Rgb)

  /** The arguments renderModel passes down, except the cursor and the table. */
  datatype Env = Env(verts: seq<Svec>, model: ModelData, gte: Gte, otLength: int,
                     tpage: ushort, clut: ushort)

  /** The arena cursor (`nextpri`, a byte offset) and the ordering table. */
  datatype DrawState = DrawState(cursor: int, ot: seq<Bucket>)

  /** `s[i]`, or `d` when `i` is outside `s`. */
  function At<T>(s: seq<T>, i: int, d: T): (r: T)
    ensures 0 <= i < |s| ==> r == s[i]
    ensures !(0 <= i < |s|) ==> r == d
  {
    if 0 <= i < |s| then s[i] else d
  }

  function FaceCount(m: ModelData, k: Kind): int {
    if k == Tri then m.triCount else m.quadCount
  }

  /** The vertex indices of face `i` of kind `k`. */
  function FaceVerts(m: ModelData, k: Kind, i: int): seq<int> {
    At(if k == Tri then m.triFaces else m.quadFaces, i, [])
  }

  /** The UV indices of face `i` of kind `k`. */
  function FaceUvs(m: ModelData, k: Kind, i: int): seq<int> {
    At(if k == Tri then m.triUvs else m.quadUvs, i, [])
  }

  /** The index of face `i` of kind `k` in `material_flags`, `specular` and `metallic`:
      triangles use `i`, quads `tri_count + i` (model.c:111, 388-391). */
  function Slot(m: ModelData, k: Kind, i: int): int {
    if k == Tri then i else m.triCount + i
  }

  function FaceFlags(m: ModelData, k: Kind, i: int): Flags {
    At(m.materialFlags, Slot(m, k, i), 0)
  }

  /** The vertices whose colour and normal are read: all of them for a Gouraud shape,
      vertex 0 only for a flat one. */
  function UsedVerts(f: Flags, vs: seq<int>): (u: seq<int>)
    ensures Has(f, SMOOTH) ==> u == vs
    ensures !Has(f, SMOOTH) && |vs| > 0 ==> u == [vs[0]]
  {
    if Has(f, SMOOTH) || vs == [] then vs else vs[..1]
  }

  /** The colour a lighting computation starts from: the vertex colour when the
      VertexColor bit is set, else flat grey. */
  function BaseColour(m: ModelData, f: Flags, v: int): Rgb {
    if Has(f, VERTEX_COLOR) then At(m.vertexColors, v, Grey) else Grey
  }

  /** Whether the specular pass runs: its bit is set and the array is present. */
  predicate SpecularOn(m: ModelData, f: Flags) {
    Has(f, SPECULAR) && m.specular.Some?
  }

  /** Whether the metallic pass runs: its bit is set and the array is present. */
  predicate MetallicOn(m: ModelData, f: Flags) {
    Has(f, METALLIC) && m.metallic.Some?
  }

  /** A lit vertex: NormalColorCol, then the specular pass, then the metallic pass. */
  function LitColour(m: ModelData, gte: Gte, f: Flags, v: int, slot: int): Rgb {
    var n := At(m.normals, v, Svec(0, 0, 0));
    var c := gte.normalColorCol(n, BaseColour(m, f, v));
    var c' := if SpecularOn(m, f) then ApplySpecular(c, n, At(m.specular.value, slot, 0)) else c;
    if MetallicOn(m, f) then ApplyMetallic(c', n, At(m.metallic.value, slot, 0)) else c'
  }

  /** The colour written for one vertex of a face. */
  function VertexColour(m: ModelData, gte: Gte, f: Flags, v: int, slot: int): Rgb {
    if Has(f, UNLIT) then BaseColour(m, f, v) else LitColour(m, gte, f, v, slot)
  }

  /** The colours of the record, one per used vertex in order. */
  function Colours(m: ModelData, gte: Gte, f: Flags, vs: seq<int>, slot: int): (cs: seq<Rgb>)
    ensures |cs| == |vs|
    ensures forall j :: 0 <= j < |vs| ==> cs[j] == VertexColour(m, gte, f, vs[j], slot)
  {
    if vs == [] then [] else [VertexColour(m, gte, f, vs[0], slot)] + Colours(m, gte, f, vs[1..], slot)
  }

  function FaceColours(env: Env, k: Kind, i: int): seq<Rgb> {
    var m := env.model;
    var f := FaceFlags(m, k, i);
    Colours(m, env.gte, f, UsedVerts(f, FaceVerts(m, k, i)), Slot(m, k, i))
  }

  /** `setUV3`/`setUV4` store each SVECTOR component into a `u_char`. */
  function UvsOf(uvs: seq<Svec>, idx: seq<int>): (r: seq<Uv>)
    ensures |r| == |idx|
    ensures forall j :: 0 <= j < |idx| ==>
              r[j] == Uv(Truncate8(At(uvs, idx[j], Svec(0, 0, 0)).vx), Truncate8(At(uvs, idx[j], Svec(0, 0, 0)).vy))
  {
    if idx == [] then []
    else
      var t := At(uvs, idx[0], Svec(0, 0, 0));
      [Uv(Truncate8(t.vx), Truncate8(t.vy))] + UvsOf(uvs, idx[1..])
  }

  /** Vertex `j` of the face whose vertex indices are `vs`. */
  function Corner(env: Env, vs: seq<int>, j: int): Svec {
    At(env.verts, At(vs, j, -1), Svec(0, 0, 0))
  }

  /** RotAverage3 or RotAverage4 on the face's vertices. */
  function Project(env: Env, k: Kind, i: int): Projection {
    var vs := FaceVerts(env.model, k, i);
    if k == Tri then env.gte.rotAverage3(Corner(env, vs, 0), Corner(env, vs, 1), Corner(env, vs, 2))
    else env.gte.rotAverage4(Corner(env, vs, 0), Corner(env, vs, 1), Corner(env, vs, 2), Corner(env, vs, 3))
  }

  /** The only culling model.c does: the depth-range test `otz > 0 && otz < ot_length`. */
  predicate Accepted(env: Env, k: Kind, i: int) {
    0 < Project(env, k, i).otz < env.otLength
  }

  /** The record written for an accepted face at arena offset `addr`. */
  function FacePrim(env: Env, k: Kind, i: int, proj: Projection, addr: int): (p: Prim)
    ensures p.Poly? && p.kind == k && p.face == i && p.addr == addr && p.xy == proj.xy
    ensures p.shape == ShapeOf(FaceFlags(env.model, k, i))
    ensures p.texture == (if Textured(p.shape) then Some(Texture(env.tpage, env.clut)) else None)
    ensures p.semiTrans <==> Has(FaceFlags(env.model, k, i), ALPHA)
  {
    var m := env.model;
    var f := FaceFlags(m, k, i);
    var s := ShapeOf(f);
    Poly(k, s, i, addr, proj.xy, FaceColours(env, k, i),
         if Textured(s) then UvsOf(m.uvs, FaceUvs(m, k, i)) else [],
         if Textured(s) then Some(Texture(env.tpage, env.clut)) else None,
         Has(f, ALPHA))
  }

  /** One iteration of the loop in renderTriangles / renderQuads. */
  function FaceStep(env: Env, k: Kind, i: int, st: DrawState): (r: DrawState)
    requires env.otLength <= |st.ot|
    ensures |r.ot| == |st.ot|
  {
    if Accepted(env, k, i) then
      var proj := Project(env, k, i);
      DrawState(st.cursor + PolySize(k, ShapeOf(FaceFlags(env.model, k, i))),
                AddPrim(st.ot, proj.otz, FacePrim(env, k, i, proj, st.cursor)))
    else
      st
  }

  /** The state after the first `n` faces of kind `k`. */
  function RenderFaces(env: Env, k: Kind, n: nat, st: DrawState): (r: DrawState)
    requires env.otLength <= |st.ot|
    ensures |r.ot| == |st.ot|
  {
    if n == 0 then st else FaceStep(env, k, n - 1, RenderFaces(env, k, n - 1, st))
  }

  /** The state after `n` faces is one pass over the state after `n - 1`. */
  lemma RenderFacesUnfold(env: Env, k: Kind, n: nat, st: DrawState)
    requires 0 < n && env.otLength <= |st.ot|
    ensures RenderFaces(env, k, n, st) == FaceStep(env, k, n - 1, RenderFaces(env, k, n - 1, st))
  {
  }

  /** Two states that unfold to equal states are equal. */
  lemma Chain(a: DrawState, b: DrawState, c: DrawState, d: DrawState)
    requires a == b && b == c && d == c
    ensures a == d
  {
  }

  /** The same, counted from the face just passed. */
  lemma RenderFacesNext(env: Env, k: Kind, i: nat, st: DrawState)
    requires env.otLength <= |st.ot|
    ensures RenderFaces(env, k, i + 1, st) == FaceStep(env, k, i, RenderFaces(env, k, i, st))
  {
  }

  /** How often the loop over faces of kind `k` runs: its count, or never when the
      count is negative. */
  function Iterations(m: ModelData, k: Kind): nat {
    if FaceCount(m, k) < 0 then 0 else FaceCount(m, k)
  }

  /** Whether some face of the model carries the Cutout bit. */
  predicate NeedsCutout(m: ModelData) {
    exists j :: 0 <= j < Iterations(m, Tri) + Iterations(m, Quad) && Has(At(m.materialFlags, j, 0), CUTOUT)
  }

  /** The state after the optional mask-mode record of renderModel. */
  function CutoutStep(env: Env, st: DrawState): (r: DrawState)
    requires 0 < env.otLength <= |st.ot|
    ensures |r.ot| == |st.ot|
  {
    if NeedsCutout(env.model) then
      DrawState(st.cursor + DrStpSize, AddPrim(st.ot, env.otLength - 1, MaskMode(st.cursor)))
    else
      st
  }

  /** renderModel: the mask-mode record, then all triangles, then all quads. */
  function RenderModelSpec(env: Env, st: DrawState): (r: DrawState)
    requires 0 < env.otLength <= |st.ot|
    ensures |r.ot| == |st.ot|
  {
    var st1 := CutoutStep(env, st);
    var st2 := RenderFaces(env, Tri, Iterations(env.model, Tri), st1);
    RenderFaces(env, Quad, Iterations(env.model, Quad), st2)
  }

  /** modelNeedsCutout (model.c:21-36): a read-only scan with early return. */
  method ModelNeedsCutout(m: ModelData) returns (b: bool)
    ensures b <==> exists j :: 0 <= j < Iterations(m, Tri) + Iterations(m, Quad) && Has(At(m.materialFlags, j, 0), CUTOUT)
  {
    var i := 0;
    while i < m.triCount
      invariant 0 <= i <= Iterations(m, Tri)
      invariant forall j :: 0 <= j < i ==> !Has(At(m.materialFlags, j, 0), CUTOUT)
    {
      if Has(At(m.materialFlags, i, 0), CUTOUT) {
        return true;
      }
      i := i + 1;
    }
    var base := i;
    i := 0;
    while i < m.quadCount
      invariant 0 <= i <= Iterations(m, Quad)
      invariant forall j :: 0 <= j < base + i ==> !Has(At(m.materialFlags, j, 0), CUTOUT)
    {
      if Has(At(m.materialFlags, base + i, 0), CUTOUT) {
        return true;
      }
      i := i + 1;
    }
    return false;
  }

  /** The body of the loop of renderTriangles / renderQuads for face `i`: the depth
      test, and for an accepted face the record written at `nextpri`, linked into
      bucket `otz`, and the cursor advanced past it. */
  method EmitFace(env: Env, k: Kind, i: int, nextpri: int, ot: array<Bucket>) returns (np: int)
    requires env.otLength <= ot.Length
    modifies ot
    ensures DrawState(np, ot[..]) == FaceStep(env, k, i, DrawState(nextpri, old(ot[..])))
  {
    np := nextpri;
    var flags := FaceFlags(env.model, k, i);
    var proj := Project(env, k, i);
    if 0 < proj.otz < env.otLength {
      var poly := FacePrim(env, k, i, proj, np);
      ot[proj.otz] := [poly] + ot[proj.otz];
      np := np + PolySize(k, ShapeOf(flags));
    }
  }

  /** The loop of renderTriangles (kind Tri) or renderQuads (kind Quad), in place on
      the ordering-table array. */
  method RenderKind(env: Env, k: Kind, nextpri: int, ot: array<Bucket>) returns (np: int)
    requires env.otLength <= ot.Length
    modifies ot
    ensures DrawState(np, ot[..]) == RenderFaces(env, k, Iterations(env.model, k), DrawState(nextpri, old(ot[..])))
  {
    np := nextpri;
    var i := 0;
    while i < FaceCount(env.model, k)
      invariant 0 <= i <= Iterations(env.model, k)
      invariant DrawState(np, ot[..]) == RenderFaces(env, k, i, DrawState(nextpri, old(ot[..])))
    {
      np := EmitFace(env, k, i, np, ot);
      i := i + 1;
    }
  }

  /** renderTriangles (model.c:98-372). */
  method RenderTriangles(env: Env, nextpri: int, ot: array<Bucket>) returns (np: int)
    requires env.otLength <= ot.Length
    modifies ot
    ensures DrawState(np, ot[..]) == RenderFaces(env, Tri, Iterations(env.model, Tri), DrawState(nextpri, old(ot[..])))
  {
    np := RenderKind(env, Tri, nextpri, ot);
  }

  /** renderQuads (model.c:377-675). */
  method RenderQuads(env: Env, nextpri: int, ot: array<Bucket>) returns (np: int)
    requires env.otLength <= ot.Length
    modifies ot
    ensures DrawState(np, ot[..]) == RenderFaces(env, Quad, Iterations(env.model, Quad), DrawState(nextpri, old(ot[..])))
  {
    np := RenderKind(env, Quad, nextpri, ot);
  }

  /** renderModel (model.c:680-696). */
  method RenderModel(env: Env, nextpri: int, ot: array<Bucket>) returns (np: int)
    requires 0 < env.otLength <= ot.Length
    modifies ot
    ensures DrawState(np, ot[..]) == RenderModelSpec(env, DrawState(nextpri, old(ot[..])))
  {
    np := nextpri;
    var cutout := ModelNeedsCutout(env.model);
    if cutout {
      ot[env.otLength - 1] := [MaskMode(np)] + ot[env.otLength - 1];
      np := np + DrStpSize;
    }
    assert DrawState(np, ot[..]) == CutoutStep(env, DrawState(nextpri, old(ot[..])));
    np := RenderTriangles(env, np, ot);
    np := RenderQuads(env, np, ot);
  }
}
