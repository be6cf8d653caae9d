/** What the flag byte does and does not influence in a face's record: which data an
    unlit face reads, that a flat face reads vertex 0 only, that the Alpha and Cutout
    bits never change colours or shape, that the specular and metallic passes are gated
    by bit and pointer together and run in a fixed order, and that `mesh_ids` and
    `visible_meshes` are never read by renderModel. */
module ColourProofs {
  import opened Types
  import opened Gpu
  import opened Material
  import opened Shading
  import opened Model

  /** Two colour lists agree when they agree vertex by vertex. */
  lemma {:induction false} SameColours(m: ModelData, m': ModelData, gte: Gte, gte': Gte, f: Flags, f': Flags, vs: seq<int>, slot: int)
    requires forall j :: 0 <= j < |vs| ==> VertexColour(m, gte, f, vs[j], slot) == VertexColour(m', gte', f', vs[j], slot)
    ensures Colours(m, gte, f, vs, slot) == Colours(m', gte', f', vs, slot)
  {
    if vs != [] {
      SameColours(m, m', gte, gte', f, f', vs[1..], slot);
    }
  }

  /** An unlit vertex gets `vertex_colors[v]` when the VertexColor bit is set and grey
      otherwise; it does not depend on normals, specular, metallic or the GTE. */
  lemma UnlitColour(m: ModelData, gte: Gte, f: Flags, v: int, slot: int)
    requires Has(f, UNLIT)
    ensures Has(f, VERTEX_COLOR) && 0 <= v < |m.vertexColors| ==> VertexColour(m, gte, f, v, slot) == m.vertexColors[v]
    ensures !Has(f, VERTEX_COLOR) ==> VertexColour(m, gte, f, v, slot) == Grey
  {
  }

  /** The colours of an unlit face are the same for any two models with the same vertex
      colours and any two GTE states: normals, specular and metallic are not read. */
  lemma UnlitIgnoresLighting(m: ModelData, m': ModelData, gte: Gte, gte': Gte, f: Flags, vs: seq<int>, slot: int, slot': int)
    requires Has(f, UNLIT) && m.vertexColors == m'.vertexColors
    ensures Colours(m, gte, f, vs, slot) == Colours(m', gte', f, vs, slot')
  {
    forall j | 0 <= j < |vs|
      ensures VertexColour(m, gte, f, vs[j], slot) == VertexColour(m', gte', f, vs[j], slot)
    {
    }
    SameColours(m, m', gte, gte', f, f, vs, slot);
    SlotUnreadWhenUnlit(m', gte', f, vs, slot, slot');
  }

  /** An unlit face never reads the specular/metallic slot. */
  lemma {:induction false} SlotUnreadWhenUnlit(m: ModelData, gte: Gte, f: Flags, vs: seq<int>, slot: int, slot': int)
    requires Has(f, UNLIT)
    ensures Colours(m, gte, f, vs, slot) == Colours(m, gte, f, vs, slot')
  {
    if vs != [] {
      SlotUnreadWhenUnlit(m, gte, f, vs[1..], slot, slot');
    }
  }

  /** A flat face (Smooth bit clear) carries one colour, that of its vertex 0: the other
      vertices are not read. */
  lemma FlatReadsVertexZero(env: Env, k: Kind, i: int)
    requires !Has(FaceFlags(env.model, k, i), SMOOTH) && |FaceVerts(env.model, k, i)| > 0
    ensures FaceColours(env, k, i)
         == [VertexColour(env.model, env.gte, FaceFlags(env.model, k, i), FaceVerts(env.model, k, i)[0], Slot(env.model, k, i))]
  {
  }

  /** A Gouraud face (Smooth bit set) carries one colour per vertex, in vertex order. */
  lemma SmoothReadsEveryVertex(env: Env, k: Kind, i: int, j: int)
    requires Has(FaceFlags(env.model, k, i), SMOOTH) && 0 <= j < |FaceVerts(env.model, k, i)|
    ensures |FaceColours(env, k, i)| == |FaceVerts(env.model, k, i)|
    ensures FaceColours(env, k, i)[j]
         == VertexColour(env.model, env.gte, FaceFlags(env.model, k, i), FaceVerts(env.model, k, i)[j], Slot(env.model, k, i))
  {
  }

  /** The bits that decide colours and shape: all but Alpha and Cutout. */
  predicate SameLook(f: Flags, f': Flags) {
    && (Has(f, UNLIT) <==> Has(f', UNLIT))
    && (Has(f, TEXTURED) <==> Has(f', TEXTURED))
    && (Has(f, SMOOTH) <==> Has(f', SMOOTH))
    && (Has(f, VERTEX_COLOR) <==> Has(f', VERTEX_COLOR))
    && (Has(f, SPECULAR) <==> Has(f', SPECULAR))
    && (Has(f, METALLIC) <==> Has(f', METALLIC))
  }

  /** Flag bytes that differ only in Alpha and Cutout have the same look. */
  lemma AlphaCutoutOnly(f: Flags, f': Flags)
    requires f & !(ALPHA | CUTOUT) == f' & !(ALPHA | CUTOUT)
    ensures SameLook(f, f')
  {
    assert f & UNLIT == (f & !(ALPHA | CUTOUT)) & UNLIT;
    assert f' & UNLIT == (f' & !(ALPHA | CUTOUT)) & UNLIT;
    assert f & TEXTURED == (f & !(ALPHA | CUTOUT)) & TEXTURED;
    assert f' & TEXTURED == (f' & !(ALPHA | CUTOUT)) & TEXTURED;
    assert f & SMOOTH == (f & !(ALPHA | CUTOUT)) & SMOOTH;
    assert f' & SMOOTH == (f' & !(ALPHA | CUTOUT)) & SMOOTH;
    assert f & VERTEX_COLOR == (f & !(ALPHA | CUTOUT)) & VERTEX_COLOR;
    assert f' & VERTEX_COLOR == (f' & !(ALPHA | CUTOUT)) & VERTEX_COLOR;
    assert f & SPECULAR == (f & !(ALPHA | CUTOUT)) & SPECULAR;
    assert f' & SPECULAR == (f' & !(ALPHA | CUTOUT)) & SPECULAR;
    assert f & METALLIC == (f & !(ALPHA | CUTOUT)) & METALLIC;
    assert f' & METALLIC == (f' & !(ALPHA | CUTOUT)) & METALLIC;
  }

  /** Replace the flag byte of face `i` of kind `k`. */
  function WithFlags(env: Env, k: Kind, i: int, f': Flags): (e: Env)
    requires 0 <= Slot(env.model, k, i) < |env.model.materialFlags|
    ensures FaceFlags(e.model, k, i) == f'
  {
    env.(model := env.model.(materialFlags := env.model.materialFlags[Slot(env.model, k, i) := f']))
  }

  /** A polygon record with its semi-transparency bit replaced. */
  function WithSemiTrans(p: Prim, b: bool): Prim {
    if p.Poly? then p.(semiTrans := b) else p
  }

  /** Changing a face's flag byte in any bit but the six that decide its look (that is,
      Alpha or Cutout) changes its record in the semi-transparency bit alone: shape,
      colours, UVs and texture stay, and semi-transparency follows the Alpha bit. */
  lemma AlphaOnlySetsSemiTrans(env: Env, k: Kind, i: int, f': Flags, proj: Projection, addr: int)
    requires 0 <= Slot(env.model, k, i) < |env.model.materialFlags|
    requires SameLook(FaceFlags(env.model, k, i), f')
    ensures FacePrim(WithFlags(env, k, i, f'), k, i, proj, addr)
         == WithSemiTrans(FacePrim(env, k, i, proj, addr), Has(f', ALPHA))
  {
    var f := FaceFlags(env.model, k, i);
    var env' := WithFlags(env, k, i, f');
    var vs := UsedVerts(f, FaceVerts(env.model, k, i));
    assert UsedVerts(f', FaceVerts(env'.model, k, i)) == vs;
    forall j | 0 <= j < |vs|
      ensures VertexColour(env.model, env.gte, f, vs[j], Slot(env.model, k, i))
           == VertexColour(env'.model, env.gte, f', vs[j], Slot(env.model, k, i))
    {
    }
    SameColours(env.model, env'.model, env.gte, env.gte, f, f', vs, Slot(env.model, k, i));
  }

  /** With the bit set but no array, or the array present but the bit clear, the
      specular pass does not run: the colour is the one the model without the array
      would give. The same holds for the metallic pass. */
  lemma PassesGatedByBitAndPointer(m: ModelData, gte: Gte, f: Flags, v: int, slot: int)
    ensures !Has(f, SPECULAR) || m.specular.None? ==>
              LitColour(m, gte, f, v, slot) == LitColour(m.(specular := None), gte, f, v, slot)
    ensures !Has(f, METALLIC) || m.metallic.None? ==>
              LitColour(m, gte, f, v, slot) == LitColour(m.(metallic := None), gte, f, v, slot)
    ensures !SpecularOn(m, f) && !MetallicOn(m, f) ==>
              LitColour(m, gte, f, v, slot) == gte.normalColorCol(At(m.normals, v, Svec(0, 0, 0)), BaseColour(m, f, v))
  {
  }

  /** The two passes do not commute, so their order matters: over (100, 100, 100) with
      the normal facing the light, specular 8 then metallic 255 gives (254, 254, 254)
      while the reverse order would give (129, 129, 129). model.c runs specular first. */
  lemma SpecularBeforeMetallic(m: ModelData, gte: Gte, f: Flags, v: int)
    requires Has(f, SPECULAR) && Has(f, METALLIC) && !Has(f, UNLIT)
    requires m.specular == Some([8]) && m.metallic == Some([255])
    requires At(m.normals, v, Svec(0, 0, 0)) == Svec(0, -4096, 0)
    requires gte.normalColorCol(Svec(0, -4096, 0), BaseColour(m, f, v)) == Rgb(100, 100, 100)
    ensures VertexColour(m, gte, f, v, 0) == Rgb(254, 254, 254)
    ensures ApplySpecular(ApplyMetallic(Rgb(100, 100, 100), Svec(0, -4096, 0), 255), Svec(0, -4096, 0), 8) == Rgb(129, 129, 129)
  {
    var n := Svec(0, -4096, 0);
    assert SpecularDot(n) == 4096;
    assert SpecularBoost(n, 8) == 128;
    var c := ApplySpecular(Rgb(100, 100, 100), n, 8);
    assert c == Rgb(228, 228, 228);
    assert Average(c) == 228;
    MulIsProduct(255, 4096);
    MulIsProduct(255, 27);
    MulIsProduct(255, 100);
    assert ReflectFactor(n, 255) == 255;
    assert MetallicBoost(c, n, 255) == 26;
    assert MetallicReduce(Rgb(100, 100, 100), 255) == 99;
  }

  /** The model with `mesh_ids` and `visible_meshes` replaced. */
  function WithMeshes(env: Env, ids: Option<seq<byte>>, visible: int): (e: Env)
    ensures e.model.meshIds == ids && e.model.visibleMeshes == visible
  {
    env.(model := env.model.(meshIds := ids, visibleMeshes := visible))
  }

  /** `e1` and `e2` agree on everything except `mesh_ids` and `visible_meshes`. */
  ghost predicate SameButMeshes(e1: Env, e2: Env) {
    && e1.verts == e2.verts && e1.gte == e2.gte && e1.otLength == e2.otLength
    && e1.tpage == e2.tpage && e1.clut == e2.clut
    && e1.model.triCount == e2.model.triCount && e1.model.quadCount == e2.model.quadCount
    && e1.model.triFaces == e2.model.triFaces && e1.model.triUvs == e2.model.triUvs
    && e1.model.quadFaces == e2.model.quadFaces && e1.model.quadUvs == e2.model.quadUvs
    && e1.model.uvs == e2.model.uvs && e1.model.normals == e2.model.normals
    && e1.model.materialFlags == e2.model.materialFlags && e1.model.vertexColors == e2.model.vertexColors
    && e1.model.specular == e2.model.specular && e1.model.metallic == e2.model.metallic
  }

  /** A face's record does not depend on `mesh_ids` or `visible_meshes`. */
  lemma FacePrimIgnoresMeshes(e1: Env, e2: Env, k: Kind, i: int, proj: Projection, addr: int)
    requires SameButMeshes(e1, e2)
    ensures FacePrim(e1, k, i, proj, addr) == FacePrim(e2, k, i, proj, addr)
  {
    var m := e1.model;
    var m' := e2.model;
    var f := FaceFlags(m, k, i);
    var slot := Slot(m, k, i);
    assert FaceFlags(m', k, i) == f && Slot(m', k, i) == slot;
    assert FaceVerts(m', k, i) == FaceVerts(m, k, i) && FaceUvs(m', k, i) == FaceUvs(m, k, i);
    var vs := UsedVerts(f, FaceVerts(m, k, i));
    forall j | 0 <= j < |vs|
      ensures VertexColour(m, e1.gte, f, vs[j], slot) == VertexColour(m', e2.gte, f, vs[j], slot)
    {
      SameLighting(m, m', e1.gte, f, vs[j], slot);
    }
    SameColours(m, m', e1.gte, e2.gte, f, f, vs, slot);
  }

  /** A vertex's colour reads only the vertex colours, the normals and the specular and
      metallic arrays of the model. */
  lemma SameLighting(m: ModelData, m': ModelData, gte: Gte, f: Flags, v: int, slot: int)
    requires m.vertexColors == m'.vertexColors && m.normals == m'.normals
    requires m.specular == m'.specular && m.metallic == m'.metallic
    ensures VertexColour(m, gte, f, v, slot) == VertexColour(m', gte, f, v, slot)
  {
    assert BaseColour(m, f, v) == BaseColour(m', f, v);
    assert SpecularOn(m, f) == SpecularOn(m', f) && MetallicOn(m, f) == MetallicOn(m', f);
  }

  /** One pass of the face loop does not depend on `mesh_ids` or `visible_meshes`. */
  lemma FaceStepIgnoresMeshes(e1: Env, e2: Env, k: Kind, i: int, st1: DrawState, st2: DrawState)
    requires SameButMeshes(e1, e2) && e1.otLength <= |st1.ot| && st1 == st2
    ensures FaceStep(e1, k, i, st1) == FaceStep(e2, k, i, st2)
  {
    assert Project(e1, k, i) == Project(e2, k, i) by {
      assert FaceVerts(e1.model, k, i) == FaceVerts(e2.model, k, i);
    }
    assert FaceFlags(e1.model, k, i) == FaceFlags(e2.model, k, i);
    FacePrimIgnoresMeshes(e1, e2, k, i, Project(e1, k, i), st1.cursor);
  }

  /** Every pass of the face loop of kind `k` gives the same state under `e1` and `e2`. */
  ghost predicate StepsAgree(e1: Env, e2: Env, k: Kind) {
    && e1.otLength == e2.otLength
    && forall i: int, s1: DrawState, s2: DrawState {:trigger FaceStep(e1, k, i, s1), FaceStep(e2, k, i, s2)} ::
         e1.otLength <= |s1.ot| && s1 == s2 ==> FaceStep(e1, k, i, s1) == FaceStep(e2, k, i, s2)
  }

  /** Environments that differ only in the mesh fields agree on every pass. */
  lemma SameStepsAgree(e1: Env, e2: Env, k: Kind)
    requires SameButMeshes(e1, e2)
    ensures StepsAgree(e1, e2, k)
  {
    forall i: int, s1: DrawState, s2: DrawState | e1.otLength <= |s1.ot| && s1 == s2
      ensures FaceStep(e1, k, i, s1) == FaceStep(e2, k, i, s2)
    {
      FaceStepIgnoresMeshes(e1, e2, k, i, s1, s2);
    }
  }

  /** Face loops whose passes agree end in the same state. */
  lemma {:induction false} RenderFacesAgree(e1: Env, e2: Env, k: Kind, n: nat, st: DrawState)
    requires StepsAgree(e1, e2, k) && e1.otLength <= |st.ot|
    ensures RenderFaces(e1, k, n, st) == RenderFaces(e2, k, n, st)
  {
    if n > 0 {
      RenderFacesAgree(e1, e2, k, n - 1, st);
      RenderFacesUnfold(e1, k, n, st);
      RenderFacesUnfold(e2, k, n, st);
    }
  }

  /** The face loop does not depend on `mesh_ids` or `visible_meshes`. */
  lemma RenderFacesIgnoresMeshes(e1: Env, e2: Env, k: Kind, n: nat, st: DrawState)
    requires SameButMeshes(e1, e2) && e1.otLength <= |st.ot|
    ensures RenderFaces(e1, k, n, st) == RenderFaces(e2, k, n, st)
  {
    SameStepsAgree(e1, e2, k);
    RenderFacesAgree(e1, e2, k, n, st);
  }

  /** renderModel never reads `mesh_ids` or `visible_meshes`: replacing them changes
      neither the returned cursor nor the table. */
  lemma RenderModelIgnoresMeshes(env: Env, ids: Option<seq<byte>>, visible: int, st: DrawState)
    requires 0 < env.otLength <= |st.ot|
    ensures RenderModelSpec(WithMeshes(env, ids, visible), st) == RenderModelSpec(env, st)
  {
    var env' := WithMeshes(env, ids, visible);
    assert SameButMeshes(env', env);
    assert NeedsCutout(env'.model) == NeedsCutout(env.model);
    var st1 := CutoutStep(env, st);
    assert CutoutStep(env', st) == st1;
    RenderFacesIgnoresMeshes(env', env, Tri, Iterations(env.model, Tri), st1);
    RenderFacesIgnoresMeshes(env', env, Quad, Iterations(env.model, Quad), RenderFaces(env, Tri, Iterations(env.model, Tri), st1));
  }
}
