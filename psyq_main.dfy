/** The stand-alone viewer examples/psyq/main.c: its own copies of the animation,
    input and double-buffer globals, a renderer that draws every face of the bundled
    model (200 triangles, 264 quads) as a flat-textured grey polygon, and the frame
    loop. The renderer is shown to be the library renderer of examples/psyq/lib/model.c
    run on a model whose every flag byte is Unlit|Textured, so every fact proved about
    the library renderer carries over. */
module PsyqMain {
  import opened Types
  import opened Gpu
  import opened Material
  import opened Model
  import opened ModelProofs
  import opened Animation
  import opened Input
  import opened Display

  /** `TRI_COUNT` and `QUAD_COUNT` (main.c:27-28). */
  const TriCount: int := 200
  const QuadCount: int := 264

  /** The face and UV tables of the bundled model header. */
  datatype Mesh = Mesh(triFaces: seq<seq<int>>, triUvs: seq<seq<int>>,
                       quadFaces: seq<seq<int>>, quadUvs: seq<seq<int>>, uvs: seq<Svec>)

  /** What renderTriangles/renderQuads read: the mesh, the animated vertices, the GTE
      state renderModel set up, and the global `tpage` and `clut`. */
  datatype MainEnv = MainEnv(mesh: Mesh, verts: seq<Svec>, gte: Gte, tpage: ushort, clut: ushort)

  function MainCount(k: Kind): int {
    if k == Tri then TriCount else QuadCount
  }

  function MeshFace(mesh: Mesh, k: Kind, i: int): seq<int> {
    At(if k == Tri then mesh.triFaces else mesh.quadFaces, i, [])
  }

  function MeshUvs(mesh: Mesh, k: Kind, i: int): seq<int> {
    At(if k == Tri then mesh.triUvs else mesh.quadUvs, i, [])
  }

  /** RotAverage3/RotAverage4 on the face's vertices. */
  function MainProject(e: MainEnv, k: Kind, i: int): Projection {
    var vs := MeshFace(e.mesh, k, i);
    var z := Svec(0, 0, 0);
    if k == Tri then
      e.gte.rotAverage3(At(e.verts, At(vs, 0, -1), z), At(e.verts, At(vs, 1, -1), z), At(e.verts, At(vs, 2, -1), z))
    else
      e.gte.rotAverage4(At(e.verts, At(vs, 0, -1), z), At(e.verts, At(vs, 1, -1), z),
                        At(e.verts, At(vs, 2, -1), z), At(e.verts, At(vs, 3, -1), z))
  }

  /** The record main.c writes for an accepted face: POLY_FT3/POLY_FT4, grey, opaque,
      with the global texture page and CLUT. */
  function MainPrim(e: MainEnv, k: Kind, i: int, proj: Projection, addr: int): Prim {
    Poly(k, FT, i, addr, proj.xy, [Grey], UvsOf(e.mesh.uvs, MeshUvs(e.mesh, k, i)), Some(Texture(e.tpage, e.clut)), false)
  }

  /** One pass of the loop of renderTriangles (main.c:220-253) or renderQuads
      (main.c:264-301). */
  function MainStep(e: MainEnv, k: Kind, i: int, st: DrawState): DrawState
    requires OtLength <= |st.ot|
  {
    var proj := MainProject(e, k, i);
    if 0 < proj.otz < OtLength then
      DrawState(st.cursor + PolySize(k, FT), AddPrim(st.ot, proj.otz, MainPrim(e, k, i, proj, st.cursor)))
    else
      st
  }

  function MainFaces(e: MainEnv, k: Kind, n: nat, st: DrawState): (r: DrawState)
    requires OtLength <= |st.ot|
    ensures |r.ot| == |st.ot|
  {
    if n == 0 then st else MainStep(e, k, n - 1, MainFaces(e, k, n - 1, st))
  }

  /** The state after `n` faces is one pass over the state after `n - 1`. */
  lemma MainFacesUnfold(e: MainEnv, k: Kind, n: nat, st: DrawState)
    requires 0 < n && OtLength <= |st.ot|
    ensures MainFaces(e, k, n, st) == MainStep(e, k, n - 1, MainFaces(e, k, n - 1, st))
  {
  }

  /** renderModel of main.c (main.c:307-320): all triangles, then all quads. */
  function MainRender(e: MainEnv, st: DrawState): DrawState
    requires OtLength <= |st.ot|
  {
    MainFaces(e, Quad, QuadCount, MainFaces(e, Tri, TriCount, st))
  }

  /** The flag byte every face of main.c's renderer behaves as: Unlit and Textured. */
  const MainFlags: Flags := UNLIT | TEXTURED

  /** The same mesh as library ModelData: 200 triangles, 264 quads, every flag byte
      Unlit|Textured, no normals, colours, specular, metallic or mesh ids. */
  function AsModel(mesh: Mesh): ModelData {
    ModelData(TriCount, QuadCount, mesh.triFaces, mesh.triUvs, mesh.quadFaces, mesh.quadUvs, mesh.uvs,
              [], seq(TriCount + QuadCount, _ => MainFlags), [], None, None, None, 0)
  }

  function LibraryEnv(e: MainEnv): Env {
    Env(e.verts, AsModel(e.mesh), e.gte, OtLength, e.tpage, e.clut)
  }

  /** Every face table row has at least one vertex, as the bundled header's rows do. */
  predicate FacesNonEmpty(mesh: Mesh, k: Kind, n: int) {
    forall i :: 0 <= i < n ==> |MeshFace(mesh, k, i)| > 0
  }

  /** One pass of main.c's loop is one pass of the library loop on the Unlit|Textured
      model: the same depth test, record and cursor step. */
  lemma MainStepIsLibraryStep(e: MainEnv, k: Kind, i: int, st: DrawState, st': DrawState)
    requires 0 <= i < MainCount(k) && |MeshFace(e.mesh, k, i)| > 0 && OtLength <= |st.ot| && st == st'
    ensures MainStep(e, k, i, st) == FaceStep(LibraryEnv(e), k, i, st')
  {
    var env := LibraryEnv(e);
    assert FaceFlags(env.model, k, i) == MainFlags;
    assert ShapeOf(MainFlags) == FT;
    assert Project(env, k, i) == MainProject(e, k, i);
    var vs := FaceVerts(env.model, k, i);
    assert UsedVerts(MainFlags, vs) == [vs[0]];
    assert FaceColours(env, k, i) == [Grey];
    if Accepted(env, k, i) {
      var proj := Project(env, k, i);
      assert FacePrim(env, k, i, proj, st.cursor) == MainPrim(e, k, i, proj, st.cursor);
    }
  }

  lemma {:induction false} MainFacesIsLibrary(e: MainEnv, k: Kind, n: nat, st: DrawState)
    requires n <= MainCount(k) && FacesNonEmpty(e.mesh, k, n) && OtLength <= |st.ot|
    ensures MainFaces(e, k, n, st) == RenderFaces(LibraryEnv(e), k, n, st)
  {
    if n > 0 {
      MainFacesIsLibrary(e, k, n - 1, st);
      MainPassIsLibraryPass(e, k, n, st);
    }
  }

  /** The induction step of MainFacesIsLibrary. */
  lemma MainPassIsLibraryPass(e: MainEnv, k: Kind, n: nat, st: DrawState)
    requires 0 < n <= MainCount(k) && |MeshFace(e.mesh, k, n - 1)| > 0 && OtLength <= |st.ot|
    requires MainFaces(e, k, n - 1, st) == RenderFaces(LibraryEnv(e), k, n - 1, st)
    ensures MainFaces(e, k, n, st) == RenderFaces(LibraryEnv(e), k, n, st)
  {
    var prev := MainFaces(e, k, n - 1, st);
    var prev' := RenderFaces(LibraryEnv(e), k, n - 1, st);
    MainFacesUnfold(e, k, n, st);
    RenderFacesUnfold(LibraryEnv(e), k, n, st);
    MainStepIsLibraryStep(e, k, n - 1, prev, prev');
    Chain(MainFaces(e, k, n, st), MainStep(e, k, n - 1, prev), FaceStep(LibraryEnv(e), k, n - 1, prev'),
          RenderFaces(LibraryEnv(e), k, n, st));
  }

  /** main.c's renderModel is the library renderModel on the Unlit|Textured model: no
      face needs cutout, so no mask-mode record, then the same triangles and quads. */
  lemma MainRenderIsLibrary(e: MainEnv, st: DrawState)
    requires FacesNonEmpty(e.mesh, Tri, TriCount) && FacesNonEmpty(e.mesh, Quad, QuadCount)
    requires OtLength <= |st.ot|
    ensures MainRender(e, st) == RenderModelSpec(LibraryEnv(e), st)
  {
    var env := LibraryEnv(e);
    assert !NeedsCutout(env.model) by {
      forall j | 0 <= j < TriCount + QuadCount
        ensures !Has(At(env.model.materialFlags, j, 0), CUTOUT)
      {
        assert At(env.model.materialFlags, j, 0) == MainFlags;
      }
    }
    MainFacesIsLibrary(e, Tri, TriCount, st);
    MainFacesIsLibrary(e, Quad, QuadCount, MainFaces(e, Tri, TriCount, st));
  }

  /** A frame of main.c never overruns its 131072-byte arena: the render uses at most
      12 + 40 * 200 + 52 * 264 bytes from where the cursor was rewound. */
  lemma MainArenaBound(e: MainEnv, st: DrawState)
    requires FacesNonEmpty(e.mesh, Tri, TriCount) && FacesNonEmpty(e.mesh, Quad, QuadCount)
    requires OtLength <= |st.ot|
    ensures st.cursor <= MainRender(e, st).cursor <= st.cursor + ArenaSize
  {
    MainRenderIsLibrary(e, st);
    ArenaBound(LibraryEnv(e), st);
    RenderModelCursor(LibraryEnv(e), st);
  }

  /** A frame of main.c that starts with the cursor rewound to arena `b` (as
      swapBuffers leaves it) writes its records within arena `b` and never into the
      other buffer's arena, which the GPU may still be reading. */
  lemma FrameStaysInArena(e: MainEnv, b: int, ot: seq<Bucket>)
    requires b == 0 || b == 1
    requires FacesNonEmpty(e.mesh, Tri, TriCount) && FacesNonEmpty(e.mesh, Quad, QuadCount)
    requires OtLength <= |ot|
    ensures var c := MainRender(e, DrawState(ArenaStart(b), ot)).cursor;
            && ArenaStart(b) <= c <= ArenaStart(b) + ArenaSize
            && (c <= ArenaStart(1 - b) || ArenaStart(1 - b) + ArenaSize <= ArenaStart(b))
  {
    MainArenaBound(e, DrawState(ArenaStart(b), ot));
  }

  /** The body of main.c's render loop for face `i`. */
  method MainEmit(e: MainEnv, k: Kind, i: int, nextpri: int, ot: array<Bucket>) returns (np: int)
    requires OtLength <= ot.Length
    modifies ot
    ensures DrawState(np, ot[..]) == MainStep(e, k, i, DrawState(nextpri, old(ot[..])))
  {
    np := nextpri;
    var proj := MainProject(e, k, i);
    if 0 < proj.otz < OtLength {
      ot[proj.otz] := [MainPrim(e, k, i, proj, np)] + ot[proj.otz];
      np := np + PolySize(k, FT);
    }
  }

  /** renderTriangles (main.c:215-254) for Tri, renderQuads (main.c:259-302) for Quad. */
  method MainRenderKind(e: MainEnv, k: Kind, nextpri: int, ot: array<Bucket>) returns (np: int)
    requires OtLength <= ot.Length
    modifies ot
    ensures DrawState(np, ot[..]) == MainFaces(e, k, MainCount(k), DrawState(nextpri, old(ot[..])))
  {
    np := nextpri;
    var i := 0;
    while i < MainCount(k)
      invariant 0 <= i <= MainCount(k)
      invariant DrawState(np, ot[..]) == MainFaces(e, k, i, DrawState(nextpri, old(ot[..])))
    {
      np := MainEmit(e, k, i, np, ot);
      i := i + 1;
    }
  }

  /** renderModel of main.c (main.c:307-320) after the GTE set-up. */
  method MainRenderModel(e: MainEnv, nextpri: int, ot: array<Bucket>) returns (np: int)
    requires OtLength <= ot.Length
    modifies ot
    ensures DrawState(np, ot[..]) == MainRender(e, DrawState(nextpri, old(ot[..])))
  {
    np := MainRenderKind(e, Tri, nextpri, ot);
    np := MainRenderKind(e, Quad, np, ot);
  }

  /** The rotation after main.c's handleInput: Left/Right turn `vy` by -32/+32 and
      Up/Down turn `vx` by -32/+32, the opposite signs of the library camera. */
  function ModelTurn(r: Svec, pad: Pad): Svec {
    Svec(Wrap16(r.vx + Step(pad, PADLdown, PADLup, 32)), Wrap16(r.vy + Step(pad, PADLright, PADLleft, 32)), r.vz)
  }

  /** The translation after main.c's handleInput: L1/R1 move `vz` by +50/-50 and L2/R2
      move `vy` by +50/-50. */
  function ModelMove(p: Vec, pad: Pad): Vec {
    Vec(p.vx, p.vy + Step(pad, PADL2, PADR2, 50), p.vz + Step(pad, PADL1, PADR1, 50))
  }

  /** main.c turns the model by the negated step with which input.c turns the camera,
      and moves it vertically by the negated step; the depth step is the same. */
  lemma ModelMirrorsCamera(r: Svec, p: Vec, pad: Pad)
    ensures ModelTurn(r, pad).vx == Wrap16(r.vx - Step(pad, PADLup, PADLdown, 32))
    ensures ModelTurn(r, pad).vy == Wrap16(r.vy - Step(pad, PADLleft, PADLright, 32))
    ensures ModelMove(p, pad).vy - p.vy == -(CameraMove(p, pad).vy - p.vy)
    ensures ModelMove(p, pad).vz == CameraMove(p, pad).vz
  {
  }

  /** handleInput of main.c (main.c:168-210). */
  method HandleInputMain(ctl: Controller, player: Player, xf: Placement, pad: Pad)
    modifies ctl, player, xf
    ensures ctl.padStateOld == old(ctl.padState) && ctl.padState == pad
    ensures Rising(pad, old(ctl.padState), PADRup) ==>
              player.anim == Not(old(player.anim)) && player.frame == 0 && player.timer == 0
    ensures !Rising(pad, old(ctl.padState), PADRup) ==>
              player.anim == old(player.anim) && player.frame == old(player.frame) && player.timer == old(player.timer)
    ensures old(player.Valid()) ==> player.Valid()
    ensures xf.rotation == ModelTurn(old(xf.rotation), pad)
    ensures xf.position == ModelMove(old(xf.position), pad)
  {
    ctl.Sample(pad);
    SwitchOnEdge(ctl, player);
    var vy := NudgeShort(xf.rotation.vy, Pressed(pad, PADLright), Pressed(pad, PADLleft), 32);
    xf.rotation := xf.rotation.(vy := vy);
    var vx := NudgeShort(xf.rotation.vx, Pressed(pad, PADLdown), Pressed(pad, PADLup), 32);
    xf.rotation := xf.rotation.(vx := vx);
    var p := xf.position;
    if Pressed(pad, PADL1) {
      p := p.(vz := p.vz + 50);
    }
    if Pressed(pad, PADR1) {
      p := p.(vz := p.vz - 50);
    }
    if Pressed(pad, PADL2) {
      p := p.(vy := p.vy + 50);
    }
    if Pressed(pad, PADR2) {
      p := p.(vy := p.vy - 50);
    }
    xf.position := p;
  }

  /** One iteration of main.c's loop (main.c:333-368): input, animation, flip to the
      other buffer, clear its table, rewind the cursor to its arena, render the current
      frame's vertices with the GTE set up from the model's rotation and translation,
      and hand the table to the GPU from its last bucket. `gteOf` stands for the GTE
      state RotMatrix/TransMatrix/ScaleMatrix leave for a rotation and translation;
      the text overlay, the syncs and the environment uploads are not modelled. */
  method Frame(d: DoubleBuffer, ctl: Controller, player: Player, xf: Placement, mesh: Mesh,
               tpage: ushort, clut: ushort, gteOf: (Svec, Vec) -> Gte, pad: Pad) returns (drawn: seq<Prim>)
    requires d.Valid() && player.Valid()
    modifies d, d.ots[0], d.ots[1], ctl, player, xf
    ensures d.Valid() && player.Valid()
    ensures ctl.padStateOld == old(ctl.padState) && ctl.padState == pad
    ensures xf.rotation == ModelTurn(old(xf.rotation), pad) && xf.position == ModelMove(old(xf.position), pad)
    ensures var switched := Rising(pad, old(ctl.padState), PADRup);
            && player.anim == (if switched then Not(old(player.anim)) else old(player.anim))
            && player.Clk() == Tick(if switched then Clock(0, 0) else old(player.Clk()), player.FrameCount())
    ensures d.currentBuffer == 1 - old(d.currentBuffer) && d.cdb == Some(d.currentBuffer)
    ensures d.ots[old(d.currentBuffer)][..] == old(d.ots[d.currentBuffer][..])
    ensures d.nextpri.Some?
    ensures var e := MainEnv(mesh, (if player.anim == 0 then player.idle else player.walk)[player.frame],
                             gteOf(xf.rotation, xf.position), tpage, clut);
            DrawState(d.nextpri.value, d.ots[d.currentBuffer][..])
              == MainRender(e, DrawState(ArenaStart(d.currentBuffer), ClearOTag(OtLength)))
    ensures drawn == DrawOrder(d.ots[d.currentBuffer][..])
  {
    HandleInputMain(ctl, player, xf, pad);
    player.Update();
    d.Swap();
    var b := d.currentBuffer;
    var ot := d.ots[b];
    ClearTable(ot);
    var verts := player.CurrentVerts();
    var e := MainEnv(mesh, verts, gteOf(xf.rotation, xf.position), tpage, clut);
    var np := MainRenderModel(e, d.nextpri.value, ot);
    d.nextpri := Some(np);
    drawn := DrawOrder(ot[..]);
  }
}
