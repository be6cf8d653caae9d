# PS1 model viewer and exporter, modelled in Dafny

This project models the rendering core of the PS1-Blender-Exporter repository. It covers:

- The PsyQ model renderer (`examples/psyq/lib/model.c`). For every triangle and quad it reads
  the face's material-flag byte and picks one of four primitive shapes. It asks the GTE for a
  depth key and drops the face unless `0 < otz < ot_length`. It then fills the colours: straight
  from the data when the face is unlit, or through NormalColorCol and the specular and metallic
  passes when it is lit. Finally it links the record into the ordering-table bucket of its depth
  key and advances the primitive-arena cursor. Before the faces, it adds one mask-mode record
  when some face needs cutout transparency.
- The helpers of the PsyQ example: the animation player, the controller handling and the
  double buffer.
- The stand-alone PsyQ viewer (`examples/psyq/main.c`). Its renderer is proved to be the library
  renderer run on a model whose every face is Unlit and Textured.
- The PSYQo viewer (`example/psyqonugget/main.cpp`): its per-frame input handling, its
  animation step and its two face loops. The loops cull by facing and by depth range, then fill
  a fixed per-parity slot and insert it into the ordering table.
- The exporter's bookkeeping (`ps1_exporter.py`):
  - the axis remap and the per-polygon colour lookup;
  - export_model's index bookkeeping: corner order, vertex offsets, UV numbering and texture
    numbering;
  - the tables write_header_file emits: flag bytes, triangle and quad tables, texture indices and
    texture defines.
- `tools/bin2header.py`, which turns a binary file into a C byte array.

Each file of the core has its own module:

- `types.dfy`: the shared value types.
- `gpu.dfy`: the ordering table and primitive records.
- `material.dfy`: the flag bits.
- `shading.dfy`: applySpecular and applyMetallic.
- `model.dfy`: the renderer, with specification functions and in-place methods on the
  ordering-table array.
- `model_proofs.dfy` and `colour_proofs.dfy`: what the renderer promises.
- `animation.dfy`, `input.dfy` and `display.dfy`.
- `psyq_main.dfy`: the PsyQ viewer.
- `psyqo_viewer.dfy`: the PSYQo viewer.
- `exporter.dfy` and `header_tables.dfy`: the exporter.
- `bin2header.dfy`: the conversion tool.

Objects whose fields the C code updates in place are classes:

- the animation globals (`Animation.Player`);
- the pad state (`Input.Controller`);
- the double buffer (`Display.DoubleBuffer`);
- the PSYQo scene (`PsyqoViewer.Viewer`).

The loops that fill an ordering table are methods. They work in place on an `array` of buckets,
and their loop invariants tie each one to a specification function. The exporter's loops run
over immutable accumulators and are methods proved against recursive functions.

Conventions:

- The GTE and the lighting library (RotAverage3/4, NormalColorCol, nclip, avsz3/4) are
  function-valued parameters that the model does not interpret.
- `addPrim` links at the head of a bucket.
- `DrawOTag` draws from the last bucket down to bucket 0.
- Record sizes are the standard libgpu `sizeof(POLY_*)` values.
- The pad bits are the libetc values.
- psyqo's `OrderingTable::insert` is modelled by the same `addPrim`, and its drawing by the
  same `DrawOTag`. The model assumes psyqo's ordering table links and draws the way libgpu's does.
- Neither libgpu.h nor libetc.h is part of this model, and neither are psyqo's headers.

The two renderers differ at depth key 0. The PsyQ renderer (`model.c` and `main.c`) keeps
only `0 < otz < N` and drops key 0. The PSYQo viewer keeps `[0, 4096)`.
`PsyqoViewer.ZeroKeyDiffers` states the difference.

## Model

| member | source | states |
|---|---|---|
| Types.Wrap16 | examples/psyq/lib/input.c:27-40 | storing into a `short` keeps the value modulo 2^16 and leaves in-range values unchanged |
| Types.WrapAdd | examples/psyq/lib/input.c:27-40 | successive `+=`/`-=` on a `short` equal one wrapped update of the unwrapped sum |
| Types.Truncate8 | examples/psyq/lib/model.c:140-144 | `setUV3` storing an SVECTOR component into a `u_char` keeps it modulo 256 and leaves bytes unchanged |
| Types.Not | examples/psyq/lib/input.c:21 | `!x` is 1 exactly when x is 0, else 0 |
| Shading.SpecularDot | examples/psyq/lib/model.c:50 | the shifted dot product is the floor of (normal · (0,-4096,-2048)) / 4096 |
| Shading.SpecularBoost | examples/psyq/lib/model.c:55-56 | the specular boost lies in [0, 255] |
| Shading.AddSat | examples/psyq/lib/model.c:59-61 | a brightened channel is c + k or 255, never below c and never above c + k |
| Shading.SubFloor | examples/psyq/lib/model.c:88-90 | a darkened channel is c - k or 0, never above c and never below c - k |
| Shading.ApplySpecular | examples/psyq/lib/model.c:42-63 | no change unless dot > 0; then every channel becomes min(c + boost, 255); never darker |
| Shading.Average | examples/psyq/lib/model.c:77 | the average lies in [0, 255] and is the truncated third of r + g + b |
| Shading.ReflectFactor | examples/psyq/lib/model.c:74 | `(metallic * abs(n.vy)) >> 12` lies in [0, 2040] |
| Shading.ApplyMetallic | examples/psyq/lib/model.c:69-93 | metallic 0 changes nothing; average > 128 adds the boost saturating at 255; otherwise subtracts `(metallic*avg)>>8` floored at 0 |
| Shading.NoOverflow | examples/psyq/lib/model.c:50-74 | the dot product and both passes' products fit a 32-bit int for every 16-bit normal and 8-bit intensity |
| Shading.MetallicStretchesContrast | examples/psyq/lib/model.c:79-91 | the metallic pass never darkens a bright colour and never brightens a dark one |
| Shading.MetallicDarkenExample | examples/psyq/lib/model.c:85-91 | metallic 200 on grey 60 gives 14, and on (100,40,40) gives (54,0,0) |
| Shading.SpecularZeroIsIdentity | examples/psyq/lib/model.c:53-62 | a zero specular intensity leaves the colour unchanged |
| Shading.SpecularMonotone | examples/psyq/lib/model.c:53-61 | a larger specular intensity never gives a darker channel |
| Material.ShapeOf | examples/psyq/lib/model.c:117-124 | GT iff textured and smooth, FT iff textured and flat, G iff untextured and smooth, F iff neither (all four iffs) |
| Material.ShapeOnlyFromTwoBits | examples/psyq/lib/model.c:117-124 | the shape depends on the Textured and Smooth bits only |
| Gpu.PolySize | examples/psyq/lib/model.c:196-197 | every primitive record has a positive size |
| Gpu.PolySizeBound | examples/psyq/lib/model.c:196-197 | a triangle record takes at most 40 bytes and a quad record at most 52 |
| Gpu.ClearOTag | examples/psyq/main.c:345 | a cleared table has the requested length and holds no records |
| Gpu.AddPrim | examples/psyq/lib/model.c:196 | linking puts the record at the head of its bucket and leaves every other bucket unchanged |
| Gpu.AddPrimCounts | examples/psyq/lib/model.c:196 | linking adds exactly one record, and one mask-mode record exactly when the linked record is one |
| Gpu.DrawOrderLength | examples/psyq/main.c:367 | DrawOTag draws every record once |
| Gpu.DrawPosCorrect | examples/psyq/main.c:367 | record j of bucket k is drawn at position DrawPos(k, j) |
| Gpu.BackToFront | examples/psyq/main.c:367 | every record of a farther (higher) bucket is drawn before every record of a nearer bucket |
| Model.UsedVerts | examples/psyq/lib/model.c:225-249 | a smooth face reads every vertex's colour and normal; a flat face reads vertex 0 only |
| Model.Colours | examples/psyq/lib/model.c:150-190 | one colour per used vertex, in order, each that vertex's unlit or lit colour |
| Model.UvsOf | examples/psyq/lib/model.c:136-144 | one UV pair per UV index, the indexed SVECTOR's vx/vy truncated to bytes |
| Model.FacePrim | examples/psyq/lib/model.c:123-197 | the record has the face's kind and index, the arena address, the projected points, the shape from the flags, tpage/clut iff textured, and semi-transparency iff the Alpha bit is set |
| Model.FaceStep | examples/psyq/lib/model.c:110-197 | one loop pass (specification function): the depth test, then link the record and advance the cursor; the table keeps its length |
| Model.RenderFaces | examples/psyq/lib/model.c:110-197 | the first n passes (specification function); the table keeps its length |
| Model.CutoutStep | examples/psyq/lib/model.c:682-690 | the optional mask-mode record (specification function); the table keeps its length |
| Model.RenderModelSpec | examples/psyq/lib/model.c:680-696 | mask-mode record, then triangles, then quads (specification function); the table keeps its length |
| Model.ModelNeedsCutout | examples/psyq/lib/model.c:21-36 | true iff some triangle flag or some quad flag (at tri_count + i) has the Cutout bit |
| Model.EmitFace | examples/psyq/lib/model.c:110-197 | the in-place loop body changes cursor and table exactly as FaceStep |
| Model.RenderKind | examples/psyq/lib/model.c:110-197 | the in-place face loop ends in RenderFaces's state |
| Model.RenderTriangles | examples/psyq/lib/model.c:98-372 | the triangle loop ends in the state RenderFaces gives for tri_count triangles |
| Model.RenderQuads | examples/psyq/lib/model.c:377-675 | the quad loop ends in the state RenderFaces gives for quad_count quads |
| Model.RenderModel | examples/psyq/lib/model.c:680-696 | the returned cursor and the table equal RenderModelSpec of the inputs |
| ModelProofs.FaceBytes | examples/psyq/lib/model.c:196-197 | a face uses bytes iff it is accepted, at most 40 (triangle) or 52 (quad) |
| ModelProofs.AcceptedBytes | examples/psyq/lib/model.c:196-197 | n faces use at most 40n (triangles) or 52n (quads) bytes |
| ModelProofs.AcceptedCount | examples/psyq/lib/model.c:135 | at most n of n faces are accepted |
| ModelProofs.RenderFacesCursor | examples/psyq/lib/model.c:135-197 | the cursor advances by the sizes of the accepted faces only |
| ModelProofs.CountsStep | examples/psyq/lib/model.c:135-197 | one pass links one record iff the face is accepted, and never a mask-mode record |
| ModelProofs.RenderFacesCounts | examples/psyq/lib/model.c:110-197 | the loop links exactly one record per accepted face |
| ModelProofs.RenderModelCursor | examples/psyq/lib/model.c:680-696 | renderModel returns start + sizeof(DR_STP) if cutout + sizes of accepted triangles and quads |
| ModelProofs.CutoutCounts | examples/psyq/lib/model.c:682-690 | the cutout step links one record, a mask-mode one, iff some face needs cutout |
| ModelProofs.RenderModelCounts | examples/psyq/lib/model.c:680-696 | renderModel links one record per accepted face plus exactly one mask-mode record iff cutout |
| ModelProofs.ArenaBound | examples/psyq/lib/display.h:25 | a model uses at most 12 + 40·tri + 52·quad bytes, so the bundled 200/264 model fits the 131072-byte arena |
| ModelProofs.RenderFacesExtends | examples/psyq/lib/model.c:196 | the face loop only prepends to buckets; nothing linked earlier is lost or reordered |
| ModelProofs.RenderFacesSound | examples/psyq/lib/model.c:110-197 | every record the loop links belongs to an accepted face below n, in that face's depth bucket, at its own cursor position |
| ModelProofs.RenderFacesComplete | examples/psyq/lib/model.c:110-197 | every accepted face's record is in the bucket of its depth key after the loop |
| ModelProofs.CutoutBucket | examples/psyq/lib/model.c:686-689 | after the cutout step a cleared table holds the mask-mode record alone in bucket ot_length-1 iff cutout |
| ModelProofs.RenderModelSound | examples/psyq/lib/model.c:680-696 | every record in a cleared table after renderModel is the one mask-mode record (last of bucket ot_length-1) or an accepted face's record at its depth key |
| ModelProofs.RenderModelMask | examples/psyq/lib/model.c:682-690 | a cleared table ends with exactly one mask-mode record iff some face needs cutout, at the tail of bucket ot_length-1: drawn after that bucket's faces and before every nearer bucket |
| ModelProofs.RenderModelComplete | examples/psyq/lib/model.c:680-696 | every accepted triangle and quad has its record in renderModel's table, in its depth bucket |
| ColourProofs.UnlitColour | examples/psyq/lib/model.c:150-160 | an unlit vertex is vertex_colors[v] when the VertexColor bit is set, else grey 128 |
| ColourProofs.UnlitIgnoresLighting | examples/psyq/lib/model.c:150-160 | an unlit face's colours ignore normals, the GTE, specular and metallic |
| ColourProofs.SlotUnreadWhenUnlit | examples/psyq/lib/model.c:150-160 | an unlit face never reads its specular/metallic slot |
| ColourProofs.FlatReadsVertexZero | examples/psyq/lib/model.c:225-249 | a flat face carries one colour, that of its vertex 0 |
| ColourProofs.SmoothReadsEveryVertex | examples/psyq/lib/model.c:150-190 | a smooth face carries one colour per vertex, in vertex order |
| ColourProofs.AlphaCutoutOnly | examples/psyq/lib/model.c:9-16 | flag bytes differing only in Alpha and Cutout agree on every bit that decides shape and colour |
| ColourProofs.AlphaOnlySetsSemiTrans | examples/psyq/lib/model.c:117-194 | changing only Alpha or Cutout changes a face's record only in its semi-transparency, which follows Alpha |
| ColourProofs.PassesGatedByBitAndPointer | examples/psyq/lib/model.c:174-185 | each pass runs only with both its bit and its array; otherwise the colour is NormalColorCol's |
| ColourProofs.SpecularBeforeMetallic | examples/psyq/lib/model.c:173-185 | specular runs before metallic, and the two orders differ: (100,100,100) gives (254,254,254), not (129,129,129) |
| ColourProofs.FacePrimIgnoresMeshes | examples/psyq/lib/model.h:26-27 | a face's record does not depend on mesh_ids or visible_meshes |
| ColourProofs.RenderFacesIgnoresMeshes | examples/psyq/lib/model.c:110-197 | the face loop does not depend on mesh_ids or visible_meshes |
| ColourProofs.RenderModelIgnoresMeshes | examples/psyq/lib/model.c:680-696 | renderModel never reads mesh_ids or visible_meshes: replacing them changes nothing |
| Animation.TickInRange | examples/psyq/lib/animation.c:32-41 | one update keeps the timer below ANIM_SPEED and the frame below the frame count |
| Animation.TicksFromStart | examples/psyq/lib/animation.c:32-41 | from frame 0, 2j updates reach frame j with timer 0 and 2j+1 reach frame j with timer 1 |
| Animation.AnimationLoops | examples/psyq/lib/animation.c:37-39 | ANIM_SPEED·count updates return to frame 0, timer 0, and no fewer updates do |
| Animation.Player.constructor | examples/psyq/lib/animation.c:6-8 | idle track, frame 0, timer 0 |
| Animation.Player.FrameCount | examples/psyq/lib/animation.c:16-22 | the idle count when the track is 0, the walk count otherwise |
| Animation.Player.Init | examples/psyq/lib/animation.c:10-14 | resets track, frame and timer to 0; the invariant then holds whenever both tracks have frames |
| Animation.Player.CurrentVerts | examples/psyq/lib/animation.c:24-30 | the current frame's row of the current track |
| Animation.Player.Update | examples/psyq/lib/animation.c:32-41 | one Tick on the current track; the track is unchanged and the invariant kept |
| Animation.Player.Switch | examples/psyq/lib/input.c:20-24 | the track becomes `!track`, and frame and timer become 0 |
| Input.StepCases | examples/psyq/lib/input.c:27-56 | a button pair moves by +d iff only plus is held, by -d iff only minus is held, and not at all iff both or neither are held |
| Input.CameraOppositesCancel | examples/psyq/lib/input.c:27-56 | opposite buttons held together cancel; rotation.vz and position.vx never change |
| Input.HeldTogglesOnce | examples/psyq/lib/input.c:20-24 | holding Triangle over any number of frames switches track at most once, on the first frame |
| Input.Controller.constructor | examples/psyq/lib/input.c:6-7 | both pad states start at 0 |
| Input.Controller.Init | examples/psyq/lib/input.c:9-13 | both pad states become 0 |
| Input.Controller.Sample | examples/psyq/lib/input.c:16-17 | the previous sample moves to padStateOld and the new one to padState |
| Input.SwitchOnEdge | examples/psyq/lib/input.c:20-24 | on a rising Triangle edge the track switches and restarts; otherwise the player is unchanged; the invariant is kept |
| Input.NudgeShort | examples/psyq/lib/input.c:27-32 | `+= d` then `-= d` on a short is one wrapped update by the net step |
| Input.TurnCamera | examples/psyq/lib/input.c:26-40 | the rotation becomes CameraTurn of the pad; the position is unchanged |
| Input.MoveCamera | examples/psyq/lib/input.c:42-56 | the position becomes CameraMove of the pad; the rotation is unchanged |
| Input.HandleInput | examples/psyq/lib/input.c:15-57 | samples the pad, switches track on a rising Triangle edge, and turns and moves the camera by the held buttons |
| Display.ClearTable | examples/psyq/main.c:345 | every bucket of the table becomes empty |
| Display.DoubleBuffer.constructor | examples/psyq/lib/display.c:5-11 | buffer 0 is current, and cdb and nextpri are null |
| Display.DoubleBuffer.Init | examples/psyq/lib/display.c:16-38 | buffer 0 draws at (0,0) and shows (0,240); buffer 1 is the reverse; both have the background colour (40,60,80); the buffers are paired |
| Display.DoubleBuffer.Swap | examples/psyq/lib/display.c:40-44 | flips the buffer, points cdb at it and rewinds nextpri to its arena; the environments are unchanged |
| Display.SwapTwice | examples/psyq/lib/display.c:40-44 | two calls of swapBuffers restore `currentBuffer`, point `cdb` at it again and rewind `nextpri` to its arena's start; the environments are unchanged |
| PsyqMain.MainFaces | examples/psyq/main.c:220-301 | main.c's face loop (specification function); the table keeps its length |
| PsyqMain.MainStepIsLibraryStep | examples/psyq/main.c:220-253 | one pass of main.c's loop equals one pass of the library loop on the Unlit\|Textured model |
| PsyqMain.MainFacesIsLibrary | examples/psyq/main.c:215-302 | main.c's face loops equal the library loops on the Unlit\|Textured model |
| PsyqMain.MainRenderIsLibrary | examples/psyq/main.c:307-320 | main.c's renderModel equals the library renderModel on that model, with no mask-mode record |
| PsyqMain.MainArenaBound | examples/psyq/main.c:42 | one frame's records fit the 131072-byte arena |
| PsyqMain.FrameStaysInArena | examples/psyq/lib/display.c:10-11 | a frame that starts at arena b's start (as swapBuffers leaves the cursor) ends inside arena b and never reaches into the other buffer's arena |
| PsyqMain.MainEmit | examples/psyq/main.c:221-251 | the in-place loop body changes cursor and table exactly as MainStep |
| PsyqMain.MainRenderKind | examples/psyq/main.c:215-302 | the triangle or quad loop ends in MainFaces's state |
| PsyqMain.MainRenderModel | examples/psyq/main.c:307-320 | triangles then quads end in MainRender's state |
| PsyqMain.ModelMirrorsCamera | examples/psyq/main.c:179-209 | main.c turns the model by the negated camera step of input.c and moves it vertically by the negated step; depth is the same |
| PsyqMain.HandleInputMain | examples/psyq/main.c:168-210 | samples the pad, switches track on a rising edge, and turns and moves the model by ModelTurn/ModelMove |
| PsyqMain.Frame | examples/psyq/main.c:333-368 | the pad is sampled; the model is turned and moved by ModelTurn/ModelMove of the pad; the track switches and restarts on a rising Triangle edge, then the animation clock ticks once; the buffer has flipped and the other table is untouched; the current table and cursor are MainRender, for that new pose and frame, of a cleared table from the arena start; and the drawn sequence is its DrawOrder |
| PsyqoViewer.NoBindPose | example/psyqonugget/main.cpp:83-107 | below the frame count, getAnimVertex reads the track, never the bind pose |
| PsyqoViewer.ViewerStep | example/psyqonugget/main.cpp:222-262 | one pass of a face loop (specification function); table and slots keep their lengths |
| PsyqoViewer.ViewerFaces | example/psyqonugget/main.cpp:222-314 | the first n passes (specification function); table and slots keep their lengths |
| PsyqoViewer.ViewerSlots | example/psyqonugget/main.cpp:246-261 | slot j holds face j's primitive iff face j was accepted, and otherwise keeps its old content |
| PsyqoViewer.ViewerCount | example/psyqonugget/main.cpp:222-262 | one primitive is inserted per accepted face |
| PsyqoViewer.ViewerComplete | example/psyqonugget/main.cpp:261 | every accepted face's primitive is in the bucket of its depth key |
| PsyqoViewer.ZeroKeyDiffers | example/psyqonugget/main.cpp:240 | a front-facing face at depth key 0 is drawn by the viewer but dropped by the library renderer |
| PsyqoViewer.ViewerRenderKind | example/psyqonugget/main.cpp:222-314 | the face loop ends in ViewerFaces's state |
| PsyqoViewer.ZoomBounds | example/psyqonugget/main.cpp:166-173 | zoom stays in [1000, 10000], moves at most 100, and moves exactly 100 when in range |
| PsyqoViewer.Nudge | example/psyqonugget/main.cpp:160-163 | the value changes by the net step of the two buttons |
| PsyqoViewer.ZoomClamped | example/psyqonugget/main.cpp:166-173 | the clamped L2/R2 statements compute Zoom |
| PsyqoViewer.NextFrameInRange | example/psyqonugget/main.cpp:201-202 | the next animation frame is below the frame count |
| PsyqoViewer.Viewer.constructor | example/psyqonugget/main.cpp:55-70 | the member initialisers: no rotation, Z 3000, Y -1000, frame 0, animating, idle |
| PsyqoViewer.Viewer.MoveModel | example/psyqonugget/main.cpp:160-177 | rotation by ±rotStep per held D-pad button, clamped zoom, height ±100; the invariant is kept |
| PsyqoViewer.Viewer.ToggleModes | example/psyqonugget/main.cpp:179-188 | Start flips animate every frame it is held; Triangle switches track and restarts only on its rising edge |
| PsyqoViewer.Viewer.AdvanceTwice | example/psyqonugget/main.cpp:198-203 | while animating, two consecutive animation steps advance the animation frame exactly once (wrapping at the count), also across the wrap of the unsigned frame counter |
| PsyqoViewer.Viewer.Advance | example/psyqonugget/main.cpp:198-203 | counts frames mod 2^32 and advances the animation frame on even counts when animating, wrapping at the count |
| PsyqoViewer.Viewer.Update | example/psyqonugget/main.cpp:160-203 | the input and animation half of frame(): rotation, clamped zoom and height follow the held buttons; Start flips `animate`; a Triangle press switches and restarts the track; the frame counter steps mod 2^32 and the animation frame then advances on even counts while animating; the invariant is kept |
| PsyqoViewer.Viewer.Render | example/psyqonugget/main.cpp:190-316 | this parity's table and slots become the two face loops over a cleared table; the other parity is untouched |
| PsyqoViewer.Viewer.Frame | example/psyqonugget/main.cpp:156-322 | rotation, clamped zoom and height follow the held buttons; Start flips `animate`; a Triangle press switches the track and restarts it; the frame counter steps mod 2^32 and the animation frame then advances on even counts while animating; the other parity's buffers are untouched; this parity's table and slots are the two face loops over a cleared table for that new state; the invariant is kept |
| Exporter.ConvertRoundTrip | ps1_exporter.py:46-50 | the axis remap and its inverse undo each other |
| Exporter.ConvertIsQuarterTurn | ps1_exporter.py:46-50 | the remap keeps x and the squared length; four remaps are the identity |
| Exporter.CornerColoursRun | ps1_exporter.py:99-103 | corner colours are the polygon's run of the colour list when all exist, and never more than the corners |
| Exporter.VertexColoursAtMost | ps1_exporter.py:104-107 | there are never more vertex colours than vertices |
| Exporter.VertexColoursOneForOne | ps1_exporter.py:104-107 | with all indices in range, the colours are the vertices' colours one for one |
| Exporter.GetPolyColor | ps1_exporter.py:92-112 | the returned list is PolyColours of the polygon, colour table and domain: corner colours, vertex colours or none |
| Exporter.Corners | ps1_exporter.py:341-380 | a triangle's or a quad's corner order has one index per corner, each within the polygon |
| Exporter.ExportPoly | ps1_exporter.py:325-419 | one polygon updates the accumulators as AddPoly |
| Exporter.ExportModel | ps1_exporter.py:257-424 | the two nested loops compute ExportAll over every object |
| Exporter.WindingReversed | ps1_exporter.py:341-380 | the corner orders reverse Blender's winding for triangles and quads |
| Exporter.RegisterKeeps | ps1_exporter.py:329-334 | registering a name keeps the numbering: name i maps to i, and existing numbers are unchanged |
| Exporter.RegisterConsistent | ps1_exporter.py:329-334 | registering keeps the export consistent, and the name is numbered afterwards |
| Exporter.AddPolyConsistent | ps1_exporter.py:325-419 | one polygon keeps one material per face, uv_offset == len(all_uvs), and the numbering |
| Exporter.AddPolysConsistent | ps1_exporter.py:325-419 | the polygon loop keeps consistency, the vertex offset and the earlier faces |
| Exporter.ExportConsistent | ps1_exporter.py:272-421 | after any number of objects the export is consistent and vertex_offset counts the vertices so far |
| Exporter.TextureIndexNamesTexture | ps1_exporter.py:329-334 | a textured face's texture_index names its own texture; an untextured face gets -1; equal names get equal indices |
| Exporter.FirstSeenDistinct | ps1_exporter.py:329-334 | the first-seen list has no repeats and holds exactly the names seen |
| Exporter.AddPolyFirstSeen | ps1_exporter.py:329-334 | one polygon extends texture_names as the first-seen fold does |
| Exporter.AddPolysFirstSeen | ps1_exporter.py:325-334 | the polygon loop numbers textures in first-seen order |
| Exporter.TextureNamesFirstSeen | ps1_exporter.py:264-334 | texture_names is every polygon's texture name in first-seen order, without repeats |
| Exporter.AddPolyVerticesInRange | ps1_exporter.py:341-380 | a polygon's face refers only to its object's vertices, offset past earlier objects |
| Exporter.AddPolysVerticesInRange | ps1_exporter.py:341-421 | an object's faces refer only to its own vertices, offset past earlier objects |
| Exporter.AddPolyUvs | ps1_exporter.py:350-410 | with a UV layer the face's UV indices are the next ones, read in corner order; without one they are all 0 and no UV is added |
| HeaderTables.FlagsAgreeWithRenderer | ps1_exporter.py:534-543 | each exporter bit means what the renderer's MAT_FLAG_ says; bits 4-7 are never set; the shape matches the material |
| HeaderTables.KindsPartition | ps1_exporter.py:488-489 | the triangle and quad tables hold tri_count and len-tri_count rows, together exactly the faces |
| HeaderTables.KindsMembers | ps1_exporter.py:491-521 | each table holds exactly the entries of its kind |
| HeaderTables.RendererReadsOwnFlags | ps1_exporter.py:534-552 | with the corrected flag table, the renderer reads triangle k's and quad k's flags from their own materials |
| HeaderTables.FlagsAsWrittenMisread | ps1_exporter.py:534-552 | with the table as written, a quad exported before a triangle gives the triangle the quad's flags |
| HeaderTables.SortNames | ps1_exporter.py:472 | `sorted` is a permutation of the names |
| HeaderTables.Defines | ps1_exporter.py:472-476 | one define per texture name |
| HeaderTables.DefinesMatchTextureIndex | ps1_exporter.py:472-476 | with first-seen numbering, every texture's define equals its face_texture_idx number |
| HeaderTables.DefinesAsWrittenMisnumber | ps1_exporter.py:472-476 | names first seen "b" then "a": TEXTURE_B is 1 but the faces textured with "b" have index 0 |
| HeaderTables.CollectRows | ps1_exporter.py:491-521 | the loop appends exactly the vertex or UV rows of the faces of one kind, in order |
| HeaderTables.CollectFlags | ps1_exporter.py:534-552 | the loop appends each entry's flag byte in order |
| HeaderTables.CollectTextureIdx | ps1_exporter.py:526-527 | the loop appends each face's texture index in order |
| HeaderTables.CollectDefines | ps1_exporter.py:472-476 | the loop numbers the names in the order given |
| HeaderTables.WriteTables | ps1_exporter.py:426-567 | the emitted tables are HeaderSpec: kind tables, texture indices, flags triangles first, first-seen defines |
| Bin2Header.HexByte | tools/bin2header.py:19 | each token is four characters starting `0x` |
| Bin2Header.HexByteRoundTrip | tools/bin2header.py:19 | a byte's token reads back as the byte, with upper-case hex digits |
| Bin2Header.Lines | tools/bin2header.py:17-20 | one line per chunk, in order |
| Bin2Header.DecimalRoundTrip | tools/bin2header.py:15 | the declared length reads back as the number of bytes |
| Bin2Header.ChunksCover | tools/bin2header.py:17-18 | ceil(n/16) chunks, all but the last of 16 bytes, the last of 1-16; together exactly the data |
| Bin2Header.ChunksNonEmpty | tools/bin2header.py:17-18 | every chunk holds at least one byte |
| Bin2Header.ScanHexList | tools/bin2header.py:19 | reading a line's tokens gives the chunk's bytes |
| Bin2Header.ScanLines | tools/bin2header.py:21 | reading the joined lines gives every chunk's bytes in order |
| Bin2Header.BodyRoundTrip | tools/bin2header.py:21 | reading the array body and the closing gives exactly the input bytes |
| Bin2Header.HeaderDeclaresLength | tools/bin2header.py:15 | the text between `[` and `]` reads back as the number of bytes |
| Bin2Header.HeaderHoldsBytes | tools/bin2header.py:15-21 | reading everything after the opening brace gives exactly the input bytes |
| Bin2Header.Bin2HeaderMain | tools/bin2header.py:4-21 | Run: the usage outcome unless argv holds the script and exactly three arguments, else the header text for the array named by the third |

## Left out

- Array indices that are out of range are undefined behaviour in the C code. The model reads every array through `Model.At`, which returns a fixed default, so the model is total. On in-range data it agrees with the C code.
- The GTE and libgpu internals are not modelled: RotAverage3/4, NormalColorCol, nclip, avsz3/4, the rotation matrices, ResetGraph, PutDrawEnv/PutDispEnv, DrawSync/VSync and SetDispMask. The GTE calls are function parameters; the rest is omitted.
- Texture loading (`texture.c` and `loadTexture`), lighting set-up, sound and camera set-up are not modelled, and neither is the font or text overlay. `camera.c` is not part of this model. Its camera rotation and position are the fields of `Input.Placement`.
- The Blender API is not modelled. The exporter works on an abstract mesh: vertex count, loop vertex indices, polygons and a UV-layer flag. Float values are not modelled: world transforms, `PS1_SCALE_FACTOR` scaling, UV scaling and colour scaling are carried symbolically, as `Exporter.UvRef`.
- get_vertex_colors, is_solid_white, detect_material_properties and the vertex-colour extraction loops of export_model are not modelled. Their results are inputs to the model.
- The header text of write_header_file is not modelled: guard, includes, comments, number formatting, the vertex, UV and vertex-colour tables, and clean_name. Each table is modelled as its sequence of rows.
- File I/O and console messages are not modelled, including bin2header's final `print` and exit status.
- For a rejected face, the C code writes the polygon header and projected points into the arena before the depth test. The cursor is not advanced, so the next record overwrites them. The model does not represent this scratch write.
- Model.RenderModel: the C code has no bound check on the arena. `ModelProofs.ArenaBound` bounds the bytes used, but a model larger than the arena is not rejected.
- Types.Vec: 32-bit `long` and `int32_t` values (translations, the frame arithmetic of the PSYQo viewer apart from `m_frameCount`) are modelled as unbounded integers. The modelled steps cannot overflow them in practice.
- PsyqoViewer.Viewer.MoveModel: psyqo's fixed-point `Angle` arithmetic is not modelled. Rotations are integers, and the step `0.02_pi` is the parameter `rotStep`.
- PsyqoViewer.Viewer.Frame: the clear fill, `gpu().chain` and the font print are not modelled.
- Exporter.AddPoly: texture names are taken to be non-empty, as Blender image names are. An empty name, which the truthiness test at ps1_exporter.py:329 would skip, is registered by the model.
- HeaderTables.SortNames: its contract states only that `sorted` returns a permutation of the names. Its ordering (an insertion sort by code point) is not stated as a property.
- HeaderTables.WriteTables: `face_texture_idx` stays in the exporter's face order. No reader of it exists in the core to say which order it should follow.

## Findings

| source | as written | input that shows it | evidently intended | confidence | as-written member | corrected member |
|---|---|---|---|---|---|---|
| ps1_exporter.py:534-552 | `material_flags` is written in the exporter's face order, with triangles and quads interleaved. The renderer reads triangle i's flags at i and quad i's at `tri_count + i` (model.c:111, 388-391). | A textured quad exported before an untextured triangle: the renderer draws triangle 0 with the quad's flags, as textured. | write the triangles' flags first, then the quads' | high; not executed | HeaderTables.FlagsAsWrittenMisread | HeaderTables.RendererReadsOwnFlags |
| ps1_exporter.py:472-476 | `TEXTURE_<name>` is numbered by position in `sorted(texture_names)`, while `face_texture_idx` uses first-seen order (329-334). | Names first seen "b" then "a": faces textured with "b" have index 0, but `TEXTURE_B` is 1. | number the defines in `texture_names` order | medium; not executed | HeaderTables.DefinesAsWrittenMisnumber | HeaderTables.DefinesMatchTextureIndex |
