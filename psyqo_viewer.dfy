/** The PSYQo viewer example/psyqonugget/main.cpp: per frame it reads the pad (held
    buttons rotate and move the model, Start toggles animation on every frame it is
    held, a Triangle press switches track), advances the animation every second frame,
    and for each of the 200 triangles and 264 quads drops the face when it faces away
    (`MAC0 <= 0`, from the first three vertices only) or its depth key is outside
    `[0, 4096)`, and otherwise fills the face's fixed slot for this frame's parity and
    inserts it into this frame's ordering table. The GTE kernels are functions the
    model does not interpret; the GPU parity is an input. */
module PsyqoViewer {
  import opened Types
  import opened Gpu
  import opened Model

  const OtSize: int := 4096
  const Triangles: int := 200
  const Quads: int := 264

  /** The texture-page attribute word `setPageX(5).setPageY(0)` with 16-bit colour:
      page X in bits 0-3, colour depth 2 in bits 7-8 of the GPU's texpage layout. */
  const ViewerTPage: ushort := 5 + 2 * 128

  /** The pad buttons the viewer reads. */
  datatype Button = Up | Down | Left | Right | L1 | R1 | L2 | R2 | Start | Triangle

  /** The model and animation tables of the bundled headers. */
  datatype Tables = Tables(vertices: seq<Svec>, idle: seq<seq<Svec>>, walk: seq<seq<Svec>>,
                           triFaces: seq<seq<int>>, triUvs: seq<seq<int>>,
                           quadFaces: seq<seq<int>>, quadUvs: seq<seq<int>>, uvs: seq<Svec>)

  /** `WALK_FRAMES_COUNT` or `IDLE_FRAMES_COUNT`: one frame per table row. */
  function MaxFrames(t: Tables, walking: bool): nat {
    if walking then |t.walk| else |t.idle|
  }

  /** getAnimVertex (main.cpp:83-107): the track's entry when the frame is below the
      track's frame count, else the bind pose `vertices[vtxIdx]`. */
  function AnimVertex(t: Tables, vtx: int, frame: int, walking: bool): Svec {
    var z := Svec(0, 0, 0);
    if walking then
      if frame < |t.walk| then At(At(t.walk, frame, []), vtx, z) else At(t.vertices, vtx, z)
    else
      if frame < |t.idle| then At(At(t.idle, frame, []), vtx, z) else At(t.vertices, vtx, z)
  }

  /** While the frame is below the track's frame count (which the viewer keeps, see
      Viewer.Valid), the bind-pose fallback is never taken. */
  lemma NoBindPose(t: Tables, vtx: int, frame: int, walking: bool)
    requires 0 <= frame < MaxFrames(t, walking)
    ensures AnimVertex(t, vtx, frame, walking) == At((if walking then t.walk else t.idle)[frame], vtx, Svec(0, 0, 0))
  {
  }

  /** The GTE kernels: `nclip` after `rtpt` on three vertices (the facing value MAC0),
      and `avsz3`/`avsz4` with the projected points (the depth key and SXY). */
  datatype ViewerGte = ViewerGte(
    nclip: (Svec, Svec, Svec) -> int,
    avsz3: (Svec, Svec, Svec) -> Projection,
    avsz4: (Svec, Svec, Svec, Svec) -> Projection)

  /** What the two face loops read. */
  datatype ViewerEnv = ViewerEnv(t: Tables, gte: ViewerGte, frame: int, walking: bool)

  function FaceOf(t: Tables, k: Kind, i: int): seq<int> {
    At(if k == Tri then t.triFaces else t.quadFaces, i, [])
  }

  function UvIndices(t: Tables, k: Kind, i: int): seq<int> {
    At(if k == Tri then t.triUvs else t.quadUvs, i, [])
  }

  /** Vertex `j` of face `i`, from the current animation frame. */
  function CornerOf(e: ViewerEnv, k: Kind, i: int, j: int): Svec {
    AnimVertex(e.t, At(FaceOf(e.t, k, i), j, -1), e.frame, e.walking)
  }

  /** MAC0 after `nclip`: for a quad, from its first three vertices only. */
  function Facing(e: ViewerEnv, k: Kind, i: int): int {
    e.gte.nclip(CornerOf(e, k, i, 0), CornerOf(e, k, i, 1), CornerOf(e, k, i, 2))
  }

  function ViewerProject(e: ViewerEnv, k: Kind, i: int): Projection {
    if k == Tri then e.gte.avsz3(CornerOf(e, k, i, 0), CornerOf(e, k, i, 1), CornerOf(e, k, i, 2))
    else e.gte.avsz4(CornerOf(e, k, i, 0), CornerOf(e, k, i, 1), CornerOf(e, k, i, 2), CornerOf(e, k, i, 3))
  }

  /** The two `continue` tests: facing first, then `zIndex < 0 || zIndex >= 4096`. */
  predicate ViewerAccepted(e: ViewerEnv, k: Kind, i: int) {
    Facing(e, k, i) > 0 && 0 <= ViewerProject(e, k, i).otz < OtSize
  }

  /** The primitive written into slot `i`: flat-textured, grey, opaque, with the viewer's
      texture page and no CLUT. `addr` is the slot index. */
  function ViewerPrim(e: ViewerEnv, k: Kind, i: int): Prim {
    Poly(k, FT, i, i, ViewerProject(e, k, i).xy, [Grey], UvsOf(e.t.uvs, UvIndices(e.t, k, i)),
         Some(Texture(ViewerTPage, 0)), false)
  }

  /** The ordering table and the slots of one kind for this frame's parity. */
  datatype Pass = Pass(ot: seq<Bucket>, slots: seq<Option<Prim>>)

  /** One pass of a face loop (main.cpp:222-262 for triangles, 265-314 for quads). */
  function ViewerStep(e: ViewerEnv, k: Kind, i: int, p: Pass): (r: Pass)
    requires OtSize <= |p.ot| && 0 <= i < |p.slots|
    ensures |r.ot| == |p.ot| && |r.slots| == |p.slots|
  {
    if ViewerAccepted(e, k, i) then
      var prim := ViewerPrim(e, k, i);
      Pass(AddPrim(p.ot, ViewerProject(e, k, i).otz, prim), p.slots[i := Some(prim)])
    else
      p
  }

  /** The first `n` passes of a face loop. */
  function ViewerFaces(e: ViewerEnv, k: Kind, n: nat, p: Pass): (r: Pass)
    requires OtSize <= |p.ot| && n <= |p.slots|
    ensures |r.ot| == |p.ot| && |r.slots| == |p.slots|
  {
    if n == 0 then p else ViewerStep(e, k, n - 1, ViewerFaces(e, k, n - 1, p))
  }

  /** The number of accepted faces among the first `n`. */
  function ViewerAcceptedCount(e: ViewerEnv, k: Kind, n: nat): (c: nat)
    ensures c <= n
  {
    if n == 0 then 0 else ViewerAcceptedCount(e, k, n - 1) + (if ViewerAccepted(e, k, n - 1) then 1 else 0)
  }

  /** After the loop, slot `j` holds face `j`'s primitive when that face was accepted
      and keeps what it held (from two frames ago) otherwise. */
  lemma {:induction false} ViewerSlots(e: ViewerEnv, k: Kind, n: nat, p: Pass, j: int)
    requires OtSize <= |p.ot| && n <= |p.slots| && 0 <= j < |p.slots|
    ensures ViewerFaces(e, k, n, p).slots[j]
         == if j < n && ViewerAccepted(e, k, j) then Some(ViewerPrim(e, k, j)) else p.slots[j]
  {
    if n > 0 {
      ViewerSlots(e, k, n - 1, p, j);
    }
  }

  /** One primitive is inserted per accepted face. */
  lemma {:induction false} ViewerCount(e: ViewerEnv, k: Kind, n: nat, p: Pass)
    requires OtSize <= |p.ot| && n <= |p.slots|
    ensures Count(ViewerFaces(e, k, n, p).ot) == Count(p.ot) + ViewerAcceptedCount(e, k, n)
  {
    if n > 0 {
      ViewerCount(e, k, n - 1, p);
      var prev := ViewerFaces(e, k, n - 1, p);
      if ViewerAccepted(e, k, n - 1) {
        AddPrimCounts(prev.ot, ViewerProject(e, k, n - 1).otz, ViewerPrim(e, k, n - 1));
      }
    }
  }

  /** Every accepted face's primitive is in the bucket of its depth key. */
  lemma {:induction false} ViewerComplete(e: ViewerEnv, k: Kind, n: nat, p: Pass, j: int)
    requires OtSize <= |p.ot| && n <= |p.slots| && 0 <= j < n && ViewerAccepted(e, k, j)
    ensures ViewerPrim(e, k, j) in ViewerFaces(e, k, n, p).ot[ViewerProject(e, k, j).otz]
  {
    var prev := ViewerFaces(e, k, n - 1, p);
    if j < n - 1 {
      ViewerComplete(e, k, n - 1, p, j);
    }
    if ViewerAccepted(e, k, n - 1) {
      var z := ViewerProject(e, k, n - 1).otz;
      var o := ViewerProject(e, k, j).otz;
      assert ViewerFaces(e, k, n, p).ot[o] == if o == z then [ViewerPrim(e, k, n - 1)] + prev.ot[o] else prev.ot[o];
    }
  }

  /** The viewer accepts a front-facing face whose depth key is 0, which the library
      renderer (`0 < otz`) drops. */
  lemma ZeroKeyDiffers(e: ViewerEnv, env: Env, k: Kind, i: int)
    requires Facing(e, k, i) > 0 && ViewerProject(e, k, i).otz == 0
    requires Project(env, k, i).otz == 0
    ensures ViewerAccepted(e, k, i) && !Accepted(env, k, i)
  {
  }

  /** The loop of one kind, on the ordering table and slot array passed by value. */
  method ViewerRenderKind(e: ViewerEnv, k: Kind, n: nat, ot: seq<Bucket>, slots: seq<Option<Prim>>)
    returns (ot': seq<Bucket>, slots': seq<Option<Prim>>)
    requires OtSize <= |ot| && n <= |slots|
    ensures Pass(ot', slots') == ViewerFaces(e, k, n, Pass(ot, slots))
  {
    ot', slots' := ot, slots;
    var i := 0;
    while i < n
      invariant 0 <= i <= n
      invariant Pass(ot', slots') == ViewerFaces(e, k, i, Pass(ot, slots))
    {
      if Facing(e, k, i) > 0 {
        var proj := ViewerProject(e, k, i);
        if 0 <= proj.otz < OtSize {
          var prim := ViewerPrim(e, k, i);
          slots' := slots'[i := Some(prim)];
          ot' := AddPrim(ot', proj.otz, prim);
        }
      }
      i := i + 1;
    }
  }

  /** `m_translateZ` after L2 (zoom in, capped at 10000) and R2 (zoom out, floored at
      1000). */
  function Zoom(z: int, l2: bool, r2: bool): int {
    var z1 := if l2 then (if z + 100 > 10000 then 10000 else z + 100) else z;
    if r2 then (if z1 - 100 < 1000 then 1000 else z1 - 100) else z1
  }

  /** Zooming keeps the distance in [1000, 10000], moves it by at most 100 in either
      direction, and moves it by exactly 100 when that stays in range. */
  lemma ZoomBounds(z: int, l2: bool, r2: bool)
    requires 1000 <= z <= 10000
    ensures 1000 <= Zoom(z, l2, r2) <= 10000
    ensures z - 100 <= Zoom(z, l2, r2) <= z + 100
    ensures l2 && !r2 && z + 100 <= 10000 ==> Zoom(z, l2, r2) == z + 100
    ensures r2 && !l2 && z - 100 >= 1000 ==> Zoom(z, l2, r2) == z - 100
  {
  }

  /** `if (minus) x -= d; if (plus) x += d;` on an unbounded value. */
  method Nudge(x: int, plus: bool, minus: bool, d: int) returns (r: int)
    ensures r == x + (if plus then d else 0) - (if minus then d else 0)
  {
    r := x;
    if minus { r := r - d; }
    if plus { r := r + d; }
  }

  /** The L2/R2 statements of frame() (main.cpp:166-173), on a local. */
  method ZoomClamped(z: int, l2: bool, r2: bool) returns (r: int)
    ensures r == Zoom(z, l2, r2)
  {
    r := z;
    if l2 {
      r := r + 100;
      if r > 10000 { r := 10000; }
    }
    if r2 {
      r := r - 100;
      if r < 1000 { r := 1000; }
    }
  }

  /** `(m_animFrame + 1) % maxFrames` keeps the frame below the frame count. */
  lemma NextFrameInRange(f: int, maxFrames: int)
    requires maxFrames > 0 && 0 <= f
    ensures 0 <= (f + 1) % maxFrames < maxFrames
  {
  }

  /** 2^32: `m_frameCount` is unsigned. */
  const Wrap32: int := 0x1_0000_0000

  /** Because 2^32 is even, the wrap-around of `m_frameCount` keeps the "every other
      frame" rhythm: the frame after `2^32 - 1` (odd) is 0 (even). */
  lemma FrameCountWrapKeepsParity(c: int)
    requires 0 <= c < Wrap32
    ensures ((c + 1) % Wrap32) % 2 != c % 2
  {
  }

  /** The members of ModelViewerScene the frame updates, and the static
      `triangleWasPressed`. `rotStep` is the raw value of the angle literal `0.02_pi`. */
  class Viewer {
    var rotX: int
    var rotY: int
    var translateZ: int
    var translateY: int
    var frameCount: int
    var animFrame: int
    var animate: bool
    var isWalking: bool
    var triangleWasPressed: bool
    var ots: seq<seq<Bucket>>
    var tris: seq<seq<Option<Prim>>>
    var quads: seq<seq<Option<Prim>>>
    const t: Tables
    const rotStep: int

    /** The member initialisers (main.cpp:55-70). */
    constructor (t: Tables, rotStep: int)
      requires |t.idle| > 0 && |t.walk| > 0
      ensures this.t == t && this.rotStep == rotStep && Valid()
      ensures rotX == 0 && rotY == 0 && translateZ == 3000 && translateY == -1000
      ensures frameCount == 0 && animFrame == 0 && animate && !isWalking && !triangleWasPressed
    {
      this.t := t;
      this.rotStep := rotStep;
      rotX, rotY := 0, 0;
      translateZ, translateY := 3000, -1000;
      frameCount, animFrame := 0, 0;
      animate, isWalking, triangleWasPressed := true, false, false;
      ots := [ClearOTag(OtSize), ClearOTag(OtSize)];
      tris := [seq(Triangles, _ => None), seq(Triangles, _ => None)];
      quads := [seq(Quads, _ => None), seq(Quads, _ => None)];
    }

    /** The zoom distance is in range, the frame is below the current track's frame
        count, the frame counter is an unsigned 32-bit value, and there are two tables
        and two slot arrays of each kind. */
    predicate Valid()
      reads this
    {
      && |t.idle| > 0 && |t.walk| > 0
      && 1000 <= translateZ <= 10000
      && 0 <= animFrame < MaxFrames(t, isWalking)
      && 0 <= frameCount < Wrap32
      && |ots| == 2 && |ots[0]| == OtSize && |ots[1]| == OtSize
      && |tris| == 2 && |tris[0]| == Triangles && |tris[1]| == Triangles
      && |quads| == 2 && |quads[0]| == Quads && |quads[1]| == Quads
    }

    /** The movement half of the input handling (main.cpp:160-177): Up/Down tilt and
        Left/Right turn by `rotStep`, L2/R2 zoom within [1000, 10000], L1/R1 raise and
        lower by 100. */
    method MoveModel(pad: set<Button>)
      requires Valid()
      modifies this`rotX, this`rotY, this`translateZ, this`translateY
      ensures Valid()
      ensures rotX == old(rotX) - (if Up in pad then rotStep else 0) + (if Down in pad then rotStep else 0)
      ensures rotY == old(rotY) - (if Left in pad then rotStep else 0) + (if Right in pad then rotStep else 0)
      ensures translateZ == Zoom(old(translateZ), L2 in pad, R2 in pad)
      ensures translateY == old(translateY) + (if L1 in pad then 100 else 0) - (if R1 in pad then 100 else 0)
    {
      rotX := Nudge(rotX, Down in pad, Up in pad, rotStep);
      rotY := Nudge(rotY, Right in pad, Left in pad, rotStep);
      ZoomBounds(translateZ, L2 in pad, R2 in pad);
      translateZ := ZoomClamped(translateZ, L2 in pad, R2 in pad);
      translateY := Nudge(translateY, L1 in pad, R1 in pad, 100);
    }

    /** The mode half of the input handling (main.cpp:179-188): Start flips `animate`
        on every frame it is held; Triangle switches track and restarts it only on the
        frame it goes down. */
    method ToggleModes(pad: set<Button>)
      requires Valid()
      modifies this`animate, this`isWalking, this`animFrame, this`triangleWasPressed
      ensures Valid()
      ensures animate == (old(animate) != (Start in pad))
      ensures Triangle in pad && !old(triangleWasPressed) ==> isWalking == !old(isWalking) && animFrame == 0
      ensures !(Triangle in pad && !old(triangleWasPressed)) ==> isWalking == old(isWalking) && animFrame == old(animFrame)
      ensures triangleWasPressed == (Triangle in pad)
    {
      if Start in pad { animate := !animate; }
      var trianglePressed := Triangle in pad;
      if trianglePressed && !triangleWasPressed {
        isWalking := !isWalking;
        animFrame := 0;
      }
      triangleWasPressed := trianglePressed;
    }

    /** The animation step of frame() (main.cpp:198-203): count the frame (mod 2^32)
        and, when animating, advance on even counts, wrapping at the track's count. */
    method Advance()
      requires Valid()
      modifies this`frameCount, this`animFrame
      ensures Valid()
      ensures frameCount == (old(frameCount) + 1) % Wrap32
      ensures animate && frameCount % 2 == 0 ==> animFrame == (old(animFrame) + 1) % MaxFrames(t, isWalking)
      ensures !(animate && frameCount % 2 == 0) ==> animFrame == old(animFrame)
    {
      frameCount := (frameCount + 1) % Wrap32;
      if animate && frameCount % 2 == 0 {
        var maxFrames := MaxFrames(t, isWalking);
        NextFrameInRange(animFrame, maxFrames);
        animFrame := (animFrame + 1) % maxFrames;
      }
    }

    /** Two consecutive animation steps while animating advance the animation frame
        exactly once, also across the wrap of the unsigned frame counter. */
    method AdvanceTwice()
      requires Valid() && animate
      modifies this`frameCount, this`animFrame
      ensures Valid()
      ensures frameCount == (old(frameCount) + 2) % Wrap32
      ensures animFrame == (old(animFrame) + 1) % MaxFrames(t, isWalking)
    {
      FrameCountWrapKeepsParity(frameCount);
      Advance();
      FrameCountWrapKeepsParity(frameCount);
      Advance();
    }

    /** The current frame's inputs to the face loops. */
    function Env(gteOf: (int, int, int, int) -> ViewerGte): ViewerEnv
      reads this
    {
      ViewerEnv(t, gteOf(rotX, rotY, translateY, translateZ), animFrame, isWalking)
    }

    /** The drawing part of frame() for GPU parity `parity` (main.cpp:190-194 and
        206-316): clear this parity's table, then run the triangle loop and the quad
        loop into it and into this parity's slots. The clear at line 194 comes before
        the animation step in the source; the two touch disjoint state. */
    method Render(parity: int, gteOf: (int, int, int, int) -> ViewerGte)
      requires Valid() && 0 <= parity <= 1
      modifies this`ots, this`tris, this`quads
      ensures Valid()
      ensures ots[1 - parity] == old(ots[1 - parity]) && tris[1 - parity] == old(tris[1 - parity])
      ensures quads[1 - parity] == old(quads[1 - parity])
      ensures var tp := ViewerFaces(Env(gteOf), Tri, Triangles, Pass(ClearOTag(OtSize), old(tris[parity])));
              var qp := ViewerFaces(Env(gteOf), Quad, Quads, Pass(tp.ot, old(quads[parity])));
              ots[parity] == qp.ot && tris[parity] == tp.slots && quads[parity] == qp.slots
    {
      var e := Env(gteOf);
      var ot, ts := ViewerRenderKind(e, Tri, Triangles, ClearOTag(OtSize), tris[parity]);
      var ot', qs := ViewerRenderKind(e, Quad, Quads, ot, quads[parity]);
      ots := ots[parity := ot'];
      tris := tris[parity := ts];
      quads := quads[parity := qs];
    }

    /** The input and animation half of frame() (main.cpp:160-203): move the model,
        toggle the modes, then take the animation step. */
    method Update(pad: set<Button>)
      requires Valid()
      modifies this`rotX, this`rotY, this`translateZ, this`translateY, this`animate, this`isWalking,
               this`animFrame, this`triangleWasPressed, this`frameCount
      ensures Valid()
      ensures rotX == old(rotX) - (if Up in pad then rotStep else 0) + (if Down in pad then rotStep else 0)
      ensures rotY == old(rotY) - (if Left in pad then rotStep else 0) + (if Right in pad then rotStep else 0)
      ensures translateZ == Zoom(old(translateZ), L2 in pad, R2 in pad)
      ensures translateY == old(translateY) + (if L1 in pad then 100 else 0) - (if R1 in pad then 100 else 0)
      ensures animate == (old(animate) != (Start in pad)) && triangleWasPressed == (Triangle in pad)
      ensures frameCount == (old(frameCount) + 1) % Wrap32
      ensures var switched := Triangle in pad && !old(triangleWasPressed);
              var start := if switched then 0 else old(animFrame);
              && isWalking == (old(isWalking) != switched)
              && animFrame == if animate && frameCount % 2 == 0 then (start + 1) % MaxFrames(t, isWalking) else start
    {
      MoveModel(pad);
      ToggleModes(pad);
      Advance();
    }

    /** frame() (main.cpp:156-322) for GPU parity `parity`: input, animation step, then
        drawing. `gteOf` stands for the GTE state the rotation matrices and the
        translation registers give; the clear colour, chaining and text are not
        modelled. */
    method Frame(pad: set<Button>, parity: int, gteOf: (int, int, int, int) -> ViewerGte)
      requires Valid() && 0 <= parity <= 1
      modifies this
      ensures Valid()
      ensures rotX == old(rotX) - (if Up in pad then rotStep else 0) + (if Down in pad then rotStep else 0)
      ensures rotY == old(rotY) - (if Left in pad then rotStep else 0) + (if Right in pad then rotStep else 0)
      ensures translateZ == Zoom(old(translateZ), L2 in pad, R2 in pad)
      ensures translateY == old(translateY) + (if L1 in pad then 100 else 0) - (if R1 in pad then 100 else 0)
      ensures animate == (old(animate) != (Start in pad)) && triangleWasPressed == (Triangle in pad)
      ensures frameCount == (old(frameCount) + 1) % Wrap32
      ensures var switched := Triangle in pad && !old(triangleWasPressed);
              var start := if switched then 0 else old(animFrame);
              && isWalking == (old(isWalking) != switched)
              && animFrame == if animate && frameCount % 2 == 0 then (start + 1) % MaxFrames(t, isWalking) else start
      ensures ots[1 - parity] == old(ots[1 - parity]) && tris[1 - parity] == old(tris[1 - parity])
      ensures quads[1 - parity] == old(quads[1 - parity])
      ensures var tp := ViewerFaces(Env(gteOf), Tri, Triangles, Pass(ClearOTag(OtSize), old(tris[parity])));
              var qp := ViewerFaces(Env(gteOf), Quad, Quads, Pass(tp.ot, old(quads[parity])));
              ots[parity] == qp.ot && tris[parity] == tp.slots && quads[parity] == qp.slots
    {
      Update(pad);
      Render(parity, gteOf);
    }
  }
}
