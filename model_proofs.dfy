/** What renderModel promises, stated about the specification functions of Model:
    the arena cursor, the number of linked records, and which faces are linked where,
    including the mask-mode record. */
module ModelProofs {
  import opened Types
  import opened Gpu
  import opened Material
  import opened Model

  /** The size of the record of an accepted face, and 0 for a rejected one. */
  function FaceBytes(env: Env, k: Kind, i: int): (b: nat)
    ensures b <= (if k == Tri then 40 else 52)
    ensures b > 0 <==> Accepted(env, k, i)
  {
    PolySizeBound(k, ShapeOf(FaceFlags(env.model, k, i)));
    if Accepted(env, k, i) then PolySize(k, ShapeOf(FaceFlags(env.model, k, i))) else 0
  }

  /** The bytes the accepted faces among the first `n` of kind `k` occupy, independent
      of the cursor and the table. */
  function AcceptedBytes(env: Env, k: Kind, n: nat): (b: nat)
    ensures k == Tri ==> b <= 40 * n
    ensures k == Quad ==> b <= 52 * n
  {
    if n == 0 then 0 else AcceptedBytes(env, k, n - 1) + FaceBytes(env, k, n - 1)
  }

  /** The number of accepted faces among the first `n` of kind `k`. */
  function AcceptedCount(env: Env, k: Kind, n: nat): (c: nat)
    ensures c <= n
  {
    if n == 0 then 0 else AcceptedCount(env, k, n - 1) + (if Accepted(env, k, n - 1) then 1 else 0)
  }

  /** The cursor after the first `n` faces is the start plus the accepted faces' sizes:
      a rejected face leaves it where it was. */
  lemma {:induction false} RenderFacesCursor(env: Env, k: Kind, n: nat, st: DrawState)
    requires env.otLength <= |st.ot|
    ensures RenderFaces(env, k, n, st).cursor == st.cursor + AcceptedBytes(env, k, n)
  {
    if n > 0 {
      RenderFacesCursor(env, k, n - 1, st);
    }
  }

  /** One pass of the loop links one record when the face is accepted, none otherwise. */
  lemma CountsStep(env: Env, k: Kind, i: int, prev: DrawState)
    requires env.otLength <= |prev.ot|
    ensures Count(FaceStep(env, k, i, prev).ot) == Count(prev.ot) + (if Accepted(env, k, i) then 1 else 0)
    ensures MaskCount(FaceStep(env, k, i, prev).ot) == MaskCount(prev.ot)
  {
    if Accepted(env, k, i) {
      var proj := Project(env, k, i);
      AddPrimCounts(prev.ot, proj.otz, FacePrim(env, k, i, proj, prev.cursor));
    }
  }

  /** One record per accepted face is linked, and none of them is a mask-mode record. */
  lemma {:induction false} RenderFacesCounts(env: Env, k: Kind, n: nat, st: DrawState)
    requires env.otLength <= |st.ot|
    ensures Count(RenderFaces(env, k, n, st).ot) == Count(st.ot) + AcceptedCount(env, k, n)
    ensures MaskCount(RenderFaces(env, k, n, st).ot) == MaskCount(st.ot)
  {
    if n > 0 {
      RenderFacesCounts(env, k, n - 1, st);
      CountsStep(env, k, n - 1, RenderFaces(env, k, n - 1, st));
    }
  }

  function CutoutBytes(m: ModelData): nat {
    if NeedsCutout(m) then DrStpSize else 0
  }

  /** renderModel returns the input cursor plus `sizeof(DR_STP)` when some face needs
      cutout, plus the sizes of every accepted triangle and quad. */
  lemma RenderModelCursor(env: Env, st: DrawState)
    requires 0 < env.otLength <= |st.ot|
    ensures RenderModelSpec(env, st).cursor
         == st.cursor + CutoutBytes(env.model)
            + AcceptedBytes(env, Tri, Iterations(env.model, Tri)) + AcceptedBytes(env, Quad, Iterations(env.model, Quad))
  {
    var st1 := CutoutStep(env, st);
    RenderFacesCursor(env, Tri, Iterations(env.model, Tri), st1);
    RenderFacesCursor(env, Quad, Iterations(env.model, Quad), RenderFaces(env, Tri, Iterations(env.model, Tri), st1));
  }

  /** The mask-mode step links one mask-mode record when some face needs cutout. */
  lemma CutoutCounts(env: Env, st: DrawState)
    requires 0 < env.otLength <= |st.ot|
    ensures Count(CutoutStep(env, st).ot) == Count(st.ot) + (if NeedsCutout(env.model) then 1 else 0)
    ensures MaskCount(CutoutStep(env, st).ot) == MaskCount(st.ot) + (if NeedsCutout(env.model) then 1 else 0)
  {
    if NeedsCutout(env.model) {
      AddPrimCounts(st.ot, env.otLength - 1, MaskMode(st.cursor));
    }
  }

  /** renderModel links one record per accepted face plus exactly one mask-mode record
      when some face needs cutout, and none otherwise. */
  lemma RenderModelCounts(env: Env, st: DrawState)
    requires 0 < env.otLength <= |st.ot|
    ensures Count(RenderModelSpec(env, st).ot)
         == Count(st.ot) + (if NeedsCutout(env.model) then 1 else 0)
            + AcceptedCount(env, Tri, Iterations(env.model, Tri)) + AcceptedCount(env, Quad, Iterations(env.model, Quad))
    ensures MaskCount(RenderModelSpec(env, st).ot) == MaskCount(st.ot) + (if NeedsCutout(env.model) then 1 else 0)
  {
    var st1 := CutoutStep(env, st);
    CutoutCounts(env, st);
    RenderFacesCounts(env, Tri, Iterations(env.model, Tri), st1);
    RenderFacesCounts(env, Quad, Iterations(env.model, Quad), RenderFaces(env, Tri, Iterations(env.model, Tri), st1));
  }

  /** The arena a model can use: at most 12 + 40 bytes per triangle + 52 per quad. The
      source checks no bound; with at most 200 triangles and 264 quads (the sizes of
      the bundled model) the 131072-byte arena of display.h is never overrun. */
  lemma ArenaBound(env: Env, st: DrawState)
    requires 0 < env.otLength <= |st.ot|
    ensures RenderModelSpec(env, st).cursor
         <= st.cursor + 12 + 40 * Iterations(env.model, Tri) + 52 * Iterations(env.model, Quad)
    ensures env.model.triCount <= 200 && env.model.quadCount <= 264 ==>
              RenderModelSpec(env, st).cursor - st.cursor <= 131072
  {
    RenderModelCursor(env, st);
  }

  /** `r` is `s` with records prepended to some buckets: nothing already linked is lost
      or reordered. */
  ghost predicate Extends(r: seq<Bucket>, s: seq<Bucket>) {
    && |r| == |s|
    && forall b :: 0 <= b < |s| ==> EndsWith(r[b], s[b])
  }

  /** Bucket `x` ends with the records of bucket `y`. */
  ghost predicate EndsWith(x: Bucket, y: Bucket) {
    |y| <= |x| && x[|x| - |y|..] == y
  }

  /** A table extends itself, with nothing fresh. */
  lemma ExtendsRefl(s: seq<Bucket>)
    ensures Extends(s, s)
    ensures forall b :: 0 <= b < |s| ==> Fresh(s, s, b) == []
  {
    forall b | 0 <= b < |s|
      ensures EndsWith(s[b], s[b])
    {
      assert s[b][0..] == s[b];
    }
  }

  /** The records `r` has in bucket `b` in front of those of `s`. */
  ghost function Fresh(r: seq<Bucket>, s: seq<Bucket>, b: int): seq<Prim>
    requires Extends(r, s) && 0 <= b < |s|
  {
    r[b][..|r[b]| - |s[b]|]
  }

  /** Linking `p` into bucket `o` of a table that extends `s` gives a table that
      extends `s` whose fresh part of bucket `o` gains `p` at its head. */
  lemma AddPrimFresh(prev: seq<Bucket>, s: seq<Bucket>, o: int, p: Prim)
    requires Extends(prev, s) && 0 <= o < |s|
    ensures Extends(AddPrim(prev, o, p), s)
    ensures forall b :: 0 <= b < |s| ==>
              Fresh(AddPrim(prev, o, p), s, b) == (if b == o then [p] else []) + Fresh(prev, s, b)
  {
    var r := AddPrim(prev, o, p);
    assert r[o] == [p] + prev[o];
    assert r[o][|r[o]| - |s[o]|..] == prev[o][|prev[o]| - |s[o]|..];
    assert Extends(r, s);
    assert Fresh(r, s, o) == [p] + Fresh(prev, s, o);
  }

  /** One pass of the loop only prepends records to buckets. */
  lemma ExtendsStep(env: Env, k: Kind, i: int, prev: DrawState, s: seq<Bucket>)
    requires env.otLength <= |prev.ot| && Extends(prev.ot, s)
    ensures Extends(FaceStep(env, k, i, prev).ot, s)
  {
    if Accepted(env, k, i) {
      var proj := Project(env, k, i);
      AddPrimFresh(prev.ot, s, proj.otz, FacePrim(env, k, i, proj, prev.cursor));
    }
  }

  /** The loop from face `m` on only prepends records to buckets. */
  lemma {:induction false} RenderFacesExtendsFrom(env: Env, k: Kind, m: nat, n: nat, st: DrawState)
    requires m <= n && env.otLength <= |st.ot|
    ensures Extends(RenderFaces(env, k, n, st).ot, RenderFaces(env, k, m, st).ot)
  {
    if n == m {
      ExtendsRefl(RenderFaces(env, k, m, st).ot);
    } else {
      RenderFacesExtendsFrom(env, k, m, n - 1, st);
      RenderFacesUnfold(env, k, n, st);
      ExtendsStep(env, k, n - 1, RenderFaces(env, k, n - 1, st), RenderFaces(env, k, m, st).ot);
    }
  }

  /** The loop over the faces only prepends records to buckets. */
  lemma RenderFacesExtends(env: Env, k: Kind, n: nat, st: DrawState)
    requires env.otLength <= |st.ot|
    ensures Extends(RenderFaces(env, k, n, st).ot, st.ot)
  {
    RenderFacesExtendsFrom(env, k, 0, n, st);
  }

  /** The record face `i` of kind `k` gets when accepted with the faces of its kind
      starting at arena offset `base`. */
  function Expected(env: Env, k: Kind, base: int, i: nat): Prim {
    FacePrim(env, k, i, Project(env, k, i), base + AcceptedBytes(env, k, i))
  }

  /** `p`, found in bucket `b`, is the record of an accepted face of kind `k`, linked at
      its own depth key and written at offset `base` plus the sizes of the accepted
      faces before it. */
  ghost predicate Placed(env: Env, k: Kind, base: int, p: Prim, b: int) {
    && p.Poly? && p.kind == k && p.face >= 0
    && Accepted(env, k, p.face)
    && Project(env, k, p.face).otz == b
    && p == Expected(env, k, base, p.face)
  }

  /** All fresh records of `r` over `s` are Placed, for faces below `n`. */
  ghost predicate AllPlaced(env: Env, k: Kind, base: int, n: int, r: seq<Bucket>, s: seq<Bucket>)
    requires Extends(r, s)
  {
    forall b, j :: 0 <= b < |s| && 0 <= j < |Fresh(r, s, b)| ==>
      Placed(env, k, base, Fresh(r, s, b)[j], b) && Fresh(r, s, b)[j].face < n
  }

  /** The induction step of RenderFacesSound, on explicit states. */
  lemma SoundStep(env: Env, k: Kind, n: nat, base: int, s: seq<Bucket>, prev: DrawState)
    requires 0 < n && env.otLength <= |s|
    requires Extends(prev.ot, s) && AllPlaced(env, k, base, n - 1, prev.ot, s)
    requires prev.cursor == base + AcceptedBytes(env, k, n - 1)
    ensures Extends(FaceStep(env, k, n - 1, prev).ot, s)
    ensures AllPlaced(env, k, base, n, FaceStep(env, k, n - 1, prev).ot, s)
  {
    var r := FaceStep(env, k, n - 1, prev);
    if Accepted(env, k, n - 1) {
      var proj := Project(env, k, n - 1);
      var p := FacePrim(env, k, n - 1, proj, prev.cursor);
      AddPrimFresh(prev.ot, s, proj.otz, p);
      assert Placed(env, k, base, p, proj.otz);
      forall b, j | 0 <= b < |s| && 0 <= j < |Fresh(r.ot, s, b)|
        ensures Placed(env, k, base, Fresh(r.ot, s, b)[j], b) && Fresh(r.ot, s, b)[j].face < n
      {
        if b != proj.otz || j != 0 {
          var j' := if b == proj.otz then j - 1 else j;
          assert Fresh(r.ot, s, b)[j] == Fresh(prev.ot, s, b)[j'];
        }
      }
    }
  }

  /** Every record the loop over the first `n` faces links is Placed, for a face below `n`. */
  lemma {:induction false} RenderFacesSound(env: Env, k: Kind, n: nat, st: DrawState)
    requires env.otLength <= |st.ot|
    ensures Extends(RenderFaces(env, k, n, st).ot, st.ot)
    ensures AllPlaced(env, k, st.cursor, n, RenderFaces(env, k, n, st).ot, st.ot)
  {
    if n == 0 {
      ExtendsRefl(st.ot);
    } else {
      RenderFacesSound(env, k, n - 1, st);
      RenderFacesCursor(env, k, n - 1, st);
      var prev := RenderFaces(env, k, n - 1, st);
      assert RenderFaces(env, k, n, st) == FaceStep(env, k, n - 1, prev);
      SoundStep(env, k, n, st.cursor, st.ot, prev);
    }
  }

  /** The pass for an accepted face links its record, written at the cursor, in the
      bucket of its depth key. */
  lemma LinkStep(env: Env, k: Kind, i: int, prev: DrawState)
    requires env.otLength <= |prev.ot| && Accepted(env, k, i)
    ensures FacePrim(env, k, i, Project(env, k, i), prev.cursor) in FaceStep(env, k, i, prev).ot[Project(env, k, i).otz]
  {
  }

  /** The face's own pass links its record. */
  lemma LastStep(env: Env, k: Kind, st: DrawState, i: nat)
    requires env.otLength <= |st.ot| && Accepted(env, k, i)
    ensures Expected(env, k, st.cursor, i) in RenderFaces(env, k, i + 1, st).ot[Project(env, k, i).otz]
  {
    RenderFacesCursor(env, k, i, st);
    RenderFacesNext(env, k, i, st);
    LinkStep(env, k, i, RenderFaces(env, k, i, st));
  }

  /** An accepted face among the first `n` has its record in the bucket of its depth key
      once the loop has passed it. */
  lemma RenderFacesComplete(env: Env, k: Kind, n: nat, st: DrawState, i: nat)
    requires i < n && env.otLength <= |st.ot| && Accepted(env, k, i)
    ensures Expected(env, k, st.cursor, i) in RenderFaces(env, k, n, st).ot[Project(env, k, i).otz]
  {
    LastStep(env, k, st, i);
    RenderFacesExtendsFrom(env, k, i + 1, n, st);
    OldIn(RenderFaces(env, k, n, st).ot, RenderFaces(env, k, i + 1, st).ot, Project(env, k, i).otz, Expected(env, k, st.cursor, i));
  }

  /** Where the faces of kind `k` start in the arena when renderModel starts at `c0`:
      after the mask-mode record, and for quads after every accepted triangle. */
  function Base(env: Env, c0: int, k: Kind): int {
    c0 + CutoutBytes(env.model) + (if k == Quad then AcceptedBytes(env, Tri, Iterations(env.model, Tri)) else 0)
  }

  /** The three layers of a table renderModel filled: the cleared table with the
      optional mask-mode record, the triangles' records in front of it, and the quads'
      records in front of those. */
  lemma SoundLayers(env: Env, c0: int, size: nat, st1: DrawState, st2: DrawState, r: DrawState, b: int, j: int)
    requires 0 < env.otLength <= size
    requires st1 == CutoutStep(env, DrawState(c0, ClearOTag(size)))
    requires Extends(st2.ot, st1.ot) && AllPlaced(env, Tri, Base(env, c0, Tri), Iterations(env.model, Tri), st2.ot, st1.ot)
    requires Extends(r.ot, st2.ot) && AllPlaced(env, Quad, Base(env, c0, Quad), Iterations(env.model, Quad), r.ot, st2.ot)
    requires 0 <= b < size && 0 <= j < |r.ot[b]|
    ensures && (r.ot[b][j].MaskMode? ==>
                  NeedsCutout(env.model) && b == env.otLength - 1 && j == |r.ot[b]| - 1 && r.ot[b][j] == MaskMode(c0))
            && (r.ot[b][j].Poly? ==> Placed(env, r.ot[b][j].kind, Base(env, c0, r.ot[b][j].kind), r.ot[b][j], b))
  {
    var q := |Fresh(r.ot, st2.ot, b)|;
    LayerAt(r.ot, st2.ot, b, j);
    if j < q {
      FreshPlaced(env, Quad, Base(env, c0, Quad), Iterations(env.model, Quad), r.ot, st2.ot, b, j);
    } else {
      var t := |Fresh(st2.ot, st1.ot, b)|;
      LayerAt(st2.ot, st1.ot, b, j - q);
      if j - q < t {
        FreshPlaced(env, Tri, Base(env, c0, Tri), Iterations(env.model, Tri), st2.ot, st1.ot, b, j - q);
      } else {
        CutoutBucket(env, c0, size, b);
      }
    }
  }

  /** A fresh record of a layer whose records are all Placed is Placed, with its kind. */
  lemma FreshPlaced(env: Env, k: Kind, base: int, n: int, r: seq<Bucket>, s: seq<Bucket>, b: int, j: int)
    requires Extends(r, s) && AllPlaced(env, k, base, n, r, s)
    requires 0 <= b < |s| && 0 <= j < |Fresh(r, s, b)|
    ensures Fresh(r, s, b)[j].Poly? && Fresh(r, s, b)[j].kind == k && Placed(env, k, base, Fresh(r, s, b)[j], b)
  {
  }

  /** Record `j` of bucket `b` of a table extending `s` is a fresh record, or one of `s`. */
  lemma LayerAt(r: seq<Bucket>, s: seq<Bucket>, b: int, j: int)
    requires Extends(r, s) && 0 <= b < |s| && 0 <= j < |r[b]|
    ensures j < |Fresh(r, s, b)| ==> r[b][j] == Fresh(r, s, b)[j]
    ensures j >= |Fresh(r, s, b)| ==> 0 <= j - |Fresh(r, s, b)| < |s[b]| && r[b][j] == s[b][j - |Fresh(r, s, b)|]
  {
    assert r[b] == Fresh(r, s, b) + s[b];
  }

  /** A cleared table after the mask-mode step holds the mask-mode record alone, in bucket
      `ot_length - 1`, when some face needs cutout, and nothing otherwise. */
  lemma CutoutBucket(env: Env, c0: int, size: nat, b: int)
    requires 0 < env.otLength <= size && 0 <= b < size
    ensures CutoutStep(env, DrawState(c0, ClearOTag(size))).ot[b]
         == (if NeedsCutout(env.model) && b == env.otLength - 1 then [MaskMode(c0)] else [])
  {
  }

  /** Every record renderModel links into a cleared table is either the one mask-mode
      record, last in bucket `ot_length - 1` and written at the start cursor, or the
      record of an accepted face linked at that face's own depth key. */
  lemma RenderModelSound(env: Env, c0: int, size: nat, b: int, j: int)
    requires 0 < env.otLength <= size
    requires 0 <= b < size && 0 <= j < |RenderModelSpec(env, DrawState(c0, ClearOTag(size))).ot[b]|
    ensures var r := RenderModelSpec(env, DrawState(c0, ClearOTag(size))).ot;
            && (r[b][j].MaskMode? ==>
                  NeedsCutout(env.model) && b == env.otLength - 1 && j == |r[b]| - 1 && r[b][j] == MaskMode(c0))
            && (r[b][j].Poly? ==> Placed(env, r[b][j].kind, Base(env, c0, r[b][j].kind), r[b][j], b))
  {
    var st1 := CutoutStep(env, DrawState(c0, ClearOTag(size)));
    var st2 := RenderFaces(env, Tri, Iterations(env.model, Tri), st1);
    RenderFacesSound(env, Tri, Iterations(env.model, Tri), st1);
    RenderFacesSound(env, Quad, Iterations(env.model, Quad), st2);
    RenderFacesCursor(env, Tri, Iterations(env.model, Tri), st1);
    assert st1.cursor == Base(env, c0, Tri) && st2.cursor == Base(env, c0, Quad);
    SoundLayers(env, c0, size, st1, st2, RenderFaces(env, Quad, Iterations(env.model, Quad), st2), b, j);
  }

  /** When some face needs cutout, the mask-mode record is the last record of bucket
      `ot_length - 1` (it was linked before any face) and the only one in the table. */
  lemma RenderModelMask(env: Env, c0: int, size: nat)
    requires 0 < env.otLength <= size
    ensures var r := RenderModelSpec(env, DrawState(c0, ClearOTag(size))).ot;
            && MaskCount(r) == (if NeedsCutout(env.model) then 1 else 0)
            && (NeedsCutout(env.model) ==>
                  |r[env.otLength - 1]| > 0 && r[env.otLength - 1][|r[env.otLength - 1]| - 1] == MaskMode(c0))
  {
    var st0 := DrawState(c0, ClearOTag(size));
    var st1 := CutoutStep(env, st0);
    var st2 := RenderFaces(env, Tri, Iterations(env.model, Tri), st1);
    var r := RenderFaces(env, Quad, Iterations(env.model, Quad), st2);
    RenderModelCounts(env, st0);
    EmptyCount(st0.ot);
    if NeedsCutout(env.model) {
      var m := env.otLength - 1;
      RenderFacesExtends(env, Tri, Iterations(env.model, Tri), st1);
      RenderFacesExtends(env, Quad, Iterations(env.model, Quad), st2);
      assert st1.ot[m] == [MaskMode(c0)];
      assert st2.ot[m][|st2.ot[m]| - |st1.ot[m]|..] == st1.ot[m];
      assert r.ot[m][|r.ot[m]| - |st2.ot[m]|..] == st2.ot[m];
      assert r.ot[m][|r.ot[m]| - 1] == st2.ot[m][|st2.ot[m]| - 1];
    }
  }

  /** A record in bucket `o` of `s` is still in bucket `o` of a table extending `s`. */
  lemma OldIn(r: seq<Bucket>, s: seq<Bucket>, o: int, e: Prim)
    requires Extends(r, s) && 0 <= o < |s| && e in s[o]
    ensures e in r[o]
  {
    assert r[o] == Fresh(r, s, o) + s[o];
  }

  /** Every accepted face has its record in renderModel's table, in the bucket of its
      depth key. With RenderModelSound: a face is linked iff `0 < otz < ot_length`. */
  lemma RenderModelComplete(env: Env, c0: int, size: nat, k: Kind, i: nat)
    requires 0 < env.otLength <= size
    requires i < FaceCount(env.model, k) && Accepted(env, k, i)
    ensures Expected(env, k, Base(env, c0, k), i) in RenderModelSpec(env, DrawState(c0, ClearOTag(size))).ot[Project(env, k, i).otz]
  {
    var st1 := CutoutStep(env, DrawState(c0, ClearOTag(size)));
    assert st1.cursor == Base(env, c0, Tri);
    var st2 := RenderFaces(env, Tri, Iterations(env.model, Tri), st1);
    RenderFacesCursor(env, Tri, Iterations(env.model, Tri), st1);
    assert st2.cursor == Base(env, c0, Quad);
    var o := Project(env, k, i).otz;
    RenderFacesExtends(env, Quad, Iterations(env.model, Quad), st2);
    var r := RenderFaces(env, Quad, Iterations(env.model, Quad), st2);
    var e := Expected(env, k, Base(env, c0, k), i);
    if k == Tri {
      RenderFacesComplete(env, Tri, Iterations(env.model, Tri), st1, i);
      OldIn(r.ot, st2.ot, o, e);
    } else {
      RenderFacesComplete(env, Quad, Iterations(env.model, Quad), st2, i);
    }
    assert e in r.ot[o];
  }
}
