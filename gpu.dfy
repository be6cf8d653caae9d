/** The libgpu side of the renderer as the renderer sees it: the eight polygon records
    and the mask-mode record it carves out of the primitive arena, their sizes, and the
    ordering table, an array of buckets into which `addPrim` links a record and which
    `DrawOTag` walks from the last bucket down to bucket 0 (painter's algorithm). */
module Gpu {
  import opened Types

  /** `u_short` texture-page and CLUT handles. */
  type ushort = x: int | 0 <= x < 65536

  datatype Kind = Tri | Quad

  /** GT: Gouraud textured, FT: flat textured, G: Gouraud, F: flat. */
  datatype Shape = GT | FT | G | F

  datatype ScreenXY = ScreenXY(x: int, y: int)

  /** A texture coordinate pair as stored in a polygon record (`u_char u, v`). */
  datatype Uv = Uv(u: byte, v: byte)

  datatype Texture = Texture(tpage: ushort, clut: ushort)

  /** One record in a primitive arena. `addr` is its byte offset in the arena. */
  datatype Prim =
    | Poly(kind: Kind, shape: Shape, face: int, addr: int, xy: seq<ScreenXY>,
           colours: seq<Rgb>, uvs: seq<Uv>, texture: Option<Texture>, semiTrans: bool)
    | MaskMode(addr: int)   // DR_STP set by SetDrawStp(stp, 0)

  /** `sizeof(POLY_*)` in the standard libgpu layouts (libgpu.h is not part of this model). */
  function PolySize(k: Kind, s: Shape): (n: nat)
    ensures n > 0
  {
    match (k, s)
    case (Tri, GT) => 40
    case (Tri, FT) => 32
    case (Tri, G) => 28
    case (Tri, F) => 20
    case (Quad, GT) => 52
    case (Quad, FT) => 40
    case (Quad, G) => 36
    case (Quad, F) => 24
  }

  /** `sizeof(DR_STP)`. */
  const DrStpSize: nat := 12

  /** The largest record of each kind; bounds the arena a model can use. */
  lemma PolySizeBound(k: Kind, s: Shape)
    ensures PolySize(k, s) <= (if k == Tri then 40 else 52)
  {
  }

  type Bucket = seq<Prim>

  /** `ClearOTagR(ot, n)`: every bucket empty. */
  function ClearOTag(n: nat): (ot: seq<Bucket>)
    ensures |ot| == n && Count(ot) == 0
  {
    var ot := seq(n, _ => []);
    EmptyCount(ot);
    ot
  }

  /** `addPrim(&ot[k], p)`: link `p` at the head of bucket `k`. */
  function AddPrim(ot: seq<Bucket>, k: int, p: Prim): (ot': seq<Bucket>)
    requires 0 <= k < |ot|
    ensures |ot'| == |ot| && ot'[k] == [p] + ot[k]
    ensures forall j :: 0 <= j < |ot| && j != k ==> ot'[j] == ot[j]
  {
    ot[k := [p] + ot[k]]
  }

  /** The number of records in the table. */
  function Count(ot: seq<Bucket>): nat {
    if ot == [] then 0 else |ot[0]| + Count(ot[1..])
  }

  /** The number of mask-mode records in the table. */
  function MaskCount(ot: seq<Bucket>): nat {
    if ot == [] then 0 else MaskCountIn(ot[0]) + MaskCount(ot[1..])
  }

  function MaskCountIn(b: Bucket): nat {
    if b == [] then 0 else (if b[0].MaskMode? then 1 else 0) + MaskCountIn(b[1..])
  }

  lemma {:induction false} EmptyCount(ot: seq<Bucket>)
    requires forall k :: 0 <= k < |ot| ==> ot[k] == []
    ensures Count(ot) == 0 && MaskCount(ot) == 0
  {
    if ot != [] {
      EmptyCount(ot[1..]);
    }
  }

  /** Linking one record adds exactly one record to the table, and a mask-mode record
      exactly when the record linked is one. */
  lemma {:induction false} AddPrimCounts(ot: seq<Bucket>, k: int, p: Prim)
    requires 0 <= k < |ot|
    ensures Count(AddPrim(ot, k, p)) == Count(ot) + 1
    ensures MaskCount(AddPrim(ot, k, p)) == MaskCount(ot) + (if p.MaskMode? then 1 else 0)
  {
    var ot' := AddPrim(ot, k, p);
    assert ([p] + ot[k])[1..] == ot[k];
    if k == 0 {
      assert ot'[1..] == ot[1..];
    } else {
      assert ot'[1..] == AddPrim(ot[1..], k - 1, p);
      AddPrimCounts(ot[1..], k - 1, p);
    }
  }

  /** `DrawOTag(&ot[n-1])`: the records in the order the GPU draws them, the last
      bucket first and, inside a bucket, the most recently linked record first. */
  function DrawOrder(ot: seq<Bucket>): seq<Prim> {
    if ot == [] then [] else DrawOrder(ot[1..]) + ot[0]
  }

  /** Where record `j` of bucket `k` is drawn. */
  function DrawPos(ot: seq<Bucket>, k: nat, j: nat): nat
    requires k < |ot|
  {
    |DrawOrder(ot[k + 1..])| + j
  }

  /** Every record is drawn once: the drawn sequence is as long as the table. */
  lemma {:induction false} DrawOrderLength(ot: seq<Bucket>)
    ensures |DrawOrder(ot)| == Count(ot)
  {
    if ot != [] {
      DrawOrderLength(ot[1..]);
    }
  }

  /** The table drawn from bucket `k` upward, then the buckets below `k`. */
  lemma {:induction false} DrawOrderSplit(ot: seq<Bucket>, k: nat)
    requires k <= |ot|
    ensures DrawOrder(ot) == DrawOrder(ot[k..]) + DrawOrder(ot[..k])
  {
    if k == 0 {
      assert ot[..0] == [] && ot[0..] == ot;
    } else {
      DrawOrderSplit(ot[1..], k - 1);
      assert ot[1..][k - 1..] == ot[k..];
      assert ot[1..][..k - 1] == ot[1..k];
      assert ot[..k][1..] == ot[1..k];
    }
  }

  /** Record `j` of bucket `k` is drawn at position DrawPos(ot, k, j). */
  lemma DrawPosCorrect(ot: seq<Bucket>, k: nat, j: nat)
    requires k < |ot| && j < |ot[k]|
    ensures DrawPos(ot, k, j) < |DrawOrder(ot)|
    ensures DrawOrder(ot)[DrawPos(ot, k, j)] == ot[k][j]
  {
    DrawOrderSplit(ot, k);
    assert ot[k..][1..] == ot[k + 1..];
    assert DrawOrder(ot[k..]) == DrawOrder(ot[k + 1..]) + ot[k];
  }

  /** Back to front: every record in a farther (higher) bucket is drawn before every
      record in a nearer (lower) bucket. */
  lemma BackToFront(ot: seq<Bucket>, k1: nat, j1: nat, k2: nat, j2: nat)
    requires k2 < k1 < |ot| && j1 < |ot[k1]| && j2 < |ot[k2]|
    ensures DrawPos(ot, k1, j1) < DrawPos(ot, k2, j2)
  {
    var tail := ot[k2 + 1..];
    DrawOrderSplit(tail, k1 - k2 - 1);
    assert tail[k1 - k2 - 1..] == ot[k1..];
    assert ot[k1..][1..] == ot[k1 + 1..];
    assert DrawOrder(ot[k1..]) == DrawOrder(ot[k1 + 1..]) + ot[k1];
  }
}
