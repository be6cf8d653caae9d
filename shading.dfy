/** The two integer colour post-passes of the renderer (examples/psyq/lib/model.c):
    a specular boost against a fixed light direction and a metallic contrast stretch.
    Both mutate a CVECTOR through a pointer in the source; here they map a colour to
    the new colour. */
module Shading {
  import opened Types

  /** The fixed light direction `{0, -4096, -2048}` of applySpecular. */
  const LightDir: Svec := Svec(0, -4096, -2048)

  /** `a * b`, written as repeated addition. The renderer's products of two variables
      are spelled with it so that a proof which unfolds a colour pass sees no
      non-linear term; MulIsProduct gives the product back where a proof needs it. */
  function Mul(a: int, b: nat): int {
    if b == 0 then 0 else Mul(a, b - 1) + a
  }

  lemma {:induction false} MulIsProduct(a: int, b: nat)
    ensures Mul(a, b) == a * b
  {
    if b > 0 {
      MulIsProduct(a, b - 1);
    }
  }

  /** `(n . LightDir) >> 12`: an arithmetic shift, i.e. division rounding toward minus
      infinity, which is what Dafny's `/` does for a positive divisor. The light's
      components are constants, so the dot product is linear in the normal. */
  function SpecularDot(n: Svec): (d: int)
    ensures d == (n.vx * LightDir.vx + n.vy * LightDir.vy + n.vz * LightDir.vz) / 4096
  {
    (0 * n.vx - 4096 * n.vy - 2048 * n.vz) / 4096
  }

  /** The boost applyspecular adds to every channel: `min((dot * s) >> 8, 255)`. */
  function SpecularBoost(n: Svec, s: byte): (k: int)
    requires SpecularDot(n) > 0
    ensures 0 <= k <= 255
  {
    MulIsProduct(SpecularDot(n), s);
    MulBound(SpecularDot(n), s, SpecularDot(n), 255);
    Min(Mul(SpecularDot(n), s) / 256, 255)
  }

  /** A channel plus a boost, saturating at 255. */
  function AddSat(c: byte, k: nat): (r: byte)
    ensures c <= r
    ensures r == 255 || r == c + k
    ensures r <= c + k
  {
    if c + k > 255 then 255 else c + k
  }

  /** A channel minus a reduction, floored at 0. */
  function SubFloor(c: byte, k: nat): (r: byte)
    ensures r <= c
    ensures r == 0 || r == c - k
    ensures r >= c - k
  {
    if c > k then c - k else 0
  }

  /** applySpecular (model.c:42-63). */
  function ApplySpecular(c: Rgb, n: Svec, s: byte): (r: Rgb)
    ensures SpecularDot(n) <= 0 ==> r == c
    ensures SpecularDot(n) > 0 ==>
      var k := SpecularBoost(n, s);
      && r.r == Min(c.r + k, 255) && r.g == Min(c.g + k, 255) && r.b == Min(c.b + k, 255)
    ensures c.r <= r.r && c.g <= r.g && c.b <= r.b
  {
    if SpecularDot(n) > 0 then
      var k := SpecularBoost(n, s);
      Rgb(AddSat(c.r, k), AddSat(c.g, k), AddSat(c.b, k))
    else
      c
  }

  /** `abs(n.vy)`. */
  function AbsInt(x: int): (r: nat)
    ensures r == x || r == -x
  {
    if x < 0 then -x else x
  }

  /** `(r + g + b) / 3`: non-negative, so C's truncating division agrees with Dafny's. */
  function Average(c: Rgb): (a: int)
    ensures 0 <= a <= 255
    ensures 3 * a <= c.r + c.g + c.b < 3 * a + 3
  {
    (c.r + c.g + c.b) / 3
  }

  /** `reflect_factor = (metallic * abs(n.vy)) >> 12`. */
  function ReflectFactor(n: Svec, m: byte): (f: int)
    ensures 0 <= f <= 2040
  {
    MulIsProduct(m, AbsInt(n.vy));
    MulBound(m, AbsInt(n.vy), 255, 32768);
    Mul(m, AbsInt(n.vy)) / 4096
  }

  /** The brightening applied when the average exceeds 128. */
  function MetallicBoost(c: Rgb, n: Svec, m: byte): nat
    requires Average(c) > 128
  {
    MulIsProduct(ReflectFactor(n, m), 255 - Average(c));
    MulBound(ReflectFactor(n, m), 255 - Average(c), 2040, 255);
    Mul(ReflectFactor(n, m), 255 - Average(c)) / 256
  }

  /** The darkening applied when the average is at most 128. */
  function MetallicReduce(c: Rgb, m: byte): nat {
    MulIsProduct(m, Average(c));
    MulBound(m, Average(c), 255, 255);
    Mul(m, Average(c)) / 256
  }

  /** Products of bounded non-negative factors are bounded (non-linear helper). */
  lemma MulBound(a: int, b: int, x: int, y: int)
    requires 0 <= a <= x && 0 <= b <= y
    ensures 0 <= a * b <= x * y
  {
    assert a * b <= x * b;
    assert x * b <= x * y;
  }

  /** applyMetallic (model.c:69-93). */
  function ApplyMetallic(c: Rgb, n: Svec, m: byte): (r: Rgb)
    ensures m == 0 ==> r == c
    ensures m > 0 && Average(c) > 128 ==>
      var k := MetallicBoost(c, n, m);
      && r.r == Min(c.r + k, 255) && r.g == Min(c.g + k, 255) && r.b == Min(c.b + k, 255)
    ensures m > 0 && Average(c) <= 128 ==>
      var k := MetallicReduce(c, m);
      && r.r == (if c.r > k then c.r - k else 0)
      && r.g == (if c.g > k then c.g - k else 0)
      && r.b == (if c.b > k then c.b - k else 0)
  {
    if m > 0 then
      if Average(c) > 128 then
        var k := MetallicBoost(c, n, m);
        Rgb(AddSat(c.r, k), AddSat(c.g, k), AddSat(c.b, k))
      else
        var k := MetallicReduce(c, m);
        Rgb(SubFloor(c.r, k), SubFloor(c.g, k), SubFloor(c.b, k))
    else
      c
  }

  /** The dot product and the products of both passes fit a 32-bit `int` for every
      16-bit normal and 8-bit intensity, so the C arithmetic never overflows. */
  lemma NoOverflow(n: Svec, s: byte, m: byte)
    ensures -0x8000_0000 <= n.vx * LightDir.vx + n.vy * LightDir.vy + n.vz * LightDir.vz < 0x8000_0000
    ensures 0 <= SpecularDot(n) * s < 0x8000_0000 || SpecularDot(n) <= 0
    ensures 0 <= m * AbsInt(n.vy) < 0x8000_0000
  {
    var d := n.vx * LightDir.vx + n.vy * LightDir.vy + n.vz * LightDir.vz;
    assert d == -4096 * n.vy - 2048 * n.vz;
    if SpecularDot(n) > 0 {
      assert SpecularDot(n) <= 49152;
      MulBound(SpecularDot(n), s, 49152, 255);
    }
    MulBound(m, AbsInt(n.vy), 255, 32768);
  }

  /** A metallic pass in the darkening branch never raises a channel, and one in the
      brightening branch never lowers one: the pass stretches contrast around 128. */
  lemma MetallicStretchesContrast(c: Rgb, n: Svec, m: byte)
    ensures Average(c) > 128 ==> c.r <= ApplyMetallic(c, n, m).r && c.g <= ApplyMetallic(c, n, m).g && c.b <= ApplyMetallic(c, n, m).b
    ensures Average(c) <= 128 ==> ApplyMetallic(c, n, m).r <= c.r && ApplyMetallic(c, n, m).g <= c.g && ApplyMetallic(c, n, m).b <= c.b
  {
  }

  /** Scenario: metallic 200 over a colour whose average is 60 darkens every channel
      by `(200 * 60) >> 8 == 46`, floored at 0. */
  lemma MetallicDarkenExample(n: Svec)
    ensures ApplyMetallic(Rgb(60, 60, 60), n, 200) == Rgb(14, 14, 14)
    ensures ApplyMetallic(Rgb(100, 40, 40), n, 200) == Rgb(54, 0, 0)
  {
    MulIsProduct(200, 60);
    assert MetallicReduce(Rgb(60, 60, 60), 200) == 46;
    assert Average(Rgb(100, 40, 40)) == 60;
  }

  /** A zero specular intensity never changes the colour. */
  lemma SpecularZeroIsIdentity(c: Rgb, n: Svec)
    ensures ApplySpecular(c, n, 0) == c
  {
  }

  /** A larger specular intensity gives a channel-wise brighter (or equal) result. */
  lemma SpecularMonotone(c: Rgb, n: Svec, s1: byte, s2: byte)
    requires s1 <= s2
    ensures ApplySpecular(c, n, s1).r <= ApplySpecular(c, n, s2).r
    ensures ApplySpecular(c, n, s1).g <= ApplySpecular(c, n, s2).g
    ensures ApplySpecular(c, n, s1).b <= ApplySpecular(c, n, s2).b
  {
    if SpecularDot(n) > 0 {
      var d := SpecularDot(n);
      MulIsProduct(d, s1);
      MulIsProduct(d, s2);
      MulBound(d, s1, d, s2);
      assert d * s1 <= d * s2 by { MulBound(d, s2 - s1, d, s2); assert d * s2 - d * s1 == d * (s2 - s1); }
      assert SpecularBoost(n, s1) <= SpecularBoost(n, s2);
    }
  }
}
