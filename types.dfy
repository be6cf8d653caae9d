/** Machine-level value types shared by the renderer, the examples and the tools:
    bytes, 16-bit shorts, the SVECTOR and CVECTOR records, and an Option. */
module Types {

  /** `unsigned char` / `u_char`. */
  type byte = x: int | 0 <= x < 256

  /** `short` / `int16_t`. */
  type short = x: int | -32768 <= x < 32768

  datatype Option<+T> = None | Some(value: T)

  /** SVECTOR: three signed 16-bit components (positions, normals, UV pairs, angles). */
  datatype Svec = Svec(vx: short, vy: short, vz: short)

  /** VECTOR: three 32-bit components; kept unbounded (see README, "Left out"). */
  datatype Vec = Vec(vx: int, vy: int, vz: int)

  /** CVECTOR without its unused `cd` byte. */
  datatype Rgb = Rgb(r: byte, g: byte, b: byte)

  /** The flat grey `{128, 128, 128}` used whenever a face carries no vertex colour. */
  const Grey: Rgb := Rgb(128, 128, 128)

  function Min(a: int, b: int): (m: int)
    ensures m <= a && m <= b && (m == a || m == b)
  {
    if a <= b then a else b
  }

  /** Storing an `int` into a `short`: the compiler keeps the low 16 bits (two's complement). */
  function Wrap16(x: int): (r: short)
    ensures (r - x) % 65536 == 0
    ensures -32768 <= x < 32768 ==> r == x
  {
    var m := x % 65536;
    if m < 32768 then m else m - 65536
  }

  /** Storing an `int` into an `unsigned char`: the low 8 bits. */
  function Truncate8(x: int): (r: byte)
    ensures (r - x) % 256 == 0
    ensures 0 <= x < 256 ==> r == x
  {
    x % 256
  }

  /** C's logical negation `!x` on an `int`. */
  function Not(x: int): (r: int)
    ensures r == 0 || r == 1
    ensures (r == 1) <==> (x == 0)
  {
    if x == 0 then 1 else 0
  }

  /** Two values with the same residue modulo 2^16 are stored as the same `short`. */
  lemma WrapResidue(x: int, y: int)
    requires x % 65536 == y % 65536
    ensures Wrap16(x) == Wrap16(y)
  {
  }

  /** `s += a` on a `short`: adding to a value already stored as a short is the same as
      adding to the unwrapped value and storing once, so successive updates compose. */
  lemma WrapAdd(x: int, a: int)
    ensures Wrap16(Wrap16(x) + a) == Wrap16(x + a)
  {
    var k := x / 65536;
    assert x == 65536 * k + x % 65536;
    var w := Wrap16(x);
    assert w == x - 65536 * k || w == x - 65536 * k - 65536;
    if w == x - 65536 * k {
      ModShift(x + a, -k);
    } else {
      ModShift(x + a, -k - 1);
    }
    WrapResidue(w + a, x + a);
  }

  /** Adding a multiple of 2^16 keeps the residue. */
  lemma ModShift(y: int, k: int)
    ensures (y + 65536 * k) % 65536 == y % 65536
  {
    var q := y / 65536;
    var r := y % 65536;
    assert y + 65536 * k == 65536 * (q + k) + r;
  }
}
