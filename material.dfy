/** The per-face material-flag byte (examples/psyq/lib/model.c:9-16) and the choice of
    primitive shape it drives. */
module Material {
  import opened Gpu

  type Flags = bv8

  const UNLIT: Flags := 1
  const TEXTURED: Flags := 2
  const SMOOTH: Flags := 4
  const VERTEX_COLOR: Flags := 8
  const ALPHA: Flags := 16
  const CUTOUT: Flags := 32
  const SPECULAR: Flags := 64
  const METALLIC: Flags := 128

  /** `flags & bit` taken as a C truth value. */
  predicate Has(f: Flags, bit: Flags) {
    f & bit != 0
  }

  /** The primitive shape of a face: Textured picks GT/FT, Smooth picks Gouraud. */
  function ShapeOf(f: Flags): (s: Shape)
    ensures (s == GT) <==> Has(f, TEXTURED) && Has(f, SMOOTH)
    ensures (s == FT) <==> Has(f, TEXTURED) && !Has(f, SMOOTH)
    ensures (s == G) <==> !Has(f, TEXTURED) && Has(f, SMOOTH)
    ensures (s == F) <==> !Has(f, TEXTURED) && !Has(f, SMOOTH)
  {
    if Has(f, TEXTURED) then
      if Has(f, SMOOTH) then GT else FT
    else
      if Has(f, SMOOTH) then G else F
  }

  /** Whether the shape carries a texture page, CLUT and UVs. */
  predicate Textured(s: Shape) {
    s == GT || s == FT
  }

  /** Whether the shape carries one colour per vertex rather than one per face. */
  predicate Gouraud(s: Shape) {
    s == GT || s == G
  }

  /** The shape is decided by the Textured and Smooth bits alone: clearing every other
      bit leaves it unchanged. */
  lemma ShapeOnlyFromTwoBits(f: Flags)
    ensures ShapeOf(f) == ShapeOf(f & (TEXTURED | SMOOTH))
  {
  }
}
