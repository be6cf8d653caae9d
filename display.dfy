/** The double buffer of examples/psyq/lib/display.c: two draw/display environment
    pairs, two ordering tables, two 131072-byte primitive arenas, the index of the
    buffer being built (`currentBuffer`), a pointer to it (`cdb`) and the arena cursor
    (`nextpri`). Arena positions are byte addresses with arena `b` starting at
    `b * 131072`. */
module Display {
  import opened Types
  import opened Gpu

  const ScreenWidth: int := 320
  const ScreenHeight: int := 240
  /** `OT_LENGTH` (display.h:10). */
  const OtLength: int := 4096
  /** The size of each of `primbuff[2][131072]` (display.h:25). */
  const ArenaSize: int := 131072

  datatype Rect = Rect(x: int, y: int, w: int, h: int)

  /** The parts of DRAWENV and DISPENV the code sets. */
  datatype DrawEnv = DrawEnv(area: Rect, isbg: bool, bg: Rgb)
  datatype DispEnv = DispEnv(area: Rect)
  datatype Buffer = Buffer(draw: DrawEnv, disp: DispEnv)

  /** Where arena `b` starts. */
  function ArenaStart(b: int): int {
    b * ArenaSize
  }

  /** Each buffer draws where the other one is displayed, so the frame being drawn is
      never the frame on screen. */
  predicate Paired(db: seq<Buffer>) {
    |db| == 2 && db[0].draw.area == db[1].disp.area && db[1].draw.area == db[0].disp.area
  }

  /** `ClearOTagR(ot, n)` on a whole table. */
  method ClearTable(ot: array<Bucket>)
    modifies ot
    ensures ot[..] == ClearOTag(ot.Length)
  {
    forall i | 0 <= i < ot.Length {
      ot[i] := [];
    }
  }

  /** The globals `db`, `cdb`, `currentBuffer` and `nextpri`, and the two ordering
      tables `db[0].ot`, `db[1].ot`. A null `cdb` or `nextpri` is None. */
  class DoubleBuffer {
    var db: seq<Buffer>
    var cdb: Option<int>
    var currentBuffer: int
    var nextpri: Option<int>
    const ots: seq<array<Bucket>>

    predicate Valid()
      reads this
    {
      && (currentBuffer == 0 || currentBuffer == 1)
      && |db| == 2 && |ots| == 2 && ots[0] != ots[1]
      && ots[0].Length == OtLength && ots[1].Length == OtLength
    }

    /** The globals' static initialisers: buffer 0, null pointers. */
    constructor (ot0: array<Bucket>, ot1: array<Bucket>)
      requires ot0 != ot1 && ot0.Length == OtLength && ot1.Length == OtLength
      ensures Valid() && ots == [ot0, ot1]
      ensures currentBuffer == 0 && cdb == None && nextpri == None
    {
      var blank := Buffer(DrawEnv(Rect(0, 0, 0, 0), false, Rgb(0, 0, 0)), DispEnv(Rect(0, 0, 0, 0)));
      db := [blank, blank];
      cdb := None;
      currentBuffer := 0;
      nextpri := None;
      ots := [ot0, ot1];
    }

    /** The ordering table of buffer `b`. */
    function Ot(b: int): array<Bucket>
      reads this
      requires Valid() && 0 <= b <= 1
    {
      ots[b]
    }

    /** initDisplay (display.c:16-38) without the library calls: buffer 0 draws at the
        top and displays the bottom, buffer 1 the reverse, both clear to (40, 60, 80). */
    method Init()
      requires Valid()
      modifies this
      ensures Valid() && Paired(db)
      ensures db[0].draw == DrawEnv(Rect(0, 0, ScreenWidth, ScreenHeight), true, Rgb(40, 60, 80))
      ensures db[0].disp == DispEnv(Rect(0, ScreenHeight, ScreenWidth, ScreenHeight))
      ensures db[1].draw == DrawEnv(Rect(0, ScreenHeight, ScreenWidth, ScreenHeight), true, Rgb(40, 60, 80))
      ensures db[1].disp == DispEnv(Rect(0, 0, ScreenWidth, ScreenHeight))
      ensures currentBuffer == old(currentBuffer) && cdb == old(cdb) && nextpri == old(nextpri)
    {
      var bg := Rgb(40, 60, 80);
      db := [Buffer(DrawEnv(Rect(0, 0, ScreenWidth, ScreenHeight), true, bg), DispEnv(Rect(0, ScreenHeight, ScreenWidth, ScreenHeight))),
             Buffer(DrawEnv(Rect(0, ScreenHeight, ScreenWidth, ScreenHeight), true, bg), DispEnv(Rect(0, 0, ScreenWidth, ScreenHeight)))];
    }

    /** swapBuffers (display.c:40-44): flip the buffer, point `cdb` at it and rewind
        the cursor to the start of its arena. Nothing else changes: the environments
        and both ordering tables are left as they were. */
    method Swap()
      requires Valid()
      modifies this
      ensures Valid()
      ensures currentBuffer == 1 - old(currentBuffer)
      ensures cdb == Some(currentBuffer) && nextpri == Some(ArenaStart(currentBuffer))
      ensures db == old(db)
    {
      currentBuffer := Not(currentBuffer);
      cdb := Some(currentBuffer);
      nextpri := Some(ArenaStart(currentBuffer));
    }
  }

  /** Two calls of swapBuffers give back the buffer one started with: `cdb` points at
      it again and the cursor is rewound to the start of its arena. */
  method SwapTwice(d: DoubleBuffer)
    requires d.Valid()
    modifies d
    ensures d.Valid() && d.currentBuffer == old(d.currentBuffer) && d.db == old(d.db)
    ensures d.cdb == Some(old(d.currentBuffer)) && d.nextpri == Some(ArenaStart(old(d.currentBuffer)))
  {
    d.Swap();
    d.Swap();
  }
}
