/** tools/bin2header.py: turns a binary file (a TIM texture) into a C array
    `const unsigned char <name>[<n>] = { ... };`, sixteen bytes per line, each byte
    written `0x` plus two upper-case hex digits. Reading and writing the files and the
    closing message are I/O and are not modelled: the input bytes are a parameter and
    the header text is the result. */
module Bin2Header {
  import opened Types

  /** What a run produces: the usage message (exit status 1) or the header text. */
  datatype Outcome = Usage | Header(text: string)

  const HexDigits: string := "0123456789ABCDEF"
  const DecimalDigits: string := "0123456789"

  /** The two-digit upper-case hex form `0x%02X` of a byte. */
  function HexByte(b: byte): (s: string)
    ensures |s| == 4 && s[0] == '0' && s[1] == 'x'
  {
    "0x" + [HexDigits[b / 16], HexDigits[b % 16]]
  }

  /** The value of an upper-case hex digit (0 for any other character). */
  function DigitValue(c: char): (v: int)
    ensures 0 <= v < 16
  {
    if '0' <= c <= '9' then c as int - '0' as int
    else if 'A' <= c <= 'F' then c as int - 'A' as int + 10
    else 0
  }

  /** The value of a `0xHH` token. */
  function TokenValue(s: string): int
    requires |s| >= 4
  {
    DigitValue(s[2]) * 16 + DigitValue(s[3])
  }

  /** The digits of a token are upper-case hex digits, and each reads back as its
      value. */
  lemma DigitRoundTrip(d: int)
    requires 0 <= d < 16
    ensures DigitValue(HexDigits[d]) == d
  {
  }

  /** Reading a byte's token back gives the byte. */
  lemma HexByteRoundTrip(b: byte)
    ensures TokenValue(HexByte(b)) == b
    ensures HexByte(b)[2] in HexDigits && HexByte(b)[3] in HexDigits
  {
    DigitRoundTrip(b / 16);
    DigitRoundTrip(b % 16);
  }

  /** Python's `sep.join(items)`. */
  function Join(sep: string, items: seq<string>): string {
    if items == [] then ""
    else if |items| == 1 then items[0]
    else items[0] + sep + Join(sep, items[1..])
  }

  /** `', '.join(f'0x{b:02X}' for b in chunk)`. */
  function HexList(chunk: seq<byte>): string {
    Join(", ", seq(|chunk|, i requires 0 <= i < |chunk| => HexByte(chunk[i])))
  }

  /** One line: four spaces, then the chunk's tokens. */
  function Line(chunk: seq<byte>): string {
    "    " + HexList(chunk)
  }

  /** `data[i:i+16]` for `i` in `range(0, len(data), 16)`. */
  function Chunks(data: seq<byte>): seq<seq<byte>>
    decreases |data|
  {
    if data == [] then []
    else if |data| <= 16 then [data]
    else [data[..16]] + Chunks(data[16..])
  }

  function Lines(chunks: seq<seq<byte>>): (r: seq<string>)
    ensures |r| == |chunks| && forall i :: 0 <= i < |chunks| ==> r[i] == Line(chunks[i])
  {
    seq(|chunks|, i requires 0 <= i < |chunks| => Line(chunks[i]))
  }

  /** The decimal digits of `n`, as f-strings print it. */
  function Decimal(n: nat): string {
    if n < 10 then [DecimalDigits[n]] else Decimal(n / 10) + [DecimalDigits[n % 10]]
  }

  /** The value of a string of decimal digits. */
  function DecimalValue(s: string): int {
    if s == [] then 0 else DecimalValue(s[..|s| - 1]) * 10 + DigitValue(s[|s| - 1])
  }

  /** The declared length reads back as the number of bytes. */
  lemma {:induction false} DecimalRoundTrip(n: nat)
    ensures DecimalValue(Decimal(n)) == n
  {
    if n < 10 {
      assert DigitValue(DecimalDigits[n]) == n;
    } else {
      DecimalRoundTrip(n / 10);
      var s := Decimal(n);
      assert s[..|s| - 1] == Decimal(n / 10);
      assert DigitValue(DecimalDigits[n % 10]) == n % 10;
    }
  }

  /** The array body between `{\n` and `\n};\n`: the lines joined by `,\n`. */
  function Body(data: seq<byte>): string {
    Join(",\n", Lines(Chunks(data)))
  }

  const Opening: string := "const unsigned char "
  const DeclEnd: string := "] = {\n"
  const Closing: string := "\n};\n"

  /** The header text (tools/bin2header.py:15-21). */
  function HeaderText(name: string, data: seq<byte>): string {
    Opening + name + "[" + Decimal(|data|) + DeclEnd + Body(data) + Closing
  }

  /** A run with command line `argv` on the input bytes `data` (tools/bin2header.py:4-21):
      usage unless there are exactly three arguments after the script name. */
  function Run(argv: seq<string>, data: seq<byte>): Outcome {
    if |argv| != 4 then Usage else Header(HeaderText(argv[3], data))
  }

  /** There are `ceil(n / 16)` chunks; every one but the last holds 16 bytes, the last
      between 1 and 16; and they are the input, in order. */
  lemma {:induction false} ChunksCover(data: seq<byte>)
    ensures |Chunks(data)| == (|data| + 15) / 16
    ensures forall i :: 0 <= i < |Chunks(data)| - 1 ==> |Chunks(data)[i]| == 16
    ensures Chunks(data) != [] ==> 1 <= |Chunks(data)[|Chunks(data)| - 1]| <= 16
    ensures Flatten(Chunks(data)) == data
    decreases |data|
  {
    if |data| > 16 {
      ChunksCover(data[16..]);
      FlattenCons(data[..16], Chunks(data[16..]));
      assert data == data[..16] + data[16..];
    } else if data != [] {
      FlattenCons(data, []);
    }
  }

  /** The concatenation of the chunks. */
  function Flatten(cs: seq<seq<byte>>): seq<byte> {
    if cs == [] then [] else cs[0] + Flatten(cs[1..])
  }

  lemma FlattenCons(c: seq<byte>, cs: seq<seq<byte>>)
    ensures Flatten([c] + cs) == c + Flatten(cs)
  {
    assert ([c] + cs)[1..] == cs;
  }

  /** A scanner for the body: each `0x` followed by two characters is a byte; every
      other character is skipped. */
  function Scan(s: string): seq<int>
    decreases |s|
  {
    if |s| >= 4 && s[0] == '0' && s[1] == 'x' then [TokenValue(s)] + Scan(s[4..])
    else if s == [] then []
    else Scan(s[1..])
  }

  /** Separators are skipped. */
  lemma ScanSkips(sep: string, rest: string)
    requires forall i :: 0 <= i < |sep| ==> sep[i] != '0'
    ensures Scan(sep + rest) == Scan(rest)
    decreases |sep|
  {
    if sep != [] {
      var s := sep + rest;
      assert s[0] == sep[0] != '0';
      assert s[1..] == sep[1..] + rest;
      ScanSkips(sep[1..], rest);
    } else {
      assert sep + rest == rest;
    }
  }

  /** A token is read as its byte. */
  lemma ScanToken(b: byte, rest: string)
    ensures Scan(HexByte(b) + rest) == [b as int] + Scan(rest)
  {
    var h := HexByte(b);
    var s := h + rest;
    assert s[0] == '0' && s[1] == 'x' && s[2] == h[2] && s[3] == h[3];
    HexByteRoundTrip(b);
    assert TokenValue(s) == b;
    assert s[4..] == rest;
  }

  function AsInts(bs: seq<byte>): (r: seq<int>)
    ensures |r| == |bs| && forall i :: 0 <= i < |bs| ==> r[i] == bs[i] as int
  {
    seq(|bs|, i requires 0 <= i < |bs| => bs[i] as int)
  }

  /** The first token of a chunk's list, then the rest of the list. */
  lemma HexListCons(chunk: seq<byte>)
    requires chunk != []
    ensures |chunk| == 1 ==> HexList(chunk) == HexByte(chunk[0])
    ensures |chunk| > 1 ==> HexList(chunk) == HexByte(chunk[0]) + ", " + HexList(chunk[1..])
  {
    var toks := seq(|chunk|, i requires 0 <= i < |chunk| => HexByte(chunk[i]));
    var tail := chunk[1..];
    assert toks[1..] == seq(|tail|, i requires 0 <= i < |tail| => HexByte(tail[i]));
  }

  lemma Regroup(a: string, b: string, c: string, d: string)
    ensures a + b + c + d == a + (b + (c + d))
  {
  }

  /** Scanning a chunk's tokens, then anything after, reads the chunk's bytes first. */
  lemma {:induction false} ScanHexList(chunk: seq<byte>, rest: string)
    requires chunk != []
    ensures Scan(HexList(chunk) + rest) == AsInts(chunk) + Scan(rest)
    decreases |chunk|
  {
    if |chunk| == 1 {
      assert Scan(HexList(chunk) + rest) == [chunk[0] as int] + Scan(rest) by {
        HexListCons(chunk);
        ScanToken(chunk[0], rest);
      }
      assert AsInts(chunk) == [chunk[0] as int];
    } else {
      var tail := chunk[1..];
      var after := HexList(tail) + rest;
      assert Scan(HexList(chunk) + rest) == [chunk[0] as int] + Scan(", " + after) by {
        HexListCons(chunk);
        Regroup(HexByte(chunk[0]), ", ", HexList(tail), rest);
        ScanToken(chunk[0], ", " + after);
      }
      assert Scan(", " + after) == Scan(after) by {
        ScanSkips(", ", after);
      }
      assert Scan(after) == AsInts(tail) + Scan(rest) by {
        ScanHexList(tail, rest);
      }
      assert AsInts(chunk) == [chunk[0] as int] + AsInts(tail);
      assert [chunk[0] as int] + (AsInts(tail) + Scan(rest))
          == ([chunk[0] as int] + AsInts(tail)) + Scan(rest);
    }
  }

  /** Joining a non-empty list: its first item, then the separator and the rest. */
  lemma JoinCons(sep: string, items: seq<string>, rest: string)
    requires items != []
    ensures Join(sep, items) + rest
         == items[0] + (if |items| == 1 then rest else sep + (Join(sep, items[1..]) + rest))
  {
    if |items| > 1 {
      Regroup(items[0], sep, Join(sep, items[1..]), rest);
    }
  }

  /** The joined lines are the first line's indent and tokens, then what follows. */
  lemma JoinLinesCons(cs: seq<seq<byte>>, rest: string)
    requires cs != []
    ensures Join(",\n", Lines(cs)) + rest == "    " + (HexList(cs[0]) + RestAfter(cs, rest))
  {
    var ls := Lines(cs);
    var after := RestAfter(cs, rest);
    if |cs| > 1 {
      assert Lines(cs[1..]) == ls[1..];
    }
    assert Join(",\n", ls) + rest == ls[0] + after by {
      JoinCons(",\n", ls, rest);
    }
    assert ls[0] == "    " + HexList(cs[0]);
    assert ("    " + HexList(cs[0])) + after == "    " + (HexList(cs[0]) + after);
  }

  /** Scanning the joined lines reads the first chunk, then goes on after its line. */
  lemma ScanFirstLine(cs: seq<seq<byte>>, rest: string)
    requires cs != [] && cs[0] != []
    ensures Scan(Join(",\n", Lines(cs)) + rest) == AsInts(cs[0]) + Scan(RestAfter(cs, rest))
  {
    var after := RestAfter(cs, rest);
    JoinLinesCons(cs, rest);
    assert Scan("    " + (HexList(cs[0]) + after)) == Scan(HexList(cs[0]) + after) by {
      ScanSkips("    ", HexList(cs[0]) + after);
    }
    ScanHexList(cs[0], after);
  }

  /** Reading the chunks' bytes is reading the first chunk's, then the others'. */
  lemma AsIntsFlatten(cs: seq<seq<byte>>)
    requires cs != []
    ensures AsInts(Flatten(cs)) == AsInts(cs[0]) + AsInts(Flatten(cs[1..]))
  {
    assert Flatten(cs) == cs[0] + Flatten(cs[1..]);
  }

  /** Scanning the joined lines, then anything after, reads every chunk in order. */
  lemma {:induction false} ScanLines(cs: seq<seq<byte>>, rest: string)
    requires forall i :: 0 <= i < |cs| ==> cs[i] != []
    ensures Scan(Join(",\n", Lines(cs)) + rest) == AsInts(Flatten(cs)) + Scan(rest)
    decreases |cs|
  {
    if cs != [] {
      var first := AsInts(cs[0]);
      var others := AsInts(Flatten(cs[1..]));
      assert Scan(Join(",\n", Lines(cs)) + rest) == first + Scan(RestAfter(cs, rest)) by {
        ScanFirstLine(cs, rest);
      }
      assert AsInts(Flatten(cs)) == first + others by {
        AsIntsFlatten(cs);
      }
      assert Scan(RestAfter(cs, rest)) == others + Scan(rest) by {
        if |cs| == 1 {
          assert Flatten(cs[1..]) == [];
        } else {
          var more := Join(",\n", Lines(cs[1..])) + rest;
          ScanSkips(",\n", more);
          ScanLines(cs[1..], rest);
        }
      }
      assert first + (others + Scan(rest)) == (first + others) + Scan(rest);
    } else {
      assert Join(",\n", Lines(cs)) + rest == rest;
      assert AsInts(Flatten(cs)) == [];
    }
  }

  /** What follows the first line in `Join(",\n", Lines(cs)) + rest`. */
  function RestAfter(cs: seq<seq<byte>>, rest: string): string
    requires cs != []
  {
    if |cs| == 1 then rest else ",\n" + (Join(",\n", Lines(cs[1..])) + rest)
  }

  /** Every chunk holds at least one byte. */
  lemma ChunksNonEmpty(data: seq<byte>)
    ensures forall i :: 0 <= i < |Chunks(data)| ==> Chunks(data)[i] != []
  {
    var cs := Chunks(data);
    ChunksCover(data);
    forall i | 0 <= i < |cs|
      ensures cs[i] != []
    {
      if i < |cs| - 1 {
        assert |cs[i]| == 16;
      }
    }
  }

  /** The closing brace and semicolon hold no token. */
  lemma ScanClosing()
    ensures Scan(Closing) == []
  {
    ScanSkips(Closing, []);
    assert Closing + [] == Closing;
  }

  /** Scanning the array body and the closing `\n};\n` reads exactly the input bytes. */
  lemma BodyRoundTrip(data: seq<byte>)
    ensures Scan(Body(data) + Closing) == AsInts(data)
  {
    ChunksNonEmpty(data);
    ScanLines(Chunks(data), Closing);
    ScanClosing();
    ChunksCover(data);
  }

  /** Where the declared length starts in the header text. */
  function LengthStart(name: string): nat {
    |Opening| + |name| + 1
  }

  /** Where the array body starts in the header text. */
  function BodyStart(name: string, data: seq<byte>): nat {
    LengthStart(name) + |Decimal(|data|)| + |DeclEnd|
  }

  /** The header declares the array's length: the decimal between `[` and `]` reads
      back as the number of bytes. */
  lemma HeaderDeclaresLength(name: string, data: seq<byte>)
    ensures var t := HeaderText(name, data);
            var open := LengthStart(name);
            var close := open + |Decimal(|data|)|;
            close < |t| && t[open - 1] == '[' && t[close] == ']'
            && DecimalValue(t[open..close]) == |data|
  {
    DeclaresLength(name, data, Body(data), Closing);
  }

  /** The same for any text after the declaration. */
  lemma DeclaresLength(name: string, data: seq<byte>, body: string, closing: string)
    ensures var t := Opening + name + "[" + Decimal(|data|) + DeclEnd + body + closing;
            var open := LengthStart(name);
            var close := open + |Decimal(|data|)|;
            close < |t| && t[open - 1] == '[' && t[close] == ']'
            && DecimalValue(t[open..close]) == |data|
  {
    var pre := Opening + name + "[";
    OpeningBracket(name);
    DecimalRoundTrip(|data|);
    HeaderShape(pre, Decimal(|data|), DeclEnd, body, closing);
    var t := pre + Decimal(|data|) + DeclEnd + body + closing;
    Delimited(t, pre, Decimal(|data|), DeclEnd, body + closing, LengthStart(name));
    ReadsBack(t, LengthStart(name), Decimal(|data|), |data|);
  }

  /** A piece cut out of a text has the value of the piece. */
  lemma ReadsBack(t: string, open: int, d: string, n: int)
    requires 0 <= open <= open + |d| <= |t| && t[open..open + |d|] == d && DecimalValue(d) == n
    ensures DecimalValue(t[open..open + |d|]) == n
  {
  }

  /** The text before the declared length ends with `[`, at LengthStart. */
  lemma OpeningBracket(name: string)
    ensures var pre := Opening + name + "[";
            |pre| == LengthStart(name) && pre[|pre| - 1] == '['
  {
  }

  /** A piece that sits between `[` and `]` can be cut out again, wherever it is. */
  lemma Delimited(t: string, pre: string, d: string, post: string, more: string, open: int)
    requires t == pre + (d + (post + more)) && open == |pre|
    requires pre != [] && pre[|pre| - 1] == '[' && post != [] && post[0] == ']'
    ensures open + |d| < |t| && t[open - 1] == '[' && t[open + |d|] == ']'
    ensures t[open..open + |d|] == d
  {
  }

  /** The header holds the input bytes: scanning everything after the opening brace
      reads back the bytes in order. */
  lemma HeaderHoldsBytes(name: string, data: seq<byte>)
    ensures BodyStart(name, data) <= |HeaderText(name, data)|
    ensures Scan(HeaderText(name, data)[BodyStart(name, data)..]) == AsInts(data)
  {
    AfterDeclaration(name, data, Body(data), Closing);
    BodyRoundTrip(data);
  }

  /** What follows the declaration's `{\n`, for any text after it. */
  lemma AfterDeclaration(name: string, data: seq<byte>, body: string, closing: string)
    ensures var t := Opening + name + "[" + Decimal(|data|) + DeclEnd + body + closing;
            BodyStart(name, data) <= |t| && t[BodyStart(name, data)..] == body + closing
  {
    var pre := Opening + name + "[";
    assert |pre| == LengthStart(name);
    assert DeclEnd != [];
    HeaderShape(pre, Decimal(|data|), DeclEnd, body, closing);
    SplitThree(pre, Decimal(|data|), DeclEnd, body + closing);
  }

  lemma HeaderShape(a: string, b: string, c: string, d: string, e: string)
    ensures a + b + c + d + e == a + (b + (c + (d + e)))
  {
  }

  /** Where the pieces of `a + (b + (c + d))` sit. */
  lemma SplitThree(a: string, b: string, c: string, d: string)
    requires a != [] && c != []
    ensures var t := a + (b + (c + d));
            |a| + |b| + |c| <= |t| && t[|a| - 1] == a[|a| - 1] && t[|a| + |b|] == c[0]
            && t[|a|..|a| + |b|] == b && t[|a| + |b| + |c|..] == d
  {
  }

  /** The first chunk is the first sixteen bytes, or all of them when fewer. */
  lemma ChunksCons(data: seq<byte>)
    requires data != []
    ensures var n := if |data| <= 16 then |data| else 16;
            Chunks(data) == [data[..n]] + Chunks(data[n..])
  {
    if |data| <= 16 {
      assert data[..|data|] == data && data[|data|..] == [];
    }
  }

  /** The lines of a leading chunk and the chunks after it. */
  lemma LinesCons(c: seq<byte>, cs: seq<seq<byte>>)
    ensures Lines([c] + cs) == [Line(c)] + Lines(cs)
  {
  }

  /** The script's main flow (tools/bin2header.py:4-21): check the arguments, then build
      one line per sixteen-byte slice and join them under the declaration. */
  method Bin2HeaderMain(argv: seq<string>, data: seq<byte>) returns (out: Outcome)
    ensures out == Run(argv, data)
  {
    if |argv| != 4 {
      return Usage;
    }
    var arrayName := argv[3];
    var header := Opening + arrayName + "[" + Decimal(|data|) + DeclEnd;
    var lines: seq<string> := [];
    var i := 0;
    var rest := data;
    while i < |data|
      invariant 0 <= i && (i < |data| ==> rest == data[i..]) && (i >= |data| ==> rest == [])
      invariant lines + Lines(Chunks(rest)) == Lines(Chunks(data))
      decreases |data| - i
    {
      var chunk := if i + 16 <= |data| then data[i..i + 16] else data[i..];
      assert chunk == rest[..|chunk|] && |chunk| == (if |rest| <= 16 then |rest| else 16);
      ChunksCons(rest);
      assert i + 16 < |data| ==> rest[|chunk|..] == data[i + 16..];
      LinesCons(chunk, Chunks(rest[|chunk|..]));
      assert (lines + [Line(chunk)]) + Lines(Chunks(rest[|chunk|..]))
          == lines + ([Line(chunk)] + Lines(Chunks(rest[|chunk|..])));
      lines := lines + ["    " + HexList(chunk)];
      rest := rest[|chunk|..];
      i := i + 16;
    }
    assert lines + [] == lines;
    header := header + Join(",\n", lines) + Closing;
    out := Header(header);
  }
}
