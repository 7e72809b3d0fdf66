/**
 * The frame writers: binary and ASCII PGM (grey) and PPM (colour) files
 * of a frame buffer read back from GL, and the buffer cache of writeFrame.
 *
 * A file is modelled as the bytes written to it.  The buffer holds `w * h`
 * pixels row by row from the bottom row up (GL's order); the files list
 * rows from the top down, so row `h - 1` of the buffer comes first.  A grey
 * buffer has one byte per pixel, a colour buffer four (RGBA), of which the
 * first three are written.
 */
module Image {
  newtype byte = x: int | 0 <= x < 256

  const SPACE: byte := 32
  const NEWLINE: byte := 10
  const LETTER_P: byte := 80
  const DIGIT_ZERO: byte := 48
  /** The maximum sample value written in every header. */
  const MAX_VALUE: nat := 255

  /** The magic numbers after `P`: ASCII and binary grey, ASCII and binary colour. */
  const MAGIC_PGM_ASCII: byte := 50
  const MAGIC_PGM_RAW: byte := 53
  const MAGIC_PPM_ASCII: byte := 51
  const MAGIC_PPM_RAW: byte := 54

  predicate IsDigit(b: byte)
  {
    DIGIT_ZERO <= b < DIGIT_ZERO + 10
  }

  // ---------------------------------------------------------------------
  // Decimal numerals (the "%d" conversion on non-negative values)
  // ---------------------------------------------------------------------

  function Decimal(n: nat): (r: seq<byte>)
    ensures |r| > 0 && forall k :: 0 <= k < |r| ==> IsDigit(r[k])
  {
    if n < 10 then [DIGIT_ZERO + n as byte]
    else Decimal(n / 10) + [DIGIT_ZERO + (n % 10) as byte]
  }

  function Pow10(k: nat): nat
  {
    if k == 0 then 1 else 10 * Pow10(k - 1)
  }

  /** Reads the digits at the front of s onto the accumulator. */
  function ParseDigits(s: seq<byte>, acc: nat): (r: (nat, seq<byte>))
    ensures |r.1| <= |s|
    ensures s != [] && IsDigit(s[0]) ==> |r.1| < |s|
    ensures r.1 != [] ==> !IsDigit(r.1[0])
    decreases |s|
  {
    if s != [] && IsDigit(s[0]) then ParseDigits(s[1..], acc * 10 + (s[0] - DIGIT_ZERO) as nat)
    else (acc, s)
  }

  /** The numbers of an ASCII body: maximal runs of digits, every other byte a separator. */
  function ParseCells(s: seq<byte>): seq<int>
    decreases |s|
  {
    if s == [] then []
    else if !IsDigit(s[0]) then ParseCells(s[1..])
    else
      var (n, rest) := ParseDigits(s, 0);
      [n] + ParseCells(rest)
  }

  lemma {:induction false} DecimalDigits(n: nat, rest: seq<byte>, acc: nat)
    ensures ParseDigits(Decimal(n) + rest, acc) == ParseDigits(rest, acc * Pow10(|Decimal(n)|) + n)
    decreases n
  {
    var d: byte := DIGIT_ZERO + (n % 10) as byte;
    if n < 10 {
      assert (Decimal(n) + rest)[1..] == rest;
    } else {
      var q := n / 10;
      var p := Pow10(|Decimal(q)|);
      assert Decimal(n) + rest == Decimal(q) + ([d] + rest);
      DecimalDigits(q, [d] + rest, acc);
      assert ([d] + rest)[1..] == rest;
      ShiftDigit(acc, p, n);
    }
  }

  lemma ShiftDigit(acc: nat, p: nat, n: nat)
    ensures (acc * p + n / 10) * 10 + n % 10 == acc * (10 * p) + n
  {
    assert (acc * p + n / 10) * 10 == acc * p * 10 + n / 10 * 10;
  }

  /** A numeral followed by a separator reads back as its value. */
  lemma DecimalReadsBefore(n: nat, sep: byte, rest: seq<byte>)
    requires !IsDigit(sep)
    ensures ParseCells(Decimal(n) + [sep] + rest) == [n] + ParseCells(rest)
  {
    var s := Decimal(n) + [sep] + rest;
    DecimalDigits(n, [sep] + rest, 0);
    assert s == Decimal(n) + ([sep] + rest);
    assert IsDigit(s[0]);
    assert ([sep] + rest)[1..] == rest;
  }

  lemma DecimalReads(n: nat, rest: seq<byte>)
    ensures ParseCells(Decimal(n) + [SPACE] + rest) == [n] + ParseCells(rest)
  {
    DecimalReadsBefore(n, SPACE, rest);
  }

  // ---------------------------------------------------------------------
  // Products, one addend at a time
  // ---------------------------------------------------------------------

  /**
   * a * b as repeated addition.  Index arithmetic is written with it so
   * that the facts used about products are the lemmas below.
   */
  function Mul(a: nat, b: nat): nat
  {
    if a == 0 then 0 else Mul(a - 1, b) + b
  }

  lemma {:induction false} MulIsProduct(a: nat, b: nat)
    ensures Mul(a, b) == a * b
    decreases a
  {
    if a > 0 {
      MulIsProduct(a - 1, b);
      assert (a - 1) * b + b == a * b;
    }
  }

  lemma {:induction false} MulMono(a: nat, b: nat, c: nat)
    requires a <= b
    ensures Mul(a, c) <= Mul(b, c)
    decreases b - a
  {
    if a < b {
      MulMono(a, b - 1, c);
    }
  }

  /** x < w gives x * n + c < w * n for every c < n. */
  lemma MulWithin(x: nat, w: nat, n: nat, c: nat)
    requires x < w && c < n
    ensures Mul(x, n) + c < Mul(w, n)
  {
    MulMono(x + 1, w, n);
  }

  lemma {:induction false} MulPlus(a: nat, b: nat, n: nat)
    ensures Mul(a + b, n) == Mul(a, n) + Mul(b, n)
    decreases b
  {
    if b > 0 {
      MulPlus(a, b - 1, n);
    }
  }

  lemma {:induction false} MulAssoc(r: nat, w: nat, n: nat)
    ensures Mul(Mul(r, w), n) == Mul(r, Mul(w, n))
    decreases r
  {
    if r > 0 {
      MulPlus(Mul(r - 1, w), w, n);
      MulAssoc(r - 1, w, n);
    }
  }

  /** (r * w + x) * n == r * (w * n) + x * n */
  lemma MulRegroup(r: nat, w: nat, x: nat, n: nat)
    ensures Mul(Mul(r, w) + x, n) == Mul(r, Mul(w, n)) + Mul(x, n)
  {
    MulPlus(Mul(r, w), x, n);
    MulAssoc(r, w, n);
  }

  // ---------------------------------------------------------------------
  // Sequences of rows
  // ---------------------------------------------------------------------

  function Join(bs: seq<seq<byte>>): seq<byte>
  {
    if bs == [] then [] else bs[0] + Join(bs[1..])
  }

  lemma {:induction false} JoinSnoc(bs: seq<seq<byte>>, k: nat)
    requires k < |bs|
    ensures Join(bs[..k + 1]) == Join(bs[..k]) + bs[k]
    decreases k
  {
    if k == 0 {
      assert bs[..1] == [bs[0]];
      assert [bs[0]][1..] == [];
    } else {
      assert bs[..k + 1][1..] == bs[1..][..k];
      assert bs[..k][1..] == bs[1..][..k - 1];
      JoinSnoc(bs[1..], k - 1);
    }
  }

  lemma {:induction false} JoinLength(bs: seq<seq<byte>>, L: nat)
    requires forall i :: 0 <= i < |bs| ==> |bs[i]| == L
    ensures |Join(bs)| == Mul(|bs|, L)
    decreases |bs|
  {
    if bs != [] {
      JoinLength(bs[1..], L);
    }
  }

  /** Blocks of one length L: byte j of block r is byte r * L + j of the join. */
  lemma {:induction false} JoinAt(bs: seq<seq<byte>>, L: nat, r: nat, j: nat)
    requires forall i :: 0 <= i < |bs| ==> |bs[i]| == L
    requires r < |bs| && j < L
    ensures Mul(r, L) + j < |Join(bs)| && Join(bs)[Mul(r, L) + j] == bs[r][j]
    decreases r
  {
    JoinLength(bs, L);
    MulWithin(r, |bs|, L, j);
    if r > 0 {
      JoinAt(bs[1..], L, r - 1, j);
      assert bs[1..][r - 1] == bs[r];
      assert Mul(r, L) + j == L + (Mul(r - 1, L) + j);
    }
  }

  function Widen(bs: seq<byte>): (r: seq<int>)
    ensures |r| == |bs|
  {
    if bs == [] then [] else [bs[0] as int] + Widen(bs[1..])
  }

  lemma {:induction false} WidenAt(bs: seq<byte>, k: nat)
    requires k < |bs|
    ensures Widen(bs)[k] == bs[k] as int
    decreases k
  {
    if k > 0 {
      WidenAt(bs[1..], k - 1);
    }
  }

  lemma {:induction false} WidenConcat(a: seq<byte>, b: seq<byte>)
    ensures Widen(a + b) == Widen(a) + Widen(b)
    decreases |a|
  {
    if a == [] {
      assert a + b == b;
    } else {
      assert (a + b)[1..] == a[1..] + b;
      WidenConcat(a[1..], b);
    }
  }

  // ---------------------------------------------------------------------
  // What the writers emit
  // ---------------------------------------------------------------------

  /** "P<magic>\n<w> <h>\n255\n" */
  function Header(magic: byte, w: nat, h: nat): seq<byte>
  {
    [LETTER_P, magic, NEWLINE] + Decimal(w) + [SPACE] + Decimal(h) + [NEWLINE] + Decimal(MAX_VALUE) + [NEWLINE]
  }

  /** The header is "P", the magic number, then the width, height and maximum value as numerals. */
  lemma HeaderReads(magic: byte, w: nat, h: nat)
    ensures Header(magic, w, h)[..2] == [LETTER_P, magic]
    ensures ParseCells(Header(magic, w, h)[2..]) == [w, h, MAX_VALUE]
  {
    var last := Decimal(MAX_VALUE) + [NEWLINE] + [];
    var mid := Decimal(h) + [NEWLINE] + last;
    var body := Decimal(w) + [SPACE] + mid;
    assert Header(magic, w, h) == [LETTER_P, magic] + ([NEWLINE] + body);
    NumbersRead(w, h, mid, last, body);
  }

  lemma NumbersRead(w: nat, h: nat, mid: seq<byte>, last: seq<byte>, body: seq<byte>)
    requires last == Decimal(MAX_VALUE) + [NEWLINE] + []
    requires mid == Decimal(h) + [NEWLINE] + last
    requires body == Decimal(w) + [SPACE] + mid
    ensures ParseCells([NEWLINE] + body) == [w, h, MAX_VALUE]
  {
    assert ([NEWLINE] + body)[1..] == body;
    DecimalReadsBefore(w, SPACE, mid);
    DecimalReadsBefore(h, NEWLINE, last);
    DecimalReadsBefore(MAX_VALUE, NEWLINE, []);
  }

  /** Bytes per pixel in the buffer: 4 (RGBA) for colour, 1 for grey. */
  function Stride(colour: bool): nat
  {
    if colour then 4 else 1
  }

  /**
   * Samples written per pixel: red, green and blue (offsets 0, 1, 2 of the
   * four) for colour; the grey value otherwise.
   */
  function Samples(colour: bool): nat
  {
    if colour then 3 else 1
  }

  /** The buffer holds w * h pixels. */
  predicate Fits(buf: seq<byte>, colour: bool, w: nat, h: nat)
  {
    Mul(Mul(h, w), Stride(colour)) <= |buf|
  }

  /** Buffer row y lies inside the buffer. */
  predicate RowInside(buf: seq<byte>, colour: bool, w: nat, y: nat)
  {
    Mul(Mul(y, w) + w, Stride(colour)) <= |buf|
  }

  /** Row y < h of a w * h buffer lies inside it. */
  lemma RowFits(buf: seq<byte>, colour: bool, w: nat, h: nat, y: nat)
    requires Fits(buf, colour, w, h) && y < h
    ensures RowInside(buf, colour, w, y)
  {
    MulMono(y + 1, h, w);
    MulMono(Mul(y + 1, w), Mul(h, w), Stride(colour));
  }

  /** The samples written for pixel x of row y: its first Samples bytes. */
  function PixelSamples(buf: seq<byte>, colour: bool, w: nat, y: nat, x: nat): (r: seq<byte>)
    requires RowInside(buf, colour, w, y) && x < w
    ensures |r| == Samples(colour)
  {
    MulMono(Mul(y, w) + x + 1, Mul(y, w) + w, Stride(colour));
    seq(Samples(colour), c requires 0 <= c < Samples(colour) => buf[Mul(Mul(y, w) + x, Stride(colour)) + c])
  }

  /** The pixels of buffer row y, left to right. */
  function PixelRow(buf: seq<byte>, colour: bool, w: nat, y: nat): (r: seq<seq<byte>>)
    requires RowInside(buf, colour, w, y)
    ensures |r| == w && forall x :: 0 <= x < w ==> |r[x]| == Samples(colour)
  {
    seq(w, x requires 0 <= x < w => PixelSamples(buf, colour, w, y, x))
  }

  /** The samples of buffer row y, left to right. */
  function RowSamples(buf: seq<byte>, colour: bool, w: nat, y: nat): (r: seq<byte>)
    requires RowInside(buf, colour, w, y)
    ensures |r| == Mul(w, Samples(colour))
  {
    JoinLength(PixelRow(buf, colour, w, y), Samples(colour));
    Join(PixelRow(buf, colour, w, y))
  }

  /** Sample c of pixel x of row y lands at x * Samples + c of the row. */
  lemma RowSampleAt(buf: seq<byte>, colour: bool, w: nat, y: nat, x: nat, c: nat)
    requires RowInside(buf, colour, w, y) && x < w && c < Samples(colour)
    ensures Mul(x, Samples(colour)) + c < |RowSamples(buf, colour, w, y)|
    ensures Mul(Mul(y, w) + x, Stride(colour)) + c < |buf|
    ensures RowSamples(buf, colour, w, y)[Mul(x, Samples(colour)) + c]
      == buf[Mul(Mul(y, w) + x, Stride(colour)) + c]
  {
    var pixels := PixelRow(buf, colour, w, y);
    MulMono(Mul(y, w) + x + 1, Mul(y, w) + w, Stride(colour));
    assert pixels[x] == PixelSamples(buf, colour, w, y, x);
    JoinAt(pixels, Samples(colour), x, c);
  }

  /** One line of an ASCII body: every value as "%d ", then a newline. */
  function AsciiCells(vs: seq<byte>): seq<byte>
  {
    if vs == [] then [] else Decimal(vs[0] as nat) + [SPACE] + AsciiCells(vs[1..])
  }

  lemma {:induction false} AsciiCellsSnoc(vs: seq<byte>, k: nat)
    requires k < |vs|
    ensures AsciiCells(vs[..k + 1]) == AsciiCells(vs[..k]) + Decimal(vs[k] as nat) + [SPACE]
    decreases k
  {
    if k == 0 {
      assert vs[..1] == [vs[0]];
      assert [vs[0]][1..] == [];
    } else {
      assert vs[..k + 1][1..] == vs[1..][..k];
      assert vs[..k][1..] == vs[1..][..k - 1];
      AsciiCellsSnoc(vs[1..], k - 1);
    }
  }

  lemma {:induction false} AsciiCellsRead(vs: seq<byte>, rest: seq<byte>)
    ensures ParseCells(AsciiCells(vs) + rest) == Widen(vs) + ParseCells(rest)
    decreases |vs|
  {
    if vs == [] {
      assert AsciiCells(vs) + rest == rest;
    } else {
      var tail := AsciiCells(vs[1..]) + rest;
      assert AsciiCells(vs) + rest == Decimal(vs[0] as nat) + [SPACE] + tail;
      DecimalReads(vs[0] as nat, tail);
      AsciiCellsRead(vs[1..], rest);
      assert Widen(vs) == [vs[0] as int] + Widen(vs[1..]);
    }
  }

  /** The bytes emitted for buffer row y. */
  function RowBytes(buf: seq<byte>, colour: bool, raw: bool, w: nat, h: nat, y: nat): seq<byte>
    requires Fits(buf, colour, w, h) && y < h
  {
    RowFits(buf, colour, w, h, y);
    if raw then RowSamples(buf, colour, w, y) else AsciiCells(RowSamples(buf, colour, w, y)) + [NEWLINE]
  }

  /** Line r of the file body is buffer row h - 1 - r. */
  function Lines(buf: seq<byte>, colour: bool, raw: bool, w: nat, h: nat): (r: seq<seq<byte>>)
    requires Fits(buf, colour, w, h)
    ensures |r| == h
  {
    seq(h, r requires 0 <= r < h => RowBytes(buf, colour, raw, w, h, h - 1 - r))
  }

  /** The line that holds buffer row y. */
  lemma LineAt(buf: seq<byte>, colour: bool, raw: bool, w: nat, h: nat, y: nat)
    requires Fits(buf, colour, w, h) && y < h
    ensures RowInside(buf, colour, w, y)
    ensures raw ==> Lines(buf, colour, raw, w, h)[h - 1 - y] == RowSamples(buf, colour, w, y)
    ensures !raw ==> Lines(buf, colour, raw, w, h)[h - 1 - y] == AsciiCells(RowSamples(buf, colour, w, y)) + [NEWLINE]
  {
    RowFits(buf, colour, w, h, y);
    var r := h - 1 - y;
    assert h - 1 - r == y;
    assert Lines(buf, colour, raw, w, h)[r] == RowBytes(buf, colour, raw, w, h, y);
  }

  /** Every binary line holds w pixels' samples. */
  lemma RawLineLengths(buf: seq<byte>, colour: bool, w: nat, h: nat)
    requires Fits(buf, colour, w, h)
    ensures forall r :: 0 <= r < h ==> |Lines(buf, colour, true, w, h)[r]| == Mul(w, Samples(colour))
  {
    forall r | 0 <= r < h
      ensures |Lines(buf, colour, true, w, h)[r]| == Mul(w, Samples(colour))
    {
      LineAt(buf, colour, true, w, h, h - 1 - r);
    }
  }

  function Magic(colour: bool, raw: bool): byte
  {
    if colour then (if raw then MAGIC_PPM_RAW else MAGIC_PPM_ASCII)
    else (if raw then MAGIC_PGM_RAW else MAGIC_PGM_ASCII)
  }

  /** The whole file writePGM (grey) or writePPM (colour) writes. */
  function FileBytes(buf: seq<byte>, colour: bool, raw: bool, w: nat, h: nat): seq<byte>
    requires Fits(buf, colour, w, h)
  {
    Header(Magic(colour, raw), w, h) + Join(Lines(buf, colour, raw, w, h))
  }

  /** The product form of the size requirement. */
  lemma FitsIff(buf: seq<byte>, colour: bool, w: nat, h: nat)
    ensures Fits(buf, colour, w, h) <==> w * h * Stride(colour) <= |buf|
  {
    MulIsProduct(h, w);
    MulIsProduct(h * w, Stride(colour));
    assert w * h == h * w;
  }

  // ---------------------------------------------------------------------
  // What the files mean
  // ---------------------------------------------------------------------

  /**
   * The binary body holds Samples * w * h bytes, and sample c of pixel
   * (x, y) of the buffer is at ((h - 1 - y) * w + x) * Samples + c: rows
   * flipped, pixels in order, the RGBA buffer narrowed to RGB.
   */
  lemma RawPayload(buf: seq<byte>, colour: bool, w: nat, h: nat, x: nat, y: nat, c: nat)
    requires Fits(buf, colour, w, h) && x < w && y < h && c < Samples(colour)
    ensures |Join(Lines(buf, colour, true, w, h))| == Mul(h, Mul(w, Samples(colour)))
    ensures Mul(Mul(y, w) + x, Stride(colour)) + c < |buf|
    ensures Mul(Mul(h - 1 - y, w) + x, Samples(colour)) + c < |Join(Lines(buf, colour, true, w, h))|
    ensures Join(Lines(buf, colour, true, w, h))[Mul(Mul(h - 1 - y, w) + x, Samples(colour)) + c]
        == buf[Mul(Mul(y, w) + x, Stride(colour)) + c]
  {
    var lines := Lines(buf, colour, true, w, h);
    var n := Samples(colour);
    var r := h - 1 - y;
    LineAt(buf, colour, true, w, h, y);
    RawLineLengths(buf, colour, w, h);
    JoinLength(lines, Mul(w, n));
    RowSampleAt(buf, colour, w, y, x, c);
    MulWithin(x, w, n, c);
    JoinAt(lines, Mul(w, n), r, Mul(x, n) + c);
    MulRegroup(r, w, x, n);
  }

  /** Every index the writers read lies inside the w * h pixel buffer. */
  lemma ReadsInside(colour: bool, w: nat, h: nat, x: nat, y: nat, c: nat)
    requires x < w && y < h && c < Samples(colour)
    ensures Mul(Mul(y, w) + x, Stride(colour)) + c < Mul(Mul(h, w), Stride(colour))
  {
    MulWithin(y, h, w, x);
    MulWithin(Mul(y, w) + x, Mul(h, w), Stride(colour), c);
  }

  lemma {:induction false} MulOne(a: nat)
    ensures Mul(a, 1) == a
    decreases a
  {
    if a > 0 {
      MulOne(a - 1);
    }
  }

  lemma {:induction false} AsciiLinesRead(buf: seq<byte>, colour: bool, w: nat, h: nat, k: nat)
    requires Fits(buf, colour, w, h) && k <= h
    ensures ParseCells(Join(Lines(buf, colour, false, w, h)[k..]))
      == Widen(Join(Lines(buf, colour, true, w, h)[k..]))
    decreases h - k
  {
    var ascii := Lines(buf, colour, false, w, h)[k..];
    var raw := Lines(buf, colour, true, w, h)[k..];
    if k == h {
      assert ascii == [] && raw == [];
    } else {
      var y := h - 1 - k;
      LineAt(buf, colour, false, w, h, y);
      LineAt(buf, colour, true, w, h, y);
      var row := RowSamples(buf, colour, w, y);
      assert ascii[0] == AsciiCells(row) + [NEWLINE];
      assert raw[0] == row;
      assert ascii[1..] == Lines(buf, colour, false, w, h)[k + 1..];
      assert raw[1..] == Lines(buf, colour, true, w, h)[k + 1..];
      var rest := Join(ascii[1..]);
      assert Join(ascii) == AsciiCells(row) + ([NEWLINE] + rest);
      AsciiCellsRead(row, [NEWLINE] + rest);
      assert ([NEWLINE] + rest)[1..] == rest;
      AsciiLinesRead(buf, colour, w, h, k + 1);
      WidenConcat(row, Join(raw[1..]));
    }
  }

  /**
   * An ASCII body reads back, number by number, as exactly the binary
   * body's samples: the two variants of each writer carry the same image.
   */
  lemma AsciiMatchesRaw(buf: seq<byte>, colour: bool, w: nat, h: nat)
    requires Fits(buf, colour, w, h)
    ensures ParseCells(Join(Lines(buf, colour, false, w, h))) == Widen(Join(Lines(buf, colour, true, w, h)))
  {
    AsciiLinesRead(buf, colour, w, h, 0);
    assert Lines(buf, colour, false, w, h)[0..] == Lines(buf, colour, false, w, h);
    assert Lines(buf, colour, true, w, h)[0..] == Lines(buf, colour, true, w, h);
  }

  /** The ASCII grey body reads back as the pixels, rows flipped. */
  lemma PgmAsciiReads(buf: seq<byte>, w: nat, h: nat, x: nat, y: nat)
    requires Fits(buf, false, w, h) && x < w && y < h
    ensures |ParseCells(Join(Lines(buf, false, false, w, h)))| == Mul(h, w)
    ensures Mul(y, w) + x < |buf|
    ensures Mul(h - 1 - y, w) + x < |ParseCells(Join(Lines(buf, false, false, w, h)))|
    ensures ParseCells(Join(Lines(buf, false, false, w, h)))[Mul(h - 1 - y, w) + x] == buf[Mul(y, w) + x] as int
  {
    RawPayload(buf, false, w, h, x, y, 0);
    MulOne(w);
    MulOne(Mul(y, w) + x);
    MulOne(Mul(h - 1 - y, w) + x);
    AsciiMatchesRaw(buf, false, w, h);
    WidenAt(Join(Lines(buf, false, true, w, h)), Mul(h - 1 - y, w) + x);
  }

  // ---------------------------------------------------------------------
  // The writers
  // ---------------------------------------------------------------------

  /**
   * writePGM: nothing when the file cannot be opened (a warning goes to
   * the console); otherwise the header, then the rows from the top down,
   * each as one block of w bytes or as "%d " per pixel and a newline.
   */
  method WritePgm(canOpen: bool, buf: array<byte>, w: nat, h: nat, raw: bool) returns (out: seq<byte>)
    requires Fits(buf[..], false, w, h)
    ensures canOpen ==> out == FileBytes(buf[..], false, raw, w, h)
    ensures !canOpen ==> out == []
  {
    if !canOpen {
      return [];
    }
    ghost var b := buf[..];
    ghost var lines := Lines(b, false, raw, w, h);
    out := Header(Magic(false, raw), w, h);
    ghost var header := out;
    for y := h downto 0
      invariant out == header + Join(lines[..h - y])
    {
      ghost var k := h - 1 - y;
      LineAt(b, false, raw, w, h, y);
      var row := PgmRow(buf, w, y, raw);
      assert row == lines[k];
      JoinSnoc(lines, k);
      out := out + row;
    }
    assert lines[..h] == lines;
  }

  /** One row of writePGM: a block of w bytes, or "%d " per pixel and a newline. */
  method PgmRow(buf: array<byte>, w: nat, y: nat, raw: bool) returns (row: seq<byte>)
    requires RowInside(buf[..], false, w, y)
    ensures raw ==> row == RowSamples(buf[..], false, w, y)
    ensures !raw ==> row == AsciiCells(RowSamples(buf[..], false, w, y)) + [NEWLINE]
  {
    if raw {
      row := PgmRawRow(buf, w, y);
    } else {
      row := PgmAsciiRow(buf, w, y);
    }
  }

  /** Pixel x of row y of a grey buffer is byte x + y * w. */
  lemma GreyIndex(buf: seq<byte>, w: nat, y: nat, x: nat)
    requires RowInside(buf, false, w, y) && x < w
    ensures y * w + w <= |buf| && x + y * w < |buf| && x < |RowSamples(buf, false, w, y)|
    ensures RowSamples(buf, false, w, y)[x] == buf[x + y * w]
  {
    RowSampleAt(buf, false, w, y, x, 0);
    MulIsProduct(x, 1);
    MulIsProduct(y, w);
    MulIsProduct(y * w + x, 1);
    MulIsProduct(y * w + w, 1);
  }

  /** The fwrite of one row in binary writePGM: the row's w bytes as a block. */
  method PgmRawRow(buf: array<byte>, w: nat, y: nat) returns (row: seq<byte>)
    requires RowInside(buf[..], false, w, y)
    ensures row == RowSamples(buf[..], false, w, y)
  {
    MulIsProduct(w, 1);
    if w > 0 {
      GreyIndex(buf[..], w, y, 0);
    } else {
      MulIsProduct(y, w);
      MulIsProduct(y * w, 1);
    }
    row := buf[y * w .. y * w + w];
    forall x | 0 <= x < w ensures row[x] == RowSamples(buf[..], false, w, y)[x] {
      GreyIndex(buf[..], w, y, x);
    }
  }

  /** The ASCII row loop of writePGM. */
  method PgmAsciiRow(buf: array<byte>, w: nat, y: nat) returns (row: seq<byte>)
    requires RowInside(buf[..], false, w, y)
    ensures row == AsciiCells(RowSamples(buf[..], false, w, y)) + [NEWLINE]
  {
    ghost var samples := RowSamples(buf[..], false, w, y);
    MulIsProduct(w, 1);
    row := [];
    for x := 0 to w
      invariant row == AsciiCells(samples[..x])
    {
      GreyIndex(buf[..], w, y, x);
      AsciiCellsSnoc(samples, x);
      row := row + Decimal(buf[x + y * w] as nat) + [SPACE];
    }
    assert samples[..w] == samples;
    row := row + [NEWLINE];
  }

  /**
   * writePPM: nothing when the file cannot be opened; otherwise the
   * header, then the rows from the top down, each pixel as its red, green
   * and blue bytes (offsets 0, 1, 2 of its four), raw or as "%d %d %d ",
   * the ASCII rows ending in a newline.
   */
  method WritePpm(canOpen: bool, buf: array<byte>, w: nat, h: nat, raw: bool) returns (out: seq<byte>)
    requires Fits(buf[..], true, w, h)
    ensures canOpen ==> out == FileBytes(buf[..], true, raw, w, h)
    ensures !canOpen ==> out == []
  {
    if !canOpen {
      return [];
    }
    ghost var b := buf[..];
    ghost var lines := Lines(b, true, raw, w, h);
    out := Header(Magic(true, raw), w, h);
    ghost var header := out;
    for y := h downto 0
      invariant out == header + Join(lines[..h - y])
    {
      ghost var k := h - 1 - y;
      LineAt(b, true, raw, w, h, y);
      var row := PpmRow(buf, w, y, raw);
      assert row == lines[k];
      JoinSnoc(lines, k);
      out := out + row;
    }
    assert lines[..h] == lines;
  }

  /** Pixel x of row y of a colour buffer starts at byte 4 * (x + y * w). */
  lemma ColourIndex(buf: seq<byte>, w: nat, y: nat, x: nat)
    requires RowInside(buf, true, w, y) && x < w
    ensures 4 * (x + y * w) + 3 < |buf|
    ensures PixelRow(buf, true, w, y)[x] == [buf[4 * (x + y * w)], buf[4 * (x + y * w) + 1], buf[4 * (x + y * w) + 2]]
  {
    MulMono(Mul(y, w) + x + 1, Mul(y, w) + w, 4);
    MulIsProduct(y, w);
    MulIsProduct(y * w + x, 4);
    MulIsProduct(y * w + x + 1, 4);
    var p := PixelRow(buf, true, w, y)[x];
    assert p == PixelSamples(buf, true, w, y, x);
  }

  /** The pixel loop of writePPM for one row. */
  method PpmRow(buf: array<byte>, w: nat, y: nat, raw: bool) returns (row: seq<byte>)
    requires RowInside(buf[..], true, w, y)
    ensures raw ==> row == RowSamples(buf[..], true, w, y)
    ensures !raw ==> row == AsciiCells(RowSamples(buf[..], true, w, y)) + [NEWLINE]
  {
    ghost var pixels := PixelRow(buf[..], true, w, y);
    row := [];
    for x := 0 to w
      invariant raw ==> row == Join(pixels[..x])
      invariant !raw ==> row == AsciiCells(Join(pixels[..x]))
    {
      ColourIndex(buf[..], w, y, x);
      var i := 4 * (x + y * w);
      var red, green, blue := buf[i], buf[i + 1], buf[i + 2];
      JoinSnoc(pixels, x);
      if raw {
        row := row + [red, green, blue];
      } else {
        AsciiTriple(Join(pixels[..x]), red, green, blue);
        row := row + Decimal(red as nat) + [SPACE] + Decimal(green as nat) + [SPACE]
                   + Decimal(blue as nat) + [SPACE];
      }
    }
    assert pixels[..w] == pixels;
    if !raw {
      row := row + [NEWLINE];
    }
  }

  /** Appending one pixel's three samples appends one "%d %d %d ". */
  lemma AsciiTriple(vs: seq<byte>, red: byte, green: byte, blue: byte)
    ensures AsciiCells(vs + [red, green, blue])
      == AsciiCells(vs) + Decimal(red as nat) + [SPACE] + Decimal(green as nat) + [SPACE]
         + Decimal(blue as nat) + [SPACE]
  {
    var s := vs + [red, green, blue];
    assert s[..|vs| + 1] == vs + [red];
    assert s[..|vs| + 2] == vs + [red, green];
    assert s[..|vs|] == vs && s[..|vs| + 3] == s;
    AsciiCellsSnoc(s, |vs|);
    AsciiCellsSnoc(s, |vs| + 1);
    AsciiCellsSnoc(s, |vs| + 2);
  }

  // ---------------------------------------------------------------------
  // The starter copy of the ASCII grey writer
  // ---------------------------------------------------------------------

  /** One ASCII line of the starter's grey writer: each pixel's address, then a newline. */
  function StarterLine(addressText: nat -> seq<byte>, base: nat, w: nat, y: nat): seq<byte>
  {
    Join(seq(w, x requires 0 <= x < w => addressText(base + y * w + x) + [SPACE])) + [NEWLINE]
  }

  /**
   * The starter copy of writePGM in ASCII mode prints each pixel's address
   * ("%p") where image.cpp prints its value.  How an address is printed is
   * up to the C library, so it is a parameter; `base` is the buffer's
   * address.
   */
  function StarterPgmAscii(addressText: nat -> seq<byte>, base: nat, buf: seq<byte>, w: nat, h: nat): seq<byte>
    requires Fits(buf, false, w, h)
  {
    Header(MAGIC_PGM_ASCII, w, h) + Join(seq(h, r requires 0 <= r < h => StarterLine(addressText, base, w, h - 1 - r)))
  }

  /**
   * The starter's ASCII grey file cannot tell a black pixel from a white
   * one, while the ASCII grey body of image.cpp reads back as 0 for the one
   * and 255 for the other.
   */
  lemma StarterPgmIgnoresPixels(addressText: nat -> seq<byte>, base: nat)
    ensures Fits([0], false, 1, 1) && Fits([255], false, 1, 1)
    ensures StarterPgmAscii(addressText, base, [0], 1, 1) == StarterPgmAscii(addressText, base, [255], 1, 1)
    ensures ParseCells(Join(Lines([0], false, false, 1, 1))) == [0]
    ensures ParseCells(Join(Lines([255], false, false, 1, 1))) == [255]
  {
    PgmAsciiReads([0], 1, 1, 0, 0);
    PgmAsciiReads([255], 1, 1, 0, 0);
  }

  // ---------------------------------------------------------------------
  // writeFrame's buffer cache
  // ---------------------------------------------------------------------

  class FrameWriter {
    /** The static frameData buffer, null until the first frame. */
    var frameData: array?<byte>
    /** The static currentSize, -1 until the first frame. */
    var currentSize: int

    ghost predicate Valid()
      reads this
    {
      frameData == null || frameData.Length == currentSize
    }

    constructor()
      ensures Valid() && frameData == null && currentSize == -1
    {
      frameData := null;
      currentSize := -1;
    }

    /**
     * writeFrame: reuse the buffer when it exists and has the size this
     * frame needs (one byte per pixel for PGM, four for PPM), otherwise
     * allocate a fresh one; read the window's pixels into it and write the
     * binary file.  `pixels` stands for what glReadPixels returns.
     */
    method WriteFrame(canOpen: bool, pgm: bool, winWidth: nat, winHeight: nat, pixels: seq<byte>)
      returns (out: seq<byte>, reallocated: bool)
      requires Valid() && |pixels| == winWidth * winHeight * Stride(!pgm)
      modifies this, frameData
      ensures Valid() && frameData != null && Fits(pixels, !pgm, winWidth, winHeight)
      ensures reallocated <==> old(frameData) == null || old(currentSize) != winWidth * winHeight * Stride(!pgm)
      ensures reallocated ==> fresh(frameData)
      ensures !reallocated ==> frameData == old(frameData)
      ensures currentSize == winWidth * winHeight * Stride(!pgm) && frameData[..] == pixels
      ensures canOpen ==> out == FileBytes(pixels, !pgm, true, winWidth, winHeight)
      ensures !canOpen ==> out == []
    {
      var size := if pgm then 1 else 4;
      reallocated := frameData == null || currentSize != winWidth * winHeight * size;
      if reallocated {
        currentSize := winWidth * winHeight * size;
        frameData := new byte[currentSize];
      }
      var data := frameData;
      forall i | 0 <= i < data.Length {
        data[i] := pixels[i];
      }
      assert data[..] == pixels;
      FitsIff(pixels, !pgm, winWidth, winHeight);
      if pgm {
        out := WritePgm(canOpen, data, winWidth, winHeight, true);
      } else {
        out := WritePpm(canOpen, data, winWidth, winHeight, true);
      }
    }
  }
}
