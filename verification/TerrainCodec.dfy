/**
 The ABT2 terrain tile codec of tools/analyze_terrain_compression.py: a 16-bit raster stored
 as the residuals of a two-dimensional gradient predictor, all arithmetic wrapping.
 */
module TerrainCodec {
  import opened Wrappers

  type Byte = b: int | 0 <= b < 256

  const HEADER_BYTES := 20
  const U16 := 0x1_0000
  const U32 := 0x1_0000_0000

  datatype TileError = NotAbt2 | BadLength | EmptyRows

  /** A raster as rows of numbers; numpy's two-dimensional array. */
  type Raster = seq<seq<int>>

  ghost predicate Rectangular(g: Raster, width: nat, height: nat) {
    |g| == height && forall y | 0 <= y < height :: |g[y]| == width
  }

  ghost predicate InRange(g: Raster, lo: int, hi: int) {
    forall y, x | 0 <= y < |g| && 0 <= x < |g[y]| :: lo <= g[y][x] < hi
  }

  // ----- Bytes -----

  /** Little-endian 16-bit words of one row. */
  function RowOf(payload: seq<Byte>): (row: seq<int>)
    requires |payload| % 2 == 0
    ensures |row| == |payload| / 2
    ensures forall x | 0 <= x < |row| :: 0 <= row[x] < U16
  {
    if payload == [] then [] else [payload[0] + 256 * payload[1]] + RowOf(payload[2..])
  }

  function RasterOf(payload: seq<Byte>, width: nat, height: nat): (g: Raster)
    requires |payload| == height * width * 2
    ensures Rectangular(g, width, height) && InRange(g, 0, U16)
    decreases height
  {
    if height == 0 then [] else
      assert height * width * 2 == width * 2 + (height - 1) * width * 2;
      [RowOf(payload[..width * 2])] + RasterOf(payload[width * 2..], width, height - 1)
  }

  lemma {:induction false} RowWord(payload: seq<Byte>, x: nat)
    requires |payload| % 2 == 0 && x < |payload| / 2
    ensures var low: int, high: int := payload[2 * x], payload[2 * x + 1]; RowOf(payload)[x] == low + 256 * high
  {
    if x > 0 { RowWord(payload[2..], x - 1); }
  }

  lemma OneRowLess(width: nat, height: nat)
    requires height > 0
    ensures height * width * 2 == width * 2 + (height - 1) * width * 2 && (height - 1) * width * 2 >= 0
  {}

  lemma SliceOfRest(payload: seq<Byte>, size: nat, from: nat)
    requires size <= from && from + size <= |payload|
    ensures payload[size..][from - size..from] == payload[from..from + size]
  {}

  lemma {:induction false} RasterRow(payload: seq<Byte>, width: nat, height: nat, y: nat, from: nat)
    requires |payload| == height * width * 2 && y < height && from == y * width * 2
    ensures from + width * 2 <= |payload|
    ensures RasterOf(payload, width, height)[y] == RowOf(payload[from..from + width * 2])
    decreases height
  {
    OneRowLess(width, height);
    var size := width * 2;
    if y == 0 {
      assert from == 0 && payload[from..from + size] == payload[..size];
    } else {
      OneRowLess(width, y);
      var rest := payload[size..];
      RasterRow(rest, width, height - 1, y - 1, from - size);
      SliceOfRest(payload, size, from);
      assert RasterOf(payload, width, height)[y] == RasterOf(rest, width, height - 1)[y - 1];
    }
  }

  /** Rows follow each other, and each word has its low byte first. */
  lemma RasterWord(payload: seq<Byte>, width: nat, height: nat, y: nat, x: nat, from: nat)
    requires |payload| == height * width * 2 && y < height && x < width && from == y * width * 2
    ensures from + 2 * x + 1 < |payload|
    ensures var low: int, high: int := payload[from + 2 * x], payload[from + 2 * x + 1];
            RasterOf(payload, width, height)[y][x] == low + 256 * high
  {
    RasterRow(payload, width, height, y, from);
    RowWord(payload[from..from + width * 2], x);
  }

  function RowBytes(row: seq<int>): (payload: seq<Byte>)
    requires forall x | 0 <= x < |row| :: 0 <= row[x] < U16
    ensures |payload| == 2 * |row|
  {
    if row == [] then [] else [row[0] % 256, row[0] / 256] + RowBytes(row[1..])
  }

  function RasterBytes(g: Raster): (payload: seq<Byte>)
    requires InRange(g, 0, U16)
  {
    if g == [] then [] else
      assert InRange(g[1..], 0, U16) by { assert forall y | 0 <= y < |g[1..]| :: g[1..][y] == g[y + 1]; }
      assert forall x | 0 <= x < |g[0]| :: 0 <= g[0][x] < U16;
      RowBytes(g[0]) + RasterBytes(g[1..])
  }

  lemma {:induction false} RowBytesRoundTrip(payload: seq<Byte>)
    requires |payload| % 2 == 0
    ensures RowBytes(RowOf(payload)) == payload
  {
    if payload != [] {
      RowBytesRoundTrip(payload[2..]);
      assert RowOf(payload)[1..] == RowOf(payload[2..]);
      assert payload == [payload[0], payload[1]] + payload[2..];
    }
  }

  lemma {:induction false} RasterBytesRoundTrip(payload: seq<Byte>, width: nat, height: nat)
    requires |payload| == height * width * 2
    ensures RasterBytes(RasterOf(payload, width, height)) == payload
    decreases height
  {
    if height != 0 {
      assert height * width * 2 == width * 2 + (height - 1) * width * 2;
      RowBytesRoundTrip(payload[..width * 2]);
      RasterBytesRoundTrip(payload[width * 2..], width, height - 1);
      assert RasterOf(payload, width, height)[1..] == RasterOf(payload[width * 2..], width, height - 1);
    }
  }

  // ----- Signed view -----

  /** numpy's `.view("<i2")` of one unsigned word. */
  function Signed(u: int): (s: int)
    requires 0 <= u < U16
    ensures -0x8000 <= s < 0x8000 && s % U16 == u
  {
    if u < 0x8000 then u else u - U16
  }

  /** numpy's `.view("<u2")`: the inverse view. */
  function Unsigned(s: int): (u: int)
    requires -0x8000 <= s < 0x8000
    ensures 0 <= u < U16 && Signed(u) == s
  {
    s % U16
  }

  // ----- Decoder: two cumulative sums in 32-bit arithmetic, truncated to 16 bits -----

  /** `cumsum(axis=0, dtype=uint32)` at (y, x). */
  function ColumnSum(g: Raster, width: nat, y: nat, x: nat): (s: int)
    requires Rectangular(g, width, |g|) && y < |g| && x < width
    ensures 0 <= s < U32
  {
    if y == 0 then g[0][x] % U32 else (ColumnSum(g, width, y - 1, x) + g[y][x]) % U32
  }

  /** The second `cumsum(axis=1, dtype=uint32)` at (y, x). */
  function GridSum(g: Raster, width: nat, y: nat, x: nat): (s: int)
    requires Rectangular(g, width, |g|) && y < |g| && x < width
    ensures 0 <= s < U32
    decreases x
  {
    if x == 0 then ColumnSum(g, width, y, 0)
    else (GridSum(g, width, y, x - 1) + ColumnSum(g, width, y, x)) % U32
  }

  function DecodeRaster(residual: Raster, width: nat): (samples: Raster)
    requires Rectangular(residual, width, |residual|)
    ensures Rectangular(samples, width, |residual|) && InRange(samples, -0x8000, 0x8000)
    ensures forall y, x | 0 <= y < |residual| && 0 <= x < width ::
              samples[y][x] % U16 == GridSum(residual, width, y, x) % U16
  {
    seq(|residual|, y requires 0 <= y < |residual| =>
      seq(width, x requires 0 <= x < width => Signed(GridSum(residual, width, y, x) % U16)))
  }

  function UnsignedRaster(samples: Raster, width: nat): (values: Raster)
    requires Rectangular(samples, width, |samples|) && InRange(samples, -0x8000, 0x8000)
    ensures Rectangular(values, width, |samples|) && InRange(values, 0, U16)
    ensures forall y, x | 0 <= y < |samples| && 0 <= x < width :: values[y][x] == samples[y][x] % U16
  {
    seq(|samples|, y requires 0 <= y < |samples| =>
      seq(width, x requires 0 <= x < width => Unsigned(samples[y][x])))
  }

  // ----- Encoder -----

  /** What a sample is predicted to be: left, above at the left edge, else left + above - diagonal. */
  function Prediction(v: Raster, width: nat, y: nat, x: nat): int
    requires Rectangular(v, width, |v|) && y < |v| && x < width
  {
    if y == 0 && x == 0 then 0
    else if y == 0 then v[0][x - 1]
    else if x == 0 then v[y - 1][0]
    else (v[y][x - 1] + v[y - 1][x] - v[y - 1][x - 1]) % U32 % U16
  }

  function Residual(v: Raster, width: nat, y: nat, x: nat): int
    requires Rectangular(v, width, |v|) && y < |v| && x < width
  {
    (v[y][x] - Prediction(v, width, y, x)) % U32 % U16
  }

  function EncodeRaster(v: Raster, width: nat): (residual: Raster)
    requires Rectangular(v, width, |v|)
    ensures Rectangular(residual, width, |v|) && InRange(residual, 0, U16)
    ensures forall y, x | 0 <= y < |v| && 0 <= x < width :: residual[y][x] == Residual(v, width, y, x)
  {
    seq(|v|, y requires 0 <= y < |v| =>
      seq(width, x requires 0 <= x < width => Residual(v, width, y, x)))
  }

  // ----- The two directions -----

  // Arithmetic modulo 2^16, stated once so that the raster proofs stay linear.

  ghost function Turns(k: int): int { 0x1_0000 * k }

  ghost predicate Congruent(a: int, b: int) { exists k :: a == b + Turns(k) }

  lemma Truncation(a: int)
    ensures Congruent(a % U32 % U16, a) && Congruent(a % U32, a) && Congruent(a % U16, a)
  {
    var r := a % U32;
    assert r == a + Turns(-(a / U32) * U16);
    assert r % U16 == r + Turns(-(r / U16));
    assert r % U16 == a + Turns(-(a / U32) * U16 - r / U16);
    assert a % U16 == a + Turns(-(a / U16));
  }

  lemma CongruentAdd(a: int, b: int, c: int, d: int)
    requires Congruent(a, b) && Congruent(c, d)
    ensures Congruent(a + c, b + d) && Congruent(a - c, b - d)
  {
    var k :| a == b + Turns(k);
    var l :| c == d + Turns(l);
    assert a + c == b + d + Turns(k + l);
    assert a - c == b - d + Turns(k - l);
  }

  lemma CongruentTrans(a: int, b: int, c: int)
    requires Congruent(a, b) && Congruent(b, c)
    ensures Congruent(a, c)
  {
    var k :| a == b + Turns(k);
    var l :| b == c + Turns(l);
    assert a == c + Turns(k + l);
  }

  lemma CongruentWords(a: int, b: int)
    requires Congruent(a, b) && 0 <= a < U16 && 0 <= b < U16
    ensures a == b
  {}

  lemma Reflexive(a: int)
    ensures Congruent(a, a)
  {
    assert a == a + Turns(0);
  }

  /** A cell, and 0 outside the top and left edges. */
  function Cell(v: Raster, width: nat, y: int, x: int): int
    requires Rectangular(v, width, |v|) && y < |v| && x < width
  {
    if y < 0 || x < 0 then 0 else v[y][x]
  }

  function SumAt(r: Raster, width: nat, y: int, x: int): int
    requires Rectangular(r, width, |r|) && y < |r| && x < width
  {
    if y < 0 || x < 0 then 0 else GridSum(r, width, y, x)
  }

  lemma ResidualCongruent(v: Raster, width: nat, y: nat, x: nat)
    requires Rectangular(v, width, |v|) && y < |v| && x < width
    ensures Congruent(Residual(v, width, y, x),
                      v[y][x] - Cell(v, width, y, x - 1) - (Cell(v, width, y - 1, x) - Cell(v, width, y - 1, x - 1)))
  {
    var p := Prediction(v, width, y, x);
    var exact := Cell(v, width, y, x - 1) + (Cell(v, width, y - 1, x) - Cell(v, width, y - 1, x - 1));
    assert Congruent(p, exact) by {
      if x > 0 && y > 0 { Truncation(v[y][x - 1] + v[y - 1][x] - v[y - 1][x - 1]); } else { Reflexive(p); }
    }
    Truncation(v[y][x] - p);
    Reflexive(v[y][x]);
    CongruentAdd(v[y][x], v[y][x], p, exact);
    CongruentTrans(Residual(v, width, y, x), v[y][x] - p, v[y][x] - exact);
  }

  lemma ExtendSum(sum: int, s: int, next: int, n: int)
    requires Congruent(sum, s) && Congruent(next, n)
    ensures Congruent((sum + next) % U32, s + n)
  {
    Truncation(sum + next);
    CongruentAdd(sum, s, next, n);
    CongruentTrans((sum + next) % U32, sum + next, s + n);
  }

  /** Column sums of the residuals are the horizontal differences of the samples, modulo 2^16. */
  lemma {:induction false} ColumnSumOfResiduals(v: Raster, width: nat, y: nat, x: nat)
    requires Rectangular(v, width, |v|) && y < |v| && x < width
    ensures Congruent(ColumnSum(EncodeRaster(v, width), width, y, x), v[y][x] - Cell(v, width, y, x - 1))
  {
    var r := EncodeRaster(v, width);
    ResidualCongruent(v, width, y, x);
    assert r[y][x] == Residual(v, width, y, x);
    if y == 0 {
      Truncation(r[0][x]);
      CongruentTrans(ColumnSum(r, width, 0, x), r[0][x], v[0][x] - Cell(v, width, 0, x - 1));
    } else {
      ColumnSumOfResiduals(v, width, y - 1, x);
      var above := v[y - 1][x] - Cell(v, width, y - 1, x - 1);
      ExtendSum(ColumnSum(r, width, y - 1, x), above, r[y][x], v[y][x] - Cell(v, width, y, x - 1) - above);
    }
  }

  lemma {:induction false} GridSumOfResiduals(v: Raster, width: nat, y: nat, x: nat)
    requires Rectangular(v, width, |v|) && y < |v| && x < width
    ensures Congruent(GridSum(EncodeRaster(v, width), width, y, x), v[y][x])
    decreases x
  {
    var r := EncodeRaster(v, width);
    ColumnSumOfResiduals(v, width, y, x);
    if x > 0 {
      GridSumOfResiduals(v, width, y, x - 1);
      ExtendSum(GridSum(r, width, y, x - 1), v[y][x - 1],
                ColumnSum(r, width, y, x), v[y][x] - v[y][x - 1]);
    }
  }

  /** Decoding the residuals of any signed 16-bit raster gives the raster back. */
  lemma DecodeEncode(samples: Raster, width: nat)
    requires Rectangular(samples, width, |samples|) && InRange(samples, -0x8000, 0x8000)
    ensures DecodeRaster(EncodeRaster(UnsignedRaster(samples, width), width), width) == samples
  {
    var v := UnsignedRaster(samples, width);
    var decoded := DecodeRaster(EncodeRaster(v, width), width);
    forall y | 0 <= y < |samples|
      ensures decoded[y] == samples[y]
    {
      forall x | 0 <= x < width
        ensures decoded[y][x] == samples[y][x]
      {
        GridSumOfResiduals(v, width, y, x);
        var sum := GridSum(EncodeRaster(v, width), width, y, x);
        Truncation(sum);
        CongruentTrans(sum % U16, sum, v[y][x]);
        CongruentWords(sum % U16, v[y][x]);
      }
    }
  }

  lemma RowDifference(r: Raster, width: nat, y: nat, x: nat)
    requires Rectangular(r, width, |r|) && y < |r| && x < width
    ensures Congruent(SumAt(r, width, y, x) - SumAt(r, width, y, x - 1), ColumnSum(r, width, y, x))
  {
    if x == 0 {
      Reflexive(ColumnSum(r, width, y, 0));
    } else {
      var g, c := GridSum(r, width, y, x - 1), ColumnSum(r, width, y, x);
      Truncation(g + c);
      Reflexive(g);
      CongruentAdd((g + c) % U32, g + c, g, g);
    }
  }

  /** A residual is congruent to the mixed second difference of the sums it takes part in. */
  lemma SecondDifference(r: Raster, width: nat, y: nat, x: nat)
    requires Rectangular(r, width, |r|) && y < |r| && x < width
    ensures Congruent(SumAt(r, width, y, x) - SumAt(r, width, y, x - 1)
                      - (SumAt(r, width, y - 1, x) - SumAt(r, width, y - 1, x - 1)), r[y][x])
  {
    RowDifference(r, width, y, x);
    var a := SumAt(r, width, y, x) - SumAt(r, width, y, x - 1);
    if y == 0 {
      Truncation(r[0][x]);
      CongruentTrans(a, ColumnSum(r, width, 0, x), r[0][x]);
    } else {
      RowDifference(r, width, y - 1, x);
      var b := SumAt(r, width, y - 1, x) - SumAt(r, width, y - 1, x - 1);
      LastTerm(a, b, ColumnSum(r, width, y, x), ColumnSum(r, width, y - 1, x), r[y][x]);
    }
  }

  lemma LastTerm(a: int, b: int, c: int, d: int, r: int)
    requires Congruent(a, c) && Congruent(b, d) && c == (d + r) % U32
    ensures Congruent(a - b, r)
  {
    CongruentAdd(a, c, b, d);
    Truncation(d + r);
    Reflexive(d);
    CongruentAdd(c, d + r, d, d);
    CongruentTrans(a - b, c - d, r);
  }

  lemma MixedCongruent(w: int, w': int, l: int, l': int, a: int, a': int, d: int, d': int, r: int, r': int)
    requires Congruent(w, w') && Congruent(l, l') && Congruent(a, a') && Congruent(d, d')
    requires Congruent(r, w - l - (a - d)) && Congruent(w' - l' - (a' - d'), r')
    requires 0 <= r < U16 && 0 <= r' < U16
    ensures r == r'
  {
    CongruentAdd(w, w', l, l');
    CongruentAdd(a, a', d, d');
    CongruentAdd(w - l, w' - l', a - d, a' - d');
    CongruentTrans(r, w - l - (a - d), w' - l' - (a' - d'));
    CongruentTrans(r, w' - l' - (a' - d'), r');
    CongruentWords(r, r');
  }

  /** Cells congruent to the sums of the residuals have exactly those residuals. */
  lemma ResidualOfSums(v: Raster, r: Raster, width: nat, y: nat, x: nat)
    requires Rectangular(v, width, |r|) && Rectangular(r, width, |r|) && y < |r| && x < width
    requires 0 <= r[y][x] < U16
    requires forall j, i | 0 <= j < |r| && 0 <= i < width :: Congruent(v[j][i], GridSum(r, width, j, i))
    ensures Residual(v, width, y, x) == r[y][x]
  {
    SecondDifference(r, width, y, x);
    ResidualCongruent(v, width, y, x);
    Reflexive(0);
    MixedCongruent(v[y][x], SumAt(r, width, y, x),
                   Cell(v, width, y, x - 1), SumAt(r, width, y, x - 1),
                   Cell(v, width, y - 1, x), SumAt(r, width, y - 1, x),
                   Cell(v, width, y - 1, x - 1), SumAt(r, width, y - 1, x - 1),
                   Residual(v, width, y, x), r[y][x]);
  }

  lemma DecodedCell(r: Raster, width: nat, y: nat, x: nat)
    requires Rectangular(r, width, |r|) && y < |r| && x < width
    ensures Congruent(UnsignedRaster(DecodeRaster(r, width), width)[y][x], GridSum(r, width, y, x))
  {
    Truncation(GridSum(r, width, y, x));
  }

  /** Re-encoding any decoded raster gives its residuals back. */
  lemma EncodeDecode(r: Raster, width: nat)
    requires Rectangular(r, width, |r|) && InRange(r, 0, U16)
    ensures EncodeRaster(UnsignedRaster(DecodeRaster(r, width), width), width) == r
  {
    var v := UnsignedRaster(DecodeRaster(r, width), width);
    forall y, x | 0 <= y < |r| && 0 <= x < width
      ensures Congruent(v[y][x], GridSum(r, width, y, x))
    {
      DecodedCell(r, width, y, x);
    }
    forall y | 0 <= y < |r|
      ensures EncodeRaster(v, width)[y] == r[y]
    {
      forall x | 0 <= x < width
        ensures EncodeRaster(v, width)[y][x] == r[y][x]
      {
        ResidualOfSums(v, r, width, y, x);
      }
    }
  }

  // ----- Whole tiles -----

  datatype Tile = Tile(header: seq<Byte>, width: nat, height: nat, samples: Raster)

  const MAGIC: seq<Byte> := [65, 66, 84, 50]

  function TileWidth(raw: seq<Byte>): nat
    requires |raw| >= HEADER_BYTES
  {
    raw[4] as int + 256 * raw[5] as int
  }

  function TileHeight(raw: seq<Byte>): nat
    requires |raw| >= HEADER_BYTES
  {
    raw[6] as int + 256 * raw[7] as int
  }

  function ParseAbt2(raw: seq<Byte>): (r: Result<Tile, TileError>)
    ensures r.Success? ==>
              Rectangular(r.value.samples, r.value.width, r.value.height)
              && InRange(r.value.samples, -0x8000, 0x8000)
  {
    if |raw| < HEADER_BYTES || raw[..4] != MAGIC then Failure(NotAbt2)
    else
      var width, height := TileWidth(raw), TileHeight(raw);
      if |raw| != HEADER_BYTES + width * height * 2 then Failure(BadLength)
      else
        assert width * height * 2 == height * width * 2;
        Success(Tile(raw[..HEADER_BYTES], width, height,
                     DecodeRaster(RasterOf(raw[HEADER_BYTES..], width, height), width)))
  }

  /** The in-place slice assignments that fill the prediction, then the residual expression. */
  method FillResiduals(values: Raster, width: nat) returns (residual: Raster)
    requires Rectangular(values, width, |values|) && width > 0
    ensures residual == EncodeRaster(values, width)
  {
    var height := |values|;
    var prediction := new int[height, width]((y, x) => 0);
    forall y, x | 0 <= y < height && 1 <= x < width {
      prediction[y, x] := values[y][x - 1];
    }
    forall y | 1 <= y < height {
      prediction[y, 0] := values[y - 1][0];
    }
    forall y, x | 1 <= y < height && 1 <= x < width {
      prediction[y, x] := (values[y][x - 1] + values[y - 1][x] - values[y - 1][x - 1]) % U32 % U16;
    }
    residual := [];
    for y := 0 to height
      invariant |residual| == y
      invariant forall j | 0 <= j < y :: residual[j] == EncodeRaster(values, width)[j]
    {
      var row := [];
      for x := 0 to width
        invariant |row| == x
        invariant forall i | 0 <= i < x :: row[i] == Residual(values, width, y, i)
      {
        row := row + [(values[y][x] - prediction[y, x]) % U32 % U16];
      }
      residual := residual + [row];
    }
  }

  lemma ReEncoded(payload: seq<Byte>, width: nat, height: nat)
    requires |payload| == height * width * 2
    ensures RasterBytes(EncodeRaster(UnsignedRaster(DecodeRaster(RasterOf(payload, width, height), width),
              width), width))
         == payload
  {
    EncodeDecode(RasterOf(payload, width, height), width);
    RasterBytesRoundTrip(payload, width, height);
  }

  /** Encoding what was parsed gives the tile's bytes back. */
  lemma TileRoundTrip(raw: seq<Byte>)
    requires ParseAbt2(raw).Success?
    ensures var tile := ParseAbt2(raw).value;
            && tile.width == TileWidth(raw)
            && tile.header + RasterBytes(EncodeRaster(UnsignedRaster(tile.samples, tile.width), tile.width)) == raw
  {
    var tile := ParseAbt2(raw).value;
    assert tile.width * tile.height * 2 == tile.height * tile.width * 2;
    ReEncoded(raw[HEADER_BYTES..], tile.width, tile.height);
    assert raw == raw[..HEADER_BYTES] + raw[HEADER_BYTES..];
  }

  lemma SampleCongruent(r: Raster, width: nat, y: int, x: int)
    requires Rectangular(r, width, |r|) && y < |r| && x < width
    ensures Congruent(Cell(DecodeRaster(r, width), width, y, x), SumAt(r, width, y, x))
  {
    if y < 0 || x < 0 {
      Reflexive(0);
    } else {
      var s, g := DecodeRaster(r, width)[y][x], GridSum(r, width, y, x);
      assert s == s % U16 + Turns(s / U16) && g == g % U16 + Turns(g / U16);
      assert s == g + Turns(s / U16 - g / U16);
    }
  }

  /** The sample differs from left + above - diagonal by this word, modulo 2^16. */
  ghost predicate Differs(s: Raster, width: nat, y: nat, x: nat, word: int)
    requires Rectangular(s, width, |s|) && y < |s| && x < width
  {
    Congruent(s[y][x] - Cell(s, width, y, x - 1) - (Cell(s, width, y - 1, x) - Cell(s, width, y - 1, x - 1)), word)
  }

  lemma SampleStep(r: Raster, width: nat, y: nat, x: nat)
    requires Rectangular(r, width, |r|) && y < |r| && x < width
    ensures Differs(DecodeRaster(r, width), width, y, x, r[y][x])
  {
    var s := DecodeRaster(r, width);
    SampleCongruent(r, width, y, x);
    SampleCongruent(r, width, y, x - 1);
    SampleCongruent(r, width, y - 1, x);
    SampleCongruent(r, width, y - 1, x - 1);
    SecondDifference(r, width, y, x);
    Differences(s[y][x], SumAt(r, width, y, x), Cell(s, width, y, x - 1), SumAt(r, width, y, x - 1),
                Cell(s, width, y - 1, x), SumAt(r, width, y - 1, x),
                Cell(s, width, y - 1, x - 1), SumAt(r, width, y - 1, x - 1), r[y][x]);
  }

  lemma Differences(w: int, w': int, l: int, l': int, a: int, a': int, d: int, d': int, r: int)
    requires Congruent(w, w') && Congruent(l, l') && Congruent(a, a') && Congruent(d, d')
    requires Congruent(w' - l' - (a' - d'), r)
    ensures Congruent(w - l - (a - d), r)
  {
    CongruentAdd(w, w', l, l');
    CongruentAdd(a, a', d, d');
    CongruentAdd(w - l, w' - l', a - d, a' - d');
    CongruentTrans(w - l - (a - d), w' - l' - (a' - d'), r);
  }

  lemma PayloadSample(payload: seq<Byte>, width: nat, height: nat, y: nat, x: nat, from: nat)
    requires |payload| == height * width * 2 && y < height && x < width && from == y * width * 2
    ensures from + 2 * x + 1 < |payload|
    ensures var low: int, high: int := payload[from + 2 * x], payload[from + 2 * x + 1];
            Differs(DecodeRaster(RasterOf(payload, width, height), width), width, y, x, low + 256 * high)
  {
    RasterWord(payload, width, height, y, x, from);
    SampleStep(RasterOf(payload, width, height), width, y, x);
  }

  /** What is accepted: 20 bytes that begin with the magic and hold the size, low bytes first, and as many words. */
  lemma ParsedIff(raw: seq<Byte>)
    ensures ParseAbt2(raw).Success? <==>
            && |raw| >= 20 && raw[0] == 'A' as int && raw[1] == 'B' as int && raw[2] == 'T' as int
            && raw[3] == '2' as int
            && var width: int, height: int := raw[4] as int + 256 * raw[5] as int, raw[6] as int + 256 * raw[7] as int;
            |raw| == 20 + height * width * 2
    ensures ParseAbt2(raw).Success? ==>
              var tile := ParseAbt2(raw).value;
              && tile.width == raw[4] as int + 256 * raw[5] as int
              && tile.height == raw[6] as int + 256 * raw[7] as int
  {
    if |raw| >= 20 {
      assert raw[..4] == [raw[0], raw[1], raw[2], raw[3]];
      assert TileWidth(raw) * TileHeight(raw) * 2 == TileHeight(raw) * TileWidth(raw) * 2;
    }
  }

  lemma ParsedPayload(raw: seq<Byte>, tile: Tile)
    requires ParseAbt2(raw) == Success(tile)
    ensures |raw| >= 20 && |raw[20..]| == tile.height * tile.width * 2
    ensures tile.samples == DecodeRaster(RasterOf(raw[20..], tile.width, tile.height), tile.width)
  {
    assert tile.width * tile.height * 2 == tile.height * tile.width * 2;
  }

  /** Each sample follows from the three before it and the word stored for it. */
  lemma ParsedSample(raw: seq<Byte>, tile: Tile, y: nat, x: nat, from: nat)
    requires ParseAbt2(raw) == Success(tile) && y < tile.height && x < tile.width && from == y * tile.width * 2
    ensures 20 + from + 2 * x + 1 < |raw|
    ensures var low: int, high: int := raw[20 + from + 2 * x], raw[20 + from + 2 * x + 1];
            Differs(tile.samples, tile.width, y, x, low + 256 * high)
  {
    ParsedPayload(raw, tile);
    PayloadSample(raw[20..], tile.width, tile.height, y, x, from);
  }

  /**
   `residual_payload(raw, "gradient")`. A tile whose rows are empty fails: column 0 is
   addressed before its width is known to be positive.
   */
  method GradientPayload(raw: seq<Byte>) returns (r: Result<seq<Byte>, TileError>)
    ensures r.Success? <==> ParseAbt2(raw).Success? && TileWidth(raw) > 0
    ensures r.Success? ==> r.value == raw
    ensures r.Failure? ==> r.error == if ParseAbt2(raw).Failure? then ParseAbt2(raw).error else EmptyRows
  {
    var tile :- ParseAbt2(raw);
    TileRoundTrip(raw);
    if tile.width == 0 { return Failure(EmptyRows); }
    var residual := FillResiduals(UnsignedRaster(tile.samples, tile.width), tile.width);
    r := Success(tile.header + RasterBytes(residual));
  }
}
