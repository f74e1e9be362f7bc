/**
 PCD1 version 2: the little-endian point-cloud file. Floats are their 32-bit patterns; how the
 processor adds, multiplies and compares them is a parameter of reader and writer.
 */
module Pcd1 {
  import opened Wrappers

  type Byte = b: int | 0 <= b < 0x100
  type U32 = n: int | 0 <= n < 0x1_0000_0000
  type U64 = n: int | 0 <= n < 0x1_0000_0000_0000_0000
  type I32 = n: int | -0x8000_0000 <= n < 0x8000_0000
  type I64 = n: int | -0x8000_0000_0000_0000 <= n < 0x8000_0000_0000_0000
  type Matrix = m: seq<U32> | |m| == 12 witness [0, 0, 0, 0, 0, 0, 0, 0, 0, 0, 0, 0]

  const HEADER_SIZE: nat := 112
  const POINT_SIZE: nat := 15
  const FORMAT_VERSION: U32 := 2
  const MAGIC: seq<Byte> := [80, 67, 68, 49]       // P C D 1

  /** A point: the bit patterns of its coordinates and its color. */
  datatype Point = Point(x: U32, y: U32, z: U32, red: Byte, green: Byte, blue: Byte)

  /** The first two fields are not part of the file. */
  datatype Snapshot = Snapshot(
    captureGeneration: U64,
    captureUnixNs: I64,
    frameNumber: U64,
    captureTimestampNs: I64,
    width: I32,
    height: I32,
    requestedStride: I32,
    stride: I32,
    fx: U32, fy: U32, ppx: U32, ppy: U32,
    matrix: Matrix,
    points: seq<Point>)

  datatype Error =
    BadMagic | BadVersion | BadReserved | BadLength | NotPositive | TooMany | NotFinite |
    NotOrthonormal | BadDeterminant

  datatype Result<T> = Ok(value: T) | Err(error: Error)

  // ----- little-endian integers -----

  function Bytes(n: nat, value: int): (b: seq<Byte>)
    requires value >= 0
    ensures |b| == n
  {
    if n == 0 then [] else [value % 256] + Bytes(n - 1, value / 256)
  }

  function Value(b: seq<Byte>): (v: nat) {
    if b == [] then 0 else b[0] + 256 * Value(b[1..])
  }

  function Pow256(n: nat): nat {
    if n == 0 then 1 else 256 * Pow256(n - 1)
  }

  lemma {:induction false} ValueOfBytes(n: nat, value: int)
    requires 0 <= value < Pow256(n)
    ensures Value(Bytes(n, value)) == value
    decreases n
  {
    if n > 0 {
      ValueOfBytes(n - 1, value / 256);
      assert Bytes(n, value)[1..] == Bytes(n - 1, value / 256);
    }
  }

  lemma {:induction false} BytesOfValue(b: seq<Byte>)
    ensures Bytes(|b|, Value(b)) == b && Value(b) < Pow256(|b|)
    decreases |b|
  {
    if b != [] {
      BytesOfValue(b[1..]);
      assert Value(b) % 256 == b[0] && Value(b) / 256 == Value(b[1..]);
      assert b == [b[0]] + b[1..];
    }
  }

  lemma Widths()
    ensures Pow256(4) == 0x1_0000_0000 && Pow256(8) == 0x1_0000_0000_0000_0000
  {
    assert Pow256(2) == 0x1_0000;
    assert Pow256(4) == 0x1_0000_0000;
    assert Pow256(6) == 0x1_0000_0000_0000;
  }

  /** Two's complement: what copying a signed integer into an unsigned one of that width yields. */
  function Unsigned(x: int, modulus: int): int {
    if x < 0 then x + modulus else x
  }

  function Signed(n: int, modulus: int): int {
    if n >= modulus / 2 then n - modulus else n
  }

  const MODULUS_32: int := 0x1_0000_0000
  const MODULUS_64: int := 0x1_0000_0000_0000_0000

  function U32At(b: seq<Byte>, offset: nat): (n: U32)
    requires offset + 4 <= |b|
  {
    BytesOfValue(b[offset..offset + 4]);
    Widths();
    Value(b[offset..offset + 4])
  }

  function U64At(b: seq<Byte>, offset: nat): (n: U64)
    requires offset + 8 <= |b|
  {
    BytesOfValue(b[offset..offset + 8]);
    Widths();
    Value(b[offset..offset + 8])
  }

  // ----- words -----

  function WordBytes(words: seq<U32>): (b: seq<Byte>)
    ensures |b| == 4 * |words|
  {
    if words == [] then [] else Bytes(4, words[0]) + WordBytes(words[1..])
  }

  lemma {:induction false} WordBytesAt(words: seq<U32>, k: nat)
    requires k < |words|
    ensures WordBytes(words)[4 * k..4 * k + 4] == Bytes(4, words[k])
    decreases k
  {
    var rest := WordBytes(words[1..]);
    if k > 0 {
      WordBytesAt(words[1..], k - 1);
      assert WordBytes(words)[4 * k..4 * k + 4] == rest[4 * (k - 1)..4 * (k - 1) + 4];
    }
  }

  /** Bytes are determined by their words. */
  lemma {:induction false} WordsDetermine(b: seq<Byte>, words: seq<U32>)
    requires |b| == 4 * |words|
    requires forall k :: 0 <= k < |words| ==> U32At(b, 4 * k) == words[k]
    ensures b == WordBytes(words)
    decreases |words|
  {
    if words != [] {
      assert U32At(b, 4 * 0) == words[0];
      BytesOfValue(b[..4]);
      assert b[0..4] == b[..4];
      forall k | 0 <= k < |words[1..]| ensures U32At(b[4..], 4 * k) == words[1..][k] {
        assert b[4..][4 * k..4 * k + 4] == b[4 * (k + 1)..4 * (k + 1) + 4];
        assert U32At(b, 4 * (k + 1)) == words[k + 1];
      }
      WordsDetermine(b[4..], words[1..]);
      assert b == b[..4] + b[4..];
    }
  }

  // ----- validation -----

  /** Exponent bits not all ones: neither infinite nor NaN. */
  predicate Finite(bits: U32) {
    (bits / 0x80_0000) % 0x100 != 0xFF
  }

  predicate PointFinite(p: Point) {
    Finite(p.x) && Finite(p.y) && Finite(p.z)
  }

  /**
   Binary32 arithmetic on bit patterns, with whatever rounding. `far(a, b)` is the comparison
   |a - b| > tolerance, so it is false when the difference is not a number.
   */
  datatype Arithmetic = Arithmetic(
    add: (U32, U32) -> U32,
    sub: (U32, U32) -> U32,
    mul: (U32, U32) -> U32,
    far: (U32, U32) -> bool)

  const ZERO: U32 := 0
  const ONE: U32 := 0x3f80_0000

  /** The first n products of two rows of the 3x4 matrix, summed from zero in order. */
  function Dot(f: Arithmetic, m: Matrix, row: nat, column: nat, n: nat): U32
    requires row < 3 && column < 3 && n <= 3
  {
    if n == 0 then ZERO
    else f.add(Dot(f, m, row, column, n - 1), f.mul(m[row * 4 + n - 1], m[column * 4 + n - 1]))
  }

  predicate DotOk(f: Arithmetic, m: Matrix, row: nat, column: nat)
    requires row < 3 && column < 3
  {
    !f.far(Dot(f, m, row, column, 3), if row == column then ONE else ZERO)
  }

  predicate Orthonormal(f: Arithmetic, m: Matrix) {
    forall row, column | 0 <= row < 3 && 0 <= column < 3 :: DotOk(f, m, row, column)
  }

  function Determinant(f: Arithmetic, m: Matrix): U32 {
    f.add(f.sub(f.mul(m[0], f.sub(f.mul(m[5], m[10]), f.mul(m[6], m[9]))),
                f.mul(m[1], f.sub(f.mul(m[4], m[10]), f.mul(m[6], m[8])))),
          f.mul(m[2], f.sub(f.mul(m[4], m[9]), f.mul(m[5], m[8]))))
  }

  /** The checks in the order of the code. */
  function Validation(f: Arithmetic, s: Snapshot): Option<Error> {
    if s.width <= 0 || s.height <= 0 || s.requestedStride <= 0 || s.stride <= 0 then Some(NotPositive)
    else if |s.points| >= MODULUS_32 then Some(TooMany)
    else if exists i :: 0 <= i < |s.points| && !PointFinite(s.points[i]) then Some(NotFinite)
    else if exists i :: 0 <= i < 12 && !Finite(s.matrix[i]) then Some(NotFinite)
    else if !Orthonormal(f, s.matrix) then Some(NotOrthonormal)
    else if f.far(Determinant(f, s.matrix), ONE) then Some(BadDeterminant)
    else None
  }

  predicate Valid(f: Arithmetic, s: Snapshot) {
    Validation(f, s).None?
  }

  // ----- the format -----

  function Coordinate(p: Point, axis: nat): U32 {
    if axis == 0 then p.x else if axis == 1 then p.y else p.z
  }

  function Channel(p: Point, channel: nat): Byte {
    if channel == 0 then p.red else if channel == 1 then p.green else p.blue
  }

  function Coordinates(points: seq<Point>): (w: seq<U32>)
    ensures |w| == 3 * |points|
  {
    seq(3 * |points|, k requires 0 <= k < 3 * |points| => Coordinate(points[k / 3], k % 3))
  }

  function Colors(points: seq<Point>): (b: seq<Byte>)
    ensures |b| == 3 * |points|
  {
    seq(3 * |points|, k requires 0 <= k < 3 * |points| => Channel(points[k / 3], k % 3))
  }

  /** The words from the width on: ten header words, the matrix, the coordinates. */
  function Words(s: Snapshot): (w: seq<U32>)
    requires |s.points| < MODULUS_32
    ensures |w| == 22 + 3 * |s.points|
  {
    [Unsigned(s.width, MODULUS_32), Unsigned(s.height, MODULUS_32),
     Unsigned(s.requestedStride, MODULUS_32), Unsigned(s.stride, MODULUS_32),
     |s.points|, 0, s.fx, s.fy, s.ppx, s.ppy] + s.matrix + Coordinates(s.points)
  }

  /** The fixed part before the words. */
  function Preamble(s: Snapshot): (b: seq<Byte>)
    ensures |b| == 24
  {
    MAGIC + Bytes(4, FORMAT_VERSION) + Bytes(8, s.frameNumber) +
    Bytes(8, Unsigned(s.captureTimestampNs, MODULUS_64))
  }

  function Encode(s: Snapshot): (b: seq<Byte>)
    requires |s.points| < MODULUS_32
    ensures |b| == HEADER_SIZE + POINT_SIZE * |s.points|
  {
    Preamble(s) + WordBytes(Words(s)) + Colors(s.points)
  }

  /** What the file keeps of a snapshot. */
  function Serialized(s: Snapshot): Snapshot {
    s.(captureGeneration := 0, captureUnixNs := 0)
  }

  function PointAt(b: seq<Byte>, count: nat, i: nat): Point
    requires i < count && |b| == HEADER_SIZE + POINT_SIZE * count
  {
    var p, c := HEADER_SIZE + 12 * i, HEADER_SIZE + 12 * count + 3 * i;
    Point(U32At(b, p), U32At(b, p + 4), U32At(b, p + 8), b[c], b[c + 1], b[c + 2])
  }

  /** All fields at their offsets. */
  function Parse(b: seq<Byte>, count: nat): (s: Snapshot)
    requires |b| == HEADER_SIZE + POINT_SIZE * count
  {
    Snapshot(0, 0, U64At(b, 8), Signed(U64At(b, 16), MODULUS_64),
             Signed(U32At(b, 24), MODULUS_32), Signed(U32At(b, 28), MODULUS_32),
             Signed(U32At(b, 32), MODULUS_32), Signed(U32At(b, 36), MODULUS_32),
             U32At(b, 48), U32At(b, 52), U32At(b, 56), U32At(b, 60),
             seq(12, i requires 0 <= i < 12 => U32At(b, 64 + 4 * i)),
             seq(count, i requires 0 <= i < count => PointAt(b, count, i)))
  }

  /** The reader, with its checks in the order of the code. */
  function Decode(f: Arithmetic, b: seq<Byte>): Result<Snapshot> {
    if |b| < HEADER_SIZE || b[..4] != MAGIC then Err(BadMagic)
    else if U32At(b, 4) != FORMAT_VERSION then Err(BadVersion)
    else if U32At(b, 44) != 0 then Err(BadReserved)
    else if |b| != HEADER_SIZE + POINT_SIZE * U32At(b, 40) then Err(BadLength)
    else
      var s := Parse(b, U32At(b, 40));
      match Validation(f, s)
      case Some(error) => Err(error)
      case None => Ok(s)
  }
}
