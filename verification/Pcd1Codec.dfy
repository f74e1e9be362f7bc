/** The PCD1 writer and reader as they run: an output that grows, an offset that advances. */
module Pcd1Codec {
  import opened Wrappers
  import opened Pcd1
  import opened Pcd1Theorems

  // ----- writing -----

  lemma {:induction false} WordBytesAppend(words: seq<U32>, w: U32)
    ensures WordBytes(words + [w]) == WordBytes(words) + Bytes(4, w)
    decreases |words|
  {
    if words == [] {
      assert WordBytes([w]) == Bytes(4, w) + WordBytes([]);
    } else {
      WordBytesAppend(words[1..], w);
      assert (words + [w])[1..] == words[1..] + [w];
    }
  }

  lemma CoordinatesAppend(points: seq<Point>, p: Point)
    ensures Coordinates(points + [p]) == Coordinates(points) + [p.x] + [p.y] + [p.z]
  {
    var n := |points|;
    assert (3 * n) / 3 == n && (3 * n + 1) / 3 == n && (3 * n + 2) / 3 == n;
    forall k | 0 <= k < 3 * n ensures Coordinates(points + [p])[k] == Coordinates(points)[k] {
      assert k / 3 < n;
    }
  }

  lemma ColorsAppend(points: seq<Point>, p: Point)
    ensures Colors(points + [p]) == Colors(points) + [p.red, p.green, p.blue]
  {
    var n := |points|;
    assert (3 * n) / 3 == n && (3 * n + 1) / 3 == n && (3 * n + 2) / 3 == n;
    forall k | 0 <= k < 3 * n ensures Colors(points + [p])[k] == Colors(points)[k] {
      assert k / 3 < n;
    }
  }

  class Output {
    var bytes: seq<Byte>

    constructor ()
      ensures bytes == []
    {
      bytes := [];
    }

    /** Low byte first, `n` bytes. */
    method AppendUint(n: nat, value: int)
      requires value >= 0
      modifies this
      ensures bytes == old(bytes) + Bytes(n, value)
    {
      var i, rest := 0, value;
      while i < n
        invariant 0 <= i <= n && rest >= 0
        invariant bytes + Bytes(n - i, rest) == old(bytes) + Bytes(n, value)
      {
        assert bytes + Bytes(n - i, rest) == (bytes + [rest % 256]) + Bytes(n - i - 1, rest / 256);
        bytes := bytes + [rest % 256];
        rest := rest / 256;
        i := i + 1;
      }
    }

    /** A word after the words already written behind `prefix`. */
    method AppendWord(w: U32, ghost prefix: seq<Byte>, ghost words: seq<U32>)
      requires bytes == prefix + WordBytes(words)
      modifies this
      ensures bytes == prefix + WordBytes(words + [w])
    {
      WordBytesAppend(words, w);
      AppendUint(4, w);
    }
  }

  /** Magic, version, frame number and capture timestamp. */
  method AppendPreamble(out: Output, s: Snapshot)
    requires out.bytes == []
    modifies out
    ensures out.bytes == Preamble(s)
  {
    out.bytes := out.bytes + MAGIC;
    out.AppendUint(4, FORMAT_VERSION);
    out.AppendUint(8, s.frameNumber);
    out.AppendUint(8, Unsigned(s.captureTimestampNs, MODULUS_64));
  }

  /** Dimensions, strides and the point count. */
  method AppendDimensions(out: Output, s: Snapshot, ghost p: seq<Byte>)
    requires |s.points| < MODULUS_32 && out.bytes == p
    modifies out
    ensures out.bytes == p + WordBytes(Words(s)[..5])
  {
    assert out.bytes == p + WordBytes([]);
    hide WordBytes;
    var a, b := Unsigned(s.width, MODULUS_32), Unsigned(s.height, MODULUS_32);
    var c, d := Unsigned(s.requestedStride, MODULUS_32), Unsigned(s.stride, MODULUS_32);
    out.AppendWord(a, p, []);
    out.AppendWord(b, p, [a]);
    out.AppendWord(c, p, [a] + [b]);
    out.AppendWord(d, p, [a] + [b] + [c]);
    out.AppendWord(|s.points|, p, [a] + [b] + [c] + [d]);
    assert Words(s)[..5] == [a] + [b] + [c] + [d] + [|s.points|];
    assert [] + [a] == [a];
  }

  /** The reserved word and the intrinsics. */
  method AppendIntrinsics(out: Output, s: Snapshot, ghost p: seq<Byte>, ghost w: seq<U32>)
    requires out.bytes == p + WordBytes(w)
    modifies out
    ensures out.bytes == p + WordBytes(w + [0, s.fx, s.fy, s.ppx, s.ppy])
  {
    hide WordBytes;
    out.AppendWord(0, p, w);
    out.AppendWord(s.fx, p, w + [0]);
    out.AppendWord(s.fy, p, w + [0] + [s.fx]);
    out.AppendWord(s.ppx, p, w + [0] + [s.fx] + [s.fy]);
    out.AppendWord(s.ppy, p, w + [0] + [s.fx] + [s.fy] + [s.ppx]);
    assert w + [0, s.fx, s.fy, s.ppx, s.ppy] == w + [0] + [s.fx] + [s.fy] + [s.ppx] + [s.ppy];
  }

  method AppendMatrix(out: Output, m: Matrix, ghost p: seq<Byte>, ghost words: seq<U32>)
    requires out.bytes == p + WordBytes(words)
    modifies out
    ensures out.bytes == p + WordBytes(words + m)
  {
    hide WordBytes;
    var i := 0;
    assert words + m[..0] == words;
    while i < 12
      invariant 0 <= i <= 12 && out.bytes == p + WordBytes(words + m[..i])
    {
      assert words + m[..i] + [m[i]] == words + m[..i + 1];
      out.AppendWord(m[i], p, words + m[..i]);
      i := i + 1;
    }
    assert m[..12] == m;
  }

  method AppendCoordinates(out: Output, points: seq<Point>, ghost p: seq<Byte>, ghost words: seq<U32>)
    requires out.bytes == p + WordBytes(words)
    modifies out
    ensures out.bytes == p + WordBytes(words + Coordinates(points))
  {
    hide WordBytes, Coordinates;
    var i := 0;
    assert words + Coordinates(points[..0]) == words;
    while i < |points|
      invariant 0 <= i <= |points| && out.bytes == p + WordBytes(words + Coordinates(points[..i]))
    {
      ghost var before := words + Coordinates(points[..i]);
      var point := points[i];
      out.AppendWord(point.x, p, before);
      out.AppendWord(point.y, p, before + [point.x]);
      out.AppendWord(point.z, p, before + [point.x] + [point.y]);
      CoordinatesAppend(points[..i], point);
      assert points[..i] + [point] == points[..i + 1];
      assert before + [point.x] + [point.y] + [point.z] == words + Coordinates(points[..i + 1]);
      i := i + 1;
    }
    assert points[..|points|] == points;
  }

  method AppendColors(out: Output, points: seq<Point>)
    modifies out
    ensures out.bytes == old(out.bytes) + Colors(points)
  {
    hide Colors;
    var i := 0;
    while i < |points|
      invariant 0 <= i <= |points| && out.bytes == old(out.bytes) + Colors(points[..i])
    {
      var point := points[i];
      ColorsAppend(points[..i], point);
      assert points[..i] + [point] == points[..i + 1];
      out.bytes := out.bytes + [point.red, point.green, point.blue];
      i := i + 1;
    }
    assert points[..|points|] == points;
  }

  method Write(f: Arithmetic, s: Snapshot) returns (r: Result<seq<Byte>>)
    ensures r == if Valid(f, s) then Ok(Encode(s)) else Err(Validation(f, s).value)
  {
    hide WordBytes, Preamble, Coordinates;
    var error := Validate(f, s);
    if error.Some? { return Err(error.value); }
    var out := new Output();
    AppendPreamble(out, s);
    AppendDimensions(out, s, Preamble(s));
    AppendIntrinsics(out, s, Preamble(s), Words(s)[..5]);
    assert Words(s)[..5] + [0, s.fx, s.fy, s.ppx, s.ppy] == Words(s)[..10];
    AppendMatrix(out, s.matrix, Preamble(s), Words(s)[..10]);
    AppendCoordinates(out, s.points, Preamble(s), Words(s)[..10] + s.matrix);
    assert Words(s)[..10] + s.matrix + Coordinates(s.points) == Words(s);
    AppendColors(out, s.points);
    return Ok(out.bytes);
  }

  /** The rows of the matrix have unit length and are orthogonal, within the tolerance. */
  method CheckRows(f: Arithmetic, m: Matrix) returns (ok: bool)
    ensures ok == Orthonormal(f, m)
  {
    var row := 0;
    while row < 3
      invariant 0 <= row <= 3
      invariant forall i, j | 0 <= i < row && 0 <= j < 3 :: DotOk(f, m, i, j)
    {
      var column := 0;
      while column < 3
        invariant 0 <= column <= 3
        invariant forall j | 0 <= j < column :: DotOk(f, m, row, j)
      {
        var dot, index := ZERO, 0;
        while index < 3
          invariant 0 <= index <= 3 && dot == Dot(f, m, row, column, index)
        {
          dot := f.add(dot, f.mul(m[row * 4 + index], m[column * 4 + index]));
          index := index + 1;
        }
        var expected := if row == column then ONE else ZERO;
        assert !f.far(dot, expected) == DotOk(f, m, row, column);
        if f.far(dot, expected) { return false; }
        column := column + 1;
      }
      row := row + 1;
    }
    return true;
  }

  /** The value checks of reader and writer. */
  method Validate(f: Arithmetic, s: Snapshot) returns (error: Option<Error>)
    ensures error == Validation(f, s)
  {
    if s.width <= 0 || s.height <= 0 || s.requestedStride <= 0 || s.stride <= 0 { return Some(NotPositive); }
    if |s.points| >= MODULUS_32 { return Some(TooMany); }
    var i := 0;
    while i < |s.points|
      invariant 0 <= i <= |s.points|
      invariant forall k :: 0 <= k < i ==> PointFinite(s.points[k])
    {
      if !PointFinite(s.points[i]) { return Some(NotFinite); }
      i := i + 1;
    }
    i := 0;
    while i < 12
      invariant 0 <= i <= 12
      invariant forall k :: 0 <= k < i ==> Finite(s.matrix[k])
    {
      if !Finite(s.matrix[i]) { return Some(NotFinite); }
      i := i + 1;
    }
    var ok := CheckRows(f, s.matrix);
    if !ok { return Some(NotOrthonormal); }
    return if f.far(Determinant(f, s.matrix), ONE) then Some(BadDeterminant) else None;
  }

  // ----- reading -----

  lemma {:induction false} ValueGrows(b: seq<Byte>, i: nat)
    requires i < |b|
    ensures Value(b[..i + 1]) == Value(b[..i]) + Pow256(i) * b[i]
    decreases i
  {
    if i == 0 {
      assert b[..1][1..] == [];
    } else {
      ValueGrows(b[1..], i - 1);
      assert b[..i + 1][1..] == b[1..][..i] && b[..i][1..] == b[1..][..i - 1];
      Regroup(b[0], Value(b[1..][..i - 1]), Pow256(i - 1), b[i]);
    }
  }

  lemma Regroup(first: int, rest: int, scale: int, byte: int)
    ensures first + 256 * (rest + scale * byte) == first + 256 * rest + (256 * scale) * byte
  {
  }

  class Input {
    const bytes: seq<Byte>
    var offset: nat

    constructor (input: seq<Byte>)
      ensures bytes == input && offset == 0
    {
      bytes, offset := input, 0;
    }

    /** The next `n` bytes as one unsigned integer; None, and nothing is consumed, if there are fewer. */
    method ReadUint(n: nat) returns (value: Option<nat>)
      modifies this
      ensures value.Some? <==> old(offset) + n <= |bytes|
      ensures value.Some? ==> value.value == Value(bytes[old(offset)..old(offset) + n]) && offset == old(offset) + n
      ensures value.None? ==> offset == old(offset)
    {
      if offset > |bytes| || |bytes| - offset < n { return None; }
      var i: nat, sum: nat, scale: nat := 0, 0, 1;
      ghost var window := bytes[offset..offset + n];
      while i < n
        invariant 0 <= i <= n && offset == old(offset) + i
        invariant sum == Value(window[..i]) && scale == Pow256(i)
      {
        ValueGrows(window, i);
        sum := sum + scale * bytes[offset];
        scale := 256 * scale;
        offset := offset + 1;
        i := i + 1;
      }
      assert window[..n] == window;
      return Some(sum);
    }

    method ReadWord() returns (value: U32)
      requires offset + 4 <= |bytes|
      modifies this
      ensures offset == old(offset) + 4 && value == U32At(bytes, old(offset))
    {
      var v := ReadUint(4);
      assert v.value == U32At(bytes, old(offset));
      return v.value;
    }

    method ReadLong() returns (value: U64)
      requires offset + 8 <= |bytes|
      modifies this
      ensures offset == old(offset) + 8 && value == U64At(bytes, old(offset))
    {
      var v := ReadUint(8);
      assert v.value == U64At(bytes, old(offset));
      return v.value;
    }
  }

  const NoPoint := Point(0, 0, 0, 255, 255, 255)

  method ReadPositions(input: Input, count: nat) returns (points: seq<Point>)
    requires |input.bytes| == HEADER_SIZE + POINT_SIZE * count && input.offset == HEADER_SIZE
    modifies input
    ensures |points| == count && input.offset == HEADER_SIZE + 12 * count
    ensures forall i :: 0 <= i < count ==>
              points[i] == PointAt(input.bytes, count, i).(red := 255, green := 255, blue := 255)
  {
    hide U32At;
    points := [];
    while |points| < count
      invariant |points| <= count && input.offset == HEADER_SIZE + 12 * |points|
      invariant forall i :: 0 <= i < |points| ==>
                  points[i] == PointAt(input.bytes, count, i).(red := 255, green := 255, blue := 255)
    {
      var x := input.ReadWord();
      var y := input.ReadWord();
      var z := input.ReadWord();
      points := points + [NoPoint.(x := x, y := y, z := z)];
    }
  }

  /** Coordinates of all points first, then their colors. */
  method ReadPoints(input: Input, count: nat) returns (points: seq<Point>)
    requires |input.bytes| == HEADER_SIZE + POINT_SIZE * count && input.offset == HEADER_SIZE
    modifies input
    ensures |points| == count && forall i :: 0 <= i < count ==> points[i] == PointAt(input.bytes, count, i)
  {
    hide U32At;
    var b := input.bytes;
    points := ReadPositions(input, count);
    var i := 0;
    while i < count
      invariant 0 <= i <= count == |points| && input.offset == HEADER_SIZE + 12 * count + 3 * i
      invariant forall k :: 0 <= k < i ==> points[k] == PointAt(b, count, k)
      invariant forall k :: i <= k < count ==>
                  points[k] == PointAt(b, count, k).(red := 255, green := 255, blue := 255)
    {
      var o := input.offset;
      points := points[i := points[i].(red := b[o], green := b[o + 1], blue := b[o + 2])];
      input.offset := o + 3;
      i := i + 1;
    }
  }

  method ReadMatrix(input: Input) returns (matrix: Matrix)
    requires |input.bytes| >= HEADER_SIZE && input.offset == 64
    modifies input
    ensures input.offset == HEADER_SIZE
    ensures forall i :: 0 <= i < 12 ==> matrix[i] == U32At(input.bytes, 64 + 4 * i)
  {
    hide U32At;
    var m: seq<U32> := [];
    while |m| < 12
      invariant |m| <= 12 && input.offset == 64 + 4 * |m|
      invariant forall i :: 0 <= i < |m| ==> m[i] == U32At(input.bytes, 64 + 4 * i)
    {
      var w := input.ReadWord();
      m := m + [w];
    }
    return m;
  }

  /** The fields from the frame number to the reserved word. */
  method ReadFields(input: Input) returns (number: U64, time: U64, width: U32, height: U32,
                                           requested: U32, stride: U32, count: U32, reserved: U32)
    requires |input.bytes| >= HEADER_SIZE && input.offset == 8
    modifies input
    ensures input.offset == 48
    ensures number == U64At(input.bytes, 8) && time == U64At(input.bytes, 16)
    ensures width == U32At(input.bytes, 24) && height == U32At(input.bytes, 28)
    ensures requested == U32At(input.bytes, 32) && stride == U32At(input.bytes, 36)
    ensures count == U32At(input.bytes, 40) && reserved == U32At(input.bytes, 44)
  {
    hide U32At, U64At;
    number := input.ReadLong();
    time := input.ReadLong();
    width := input.ReadWord();
    height := input.ReadWord();
    requested := input.ReadWord();
    stride := input.ReadWord();
    count := input.ReadWord();
    reserved := input.ReadWord();
  }

  method Read(f: Arithmetic, b: seq<Byte>) returns (r: Result<Snapshot>)
    ensures r == Decode(f, b)
  {
    hide U32At, U64At, PointAt, Validation;
    if |b| < HEADER_SIZE || b[..4] != MAGIC { return Err(BadMagic); }
    var input := new Input(b);
    input.offset := 4;
    var version := input.ReadWord();
    if version != FORMAT_VERSION { return Err(BadVersion); }
    var number, time, width, height, requested, stride, count, reserved := ReadFields(input);
    if reserved != 0 { return Err(BadReserved); }
    var fx := input.ReadWord();
    var fy := input.ReadWord();
    var ppx := input.ReadWord();
    var ppy := input.ReadWord();
    var matrix := ReadMatrix(input);
    if |b| != HEADER_SIZE + POINT_SIZE * count { return Err(BadLength); }
    var points := ReadPoints(input, count);
    var s := Snapshot(0, 0, number, Signed(time, MODULUS_64), Signed(width, MODULUS_32),
                      Signed(height, MODULUS_32), Signed(requested, MODULUS_32), Signed(stride, MODULUS_32),
                      fx, fy, ppx, ppy, matrix, points);
    assert s.matrix == Parse(b, count).matrix && s.points == Parse(b, count).points;
    assert s == Parse(b, count);
    var error := Validate(f, s);
    return if error.Some? then Err(error.value) else Ok(s);
  }
}
