/** The PCD1 reader and writer are inverse to each other, and the loops that run them. */
module Pcd1Theorems {
  import opened Wrappers
  import opened Pcd1

  lemma SignedUnsigned32(x: I32)
    ensures 0 <= Unsigned(x, MODULUS_32) < MODULUS_32 && Signed(Unsigned(x, MODULUS_32), MODULUS_32) == x
  {
  }

  lemma SignedUnsigned64(x: I64)
    ensures 0 <= Unsigned(x, MODULUS_64) < MODULUS_64 && Signed(Unsigned(x, MODULUS_64), MODULUS_64) == x
  {
  }

  // ----- read after write -----

  lemma EncodedPreamble(s: Snapshot)
    requires |s.points| < MODULUS_32
    ensures var b := Encode(s);
            && b[..4] == MAGIC && U32At(b, 4) == FORMAT_VERSION && U64At(b, 8) == s.frameNumber
            && U64At(b, 16) == Unsigned(s.captureTimestampNs, MODULUS_64)
  {
    hide Words, Colors, WordBytes, Bytes, Value, Pow256;
    var b, p := Encode(s), Preamble(s);
    Widths();
    assert b[..4] == p[..4] == MAGIC;
    assert b[4..8] == p[4..8] == Bytes(4, FORMAT_VERSION);
    assert b[8..16] == p[8..16] == Bytes(8, s.frameNumber);
    assert b[16..24] == p[16..24] == Bytes(8, Unsigned(s.captureTimestampNs, MODULUS_64));
    ValueOfBytes(4, FORMAT_VERSION);
    ValueOfBytes(8, s.frameNumber);
    ValueOfBytes(8, Unsigned(s.captureTimestampNs, MODULUS_64));
  }

  /** Word k of the file is word k of the snapshot. */
  lemma EncodedWord(s: Snapshot, k: nat)
    requires |s.points| < MODULUS_32 && k < |Words(s)|
    ensures U32At(Encode(s), 24 + 4 * k) == Words(s)[k]
  {
    hide Preamble, Words, Colors;
    var b, w := Encode(s), WordBytes(Words(s));
    assert b[24 + 4 * k..28 + 4 * k] == w[4 * k..4 * k + 4];
    WordBytesAt(Words(s), k);
    Widths();
    ValueOfBytes(4, Words(s)[k]);
  }

  lemma CoordinateWord(s: Snapshot, i: nat, axis: nat)
    requires i < |s.points| < MODULUS_32 && axis < 3
    ensures Words(s)[22 + 3 * i + axis] == Coordinate(s.points[i], axis)
  {
    var k := 3 * i + axis;
    assert k / 3 == i && k % 3 == axis;
    assert Words(s)[22 + k] == Coordinates(s.points)[k];
  }

  lemma EncodedCoordinate(s: Snapshot, i: nat, axis: nat)
    requires i < |s.points| < MODULUS_32 && axis < 3
    ensures U32At(Encode(s), HEADER_SIZE + 12 * i + 4 * axis) == Coordinate(s.points[i], axis)
  {
    hide Encode, Words, Coordinate;
    EncodedWord(s, 22 + 3 * i + axis);
    CoordinateWord(s, i, axis);
    assert HEADER_SIZE + 12 * i + 4 * axis == 24 + 4 * (22 + 3 * i + axis);
  }

  lemma EncodedColor(s: Snapshot, i: nat, channel: nat)
    requires i < |s.points| < MODULUS_32 && channel < 3
    ensures Encode(s)[HEADER_SIZE + 12 * |s.points| + 3 * i + channel] == Channel(s.points[i], channel)
  {
    hide Preamble, Words, Channel;
    var k := 3 * i + channel;
    assert k / 3 == i && k % 3 == channel;
    assert Encode(s)[HEADER_SIZE + 12 * |s.points| + k] == Colors(s.points)[k];
  }

  lemma EncodedPoint(s: Snapshot, i: nat)
    requires i < |s.points| < MODULUS_32
    ensures PointAt(Encode(s), |s.points|, i) == s.points[i]
  {
    hide Encode, U32At;
    EncodedCoordinate(s, i, 0);
    EncodedCoordinate(s, i, 1);
    EncodedCoordinate(s, i, 2);
    EncodedColor(s, i, 0);
    EncodedColor(s, i, 1);
    EncodedColor(s, i, 2);
  }

  lemma EncodedHeaderWords(s: Snapshot)
    requires |s.points| < MODULUS_32
    ensures var b := Encode(s);
            && U32At(b, 24) == Unsigned(s.width, MODULUS_32) && U32At(b, 28) == Unsigned(s.height, MODULUS_32)
            && U32At(b, 32) == Unsigned(s.requestedStride, MODULUS_32) && U32At(b, 36) == Unsigned(s.stride, MODULUS_32)
            && U32At(b, 40) == |s.points| && U32At(b, 44) == 0
            && U32At(b, 48) == s.fx && U32At(b, 52) == s.fy && U32At(b, 56) == s.ppx && U32At(b, 60) == s.ppy
            && forall i | 0 <= i < 12 :: U32At(b, 64 + 4 * i) == s.matrix[i]
  {
    hide Encode;
    forall k | 0 <= k < 22 ensures U32At(Encode(s), 24 + 4 * k) == Words(s)[k] {
      EncodedWord(s, k);
    }
    assert U32At(Encode(s), 24 + 4 * 0) == Words(s)[0] && U32At(Encode(s), 24 + 4 * 1) == Words(s)[1];
    assert U32At(Encode(s), 24 + 4 * 2) == Words(s)[2] && U32At(Encode(s), 24 + 4 * 3) == Words(s)[3];
    assert U32At(Encode(s), 24 + 4 * 4) == Words(s)[4] && U32At(Encode(s), 24 + 4 * 5) == Words(s)[5];
    assert U32At(Encode(s), 24 + 4 * 6) == Words(s)[6] && U32At(Encode(s), 24 + 4 * 7) == Words(s)[7];
    assert U32At(Encode(s), 24 + 4 * 8) == Words(s)[8] && U32At(Encode(s), 24 + 4 * 9) == Words(s)[9];
    forall i | 0 <= i < 12 ensures U32At(Encode(s), 64 + 4 * i) == s.matrix[i] {
      assert U32At(Encode(s), 24 + 4 * (10 + i)) == Words(s)[10 + i];
    }
  }

  /** Parsing what was written gives back every serialized field. */
  lemma ParseEncoded(s: Snapshot)
    requires |s.points| < MODULUS_32
    ensures Parse(Encode(s), |s.points|) == Serialized(s)
  {
    hide Encode, U32At, U64At, PointAt;
    var p := Parse(Encode(s), |s.points|);
    EncodedPreamble(s);
    EncodedHeaderWords(s);
    SignedUnsigned64(s.captureTimestampNs);
    SignedUnsigned32(s.width);
    SignedUnsigned32(s.height);
    SignedUnsigned32(s.requestedStride);
    SignedUnsigned32(s.stride);
    assert p.matrix == s.matrix;
    forall i | 0 <= i < |s.points| ensures p.points[i] == s.points[i] {
      EncodedPoint(s, i);
    }
    assert p.points == s.points;
  }

  lemma ReadAfterWrite(f: Arithmetic, s: Snapshot)
    requires Valid(f, s)
    ensures Decode(f, Encode(s)) == Ok(Serialized(s))
  {
    hide Encode, Parse;
    EncodedPreamble(s);
    EncodedHeaderWords(s);
    ParseEncoded(s);
  }

  // ----- write after read -----

  lemma ParsedPreamble(b: seq<Byte>, count: nat)
    requires |b| == HEADER_SIZE + POINT_SIZE * count && b[..4] == MAGIC && U32At(b, 4) == FORMAT_VERSION
    ensures Preamble(Parse(b, count)) == b[..24]
  {
    Widths();
    var t := U64At(b, 16);
    assert Unsigned(Signed(t, MODULUS_64), MODULUS_64) == t;
    BytesOfValue(b[4..8]);
    BytesOfValue(b[8..16]);
    BytesOfValue(b[16..24]);
    assert b[..24] == b[..4] + b[4..8] + b[8..16] + b[16..24];
  }

  lemma ParsedWord(b: seq<Byte>, count: nat, k: nat)
    requires |b| == HEADER_SIZE + POINT_SIZE * count && count < MODULUS_32
    requires U32At(b, 40) == count && U32At(b, 44) == 0 && k < 22 + 3 * count
    ensures U32At(b, 24 + 4 * k) == Words(Parse(b, count))[k]
  {
    hide Parse, Words, U32At;
    if k >= 22 {
      ParsedCoordinate(b, count, (k - 22) / 3, (k - 22) % 3);
    } else {
      ParsedHeaderWord(b, count, k);
    }
  }

  lemma ParsedCoordinate(b: seq<Byte>, count: nat, i: nat, axis: nat)
    requires |b| == HEADER_SIZE + POINT_SIZE * count && i < count < MODULUS_32 && axis < 3
    ensures U32At(b, 24 + 4 * (22 + 3 * i + axis)) == Words(Parse(b, count))[22 + 3 * i + axis]
  {
    hide Words, U32At;
    CoordinateWord(Parse(b, count), i, axis);
    assert 24 + 4 * (22 + 3 * i + axis) == HEADER_SIZE + 12 * i + 4 * axis;
    assert Parse(b, count).points[i] == PointAt(b, count, i);
  }

  lemma ParsedHeaderWord(b: seq<Byte>, count: nat, k: nat)
    requires |b| == HEADER_SIZE + POINT_SIZE * count && count < MODULUS_32
    requires U32At(b, 40) == count && U32At(b, 44) == 0 && k < 22
    ensures U32At(b, 24 + 4 * k) == Words(Parse(b, count))[k]
  {
    if k >= 10 {
      assert Words(Parse(b, count))[k] == Parse(b, count).matrix[k - 10];
      assert 64 + 4 * (k - 10) == 24 + 4 * k;
    }
    forall n: U32 ensures Unsigned(Signed(n, MODULUS_32), MODULUS_32) == n {
    }
  }

  lemma ParsedColors(b: seq<Byte>, count: nat)
    requires |b| == HEADER_SIZE + POINT_SIZE * count
    ensures Colors(Parse(b, count).points) == b[HEADER_SIZE + 12 * count..]
  {
    var s, tail := Parse(b, count), b[HEADER_SIZE + 12 * count..];
    forall k | 0 <= k < 3 * count ensures Colors(s.points)[k] == tail[k] {
      var i, channel := k / 3, k % 3;
      assert s.points[i] == PointAt(b, count, i);
      assert k == 3 * i + channel;
    }
  }

  lemma SliceOfSlice(b: seq<Byte>, lo: nat, hi: nat, i: nat, j: nat)
    requires lo <= hi <= |b| && i <= j <= hi - lo
    ensures b[lo..hi][i..j] == b[lo + i..lo + j]
  {
    var part, whole := b[lo..hi][i..j], b[lo + i..lo + j];
    forall k | 0 <= k < j - i ensures part[k] == whole[k] {
      assert part[k] == b[lo..hi][i + k] == b[lo + i + k];
    }
  }

  lemma EncodeParsed(b: seq<Byte>, count: nat)
    requires |b| == HEADER_SIZE + POINT_SIZE * count && count < MODULUS_32
    requires b[..4] == MAGIC && U32At(b, 4) == FORMAT_VERSION && U32At(b, 40) == count && U32At(b, 44) == 0
    ensures Encode(Parse(b, count)) == b
  {
    hide Parse, Words, Preamble, Colors;
    var s, middle := Parse(b, count), b[24..HEADER_SIZE + 12 * count];
    ParsedSize(b, count);
    ParsedPreamble(b, count);
    ParsedColors(b, count);
    forall k | 0 <= k < |Words(s)| ensures U32At(middle, 4 * k) == Words(s)[k] {
      ParsedWord(b, count, k);
      SliceOfSlice(b, 24, HEADER_SIZE + 12 * count, 4 * k, 4 * k + 4);
    }
    WordsDetermine(middle, Words(s));
    assert b == b[..24] + middle + b[HEADER_SIZE + 12 * count..];
  }

  lemma ParsedSize(b: seq<Byte>, count: nat)
    requires |b| == HEADER_SIZE + POINT_SIZE * count
    ensures |Parse(b, count).points| == count && Serialized(Parse(b, count)) == Parse(b, count)
  {
  }

  /** Whatever the reader accepts, the writer reproduces byte for byte. */
  lemma WriteAfterRead(f: Arithmetic, b: seq<Byte>)
    requires Decode(f, b).Ok?
    ensures var s := Decode(f, b).value;
            Valid(f, s) && Serialized(s) == s && Encode(s) == b
  {
    hide Encode, Parse;
    ParsedSize(b, U32At(b, 40));
    EncodeParsed(b, U32At(b, 40));
  }

  /** The reader accepts exactly the files the writer can write. */
  lemma AcceptsExactlyTheWrittenFiles(f: Arithmetic, b: seq<Byte>)
    ensures Decode(f, b).Ok? <==> exists s :: Valid(f, s) && Encode(s) == b
  {
    if Decode(f, b).Ok? {
      WriteAfterRead(f, b);
      var s := Decode(f, b).value;
      assert Valid(f, s) && Encode(s) == b;
    } else if exists s :: Valid(f, s) && Encode(s) == b {
      var s :| Valid(f, s) && Encode(s) == b;
      ReadAfterWrite(f, s);
    }
  }

  /** Two snapshots share a file only if they agree on every serialized field. */
  lemma FilesIdentifySnapshots(s: Snapshot, t: Snapshot)
    requires |s.points| < MODULUS_32 && |t.points| < MODULUS_32
    ensures Encode(s) == Encode(t) <==> Serialized(s) == Serialized(t)
  {
    if Encode(s) == Encode(t) {
      ParseEncoded(s);
      ParseEncoded(t);
    }
  }
}
