/**
 Queries on a frame of the fake camera, over exact reals: depth statistics of a region of
 interest, and the sampled point cloud with its search for a stride that fits.
 */
module FakeFrame {
  import opened Wrappers

  datatype Pixel = Pixel(x: int, y: int)

  datatype Sample = Sample(depth: real, pixel: Pixel)

  datatype Vector = Vector(x: real, y: real, z: real)

  /** Depth in meters and RGB bytes, row by row. */
  datatype Image = Image(width: int, height: int, depth: seq<real>, color: seq<int>)

  ghost predicate ImageOk(img: Image) {
    && img.width > 0 && img.height > 0
    && |img.depth| == img.height * img.width
    && |img.color| == 3 * (img.height * img.width)
  }

  predicate InImage(img: Image, p: Pixel) {
    0 <= p.x < img.width && 0 <= p.y < img.height
  }

  lemma IndexInBounds(width: int, height: int, x: int, y: int)
    requires 0 <= x < width && 0 <= y < height
    ensures 0 <= y * width + x < height * width
  {
    assert (y + 1) * width <= height * width;
  }

  function Index(img: Image, p: Pixel): (i: nat)
    requires ImageOk(img) && InImage(img, p)
    ensures i < |img.depth|
  {
    IndexInBounds(img.width, img.height, p.x, p.y);
    p.y * img.width + p.x
  }

  function DepthAt(img: Image, p: Pixel): real
    requires ImageOk(img) && InImage(img, p)
  {
    img.depth[Index(img, p)]
  }

  const FOCAL_LENGTH: real := 100.0
  const PRINCIPAL_POINT: real := 0.0

  function Deproject(p: Pixel, depth: real): Vector {
    Vector((p.x as real - PRINCIPAL_POINT) * depth / FOCAL_LENGTH,
           (p.y as real - PRINCIPAL_POINT) * depth / FOCAL_LENGTH, depth)
  }

  // ----- region of interest -----

  function Clamp(v: int, low: int, high: int): int {
    if v < low then low else if high < v then high else v
  }

  /** Half-open on the right and at the bottom. */
  datatype Rect = Rect(minX: int, minY: int, maxX: int, maxY: int)

  predicate InRect(r: Rect, p: Pixel) {
    r.minX <= p.x < r.maxX && r.minY <= p.y < r.maxY
  }

  function Requested(x: int, y: int, width: int, height: int): Rect {
    Rect(x, y, x + width, y + height)
  }

  function Clamped(img: Image, x: int, y: int, width: int, height: int): Rect {
    Rect(Clamp(x, 0, img.width), Clamp(y, 0, img.height),
         Clamp(x + width, 0, img.width), Clamp(y + height, 0, img.height))
  }

  /** Samples of row y from minX up to x. */
  function RowSamples(img: Image, minX: int, x: int, y: int): seq<Sample>
    requires ImageOk(img) && 0 <= minX <= x <= img.width && 0 <= y < img.height
    decreases x - minX
  {
    if x == minX then []
    else
      var p := Pixel(x - 1, y);
      RowSamples(img, minX, x - 1, y) + if DepthAt(img, p) > 0.0 then [Sample(DepthAt(img, p), p)] else []
  }

  ghost predicate RectOk(img: Image, r: Rect) {
    0 <= r.minX <= r.maxX <= img.width && 0 <= r.minY <= r.maxY <= img.height
  }

  /** Samples of the rectangle's rows before y. */
  function RectSamples(img: Image, r: Rect, y: int): seq<Sample>
    requires ImageOk(img) && RectOk(img, r) && r.minY <= y <= r.maxY
    decreases y - r.minY
  {
    if y == r.minY then []
    else RectSamples(img, r, y - 1) + RowSamples(img, r.minX, r.maxX, y - 1)
  }

  function SumDepth(s: seq<Sample>): real
    decreases |s|
  {
    if s == [] then 0.0 else SumDepth(s[..|s| - 1]) + s[|s| - 1].depth
  }

  ghost predicate Ascending(s: seq<Sample>) {
    forall i, j :: 0 <= i < j < |s| ==> s[i].depth <= s[j].depth
  }

  /** Any outcome of a sort by depth; equal depths may come in any order. */
  ghost predicate SortOf(p: seq<Sample>, s: seq<Sample>) {
    Ascending(p) && multiset(p) == multiset(s)
  }

  function Insert(s: seq<Sample>, x: Sample): seq<Sample> {
    if s == [] then [x]
    else if x.depth < s[0].depth then [x] + s
    else [s[0]] + Insert(s[1..], x)
  }

  lemma {:induction false} InsertAscends(s: seq<Sample>, x: Sample)
    requires Ascending(s)
    ensures Ascending(Insert(s, x))
    ensures Insert(s, x)[0] == x || (s != [] && Insert(s, x)[0] == s[0])
    decreases |s|
  {
    if s != [] && !(x.depth < s[0].depth) {
      InsertAscends(s[1..], x);
    }
  }

  lemma {:induction false} InsertKeepsAll(s: seq<Sample>, x: Sample)
    ensures multiset(Insert(s, x)) == multiset(s) + multiset{x}
    decreases |s|
  {
    if s != [] {
      assert s == [s[0]] + s[1..];
      if !(x.depth < s[0].depth) {
        InsertKeepsAll(s[1..], x);
      }
    }
  }

  method SortSamples(s: seq<Sample>) returns (p: seq<Sample>)
    ensures SortOf(p, s)
  {
    p := [];
    var i := 0;
    while i < |s|
      invariant 0 <= i <= |s| && SortOf(p, s[..i])
    {
      InsertAscends(p, s[i]);
      InsertKeepsAll(p, s[i]);
      assert s[..i + 1] == s[..i] + [s[i]];
      p := Insert(p, s[i]);
      i := i + 1;
    }
    assert s[..|s|] == s;
  }

  datatype RoiDepth = RoiDepth(
    clamped: Rect,
    pixelCount: int,
    validCount: nat,
    fillRate: real,
    valid: bool,
    min: real,
    max: real,
    mean: real,
    median: real,
    medianPixel: Pixel,
    medianPoint: Vector)

  /** The statistics, from the samples and the order p the sort left them in. */
  ghost predicate StatisticsOf(r: RoiDepth, s: seq<Sample>, p: seq<Sample>) {
    && SortOf(p, s) && |p| == |s| > 0
    && r.min == p[0].depth && r.max == p[|p| - 1].depth
    && r.mean == SumDepth(s) / (|s| as real)
    && r.median == p[|p| / 2].depth && r.medianPixel == p[|p| / 2].pixel
    && r.medianPoint == Deproject(r.medianPixel, r.median)
  }

  ghost predicate RoiAnswer(img: Image, c: Rect, r: RoiDepth)
    requires ImageOk(img) && RectOk(img, c)
  {
    var s := RectSamples(img, c, c.maxY);
    && r.clamped == c
    && r.pixelCount == (c.maxX - c.minX) * (c.maxY - c.minY)
    && r.validCount == |s|
    && (r.pixelCount != 0 ==> r.fillRate == (|s| as real) / (r.pixelCount as real))
    && (r.pixelCount == 0 ==> r.fillRate == 0.0)
    && (r.valid <==> s != [])
    && (r.valid ==> exists p :: StatisticsOf(r, s, p))
  }

  method CollectRow(img: Image, c: Rect, y: int, before: seq<Sample>, sumBefore: real) returns (samples: seq<Sample>, sum: real)
    requires ImageOk(img) && RectOk(img, c) && c.minY <= y < c.maxY && sumBefore == SumDepth(before)
    ensures samples == before + RowSamples(img, c.minX, c.maxX, y) && sum == SumDepth(samples)
  {
    samples, sum := before, sumBefore;
    var x := c.minX;
    while x < c.maxX
      invariant c.minX <= x <= c.maxX
      invariant samples == before + RowSamples(img, c.minX, x, y) && sum == SumDepth(samples)
    {
      IndexInBounds(img.width, img.height, x, y);
      var depth := img.depth[y * img.width + x];
      assert depth == DepthAt(img, Pixel(x, y));
      if depth > 0.0 {
        ghost var was := samples;
        samples := samples + [Sample(depth, Pixel(x, y))];
        assert samples[..|samples| - 1] == was;
        sum := sum + depth;
      }
      x := x + 1;
    }
  }

  lemma ClampedIsOk(img: Image, x: int, y: int, width: int, height: int)
    requires ImageOk(img) && width > 0 && height > 0
    ensures RectOk(img, Clamped(img, x, y, width, height))
  {
  }

  method Statistics(c: Rect, count: int, rate: real, samples: seq<Sample>, sum: real) returns (r: RoiDepth)
    requires samples != [] && sum == SumDepth(samples)
    ensures r.clamped == c && r.pixelCount == count && r.validCount == |samples| && r.fillRate == rate && r.valid
    ensures exists p :: StatisticsOf(r, samples, p)
  {
    var p := SortSamples(samples);
    assert |p| == |multiset(p)| == |multiset(samples)| == |samples|;
    var median := p[|p| / 2];
    r := RoiDepth(c, count, |samples|, rate, true, p[0].depth, p[|p| - 1].depth,
                  sum / (|samples| as real), median.depth, median.pixel, Deproject(median.pixel, median.depth));
    assert StatisticsOf(r, samples, p);
  }

  method QueryDepthInRoi(img: Image, x: int, y: int, width: int, height: int) returns (r: Option<RoiDepth>)
    requires ImageOk(img)
    ensures r.None? <==> width <= 0 || height <= 0
    ensures r.Some? ==>
              var c := Clamped(img, x, y, width, height);
              RectOk(img, c) && RoiAnswer(img, c, r.value)
  {
    if width <= 0 || height <= 0 { return None; }
    var c := Clamped(img, x, y, width, height);
    ClampedIsOk(img, x, y, width, height);
    hide ImageOk, Clamped, StatisticsOf, RowSamples;
    var count := (c.maxX - c.minX) * (c.maxY - c.minY);
    var samples: seq<Sample>, sum := [], 0.0;
    var row := c.minY;
    while row < c.maxY
      invariant c.minY <= row <= c.maxY
      invariant samples == RectSamples(img, c, row) && sum == SumDepth(samples)
    {
      samples, sum := CollectRow(img, c, row, samples, sum);
      row := row + 1;
    }
    hide RectSamples;
    var rate := if count == 0 then 0.0 else (|samples| as real) / (count as real);
    var found := RoiDepth(c, count, 0, rate, false, 0.0, 0.0, 0.0, 0.0, Pixel(0, 0), Vector(0.0, 0.0, 0.0));
    if samples != [] {
      found := Statistics(c, count, rate, samples, sum);
    }
    return Some(found);
  }

  // ----- point cloud -----

  /** Grid columns (or rows) at this stride. */
  function CeilDiv(n: int, stride: int): int
    requires stride > 0
  {
    (n + stride - 1) / stride
  }

  function CountSampleSlots(width: int, height: int, stride: int): int
    requires stride > 0
  {
    CeilDiv(width, stride) * CeilDiv(height, stride)
  }

  lemma DivisionBounds(a: int, b: int)
    requires b > 0
    ensures a / b * b <= a < a / b * b + b
  {
    assert a == a / b * b + a % b;
  }

  lemma TimesMonotone(a: int, b: int, k: int)
    requires a <= b && k > 0
    ensures a * k <= b * k
  {
  }

  lemma TimesNext(a: int, k: int)
    ensures (a + 1) * k == a * k + k
  {
  }

  lemma CeilDivIs(n: int, stride: int, i: int)
    requires stride > 0 && n > 0
    ensures i < CeilDiv(n, stride) <==> i * stride < n
    ensures CeilDiv(n, stride) > 0
  {
    var q := CeilDiv(n, stride);
    DivisionBounds(n + stride - 1, stride);
    assert q * stride <= n + stride - 1 < q * stride + stride;
    hide CeilDiv;
    if i < q {
      TimesMonotone(i + 1, q, stride);
      TimesNext(i, stride);
    } else {
      TimesMonotone(q, i, stride);
    }
    if q <= 0 {
      TimesMonotone(q, 0, stride);
    }
  }

  lemma CeilDivAntitone(n: int, a: int, b: int)
    requires n > 0 && 0 < a <= b
    ensures CeilDiv(n, b) <= CeilDiv(n, a)
  {
    var i := CeilDiv(n, b) - 1;
    CeilDivIs(n, b, i);
    if 0 <= i { assert i * a <= i * b; }
    CeilDivIs(n, a, i);
  }

  lemma CeilDivOne(n: int, stride: int)
    requires n > 0 && stride >= n
    ensures CeilDiv(n, stride) == 1
  {
    CeilDivIs(n, stride, 0);
    CeilDivIs(n, stride, 1);
  }

  /** A larger stride never needs more slots, and a stride of the image size needs one. */
  lemma SlotsShrink(width: int, height: int, a: int, b: int)
    requires width > 0 && height > 0 && 0 < a <= b
    ensures 1 <= CountSampleSlots(width, height, b) <= CountSampleSlots(width, height, a)
    ensures b >= width && b >= height ==> CountSampleSlots(width, height, b) == 1
  {
    CeilDivAntitone(width, a, b);
    CeilDivAntitone(height, a, b);
    CeilDivIs(width, b, 0);
    CeilDivIs(height, b, 0);
    ProductMonotone(CeilDiv(width, b), CeilDiv(width, a), CeilDiv(height, b), CeilDiv(height, a));
    if b >= width && b >= height {
      CeilDivOne(width, b);
      CeilDivOne(height, b);
    }
  }

  lemma ProductMonotone(a: int, b: int, c: int, d: int)
    requires 1 <= a <= b && 1 <= c <= d
    ensures 1 <= a * c <= b * d
  {
    TimesMonotone(1, a, c);
    TimesMonotone(a, b, c);
    TimesMonotone(c, d, b);
  }

  /** The least stride from the requested one on whose grid fits. */
  method FindStride(width: int, height: int, maxPoints: nat, requested: int) returns (stride: int)
    requires width > 0 && height > 0 && maxPoints > 0 && requested > 0
    ensures stride >= requested && CountSampleSlots(width, height, stride) <= maxPoints
    ensures forall s :: requested <= s < stride ==> CountSampleSlots(width, height, s) > maxPoints
    ensures stride <= requested || stride <= width || stride <= height
  {
    hide CountSampleSlots;
    stride := requested;
    while CountSampleSlots(width, height, stride) > maxPoints
      invariant stride >= requested
      invariant forall s :: requested <= s < stride ==> CountSampleSlots(width, height, s) > maxPoints
      invariant stride <= requested || stride <= width || stride <= height
      decreases width + height - stride
    {
      SlotsShrink(width, height, stride, stride);
      stride := stride + 1;
    }
  }

  /** The pixels the nested loops visit, row by row. */
  function Visits(width: int, height: int, stride: int): (v: seq<Pixel>)
    requires width > 0 && height > 0 && stride > 0
    ensures |v| == CountSampleSlots(width, height, stride)
  {
    CeilDivIs(width, stride, 0);
    CeilDivIs(height, stride, 0);
    SlotsShrink(width, height, stride, stride);
    var columns := CeilDiv(width, stride);
    seq(CountSampleSlots(width, height, stride), k => Pixel(k % columns * stride, k / columns * stride))
  }

  lemma MultipleBound(d: int, n: int)
    requires d >= 1 && n > 0
    ensures d * n >= n
  {
  }

  lemma DivideBack(columns: int, j: int, i: int)
    requires 0 <= i < columns && 0 <= j
    ensures (j * columns + i) / columns == j && (j * columns + i) % columns == i
  {
    var k := j * columns + i;
    var q, r := k / columns, k % columns;
    QuotientIsUnique(columns, q, r, j, i);
  }

  lemma QuotientIsUnique(n: int, q: int, r: int, j: int, i: int)
    requires n > 0 && q * n + r == j * n + i && 0 <= r < n && 0 <= i < n
    ensures q == j && r == i
  {
    assert (q - j) * n == i - r;
    if q > j {
      MultipleBound(q - j, n);
    } else if q < j {
      assert (j - q) * n == r - i;
      MultipleBound(j - q, n);
    }
  }

  lemma SplitIndex(columns: int, rows: int, k: int)
    requires 0 < columns && 0 <= k < columns * rows
    ensures k == k / columns * columns + k % columns && 0 <= k % columns < columns && 0 <= k / columns < rows
  {
  }

  lemma VisitAt(width: int, height: int, stride: int, j: int, i: int)
    requires width > 0 && height > 0 && stride > 0
    requires 0 <= i < CeilDiv(width, stride) && 0 <= j < CeilDiv(height, stride)
    ensures 0 <= j * CeilDiv(width, stride) + i < CountSampleSlots(width, height, stride)
    ensures Visits(width, height, stride)[j * CeilDiv(width, stride) + i] == Pixel(i * stride, j * stride)
    ensures 0 <= i * stride < width && 0 <= j * stride < height
  {
    DivideBack(CeilDiv(width, stride), j, i);
    IndexInBounds(CeilDiv(width, stride), CeilDiv(height, stride), i, j);
    CeilDivIs(width, stride, i);
    CeilDivIs(height, stride, j);
  }

  /** Every visited pixel lies in the image. */
  lemma VisitInBounds(width: int, height: int, stride: int, k: nat)
    requires width > 0 && height > 0 && stride > 0 && k < CountSampleSlots(width, height, stride)
    ensures var p := Visits(width, height, stride)[k]; 0 <= p.x < width && 0 <= p.y < height
  {
    var columns, rows := CeilDiv(width, stride), CeilDiv(height, stride);
    CeilDivIs(width, stride, 0);
    SplitIndex(columns, rows, k);
    hide Visits, CeilDiv, CountSampleSlots;
    VisitAt(width, height, stride, k / columns, k % columns);
  }

  predicate OnGrid(width: int, height: int, stride: int, p: Pixel)
    requires stride > 0
  {
    0 <= p.x < width && 0 <= p.y < height && p.x % stride == 0 && p.y % stride == 0
  }

  lemma VisitOnGrid(width: int, height: int, stride: int, k: nat)
    requires width > 0 && height > 0 && stride > 0 && k < CountSampleSlots(width, height, stride)
    ensures OnGrid(width, height, stride, Visits(width, height, stride)[k])
  {
    var columns := CeilDiv(width, stride);
    VisitInBounds(width, height, stride, k);
    CeilDivIs(width, stride, 0);
    SplitIndex(columns, CeilDiv(height, stride), k);
    assert Visits(width, height, stride)[k] == Pixel(k % columns * stride, k / columns * stride);
    hide Visits, CeilDiv, CountSampleSlots;
    DivideBack(stride, k % columns, 0);
    DivideBack(stride, k / columns, 0);
  }

  lemma GridIsVisited(width: int, height: int, stride: int, p: Pixel)
    requires width > 0 && height > 0 && stride > 0 && OnGrid(width, height, stride, p)
    ensures p in Visits(width, height, stride)
  {
    hide Visits, CeilDiv, CountSampleSlots;
    var i, j := p.x / stride, p.y / stride;
    assert p == Pixel(i * stride, j * stride);
    CeilDivIs(width, stride, i);
    CeilDivIs(height, stride, j);
    VisitAt(width, height, stride, j, i);
  }

  /** The visited pixels are exactly the image pixels whose coordinates are multiples of the stride. */
  lemma VisitsAreTheGrid(width: int, height: int, stride: int, p: Pixel)
    requires width > 0 && height > 0 && stride > 0
    ensures p in Visits(width, height, stride) <==> OnGrid(width, height, stride, p)
  {
    hide OnGrid, Visits, CountSampleSlots;
    if p in Visits(width, height, stride) {
      var k: nat :| k < |Visits(width, height, stride)| && Visits(width, height, stride)[k] == p;
      VisitOnGrid(width, height, stride, k);
    } else if OnGrid(width, height, stride, p) {
      GridIsVisited(width, height, stride, p);
    }
  }

  datatype CloudPoint = CloudPoint(position: Vector, red: int, green: int, blue: int)

  function PointAt(img: Image, p: Pixel): CloudPoint
    requires ImageOk(img) && InImage(img, p)
  {
    var c := 3 * Index(img, p);
    CloudPoint(Deproject(p, DepthAt(img, p)), img.color[c], img.color[c + 1], img.color[c + 2])
  }

  /** One point per visited pixel with positive depth, in order. */
  function CloudOf(img: Image, visits: seq<Pixel>): (points: seq<CloudPoint>)
    requires ImageOk(img) && forall k :: 0 <= k < |visits| ==> InImage(img, visits[k])
    ensures |points| <= |visits|
    decreases |visits|
  {
    if visits == [] then []
    else
      var p := visits[|visits| - 1];
      CloudOf(img, visits[..|visits| - 1]) + if DepthAt(img, p) <= 0.0 then [] else [PointAt(img, p)]
  }

  datatype Cloud = Cloud(requestedStride: int, stride: int, points: seq<CloudPoint>)

  lemma VisitsInImage(img: Image, stride: int)
    requires ImageOk(img) && stride > 0
    ensures forall k :: 0 <= k < |Visits(img.width, img.height, stride)| ==> InImage(img, Visits(img.width, img.height, stride)[k])
  {
    forall k | 0 <= k < |Visits(img.width, img.height, stride)|
      ensures InImage(img, Visits(img.width, img.height, stride)[k])
    {
      VisitInBounds(img.width, img.height, stride, k);
    }
  }

  method BuildPointCloud(img: Image, maxPoints: nat, requested: int) returns (r: Option<Cloud>)
    requires ImageOk(img)
    ensures r.None? <==> maxPoints == 0 || requested <= 0
    ensures r.Some? ==>
              && r.value.requestedStride == requested
              && r.value.stride >= requested > 0
              && CountSampleSlots(img.width, img.height, r.value.stride) <= maxPoints
              && (forall s :: requested <= s < r.value.stride ==> CountSampleSlots(img.width, img.height, s) > maxPoints)
              && (forall p | p in Visits(img.width, img.height, r.value.stride) :: InImage(img, p))
              && r.value.points == CloudOf(img, Visits(img.width, img.height, r.value.stride))
              && |r.value.points| <= maxPoints
  {
    if maxPoints == 0 || requested <= 0 { return None; }
    var stride := FindStride(img.width, img.height, maxPoints, requested);
    VisitsInImage(img, stride);
    ghost var visits := Visits(img.width, img.height, stride);
    ghost var columns, rows := CeilDiv(img.width, stride), CeilDiv(img.height, stride);
    var points: seq<CloudPoint> := [];
    var y := 0;
    ghost var j := 0;
    while y < img.height
      invariant 0 <= j <= rows && y == j * stride
      invariant 0 <= j * columns <= |visits| && points == CloudOf(img, visits[..j * columns])
      decreases rows - j
    {
      CeilDivIs(img.height, stride, j);
      points := CollectGridRow(img, stride, y, j, points);
      y := y + stride;
      j := j + 1;
      assert j * columns == (j - 1) * columns + columns && j * columns <= rows * columns by {
        ProductAtMost(j, rows, columns);
      }
    }
    CeilDivIs(img.height, stride, j);
    assert j == rows && visits[..rows * columns] == visits;
    return Some(Cloud(requested, stride, points));
  }

  lemma ProductAtMost(j: int, rows: int, columns: int)
    requires j <= rows && columns >= 0
    ensures j * columns <= rows * columns
  {
  }

  lemma CloudStep(img: Image, visits: seq<Pixel>, n: nat)
    requires ImageOk(img) && n < |visits| && forall k :: 0 <= k < |visits| ==> InImage(img, visits[k])
    ensures CloudOf(img, visits[..n + 1]) ==
            CloudOf(img, visits[..n]) + if DepthAt(img, visits[n]) <= 0.0 then [] else [PointAt(img, visits[n])]
  {
    assert visits[..n + 1][..n] == visits[..n];
  }

  /** One pass of the inner loop. */
  method CollectGridRow(img: Image, stride: int, y: int, ghost j: int, before: seq<CloudPoint>) returns (points: seq<CloudPoint>)
    requires ImageOk(img) && stride > 0 && 0 <= j < CeilDiv(img.height, stride) && y == j * stride
    requires forall k :: 0 <= k < |Visits(img.width, img.height, stride)| ==> InImage(img, Visits(img.width, img.height, stride)[k])
    requires 0 <= j * CeilDiv(img.width, stride) <= |Visits(img.width, img.height, stride)|
    requires before == CloudOf(img, Visits(img.width, img.height, stride)[..j * CeilDiv(img.width, stride)])
    ensures 0 <= (j + 1) * CeilDiv(img.width, stride) <= |Visits(img.width, img.height, stride)|
    ensures points == CloudOf(img, Visits(img.width, img.height, stride)[..(j + 1) * CeilDiv(img.width, stride)])
  {
    hide Visits, CountSampleSlots, PointAt, DepthAt, CeilDiv, CloudOf;
    ghost var visits, columns := Visits(img.width, img.height, stride), CeilDiv(img.width, stride);
    ghost var first := j * columns;
    points := before;
    CeilDivIs(img.width, stride, 0);
    RowFits(img, stride, j);
    var x := 0;
    ghost var i := 0;
    while x < img.width
      invariant 0 <= i <= columns && x == i * stride
      invariant points == CloudOf(img, visits[..first + i])
      decreases columns - i
    {
      CeilDivIs(img.width, stride, i);
      VisitAt(img.width, img.height, stride, j, i);
      var p := Pixel(x, y);
      assert visits[first + i] == p && InImage(img, p);
      CloudStep(img, visits, first + i);
      if !(DepthAt(img, p) <= 0.0) {
        points := points + [PointAt(img, p)];
      }
      x := x + stride;
      i := i + 1;
    }
    CeilDivIs(img.width, stride, i);
    assert first + columns == (j + 1) * columns;
  }

  lemma RowFits(img: Image, stride: int, j: int)
    requires ImageOk(img) && stride > 0 && 0 <= j < CeilDiv(img.height, stride)
    ensures 0 <= j * CeilDiv(img.width, stride)
    ensures j * CeilDiv(img.width, stride) + CeilDiv(img.width, stride) == (j + 1) * CeilDiv(img.width, stride)
            <= |Visits(img.width, img.height, stride)|
  {
    CeilDivIs(img.width, stride, 0);
    ProductAtMost(j + 1, CeilDiv(img.height, stride), CeilDiv(img.width, stride));
    ProductAtMost(0, j, CeilDiv(img.width, stride));
  }
}
