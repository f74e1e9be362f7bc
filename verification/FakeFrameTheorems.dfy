/** What the answers of the fake frame mean, in terms of its pixels. */
module FakeFrameTheorems {
  import opened Wrappers
  import opened FakeFrame

  // ----- the clamped region -----

  /** For a positive size the clamped region is the intersection with the image. */
  lemma ClampedIsTheIntersection(img: Image, x: int, y: int, width: int, height: int, p: Pixel)
    requires ImageOk(img) && width > 0 && height > 0
    ensures InRect(Clamped(img, x, y, width, height), p) <==> InRect(Requested(x, y, width, height), p) && InImage(img, p)
  {
  }

  /** The check of the application before a query. */
  predicate IsRoiRequestValid(x: int, y: int, width: int, height: int, frameWidth: int, frameHeight: int) {
    && x >= 0 && y >= 0 && width > 0 && height > 0 && x < frameWidth && y < frameHeight
    && width * height <= frameWidth * frameHeight
  }

  const INT_MAX: int := 0x7fff_ffff

  /**
   Every request the application admits, on any frame the configuration allows: the additions of
   the query stay within 32 bits and the clamped region is not empty.
   */
  lemma AdmittedRequestsAreSafe(img: Image, x: int, y: int, width: int, height: int)
    requires ImageOk(img) && img.width <= 4096 && img.height <= 4096
    requires IsRoiRequestValid(x, y, width, height, img.width, img.height)
    ensures x + width <= INT_MAX && y + height <= INT_MAX
    ensures var c := Clamped(img, x, y, width, height);
            InRect(c, Pixel(x, y)) && (c.maxX - c.minX) * (c.maxY - c.minY) > 0
  {
    ProductMonotone(img.width, 4096, img.height, 4096);
    ProductMonotone(width, width, 1, height);
    ProductMonotone(1, width, height, height);
    var c := Clamped(img, x, y, width, height);
    ProductMonotone(1, c.maxX - c.minX, 1, c.maxY - c.minY);
  }

  // ----- samples are pixels -----

  ghost function RowPixels(minX: int, x: int, y: int): set<Pixel> {
    set i: int | minX <= i < x :: Pixel(i, y)
  }

  ghost function RectPixels(r: Rect, y: int): set<Pixel> {
    set i: int, j: int | r.minX <= i < r.maxX && r.minY <= j < y :: Pixel(i, j)
  }

  ghost function Positive(img: Image, pixels: set<Pixel>): set<Pixel>
    requires ImageOk(img) && forall p | p in pixels :: InImage(img, p)
  {
    set p | p in pixels && DepthAt(img, p) > 0.0
  }

  ghost predicate SamplesMatch(img: Image, s: seq<Sample>, pixels: set<Pixel>)
    requires ImageOk(img) && forall p | p in pixels :: InImage(img, p)
  {
    && |s| == |Positive(img, pixels)|
    && (forall p | p in Positive(img, pixels) :: Sample(DepthAt(img, p), p) in s)
    && (forall t | t in s :: t.pixel in Positive(img, pixels) && t.depth == DepthAt(img, t.pixel))
  }

  /** Disjoint pieces that match, match together. */
  lemma MatchTogether(img: Image, s: seq<Sample>, a: set<Pixel>, t: seq<Sample>, b: set<Pixel>)
    requires ImageOk(img) && (forall p | p in a + b :: InImage(img, p)) && a !! b
    requires SamplesMatch(img, s, a) && SamplesMatch(img, t, b)
    ensures SamplesMatch(img, s + t, a + b)
  {
    assert Positive(img, a + b) == Positive(img, a) + Positive(img, b);
    assert Positive(img, a) !! Positive(img, b);
  }

  lemma OnePixel(img: Image, p: Pixel)
    requires ImageOk(img) && InImage(img, p)
    ensures SamplesMatch(img, if DepthAt(img, p) > 0.0 then [Sample(DepthAt(img, p), p)] else [], {p})
  {
    assert Positive(img, {p}) == if DepthAt(img, p) > 0.0 then {p} else {};
  }

  lemma {:induction false} RowMatches(img: Image, minX: int, x: int, y: int)
    requires ImageOk(img) && 0 <= minX <= x <= img.width && 0 <= y < img.height
    ensures SamplesMatch(img, RowSamples(img, minX, x, y), RowPixels(minX, x, y))
    decreases x - minX
  {
    hide SamplesMatch, DepthAt;
    if x == minX {
      assert RowPixels(minX, x, y) == {};
      NoPixels(img);
    } else {
      var p := Pixel(x - 1, y);
      RowMatches(img, minX, x - 1, y);
      OnePixel(img, p);
      assert RowPixels(minX, x, y) == RowPixels(minX, x - 1, y) + {p};
      MatchTogether(img, RowSamples(img, minX, x - 1, y), RowPixels(minX, x - 1, y),
                    if DepthAt(img, p) > 0.0 then [Sample(DepthAt(img, p), p)] else [], {p});
    }
  }

  lemma NoPixels(img: Image)
    requires ImageOk(img)
    ensures SamplesMatch(img, [], {})
  {
    assert Positive(img, {}) == {};
  }

  lemma RectGrows(r: Rect, y: int)
    requires r.minX <= r.maxX && r.minY < y
    ensures RectPixels(r, y) == RectPixels(r, y - 1) + RowPixels(r.minX, r.maxX, y - 1)
    ensures RectPixels(r, y - 1) !! RowPixels(r.minX, r.maxX, y - 1)
  {
  }

  lemma {:induction false} RectMatches(img: Image, r: Rect, y: int)
    requires ImageOk(img) && RectOk(img, r) && r.minY <= y <= r.maxY
    ensures SamplesMatch(img, RectSamples(img, r, y), RectPixels(r, y))
    decreases y - r.minY
  {
    hide SamplesMatch, DepthAt, RowSamples;
    if y == r.minY {
      assert RectPixels(r, y) == {};
      NoPixels(img);
    } else {
      RectMatches(img, r, y - 1);
      RowMatches(img, r.minX, r.maxX, y - 1);
      RectGrows(r, y);
      RectInImage(img, r, y);
      hide RectPixels, RowPixels, ImageOk, RectOk, InImage;
      MatchTogether(img, RectSamples(img, r, y - 1), RectPixels(r, y - 1),
                    RowSamples(img, r.minX, r.maxX, y - 1), RowPixels(r.minX, r.maxX, y - 1));
    }
  }

  lemma RectInImage(img: Image, r: Rect, y: int)
    requires ImageOk(img) && RectOk(img, r) && r.minY <= y <= r.maxY
    ensures forall p | p in RectPixels(r, y) :: InImage(img, p)
  {
  }

  function Area(width: int, rows: int): int {
    width * rows
  }

  lemma AreaByRows(width: int, rows: int)
    ensures Area(width, 0) == 0 && Area(width, rows + 1) == Area(width, rows) + width
  {
  }

  lemma {:induction false} RectArea(r: Rect, y: int)
    requires r.minX <= r.maxX && r.minY <= y
    ensures |RectPixels(r, y)| == Area(r.maxX - r.minX, y - r.minY)
    decreases y - r.minY
  {
    hide Area;
    if y == r.minY {
      assert RectPixels(r, y) == {};
      AreaByRows(r.maxX - r.minX, 0);
    } else {
      RectArea(r, y - 1);
      RowArea(r.minX, r.maxX, y - 1);
      RectGrows(r, y);
      hide RectPixels, RowPixels;
      AreaByRows(r.maxX - r.minX, y - 1 - r.minY);
    }
  }

  lemma {:induction false} RowArea(minX: int, x: int, y: int)
    requires minX <= x
    ensures |RowPixels(minX, x, y)| == x - minX
    decreases x - minX
  {
    if x == minX {
      assert RowPixels(minX, x, y) == {};
    } else {
      RowArea(minX, x - 1, y);
      assert RowPixels(minX, x, y) == RowPixels(minX, x - 1, y) + {Pixel(x - 1, y)};
    }
  }

  // ----- order statistics -----

  /** How many samples are nearer than d, or (not strict) not farther. */
  function Count(s: seq<Sample>, d: real, strict: bool): nat {
    if s == [] then 0
    else (if s[0].depth < d || (!strict && s[0].depth == d) then 1 else 0) + Count(s[1..], d, strict)
  }

  lemma {:induction false} CountJoin(a: seq<Sample>, b: seq<Sample>, d: real, strict: bool)
    ensures Count(a + b, d, strict) == Count(a, d, strict) + Count(b, d, strict)
    decreases |a|
  {
    if a == [] {
      assert a + b == b;
    } else {
      assert (a + b)[1..] == a[1..] + b;
      CountJoin(a[1..], b, d, strict);
    }
  }

  lemma CancelOne(a: multiset<Sample>, b: multiset<Sample>, x: Sample)
    requires a + multiset{x} == b + multiset{x}
    ensures a == b
  {
    assert a == (a + multiset{x}) - multiset{x};
    assert b == (b + multiset{x}) - multiset{x};
  }

  lemma WithoutFirst(p: seq<Sample>, s: seq<Sample>, i: nat)
    requires multiset(p) == multiset(s) && p != [] && i < |s| && s[i] == p[0]
    ensures multiset(p[1..]) == multiset(s[..i] + s[i + 1..])
  {
    var x, rest := p[0], s[..i] + s[i + 1..];
    assert p == [x] + p[1..];
    assert multiset(p) == multiset(p[1..]) + multiset{x};
    assert s == s[..i] + ([x] + s[i + 1..]);
    assert multiset(s) == multiset(s[..i]) + multiset([x] + s[i + 1..]);
    assert multiset([x] + s[i + 1..]) == multiset{x} + multiset(s[i + 1..]);
    assert multiset(s) == multiset(rest) + multiset{x};
    CancelOne(multiset(p[1..]), multiset(rest), x);
  }

  /** Counts do not depend on the order. */
  lemma {:induction false} CountOfPermutation(p: seq<Sample>, s: seq<Sample>, d: real, strict: bool)
    requires multiset(p) == multiset(s)
    ensures Count(p, d, strict) == Count(s, d, strict)
    decreases |p|
  {
    if p == [] {
      assert |multiset(s)| == 0;
    } else {
      var x := p[0];
      assert x in multiset(s);
      var i :| 0 <= i < |s| && s[i] == x;
      var rest := s[..i] + s[i + 1..];
      assert s == s[..i] + [x] + s[i + 1..];
      WithoutFirst(p, s, i);
      CountOfPermutation(p[1..], rest, d, strict);
      CountJoin(s[..i], s[i + 1..], d, strict);
      CountJoin(s[..i] + [x], s[i + 1..], d, strict);
      CountJoin(s[..i], [x], d, strict);
    }
  }

  lemma {:induction false} CountBound(s: seq<Sample>, d: real, strict: bool)
    ensures Count(s, d, strict) <= |s|
    ensures (forall i :: 0 <= i < |s| ==> s[i].depth <= d) ==> Count(s, d, false) == |s|
    ensures (forall i :: 0 <= i < |s| ==> d <= s[i].depth) ==> Count(s, d, true) == 0
    decreases |s|
  {
    if s != [] {
      CountBound(s[1..], d, strict);
      assert forall i :: 0 <= i < |s[1..]| ==> s[1..][i] == s[i + 1];
    }
  }

  /** In an ascending order, element k has at most k samples below it and more than k not above it. */
  lemma RankInOrder(p: seq<Sample>, k: nat)
    requires Ascending(p) && k < |p|
    ensures Count(p, p[k].depth, true) <= k < Count(p, p[k].depth, false)
  {
    NotAbove(p, k);
    Below(p, k);
  }

  lemma NotAbove(p: seq<Sample>, k: nat)
    requires Ascending(p) && k < |p|
    ensures k < Count(p, p[k].depth, false)
  {
    hide Count;
    var d, low, high := p[k].depth, p[..k + 1], p[k + 1..];
    assert p == low + high;
    CountJoin(low, high, d, false);
    CountBound(low, d, false);
  }

  lemma Below(p: seq<Sample>, k: nat)
    requires Ascending(p) && k < |p|
    ensures Count(p, p[k].depth, true) <= k
  {
    hide Count;
    var d, low, high := p[k].depth, p[..k], p[k..];
    assert p == low + high;
    CountJoin(low, high, d, true);
    CountBound(low, d, true);
    CountBound(high, d, true);
  }

  // ----- sums -----

  lemma {:induction false} SumBounds(s: seq<Sample>, low: real, high: real)
    requires forall i :: 0 <= i < |s| ==> low <= s[i].depth <= high
    ensures low * (|s| as real) <= SumDepth(s) <= high * (|s| as real)
    decreases |s|
  {
    if s != [] {
      var before, d := s[..|s| - 1], s[|s| - 1].depth;
      SumBounds(before, low, high);
      OneMore(low, high, |before|, SumDepth(before), d);
    }
  }

  lemma OneMore(low: real, high: real, n: nat, sum: real, d: real)
    requires low * (n as real) <= sum <= high * (n as real) && low <= d <= high
    ensures low * ((n + 1) as real) <= sum + d <= high * ((n + 1) as real)
  {
    var m := n as real;
    assert (n + 1) as real == m + 1.0;
    assert low * (m + 1.0) == low * m + low && high * (m + 1.0) == high * m + high;
  }

  lemma MeanBounds(sum: real, n: real, low: real, high: real)
    requires n > 0.0 && low * n <= sum <= high * n
    ensures low <= sum / n <= high
  {
    var mean := sum / n;
    assert mean * n == sum;
    assert (mean - low) * n >= 0.0 && (high - mean) * n >= 0.0;
  }

  // ----- main results -----

  /**
   The counts of an answer: the pixels of the intersection, and those among them with positive
   depth; an answer is valid exactly when there is one, and the fill rate lies in (0, 1] then.
   */
  lemma RoiCountsPixels(img: Image, c: Rect, r: RoiDepth)
    requires ImageOk(img) && RectOk(img, c) && RoiAnswer(img, c, r)
    ensures var pixels := RectPixels(c, c.maxY);
            && r.pixelCount == |pixels|
            && r.validCount == |Positive(img, pixels)|
            && (r.valid <==> exists p :: p in pixels && DepthAt(img, p) > 0.0)
            && (r.valid ==> 0.0 < r.fillRate <= 1.0)
  {
    RectMatches(img, c, c.maxY);
    RectArea(c, c.maxY);
    var pixels, s := RectPixels(c, c.maxY), RectSamples(img, c, c.maxY);
    hide RectSamples, DepthAt, RectPixels;
    SubsetCount(Positive(img, pixels), pixels);
    if s != [] {
      assert s[0] in s;
      assert s[0].pixel in pixels && DepthAt(img, s[0].pixel) > 0.0;
      RateBounds(|s| as real, r.pixelCount as real);
    }
  }

  lemma SubsetCount(a: set<Pixel>, b: set<Pixel>)
    requires a <= b
    ensures |a| <= |b|
  {
    assert b == a + (b - a);
  }

  lemma RateBounds(a: real, b: real)
    requires 0.0 < a <= b
    ensures 0.0 < a / b <= 1.0
  {
  }

  /**
   A valid answer, over exact reals: minimum and maximum are the extreme positive depths of the
   region, the median is attained at its pixel and is the upper median whatever order the sort
   leaves ties in, and minimum <= median, mean <= maximum.
   */
  lemma RoiStatisticsAreRight(img: Image, c: Rect, r: RoiDepth)
    requires ImageOk(img) && RectOk(img, c) && RoiAnswer(img, c, r) && r.valid
    ensures var pixels := Positive(img, RectPixels(c, c.maxY));
            var s := RectSamples(img, c, c.maxY);
            && (forall p | p in pixels :: r.min <= DepthAt(img, p) <= r.max)
            && (exists p | p in pixels :: DepthAt(img, p) == r.min)
            && (exists p | p in pixels :: DepthAt(img, p) == r.max)
            && r.medianPixel in pixels && DepthAt(img, r.medianPixel) == r.median
            && Count(s, r.median, true) <= |pixels| / 2 < Count(s, r.median, false)
            && r.min <= r.median <= r.max && r.min <= r.mean <= r.max
  {
    RectMatches(img, c, c.maxY);
    RectInImage(img, c, c.maxY);
    var s := RectSamples(img, c, c.maxY);
    var p: seq<Sample> :| StatisticsOf(r, s, p);
    hide RectSamples, DepthAt, RectPixels, StatisticsOf;
    SortExtremes(r, s, p);
    MedianAndMean(r, s, p);
    var low, high :| low in s && high in s && low.depth == r.min && high.depth == r.max;
    assert DepthAt(img, low.pixel) == r.min && DepthAt(img, high.pixel) == r.max;
  }

  lemma MedianAndMean(r: RoiDepth, s: seq<Sample>, p: seq<Sample>)
    requires StatisticsOf(r, s, p)
    ensures Count(s, r.median, true) <= |s| / 2 < Count(s, r.median, false)
    ensures r.min <= r.mean <= r.max
  {
    hide Count, SumDepth;
    SortExtremes(r, s, p);
    RankInOrder(p, |p| / 2);
    CountOfPermutation(p, s, r.median, true);
    CountOfPermutation(p, s, r.median, false);
    SumBounds(s, r.min, r.max);
    MeanBounds(SumDepth(s), |s| as real, r.min, r.max);
  }

  lemma SortExtremes(r: RoiDepth, s: seq<Sample>, p: seq<Sample>)
    requires StatisticsOf(r, s, p)
    ensures forall t | t in s :: r.min <= t.depth <= r.max
    ensures exists low, high :: low in s && high in s && low.depth == r.min && high.depth == r.max
    ensures Sample(r.median, r.medianPixel) in s
    ensures r.min <= r.median <= r.max
  {
    forall t | t in s ensures r.min <= t.depth <= r.max {
      assert t in multiset(s);
      assert t in multiset(p);
      var i :| 0 <= i < |p| && p[i] == t;
    }
    assert p[0] in multiset(p) && p[|p| - 1] in multiset(p) && p[|p| / 2] in multiset(p);
    assert p[0] in multiset(s) && p[|p| - 1] in multiset(s) && p[|p| / 2] in multiset(s);
  }

  // ----- the cloud -----

  ghost function PixelSet(visits: seq<Pixel>): set<Pixel> {
    set p | p in visits
  }

  ghost predicate Distinct(visits: seq<Pixel>) {
    forall a, b :: 0 <= a < b < |visits| ==> visits[a] != visits[b]
  }

  lemma LastIsNew(visits: seq<Pixel>)
    requires Distinct(visits) && visits != []
    ensures var before, p := visits[..|visits| - 1], visits[|visits| - 1];
            Distinct(before) && p !in PixelSet(before) && PixelSet(visits) == PixelSet(before) + {p}
  {
    var before, p := visits[..|visits| - 1], visits[|visits| - 1];
    assert visits == before + [p];
  }

  lemma {:induction false} DistinctCount(visits: seq<Pixel>)
    requires Distinct(visits)
    ensures |PixelSet(visits)| == |visits|
    decreases |visits|
  {
    if visits != [] {
      LastIsNew(visits);
      DistinctCount(visits[..|visits| - 1]);
    }
  }

  /** No pixel is visited twice. */
  lemma VisitsAreDistinct(width: int, height: int, stride: int)
    requires width > 0 && height > 0 && stride > 0
    ensures Distinct(Visits(width, height, stride))
  {
    var visits, columns := Visits(width, height, stride), CeilDiv(width, stride);
    CeilDivIs(width, stride, 0);
    forall a, b | 0 <= a < b < |visits| ensures visits[a] != visits[b] {
      assert visits[a] == Pixel(a % columns * stride, a / columns * stride);
      assert visits[b] == Pixel(b % columns * stride, b / columns * stride);
      SplitIndex(columns, CeilDiv(height, stride), a);
      SplitIndex(columns, CeilDiv(height, stride), b);
      if visits[a] == visits[b] {
        Unscale(stride, a % columns, b % columns);
        Unscale(stride, a / columns, b / columns);
      }
    }
  }

  lemma Unscale(n: int, a: int, b: int)
    requires n > 0 && a * n == b * n
    ensures a == b
  {
    assert (a - b) * n == 0;
  }

  ghost function GridPixels(width: int, height: int, stride: int): set<Pixel>
    requires stride > 0
  {
    set x: int, y: int | 0 <= x < width && 0 <= y < height && OnGrid(width, height, stride, Pixel(x, y)) :: Pixel(x, y)
  }

  lemma GridIsThePixelSet(width: int, height: int, stride: int)
    requires width > 0 && height > 0 && stride > 0
    ensures PixelSet(Visits(width, height, stride)) == GridPixels(width, height, stride)
  {
    hide Visits;
    var visits, grid := Visits(width, height, stride), GridPixels(width, height, stride);
    forall p: Pixel ensures p in PixelSet(visits) <==> p in grid {
      VisitsAreTheGrid(width, height, stride, p);
      assert p == Pixel(p.x, p.y);
    }
  }

  lemma PositiveMore(img: Image, pixels: set<Pixel>, p: Pixel)
    requires ImageOk(img) && (forall q | q in pixels :: InImage(img, q)) && InImage(img, p) && p !in pixels
    ensures |Positive(img, pixels + {p})| == |Positive(img, pixels)| + if DepthAt(img, p) > 0.0 then 1 else 0
  {
    hide DepthAt, ImageOk, InImage;
    if DepthAt(img, p) > 0.0 {
      assert Positive(img, pixels + {p}) == Positive(img, pixels) + {p};
    } else {
      assert Positive(img, pixels + {p}) == Positive(img, pixels);
    }
  }

  lemma {:induction false} CloudCount(img: Image, visits: seq<Pixel>)
    requires ImageOk(img) && forall k :: 0 <= k < |visits| ==> InImage(img, visits[k])
    requires Distinct(visits)
    ensures |CloudOf(img, visits)| == |Positive(img, PixelSet(visits))|
    decreases |visits|
  {
    hide DepthAt, PointAt, ImageOk, InImage, Distinct;
    if visits == [] {
      assert PixelSet(visits) == {};
    } else {
      hide Positive;
      var before, p := visits[..|visits| - 1], visits[|visits| - 1];
      LastIsNew(visits);
      CloudCount(img, before);
      PositiveMore(img, PixelSet(before), p);
    }
  }

  lemma {:induction false} CloudHolds(img: Image, visits: seq<Pixel>, q: CloudPoint)
    requires ImageOk(img) && forall k :: 0 <= k < |visits| ==> InImage(img, visits[k])
    ensures q in CloudOf(img, visits) <==>
              exists k :: 0 <= k < |visits| && DepthAt(img, visits[k]) > 0.0 && PointAt(img, visits[k]) == q
    decreases |visits|
  {
    hide DepthAt, PointAt;
    if visits != [] {
      var n := |visits| - 1;
      var before := visits[..n];
      CloudHolds(img, before, q);
      assert forall k :: 0 <= k < n ==> before[k] == visits[k];
      if DepthAt(img, visits[n]) > 0.0 && PointAt(img, visits[n]) == q {
        assert q in CloudOf(img, visits);
      }
    }
  }

  /** The cloud that a stride gives. */
  ghost function GridCloud(img: Image, stride: int): seq<CloudPoint>
    requires ImageOk(img) && stride > 0
  {
    VisitsInImage(img, stride);
    CloudOf(img, Visits(img.width, img.height, stride))
  }

  /**
   The cloud at a stride: exactly one point for every pixel of the stride's grid with positive
   depth, and no other point; the grid has as many pixels as the stride has slots.
   */
  lemma CloudCoversTheGrid(img: Image, stride: int)
    requires ImageOk(img) && stride > 0
    ensures var grid, cloud := GridPixels(img.width, img.height, stride), GridCloud(img, stride);
            && |grid| == CountSampleSlots(img.width, img.height, stride)
            && |cloud| == |Positive(img, grid)|
            && (forall p | p in Positive(img, grid) :: PointAt(img, p) in cloud)
            && (forall q | q in cloud :: exists p | p in Positive(img, grid) :: PointAt(img, p) == q)
  {
    hide Visits, CountSampleSlots, DepthAt, PointAt, CloudOf, GridPixels;
    var visits, grid := Visits(img.width, img.height, stride), GridPixels(img.width, img.height, stride);
    VisitsInImage(img, stride);
    VisitsAreDistinct(img.width, img.height, stride);
    GridIsThePixelSet(img.width, img.height, stride);
    DistinctCount(visits);
    CloudCount(img, visits);
    forall p | p in Positive(img, grid) ensures PointAt(img, p) in GridCloud(img, stride) {
      assert p in visits;
      CloudHolds(img, visits, PointAt(img, p));
    }
    forall q | q in GridCloud(img, stride) ensures exists p | p in Positive(img, grid) :: PointAt(img, p) == q {
      CloudHolds(img, visits, q);
      var k :| 0 <= k < |visits| && DepthAt(img, visits[k]) > 0.0 && PointAt(img, visits[k]) == q;
      assert visits[k] in visits && visits[k] in Positive(img, grid);
    }
  }

  /** Projecting the optical point of a pixel gives the pixel back. */
  lemma DeprojectionInverts(p: Pixel, depth: real)
    requires depth > 0.0
    ensures var v := Deproject(p, depth);
            && v.z == depth
            && v.x * FOCAL_LENGTH / v.z + PRINCIPAL_POINT == p.x as real
            && v.y * FOCAL_LENGTH / v.z + PRINCIPAL_POINT == p.y as real
  {
    Cancel(p.x as real, depth);
    Cancel(p.y as real, depth);
  }

  lemma Cancel(x: real, depth: real)
    requires depth > 0.0
    ensures x * depth / FOCAL_LENGTH * FOCAL_LENGTH / depth == x
  {
    assert x * depth / FOCAL_LENGTH * FOCAL_LENGTH == x * depth;
  }
}
