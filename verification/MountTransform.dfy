/**
 The fixed transform from the camera optical frame to the mount frame, over exact reals. An
 angle is the pair of its cosine and sine.
 */
module MountTransform {
  import opened Wrappers

  /** Row-major 4x4. */
  type Mat = m: seq<real> | |m| == 16
    witness [0.0, 0.0, 0.0, 0.0, 0.0, 0.0, 0.0, 0.0, 0.0, 0.0, 0.0, 0.0, 0.0, 0.0, 0.0, 0.0]

  const IDENTITY: Mat :=
    [1.0, 0.0, 0.0, 0.0, 0.0, 1.0, 0.0, 0.0, 0.0, 0.0, 1.0, 0.0, 0.0, 0.0, 0.0, 1.0]

  const BODY_FROM_OPTICAL: Mat :=
    [1.0, 0.0, 0.0, 0.0, 0.0, 0.0, 1.0, 0.0, 0.0, -1.0, 0.0, 0.0, 0.0, 0.0, 0.0, 1.0]

  const TOLERANCE: real := 0.000000001
  const FLOAT_MAX: real := 340282346638528859811704183484516925440.0

  datatype Angle = Angle(cosine: real, sine: real)

  ghost predicate Unit(a: Angle) {
    a.cosine * a.cosine + a.sine * a.sine == 1.0
  }

  /** The local pose: three rotations about the named axes, in order, and a translation. */
  datatype Calibration = Calibration(
    calibrationId: string,
    sensorFrame: string,
    mountFrame: string,
    eulerType: string,
    angles: (Angle, Angle, Angle),
    x: real, y: real, z: real)

  datatype Error = InvalidCalibration | InvalidAxis | BadHomogeneousRow | NotOrthonormal | BadDeterminant | OutsideFloatRange

  datatype Result<T> = Ok(value: T) | Err(error: Error)

  function Abs(x: real): real {
    if x < 0.0 then -x else x
  }

  // ----- products -----

  /** Sum of the first n terms of row times column. */
  function PartialProduct(a: Mat, b: Mat, row: nat, column: nat, n: nat): real
    requires row < 4 && column < 4 && n <= 4
  {
    if n == 0 then 0.0
    else PartialProduct(a, b, row, column, n - 1) + a[row * 4 + n - 1] * b[(n - 1) * 4 + column]
  }

  function Product(a: Mat, b: Mat): Mat {
    seq(16, k requires 0 <= k < 16 => PartialProduct(a, b, k / 4, k % 4, 4))
  }

  method MultiplyMatrices(a: Mat, b: Mat) returns (product: Mat)
    ensures product == Product(a, b)
  {
    var p: seq<real> := seq(16, _ => 0.0);
    for row := 0 to 4
      invariant |p| == 16
      invariant forall k :: 0 <= k < row * 4 ==> p[k] == PartialProduct(a, b, k / 4, k % 4, 4)
      invariant forall k :: row * 4 <= k < 16 ==> p[k] == 0.0
    {
      for column := 0 to 4
        invariant |p| == 16
        invariant forall k :: 0 <= k < row * 4 + column ==> p[k] == PartialProduct(a, b, k / 4, k % 4, 4)
        invariant forall k :: row * 4 + column <= k < 16 ==> p[k] == 0.0
      {
        var at := row * 4 + column;
        assert at / 4 == row && at % 4 == column;
        for index := 0 to 4
          invariant |p| == 16
          invariant forall k :: 0 <= k < at ==> p[k] == PartialProduct(a, b, k / 4, k % 4, 4)
          invariant forall k :: at < k < 16 ==> p[k] == 0.0
          invariant p[at] == PartialProduct(a, b, row, column, index)
        {
          assert PartialProduct(a, b, row, column, index + 1) ==
                 PartialProduct(a, b, row, column, index) + a[row * 4 + index] * b[index * 4 + column];
          p := p[at := p[at] + a[row * 4 + index] * b[index * 4 + column]];
        }
      }
    }
    return p;
  }

  // ----- rotations -----

  predicate IsAxis(axis: char) {
    axis == 'X' || axis == 'Y' || axis == 'Z'
  }

  function AxisRotation(axis: char, a: Angle): (m: Mat)
    requires IsAxis(axis)
  {
    var c, s := a.cosine, a.sine;
    if axis == 'X' then IDENTITY[5 := c][6 := -s][9 := s][10 := c]
    else if axis == 'Y' then IDENTITY[0 := c][2 := s][8 := -s][10 := c]
    else IDENTITY[0 := c][1 := -s][4 := s][5 := c]
  }

  // ----- validation -----

  function RowDot(m: Mat, i: nat, j: nat): real
    requires i < 3 && j < 3
  {
    m[i * 4] * m[j * 4] + m[i * 4 + 1] * m[j * 4 + 1] + m[i * 4 + 2] * m[j * 4 + 2]
  }

  function Determinant(m: Mat): real {
    m[0] * (m[5] * m[10] - m[6] * m[9]) - m[1] * (m[4] * m[10] - m[6] * m[8]) + m[2] * (m[4] * m[9] - m[5] * m[8])
  }

  function Delta(i: nat, j: nat): real {
    if i == j then 1.0 else 0.0
  }

  predicate HomogeneousRow(m: Mat) {
    Abs(m[12]) <= TOLERANCE && Abs(m[13]) <= TOLERANCE && Abs(m[14]) <= TOLERANCE && Abs(m[15] - 1.0) <= TOLERANCE
  }

  predicate OrthonormalRows(m: Mat) {
    forall i: nat, j: nat | i < 3 && j < 3 :: Abs(RowDot(m, i, j) - Delta(i, j)) <= TOLERANCE
  }

  function Validation(m: Mat): Option<Error> {
    if !HomogeneousRow(m) then Some(BadHomogeneousRow)
    else if !OrthonormalRows(m) then Some(NotOrthonormal)
    else if Abs(Determinant(m) - 1.0) > TOLERANCE then Some(BadDeterminant)
    else None
  }

  method ValidateMatrix(m: Mat) returns (error: Option<Error>)
    ensures error == Validation(m)
  {
    if Abs(m[12]) > TOLERANCE || Abs(m[13]) > TOLERANCE || Abs(m[14]) > TOLERANCE || Abs(m[15] - 1.0) > TOLERANCE {
      return Some(BadHomogeneousRow);
    }
    for row := 0 to 3
      invariant forall i: nat, j: nat | i < row && j < 3 :: Abs(RowDot(m, i, j) - Delta(i, j)) <= TOLERANCE
    {
      for column := 0 to 3
        invariant forall j: nat | j < column :: Abs(RowDot(m, row, j) - Delta(row, j)) <= TOLERANCE
      {
        var dot := 0.0;
        dot := dot + m[row * 4] * m[column * 4];
        dot := dot + m[row * 4 + 1] * m[column * 4 + 1];
        dot := dot + m[row * 4 + 2] * m[column * 4 + 2];
        assert dot == RowDot(m, row, column);
        if Abs(dot - Delta(row, column)) > TOLERANCE { return Some(NotOrthonormal); }
      }
    }
    return if Abs(Determinant(m) - 1.0) > TOLERANCE then Some(BadDeterminant) else None;
  }

  // ----- building -----

  predicate CalibrationGiven(c: Calibration) {
    c.calibrationId != "" && c.sensorFrame != "" && c.mountFrame != "" && |c.eulerType| == 3
  }

  predicate AxesGiven(c: Calibration) {
    |c.eulerType| == 3 && IsAxis(c.eulerType[0]) && IsAxis(c.eulerType[1]) && IsAxis(c.eulerType[2])
  }

  function AngleAt(c: Calibration, i: nat): Angle {
    if i == 0 then c.angles.0 else if i == 1 then c.angles.1 else c.angles.2
  }

  /** Product of the first n rotations. */
  function Rotations(c: Calibration, n: nat): Mat
    requires AxesGiven(c) && n <= 3
  {
    if n == 0 then IDENTITY
    else Product(Rotations(c, n - 1), AxisRotation(c.eulerType[n - 1], AngleAt(c, n - 1)))
  }

  function BodyPose(c: Calibration): Mat
    requires AxesGiven(c)
  {
    Rotations(c, 3)[3 := c.x][7 := c.y][11 := c.z]
  }

  function Transform(c: Calibration): Mat
    requires AxesGiven(c)
  {
    Product(BodyPose(c), BODY_FROM_OPTICAL)
  }

  function Build(c: Calibration): Result<Mat> {
    if !CalibrationGiven(c) then Err(InvalidCalibration)
    else if !AxesGiven(c) then Err(InvalidAxis)
    else
      match Validation(Transform(c))
      case Some(error) => Err(error)
      case None => Ok(Transform(c))
  }

  method BuildCameraMountTransform(c: Calibration) returns (r: Result<Mat>)
    ensures r == Build(c)
  {
    if !CalibrationGiven(c) { return Err(InvalidCalibration); }
    var pose := IDENTITY;
    var index := 0;
    while index < 3
      invariant 0 <= index <= 3
      invariant forall i :: 0 <= i < index ==> IsAxis(c.eulerType[i])
      invariant AxesGiven(c) ==> pose == Rotations(c, index)
    {
      if !IsAxis(c.eulerType[index]) { return Err(InvalidAxis); }
      pose := MultiplyMatrices(pose, AxisRotation(c.eulerType[index], AngleAt(c, index)));
      index := index + 1;
    }
    pose := pose[3 := c.x][7 := c.y][11 := c.z];
    var m := MultiplyMatrices(pose, BODY_FROM_OPTICAL);
    var error := ValidateMatrix(m);
    return if error.Some? then Err(error.value) else Ok(m);
  }

  // ----- applying -----

  datatype Point = Point(x: real, y: real, z: real)

  function Coordinate(m: Mat, row: nat, p: Point): real
    requires row < 3
  {
    m[row * 4 + 3] + m[row * 4] * p.x + m[row * 4 + 1] * p.y + m[row * 4 + 2] * p.z
  }

  predicate InFloatRange(x: real) {
    -FLOAT_MAX <= x <= FLOAT_MAX
  }

  function Applied(m: Mat, p: Point): Point {
    Point(Coordinate(m, 0, p), Coordinate(m, 1, p), Coordinate(m, 2, p))
  }

  function TransformPoint(m: Mat, p: Point): Result<Point> {
    var q := Applied(m, p);
    match Validation(m)
    case Some(error) => Err(error)
    case None =>
      if InFloatRange(q.x) && InFloatRange(q.y) && InFloatRange(q.z) then Ok(q) else Err(OutsideFloatRange)
  }

  method TransformCameraPointToMount(p: Point, m: Mat) returns (r: Result<Point>)
    ensures r == TransformPoint(m, p)
  {
    var error := ValidateMatrix(m);
    if error.Some? { return Err(error.value); }
    var point: seq<real> := [p.x, p.y, p.z];
    var mount: seq<real> := [0.0, 0.0, 0.0];
    var row := 0;
    while row < 3
      invariant 0 <= row <= 3 && |mount| == 3
      invariant forall i: nat :: i < row ==> mount[i] == Coordinate(m, i, p) && InFloatRange(mount[i])
    {
      var sum := m[row * 4 + 3];
      var column := 0;
      while column < 3
        invariant 0 <= column <= 3
        invariant column == 0 ==> sum == m[row * 4 + 3]
        invariant column == 1 ==> sum == m[row * 4 + 3] + m[row * 4] * p.x
        invariant column == 2 ==> sum == m[row * 4 + 3] + m[row * 4] * p.x + m[row * 4 + 1] * p.y
        invariant column == 3 ==> sum == Coordinate(m, row, p)
      {
        sum := sum + m[row * 4 + column] * point[column];
        column := column + 1;
      }
      if !InFloatRange(sum) { return Err(OutsideFloatRange); }
      mount := mount[row := sum];
      row := row + 1;
    }
    return Ok(Point(mount[0], mount[1], mount[2]));
  }

  /** The 3x4 part, for PCD1. */
  function Matrix3x4(m: Mat): Result<seq<real>> {
    match Validation(m)
    case Some(error) => Err(error)
    case None => if forall i :: 0 <= i < 12 ==> InFloatRange(m[i]) then Ok(m[..12]) else Err(OutsideFloatRange)
  }

  method BuildMountFromCameraMatrix3x4(m: Mat) returns (r: Result<seq<real>>)
    ensures r == Matrix3x4(m)
  {
    var error := ValidateMatrix(m);
    if error.Some? { return Err(error.value); }
    var matrix: seq<real> := [];
    while |matrix| < 12
      invariant |matrix| <= 12 && matrix == m[..|matrix|]
      invariant forall i :: 0 <= i < |matrix| ==> InFloatRange(m[i])
    {
      var value := m[|matrix|];
      if !InFloatRange(value) { return Err(OutsideFloatRange); }
      matrix := matrix + [value];
    }
    return Ok(matrix);
  }
}
