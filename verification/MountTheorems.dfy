/** The mount transform is a rigid motion: what every calibration yields, and what applying it does. */
module MountTheorems {
  import opened Wrappers
  import opened MountTransform

  // ----- rows as vectors -----

  function Row(m: Mat, i: nat): Point
    requires i < 3
  {
    Point(m[i * 4], m[i * 4 + 1], m[i * 4 + 2])
  }

  function Dot(u: Point, v: Point): real {
    u.x * v.x + u.y * v.y + u.z * v.z
  }

  function Cross(u: Point, v: Point): Point {
    Point(u.y * v.z - u.z * v.y, u.z * v.x - u.x * v.z, u.x * v.y - u.y * v.x)
  }

  function Minus(u: Point, v: Point): Point {
    Point(u.x - v.x, u.y - v.y, u.z - v.z)
  }

  function Plus(u: Point, v: Point): Point {
    Point(u.x + v.x, u.y + v.y, u.z + v.z)
  }

  /** Squared distance. */
  function Distance2(u: Point, v: Point): real {
    Dot(Minus(u, v), Minus(u, v))
  }

  /** The rotation matrix of an axis times a column. */
  function Rotate(axis: char, a: Angle, v: Point): Point {
    var c, s := a.cosine, a.sine;
    if axis == 'X' then Point(v.x, c * v.y - s * v.z, s * v.y + c * v.z)
    else if axis == 'Y' then Point(c * v.x + s * v.z, v.y, c * v.z - s * v.x)
    else Point(c * v.x - s * v.y, s * v.x + c * v.y, v.z)
  }

  /** A row times the same matrix. */
  function Spin(u: Point, axis: char, a: Angle): Point {
    var c, s := a.cosine, a.sine;
    if axis == 'X' then Point(u.x, c * u.y + s * u.z, c * u.z - s * u.y)
    else if axis == 'Y' then Point(c * u.x - s * u.z, u.y, c * u.z + s * u.x)
    else Point(c * u.x + s * u.y, c * u.y - s * u.x, u.z)
  }

  /** (p', q') is (p, q) turned in its plane. */
  ghost predicate Turned(c: real, s: real, p: real, q: real, p': real, q': real) {
    p' == c * p + s * q && q' == c * q - s * p
  }

  lemma UnitScale(k: real, x: real)
    requires k == 1.0
    ensures k * x == x
  {
  }

  lemma Substituted(a: real, b: real, x: real, y: real)
    requires a == x && b == y
    ensures a * b == x * y
  {
  }

  lemma PlaneDots(c: real, s: real, p: real, q: real, u: real, v: real)
    requires c * c + s * s == 1.0
    ensures (c * p + s * q) * (c * u + s * v) + (c * q - s * p) * (c * v - s * u) == p * u + q * v
  {
    assert (c * p + s * q) * (c * u + s * v) + (c * q - s * p) * (c * v - s * u) == (c * c + s * s) * (p * u + q * v);
    UnitScale(c * c + s * s, p * u + q * v);
  }

  /** Turning two vectors of a plane keeps their dot product. */
  lemma PlaneTurn(c: real, s: real, p: real, q: real, p': real, q': real, u: real, v: real, u': real, v': real)
    requires c * c + s * s == 1.0 && Turned(c, s, p, q, p', q') && Turned(c, s, u, v, u', v')
    ensures p' * u' + q' * v' == p * u + q * v
  {
    var a, b, d, e := c * p + s * q, c * u + s * v, c * q - s * p, c * v - s * u;
    PlaneDots(c, s, p, q, u, v);
    Substituted(p', u', a, b);
    Substituted(q', v', d, e);
  }

  /** Turning two vectors of a plane keeps the area they span. */
  lemma PlaneArea(c: real, s: real, p: real, q: real, p': real, q': real, u: real, v: real, u': real, v': real)
    requires c * c + s * s == 1.0 && Turned(c, s, p, q, p', q') && Turned(c, s, u, v, u', v')
    ensures p' * v' - q' * u' == p * v - q * u
  {
    PlaneTurn(c, s, p, q, p', q', v, -u, v', -u');
  }

  lemma TurnTimes(c: real, s: real, p: real, q: real, x: real)
    ensures (c * p + s * q) * x == c * (p * x) + s * (q * x)
    ensures (c * q - s * p) * x == c * (q * x) - s * (p * x)
  {
  }

  lemma TimesMinus(k: real, a: real, b: real)
    ensures k * (a - b) == k * a - k * b
  {
  }

  /** The other two components of the cross product turn along; the first coordinate stays. */
  lemma CrossTurn(c: real, s: real, u: Point, v: Point, p: Point, q: Point)
    requires p.x == u.x && q.x == v.x && Turned(c, s, u.y, u.z, p.y, p.z) && Turned(c, s, v.y, v.z, q.y, q.z)
    ensures Turned(c, s, Cross(u, v).y, Cross(u, v).z, Cross(p, q).y, Cross(p, q).z)
  {
    TurnTimes(c, s, u.y, u.z, v.x);
    TurnTimes(c, s, v.y, v.z, u.x);
    var zx, xz, xy, yx := u.z * v.x, v.z * u.x, v.y * u.x, u.y * v.x;
    assert Cross(p, q).y == (c * zx - s * yx) - (c * xz - s * xy);
    assert Cross(p, q).z == (c * xy + s * xz) - (c * yx + s * zx);
    TimesMinus(c, zx, xz);
    TimesMinus(s, xy, yx);
    TimesMinus(c, xy, yx);
    TimesMinus(s, zx, xz);
  }

  /** Renaming the axes cyclically. */
  function Cycle(u: Point): Point {
    Point(u.y, u.z, u.x)
  }

  lemma CrossCycles(u: Point, v: Point)
    ensures Cross(Cycle(u), Cycle(v)) == Cycle(Cross(u, v))
    ensures Dot(Cycle(u), Cycle(v)) == Dot(u, v)
  {
  }

  lemma SpinXTurns(u: Point, a: Angle)
    ensures var p := Spin(u, 'X', a); p.x == u.x && Turned(a.cosine, a.sine, u.y, u.z, p.y, p.z)
  {
  }

  lemma SpinXIsTheTurn(u: Point, a: Angle, p: Point)
    requires p.x == u.x && Turned(a.cosine, a.sine, u.y, u.z, p.y, p.z)
    ensures p == Spin(u, 'X', a)
  {
  }

  /** The dot product, and the component of the cross product along the axis, are kept. */
  lemma TurnKeeps(c: real, s: real, u: Point, v: Point, p: Point, q: Point)
    requires c * c + s * s == 1.0
    requires p.x == u.x && q.x == v.x && Turned(c, s, u.y, u.z, p.y, p.z) && Turned(c, s, v.y, v.z, q.y, q.z)
    ensures Dot(p, q) == Dot(u, v) && Cross(p, q).x == Cross(u, v).x
  {
    hide Turned;
    PlaneTurn(c, s, u.y, u.z, p.y, p.z, v.y, v.z, q.y, q.z);
    PlaneArea(c, s, u.y, u.z, p.y, p.z, v.y, v.z, q.y, q.z);
  }

  lemma SpinXKeeps(u: Point, v: Point, a: Angle)
    requires Unit(a)
    ensures Dot(Spin(u, 'X', a), Spin(v, 'X', a)) == Dot(u, v)
    ensures Cross(Spin(u, 'X', a), Spin(v, 'X', a)) == Spin(Cross(u, v), 'X', a)
  {
    hide Spin, Cross, Dot, Turned;
    var p, q := Spin(u, 'X', a), Spin(v, 'X', a);
    SpinXTurns(u, a);
    SpinXTurns(v, a);
    TurnKeeps(a.cosine, a.sine, u, v, p, q);
    CrossTurn(a.cosine, a.sine, u, v, p, q);
    SpinXIsTheTurn(Cross(u, v), a, Cross(p, q));
  }

  /** The rotations about Y and Z are the one about X with the axes renamed. */
  lemma SpinCycles(u: Point, a: Angle)
    ensures Spin(Cycle(u), 'X', a) == Cycle(Spin(u, 'Y', a))
    ensures Spin(Cycle(u), 'Y', a) == Cycle(Spin(u, 'Z', a))
  {
  }

  lemma SpinKeeps(u: Point, v: Point, axis: char, a: Angle)
    requires IsAxis(axis) && Unit(a)
    ensures Dot(Spin(u, axis, a), Spin(v, axis, a)) == Dot(u, v)
    ensures Cross(Spin(u, axis, a), Spin(v, axis, a)) == Spin(Cross(u, v), axis, a)
    decreases if axis == 'X' then 0 else if axis == 'Y' then 1 else 2
  {
    hide Unit, Spin, Dot, Cross;
    if axis == 'X' {
      SpinXKeeps(u, v, a);
    } else {
      var earlier := if axis == 'Y' then 'X' else 'Y';
      SpinKeeps(Cycle(u), Cycle(v), earlier, a);
      SpinCycles(u, a);
      SpinCycles(v, a);
      SpinCycles(Cross(u, v), a);
      CrossCycles(u, v);
      CrossCycles(Spin(u, axis, a), Spin(v, axis, a));
    }
  }

  lemma SpinIsAdjoint(u: Point, v: Point, axis: char, a: Angle)
    requires IsAxis(axis)
    ensures Dot(Spin(u, axis, a), v) == Dot(u, Rotate(axis, a, v))
  {
    if axis == 'X' {
    } else if axis == 'Y' {
    } else {
    }
  }

  /** Turning a column is spinning a row the other way. */
  lemma RotateIsSpinBack(v: Point, axis: char, a: Angle)
    ensures Rotate(axis, a, v) == Spin(v, axis, Angle(a.cosine, -a.sine))
  {
  }

  lemma TurnMinus(c: real, s: real, p: real, q: real, u: real, v: real)
    ensures (c * p + s * q) - (c * u + s * v) == c * (p - u) + s * (q - v)
    ensures (c * q - s * p) - (c * v - s * u) == c * (q - v) - s * (p - u)
  {
    TimesMinus(c, p, u);
    TimesMinus(s, q, v);
    TimesMinus(c, q, v);
    TimesMinus(s, p, u);
  }

  lemma SpinXMinus(u: Point, v: Point, a: Angle)
    ensures Minus(Spin(u, 'X', a), Spin(v, 'X', a)) == Spin(Minus(u, v), 'X', a)
  {
    hide Spin;
    SpinXTurns(u, a);
    SpinXTurns(v, a);
    TurnMinus(a.cosine, a.sine, u.y, u.z, v.y, v.z);
    SpinXIsTheTurn(Minus(u, v), a, Minus(Spin(u, 'X', a), Spin(v, 'X', a)));
  }

  lemma SpinMinus(u: Point, v: Point, axis: char, a: Angle)
    requires IsAxis(axis)
    ensures Minus(Spin(u, axis, a), Spin(v, axis, a)) == Spin(Minus(u, v), axis, a)
    decreases if axis == 'X' then 0 else if axis == 'Y' then 1 else 2
  {
    hide Spin;
    if axis == 'X' {
      SpinXMinus(u, v, a);
    } else {
      SpinMinus(Cycle(u), Cycle(v), if axis == 'Y' then 'X' else 'Y', a);
      SpinCycles(u, a);
      SpinCycles(v, a);
      SpinCycles(Minus(u, v), a);
    }
  }

  lemma UnitBack(a: Angle)
    requires Unit(a)
    ensures Unit(Angle(a.cosine, -a.sine))
  {
  }

  lemma RotateKeepsDistance(u: Point, v: Point, axis: char, a: Angle)
    requires IsAxis(axis) && Unit(a)
    ensures Distance2(Rotate(axis, a, u), Rotate(axis, a, v)) == Distance2(u, v)
  {
    hide Rotate, Spin, Dot, Minus, Unit;
    var back := Angle(a.cosine, -a.sine);
    RotateIsSpinBack(u, axis, a);
    RotateIsSpinBack(v, axis, a);
    SpinMinus(u, v, axis, back);
    UnitBack(a);
    SpinKeeps(Minus(u, v), Minus(u, v), axis, back);
  }

  // ----- rotations, exactly -----

  /** Unit length, mutually orthogonal, right-handed. */
  ghost predicate RightHanded(u: Point, v: Point, w: Point) {
    && Dot(u, u) == Dot(v, v) == Dot(w, w) == 1.0
    && Dot(u, v) == Dot(u, w) == Dot(v, w) == 0.0
    && Cross(u, v) == w
  }

  /** The translation column is free. */
  ghost predicate Rigid(m: Mat) {
    RightHanded(Row(m, 0), Row(m, 1), Row(m, 2)) && m[12..] == [0.0, 0.0, 0.0, 1.0]
  }

  lemma RowDotIsDot(m: Mat, i: nat, j: nat)
    requires i < 3 && j < 3
    ensures RowDot(m, i, j) == Dot(Row(m, i), Row(m, j)) == Dot(Row(m, j), Row(m, i))
  {
  }

  lemma RigidRows(m: Mat, i: nat, j: nat)
    requires Rigid(m) && i < 3 && j < 3
    ensures RowDot(m, i, j) == Delta(i, j)
  {
    hide RowDot, Row, Dot, Cross;
    RowDotIsDot(m, i, j);
    if i == 0 {
    } else if i == 1 {
    } else {
      assert i == 2;
    }
    assert j == 0 || j == 1 || j == 2;
  }

  lemma ProductAt(a: Mat, b: Mat, row: nat, column: nat)
    requires row < 4 && column < 4
    ensures Product(a, b)[row * 4 + column] ==
            a[row * 4] * b[column] + a[row * 4 + 1] * b[4 + column] +
            a[row * 4 + 2] * b[8 + column] + a[row * 4 + 3] * b[12 + column]
  {
    var k := row * 4 + column;
    assert k / 4 == row && k % 4 == column;
    assert PartialProduct(a, b, row, column, 4) == PartialProduct(a, b, row, column, 3) + a[row * 4 + 3] * b[12 + column];
    assert PartialProduct(a, b, row, column, 3) == PartialProduct(a, b, row, column, 2) + a[row * 4 + 2] * b[8 + column];
    assert PartialProduct(a, b, row, column, 2) == PartialProduct(a, b, row, column, 1) + a[row * 4 + 1] * b[4 + column];
    assert PartialProduct(a, b, row, column, 1) == PartialProduct(a, b, row, column, 0) + a[row * 4] * b[column];
  }

  /** Multiplying by a rotation spins each row and keeps the translation. */
  lemma ProductRow(a: Mat, axis: char, angle: Angle, i: nat)
    requires IsAxis(axis) && i < 3
    ensures Row(Product(a, AxisRotation(axis, angle)), i) == Spin(Row(a, i), axis, angle)
    ensures Product(a, AxisRotation(axis, angle))[i * 4 + 3] == a[i * 4 + 3]
  {
    hide Product;
    var r := AxisRotation(axis, angle);
    ProductAt(a, r, i, 0);
    ProductAt(a, r, i, 1);
    ProductAt(a, r, i, 2);
    ProductAt(a, r, i, 3);
  }

  lemma ProductLastRow(a: Mat, axis: char, angle: Angle)
    requires IsAxis(axis) && a[12..] == [0.0, 0.0, 0.0, 1.0]
    ensures Product(a, AxisRotation(axis, angle))[12..] == [0.0, 0.0, 0.0, 1.0]
  {
    hide Product;
    var r := AxisRotation(axis, angle);
    var p := Product(a, r);
    assert a[12] == a[12..][0] && a[13] == a[12..][1] && a[14] == a[12..][2] && a[15] == a[12..][3];
    assert r[12] == 0.0 && r[13] == 0.0 && r[14] == 0.0 && r[15] == 1.0;
    hide AxisRotation;
    assert p[12] == 0.0 by { ProductAt(a, r, 3, 0); }
    assert p[13] == 0.0 by { ProductAt(a, r, 3, 1); }
    assert p[14] == 0.0 by { ProductAt(a, r, 3, 2); }
    assert p[15] == 1.0 by { ProductAt(a, r, 3, 3); }
    assert p[12..] == [p[12], p[13], p[14], p[15]];
  }

  lemma ProductIsRigid(a: Mat, axis: char, angle: Angle)
    requires Rigid(a) && IsAxis(axis) && Unit(angle)
    ensures Rigid(Product(a, AxisRotation(axis, angle)))
  {
    hide Product, AxisRotation, Spin, Row, Dot, Cross;
    var p := Product(a, AxisRotation(axis, angle));
    ProductRow(a, axis, angle, 0);
    ProductRow(a, axis, angle, 1);
    ProductRow(a, axis, angle, 2);
    ProductLastRow(a, axis, angle);
    var u, v, w := Row(a, 0), Row(a, 1), Row(a, 2);
    SpinKeeps(u, u, axis, angle);
    SpinKeeps(v, v, axis, angle);
    SpinKeeps(w, w, axis, angle);
    SpinKeeps(u, v, axis, angle);
    SpinKeeps(u, w, axis, angle);
    SpinKeeps(v, w, axis, angle);
  }

  lemma IdentityIsRigid()
    ensures Rigid(IDENTITY)
  {
    hide RightHanded;
    var u, v, w := Point(1.0, 0.0, 0.0), Point(0.0, 1.0, 0.0), Point(0.0, 0.0, 1.0);
    assert Row(IDENTITY, 0) == u && Row(IDENTITY, 1) == v && Row(IDENTITY, 2) == w;
    UnitVectors(u, v, w);
  }

  lemma UnitVectors(u: Point, v: Point, w: Point)
    requires u == Point(1.0, 0.0, 0.0) && v == Point(0.0, 1.0, 0.0) && w == Point(0.0, 0.0, 1.0)
    ensures RightHanded(u, v, w)
  {
  }

  ghost predicate UnitAngles(c: Calibration) {
    Unit(c.angles.0) && Unit(c.angles.1) && Unit(c.angles.2)
  }

  lemma {:induction false} RotationsAreRigid(c: Calibration, n: nat)
    requires AxesGiven(c) && UnitAngles(c) && n <= 3
    ensures Rigid(Rotations(c, n))
    decreases n
  {
    hide Rigid, Product, AxisRotation;
    if n == 0 {
      IdentityIsRigid();
    } else {
      RotationsAreRigid(c, n - 1);
      ProductIsRigid(Rotations(c, n - 1), c.eulerType[n - 1], AngleAt(c, n - 1));
    }
  }

  /** The optical convention is a quarter turn about X. */
  lemma OpticalIsAQuarterTurn()
    ensures BODY_FROM_OPTICAL == AxisRotation('X', Angle(0.0, -1.0)) && Unit(Angle(0.0, -1.0))
  {
  }

  lemma TranslationIsFree(m: Mat, x: real, y: real, z: real)
    requires Rigid(m)
    ensures Rigid(m[3 := x][7 := y][11 := z])
  {
    var t := m[3 := x][7 := y][11 := z];
    assert forall i: nat | i < 3 :: Row(t, i) == Row(m, i);
    assert t[12..] == m[12..];
  }

  lemma TransformIsRigid(c: Calibration)
    requires AxesGiven(c) && UnitAngles(c)
    ensures Rigid(Transform(c))
    ensures Transform(c)[3] == c.x && Transform(c)[7] == c.y && Transform(c)[11] == c.z
  {
    hide Rigid, Product, AxisRotation;
    RotationsAreRigid(c, 3);
    TranslationIsFree(Rotations(c, 3), c.x, c.y, c.z);
    OpticalIsAQuarterTurn();
    ProductIsRigid(BodyPose(c), 'X', Angle(0.0, -1.0));
    ProductRow(BodyPose(c), 'X', Angle(0.0, -1.0), 0);
    ProductRow(BodyPose(c), 'X', Angle(0.0, -1.0), 1);
    ProductRow(BodyPose(c), 'X', Angle(0.0, -1.0), 2);
  }

  /** A right-handed orthonormal matrix has determinant one. */
  lemma RigidDeterminant(m: Mat)
    requires Rigid(m)
    ensures Determinant(m) == 1.0
  {
    hide Dot, Cross;
    var u, v, w := Row(m, 0), Row(m, 1), Row(m, 2);
    TripleProduct(u, v, w);
    assert Dot(w, w) == 1.0;
  }

  lemma TripleProduct(u: Point, v: Point, w: Point)
    ensures u.x * (v.y * w.z - v.z * w.y) - u.y * (v.x * w.z - v.z * w.x) + u.z * (v.x * w.y - v.y * w.x)
            == Dot(Cross(u, v), w)
  {
  }

  lemma RigidIsAccepted(m: Mat)
    requires Rigid(m)
    ensures Validation(m).None?
  {
    hide RowDot, Determinant;
    RigidDeterminant(m);
    assert m[12] == m[12..][0] && m[13] == m[12..][1] && m[14] == m[12..][2] && m[15] == m[12..][3];
    hide Rigid;
    forall i: nat, j: nat | i < 3 && j < 3 ensures RowDot(m, i, j) == Delta(i, j) {
      RigidRows(m, i, j);
    }
  }

  // ----- main results -----

  /**
   Every calibration with identities and three axes out of X, Y, Z builds, whatever the angles
   and the translation: exactly orthonormal rows, determinant one, last row (0, 0, 0, 1), and the
   translation in the fourth column. Without them it is refused.
   */
  lemma EveryCalibrationBuildsARigidTransform(c: Calibration)
    requires UnitAngles(c)
    ensures Build(c).Ok? <==> CalibrationGiven(c) && AxesGiven(c)
    ensures Build(c).Ok? ==>
              var m := Build(c).value;
              && (forall i: nat, j: nat | i < 3 && j < 3 :: RowDot(m, i, j) == Delta(i, j))
              && Determinant(m) == 1.0
              && m[12..] == [0.0, 0.0, 0.0, 1.0]
              && m[3] == c.x && m[7] == c.y && m[11] == c.z
    ensures Build(c).Err? ==> Build(c).error == if CalibrationGiven(c) then InvalidAxis else InvalidCalibration
  {
    if CalibrationGiven(c) && AxesGiven(c) {
      hide Determinant, Transform, Validation, RowDot, RightHanded, Delta;
      TransformIsRigid(c);
      RigidIsAccepted(Transform(c));
      RigidDeterminant(Transform(c));
      forall i: nat, j: nat | i < 3 && j < 3 ensures RowDot(Transform(c), i, j) == Delta(i, j) {
        RigidRows(Transform(c), i, j);
      }
    }
  }

  /** The camera body point of an optical point. */
  function BodyPoint(p: Point): Point {
    Point(p.x, p.z, -p.y)
  }

  /** The pose applied once: the three rotations from the inside out, then the translation. */
  function Posed(c: Calibration, p: Point): Point
    requires AxesGiven(c)
  {
    var inner := Rotate(c.eulerType[2], c.angles.2, p);
    var middle := Rotate(c.eulerType[1], c.angles.1, inner);
    Plus(Point(c.x, c.y, c.z), Rotate(c.eulerType[0], c.angles.0, middle))
  }

  /** Row i of a product of rotations, against a vector. */
  lemma {:induction false} RotationRow(c: Calibration, i: nat, n: nat, v: Point)
    requires AxesGiven(c) && i < 3 && 0 < n <= 3
    ensures Dot(Row(Rotations(c, n), i), v) ==
            Dot(Row(Rotations(c, n - 1), i), Rotate(c.eulerType[n - 1], AngleAt(c, n - 1), v))
  {
    hide Product, AxisRotation, Spin, Rotate, Dot;
    ProductRow(Rotations(c, n - 1), c.eulerType[n - 1], AngleAt(c, n - 1), i);
    SpinIsAdjoint(Row(Rotations(c, n - 1), i), v, c.eulerType[n - 1], AngleAt(c, n - 1));
  }

  lemma CoordinateIsPosed(c: Calibration, i: nat, p: Point)
    requires AxesGiven(c) && i < 3
    ensures var q := Minus(Posed(c, BodyPoint(p)), Point(c.x, c.y, c.z));
            Dot(Row(Transform(c), i), p) == Dot(Row(IDENTITY, i), q)
  {
    hide Product, AxisRotation, Spin, Rotations;
    var v := BodyPoint(p);
    OpticalIsAQuarterTurn();
    ProductRow(BodyPose(c), 'X', Angle(0.0, -1.0), i);
    SpinIsAdjoint(Row(BodyPose(c), i), p, 'X', Angle(0.0, -1.0));
    assert Rotate('X', Angle(0.0, -1.0), p) == v;
    assert Row(BodyPose(c), i) == Row(Rotations(c, 3), i);
    var inner := Rotate(c.eulerType[2], c.angles.2, v);
    var middle := Rotate(c.eulerType[1], c.angles.1, inner);
    RotationRow(c, i, 3, v);
    RotationRow(c, i, 2, inner);
    RotationRow(c, i, 1, middle);
    NoRotations(c);
    assert Minus(Posed(c, v), Point(c.x, c.y, c.z)) == Rotate(c.eulerType[0], c.angles.0, middle);
  }

  lemma NoRotations(c: Calibration)
    requires AxesGiven(c)
    ensures Rotations(c, 0) == IDENTITY
  {
  }

  /** Applying the built transform is applying the body pose once to (x, z, -y). */
  lemma ApplyingIsPosingOnce(c: Calibration, p: Point)
    requires UnitAngles(c) && Build(c).Ok?
    ensures Applied(Build(c).value, p) == Posed(c, BodyPoint(p))
  {
    hide Product, AxisRotation, Validation, Transform, Posed;
    EveryCalibrationBuildsARigidTransform(c);
    CoordinateIsPosed(c, 0, p);
    CoordinateIsPosed(c, 1, p);
    CoordinateIsPosed(c, 2, p);
  }

  /** Applying the built transform preserves all distances. */
  lemma ApplyingPreservesDistances(c: Calibration, p: Point, q: Point)
    requires UnitAngles(c) && Build(c).Ok?
    ensures Distance2(Applied(Build(c).value, p), Applied(Build(c).value, q)) == Distance2(p, q)
  {
    hide Build, Applied, Rotate, Distance2;
    ApplyingIsPosingOnce(c, p);
    ApplyingIsPosingOnce(c, q);
    EveryCalibrationBuildsARigidTransform(c);
    PosedKeepsDistance(c, BodyPoint(p), BodyPoint(q));
    BodyPointKeepsDistance(p, q);
  }

  lemma BodyPointKeepsDistance(p: Point, q: Point)
    ensures Distance2(BodyPoint(p), BodyPoint(q)) == Distance2(p, q)
  {
    OpticalIsAQuarterTurn();
    RotateKeepsDistance(p, q, 'X', Angle(0.0, -1.0));
  }

  lemma PosedKeepsDistance(c: Calibration, p: Point, q: Point)
    requires AxesGiven(c) && UnitAngles(c)
    ensures Distance2(Posed(c, p), Posed(c, q)) == Distance2(p, q)
  {
    hide Rotate, Distance2;
    var ip, iq := Rotate(c.eulerType[2], c.angles.2, p), Rotate(c.eulerType[2], c.angles.2, q);
    var mp, mq := Rotate(c.eulerType[1], c.angles.1, ip), Rotate(c.eulerType[1], c.angles.1, iq);
    var op, oq := Rotate(c.eulerType[0], c.angles.0, mp), Rotate(c.eulerType[0], c.angles.0, mq);
    RotateKeepsDistance(p, q, c.eulerType[2], c.angles.2);
    RotateKeepsDistance(ip, iq, c.eulerType[1], c.angles.1);
    RotateKeepsDistance(mp, mq, c.eulerType[0], c.angles.0);
    ShiftKeepsDistance(Point(c.x, c.y, c.z), op, oq);
  }

  lemma ShiftKeepsDistance(t: Point, u: Point, v: Point)
    ensures Distance2(Plus(t, u), Plus(t, v)) == Distance2(u, v)
  {
    assert Minus(Plus(t, u), Plus(t, v)) == Minus(u, v);
  }

  /** A point is transformed unless a coordinate leaves the float range; nothing else can fail. */
  lemma PointFailsOnlyOutOfRange(c: Calibration, p: Point)
    requires UnitAngles(c) && Build(c).Ok?
    ensures var q := Posed(c, BodyPoint(p));
            TransformPoint(Build(c).value, p) ==
            if InFloatRange(q.x) && InFloatRange(q.y) && InFloatRange(q.z) then Ok(q) else Err(OutsideFloatRange)
  {
    hide Product, AxisRotation, Transform, Posed, Applied, Validation;
    ApplyingIsPosingOnce(c, p);
  }

  lemma RigidEntries(m: Mat, i: nat, j: nat)
    requires Rigid(m) && i < 3 && j < 3
    ensures -1.0 <= m[i * 4 + j] <= 1.0
  {
    hide Rigid;
    var x, y, z := m[i * 4], m[i * 4 + 1], m[i * 4 + 2];
    assert x * x + y * y + z * z == 1.0 by {
      RigidRows(m, i, i);
    }
    SquareBound(x, y, z);
    SquareBound(y, z, x);
    SquareBound(z, x, y);
  }

  lemma SquareBound(x: real, y: real, z: real)
    requires x * x + y * y + z * z == 1.0
    ensures -1.0 <= x <= 1.0
  {
    assert y * y >= 0.0 && z * z >= 0.0;
    assert (x - 1.0) * (x + 1.0) <= 0.0;
  }

  /** The 3x4 part of a built transform exists if and only if the translation is in float range. */
  lemma Matrix3x4ExistsIff(c: Calibration)
    requires UnitAngles(c) && Build(c).Ok?
    ensures Matrix3x4(Build(c).value).Ok? <==> InFloatRange(c.x) && InFloatRange(c.y) && InFloatRange(c.z)
  {
    hide Product, AxisRotation, Transform, Validation;
    EveryCalibrationBuildsARigidTransform(c);
    TransformIsRigid(c);
    var m := Build(c).value;
    assert m == Transform(c);
    forall k: nat | k < 12 && k % 4 < 3 ensures InFloatRange(m[k]) {
      RigidEntries(m, k / 4, k % 4);
    }
    assert forall k | 0 <= k < 12 :: k % 4 == 3 ==> k == 3 || k == 7 || k == 11;
  }
}
