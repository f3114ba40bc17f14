/** The rotation-matrix arithmetic of the vision-guided grasp, over the reals: the camera-to-base
    transform and the tool offset between the gripper's TCP and the flange.
    Proofs hide the vector operations and reason by the named rules below, so that each polynomial
    identity is met on its own. */
module RigidTransform {

  datatype Vec = Vec(x: real, y: real, z: real)

  const ZERO := Vec(0.0, 0.0, 0.0)

  datatype Quaternion = Quaternion(x: real, y: real, z: real, w: real)
  {
    function Axis(): Vec { Vec(x, y, z) }

    function Norm2(): real { x * x + y * y + z * z + w * w }
  }

  // A matrix by its rows.
  datatype Matrix = Matrix(r0: Vec, r1: Vec, r2: Vec)

  function Add(a: Vec, b: Vec): Vec { Vec(a.x + b.x, a.y + b.y, a.z + b.z) }

  function Sub(a: Vec, b: Vec): Vec { Vec(a.x - b.x, a.y - b.y, a.z - b.z) }

  function Scale(k: real, a: Vec): Vec { Vec(k * a.x, k * a.y, k * a.z) }

  function Dot(a: Vec, b: Vec): real { a.x * b.x + a.y * b.y + a.z * b.z }

  function Length2(a: Vec): real { Dot(a, a) }

  function Cross(a: Vec, b: Vec): Vec
  {
    Vec(a.y * b.z - a.z * b.y, a.z * b.x - a.x * b.z, a.x * b.y - a.y * b.x)
  }

  function Apply(m: Matrix, p: Vec): Vec { Vec(Dot(m.r0, p), Dot(m.r1, p), Dot(m.r2, p)) }

  function Transposed(m: Matrix): Matrix
  {
    Matrix(Vec(m.r0.x, m.r1.x, m.r2.x), Vec(m.r0.y, m.r1.y, m.r2.y), Vec(m.r0.z, m.r1.z, m.r2.z))
  }

  function Determinant(m: Matrix): real { Dot(m.r0, Cross(m.r1, m.r2)) }

  // The nine entries exactly as the script spells them, twice.
  function RotationMatrix(q: Quaternion): Matrix
  {
    Matrix(
      Vec(1.0 - 2.0 * (q.y * q.y + q.z * q.z), 2.0 * (q.x * q.y - q.z * q.w), 2.0 * (q.x * q.z + q.y * q.w)),
      Vec(2.0 * (q.x * q.y + q.z * q.w), 1.0 - 2.0 * (q.x * q.x + q.z * q.z), 2.0 * (q.y * q.z - q.x * q.w)),
      Vec(2.0 * (q.x * q.z - q.y * q.w), 2.0 * (q.y * q.z + q.x * q.w), 1.0 - 2.0 * (q.x * q.x + q.y * q.y)))
  }

  // 4 (|q|^2 - 1) s: what a quaternion that is not of unit length does to a squared length s.
  function Excess(q: Quaternion, s: real): real
  {
    4.0 * (q.x * q.x + q.y * q.y + q.z * q.z + q.w * q.w - 1.0) * s
  }

  // ---------- Rules of computation ----------

  lemma RowRule()
    ensures forall a, b, c, p {:trigger Dot(Vec(a, b, c), p)} :: Dot(Vec(a, b, c), p) == a * p.x + b * p.y + c * p.z
  {
  }

  lemma LengthRule()
    ensures forall a, b, c {:trigger Length2(Vec(a, b, c))} :: Length2(Vec(a, b, c)) == a * a + b * b + c * c
  {
  }

  lemma CrossRule()
    ensures forall a, b, c, d, e, f {:trigger Cross(Vec(a, b, c), Vec(d, e, f))} ::
              Cross(Vec(a, b, c), Vec(d, e, f)) == Vec(b * f - c * e, c * d - a * f, a * e - b * d)
  {
  }

  lemma ScaleRule()
    ensures forall k, a, b, c {:trigger Scale(k, Vec(a, b, c))} :: Scale(k, Vec(a, b, c)) == Vec(k * a, k * b, k * c)
  {
  }

  lemma AddRule()
    ensures forall a, b, c, d, e, f {:trigger Add(Vec(a, b, c), Vec(d, e, f))} ::
              Add(Vec(a, b, c), Vec(d, e, f)) == Vec(a + d, b + e, c + f)
  {
  }

  lemma CrossIsOrthogonal(a: Vec, b: Vec)
    ensures Dot(a, Cross(a, b)) == 0.0 && Dot(b, Cross(a, b)) == 0.0
  {
  }

  lemma TripleProduct(v: Vec, p: Vec)
    ensures Dot(p, Cross(v, Cross(v, p))) == -Length2(Cross(v, p))
  {
  }

  lemma Lagrange(a: Vec, b: Vec)
    ensures Length2(Cross(a, b)) == Length2(a) * Length2(b) - Dot(a, b) * Dot(a, b)
  {
  }

  lemma LengthOfSum(p: Vec, k: real, c: Vec, d: Vec)
    ensures Length2(Add(p, Add(Scale(k, c), Scale(2.0, d)))) ==
            Length2(p) + k * k * Length2(c) + 4.0 * Length2(d) +
            2.0 * k * Dot(p, c) + 4.0 * Dot(p, d) + 4.0 * k * Dot(c, d)
  {
    hide Add, Scale, Dot, Length2;
    LengthOfAdd(p, Add(Scale(k, c), Scale(2.0, d)));
    LengthOfAdd(Scale(k, c), Scale(2.0, d));
    DotOfSum(p, k, c, d);
    ScaledProducts(k, c, d);
  }

  lemma LengthOfAdd(a: Vec, b: Vec)
    ensures Length2(Add(a, b)) == Length2(a) + Length2(b) + 2.0 * Dot(a, b)
  {
  }

  lemma DotOfSum(p: Vec, k: real, c: Vec, d: Vec)
    ensures Dot(p, Add(Scale(k, c), Scale(2.0, d))) == k * Dot(p, c) + 2.0 * Dot(p, d)
  {
  }

  lemma ScaledProducts(k: real, c: Vec, d: Vec)
    ensures Length2(Scale(k, c)) == k * k * Length2(c) && Length2(Scale(2.0, d)) == 4.0 * Length2(d)
    ensures Dot(Scale(k, c), Scale(2.0, d)) == 2.0 * (k * Dot(c, d))
  {
  }

  lemma Linear(m: Matrix, a: Vec, b: Vec)
    ensures Apply(m, Sub(a, b)) == Sub(Apply(m, a), Apply(m, b))
  {
  }

  lemma Polarize(a: Vec, b: Vec)
    ensures Length2(Sub(a, b)) == Length2(a) + Length2(b) - 2.0 * Dot(a, b)
  {
  }

  lemma CrossLinear(v: Vec, a: Vec, b: Vec)
    ensures Cross(v, Sub(a, b)) == Sub(Cross(v, a), Cross(v, b))
  {
  }

  lemma LengthsArePositive(a: Vec)
    ensures Length2(a) >= 0.0
    ensures a.x != 0.0 || a.y != 0.0 || a.z != 0.0 ==> Length2(a) > 0.0
  {
    hide Squares;
    LengthIsSquares(a);
    SquaresArePositive(a.x, a.y, a.z);
  }

  function Squares(x: real, y: real, z: real): real { x * x + y * y + z * z }

  lemma LengthIsSquares(a: Vec)
    ensures Length2(a) == Squares(a.x, a.y, a.z)
  {
  }

  lemma SquaresArePositive(x: real, y: real, z: real)
    ensures Squares(x, y, z) >= 0.0
    ensures x != 0.0 || y != 0.0 || z != 0.0 ==> Squares(x, y, z) > 0.0
  {
    hide Squares, Squared;
    SquaresAreSum(x, y, z);
    SquareIsPositive(x);
    SquareIsPositive(y);
    SquareIsPositive(z);
  }

  function Product(a: real, b: real): real { a * b }

  function Squared(x: real): real { Product(x, x) }

  lemma SquaresAreSum(x: real, y: real, z: real)
    ensures Squares(x, y, z) == Squared(x) + Squared(y) + Squared(z)
  {
  }

  lemma SquaredIs(x: real)
    ensures Squared(x) == x * x
  {
  }

  lemma SignOfProduct(a: real, b: real)
    ensures a >= 0.0 && b >= 0.0 ==> Product(a, b) >= 0.0
    ensures a > 0.0 && b > 0.0 ==> Product(a, b) > 0.0
  {
  }

  lemma ProductOfNegatives(a: real, b: real)
    ensures Product(-a, -b) == Product(a, b)
  {
  }

  lemma SquareIsPositive(x: real)
    ensures Squared(x) >= 0.0 && (x != 0.0 ==> Squared(x) > 0.0)
  {
    hide Product;
    SignOfProduct(x, x);
    SignOfProduct(-x, -x);
    ProductOfNegatives(x, x);
  }

  lemma ZeroTimes(a: real, b: real)
    requires a == 0.0 || b == 0.0
    ensures a * b == 0.0
  {
  }

  lemma NonzeroProduct(a: real, b: real)
    requires a != 0.0 && b != 0.0
    ensures a * b != 0.0
  {
  }

  lemma ExcessIs(q: Quaternion, s: real)
    ensures Excess(q, s) == 4.0 * (q.Norm2() - 1.0) * s
  {
    var k, n := q.x * q.x + q.y * q.y + q.z * q.z + q.w * q.w - 1.0, q.Norm2() - 1.0;
    assert k == n && k * s == n * s;
  }

  lemma ExcessZeroIff(q: Quaternion, s: real)
    ensures Excess(q, s) == 0.0 <==> q.Norm2() == 1.0 || s == 0.0
  {
    hide Excess;
    ExcessIs(q, s);
    var k := 4.0 * (q.Norm2() - 1.0);
    if k == 0.0 || s == 0.0 { ZeroTimes(k, s); } else { NonzeroProduct(k, s); }
  }

  // ---------- How far the matrix is from a rotation ----------

  lemma TurnedRows(q: Quaternion, p: Vec)
    ensures Dot(RotationMatrix(q).r0, p) ==
            (1.0 - 2.0 * (q.y * q.y + q.z * q.z)) * p.x + 2.0 * (q.x * q.y - q.z * q.w) * p.y +
            2.0 * (q.x * q.z + q.y * q.w) * p.z
    ensures Dot(RotationMatrix(q).r1, p) ==
            2.0 * (q.x * q.y + q.z * q.w) * p.x + (1.0 - 2.0 * (q.x * q.x + q.z * q.z)) * p.y +
            2.0 * (q.y * q.z - q.x * q.w) * p.z
    ensures Dot(RotationMatrix(q).r2, p) ==
            2.0 * (q.x * q.z - q.y * q.w) * p.x + 2.0 * (q.y * q.z + q.x * q.w) * p.y +
            (1.0 - 2.0 * (q.x * q.x + q.y * q.y)) * p.z
  {
    hide Dot;
    RowRule();
  }

  lemma CrossTwice(q: Quaternion, p: Vec)
    ensures Cross(q.Axis(), p) == Vec(q.y * p.z - q.z * p.y, q.z * p.x - q.x * p.z, q.x * p.y - q.y * p.x)
    ensures Cross(q.Axis(), Cross(q.Axis(), p)) ==
            Vec(q.y * (q.x * p.y - q.y * p.x) - q.z * (q.z * p.x - q.x * p.z),
                q.z * (q.y * p.z - q.z * p.y) - q.x * (q.x * p.y - q.y * p.x),
                q.x * (q.z * p.x - q.x * p.z) - q.y * (q.y * p.z - q.z * p.y))
  {
    hide Cross;
    CrossRule();
    assert q.Axis() == Vec(q.x, q.y, q.z) && p == Vec(p.x, p.y, p.z);
  }

  lemma ExpandedSum(q: Quaternion, p: Vec)
    ensures var c := Cross(q.Axis(), p);
            Add(p, Add(Scale(2.0 * q.w, c), Scale(2.0, Cross(q.Axis(), c)))) ==
            Vec(p.x + (2.0 * q.w * (q.y * p.z - q.z * p.y) +
                   2.0 * (q.y * (q.x * p.y - q.y * p.x) - q.z * (q.z * p.x - q.x * p.z))),
                p.y + (2.0 * q.w * (q.z * p.x - q.x * p.z) +
                   2.0 * (q.z * (q.y * p.z - q.z * p.y) - q.x * (q.x * p.y - q.y * p.x))),
                p.z + (2.0 * q.w * (q.x * p.y - q.y * p.x) +
                   2.0 * (q.x * (q.z * p.x - q.x * p.z) - q.y * (q.y * p.z - q.z * p.y))))
  {
    hide Cross, Add, Scale;
    CrossTwice(q, p);
    ScaleRule();
    AddRule();
    assert p == Vec(p.x, p.y, p.z);
  }

  lemma RodriguesX(q: Quaternion, p: Vec)
    ensures (1.0 - 2.0 * (q.y * q.y + q.z * q.z)) * p.x + 2.0 * (q.x * q.y - q.z * q.w) * p.y +
            2.0 * (q.x * q.z + q.y * q.w) * p.z ==
            p.x + (2.0 * q.w * (q.y * p.z - q.z * p.y) +
                   2.0 * (q.y * (q.x * p.y - q.y * p.x) - q.z * (q.z * p.x - q.x * p.z)))
  {
  }

  lemma RodriguesY(q: Quaternion, p: Vec)
    ensures 2.0 * (q.x * q.y + q.z * q.w) * p.x + (1.0 - 2.0 * (q.x * q.x + q.z * q.z)) * p.y +
            2.0 * (q.y * q.z - q.x * q.w) * p.z ==
            p.y + (2.0 * q.w * (q.z * p.x - q.x * p.z) +
                   2.0 * (q.z * (q.y * p.z - q.z * p.y) - q.x * (q.x * p.y - q.y * p.x)))
  {
  }

  lemma RodriguesZ(q: Quaternion, p: Vec)
    ensures 2.0 * (q.x * q.z - q.y * q.w) * p.x + 2.0 * (q.y * q.z + q.x * q.w) * p.y +
            (1.0 - 2.0 * (q.x * q.x + q.y * q.y)) * p.z ==
            p.z + (2.0 * q.w * (q.x * p.y - q.y * p.x) +
                   2.0 * (q.x * (q.z * p.x - q.x * p.z) - q.y * (q.y * p.z - q.z * p.y)))
  {
  }

  /** Rodrigues' form of the matrix: with c = v x p and d = v x c, it sends p to p + 2wc + 2d. */
  lemma Rodrigues(q: Quaternion, p: Vec)
    ensures var c := Cross(q.Axis(), p);
            Apply(RotationMatrix(q), p) == Add(p, Add(Scale(2.0 * q.w, c), Scale(2.0, Cross(q.Axis(), c))))
  {
    hide Dot, Cross, Add, Scale, RotationMatrix;
    TurnedRows(q, p);
    ExpandedSum(q, p);
    RodriguesX(q, p);
    RodriguesY(q, p);
    RodriguesZ(q, p);
  }

  lemma ExcessOfParts(q: Quaternion, s: real)
    ensures Excess(q, s) == 4.0 * (Length2(q.Axis()) * s) + (2.0 * q.w) * (2.0 * q.w) * s - 4.0 * s
  {
    hide Dot, Length2;
    LengthRule();
    var v2 := q.x * q.x + q.y * q.y + q.z * q.z;
    assert Length2(q.Axis()) == v2;
    assert Length2(q.Axis()) * s == v2 * s;
    assert v2 * s == q.x * q.x * s + q.y * q.y * s + q.z * q.z * s;
  }

  /** For every quaternion, of unit length or not, the matrix changes the squared length of p by
      exactly 4 (|q|^2 - 1) |v x p|^2. */
  lemma RotationDefect(q: Quaternion, p: Vec)
    ensures Length2(Apply(RotationMatrix(q), p)) == Length2(p) + Excess(q, Length2(Cross(q.Axis(), p)))
  {
    hide Dot, Cross, Add, Scale, Length2, Apply, RotationMatrix, Excess;
    var v := q.Axis();
    var c := Cross(v, p);
    var d := Cross(v, c);
    Rodrigues(q, p);
    LengthOfSum(p, 2.0 * q.w, c, d);
    CrossIsOrthogonal(v, p);
    CrossIsOrthogonal(v, c);
    TripleProduct(v, p);
    Lagrange(v, c);
    ExcessOfParts(q, Length2(c));
    ZeroTimes(Dot(v, c), Dot(v, c));
    ZeroTimes(2.0 * (2.0 * q.w), Dot(p, c));
    ZeroTimes(4.0 * (2.0 * q.w), Dot(c, d));
  }

  lemma LengthWitness(q: Quaternion) returns (p: Vec)
    requires q.Norm2() != 1.0 && q.Axis() != ZERO
    ensures Length2(Apply(RotationMatrix(q), p)) != Length2(p)
  {
    hide Dot, Cross, Length2, Apply, RotationMatrix, Excess, Quaternion.Norm2;
    UnitCrosses(q.Axis());
    p := if q.x != 0.0 || q.y != 0.0 then Vec(0.0, 0.0, 1.0) else Vec(1.0, 0.0, 0.0);
    RotationDefect(q, p);
    LengthsArePositive(Cross(q.Axis(), p));
    ExcessZeroIff(q, Length2(Cross(q.Axis(), p)));
  }

  lemma UnitCrosses(v: Vec)
    ensures Cross(v, Vec(1.0, 0.0, 0.0)) == Vec(0.0, v.z, -v.y)
    ensures Cross(v, Vec(0.0, 0.0, 1.0)) == Vec(v.y, -v.x, 0.0)
  {
  }

  /** The matrix preserves every length if and only if the quaternion has unit length or no axis. */
  lemma PreservesLengthsIff(q: Quaternion)
    ensures (forall p: Vec :: Length2(Apply(RotationMatrix(q), p)) == Length2(p)) <==>
            q.Norm2() == 1.0 || q.Axis() == ZERO
  {
    hide Dot, Length2, Apply, RotationMatrix, Excess, Quaternion.Norm2;
    if q.Norm2() == 1.0 || q.Axis() == ZERO {
      forall p: Vec ensures Length2(Apply(RotationMatrix(q), p)) == Length2(p) {
        RotationDefect(q, p);
        if q.Axis() == ZERO { ZeroCross(p); }
        ExcessZeroIff(q, Length2(Cross(q.Axis(), p)));
      }
    } else {
      var p := LengthWitness(q);
    }
  }

  lemma ZeroCross(p: Vec)
    ensures Length2(Cross(ZERO, p)) == 0.0
  {
  }

  lemma ExcessDifference(q: Quaternion, a: real, b: real, c: real, d: real)
    requires a == b + c - 2.0 * d
    ensures Excess(q, a) == Excess(q, b) + Excess(q, c) - 2.0 * Excess(q, d)
  {
    var k := 4.0 * (q.x * q.x + q.y * q.y + q.z * q.z + q.w * q.w - 1.0);
    assert k * (b + c - 2.0 * d) == k * b + k * c - 2.0 * (k * d);
  }

  /** The inner product of two images: M^T M is the identity plus 4 (|q|^2 - 1) K^T K, where K is the
      cross-product matrix of the axis. */
  lemma Gram(q: Quaternion, a: Vec, b: Vec)
    ensures Dot(Apply(RotationMatrix(q), a), Apply(RotationMatrix(q), b)) ==
            Dot(a, b) + Excess(q, Dot(Cross(q.Axis(), a), Cross(q.Axis(), b)))
  {
    hide Dot, Cross, Sub, Length2, Apply, RotationMatrix, Excess;
    var m, v := RotationMatrix(q), q.Axis();
    RotationDefect(q, Sub(a, b));
    RotationDefect(q, a);
    RotationDefect(q, b);
    Linear(m, a, b);
    Polarize(Apply(m, a), Apply(m, b));
    Polarize(a, b);
    CrossLinear(v, a, b);
    Polarize(Cross(v, a), Cross(v, b));
    ExcessDifference(q, Length2(Cross(v, Sub(a, b))), Length2(Cross(v, a)), Length2(Cross(v, b)),
                     Dot(Cross(v, a), Cross(v, b)));
  }

  function Det3(a: real, b: real, c: real, d: real, e: real, f: real, g: real, h: real, i: real): real
  {
    a * (e * i - f * h) + b * (f * g - d * i) + c * (d * h - e * g)
  }

  lemma DeterminantRule()
    ensures forall a, b, c, d, e, f, g, h, i {:trigger Determinant(Matrix(Vec(a, b, c), Vec(d, e, f), Vec(g, h, i)))} ::
              Determinant(Matrix(Vec(a, b, c), Vec(d, e, f), Vec(g, h, i))) == Det3(a, b, c, d, e, f, g, h, i)
  {
  }

  // The determinant of the rotation matrix as a polynomial in the quaternion.
  function DeterminantOf(q: Quaternion): real
  {
    Det3(1.0 - 2.0 * (q.y * q.y + q.z * q.z), 2.0 * (q.x * q.y - q.z * q.w), 2.0 * (q.x * q.z + q.y * q.w),
         2.0 * (q.x * q.y + q.z * q.w), 1.0 - 2.0 * (q.x * q.x + q.z * q.z), 2.0 * (q.y * q.z - q.x * q.w),
         2.0 * (q.x * q.z - q.y * q.w), 2.0 * (q.y * q.z + q.x * q.w), 1.0 - 2.0 * (q.x * q.x + q.y * q.y))
  }

  lemma DeterminantPolynomial(q: Quaternion)
    ensures DeterminantOf(q) ==
            1.0 + 4.0 * (q.x * q.x + q.y * q.y + q.z * q.z + q.w * q.w - 1.0) * (q.x * q.x + q.y * q.y + q.z * q.z)
  {
  }

  lemma DeterminantExpanded(q: Quaternion)
    ensures Determinant(RotationMatrix(q)) == DeterminantOf(q)
  {
    hide Determinant, Det3;
    DeterminantRule();
  }

  /** The determinant is 1 + 4 (|q|^2 - 1) |v|^2. */
  lemma DeterminantFormula(q: Quaternion)
    ensures Determinant(RotationMatrix(q)) == 1.0 + Excess(q, Length2(q.Axis()))
  {
    hide Dot, Length2, Determinant, RotationMatrix, DeterminantOf;
    DeterminantExpanded(q);
    DeterminantPolynomial(q);
    LengthRule();
    assert Excess(q, Length2(q.Axis())) == Excess(q, q.x * q.x + q.y * q.y + q.z * q.z);
  }

  lemma Columns(m: Matrix)
    ensures Apply(m, Vec(1.0, 0.0, 0.0)) == Transposed(m).r0
    ensures Apply(m, Vec(0.0, 1.0, 0.0)) == Transposed(m).r1
    ensures Apply(m, Vec(0.0, 0.0, 1.0)) == Transposed(m).r2
  {
  }

  lemma Coordinates(a: Vec)
    ensures Dot(Vec(1.0, 0.0, 0.0), a) == a.x && Dot(Vec(0.0, 1.0, 0.0), a) == a.y && Dot(Vec(0.0, 0.0, 1.0), a) == a.z
  {
  }

  /** For a unit quaternion the matrix is a proper rotation: it keeps inner products, its transpose
      undoes it, and its determinant is one. */
  lemma UnitIsRotation(q: Quaternion, a: Vec, b: Vec)
    requires q.Norm2() == 1.0
    ensures Dot(Apply(RotationMatrix(q), a), Apply(RotationMatrix(q), b)) == Dot(a, b)
    ensures Apply(Transposed(RotationMatrix(q)), Apply(RotationMatrix(q), a)) == a
    ensures Determinant(RotationMatrix(q)) == 1.0
  {
    hide Dot, Cross, Length2, Determinant, RotationMatrix, Transposed, Excess, Quaternion.Norm2;
    var v, m := q.Axis(), RotationMatrix(q);
    var e0, e1, e2 := Vec(1.0, 0.0, 0.0), Vec(0.0, 1.0, 0.0), Vec(0.0, 0.0, 1.0);
    DeterminantFormula(q);
    ExcessZeroIff(q, Length2(v));
    UnitGram(q, a, b);
    UnitGram(q, e0, a);
    UnitGram(q, e1, a);
    UnitGram(q, e2, a);
    Columns(m);
    Coordinates(a);
  }

  lemma UnitGram(q: Quaternion, a: Vec, b: Vec)
    requires q.Norm2() == 1.0
    ensures Dot(Apply(RotationMatrix(q), a), Apply(RotationMatrix(q), b)) == Dot(a, b)
  {
    hide Dot, Cross, Apply, RotationMatrix, Excess, Quaternion.Norm2;
    Gram(q, a, b);
    ExcessZeroIff(q, Dot(Cross(q.Axis(), a), Cross(q.Axis(), b)));
  }

  // ---------- Camera to base ----------

  const CAMERA := Quaternion(-0.7252377665226762, -0.6873142029357756, -0.027661831421397748, 0.029397134798712445)

  const TRANSLATION := Vec(0.8069257484410287, -0.21426010259993233, 1.3317410126411309)

  function ToBase(q: Quaternion, t: Vec, p: Vec): Vec { Add(Apply(RotationMatrix(q), p), t) }

  function ConvertCameraToBase(p: Vec): Vec { ToBase(CAMERA, TRANSLATION, p) }

  lemma TakeAway(a: Vec, t: Vec)
    ensures Sub(Add(a, t), t) == a
  {
  }

  /** With a unit quaternion the conversion is undone by taking the translation away and turning back. */
  lemma CameraBackFromBase(q: Quaternion, t: Vec, p: Vec)
    requires q.Norm2() == 1.0
    ensures Apply(Transposed(RotationMatrix(q)), Sub(ToBase(q, t, p), t)) == p
  {
    hide Sub, Add, Apply, RotationMatrix, Transposed, Quaternion.Norm2;
    TakeAway(Apply(RotationMatrix(q), p), t);
    UnitIsRotation(q, p, p);
  }

  /** Whatever the quaternion, the camera's own origin goes to the translation: for the script's
      calibration, to where the camera stands. */
  lemma OriginGoesToTranslation(q: Quaternion, t: Vec)
    ensures ToBase(q, t, Vec(0.0, 0.0, 0.0)) == t
    ensures ConvertCameraToBase(Vec(0.0, 0.0, 0.0)) ==
            Vec(0.8069257484410287, -0.21426010259993233, 1.3317410126411309)
  {
    NothingTurned(q, t);
    NothingTurned(CAMERA, TRANSLATION);
  }

  // Within half a unit of the fourth decimal.
  predicate Near(a: Vec, x: real, y: real, z: real)
  {
    -0.00005 < a.x - x < 0.00005 && -0.00005 < a.y - y < 0.00005 && -0.00005 < a.z - z < 0.00005
  }

  /** The calibrated camera looks down, a few degrees off the vertical: where its axes point, to four
      decimals. */
  lemma CameraAxes()
    ensures Near(RotationMatrix(CAMERA).r0, 0.0537, 0.9986, -0.0003)
    ensures Near(RotationMatrix(CAMERA).r1, 0.9953, -0.0535, 0.0807)
    ensures Near(RotationMatrix(CAMERA).r2, 0.0805, -0.0046, -0.9967)
  {
  }

  lemma NothingTurned(q: Quaternion, t: Vec)
    ensures ToBase(q, t, Vec(0.0, 0.0, 0.0)) == t
  {
    hide RotationMatrix;
  }

  /** The sense of the rotation: a quarter turn about the z axis takes x to y, and y to minus x. */
  lemma QuarterTurn(h: real, p: Vec)
    requires h * h == 0.5
    ensures Apply(RotationMatrix(Quaternion(0.0, 0.0, h, h)), p) == Vec(-p.y, p.x, p.z)
  {
    var q := Quaternion(0.0, 0.0, h, h);
    TurnedRows(q, p);
    assert q.z * q.w == 0.5 && q.z * q.z == 0.5;
  }

  lemma SameShift(a: Vec, b: Vec, t: Vec)
    ensures Sub(Add(a, t), Add(b, t)) == Sub(a, b)
  {
  }

  /** Squared distances change by exactly the rotation defect of the difference; with a unit
      quaternion they do not change. */
  lemma DistanceDefect(q: Quaternion, t: Vec, a: Vec, b: Vec)
    ensures Length2(Sub(ToBase(q, t, a), ToBase(q, t, b))) ==
            Length2(Sub(a, b)) + Excess(q, Length2(Cross(q.Axis(), Sub(a, b))))
    ensures q.Norm2() == 1.0 ==> Length2(Sub(ToBase(q, t, a), ToBase(q, t, b))) == Length2(Sub(a, b))
  {
    hide Add, Sub, Cross, Length2, Apply, RotationMatrix, Excess, Quaternion.Norm2;
    var m := RotationMatrix(q);
    SameShift(Apply(m, a), Apply(m, b), t);
    Linear(m, a, b);
    RotationDefect(q, Sub(a, b));
    ExcessZeroIff(q, Length2(Cross(q.Axis(), Sub(a, b))));
  }

  function Abs(x: real): real { if x < 0.0 then -x else x }

  lemma CrossIsShort(v: Vec, d: Vec)
    ensures 0.0 <= Length2(Cross(v, d)) <= Length2(v) * Length2(d)
  {
    hide Dot, Cross, Length2, Squared;
    Lagrange(v, d);
    SquareIsPositive(Dot(v, d));
    SquaredIs(Dot(v, d));
    LengthsArePositive(Cross(v, d));
  }

  lemma Monotone(k: real, a: real, b: real)
    requires k >= 0.0 && a <= b
    ensures k * a <= k * b
  {
  }

  lemma AbsExcess(q: Quaternion, s: real, t: real)
    requires 0.0 <= s <= t
    ensures Abs(Excess(q, s)) <= Abs(4.0 * (q.Norm2() - 1.0)) * t
  {
    hide Excess, Quaternion.Norm2;
    ExcessIs(q, s);
    AbsTimes(4.0 * (q.Norm2() - 1.0), s);
    Monotone(Abs(4.0 * (q.Norm2() - 1.0)), s, t);
  }

  lemma AbsTimes(k: real, s: real)
    requires 0.0 <= s
    ensures Abs(k * s) == Abs(k) * s
  {
  }

  /** The relative error of squared distances is at most 4 ||q|^2 - 1| |v|^2. */
  lemma RelativeError(q: Quaternion, t: Vec, a: Vec, b: Vec)
    ensures Abs(Length2(Sub(ToBase(q, t, a), ToBase(q, t, b))) - Length2(Sub(a, b)))
            <= Abs(4.0 * (q.Norm2() - 1.0)) * (Length2(q.Axis()) * Length2(Sub(a, b)))
  {
    hide Sub, Cross, Length2, ToBase, Excess, Quaternion.Norm2;
    DistanceDefect(q, t, a, b);
    CrossIsShort(q.Axis(), Sub(a, b));
    AbsExcess(q, Length2(Cross(q.Axis(), Sub(a, b))), Length2(q.Axis()) * Length2(Sub(a, b)));
  }

  // Unit length, to the tolerance that keeps squared distances within a relative error of bound.
  ghost predicate NearlyUnit(q: Quaternion, bound: real)
  {
    Abs(4.0 * (q.Norm2() - 1.0)) * Length2(q.Axis()) <= bound
  }

  /** The calibration constants of the script are unit length to one part in 10^15. */
  lemma CalibrationIsNearlyUnit()
    ensures NearlyUnit(CAMERA, 0.000000000000001)
  {
  }

  lemma BoundTimes(e: real, v2: real, d2: real, bound: real)
    requires e * v2 <= bound && d2 >= 0.0
    ensures e * (v2 * d2) <= bound * d2
  {
    Monotone(d2, e * v2, bound);
  }

  /** With a nearly unit quaternion every squared distance is kept within the same relative error. */
  lemma NearlyRigid(q: Quaternion, t: Vec, a: Vec, b: Vec, bound: real)
    requires NearlyUnit(q, bound)
    ensures Abs(Length2(Sub(ToBase(q, t, a), ToBase(q, t, b))) - Length2(Sub(a, b))) <= bound * Length2(Sub(a, b))
  {
    hide Length2, Sub, ToBase, Quaternion.Norm2, Quaternion.Axis, Abs;
    RelativeError(q, t, a, b);
    LengthsArePositive(Sub(a, b));
    BoundTimes(Abs(4.0 * (q.Norm2() - 1.0)), Length2(q.Axis()), Length2(Sub(a, b)), bound);
  }

  /** But not of unit length: the camera-to-base map is not exactly rigid, and a pair of points shows it. */
  lemma CalibrationIsNotUnit() returns (p: Vec)
    ensures CAMERA.Norm2() != 1.0
    ensures Length2(Sub(ConvertCameraToBase(p), ConvertCameraToBase(ZERO))) != Length2(Sub(p, ZERO))
  {
    hide Length2, Sub, Add, Apply, RotationMatrix;
    p := LengthWitness(CAMERA);
    FromOrigin(CAMERA, TRANSLATION, p);
  }

  // Distances from the image of the origin.
  lemma FromOrigin(q: Quaternion, t: Vec, p: Vec)
    ensures Length2(Sub(ToBase(q, t, p), ToBase(q, t, ZERO))) == Length2(Apply(RotationMatrix(q), p))
    ensures Length2(Sub(p, ZERO)) == Length2(p)
  {
    hide RotationMatrix;
    var m := RotationMatrix(q);
    SameShift(Apply(m, p), Apply(m, ZERO), t);
    assert Apply(m, ZERO) == ZERO && Sub(Apply(m, p), ZERO) == Apply(m, p) && Sub(p, ZERO) == p;
  }

  // The map f keeps squared distances to the relative error bound.
  ghost predicate KeepsDistances(f: Vec -> Vec, bound: real)
  {
    forall a, b :: Abs(Length2(Sub(f(a), f(b))) - Length2(Sub(a, b))) <= bound * Length2(Sub(a, b))
  }

  /** The script's own camera-to-base conversion keeps every squared distance to a relative error of at
      most one part in 10^15. */
  lemma CameraToBaseIsNearlyRigid()
    ensures exists bound :: bound <= 0.000000000000001 && KeepsDistances(ConvertCameraToBase, bound)
  {
    hide Length2, Sub, ToBase, Abs;
    CalibrationIsNearlyUnit();
    hide NearlyUnit;
    forall a, b
      ensures Abs(Length2(Sub(ConvertCameraToBase(a), ConvertCameraToBase(b))) - Length2(Sub(a, b)))
              <= 0.000000000000001 * Length2(Sub(a, b))
    {
      NearlyRigid(CAMERA, TRANSLATION, a, b, 0.000000000000001);
    }
    assert KeepsDistances(ConvertCameraToBase, 0.000000000000001);
  }

  // ---------- TCP to flange ----------

  const TOOL_OFFSET_Z := 0.27

  function ToolOffset(q: Quaternion): Vec { Apply(RotationMatrix(q), Vec(0.0, 0.0, TOOL_OFFSET_Z)) }

  // The flange position for a TCP target, given the end effector's current orientation.
  function TcpToFlange(q: Quaternion, target: Vec): Vec { Sub(target, ToolOffset(q)) }

  lemma SubtractBack(a: Vec, b: Vec)
    ensures Sub(a, Sub(a, b)) == b && Add(Sub(a, b), b) == a
  {
  }

  lemma OffsetLength()
    ensures Length2(Vec(0.0, 0.0, TOOL_OFFSET_Z)) == TOOL_OFFSET_Z * TOOL_OFFSET_Z
  {
  }

  lemma OffsetCross(q: Quaternion)
    ensures Length2(Cross(q.Axis(), Vec(0.0, 0.0, TOOL_OFFSET_Z))) ==
            TOOL_OFFSET_Z * TOOL_OFFSET_Z * (q.x * q.x + q.y * q.y)
  {
    hide Length2, Cross;
    CrossRule();
    LengthRule();
  }

  lemma OffsetExcess(q: Quaternion)
    ensures Excess(q, TOOL_OFFSET_Z * TOOL_OFFSET_Z * (q.x * q.x + q.y * q.y)) ==
            TOOL_OFFSET_Z * TOOL_OFFSET_Z * Excess(q, q.x * q.x + q.y * q.y)
  {
  }

  lemma OffsetIff(l: real, e: real)
    requires l == TOOL_OFFSET_Z * TOOL_OFFSET_Z * (1.0 + e)
    ensures l == TOOL_OFFSET_Z * TOOL_OFFSET_Z <==> e == 0.0
  {
  }

  lemma NoTurn(q: Quaternion)
    ensures q.x * q.x + q.y * q.y == 0.0 <==> q.x == 0.0 && q.y == 0.0
  {
    var s := Squares(q.x, q.y, 0.0);
    assert s == q.x * q.x + q.y * q.y;
    SquaresArePositive(q.x, q.y, 0.0);
    if q.x == 0.0 && q.y == 0.0 { assert s == Squares(0.0, 0.0, 0.0); }
  }

  /** The flange plus the rotated tool offset is the TCP target; its squared distance from the
      target is the squared offset times 1 + 4 (|q|^2 - 1) (x^2 + y^2), so it is exactly the offset
      if and only if the orientation has unit length or turns about the tool axis only. */
  lemma FlangeReachesTarget(q: Quaternion, target: Vec)
    ensures Add(TcpToFlange(q, target), ToolOffset(q)) == target
    ensures Length2(Sub(target, TcpToFlange(q, target))) ==
            TOOL_OFFSET_Z * TOOL_OFFSET_Z * (1.0 + Excess(q, q.x * q.x + q.y * q.y))
    ensures Length2(Sub(target, TcpToFlange(q, target))) == TOOL_OFFSET_Z * TOOL_OFFSET_Z <==>
            q.Norm2() == 1.0 || (q.x == 0.0 && q.y == 0.0)
  {
    hide Length2, Sub, Add, Dot, Cross, Apply, RotationMatrix, Excess, Quaternion.Norm2;
    SubtractBack(target, ToolOffset(q));
    RotationDefect(q, Vec(0.0, 0.0, TOOL_OFFSET_Z));
    OffsetLength();
    OffsetCross(q);
    OffsetExcess(q);
    ExcessZeroIff(q, q.x * q.x + q.y * q.y);
    NoTurn(q);
    OffsetIff(Length2(Sub(target, TcpToFlange(q, target))), Excess(q, q.x * q.x + q.y * q.y));
  }

  /** The flange position in numbers: the tool points along the flange's own z axis, 0.27 long. */
  lemma FlangeIs(q: Quaternion, target: Vec)
    ensures TcpToFlange(q, target) == Vec(
              target.x - 0.27 * (2.0 * (q.x * q.z + q.y * q.w)),
              target.y - 0.27 * (2.0 * (q.y * q.z - q.x * q.w)),
              target.z - 0.27 * (1.0 - 2.0 * (q.x * q.x + q.y * q.y)))
  {
    TurnedRows(q, Vec(0.0, 0.0, TOOL_OFFSET_Z));
  }
}
