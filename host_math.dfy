/** The numeric primitives the program borrows from the host's `Math` object.
    They are not computable over the reals, so the model receives them as a
    value and states, in `Lawful`, the facts about them that the proofs use. */
module HostMath {

  /** `Math.cos`, `Math.sin`, `Math.sqrt` (also used for `Math.hypot` and
      `Math.pow(_, 2)` sums), `Math.atan2`, `Math.acos` and `Math.PI`. */
  datatype MathLib = MathLib(
    cos: real -> real,
    sin: real -> real,
    sqrt: real -> real,
    atan2: (real, real) -> real,
    acos: real -> real,
    pi: real)

  /** The names of the laws below. */
  datatype Law =
    | UnitCircle | CosPeriod | SinPeriod
    | SqrtOfZero | SqrtSquares | SqrtPositive
    | Atan2Range | Atan2OnAxis | PolarForm
    | AcosRange

  /** Each law of real-number trigonometry that the model relies on.  Every
      one holds of the true functions (atan2 taken as the principal value,
      atan2(0, 0) = 0 as in JavaScript). */
  ghost predicate Holds(m: MathLib, law: Law)
  {
    match law
    case UnitCircle => forall t :: SumSq(m.cos(t), m.sin(t)) == 1.0
    case CosPeriod => forall t, u {:trigger m.cos(t), m.cos(u)} :: u == t + 2.0 * m.pi ==> m.cos(u) == m.cos(t)
    case SinPeriod => forall t, u {:trigger m.sin(t), m.sin(u)} :: u == t + 2.0 * m.pi ==> m.sin(u) == m.sin(t)
    case SqrtOfZero => m.sqrt(0.0) == 0.0
    case SqrtSquares => forall x :: 0.0 <= x ==> 0.0 <= m.sqrt(x) && Sq(m.sqrt(x)) == x
    case SqrtPositive => forall x :: 0.0 < x ==> 0.0 < m.sqrt(x)
    case Atan2Range => forall y, x :: -m.pi < m.atan2(y, x) <= m.pi
    case Atan2OnAxis => forall x :: 0.0 <= x ==> m.atan2(0.0, x) == 0.0
    case PolarForm => forall y, x :: m.sqrt(SumSq(x, y)) * m.cos(m.atan2(y, x)) == x
                                  && m.sqrt(SumSq(x, y)) * m.sin(m.atan2(y, x)) == y
    case AcosRange => forall c :: -1.0 <= c <= 1.0 ==> 0.0 <= m.acos(c) <= m.pi
  }

  /** A `MathLib` that behaves like the real functions.  The laws sit behind
      `Holds`, so a proof sees only the instances it asks for through the
      lemmas below. */
  ghost predicate Lawful(m: MathLib)
  {
    && 3.0 < m.pi < 4.0
    && forall law :: Holds(m, law)
  }

  /** a², and a² + b², kept behind names so that a proof step can pass a
      square along without the solver re-deriving it. */
  function Sq(a: real): real
  {
    a * a
  }

  function SumSq(a: real, b: real): real
  {
    Sq(a) + Sq(b)
  }

  lemma CosSinUnit(m: MathLib, t: real)
    requires Lawful(m)
    ensures SumSq(m.cos(t), m.sin(t)) == 1.0
  {
    assert Holds(m, UnitCircle);
  }

  lemma FullTurn(m: MathLib, t: real)
    requires Lawful(m)
    ensures m.cos(t + 2.0 * m.pi) == m.cos(t)
    ensures m.sin(t + 2.0 * m.pi) == m.sin(t)
  {
    assert Holds(m, CosPeriod);
    assert Holds(m, SinPeriod);
  }

  lemma SqrtSquared(m: MathLib, x: real)
    requires Lawful(m) && 0.0 <= x
    ensures 0.0 <= m.sqrt(x) && Sq(m.sqrt(x)) == x
  {
    assert Holds(m, SqrtSquares);
  }

  lemma SqrtAtZero(m: MathLib)
    requires Lawful(m)
    ensures m.sqrt(0.0) == 0.0
  {
    assert Holds(m, SqrtOfZero);
  }

  lemma SqrtOfPositive(m: MathLib, x: real)
    requires Lawful(m) && 0.0 < x
    ensures 0.0 < m.sqrt(x)
  {
    assert Holds(m, SqrtPositive);
  }

  lemma Atan2InRange(m: MathLib, y: real, x: real)
    requires Lawful(m)
    ensures -m.pi < m.atan2(y, x) <= m.pi
  {
    assert Holds(m, Atan2Range);
  }

  lemma Atan2OfAxis(m: MathLib, x: real)
    requires Lawful(m) && 0.0 <= x
    ensures m.atan2(0.0, x) == 0.0
  {
    assert Holds(m, Atan2OnAxis);
  }

  /** (x, y) is its norm times the unit vector in its atan2 direction. */
  lemma Polar(m: MathLib, y: real, x: real)
    requires Lawful(m)
    ensures Norm(m, x, y) * m.cos(m.atan2(y, x)) == x
    ensures Norm(m, x, y) * m.sin(m.atan2(y, x)) == y
  {
    assert Holds(m, PolarForm);
  }

  lemma AcosInRange(m: MathLib, c: real)
    requires Lawful(m) && -1.0 <= c <= 1.0
    ensures 0.0 <= m.acos(c) <= m.pi
  {
    assert Holds(m, AcosRange);
  }

  /** A square is never negative. */
  lemma SquareNonNegative(a: real)
    ensures 0.0 <= Sq(a)
  {
    if a < 0.0 {
      assert (-a) * (-a) == a * a;
    }
  }

  lemma SumSqNonNegative(a: real, b: real)
    ensures 0.0 <= SumSq(a, b)
  {
    SquareNonNegative(a);
    SquareNonNegative(b);
  }

  /** A sum of two squares is positive as soon as one of the two bases is
      non-zero. */
  lemma SumOfSquaresPositive(a: real, b: real)
    requires a != 0.0 || b != 0.0
    ensures 0.0 < SumSq(a, b)
  {
    SquareNonNegative(a);
    SquareNonNegative(b);
    if a != 0.0 {
      SquarePositive(a);
    } else {
      SquarePositive(b);
    }
  }

  lemma SquarePositive(a: real)
    requires a != 0.0
    ensures 0.0 < Sq(a)
  {
    if a > 0.0 {
      calc { Sq(a); == a * a; > 0.0; }
    } else {
      calc { Sq(a); == a * a; == (-a) * (-a); > 0.0; }
    }
  }

  /** s > r >= 0 gives s·s > r·r. */
  lemma SquareStrictlyMonotone(s: real, r: real)
    requires 0.0 <= r < s
    ensures Sq(r) < Sq(s)
  {
    calc {
      r * r;
    <= r * s;
    < s * s;
    }
  }

  /** Two non-negative numbers with the same square are equal. */
  lemma EqualSquares(s: real, r: real)
    requires 0.0 <= s && 0.0 <= r && Sq(s) == Sq(r)
    ensures s == r
  {
    if s > r {
      SquareStrictlyMonotone(s, r);
    } else if s < r {
      SquareStrictlyMonotone(r, s);
    }
  }

  /** Scaling a unit vector by d gives squared length d². */
  lemma ScaledUnit(u: real, v: real, d: real)
    requires SumSq(u, v) == 1.0
    ensures SumSq(u * d, v * d) == Sq(d)
  {
    calc {
      SumSq(u * d, v * d);
      (u * d) * (u * d) + (v * d) * (v * d);
      (u * u + v * v) * (d * d);
      SumSq(u, v) * Sq(d);
      Sq(d);
    }
  }

  /** Dividing (a, b) by a positive L whose square is a² + b² gives a unit
      vector. */
  lemma UnitAfterDivision(a: real, b: real, len: real)
    requires 0.0 < len && Sq(len) == SumSq(a, b)
    ensures SumSq(a / len, b / len) == 1.0
  {
    var u := a / len;
    var v := b / len;
    assert u * len == a && v * len == b;
    calc {
      SumSq(u, v) * Sq(len);
      (u * u + v * v) * (len * len);
      (u * len) * (u * len) + (v * len) * (v * len);
      SumSq(a, b);
      Sq(len);
    }
    SquarePositive(len);
    CancelPositive(SumSq(u, v), Sq(len));
  }

  /** x · y = y with y > 0 forces x = 1. */
  lemma CancelPositive(x: real, y: real)
    requires 0.0 < y && x * y == y
    ensures x == 1.0
  {
    calc {
      (x - 1.0) * y;
      x * y - y;
      0.0;
    }
  }

  /** The square root of the square of a non-negative number is that number. */
  lemma SqrtOfSquare(m: MathLib, r: real)
    requires Lawful(m) && 0.0 <= r
    ensures m.sqrt(Sq(r)) == r
  {
    SquareNonNegative(r);
    SqrtSquared(m, Sq(r));
    EqualSquares(m.sqrt(Sq(r)), r);
  }

  /** The Euclidean norm of (a, b), as `Math.sqrt(a * a + b * b)`. */
  function Norm(m: MathLib, a: real, b: real): real
  {
    m.sqrt(SumSq(a, b))
  }

  /** The norm is never negative, its square is the sum of squares, and it
      is zero exactly when both coordinates are zero. */
  lemma NormLaws(m: MathLib, a: real, b: real)
    requires Lawful(m)
    ensures 0.0 <= Norm(m, a, b)
    ensures Sq(Norm(m, a, b)) == SumSq(a, b)
    ensures Norm(m, a, b) == 0.0 <==> a == 0.0 && b == 0.0
  {
    SumSqNonNegative(a, b);
    SqrtSquared(m, SumSq(a, b));
    if a != 0.0 || b != 0.0 {
      NormPositive(m, a, b);
    } else {
      assert SumSq(a, b) == 0.0;
      SqrtAtZero(m);
    }
  }

  lemma NormOfZero(m: MathLib, a: real, b: real)
    requires Lawful(m) && a == 0.0 && b == 0.0
    ensures Norm(m, a, b) == 0.0
  {
    assert SumSq(a, b) == 0.0;
    SqrtAtZero(m);
  }

  lemma NormPositive(m: MathLib, a: real, b: real)
    requires Lawful(m) && (a != 0.0 || b != 0.0)
    ensures 0.0 < Norm(m, a, b)
  {
    SumOfSquaresPositive(a, b);
    SqrtOfPositive(m, SumSq(a, b));
  }

  /** `k` whole turns, 2·pi·k, written as a sum so that the proofs stay
      linear. */
  function Turns(m: MathLib, k: nat): real
  {
    if k == 0 then 0.0 else Turns(m, k - 1) + 2.0 * m.pi
  }

  /** cos and sin repeat after any whole number of turns. */
  lemma {:induction false} Periodic(m: MathLib, t: real, k: nat)
    requires Lawful(m)
    ensures m.cos(t + Turns(m, k)) == m.cos(t)
    ensures m.sin(t + Turns(m, k)) == m.sin(t)
  {
    if k > 0 {
      Periodic(m, t, k - 1);
      var u := t + Turns(m, k - 1);
      assert t + Turns(m, k) == u + 2.0 * m.pi;
      FullTurn(m, u);
    }
  }
}
