/** The JavaScript number operations the metrics use, on exact reals: division with its
    infinite and NaN results, `Math.round`, `Math.ceil`, `Math.min`/`Math.max`, and the
    comparison of such a value with a constant. */
module JsNumber {

  /** A JavaScript number: a finite value, an infinity, or NaN. */
  datatype Num = Finite(v: real) | PosInf | NegInf | NaN

  /** `a / b`: a finite quotient exactly when the divisor is not zero; otherwise an
      infinity of the dividend's sign, or NaN for `0 / 0`. */
  function Div(a: real, b: real): (r: Num)
    ensures r.Finite? <==> b != 0.0
    ensures r.Finite? ==> r.v * b == a
    ensures r == NaN <==> a == 0.0 && b == 0.0
    ensures r == PosInf <==> a > 0.0 && b == 0.0
  {
    if b != 0.0 then Finite(a / b)
    else if a > 0.0 then PosInf
    else if a < 0.0 then NegInf
    else NaN
  }

  /** `x * c` for a positive constant c. */
  function Scale(x: Num, c: real): (r: Num)
    requires c > 0.0
    ensures r.Finite? <==> x.Finite?
    ensures r.Finite? ==> r.v == x.v * c
    ensures !x.Finite? ==> r == x
  {
    match x
    case Finite(v) => Finite(v * c)
    case _ => x
  }

  /** `x > c`: false for NaN. */
  predicate Gt(x: Num, c: real)
  {
    match x
    case Finite(v) => v > c
    case PosInf => true
    case _ => false
  }

  /** `Math.round(x)`: the nearest integer, halves rounded up. */
  function Round(x: real): (r: int)
    ensures r as real - 0.5 <= x < r as real + 0.5
  {
    (x + 0.5).Floor
  }

  /** `Math.round` on any number: non-finite values are returned unchanged. */
  function RoundNum(x: Num): (r: Num)
    ensures r.Finite? <==> x.Finite?
    ensures r.Finite? ==> r.v == Round(x.v) as real
  {
    match x
    case Finite(v) => Finite(Round(v) as real)
    case _ => x
  }

  /** `Math.min(c, x)`: NaN if x is NaN, otherwise the smaller one. */
  function MinNum(c: real, x: Num): (r: Num)
    ensures x == NaN <==> r == NaN
    ensures r.Finite? ==> r.v <= c
    ensures x.Finite? ==> r == Finite(if x.v < c then x.v else c)
  {
    match x
    case Finite(v) => Finite(if v < c then v else c)
    case PosInf => Finite(c)
    case NegInf => NegInf
    case NaN => NaN
  }

  /** `Math.max(x, y)`: NaN if either is NaN, otherwise Infinity if either is, otherwise
      the larger one, with -Infinity below everything. */
  function MaxNum(x: Num, y: Num): (r: Num)
    ensures r == NaN <==> x == NaN || y == NaN
    ensures r == PosInf <==> r != NaN && (x == PosInf || y == PosInf)
    ensures x == NegInf && y != NaN ==> r == y
    ensures x.Finite? && y.Finite? ==> r == Finite(MaxReal(x.v, y.v))
  {
    if x == NaN || y == NaN then NaN
    else if x == PosInf || y == PosInf then PosInf
    else if x == NegInf then y
    else if y == NegInf then x
    else Finite(MaxReal(x.v, y.v))
  }

  /** `x / y` on any two numbers (signed zeros not distinguished): NaN if either is NaN
      or both are infinite; a finite number over an infinity is 0; an infinity over a
      finite number keeps its sign, flipped by a negative divisor. */
  function DivNum(x: Num, y: Num): (r: Num)
    ensures x == NaN || y == NaN ==> r == NaN
    ensures x.Finite? && y.Finite? ==> r == Div(x.v, y.v)
    ensures !x.Finite? && !y.Finite? ==> r == NaN
    ensures x.Finite? && (y == PosInf || y == NegInf) ==> r == Finite(0.0)
    ensures x == PosInf && y.Finite? ==> r == if y.v < 0.0 then NegInf else PosInf
  {
    match (x, y)
    case (Finite(a), Finite(b)) => Div(a, b)
    case (Finite(_), PosInf) => Finite(0.0)
    case (Finite(_), NegInf) => Finite(0.0)
    case (PosInf, Finite(b)) => if b < 0.0 then NegInf else PosInf
    case (NegInf, Finite(b)) => if b < 0.0 then PosInf else NegInf
    case _ => NaN
  }

  /** `Math.ceil(x)`. */
  function Ceil(x: real): (r: int)
    ensures r as real - 1.0 < x <= r as real
  {
    -((-x).Floor)
  }

  /** `Math.ceil(a / b)` for counts. */
  function CeilDiv(a: nat, b: nat): (r: nat)
    requires b > 0
    ensures (r - 1) * b < a <= r * b
  {
    (a + b - 1) / b
  }

  /** The integer form agrees with the ceiling of the real quotient. */
  lemma CeilDivIsCeil(a: nat, b: nat)
    requires b > 0
    ensures CeilDiv(a, b) == Ceil(a as real / b as real)
  {
    var r: int := CeilDiv(a, b);
    assert (r - 1) * b < a <= r * b;
    QuotientBounds(a as real, b as real, (r - 1) as real, r as real);
  }

  /** lo < a / b <= hi follows from lo * b < a <= hi * b. */
  lemma QuotientBounds(a: real, b: real, lo: real, hi: real)
    requires b > 0.0 && lo * b < a <= hi * b
    ensures lo < a / b <= hi
  {
    var q := a / b;
    assert q * b == a;
    if q <= lo {
      MulMonotone(q, lo, b);
    }
    if q > hi {
      MulMonotone(hi, q, b);
    }
  }

  lemma MulMonotone(x: real, y: real, c: real)
    requires x <= y && c > 0.0
    ensures x * c <= y * c
  {
    assert y * c - x * c == (y - x) * c;
  }

  /** Comparing a quotient with a constant is comparing the dividend with the scaled
      constant. */
  lemma DivCompare(a: real, d: real, c: real)
    requires d > 0.0
    ensures a / d < c <==> a < c * d
    ensures a / d > c <==> a > c * d
  {
    var q := a / d;
    assert q * d == a;
    if q < c {
      MulMonotone(q, c, d);
      assert q * d != c * d;
    }
    if a < c * d && q >= c {
      MulMonotone(c, q, d);
    }
    if q > c {
      MulMonotone(c, q, d);
      assert q * d != c * d;
    }
    if a > c * d && q <= c {
      MulMonotone(q, c, d);
    }
  }

  function MaxReal(a: real, b: real): (r: real)
    ensures r >= a && r >= b && (r == a || r == b)
  {
    if a >= b then a else b
  }

  function MaxNat(a: nat, b: nat): (r: nat)
    ensures r >= a && r >= b && (r == a || r == b)
  {
    if a >= b then a else b
  }
}
