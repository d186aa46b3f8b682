/**
 * A command-line calculator: `calculator <op> <x> <y>` with the operators
 * + - * / and %. Numbers are exact reals; number parsing is a parameter.
 *
 * Go converts a float to an int by truncating toward zero, and its integer
 * `%` is the truncated remainder, whose sign follows the dividend. Dafny's
 * `%` is Euclidean, so both are written out here.
 */
module Calculator {
  import opened Wrappers

  datatype CalcError =
    | WrongArgumentCount
    | BadNumber
    | DivisionByZero
    | RemainderByZero
    | RemainderOfFraction
    | UnsupportedOperator(op: string)

  /** Go's float-to-int conversion: the integer part, rounding toward zero. */
  function Trunc(x: real): (n: int)
    ensures 0.0 <= x ==> n as real <= x < n as real + 1.0
    ensures x < 0.0 ==> n as real - 1.0 < x <= n as real
  {
    if x >= 0.0 then x.Floor else -((-x).Floor)
  }

  /** Whether converting to int and back gives the same number. */
  predicate IsWhole(x: real) {
    Trunc(x) as real == x
  }

  /** A number is whole exactly when it equals its floor. */
  lemma WholeIffFloor(x: real)
    ensures IsWhole(x) <==> x.Floor as real == x
  {
    if x < 0.0 && x.Floor as real == x {
      assert (-x).Floor == -x.Floor;
    }
  }

  /** Go's integer division: the quotient truncated toward zero. */
  function GoQuot(a: int, b: int): int
    requires b != 0
  {
    var q := Abs(a) / Abs(b);
    if (a < 0) == (b < 0) then q else -q
  }

  function Abs(a: int): nat {
    if a < 0 then -a else a
  }

  /** Go's integer remainder: what the truncated quotient leaves over. Its
      magnitude is below the divisor's and its sign is the dividend's. */
  function GoRem(a: int, b: int): (r: int)
    requires b != 0
    ensures a == GoQuot(a, b) * b + r
    ensures Abs(r) < Abs(b)
    ensures a >= 0 ==> r >= 0
    ensures a <= 0 ==> r <= 0
  {
    var q := Abs(a) / Abs(b);
    var m := Abs(a) % Abs(b);
    assert Abs(a) == q * Abs(b) + m;
    if a >= 0 then m else -m
  }

  /** The truncated quotient and remainder are the only pair with these
      properties: an independent characterisation of GoRem. */
  lemma GoRemUnique(a: int, b: int, q: int, r: int)
    requires b != 0
    requires a == q * b + r && Abs(r) < Abs(b)
    requires (a >= 0 ==> r >= 0) && (a <= 0 ==> r <= 0)
    ensures q == GoQuot(a, b) && r == GoRem(a, b)
  {
    var q0 := GoQuot(a, b);
    var r0 := GoRem(a, b);
    var d := q - q0;
    assert d * b == q * b - q0 * b by {
      assert (q - q0) * b == q * b - q0 * b;
    }
    assert d * b == r0 - r;
    assert Abs(r0 - r) < Abs(b);
    if d != 0 {
      AbsProduct(d, b);
      assert false;
    }
  }

  lemma AbsProduct(x: int, y: int)
    requires x != 0
    ensures Abs(x * y) >= Abs(y)
  {
    if x > 0 && y >= 0 {
      assert x * y >= y;
    } else if x > 0 {
      assert x * y <= y;
    } else if y >= 0 {
      assert x * y <= -y;
    } else {
      assert x * y >= -y;
    }
  }

  /** Where Go and Dafny part ways: -7 % 2 is -1 in Go and 1 in Dafny. */
  lemma RemainderFollowsDividend()
    ensures GoRem(-7, 2) == -1 && -7 % 2 == 1
    ensures GoRem(7, -2) == 1 && GoRem(-7, -2) == -1
  {
  }

  /** The operator switch on two parsed numbers. */
  function Apply(op: string, x: real, y: real): (r: Result<real, CalcError>)
    ensures op in {"+", "-", "*"} ==> r.Success?
    ensures r.Failure? && r.error == UnsupportedOperator(op) <==> op !in {"+", "-", "*", "/", "%"}
  {
    if op == "+" then Success(x + y)
    else if op == "-" then Success(x - y)
    else if op == "*" then Success(x * y)
    else if op == "/" then
      if y == 0.0 then Failure(DivisionByZero) else Success(x / y)
    else if op == "%" then
      if y == 0.0 then Failure(RemainderByZero)
      else if !IsWhole(x) || !IsWhole(y) then Failure(RemainderOfFraction)
      else Success(GoRem(Trunc(x), Trunc(y)) as real)
    else Failure(UnsupportedOperator(op))
  }

  /** Runs the calculator on the full argument list (program name first):
      operator, then the two operands. `parse` stands for the float parser;
      `None` is a parse error. The count is checked before parsing, and
      parsing before the operator. */
  function Calculate(args: seq<string>, parse: string -> Option<real>): (r: Result<real, CalcError>)
    ensures |args| != 4 ==> r == Failure(WrongArgumentCount)
    ensures |args| == 4 && (parse(args[2]).None? || parse(args[3]).None?) ==> r == Failure(BadNumber)
    ensures |args| == 4 && parse(args[2]).Some? && parse(args[3]).Some? ==>
      r == Apply(args[1], parse(args[2]).value, parse(args[3]).value)
  {
    if |args| != 4 then Failure(WrongArgumentCount)
    else
      var parsedX := parse(args[2]);
      var parsedY := parse(args[3]);
      if parsedX.None? || parsedY.None? then Failure(BadNumber)
      else Apply(args[1], parsedX.value, parsedY.value)
  }

  /** Exactly when an operator yields a result, and which error it reports
      otherwise. The zero-divisor check of `%` comes before the whole-number
      check. */
  lemma ApplyOutcomes(op: string, x: real, y: real)
    ensures Apply(op, x, y).Success? <==>
      || op in {"+", "-", "*"}
      || (op == "/" && y != 0.0)
      || (op == "%" && y != 0.0 && IsWhole(x) && IsWhole(y))
    ensures op == "/" && y == 0.0 ==> Apply(op, x, y) == Failure(DivisionByZero)
    ensures op == "%" && y == 0.0 ==> Apply(op, x, y) == Failure(RemainderByZero)
    ensures op == "%" && y != 0.0 && !(IsWhole(x) && IsWhole(y)) ==> Apply(op, x, y) == Failure(RemainderOfFraction)
  {
  }

  /** Sum and difference are undone by the opposite operation. */
  lemma AddSubtractMeaning(x: real, y: real)
    ensures Apply("+", x, y).value - y == x
    ensures Apply("-", x, y).value + y == x
  {
  }

  /** Product and quotient are undone by the opposite operation. */
  lemma MultiplyDivideMeaning(x: real, y: real)
    requires y != 0.0
    ensures Apply("*", x, y).value / y == x
    ensures Apply("/", x, y).value * y == x
  {
    assert Apply("*", x, y).value == x * y;
    assert Apply("/", x, y).value == x / y;
  }

  /** A `%` result is a whole number, smaller in magnitude than the divisor,
      with the dividend's sign; with the truncated quotient it rebuilds the
      dividend. */
  lemma RemainderMeaning(x: real, y: real)
    requires Apply("%", x, y).Success?
    ensures y != 0.0 && IsWhole(x) && IsWhole(y)
    ensures
      var v := Apply("%", x, y).value;
      && IsWhole(v)
      && Abs(Trunc(v)) < Abs(Trunc(y))
      && (x >= 0.0 ==> v >= 0.0) && (x <= 0.0 ==> v <= 0.0)
      && Trunc(x) == GoQuot(Trunc(x), Trunc(y)) * Trunc(y) + Trunc(v)
  {
    var rem := GoRem(Trunc(x), Trunc(y));
    assert Apply("%", x, y).value == rem as real;
    assert Trunc(rem as real) == rem;
  }
}
