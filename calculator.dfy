/**
 * The calculator of the JUnit example (Calculator.java): Java `int`
 * arithmetic, which wraps around modulo 2^32, and Java integer division,
 * which truncates toward zero and throws on a zero divisor.
 */
module Calculator {
  import opened Errors

  const Modulus: int := 0x1_0000_0000

  /** A Java `int`. */
  newtype Int32 = x: int | -0x8000_0000 <= x < 0x8000_0000

  /** The Java `int` congruent to `x` modulo 2^32: what a 32-bit result keeps of a mathematical one. */
  function Wrap(x: int): (r: Int32)
    ensures (x - r as int) % Modulus == 0
    ensures -0x8000_0000 <= x < 0x8000_0000 ==> r as int == x
  {
    var m := x % Modulus;
    if m >= 0x8000_0000 then (m - Modulus) as Int32 else m as Int32
  }

  /** Numbers congruent modulo 2^32 wrap to the same `int`. */
  lemma WrapCongruent(x: int, y: int)
    requires (x - y) % Modulus == 0
    ensures Wrap(x) == Wrap(y)
  {
    var q := (x - y) / Modulus;
    assert x == y + q * Modulus;
    assert x % Modulus == y % Modulus;
  }

  /** `add`: `a + b` as a Java `int`. */
  function Add(a: Int32, b: Int32): (r: Int32)
    ensures (a as int + b as int - r as int) % Modulus == 0
    ensures -0x8000_0000 <= a as int + b as int < 0x8000_0000 ==> r as int == a as int + b as int
  {
    Wrap(a as int + b as int)
  }

  /** `subtract`: `a - b` as a Java `int`. */
  function Subtract(a: Int32, b: Int32): (r: Int32)
    ensures (a as int - b as int - r as int) % Modulus == 0
    ensures -0x8000_0000 <= a as int - b as int < 0x8000_0000 ==> r as int == a as int - b as int
  {
    Wrap(a as int - b as int)
  }

  /** `multiply`: `a * b` as a Java `int`. */
  function Multiply(a: Int32, b: Int32): (r: Int32)
    ensures (a as int * b as int - r as int) % Modulus == 0
    ensures -0x8000_0000 <= a as int * b as int < 0x8000_0000 ==> r as int == a as int * b as int
  {
    Wrap(a as int * b as int)
  }

  /** Subtraction undoes addition, overflow or not. */
  lemma SubtractUndoesAdd(a: Int32, b: Int32)
    ensures Subtract(Add(a, b), b) == a
  {
    var s := Add(a, b);
    WrapCongruent(s as int - b as int, a as int);
  }

  /** Addition undoes subtraction, overflow or not. */
  lemma AddUndoesSubtract(a: Int32, b: Int32)
    ensures Add(Subtract(a, b), b) == a
  {
    var d := Subtract(a, b);
    WrapCongruent(d as int + b as int, a as int);
  }

  /** The quotient of integer division rounded toward zero, as Java's `/` computes it. */
  function TruncDiv(a: int, b: int): int
    requires b != 0
  {
    var n := (if a < 0 then -a else a) / (if b < 0 then -b else b);
    if (a < 0) == (b < 0) then n else -n
  }

  /** Truncated division: the remainder is smaller than the divisor and carries the dividend's sign. */
  lemma TruncDivRemainder(a: int, b: int)
    requires b != 0
    ensures var r := a - TruncDiv(a, b) * b;
      (if r < 0 then -r else r) < (if b < 0 then -b else b) && (r == 0 || (r < 0) == (a < 0))
  {
    var aa := if a < 0 then -a else a;
    var bb := if b < 0 then -b else b;
    var n := aa / bb;
    assert aa == n * bb + aa % bb;
    if a < 0 && b < 0 {
      assert TruncDiv(a, b) * b == -(n * bb);
    } else if a < 0 {
      assert TruncDiv(a, b) * b == -(n * bb);
    } else if b < 0 {
      assert TruncDiv(a, b) * b == n * bb;
    } else {
      assert TruncDiv(a, b) * b == n * bb;
    }
  }

  /**
   * `divide`: an ArithmeticException on a zero divisor, otherwise the
   * quotient truncated toward zero, as a Java `int` (so MIN_VALUE / -1 is
   * MIN_VALUE).
   */
  function Divide(a: Int32, b: Int32): (r: Result<Int32>)
    ensures r.Err? <==> b == 0
    ensures r.Err? ==> r.error == Failure("Division by zero")
    ensures r.Ok? ==> (TruncDiv(a as int, b as int) - r.value as int) % Modulus == 0
  {
    if b == 0 then Err(Failure("Division by zero")) else Ok(Wrap(TruncDiv(a as int, b as int)))
  }

  /** Dividing an exact product by one factor gives the other. */
  lemma DivideUndoesMultiply(a: Int32, b: Int32)
    requires b != 0 && -0x8000_0000 <= a as int * b as int < 0x8000_0000
    ensures Divide(Multiply(a, b), b) == Ok(a)
  {
    var p := a as int * b as int;
    TruncDivOfProduct(a as int, b as int);
  }

  lemma TruncDivOfProduct(a: int, b: int)
    requires b != 0
    ensures TruncDiv(a * b, b) == a
  {
    var aa := if a < 0 then -a else a;
    var bb := if b < 0 then -b else b;
    assert (if a * b < 0 then -(a * b) else a * b) == aa * bb by {
      if a < 0 && b < 0 { assert a * b == aa * bb; }
      else if a < 0 { assert a * b == -(aa * bb); }
      else if b < 0 { assert a * b == -(aa * bb); }
      else { assert a * b == aa * bb; }
    }
    DivOfMultiple(aa, bb);
    if a != 0 {
      MulPositive(aa, bb);
    }
  }

  lemma MulPositive(x: int, y: int)
    requires x > 0 && y > 0
    ensures x * y > 0
  {
  }

  /** Dividing a multiple of `y` by `y` gives the factor back. */
  lemma DivOfMultiple(x: nat, y: int)
    requires y > 0
    ensures (x * y) / y == x
  {
    var q := (x * y) / y;
    var r := (x * y) % y;
    assert x * y == q * y + r && 0 <= r < y;
    assert (x - q) * y == r;
    if x > q {
      MulAtLeast(x - q, y);
    } else if x < q {
      MulAtLeast(q - x, y);
    }
  }

  lemma MulAtLeast(k: int, y: int)
    requires k >= 1 && y > 0
    ensures k * y >= y
  {
    assert k * y == (k - 1) * y + y;
    MulNonneg(k - 1, y);
  }

  lemma MulNonneg(x: int, y: int)
    requires x >= 0 && y >= 0
    ensures x * y >= 0
  {
  }

  /**
   * `complexCalculation`: `input * input + 10`, each step a Java `int`
   * operation; overflow in the square does not matter, the result is the
   * exact value wrapped once.
   */
  function ComplexCalculation(input: Int32): (r: Int32)
    ensures r == Wrap(input as int * input as int + 10)
  {
    var square := Multiply(input, input);
    WrapCongruent(input as int * input as int + 10, square as int + 10);
    Add(square, 10)
  }

  /** Without overflow the result is the square plus ten, so at least ten. */
  lemma ComplexCalculationExact(x: Int32)
    requires -46340 <= x as int <= 46340
    ensures ComplexCalculation(x) as int == x as int * x as int + 10
    ensures ComplexCalculation(x) >= 10
  {
    var n := if x < 0 then -(x as int) else x as int;
    assert x as int * x as int == n * n;
    SquareMonotone(n, 46340);
    MulNonneg(n, n);
  }

  lemma SquareMonotone(n: int, m: int)
    requires 0 <= n <= m
    ensures n * n <= m * m
  {
    assert n * n <= n * m by { MulNonneg(n, m - n); assert n * (m - n) == n * m - n * n; }
    assert n * m <= m * m by { MulNonneg(m - n, m); assert (m - n) * m == m * m - n * m; }
  }

  /** A number and its negation give the same result, overflow or not. */
  lemma ComplexCalculationEven(x: Int32)
    requires x != -0x8000_0000
    ensures ComplexCalculation(-x) == ComplexCalculation(x)
  {
    assert (-x) as int * (-x) as int == x as int * x as int;
  }

  /** The values the tests expect, and the one they wrongly expect of `add(2, 2)`. */
  lemma CalculatorExamples()
    ensures Add(1, 1) == 2 && Add(2, 2) == 4 && Add(2, 2) != 5
    ensures Subtract(5, 3) == 2 && Multiply(4, 5) == 20
    ensures Divide(10, 2) == Ok(5) && Divide(5, 0).Err?
    ensures ComplexCalculation(1) == 11 && ComplexCalculation(2) == 14 && ComplexCalculation(3) == 19
    ensures ComplexCalculation(4) == 26 && ComplexCalculation(5) == 35 && ComplexCalculation(10) == 110
  {
  }

  /** Overflow and truncation, where Java differs from mathematics. */
  lemma JavaIntCorners()
    ensures Add(0x7fff_ffff, 1) == -0x8000_0000
    ensures Divide(-0x8000_0000, -1) == Ok(-0x8000_0000)
    ensures Divide(-7, 2) == Ok(-3) && Divide(7, -2) == Ok(-3)
    ensures ComplexCalculation(46341) as int == 46341 * 46341 + 10 - Modulus
  {
  }
}
