/** Shared vocabulary: optional values, the Python exceptions the router code
    raises or catches, and the byte and 16-bit word types of its two wire
    protocols (the serial meter link and Modbus-TCP). */
module Base {

  datatype Option<+T> = None | Some(value: T)

  /** The exceptions of the modelled code that change what it does. */
  datatype Error = IndexError | KeyError | ValueError | ZeroDivisionError | OSError

  datatype Result<+T> = Ok(value: T) | Err(error: Error)

  /** One byte of a serial response. */
  type byte = b: int | 0 <= b < 256

  /** One 16-bit Modbus register, as an unsigned value. */
  type word = w: int | 0 <= w < 65536

  function Min(a: int, b: int): int { if a <= b then a else b }

  function Max(a: int, b: int): int { if a >= b then a else b }

  /** Python's int(a / b) for integers: true division, then truncation toward zero. */
  function TruncDiv(a: int, b: int): (q: int)
    requires b > 0
    ensures a >= 0 ==> 0 <= q && q * b <= a < q * b + b
    ensures a < 0 ==> q <= 0 && q * b - b < a <= q * b
  {
    DivBounds(if a >= 0 then a else -a, b);
    if a >= 0 then a / b else -((-a) / b)
  }

  /** Euclidean division of a non-negative number brackets it between two multiples. */
  lemma {:induction false} DivBounds(a: nat, b: int)
    requires b > 0
    ensures 0 <= a / b && (a / b) * b <= a < (a / b) * b + b
  {
    var q, r := a / b, a % b;
    assert a == q * b + r && 0 <= r < b;
  }

  /** A positive factor can be cancelled from both sides of an inequality. */
  lemma {:induction false} CancelFactor(a: int, b: int, n: int)
    requires n > 0 && a * n <= b * n
    ensures a <= b
  {
  }

  /** Python's int(x) for a float, taken here as an exact real: truncation toward zero. */
  function Trunc(x: real): (n: int)
    ensures x >= 0.0 ==> n as real <= x < n as real + 1.0
    ensures x < 0.0 ==> n as real - 1.0 < x <= n as real
  {
    if x >= 0.0 then x.Floor else -((-x).Floor)
  }

  /** For a non-negative numerator and a positive divisor, the truncated
      true division is the Euclidean quotient. */
  lemma {:induction false} TruncQuotient(a: nat, d: int)
    requires d > 0
    ensures Trunc(a as real / d as real) == a / d
  {
    QuotientBracket(a, d);
    RealDivide(a as real / d as real, (a / d) as real, d as real, a as real);
    TruncBracket(a as real / d as real, a / d);
  }

  /** The Euclidean quotient brackets the numerator between two multiples, over the reals. */
  lemma {:induction false} QuotientBracket(a: nat, d: int)
    requires d > 0
    ensures (a / d) as real * d as real <= a as real < ((a / d) as real + 1.0) * d as real
  {
    DivBounds(a, d);
    RealProduct(a / d, d);
    RealProduct(a / d + 1, d);
  }

  /** Conversion to real commutes with multiplication. */
  lemma {:induction false} RealProduct(a: int, b: int)
    ensures (a * b) as real == a as real * b as real
  {
  }

  /** A real quotient lies between q and q + 1 when the numerator lies between
      the corresponding multiples of the divisor. */
  lemma {:induction false} RealDivide(x: real, q: real, d: real, n: real)
    requires d > 0.0 && x == n / d
    requires q * d <= n < (q + 1.0) * d
    ensures q <= x < q + 1.0
  {
    assert x * d == n;
    RealCancel(q, x, d);
    RealCancel(x, q + 1.0, d);
  }

  /** A positive factor can be cancelled from both sides of a weak or a strict inequality. */
  lemma {:induction false} RealCancel(a: real, b: real, d: real)
    requires d > 0.0
    ensures a * d <= b * d ==> a <= b
    ensures a * d < b * d ==> a < b
  {
  }

  /** A non-negative real between q and q + 1 truncates to q. */
  lemma {:induction false} TruncBracket(x: real, q: nat)
    requires q as real <= x < q as real + 1.0
    ensures Trunc(x) == q
  {
  }

  /** 16-bit two's-complement reinterpretation used for power samples: a raw
      value above 32767 stands for a negative power. */
  function SignCorrect(v: int): (s: int)
    ensures (v - s) % 65536 == 0
    ensures v <= 65535 ==> s <= 32767
    ensures -32768 <= v ==> -32768 <= s
    ensures 0 <= v <= 65535 ==> (s < 0 <==> v > 32767)
  {
    if v > 32767 then v - 65536 else v
  }
}
