/** Shared numeric vocabulary of the engine: the two irrational constants the
    modules use, real helpers that mirror Python's `abs`, `min`, `max`, float `%`
    and `int()`, exact integer powers of the golden ratio, and the
    transcendental functions, which the model leaves uninterpreted apart from
    the range facts collected in `Valid`. */
module Numerics {

  /** `math.pi` as Python prints it. */
  const Pi: real := 3.141592653589793

  /** The golden ratio as the modules spell it out. */
  const Phi: real := 1.618033988749895

  function Abs(x: real): (r: real)
    ensures r >= 0.0 && (r == x || r == -x)
  {
    if x < 0.0 then -x else x
  }

  function Min(a: real, b: real): (r: real)
    ensures r <= a && r <= b && (r == a || r == b)
  {
    if b < a then b else a
  }

  function Max(a: real, b: real): (r: real)
    ensures r >= a && r >= b && (r == a || r == b)
  {
    if b > a then b else a
  }

  lemma MulNonneg(x: real, y: real)
    requires x >= 0.0 && y >= 0.0
    ensures x * y >= 0.0
  {
  }

  lemma ProductInUnit(x: real, y: real)
    requires 0.0 < x <= 1.0 && 0.0 < y <= 1.0
    ensures 0.0 < x * y <= 1.0
  {
    MulNonneg(1.0 - x, y);
  }

  /** The smaller of two positive numbers over the larger lies in (0, 1]. */
  lemma MinOverMaxInUnit(a: real, b: real)
    requires a > 0.0 && b > 0.0
    ensures 0.0 < Min(a, b) / Max(a, b) <= 1.0
  {
    var lo, hi := Min(a, b), Max(a, b);
    assert lo / hi * hi == lo;
  }

  /** Scaling by a factor of magnitude at most 1 never increases magnitude. */
  lemma AbsProductBound(a: real, b: real)
    requires -1.0 <= a <= 1.0
    ensures Abs(a * b) <= Abs(b)
  {
    if b >= 0.0 {
      MulNonneg(1.0 - a, b);
      MulNonneg(a + 1.0, b);
    } else {
      MulNonneg(1.0 - a, -b);
      MulNonneg(a + 1.0, -b);
    }
  }

  /** Python's `x % d` on floats for a positive divisor: the result takes the
      sign of the divisor, so it always lies in [0, d). */
  function FloorMod(x: real, d: real): (r: real)
    requires d > 0.0
    ensures 0.0 <= r < d
  {
    var q := (x / d).Floor;
    var z := x / d - q as real;
    assert 0.0 <= z < 1.0;
    assert z * d < 1.0 * d;
    assert x - q as real * d == z * d;
    x - q as real * d
  }

  /** Python's `int(x)` on a float: truncation toward zero. */
  function Truncate(x: real): (r: int)
    ensures x >= 0.0 ==> 0 <= r && r as real <= x < r as real + 1.0
    ensures x < 0.0 ==> r <= 0 && x <= r as real < x + 1.0
  {
    if x >= 0.0 then x.Floor else -((-x).Floor)
  }

  /** `Phi ** n` for a natural exponent, computed exactly. */
  function PhiPow(n: nat): (r: real)
    ensures r >= 1.0
    ensures n >= 1 ==> r >= Phi
  {
    if n == 0 then 1.0 else Phi * PhiPow(n - 1)
  }

  /** `Phi ** k` for an integer exponent of either sign. */
  function PhiIntPow(k: int): (r: real)
    ensures r > 0.0
    ensures k >= 0 ==> r == PhiPow(k)
    ensures k < 0 ==> r <= 1.0
  {
    if k >= 0 then PhiPow(k) else 1.0 / PhiPow(-k)
  }

  /** Successive powers of Phi grow by at least 0.6, so no real number lies
      within 0.1 of two of them. */
  lemma {:induction false} PhiPowGap(n: nat)
    ensures PhiPow(n + 1) - PhiPow(n) >= 0.6
  {
    assert PhiPow(n + 1) == Phi * PhiPow(n);
    assert PhiPow(n + 1) - PhiPow(n) == (Phi - 1.0) * PhiPow(n);
    assert (Phi - 1.0) * PhiPow(n) >= (Phi - 1.0) * 1.0;
  }

  /** Powers of Phi grow strictly with the exponent, by at least 0.6 per step. */
  lemma {:induction false} PhiPowSpread(m: nat, n: nat)
    requires m < n
    ensures PhiPow(n) - PhiPow(m) >= 0.6 * (n - m) as real
    decreases n - m
  {
    PhiPowGap(m);
    if m + 1 < n {
      PhiPowSpread(m + 1, n);
    }
  }

  /** The reciprocal of a positive power of Phi is at most 1/Phi < 0.62. */
  lemma PhiPowReciprocal(n: nat)
    requires n >= 1
    ensures 0.0 < 1.0 / PhiPow(n) < 0.62
  {
    var p := PhiPow(n);
    assert p >= Phi;
    assert 0.62 * p > 1.0;
  }

  /** The transcendental functions of Python's `math` module, as function
      values. Only the facts in `Valid` are known about them; the model never
      relies on their numeric values. `phiPow(y)` is `Phi ** y` for a real
      exponent `y`. */
  datatype Transcendentals = Transcendentals(
    sin: real -> real,
    cos: real -> real,
    exp: real -> real,
    log: real -> real,
    phiPow: real -> real)

  /** How many elements of `s` satisfy `active`: the
      `len([x for x in s if x['active']])` that every status summary reports. */
  function CountWhere<T>(s: seq<T>, active: T -> bool): (n: nat)
    ensures n <= |s|
    ensures n == 0 <==> forall k :: 0 <= k < |s| ==> !active(s[k])
  {
    if s == [] then 0 else (if active(s[0]) then 1 else 0) + CountWhere(s[1..], active)
  }

  lemma {:induction false} CountWhereAppend<T>(a: seq<T>, b: seq<T>, active: T -> bool)
    ensures CountWhere(a + b, active) == CountWhere(a, active) + CountWhere(b, active)
  {
    if a == [] {
      assert a + b == b;
    } else {
      assert (a + b)[1..] == a[1..] + b;
      CountWhereAppend(a[1..], b, active);
    }
  }

  lemma {:induction false} CountWhereAll<T>(s: seq<T>, active: T -> bool)
    requires forall k :: 0 <= k < |s| ==> active(s[k])
    ensures CountWhere(s, active) == |s|
  {
    if s != [] {
      CountWhereAll(s[1..], active);
    }
  }

  /** `math.log(r) / math.log(Phi)`: the logarithm of `r` to base Phi. */
  function LogPhi(t: Transcendentals, r: real): real
    requires t.log(Phi) != 0.0
  {
    t.log(r) / t.log(Phi)
  }

  /** What the model assumes of the transcendental functions: ranges, the
      values at a few points, `exp(-1) <= 1/2` (that is, `e >= 2`),
      and that `Phi ** log_Phi(r)` is `r`. Each fact holds of the mathematical
      functions, with `Pi` standing for the number it rounds. */
  ghost predicate Valid(t: Transcendentals) {
    && (forall x :: -1.0 <= t.sin(x) <= 1.0)
    && t.sin(Pi / 2.0) == 1.0
    && t.sin(Pi) == 0.0
    && (forall x :: 0.0 <= x <= Pi / 2.0 ==> 0.0 <= t.cos(x) <= 1.0)
    && t.cos(0.0) == 1.0
    && (forall x :: t.exp(x) > 0.0)
    && (forall x :: x <= 0.0 ==> t.exp(x) <= 1.0)
    && t.exp(-1.0) <= 0.5
    && t.exp(0.0) == 1.0
    && (forall x :: x > 1.0 ==> t.log(x) > 0.0)
    && t.log(Phi) > 0.0
    && (forall y :: t.phiPow(y) > 0.0)
    && (forall y :: y >= 0.0 ==> t.phiPow(y) >= 1.0)
    && (forall r :: r > 0.0 ==> t.phiPow(LogPhi(t, r)) == r)
  }
}

/** The outcomes of operations that Python lets raise, instead of a catch-all. */
module Outcomes {

  datatype Option<+T> = None | Some(value: T)

  /** The exceptions the modelled code can raise. */
  datatype Fault =
    | InvalidLevel(name: string)   // ValueError for an unknown consciousness level
    | ZeroDivision                 // ZeroDivisionError
    | MathDomain                   // ValueError: math domain error (log of a negative)

  datatype Result<+T> = Ok(value: T) | Err(fault: Fault)
}
