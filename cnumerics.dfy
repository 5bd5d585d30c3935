/** The C++ arithmetic the firmware relies on, written out over Dafny's
    unbounded integers and reals: `int` division and remainder truncate
    toward zero, `static_cast<int>` of a float truncates toward zero, and
    `floor` / `ceil` of a float give integral values. */
module CNumerics {

  function Min(a: int, b: int): int { if a <= b then a else b }
  function Max(a: int, b: int): int { if a >= b then a else b }
  function MaxReal(a: real, b: real): real { if a >= b then a else b }

  /** C++ `a / b` on `int`: the quotient truncated toward zero. */
  function CDiv(a: int, b: int): int
    requires b != 0
  {
    if b > 0 then
      (if a >= 0 then a / b else -((-a) / b))
    else
      (if a >= 0 then -(a / -b) else (-a) / -b)
  }

  /** C++ `a % b` on `int`: the remainder takes the sign of `a`. */
  function CMod(a: int, b: int): int
    requires b != 0
  {
    a - b * CDiv(a, b)
  }

  /** For a positive divisor, C division agrees with Euclidean division on
      a non-negative dividend and is its mirror image on a negative one;
      the C remainder lies strictly between `-b` and `b` and has the sign
      of the dividend. */
  lemma CDivPositive(a: int, b: int)
    requires b > 0
    ensures a >= 0 ==> CDiv(a, b) == a / b && CMod(a, b) == a % b && 0 <= CMod(a, b) < b
    ensures a < 0 ==> CDiv(a, b) == -((-a) / b) && -b < CMod(a, b) <= 0
    ensures a == b * CDiv(a, b) + CMod(a, b)
  {
  }

  /** C division by a positive divisor is monotone on non-negative
      dividends. */
  lemma CDivMonotone(a: int, b: int, n: int)
    requires 0 <= a <= b && n > 0
    ensures 0 <= CDiv(a, n) <= CDiv(b, n)
  {
    CDivPositive(a, n);
    CDivPositive(b, n);
    DivMonotone(0, a, n);
    DivMonotone(a, b, n);
  }

  /** A dividend of at most `n*w` gives a quotient of at most `w`. */
  lemma CDivAtMost(a: int, n: int, w: int)
    requires 0 <= a <= n * w && n > 0
    ensures CDiv(a, n) <= w
  {
    CDivPositive(a, n);
    DivMonotone(a, n * w, n);
    DivUnique(n * w, n, w, 0);
  }

  /** `static_cast<int>(r)`: drops the fractional part, toward zero. */
  function Trunc(r: real): int
  {
    if r >= 0.0 then r.Floor else -((-r).Floor)
  }

  /** `floor(r)`: the largest integer not above `r`. */
  function Floor(r: real): int
  {
    r.Floor
  }

  /** `ceil(r)`: the smallest integer not below `r`. */
  function Ceil(r: real): int
  {
    -((-r).Floor)
  }

  /** Truncation moves toward zero by less than one. */
  lemma TruncBounds(r: real)
    ensures r >= 0.0 ==> 0 <= Trunc(r) && Trunc(r) as real <= r < Trunc(r) as real + 1.0
    ensures r < 0.0 ==> Trunc(r) <= 0 && Trunc(r) as real - 1.0 < r <= Trunc(r) as real
  {
  }

  lemma FloorCeilBounds(r: real)
    ensures Floor(r) as real <= r < Floor(r) as real + 1.0
    ensures Ceil(r) as real - 1.0 < r <= Ceil(r) as real
  {
  }

  /** Concatenation is associative; stated once so that proofs about long
      command logs need not re-derive it element by element. */
  lemma AppendAssoc<T>(a: seq<T>, b: seq<T>, c: seq<T>)
    ensures (a + b) + c == a + (b + c)
  {
  }

  lemma PeriodStep(k: int, p: int)
    ensures (k + 1) * p == k * p + p
  {
  }

  lemma MulMonotone(i: int, j: int, p: int)
    requires i <= j && p >= 0
    ensures i * p <= j * p
  {
  }

  lemma MulAtLeast(a: int, p: int)
    requires a >= 1 && p > 0
    ensures a * p >= p
  {
  }

  lemma Distrib(a: int, b: int, p: int)
    ensures a * p - b * p == (a - b) * p
  {
  }

  /** Euclidean division is determined by quotient and remainder. */
  lemma DivUnique(n: int, p: int, q: int, r: int)
    requires p > 0 && 0 <= r < p && n == q * p + r
    ensures n / p == q
  {
    var q0, r0 := n / p, n % p;
    assert n == q0 * p + r0;
    if q0 < q {
      MulAtLeast(q - q0, p);
      Distrib(q, q0, p);
    } else if q0 > q {
      MulAtLeast(q0 - q, p);
      Distrib(q0, q, p);
    }
  }

  lemma DivShift(n: int, p: int)
    requires p > 0 && n >= p
    ensures n / p == (n - p) / p + 1
  {
    var q, r := (n - p) / p, (n - p) % p;
    assert n == (q + 1) * p + r;
    DivUnique(n, p, q + 1, r);
  }

  lemma DivMonotone(a: int, b: int, n: int)
    requires a <= b && n > 0
    ensures a / n <= b / n
  {
    var qa, qb := a / n, b / n;
    assert a == qa * n + a % n && b == qb * n + b % n;
    if qa > qb {
      MulMonotone(qb + 1, qa, n);
      PeriodStep(qb, n);
    }
  }
}
