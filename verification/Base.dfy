// Failure-compatible result types and the machine integers the program uses.

module Wrappers {

  /** An optional value; `:-` plays the part of the source's `?` operator. */
  datatype Option<+T> = None | Some(value: T) {
    predicate IsFailure() {
      None?
    }

    function PropagateFailure<U>(): Option<U>
      requires None?
    {
      None
    }

    function Extract(): T
      requires Some?
    {
      value
    }
  }

  /** Success with a value or failure with an error. */
  datatype Result<+T, +E> = Ok(value: T) | Err(error: E) {
    predicate IsFailure() {
      Err?
    }

    function PropagateFailure<U>(): Result<U, E>
      requires Err?
    {
      Err(error)
    }

    function Extract(): T
      requires Ok?
    {
      value
    }
  }

  /** The value of `o`, or the error `e` when there is none. */
  function OkOr<T, E>(o: Option<T>, e: E): Result<T, E> {
    if o.Some? then Ok(o.value) else Err(e)
  }
}

module Numbers {
  const I64_MIN: int := -0x8000_0000_0000_0000
  const I64_MAX: int := 0x7FFF_FFFF_FFFF_FFFF
  const TWO_64: int := 0x1_0000_0000_0000_0000

  type byte = x: int | 0 <= x < 0x100
  type u16 = x: int | 0 <= x < 0x1_0000
  type u32 = x: int | 0 <= x < 0x1_0000_0000
  type u64 = x: int | 0 <= x < TWO_64
  type i64 = x: int | I64_MIN <= x <= I64_MAX

  predicate FitsI64(x: int) {
    I64_MIN <= x <= I64_MAX
  }

  /** Integer division that rounds toward zero. */
  function TruncDiv(a: int, b: int): int
    requires b != 0
  {
    var q := Abs(a) / Abs(b);
    if (a >= 0) == (b > 0) then q else -q
  }

  /** A narrowing cast to 64 bits: the residue that a two's complement register holds. */
  function WrapI64(x: int): i64 {
    (x - I64_MIN) % TWO_64 + I64_MIN
  }

  function Abs(x: int): nat {
    if x < 0 then -x else x
  }

  function Pow(b: int, e: nat): int {
    if e == 0 then 1 else b * Pow(b, e - 1)
  }

  lemma {:induction false} PowAdd(b: int, m: nat, n: nat)
    ensures Pow(b, m + n) == Pow(b, m) * Pow(b, n)
  {
    if m > 0 {
      PowAdd(b, m - 1, n);
      assert b * (Pow(b, m - 1) * Pow(b, n)) == (b * Pow(b, m - 1)) * Pow(b, n);
    }
  }

  lemma MulInterchange(a: int, b: int, x: int, y: int)
    ensures (a * b) * (x * y) == (a * x) * (b * y)
  {
    calc {
      (a * b) * (x * y);
      a * (b * (x * y));
      a * (x * (b * y));
      (a * x) * (b * y);
    }
  }

  lemma {:induction false} PowOfProduct(a: int, b: int, n: nat)
    ensures Pow(a * b, n) == Pow(a, n) * Pow(b, n)
  {
    if n > 0 {
      PowOfProduct(a, b, n - 1);
      MulInterchange(a, b, Pow(a, n - 1), Pow(b, n - 1));
    }
  }

  lemma {:induction false} PowSquare(b: int, n: nat)
    ensures Pow(b * b, n) == Pow(b, 2 * n)
  {
    PowOfProduct(b, b, n);
    PowAdd(b, n, n);
    assert 2 * n == n + n;
  }

  lemma {:induction false} PowPositive(b: int, n: nat)
    requires b > 0
    ensures Pow(b, n) > 0
  {
    if n > 0 {
      PowPositive(b, n - 1);
    }
  }

  lemma {:induction false} PowMonotone(b: int, m: nat, n: nat)
    requires b > 0 && m <= n
    ensures Pow(b, m) <= Pow(b, n)
    decreases n - m
  {
    if m < n {
      PowMonotone(b, m + 1, n);
      PowPositive(b, m);
      assert Pow(b, m + 1) == b * Pow(b, m);
      assert Pow(b, m) <= b * Pow(b, m);
    }
  }

  lemma MulMonotone(m: nat, n: nat, b: nat)
    requires m <= n
    ensures m * b <= n * b
  {
  }

  /** The quotient of natural numbers is fixed by the interval it names. */
  lemma QuotientUnique(x: nat, b: nat, q: nat)
    requires b > 0
    ensures x / b == q <==> q * b <= x < q * b + b
  {
    var n := x / b;
    assert n * b <= x < n * b + b;
    if q < n {
      MulMonotone(q + 1, n, b);
      assert (q + 1) * b == q * b + b;
    } else if n < q {
      MulMonotone(n + 1, q, b);
      assert (n + 1) * b == n * b + b;
    }
  }

  /** Rounding toward zero is the only division whose error is below one divisor and whose
      quotient never leaves the dividend's side of zero. */
  lemma TruncDivUnique(a: int, b: int, q: int)
    requires b > 0
    ensures TruncDiv(a, b) == q
       <==> Abs(q) * b <= Abs(a) < Abs(q) * b + b && (q > 0 ==> a > 0) && (q < 0 ==> a < 0)
  {
    var n := Abs(a) / b;
    QuotientNatural(Abs(a), b);
    QuotientUnique(Abs(a), b, Abs(q));
    QuotientUnique(Abs(a), b, 0);
    assert Abs(q) == n <==> Abs(q) * b <= Abs(a) < Abs(q) * b + b;
    var t := TruncDiv(a, b);
    assert t == q <==> Abs(q) == n && (q > 0 ==> a > 0) && (q < 0 ==> a < 0);
  }

  lemma QuotientNatural(x: nat, b: nat)
    requires b > 0
    ensures x / b >= 0
  {
  }

  lemma TruncDivExact(x: int, d: int)
    requires d > 0
    ensures TruncDiv(x * d, d) == x
  {
    MulSign(x, d);
    TruncDivUnique(x * d, d, x);
  }

  lemma MulSign(x: int, d: int)
    requires d > 0
    ensures Abs(x * d) == Abs(x) * d
    ensures x > 0 ==> x * d > 0
    ensures x < 0 ==> x * d < 0
  {
    if x < 0 {
      assert (-x) * d == -(x * d);
      MulMonotone(1, -x, d);
    } else if x > 0 {
      MulMonotone(1, x, d);
    }
  }
}

module Counting {
  /** How many elements of `xs` satisfy `p`. */
  function Count<T>(xs: seq<T>, p: T -> bool): (n: nat)
    ensures n <= |xs|
  {
    if xs == [] then 0 else Count(xs[..|xs| - 1], p) + if p(xs[|xs| - 1]) then 1 else 0
  }

  lemma {:induction false} CountAppend<T>(a: seq<T>, b: seq<T>, p: T -> bool)
    ensures Count(a + b, p) == Count(a, p) + Count(b, p)
  {
    if b == [] {
      assert a + b == a;
    } else {
      CountAppend(a, b[..|b| - 1], p);
      assert (a + b)[..|a + b| - 1] == a + b[..|b| - 1];
    }
  }

  lemma {:induction false} CountSame<T>(xs: seq<T>, p: T -> bool, q: T -> bool)
    requires forall x | x in xs :: p(x) == q(x)
    ensures Count(xs, p) == Count(xs, q)
  {
    if xs != [] {
      CountSame(xs[..|xs| - 1], p, q);
    }
  }

  lemma MultisetWithout<T>(b: seq<T>, i: nat)
    requires i < |b|
    ensures multiset(b[..i] + b[i + 1..]) == multiset(b) - multiset{b[i]}
  {
    assert b == b[..i] + ([b[i]] + b[i + 1..]);
  }

  lemma {:induction false} CountWithout<T>(b: seq<T>, i: nat, p: T -> bool)
    requires i < |b|
    ensures Count(b, p) == Count(b[..i] + b[i + 1..], p) + if p(b[i]) then 1 else 0
  {
    var n := |b| - 1;
    var rest := b[..i] + b[i + 1..];
    if i == n {
      assert rest == b[..n];
    } else {
      CountWithout(b[..n], i, p);
      assert rest[..|rest| - 1] == b[..n][..i] + b[..n][i + 1..];
      assert rest[|rest| - 1] == b[n];
    }
  }

  /** A count does not depend on the order. */
  lemma {:induction false} CountReordered<T>(a: seq<T>, b: seq<T>, p: T -> bool)
    requires multiset(a) == multiset(b)
    ensures Count(a, p) == Count(b, p)
  {
    if a == [] {
      assert multiset(b) == multiset{};
      assert b == [];
    } else {
      var n := |a| - 1;
      assert a == a[..n] + [a[n]];
      assert a[n] in multiset(b);
      var i :| 0 <= i < |b| && b[i] == a[n];
      CountWithout(b, i, p);
      MultisetWithout(b, i);
      assert multiset(a[..n]) == multiset(a) - multiset{a[n]};
      CountReordered(a[..n], b[..i] + b[i + 1..], p);
    }
  }
}
