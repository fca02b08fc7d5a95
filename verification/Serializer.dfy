// Byte codecs: serializer.rs. Encoders are functions to byte sequences; decoders take the bytes
// that remain and return a value with what is left. The two classes are the growing vector and
// the read cursor that the source updates in place.

module Serializer {
  import opened Wrappers
  import opened Numbers
  import opened Assets

  datatype Parsed<+T> = NotParsed | Parsed(value: T, rest: seq<byte>) {
    predicate IsFailure() {
      NotParsed?
    }

    function PropagateFailure<U>(): Parsed<U>
      requires NotParsed?
    {
      NotParsed
    }

    function Extract(): (T, seq<byte>)
      requires Parsed?
    {
      (value, rest)
    }
  }

  // ----- big-endian integers -----

  function EncBE(n: nat, k: nat): (s: seq<byte>)
    ensures |s| == k
  {
    if k == 0 then [] else EncBE(n / 256, k - 1) + [n % 256]
  }

  function DecBE(s: seq<byte>): nat {
    if s == [] then 0 else DecBE(s[..|s| - 1]) * 256 + s[|s| - 1]
  }

  lemma {:induction false} BERoundTrip(n: nat, k: nat)
    requires n < Pow(256, k)
    ensures DecBE(EncBE(n, k)) == n
  {
    if k > 0 {
      assert Pow(256, k) == 256 * Pow(256, k - 1);
      BERoundTrip(n / 256, k - 1);
      assert EncBE(n, k)[..k - 1] == EncBE(n / 256, k - 1);
    }
  }

  lemma {:induction false} DecBEBound(s: seq<byte>)
    ensures DecBE(s) < Pow(256, |s|)
  {
    if s != [] {
      DecBEBound(s[..|s| - 1]);
      assert Pow(256, |s|) == 256 * Pow(256, |s| - 1);
    }
  }

  lemma Pow256()
    ensures Pow(256, 2) == 0x1_0000 && Pow(256, 4) == 0x1_0000_0000 && Pow(256, 8) == TWO_64
  {
    PowAdd(256, 2, 2);
    PowAdd(256, 4, 4);
  }

  function EncU16(n: u16): (s: seq<byte>) ensures |s| == 2 { EncBE(n, 2) }

  function EncU32(n: u32): (s: seq<byte>) ensures |s| == 4 { EncBE(n, 4) }

  function EncU64(n: u64): (s: seq<byte>) ensures |s| == 8 { EncBE(n, 8) }

  /** Two's complement. */
  function EncI64(n: i64): (s: seq<byte>) ensures |s| == 8 { EncBE(n % TWO_64, 8) }

  function DecU16(s: seq<byte>): u16 requires |s| == 2 { DecBEBound(s); Pow256(); DecBE(s) }

  function DecU32(s: seq<byte>): u32 requires |s| == 4 { DecBEBound(s); Pow256(); DecBE(s) }

  function DecU64(s: seq<byte>): u64 requires |s| == 8 { DecBEBound(s); Pow256(); DecBE(s) }

  function DecI64(s: seq<byte>): i64 requires |s| == 8 { WrapI64(DecU64(s)) }

  lemma I64RoundTrip(n: i64)
    ensures DecI64(EncI64(n)) == n
  {
    Pow256();
    BERoundTrip(n % TWO_64, 8);
  }

  lemma U64RoundTrip(n: u64)
    ensures DecU64(EncU64(n)) == n
  {
    Pow256();
    BERoundTrip(n, 8);
  }

  lemma U32RoundTrip(n: u32)
    ensures DecU32(EncU32(n)) == n
  {
    Pow256();
    BERoundTrip(n, 4);
  }

  lemma U16RoundTrip(n: u16)
    ensures DecU16(EncU16(n)) == n
  {
    Pow256();
    BERoundTrip(n, 2);
  }

  // ----- variable-length integers -----

  /** Signed numbers of small magnitude map to small unsigned numbers. */
  function ZigZagEncode(v: i64): u64 {
    if v >= 0 then 2 * v else -2 * v - 1
  }

  function ZigZagDecode(n: u64): i64 {
    if n % 2 == 0 then n / 2 else -(n / 2) - 1
  }

  function EncVarU(n: nat): (s: seq<byte>)
    ensures |s| > 0
  {
    if n < 128 then [n] else [128 + n % 128] + EncVarU(n / 128)
  }

  function EncVarI64(v: i64): seq<byte> {
    EncVarU(ZigZagEncode(v))
  }

  function Pow2(n: nat): (r: nat)
    ensures r > 0
  {
    if n == 0 then 1 else 2 * Pow2(n - 1)
  }

  lemma {:induction false} Pow2Add(m: nat, n: nat)
    ensures Pow2(m + n) == Pow2(m) * Pow2(n)
  {
    if m > 0 {
      Pow2Add(m - 1, n);
      assert Pow2(m + n) == 2 * Pow2(m - 1 + n) && Pow2(m) == 2 * Pow2(m - 1);
      hide Pow2;
      DoubleProduct(Pow2(m - 1), Pow2(n));
    }
  }

  lemma DoubleProduct(a: int, b: int)
    ensures (2 * a) * b == 2 * (a * b)
  {
  }

  lemma {:induction false} Pow2Monotone(m: nat, n: nat)
    requires m <= n
    ensures Pow2(m) <= Pow2(n)
    decreases n - m
  {
    if m < n {
      Pow2Monotone(m + 1, n);
    }
  }

  lemma Pow2Values()
    ensures Pow2(7) == 128 && Pow2(64) == TWO_64
  {
    assert Pow2(8) == 256;
    Pow2Add(8, 8);
    assert Pow2(16) == 0x1_0000;
    Pow2Add(16, 16);
    assert Pow2(32) == 0x1_0000_0000;
    Pow2Add(32, 32);
  }

  /** A left shift in a 64-bit register, one place at a time: bits past the top are lost. */
  function ShiftLeft(x: u64, k: nat): u64 {
    if k == 0 then x else 2 * ShiftLeft(x, k - 1) % TWO_64
  }

  lemma {:induction false} ShiftLeftIs(x: u64, k: nat)
    requires k <= 64
    ensures ShiftLeft(x, k) == x % Pow2(64 - k) * Pow2(k)
  {
    Pow2Values();
    if k > 0 {
      ShiftLeftIs(x, k - 1);
      var m, p := Pow2(64 - k), Pow2(k - 1);
      Pow2Add(64 - k, k);
      ShiftOnce(x, m, p);
    }
  }

  /** Doubling drops the top bit of what is kept and moves the rest up. */
  lemma ShiftOnce(x: nat, m: nat, p: nat)
    requires m > 0 && p > 0 && m * (2 * p) == TWO_64
    ensures 2 * (x % (2 * m) * p) % TWO_64 == x % m * (2 * p)
  {
    var q, r := x % (2 * m), x % m;
    HalfRemainder(x, m);
    RowBound(r, m, 2 * p, 0);
    if q == r {
      assert 2 * (q * p) == r * (2 * p);
      RemainderBelow(r * (2 * p), TWO_64, r * (2 * p));
    } else {
      assert 2 * ((r + m) * p) == TWO_64 + r * (2 * p);
      RemainderOfSum(1, TWO_64, r * (2 * p));
      RemainderBelow(r * (2 * p), TWO_64, r * (2 * p));
    }
  }

  lemma HalfRemainder(x: nat, m: nat)
    requires m > 0
    ensures x % (2 * m) == x % m || x % (2 * m) == x % m + m
  {
    var q, d := x % (2 * m), x / (2 * m);
    assert x == 2 * m * d + q;
    assert 2 * m * d == m * (2 * d);
    RemainderOfSum(2 * d, m, q);
    if q < m {
      RemainderBelow(q, m, q);
    } else {
      RemainderOfSum(1, m, q - m);
      RemainderBelow(q - m, m, q - m);
    }
  }

  lemma RemainderOfSum(k: nat, m: nat, q: nat)
    requires m > 0
    ensures (m * k + q) % m == q % m
  {
    QuotientUnique(m * k + q, m, k + q / m);
    assert (k + q / m) * m == m * k + q / m * m;
  }

  /** The seven payload bits of `b`, moved to their place. */
  function Shifted(b: byte, shift: nat): nat {
    ShiftLeft(b % 128, shift)
  }

  lemma ShiftedBound(b: byte, shift: nat, acc: nat)
    requires shift < 64 && acc < Pow2(shift)
    ensures acc + Shifted(b, shift) < TWO_64
    ensures acc + Shifted(b, shift) < Pow2(shift + 7)
  {
    var p, m := Pow2(shift), Pow2(64 - shift);
    ShiftLeftIs(b % 128, shift);
    var x := b % 128 % m;
    Pow2Add(64 - shift, shift);
    Pow2Add(7, shift);
    Pow2Values();
    RowBound(x, m, p, acc);
    RemainderAtMost(b % 128, m);
    RowBound(x, 128, p, acc);
  }

  lemma RemainderAtMost(r: nat, m: nat)
    requires m > 0
    ensures r % m <= r
  {
  }

  lemma RowBound(x: nat, m: nat, p: nat, acc: nat)
    requires x < m && acc < p
    ensures acc + x * p < m * p
  {
    MulMonotone(x + 1, m, p);
    assert (x + 1) * p == x * p + p;
  }

  /** The decoding loop with its two registers; the pieces occupy disjoint bits, so the bitwise
      or of the source is a sum. */
  function TakeVarU(s: seq<byte>, shift: nat, acc: nat): (r: Parsed<u64>)
    requires acc < Pow2(shift)
    decreases 70 - shift
  {
    if shift > 63 || s == [] then NotParsed
    else
      ShiftedBound(s[0], shift, acc);
      var acc' := acc + Shifted(s[0], shift);
      if s[0] < 128 then Parsed(acc', s[1..]) else TakeVarU(s[1..], shift + 7, acc')
  }

  lemma TakeVarUStep(s: seq<byte>, b: byte, t: seq<byte>, shift: nat, acc: nat)
    requires s == [b] + t && shift < 64 && acc < Pow2(shift)
    ensures acc + Shifted(b, shift) < TWO_64
    ensures acc + Shifted(b, shift) < Pow2(shift + 7)
    ensures TakeVarU(s, shift, acc) == if b < 128 then Parsed(acc + Shifted(b, shift), t)
                                       else TakeVarU(t, shift + 7, acc + Shifted(b, shift))
  {
    ShiftedBound(b, shift, acc);
    assert s[1..] == t;
  }

  lemma {:induction false} VarURoundTrip(n: nat, shift: nat, acc: nat, rest: seq<byte>)
    requires shift < 64 && acc < Pow2(shift) && n < Pow2(64 - shift)
    ensures TakeVarU(EncVarU(n) + rest, shift, acc) == Parsed(acc + n * Pow2(shift), rest)
    decreases n
  {
    var s := EncVarU(n) + rest;
    ShiftedBound(s[0], shift, acc);
    ShiftedPiece(n, shift, s[0]);
    if n < 128 {
      assert s[1..] == rest;
    } else {
      assert s[1..] == EncVarU(n / 128) + rest;
      VarURoundTrip(n / 128, shift + 7, acc + Shifted(s[0], shift), rest);
    }
  }

  /** One byte of the encoding carries the low seven bits; the rest weigh 128 times as much. */
  lemma ShiftedPiece(n: nat, shift: nat, b: byte)
    requires shift < 64 && n < Pow2(64 - shift) && b % 128 == n % 128
    ensures n < 128 ==> Shifted(b, shift) == n * Pow2(shift)
    ensures n >= 128 ==> shift + 7 < 64 && n / 128 < Pow2(64 - (shift + 7))
    ensures n >= 128 ==> Shifted(b, shift) + n / 128 * Pow2(shift + 7) == n * Pow2(shift)
  {
    Pow2Values();
    var m := Pow2(64 - shift);
    ShiftLeftIs(b % 128, shift);
    RemainderBelow(n % 128, m, n);
    if n >= 128 {
      if 64 - shift <= 7 {
        Pow2Monotone(64 - shift, 7);
        assert false;
      }
      Pow2Add(7, 57 - shift);
      Pow2Add(7, shift);
      QuotientBelow(n, Pow2(57 - shift));
      Regroup(n, Pow2(shift));
    }
  }

  lemma RemainderBelow(r: nat, m: nat, n: nat)
    requires r <= n < m
    ensures r % m == r
  {
  }

  lemma QuotientBelow(n: nat, k: nat)
    requires n < 128 * k
    ensures n / 128 < k
  {
  }

  lemma Regroup(n: nat, p: nat)
    ensures n % 128 * p + n / 128 * (128 * p) == n * p
  {
    var q, r := n / 128, n % 128;
    assert n == q * 128 + r;
    assert q * (128 * p) == q * 128 * p;
    assert (q * 128 + r) * p == q * 128 * p + r * p;
  }

  // ----- cursor reads on the remaining bytes -----

  function TakeN(s: seq<byte>, n: nat): (r: Parsed<seq<byte>>)
    ensures r.Parsed? ==> |r.value| == n && s == r.value + r.rest
  {
    if n <= |s| then Parsed(s[..n], s[n..]) else NotParsed
  }

  function TakeU8(s: seq<byte>): Parsed<byte> {
    if s == [] then NotParsed else Parsed(s[0], s[1..])
  }

  function TakeU16(s: seq<byte>): Parsed<u16> {
    var (b, t) :- TakeN(s, 2);
    Parsed(DecU16(b), t)
  }

  function TakeU32(s: seq<byte>): Parsed<u32> {
    var (b, t) :- TakeN(s, 4);
    Parsed(DecU32(b), t)
  }

  function TakeU64(s: seq<byte>): Parsed<u64> {
    var (b, t) :- TakeN(s, 8);
    Parsed(DecU64(b), t)
  }

  function TakeAsset(s: seq<byte>): Parsed<Asset> {
    var (n, t) :- TakeVarU(s, 0, 0);
    Parsed(ZigZagDecode(n), t)
  }

  /** The length prefix is the length cast to 32 bits. */
  function EncBytes(b: seq<byte>): seq<byte> {
    EncU32(|b| % 0x1_0000_0000) + b
  }

  function TakeBytes(s: seq<byte>): Parsed<seq<byte>> {
    var (n, t) :- TakeU32(s);
    TakeN(t, n)
  }

  // ----- what decoding an encoding gives, whatever follows it -----

  lemma Assoc(a: seq<byte>, b: seq<byte>, c: seq<byte>)
    ensures (a + b) + c == a + (b + c)
  {
  }

  lemma TakeNOf(b: seq<byte>, rest: seq<byte>)
    ensures TakeN(b + rest, |b|) == Parsed(b, rest)
  {
    assert (b + rest)[..|b|] == b;
    assert (b + rest)[|b|..] == rest;
  }

  lemma TakeU8Of(b: byte, rest: seq<byte>)
    ensures TakeU8([b] + rest) == Parsed(b, rest)
  {
    assert ([b] + rest)[1..] == rest;
  }

  lemma TakeU16Of(n: u16, rest: seq<byte>)
    ensures TakeU16(EncU16(n) + rest) == Parsed(n, rest)
  {
    TakeNOf(EncU16(n), rest);
    U16RoundTrip(n);
  }

  lemma TakeU32Of(n: u32, rest: seq<byte>)
    ensures TakeU32(EncU32(n) + rest) == Parsed(n, rest)
  {
    TakeNOf(EncU32(n), rest);
    U32RoundTrip(n);
  }

  lemma TakeU64Of(n: u64, rest: seq<byte>)
    ensures TakeU64(EncU64(n) + rest) == Parsed(n, rest)
  {
    TakeNOf(EncU64(n), rest);
    U64RoundTrip(n);
  }

  /** The variable-length form round-trips over all 64-bit amounts. */
  lemma TakeAssetOf(v: Asset, rest: seq<byte>)
    ensures TakeAsset(EncVarI64(v) + rest) == Parsed(v, rest)
  {
    Pow2Values();
    VarURoundTrip(ZigZagEncode(v), 0, 0, rest);
  }

  lemma TakeBytesOf(b: seq<byte>, rest: seq<byte>)
    requires |b| < 0x1_0000_0000
    ensures TakeBytes(EncBytes(b) + rest) == Parsed(b, rest)
  {
    assert EncBytes(b) + rest == EncU32(|b|) + (b + rest);
    TakeU32Of(|b|, b + rest);
    TakeNOf(b, rest);
  }

  // ----- counted lists -----

  function EncAll<T>(xs: seq<T>, enc: T -> seq<byte>): seq<byte> {
    if xs == [] then [] else enc(xs[0]) + EncAll(xs[1..], enc)
  }

  function TakeAll<T>(s: seq<byte>, n: nat, take: seq<byte> -> Parsed<T>): Parsed<seq<T>>
    decreases n
  {
    if n == 0 then Parsed([], s)
    else
      var (x, t) :- take(s);
      var (xs, u) :- TakeAll(t, n - 1, take);
      Parsed([x] + xs, u)
  }

  /** `take` undoes `enc` on every element of `xs`, whatever bytes follow. */
  ghost predicate Inverts<T(!new)>(xs: seq<T>, enc: T -> seq<byte>, take: seq<byte> -> Parsed<T>) {
    forall i, rest | 0 <= i < |xs| :: take(enc(xs[i]) + rest) == Parsed(xs[i], rest)
  }

  lemma {:induction false} TakeAllOf<T(!new)>(xs: seq<T>, enc: T -> seq<byte>, take: seq<byte> -> Parsed<T>,
      rest: seq<byte>)
    requires Inverts(xs, enc, take)
    ensures TakeAll(EncAll(xs, enc) + rest, |xs|, take) == Parsed(xs, rest)
  {
    if xs == [] {
      assert [] + rest == rest;
    } else {
      var tail := EncAll(xs[1..], enc) + rest;
      assert EncAll(xs, enc) + rest == enc(xs[0]) + tail;
      assert Inverts(xs[1..], enc, take) by {
        forall i, r | 0 <= i < |xs[1..]|
          ensures take(enc(xs[1..][i]) + r) == Parsed(xs[1..][i], r)
        {
          assert xs[1..][i] == xs[i + 1];
        }
      }
      TakeAllOf(xs[1..], enc, take, rest);
      assert xs == [xs[0]] + xs[1..];
    }
  }

  // Lists behind a length cast to 8, 16 or 32 bits.

  function Enc8<T>(xs: seq<T>, enc: T -> seq<byte>): seq<byte> {
    [|xs| % 0x100] + EncAll(xs, enc)
  }

  function Enc16<T>(xs: seq<T>, enc: T -> seq<byte>): seq<byte> {
    EncU16(|xs| % 0x1_0000) + EncAll(xs, enc)
  }

  function Enc32<T>(xs: seq<T>, enc: T -> seq<byte>): seq<byte> {
    EncU32(|xs| % 0x1_0000_0000) + EncAll(xs, enc)
  }

  function Take8<T>(s: seq<byte>, take: seq<byte> -> Parsed<T>): Parsed<seq<T>> {
    var (n, t) :- TakeU8(s);
    TakeAll(t, n, take)
  }

  function Take16<T>(s: seq<byte>, take: seq<byte> -> Parsed<T>): Parsed<seq<T>> {
    var (n, t) :- TakeU16(s);
    TakeAll(t, n, take)
  }

  function Take32<T>(s: seq<byte>, take: seq<byte> -> Parsed<T>): Parsed<seq<T>> {
    var (n, t) :- TakeU32(s);
    TakeAll(t, n, take)
  }

  lemma Take8Of<T(!new)>(xs: seq<T>, enc: T -> seq<byte>, take: seq<byte> -> Parsed<T>, rest: seq<byte>)
    requires |xs| < 0x100 && Inverts(xs, enc, take)
    ensures Take8(Enc8(xs, enc) + rest, take) == Parsed(xs, rest)
  {
    Assoc([|xs|], EncAll(xs, enc), rest);
    TakeU8Of(|xs|, EncAll(xs, enc) + rest);
    TakeAllOf(xs, enc, take, rest);
  }

  lemma Take16Of<T(!new)>(xs: seq<T>, enc: T -> seq<byte>, take: seq<byte> -> Parsed<T>, rest: seq<byte>)
    requires |xs| < 0x1_0000 && Inverts(xs, enc, take)
    ensures Take16(Enc16(xs, enc) + rest, take) == Parsed(xs, rest)
  {
    var n: u16 := |xs|;
    var prefix, body := EncU16(n), EncAll(xs, enc);
    assert Enc16(xs, enc) == prefix + body by {
      assert n % 0x1_0000 == n;
    }
    Assoc(prefix, body, rest);
    assert TakeU16(prefix + (body + rest)) == Parsed(n, body + rest) by {
      TakeU16Of(n, body + rest);
    }
    TakeAllOf(xs, enc, take, rest);
  }

  lemma Take32Of<T(!new)>(xs: seq<T>, enc: T -> seq<byte>, take: seq<byte> -> Parsed<T>, rest: seq<byte>)
    requires |xs| < 0x1_0000_0000 && Inverts(xs, enc, take)
    ensures Take32(Enc32(xs, enc) + rest, take) == Parsed(xs, rest)
  {
    var n: u32 := |xs|;
    var prefix, body := EncU32(n), EncAll(xs, enc);
    assert Enc32(xs, enc) == prefix + body by {
      assert n % 0x1_0000_0000 == n;
    }
    Assoc(prefix, body, rest);
    assert TakeU32(prefix + (body + rest)) == Parsed(n, body + rest) by {
      TakeU32Of(n, body + rest);
    }
    TakeAllOf(xs, enc, take, rest);
  }

  /** Ten bytes always hold the encoding: the longest is that of the least amount. */
  lemma {:induction false} EncVarULength(n: nat, k: nat)
    requires n < Pow(128, k) && k > 0
    ensures |EncVarU(n)| <= k
  {
    if n >= 128 {
      assert Pow(128, 1) == 128;
      assert k > 1;
      assert Pow(128, k) == 128 * Pow(128, k - 1);
      EncVarULength(n / 128, k - 1);
    }
  }

  /** An amount takes at most ten bytes. */
  lemma VarI64Length(v: i64)
    ensures |EncVarI64(v)| <= 10
  {
    PowAdd(128, 5, 5);
    assert Pow(128, 5) == 34_359_738_368;
    assert TWO_64 <= 34_359_738_368 * 34_359_738_368;
    EncVarULength(ZigZagEncode(v), 10);
  }

  // ----- the buffer and the cursor -----

  /** The byte vector an encoder appends to. */
  class Buffer {
    var data: seq<byte>

    constructor ()
      ensures data == []
    {
      data := [];
    }

    method Push(b: byte)
      modifies this
      ensures data == old(data) + [b]
    {
      data := data + [b];
    }

    method Extend(s: seq<byte>)
      modifies this
      ensures data == old(data) + s
    {
      data := data + s;
    }

    method PushVarI64(value: i64)
      modifies this
      ensures data == old(data) + EncVarI64(value)
    {
      var more := true;
      var num: nat := ZigZagEncode(value);
      ghost var written: seq<byte> := [];
      ghost var pending := EncVarI64(value);
      while more
        invariant data == old(data) + written
        invariant written + pending == EncVarI64(value)
        invariant pending == if more then EncVarU(num) else []
        decreases more, num
      {
        var b: byte := num % 128;
        num := num / 128;
        if num == 0 {
          more := false;
        } else {
          b := b + 128;
        }
        assert pending[0] == b && pending[1..] == if more then EncVarU(num) else [];
        data := data + [b];
        written, pending := written + [b], pending[1..];
      }
    }

    method PushBytes(value: seq<byte>)
      modifies this
      ensures data == old(data) + EncBytes(value)
    {
      if value == [] {
        data := data + EncU32(0);
        return;
      }
      data := data + EncU32(|value| % 0x1_0000_0000);
      data := data + value;
    }
  }

  /** A position in a byte slice. */
  class Cursor {
    const data: seq<byte>
    var pos: nat

    ghost predicate Valid()
      reads this
    {
      pos <= |data|
    }

    ghost function Rest(): seq<byte>
      reads this
      requires Valid()
    {
      data[pos..]
    }

    constructor (bytes: seq<byte>)
      ensures Valid() && data == bytes && pos == 0 && Rest() == bytes
    {
      data := bytes;
      pos := 0;
    }

    method ReadExact(n: nat) returns (r: Option<seq<byte>>)
      requires Valid()
      modifies this`pos
      ensures Valid()
      ensures match TakeN(old(Rest()), n)
              case NotParsed => r == None
              case Parsed(v, rest) => r == Some(v) && Rest() == rest
    {
      if pos + n > |data| {
        pos := |data|;
        return None;
      }
      r := Some(data[pos..pos + n]);
      assert Rest()[..n] == data[pos..pos + n];
      assert Rest()[n..] == data[pos + n..];
      pos := pos + n;
    }

    method TakeVarI64() returns (r: Option<i64>)
      requires Valid()
      modifies this`pos
      ensures Valid()
      ensures match TakeAsset(old(Rest()))
              case NotParsed => r == None
              case Parsed(v, rest) => r == Some(v) && Rest() == rest
    {
      hide ShiftLeft, Shifted, ZigZagDecode;
      var result: nat := 0;
      var shift := 0;
      ghost var all := TakeVarU(Rest(), 0, 0);
      while true
        invariant Valid() && shift <= 70 && result < Pow2(shift)
        invariant TakeVarU(Rest(), shift, result) == all
        decreases 70 - shift
      {
        if shift > 63 {
          return None;
        }
        ghost var before := Rest();
        var buf := ReadExact(1);
        if buf == None {
          return None;
        }
        var b := buf.value[0];
        TakeVarUStep(before, b, Rest(), shift, result);
        result := result + Shifted(b, shift);
        if b < 128 {
          assert TakeAsset(old(Rest())) == Parsed(ZigZagDecode(result), Rest());
          return Some(ZigZagDecode(result));
        }
        shift := shift + 7;
      }
    }
  }
}
