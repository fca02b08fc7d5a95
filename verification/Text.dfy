// Which attachment names are text: what `String::from_utf8` accepts (tx/mod.rs, serializer.rs).

module Texts {
  import opened Numbers
  import opened Transactions

  /** Characters are numbered up to 0x10FFFF, without the surrogates. */
  type Scalar = c: int | 0 <= c <= 0x10FFFF && !(0xD800 <= c <= 0xDFFF)

  /** The low six bits, as a byte that continues a character. */
  function Low(c: nat): byte {
    0x80 + c % 0x40
  }

  function Lead(mark: byte, c: nat): byte
    requires mark + c < 0x100
  {
    mark + c
  }

  /** One to four bytes, as few as possible. */
  function CharBytes(c: Scalar): seq<byte> {
    if c < 0x80 then [Lead(0, c)]
    else if c < 0x800 then [Lead(0xC0, c / 0x40), Low(c)]
    else if c < 0x1_0000 then [Lead(0xE0, c / 0x1000), Low(c / 0x40), Low(c)]
    else [Lead(0xF0, c / 0x4_0000), Low(c / 0x1000), Low(c / 0x40), Low(c)]
  }

  function TextBytes(text: seq<Scalar>): seq<byte> {
    if text == [] then [] else CharBytes(text[0]) + TextBytes(text[1..])
  }

  /** How many bytes the first character takes. */
  function Width(s: seq<byte>): nat
    requires s != []
  {
    if s[0] < 0x80 then 1 else if s[0] < 0xE0 then 2 else if s[0] < 0xF0 then 3 else 4
  }

  /** The number that the first bytes make. */
  function FirstNumber(s: seq<byte>): int
    requires s != [] && Width(s) <= |s|
  {
    var a: int, w := s[0], Width(s);
    if w == 1 then a
    else
      var b: int := s[1];
      if w == 2 then (a - 0xC0) * 0x40 + (b - 0x80)
      else
        var c: int := s[2];
        if w == 3 then (a - 0xE0) * 0x1000 + (b - 0x80) * 0x40 + (c - 0x80)
        else
          var d: int := s[3];
          (a - 0xF0) * 0x4_0000 + (b - 0x80) * 0x1000 + (c - 0x80) * 0x40 + (d - 0x80)
  }

  lemma OneDigit(q: nat, z: nat)
    requires z < 0x40
    ensures (q * 0x40 + z) / 0x40 == q && (q * 0x40 + z) % 0x40 == z
  {
  }

  lemma ShiftTwice(c: nat)
    ensures c / 0x40 / 0x40 == c / 0x1000
  {
  }

  lemma Digits(p: nat, x: nat, y: nat, z: nat)
    requires x < 0x40 && y < 0x40 && z < 0x40
    ensures var c := p * 0x4_0000 + x * 0x1000 + y * 0x40 + z;
            && c / 0x4_0000 == p && c / 0x1000 == p * 0x40 + x && c / 0x1000 % 0x40 == x
            && c / 0x40 == p * 0x1000 + x * 0x40 + y && c / 0x40 % 0x40 == y && c % 0x40 == z
  {
    OneDigit(p, x);
    OneDigit(p * 0x40 + x, y);
    OneDigit(p * 0x1000 + x * 0x40 + y, z);
    ShiftTwice(p * 0x4_0000 + x * 0x1000 + y * 0x40 + z);
  }

  lemma FourBytes(s: seq<byte>) returns (c: Scalar)
    requires s != [] && IsUtf8(s) && s[0] >= 0xF0
    ensures |s| >= 4 && IsUtf8(s[4..]) && CharBytes(c) == [s[0], s[1], s[2], s[3]]
  {
    Digits(s[0] - 0xF0, s[1] - 0x80, s[2] - 0x80, s[3] - 0x80);
    assert Width(s) == 4;
    hide IsUtf8;
    c := FirstNumber(s);
  }

  lemma ThreeBytes(s: seq<byte>) returns (c: Scalar)
    requires s != [] && IsUtf8(s) && 0xE0 <= s[0] < 0xF0
    ensures |s| >= 3 && IsUtf8(s[3..]) && CharBytes(c) == [s[0], s[1], s[2]]
  {
    Digits(0, s[0] - 0xE0, s[1] - 0x80, s[2] - 0x80);
    assert Width(s) == 3;
    hide IsUtf8;
    c := FirstNumber(s);
  }

  lemma FirstChar(s: seq<byte>) returns (c: Scalar)
    requires s != [] && IsUtf8(s)
    ensures Width(s) <= |s| && IsUtf8(s[Width(s)..]) && s == CharBytes(c) + s[Width(s)..]
  {
    if s[0] < 0xE0 {
      c := FirstNumber(s);
    } else if s[0] < 0xF0 {
      c := ThreeBytes(s);
      hide CharBytes, IsUtf8;
    } else {
      c := FourBytes(s);
      hide CharBytes, IsUtf8;
    }
  }

  lemma ShortIsText(c: Scalar, rest: seq<byte>)
    requires c < 0x800 && IsUtf8(rest)
    ensures IsUtf8(CharBytes(c) + rest)
  {
    var s := CharBytes(c) + rest;
    assert s[|CharBytes(c)|..] == rest;
  }

  lemma ThreeIsText(c: Scalar, rest: seq<byte>)
    requires 0x800 <= c < 0x1_0000 && IsUtf8(rest)
    ensures IsUtf8(CharBytes(c) + rest)
  {
    var s := CharBytes(c) + rest;
    assert s[0] == 0xE0 + c / 0x1000 && s[1] == 0x80 + c / 0x40 % 0x40 && s[2] == 0x80 + c % 0x40;
    assert s[3..] == rest;
  }

  lemma FourIsText(c: Scalar, rest: seq<byte>)
    requires 0x1_0000 <= c && IsUtf8(rest)
    ensures IsUtf8(CharBytes(c) + rest)
  {
    var s := CharBytes(c) + rest;
    assert s[0] == 0xF0 + c / 0x4_0000 && s[1] == 0x80 + c / 0x1000 % 0x40;
    assert s[2] == 0x80 + c / 0x40 % 0x40 && s[3] == 0x80 + c % 0x40;
    assert s[4..] == rest;
  }

  lemma CharIsText(c: Scalar, rest: seq<byte>)
    requires IsUtf8(rest)
    ensures IsUtf8(CharBytes(c) + rest)
  {
    if c < 0x800 {
      ShortIsText(c, rest);
    } else if c < 0x1_0000 {
      ThreeIsText(c, rest);
    } else {
      FourIsText(c, rest);
    }
  }

  lemma {:induction false} TextIsText(text: seq<Scalar>)
    ensures IsUtf8(TextBytes(text))
  {
    if text != [] {
      TextIsText(text[1..]);
      CharIsText(text[0], TextBytes(text[1..]));
    }
  }

  lemma {:induction false} ReadText(s: seq<byte>) returns (text: seq<Scalar>)
    requires IsUtf8(s)
    ensures s == TextBytes(text)
    decreases |s|
  {
    if s == [] {
      text := [];
    } else {
      var c := FirstChar(s);
      var more := ReadText(s[Width(s)..]);
      text := [c] + more;
      assert text[1..] == more;
    }
  }

  /** Bytes are accepted as a name exactly if they are the bytes of some text: no overlong form, no
      surrogate, nothing above the last character, nothing cut off. */
  lemma NameIsTextIff(s: seq<byte>)
    ensures IsUtf8(s) <==> exists text: seq<Scalar> :: s == TextBytes(text)
  {
    if IsUtf8(s) {
      var text := ReadText(s);
    }
    forall text: seq<Scalar> | s == TextBytes(text)
      ensures IsUtf8(s)
    {
      TextIsText(text);
    }
  }
}
