/** Which byte strings are text: UTF-8 as RFC 3629 has it, section 4 for reading and section 3 for writing. */
module Utf8 {
  import opened Prelude

  predicate IsTail(b: byte) { 0x80 <= b <= 0xbf }

  predicate IsUtf8(b: Bytes) {
    if b == [] then true
    else if b[0] < 0x80 then IsUtf8(b[1..])
    else if |b| < 2 then false
    else if 0xc2 <= b[0] <= 0xdf then IsTail(b[1]) && IsUtf8(b[2..])
    else if |b| < 3 then false
    else if 0xe0 <= b[0] <= 0xef then
      && (if b[0] == 0xe0 then 0xa0 <= b[1] <= 0xbf else if b[0] == 0xed then 0x80 <= b[1] <= 0x9f else IsTail(b[1]))
      && IsTail(b[2]) && IsUtf8(b[3..])
    else if |b| < 4 then false
    else
      && 0xf0 <= b[0] <= 0xf4
      && (if b[0] == 0xf0 then 0x90 <= b[1] <= 0xbf else if b[0] == 0xf4 then 0x80 <= b[1] <= 0x8f else IsTail(b[1]))
      && IsTail(b[2]) && IsTail(b[3]) && IsUtf8(b[4..])
  }

  /** A Unicode scalar value: a code point that is not a surrogate. */
  type Scalar = c: nat | c < 0xd800 || 0xe000 <= c < 0x11_0000 witness 0

  function Encode(c: Scalar): (b: Bytes)
    ensures b != []
  {
    if c < 0x80 then [c as byte]
    else if c < 0x800 then [(0xc0 + c / 0x40) as byte, (0x80 + c % 0x40) as byte]
    else if c < 0x1_0000 then
      [(0xe0 + c / 0x1000) as byte, (0x80 + c / 0x40 % 0x40) as byte, (0x80 + c % 0x40) as byte]
    else
      [(0xf0 + c / 0x4_0000) as byte, (0x80 + c / 0x1000 % 0x40) as byte, (0x80 + c / 0x40 % 0x40) as byte,
       (0x80 + c % 0x40) as byte]
  }

  function EncodeAll(cs: seq<Scalar>): Bytes {
    if cs == [] then [] else Encode(cs[0]) + EncodeAll(cs[1..])
  }

  lemma TwoBytes(x: byte, y: byte) returns (c: Scalar)
    requires 0xc2 <= x <= 0xdf && IsTail(y)
    ensures Encode(c) == [x, y]
  {
    c := (x as nat - 0xc0) * 0x40 + y as nat % 0x40;
  }

  lemma ThreeBytes(x: byte, y: byte, z: byte) returns (c: Scalar)
    requires 0xe0 <= x <= 0xef && IsTail(y) && IsTail(z)
    requires (x == 0xe0 ==> 0xa0 <= y) && (x == 0xed ==> y <= 0x9f)
    ensures Encode(c) == [x, y, z]
  {
    var a, b, d := x as nat - 0xe0, y as nat % 0x40, z as nat % 0x40;
    c := a * 0x1000 + b * 0x40 + d;
    assert c / 0x40 == a * 0x40 + b;
  }

  lemma FourDigits(a: nat, b: nat, d: nat, e: nat)
    requires b < 0x40 && d < 0x40 && e < 0x40
    ensures var c := a * 0x4_0000 + b * 0x1000 + d * 0x40 + e;
            c / 0x4_0000 == a && c / 0x1000 % 0x40 == b && c / 0x40 % 0x40 == d && c % 0x40 == e
  {
    var c := a * 0x4_0000 + b * 0x1000 + d * 0x40 + e;
    assert c / 0x40 == a * 0x1000 + b * 0x40 + d;
    assert c / 0x1000 == a * 0x40 + b;
  }

  lemma FourBytes(x: byte, y: byte, z: byte, w: byte) returns (c: Scalar)
    requires 0xf0 <= x <= 0xf4 && IsTail(y) && IsTail(z) && IsTail(w)
    requires (x == 0xf0 ==> 0x90 <= y) && (x == 0xf4 ==> y <= 0x8f)
    ensures Encode(c) == [x, y, z, w]
  {
    var a, b, d, e := x as nat - 0xf0, y as nat % 0x40, z as nat % 0x40, w as nat % 0x40;
    c := a * 0x4_0000 + b * 0x1000 + d * 0x40 + e;
    FourDigits(a, b, d, e);
  }

  /** Text begins with the encoding of a scalar, `n` bytes long, and goes on as text. */
  lemma FirstReads(b: Bytes) returns (c: Scalar, n: nat)
    requires b != [] && IsUtf8(b)
    ensures 1 <= n <= |b| && Encode(c) == b[..n] && IsUtf8(b[n..])
  {
    if b[0] < 0x80 {
      c, n := b[0] as nat, 1;
    } else if b[0] < 0xe0 {
      c := TwoBytes(b[0], b[1]);
      n := 2;
    } else if b[0] < 0xf0 {
      c := ThreeBytes(b[0], b[1], b[2]);
      n := 3;
    } else {
      c := FourBytes(b[0], b[1], b[2], b[3]);
      n := 4;
    }
  }

  lemma EncodeReads(c: Scalar, rest: Bytes)
    requires IsUtf8(rest)
    ensures IsUtf8(Encode(c) + rest)
  {
    assert (Encode(c) + rest)[|Encode(c)|..] == rest;
  }

  lemma {:induction false} EncodingIsText(cs: seq<Scalar>)
    ensures IsUtf8(EncodeAll(cs))
  {
    if cs != [] {
      EncodingIsText(cs[1..]);
      EncodeReads(cs[0], EncodeAll(cs[1..]));
    }
  }

  lemma {:induction false} TextIsEncoding(b: Bytes) returns (cs: seq<Scalar>)
    requires IsUtf8(b)
    ensures EncodeAll(cs) == b
  {
    if b == [] {
      cs := [];
    } else {
      var c, n := FirstReads(b);
      var rest := TextIsEncoding(b[n..]);
      cs := [c] + rest;
      assert cs[1..] == rest && b[..n] + b[n..] == b;
    }
  }

  /** The accepted byte strings are exactly the encodings of lists of scalar values. */
  lemma TextExactly(b: Bytes)
    ensures IsUtf8(b) <==> exists cs: seq<Scalar> :: EncodeAll(cs) == b
  {
    if IsUtf8(b) {
      var cs := TextIsEncoding(b);
    }
    if exists cs: seq<Scalar> :: EncodeAll(cs) == b {
      var cs: seq<Scalar> :| EncodeAll(cs) == b;
      EncodingIsText(cs);
    }
  }
}
