/** Well-formed UTF-8 byte sequences, by the syntax of section 4 of RFC 3629. */
module Utf8 {

  type Byte = x: int | 0 <= x < 256

  type Text = seq<Byte>

  predicate Tail(b: Byte) { 0x80 <= b <= 0xBF }

  predicate Tails(t: Text, n: nat) {
    n <= |t| && forall i :: 1 <= i < n ==> Tail(t[i])
  }

  /** The length of the well-formed character `t` starts with, 0 if there is none. */
  function CharLen(t: Text): (n: nat)
    ensures n <= 4 && n <= |t|
  {
    if t == [] then 0
    else if t[0] <= 0x7F then 1
    else if 0xC2 <= t[0] <= 0xDF && Tails(t, 2) then 2
    else if Tails(t, 3) && (   (t[0] == 0xE0 && 0xA0 <= t[1])
                            || (0xE1 <= t[0] <= 0xEC)
                            || (t[0] == 0xED && t[1] <= 0x9F)
                            || (0xEE <= t[0] <= 0xEF)) then 3
    else if Tails(t, 4) && (   (t[0] == 0xF0 && 0x90 <= t[1])
                            || (0xF1 <= t[0] <= 0xF3)
                            || (t[0] == 0xF4 && t[1] <= 0x8F)) then 4
    else 0
  }

  predicate WellFormed(t: Text)
    decreases |t|
  {
    t == [] || (CharLen(t) > 0 && WellFormed(t[CharLen(t)..]))
  }

  /** A Rust string: bytes that are always well-formed UTF-8. */
  type Str = t: Text | WellFormed(t)

  predicate Ascii(t: Text) { forall i :: 0 <= i < |t| ==> t[i] <= 0x7F }

  lemma CharLenPrefix(t: Text, u: Text)
    requires CharLen(t) > 0 && CharLen(t) <= |u| && u[..CharLen(t)] == t[..CharLen(t)]
    ensures CharLen(u) == CharLen(t)
  {
    var n := CharLen(t);
    assert forall i :: 0 <= i < n ==> u[i] == t[i] by {
      assert forall i :: 0 <= i < n ==> u[..n][i] == u[i] && t[..n][i] == t[i];
    }
  }

  lemma OneChar(t: Text)
    requires CharLen(t) > 0
    ensures WellFormed(t[..CharLen(t)])
  {
    var c := t[..CharLen(t)];
    CharLenPrefix(t, c);
    assert c[CharLen(c)..] == [];
  }

  lemma {:induction false} Joined(a: Text, b: Text)
    requires WellFormed(a) && WellFormed(b)
    ensures WellFormed(a + b)
    decreases |a|
  {
    if a == [] {
      assert a + b == b;
    } else {
      var n := CharLen(a);
      Joined(a[n..], b);
      assert (a + b)[..n] == a[..n];
      CharLenPrefix(a, a + b);
      assert (a + b)[n..] == a[n..] + b;
    }
  }

  /** An ASCII byte never lies inside a character, so a well-formed text may be cut
      before it. */
  lemma {:induction false} CutAtAscii(t: Text, k: nat)
    requires WellFormed(t) && k <= |t| && (k < |t| ==> t[k] <= 0x7F)
    ensures WellFormed(t[..k]) && WellFormed(t[k..])
    decreases |t|
  {
    if k == 0 {
      assert t[..0] == [] && t[0..] == t;
    } else {
      var n := CharLen(t);
      assert n <= k;
      CutAtAscii(t[n..], k - n);
      assert t[n..][k - n..] == t[k..];
      CharLenPrefix(t, t[..k]);
      assert t[..k][n..] == t[n..][..k - n];
    }
  }

  lemma {:induction false} AsciiIsWellFormed(t: Text)
    requires Ascii(t)
    ensures WellFormed(t)
    decreases |t|
  {
    if t != [] { AsciiIsWellFormed(t[1..]); }
  }

  // ----- the same by encoding --------------------------------------------------------------

  /** A Unicode scalar value: no surrogate. */
  predicate Scalar(c: int) { 0 <= c <= 0xD7FF || 0xE000 <= c <= 0x10FFFF }

  /** The lowest six bits of a number. */
  function Low(c: nat): (r: nat)
    ensures r < 64 && c == 64 * High(c) + r
  {
    c % 64
  }

  function High(c: nat): nat { c / 64 }

  /** Its encoding, by section 3 of RFC 3629. */
  function Encoded(c: int): Text
    requires Scalar(c)
  {
    var h, l := High(c), Low(c);
    var hh, hl := High(h), Low(h);
    var hhh, hhl := High(hh), Low(hh);
    if c <= 0x7F then [c]
    else if c <= 0x7FF then [0xC0 + h, 0x80 + l]
    else if c <= 0xFFFF then [0xE0 + hh, 0x80 + hl, 0x80 + l]
    else [0xF0 + hhh, 0x80 + hhl, 0x80 + hl, 0x80 + l]
  }

  /** The scalar value of the character `t` starts with. */
  function Decoded(t: Text): int
    requires CharLen(t) > 0
  {
    match CharLen(t)
    case 1 => t[0]
    case 2 => (t[0] as int - 0xC0) * 64 + (t[1] as int - 0x80)
    case 3 => (t[0] as int - 0xE0) * 4096 + (t[1] as int - 0x80) * 64 + (t[2] as int - 0x80)
    case _ => (t[0] as int - 0xF0) * 262144 + (t[1] as int - 0x80) * 4096 + (t[2] as int - 0x80) * 64 + (t[3] as int - 0x80)
  }

  /** Every encoded character is read with its own length, whatever follows. */
  lemma EncodingsAreChars(c: int, rest: Text)
    requires Scalar(c)
    ensures CharLen(Encoded(c) + rest) == |Encoded(c)| && Decoded(Encoded(c) + rest) == c
  {
    var t, e := Encoded(c) + rest, Encoded(c);
    assert forall i :: 0 <= i < |e| ==> t[i] == e[i];
  }

  /** Six bits and the rest tell a number apart. */
  lemma Divided(c: nat, h: nat, l: nat)
    requires c == 64 * h + l && l < 64
    ensures High(c) == h && Low(c) == l
  {
  }

  lemma TwoBytes(t: Text)
    requires CharLen(t) == 2
    ensures Scalar(Decoded(t)) && Encoded(Decoded(t)) == t[..2]
  {
    hide Low, High;
    Divided(Decoded(t), t[0] as int - 0xC0, t[1] as int - 0x80);
  }

  lemma ThreeBytes(t: Text)
    requires CharLen(t) == 3
    ensures Scalar(Decoded(t)) && Encoded(Decoded(t)) == t[..3]
  {
    hide Low, High;
    var h := (t[0] as int - 0xE0) * 64 + (t[1] as int - 0x80);
    Divided(Decoded(t), h, t[2] as int - 0x80);
    Divided(h, t[0] as int - 0xE0, t[1] as int - 0x80);
  }

  lemma FourBytes(t: Text)
    requires CharLen(t) == 4
    ensures Scalar(Decoded(t)) && Encoded(Decoded(t)) == t[..4]
  {
    hide Low, High;
    var hh := (t[0] as int - 0xF0) * 64 + (t[1] as int - 0x80);
    var h := hh * 64 + (t[2] as int - 0x80);
    Divided(Decoded(t), h, t[3] as int - 0x80);
    Divided(h, hh, t[2] as int - 0x80);
    Divided(hh, t[0] as int - 0xF0, t[1] as int - 0x80);
  }

  /** What is read as a character is the encoding of one, in its shortest form. */
  lemma CharsAreEncodings(t: Text)
    requires CharLen(t) > 0
    ensures Scalar(Decoded(t)) && Encoded(Decoded(t)) == t[..CharLen(t)]
  {
    hide Low, High;
    match CharLen(t)
    case 1 =>
    case 2 => TwoBytes(t);
    case 3 => ThreeBytes(t);
    case _ => FourBytes(t);
  }

  /** The ASCII bytes of a string literal. */
  function Bytes(s: string): (t: Text)
    ensures |t| == |s|
    ensures forall i :: 0 <= i < |s| ==> t[i] == if s[i] < '\U{80}' then s[i] as int else 0x3F
    ensures Ascii(t)
  {
    if s == "" then [] else [if s[0] < '\U{80}' then s[0] as int else 0x3F] + Bytes(s[1..])
  }
}
