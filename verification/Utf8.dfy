/** UTF-8 as Rust strings are stored and as `str::from_utf8` accepts it (section 4 of RFC 3629). */
module Utf8 {
  import opened Base

  type Byte = n: int | 0 <= n < 256

  type Bytes = seq<Byte>

  function EncodeChar(c: char): (r: Bytes)
    ensures 1 <= |r| <= 4
  {
    var n := c as int;
    if n < 0x80 then [n] else if n < 0x800 then Two(n) else if n < 0x10000 then Three(n) else Four(n)
  }

  function Two(n: int): (r: Bytes)
    requires 0x80 <= n < 0x800
    ensures |r| == 2
  {
    [0xC0 + n / 0x40, 0x80 + n % 0x40]
  }

  function Three(n: int): (r: Bytes)
    requires 0x800 <= n < 0x10000
    ensures |r| == 3
  {
    var q := n / 0x40;
    [0xE0 + q / 0x40, 0x80 + q % 0x40, 0x80 + n % 0x40]
  }

  function Four(n: int): (r: Bytes)
    requires 0x10000 <= n < 0x110000
    ensures |r| == 4
  {
    var q := n / 0x40;
    var p := q / 0x40;
    [0xF0 + p / 0x40, 0x80 + p % 0x40, 0x80 + q % 0x40, 0x80 + n % 0x40]
  }

  function Encode(s: string): Bytes {
    if s == "" then [] else EncodeChar(s[0]) + Encode(s[1..])
  }

  function Code2(a: int, b: int): int { (a - 0xC0) * 0x40 + (b - 0x80) }

  function Code3(a: int, b: int, c: int): int { ((a - 0xE0) * 0x40 + (b - 0x80)) * 0x40 + (c - 0x80) }

  function Code4(a: int, b: int, c: int, d: int): int {
    (((a - 0xF0) * 0x40 + (b - 0x80)) * 0x40 + (c - 0x80)) * 0x40 + (d - 0x80)
  }

  predicate IsTwo(a: int, b: int) { 0xC2 <= a < 0xE0 && 0x80 <= b < 0xC0 }

  /** No overlong form and no surrogate. */
  predicate IsThree(a: int, b: int, c: int) {
    0xE0 <= a < 0xF0 && 0x80 <= b < 0xC0 && 0x80 <= c < 0xC0 && (a == 0xE0 ==> b >= 0xA0) && (a == 0xED ==> b < 0xA0)
  }

  /** No overlong form and nothing above U+10FFFF. */
  predicate IsFour(a: int, b: int, c: int, d: int) {
    0xF0 <= a < 0xF5 && 0x80 <= b < 0xC0 && 0x80 <= c < 0xC0 && 0x80 <= d < 0xC0 &&
    (a == 0xF0 ==> b >= 0x90) && (a == 0xF4 ==> b < 0x90)
  }

  /** The first character and the bytes after it, if the bytes start with one. */
  function DecodeChar(bs: Bytes): (r: Option<(char, Bytes)>)
    ensures r.Some? ==> |r.value.1| < |bs|
  {
    if |bs| >= 1 && bs[0] < 0x80 then Some((bs[0] as char, bs[1..]))
    else if |bs| >= 2 && IsTwo(bs[0], bs[1]) then Some((Code2(bs[0], bs[1]) as char, bs[2..]))
    else if |bs| >= 3 && IsThree(bs[0], bs[1], bs[2]) then Some((Code3(bs[0], bs[1], bs[2]) as char, bs[3..]))
    else if |bs| >= 4 && IsFour(bs[0], bs[1], bs[2], bs[3]) then
      Some((Code4(bs[0], bs[1], bs[2], bs[3]) as char, bs[4..]))
    else None
  }

  function Decode(bs: Bytes): Option<string>
    decreases |bs|
  {
    if bs == [] then Some("")
    else
      match DecodeChar(bs)
      case None => None
      case Some((c, rest)) =>
        match Decode(rest)
        case None => None
        case Some(s) => Some([c] + s)
  }

  /** Characters of the examples in section 7 of RFC 3629. */
  lemma EncodesAsTheStandard()
    ensures EncodeChar(0x41 as char) == [0x41] && EncodeChar(0x0391 as char) == [0xCE, 0x91]
    ensures EncodeChar(0x2262 as char) == [0xE2, 0x89, 0xA2] && EncodeChar(0xD55C as char) == [0xED, 0x95, 0x9C]
    ensures EncodeChar(0x65E5 as char) == [0xE6, 0x97, 0xA5] && EncodeChar(0x233B4 as char) == [0xF0, 0xA3, 0x8E, 0xB4]
  {
  }

  lemma TwoInverts(n: int)
    requires 0x80 <= n < 0x800
    ensures var r := Two(n); IsTwo(r[0], r[1]) && Code2(r[0], r[1]) == n
  {
  }

  lemma ThreeInverts(n: int)
    requires 0x800 <= n < 0xD800 || 0xE000 <= n < 0x10000
    ensures var r := Three(n); IsThree(r[0], r[1], r[2]) && Code3(r[0], r[1], r[2]) == n
  {
  }

  lemma FourInverts(n: int)
    requires 0x10000 <= n < 0x110000
    ensures var r := Four(n); IsFour(r[0], r[1], r[2], r[3]) && Code4(r[0], r[1], r[2], r[3]) == n
  {
  }

  lemma Digits(q: int, r: int)
    requires 0 <= r < 0x40
    ensures (q * 0x40 + r) / 0x40 == q && (q * 0x40 + r) % 0x40 == r
  {
  }

  lemma TwoOfCode(a: Byte, b: Byte)
    requires IsTwo(a, b)
    ensures 0x80 <= Code2(a, b) < 0x800 && Two(Code2(a, b)) == [a, b]
  {
    Digits(a - 0xC0, b - 0x80);
  }

  lemma ThreeOfCode(a: Byte, b: Byte, c: Byte)
    requires IsThree(a, b, c)
    ensures 0x800 <= Code3(a, b, c) < 0xD800 || 0xE000 <= Code3(a, b, c) < 0x10000
    ensures Three(Code3(a, b, c)) == [a, b, c]
  {
    var q: int := (a - 0xE0) * 0x40 + (b - 0x80);
    Digits(q, c - 0x80);
    Digits(a - 0xE0, b - 0x80);
  }

  lemma FourOfCode(a: Byte, b: Byte, c: Byte, d: Byte)
    requires IsFour(a, b, c, d)
    ensures 0x10000 <= Code4(a, b, c, d) < 0x110000 && Four(Code4(a, b, c, d)) == [a, b, c, d]
  {
    var p: int := (a - 0xF0) * 0x40 + (b - 0x80);
    var q: int := p * 0x40 + (c - 0x80);
    Digits(q, d - 0x80);
    Digits(p, c - 0x80);
    Digits(a - 0xF0, b - 0x80);
  }

  lemma DecodeCharInverts(c: char, k: Bytes)
    ensures DecodeChar(EncodeChar(c) + k) == Some((c, k))
  {
    hide Two, Three, Four, Code2, Code3, Code4;
    var n := c as int;
    var bs := EncodeChar(c);
    assert (bs + k)[|bs|..] == k;
    if 0x80 <= n < 0x800 {
      TwoInverts(n);
    } else if 0x800 <= n < 0x10000 {
      ThreeInverts(n);
    } else if 0x10000 <= n {
      FourInverts(n);
    }
  }

  lemma EncodeCharInverts(bs: Bytes)
    requires DecodeChar(bs).Some?
    ensures var (c, k) := DecodeChar(bs).value; EncodeChar(c) + k == bs
  {
    hide Two, Three, Four, Code2, Code3, Code4;
    if bs[0] < 0x80 {
    } else if bs[0] < 0xE0 {
      TwoOfCode(bs[0], bs[1]);
    } else if bs[0] < 0xF0 {
      ThreeOfCode(bs[0], bs[1], bs[2]);
    } else {
      FourOfCode(bs[0], bs[1], bs[2], bs[3]);
    }
  }

  /** Decoding accepts exactly the encodings of strings, and gives the string back. */
  lemma {:induction false} DecodeInvertsEncode(s: string)
    ensures Decode(Encode(s)) == Some(s)
  {
    hide DecodeChar, EncodeChar;
    if s != "" {
      DecodeCharInverts(s[0], Encode(s[1..]));
      DecodeInvertsEncode(s[1..]);
      assert [s[0]] + s[1..] == s;
    }
  }

  lemma {:induction false} DecodeIsStrict(bs: Bytes)
    requires Decode(bs).Some?
    ensures Encode(Decode(bs).value) == bs
    decreases |bs|
  {
    hide DecodeChar, EncodeChar;
    if bs != [] {
      EncodeCharInverts(bs);
      var (c, k) := DecodeChar(bs).value;
      DecodeIsStrict(k);
      assert Decode(bs).value[1..] == Decode(k).value;
    }
  }

  lemma {:induction false} EncodeConcat(a: string, b: string)
    ensures Encode(a + b) == Encode(a) + Encode(b)
  {
    hide EncodeChar;
    if a == "" {
      assert a + b == b;
    } else {
      assert (a + b)[1..] == a[1..] + b;
      EncodeConcat(a[1..], b);
    }
  }

  /** The byte of an ASCII character occurs in an encoding only where the character does. */
  lemma {:induction false} AsciiByteIsAsciiChar(s: string, c: char)
    requires c as int < 0x80 && c !in s
    ensures c as int !in Encode(s)
  {
    if s != "" {
      AsciiByteIsAsciiChar(s[1..], c);
    }
  }

  // ── Order ──────────────────────────────────────────────────────────────────

  /** Rust's order on strings: byte by byte, a proper prefix first. */
  predicate BytesLess(a: Bytes, b: Bytes) {
    b != [] && (a == [] || a[0] < b[0] || (a[0] == b[0] && BytesLess(a[1..], b[1..])))
  }

  /** The same order, character by character. */
  predicate Less(a: string, b: string) {
    b != "" && (a == "" || a[0] < b[0] || (a[0] == b[0] && Less(a[1..], b[1..])))
  }

  /** The strings agree up to `i`, where the first one ends or has the smaller character. */
  predicate SmallerAt(a: string, b: string, i: int) {
    0 <= i <= |a| && i < |b| && a[..i] == b[..i] && (i == |a| || a[i] < b[i])
  }

  lemma {:induction false} LessIff(a: string, b: string)
    ensures Less(a, b) <==> exists i :: SmallerAt(a, b, i)
  {
    if a == "" || b == "" || a[0] < b[0] {
      if b != "" { assert SmallerAt(a, b, 0); }
    } else {
      LessIff(a[1..], b[1..]);
      if i :| SmallerAt(a, b, i) {
        assert a[..i][0] == a[0] && b[..i][0] == b[0];
        assert a[1..][..i - 1] == a[..i][1..] && b[1..][..i - 1] == b[..i][1..];
        assert SmallerAt(a[1..], b[1..], i - 1);
      }
      if Less(a, b) {
        var i :| SmallerAt(a[1..], b[1..], i);
        assert a[..i + 1] == [a[0]] + a[1..][..i] && b[..i + 1] == [b[0]] + b[1..][..i];
        assert SmallerAt(a, b, i + 1);
      }
    }
  }

  lemma {:induction false} LessTotal(a: string, b: string)
    ensures Less(a, b) || a == b || Less(b, a)
    ensures !(Less(a, b) && Less(b, a)) && !Less(a, a)
  {
    if a != "" && b != "" {
      LessTotal(a[1..], b[1..]);
      if a[0] == b[0] && a[1..] == b[1..] { assert a == [a[0]] + a[1..] && b == [b[0]] + b[1..]; }
    }
    LessIrreflexive(a);
  }

  lemma {:induction false} LessIrreflexive(a: string)
    ensures !Less(a, a)
  {
    if a != "" { LessIrreflexive(a[1..]); }
  }

  lemma {:induction false} LessTransitive(a: string, b: string, c: string)
    requires Less(a, b) && Less(b, c)
    ensures Less(a, c)
  {
    if a != "" && a[0] == b[0] && b[0] == c[0] { LessTransitive(a[1..], b[1..], c[1..]); }
  }

  lemma {:induction false} LessAt(s: Bytes, t: Bytes, i: nat)
    requires i < |s| && i < |t| && s[..i] == t[..i] && s[i] < t[i]
    ensures BytesLess(s, t) && !BytesLess(t, s)
    decreases i
  {
    if i > 0 {
      assert s[..i][0] == s[0] && t[..i][0] == t[0];
      assert s[1..][..i - 1] == s[..i][1..] && t[1..][..i - 1] == t[..i][1..];
      LessAt(s[1..], t[1..], i - 1);
    }
  }

  lemma {:induction false} CommonPrefix(p: Bytes, s: Bytes, t: Bytes)
    ensures BytesLess(p + s, p + t) == BytesLess(s, t)
  {
    if p == [] {
      assert p + s == s && p + t == t;
    } else {
      assert (p + s)[1..] == p[1..] + s && (p + t)[1..] == p[1..] + t;
      CommonPrefix(p[1..], s, t);
    }
  }

  lemma EncodeCharAscends(c: char, d: char) returns (i: nat)
    requires c < d
    ensures var s, t := EncodeChar(c), EncodeChar(d); i < |s| && i < |t| && s[..i] == t[..i] && s[i] < t[i]
  {
    var m, n := c as int, d as int;
    var s, t := EncodeChar(c), EncodeChar(d);
    i := if s[0] != t[0] then 0 else if s[1] != t[1] then 1 else if s[2] != t[2] then 2 else 3;
  }

  /** Comparing the bytes of two strings is comparing their characters. */
  lemma {:induction false} OrderOfBytes(a: string, b: string)
    ensures BytesLess(Encode(a), Encode(b)) == Less(a, b)
  {
    hide EncodeChar;
    if a != "" && b != "" {
      var x, y := Encode(a[1..]), Encode(b[1..]);
      if a[0] == b[0] {
        OrderOfBytes(a[1..], b[1..]);
        CommonPrefix(EncodeChar(a[0]), x, y);
      } else if a[0] < b[0] {
        var i := EncodeCharAscends(a[0], b[0]);
        LessAtPrefix(EncodeChar(a[0]), EncodeChar(b[0]), i, x, y);
      } else {
        var i := EncodeCharAscends(b[0], a[0]);
        LessAtPrefix(EncodeChar(b[0]), EncodeChar(a[0]), i, y, x);
      }
    }
  }

  lemma LessAtPrefix(s: Bytes, t: Bytes, i: nat, x: Bytes, y: Bytes)
    requires i < |s| && i < |t| && s[..i] == t[..i] && s[i] < t[i]
    ensures BytesLess(s + x, t + y) && !BytesLess(t + y, s + x)
  {
    assert (s + x)[..i] == s[..i] && (t + y)[..i] == t[..i];
    LessAt(s + x, t + y, i);
  }
}
