// Base64 as the passkey service meets it: `atob` (the forgiving-base64 decode
// of the HTML standard, which reads the alphabet of section 4 of RFC 4648) and
// `Buffer.from(bytes).toString('base64')` (the padded encoding of sections 3.2
// and 4 of RFC 4648).
module Base64 {
  import opened Wrappers

  newtype byte = x: int | 0 <= x < 256

  /** The value of a character of the alphabet of section 4 of RFC 4648 (Table 1). */
  function SextetOf(c: char): (r: Option<nat>)
    ensures r.Some? ==> r.value < 64
  {
    if 'A' <= c <= 'Z' then Some(c as int - 'A' as int)
    else if 'a' <= c <= 'z' then Some(c as int - 'a' as int + 26)
    else if '0' <= c <= '9' then Some(c as int - '0' as int + 52)
    else if c == '+' then Some(62)
    else if c == '/' then Some(63)
    else None
  }

  predicate IsBase64Char(c: char)
  {
    SextetOf(c).Some?
  }

  predicate AllBase64(s: string)
  {
    forall i | 0 <= i < |s| :: IsBase64Char(s[i])
  }

  function Val(c: char): nat
    requires IsBase64Char(c)
  {
    SextetOf(c).value
  }

  /** The character of the section 4 alphabet that stands for `v`. */
  function CharOf(v: nat): char
    requires v < 64
  {
    if v < 26 then ('A' as int + v) as char
    else if v < 52 then ('a' as int + v - 26) as char
    else if v < 62 then ('0' as int + v - 52) as char
    else if v == 62 then '+'
    else '/'
  }

  /** The alphabet is a bijection between 0..63 and its 64 characters. */
  lemma CharOfSextet(v: nat)
    requires v < 64
    ensures IsBase64Char(CharOf(v)) && Val(CharOf(v)) == v
  {
  }

  // ------------------------------------------------------------- decoding

  /**
   * Four characters give three octets (section 4 of RFC 4648); a final run
   * of three or two characters gives two or one, and the bits left over
   * after the last whole octet are dropped, as `atob` does.
   */
  function DecodeChars(t: string): seq<byte>
    requires AllBase64(t) && |t| % 4 != 1
    decreases |t|
  {
    if |t| == 0 then []
    else
      var v0, v1 := Val(t[0]), Val(t[1]);
      var b0 := (v0 * 4 + v1 / 16) as byte;
      if |t| == 2 then [b0]
      else
        var v2 := Val(t[2]);
        var b1 := ((v1 % 16) * 16 + v2 / 4) as byte;
        if |t| == 3 then [b0, b1]
        else
          var b2 := ((v2 % 4) * 64 + Val(t[3])) as byte;
          [b0, b1, b2] + DecodeChars(t[4..])
  }

  /** The length of a decoding: three octets per four characters, one less for each character short of a group of four. */
  lemma {:induction false} DecodedLength(t: string)
    requires AllBase64(t) && |t| % 4 != 1
    ensures |DecodeChars(t)| == |t| / 4 * 3 + (if |t| % 4 == 0 then 0 else |t| % 4 - 1)
    decreases |t|
  {
    if |t| >= 4 {
      DecodedLength(t[4..]);
    }
  }

  /** ASCII whitespace as the Infra standard defines it: tab, line feed, form feed, carriage return and space. */
  predicate IsAsciiWhitespace(c: char)
  {
    c == '\t' || c == '\n' || c == 12 as char || c == '\r' || c == ' '
  }

  predicate NoAsciiWhitespace(s: string)
  {
    forall i | 0 <= i < |s| :: !IsAsciiWhitespace(s[i])
  }

  /** Step 1 of the forgiving-base64 decode: every ASCII whitespace character is removed. */
  function RemoveAsciiWhitespace(s: string): (r: string)
    ensures NoAsciiWhitespace(r)
    decreases |s|
  {
    if s == [] then []
    else (if IsAsciiWhitespace(s[0]) then [] else [s[0]]) + RemoveAsciiWhitespace(s[1..])
  }

  /** Only whitespace is removed: every other character of the input is kept, and nothing is added. */
  lemma {:induction false} RemoveKeepsOthers(s: string, c: char)
    ensures c in RemoveAsciiWhitespace(s) <==> c in s && !IsAsciiWhitespace(c)
    decreases |s|
  {
    if s != [] {
      RemoveKeepsOthers(s[1..], c);
      assert s == [s[0]] + s[1..];
    }
  }

  /** A string without whitespace is left as it is. */
  lemma {:induction false} RemoveNoWhitespace(s: string)
    requires NoAsciiWhitespace(s)
    ensures RemoveAsciiWhitespace(s) == s
    decreases |s|
  {
    if s != [] {
      RemoveNoWhitespace(s[1..]);
      assert s == [s[0]] + s[1..];
    }
  }

  /** Removing whitespace distributes over concatenation. */
  lemma {:induction false} RemoveAppend(a: string, b: string)
    ensures RemoveAsciiWhitespace(a + b) == RemoveAsciiWhitespace(a) + RemoveAsciiWhitespace(b)
    decreases |a|
  {
    if a != [] {
      RemoveAppend(a[1..], b);
      assert (a + b)[1..] == a[1..] + b;
    } else {
      assert a + b == b;
    }
  }

  /**
   * Step 2 of the forgiving-base64 decode: when the length is a multiple of
   * four, one or two trailing '=' are removed.
   */
  function StripPadding(s: string): string
  {
    if |s| % 4 == 0 && |s| >= 2 && s[|s| - 2] == '=' && s[|s| - 1] == '=' then s[..|s| - 2]
    else if |s| % 4 == 0 && |s| >= 1 && s[|s| - 1] == '=' then s[..|s| - 1]
    else s
  }

  /** Octets as the binary string `atob` returns: one character per octet. */
  function BinaryString(b: seq<byte>): string
  {
    seq(|b|, i requires 0 <= i < |b| => b[i] as int as char)
  }

  /**
   * `atob(s)`: after the whitespace and then the padding are removed, a
   * length of 1 modulo 4 or a character outside the alphabet makes it throw
   * (None).
   */
  function Atob(s: string): Option<string>
  {
    var t := StripPadding(RemoveAsciiWhitespace(s));
    if |t| % 4 == 1 || !AllBase64(t) then None
    else Some(BinaryString(DecodeChars(t)))
  }

  // ------------------------------------------------------------- encoding

  /** The four characters of three octets (section 4 of RFC 4648). */
  function Quad(x0: byte, x1: byte, x2: byte): string
  {
    var y0, y1, y2 := x0 as int, x1 as int, x2 as int;
    [CharOf(y0 / 4), CharOf((y0 % 4) * 16 + y1 / 16), CharOf((y1 % 16) * 4 + y2 / 64), CharOf(y2 % 64)]
  }

  /** The three characters of a final pair of octets: the last sextet is zero-filled. */
  function Triple(x0: byte, x1: byte): string
  {
    var y0, y1 := x0 as int, x1 as int;
    [CharOf(y0 / 4), CharOf((y0 % 4) * 16 + y1 / 16), CharOf((y1 % 16) * 4)]
  }

  /** The two characters of a final single octet. */
  function Pair(x0: byte): string
  {
    var y0 := x0 as int;
    [CharOf(y0 / 4), CharOf((y0 % 4) * 16)]
  }

  /** Three octets give four characters; a final one or two octets give two or three. */
  function EncodeChars(b: seq<byte>): string
    decreases |b|
  {
    if |b| == 0 then []
    else if |b| == 1 then Pair(b[0])
    else if |b| == 2 then Triple(b[0], b[1])
    else Quad(b[0], b[1], b[2]) + EncodeChars(b[3..])
  }

  /** The '=' that complete the last group to four characters (section 3.2 of RFC 4648). */
  function Padding(n: nat): string
  {
    if n % 3 == 1 then "==" else if n % 3 == 2 then "=" else ""
  }

  /** `Buffer.from(b).toString('base64')`. */
  function Encode(b: seq<byte>): string
  {
    EncodeChars(b) + Padding(|b|)
  }

  lemma AllBase64Append(a: string, b: string)
    requires AllBase64(a) && AllBase64(b)
    ensures AllBase64(a + b)
  {
    forall i | 0 <= i < |a + b|
      ensures IsBase64Char((a + b)[i])
    {
      if i >= |a| {
        assert (a + b)[i] == b[i - |a|];
      }
    }
  }

  lemma GroupsBase64(x0: byte, x1: byte, x2: byte)
    ensures AllBase64(Quad(x0, x1, x2)) && AllBase64(Triple(x0, x1)) && AllBase64(Pair(x0))
  {
    var y0, y1, y2 := x0 as int, x1 as int, x2 as int;
    CharOfSextet(y0 / 4);
    CharOfSextet((y0 % 4) * 16 + y1 / 16);
    CharOfSextet((y1 % 16) * 4 + y2 / 64);
    CharOfSextet(y2 % 64);
    CharOfSextet((y0 % 4) * 16);
    CharOfSextet((y1 % 16) * 4);
  }

  /** The unpadded encoding uses the alphabet only. */
  lemma {:induction false} EncodeCharsBase64(b: seq<byte>)
    ensures AllBase64(EncodeChars(b))
    decreases |b|
  {
    if |b| >= 3 {
      EncodeCharsBase64(b[3..]);
      GroupsBase64(b[0], b[1], b[2]);
      AllBase64Append(Quad(b[0], b[1], b[2]), EncodeChars(b[3..]));
    } else if |b| > 0 {
      GroupsBase64(b[0], if |b| == 2 then b[1] else 0, 0);
    }
  }

  /** The unpadded encoding never leaves a lone character in its last group. */
  lemma {:induction false} EncodeCharsLength(b: seq<byte>)
    ensures |EncodeChars(b)| % 4 == if |b| % 3 == 0 then 0 else |b| % 3 + 1
    decreases |b|
  {
    if |b| >= 3 {
      EncodeCharsLength(b[3..]);
      var n, m := |b[3..]|, |EncodeChars(b[3..])|;
      assert |b| == n + 3 && |EncodeChars(b)| == m + 4;
      ModThreeStep(n);
      ModFourStep(m);
    }
  }

  lemma ModThreeStep(x: nat)
    ensures (x + 3) % 3 == x % 3
  {
  }

  lemma ModFourStep(x: nat)
    ensures (x + 4) % 4 == x % 4
  {
  }

  lemma EncodeCharsShape(b: seq<byte>)
    ensures AllBase64(EncodeChars(b))
    ensures |EncodeChars(b)| % 4 == if |b| % 3 == 0 then 0 else |b| % 3 + 1
  {
    EncodeCharsBase64(b);
    EncodeCharsLength(b);
  }

  /** The octet arithmetic of one group: splitting three octets into sextets and joining them back is the identity. */
  lemma GroupArith(x0: int, x1: int, x2: int)
    requires 0 <= x0 < 256 && 0 <= x1 < 256 && 0 <= x2 < 256
    ensures x0 / 4 * 4 + ((x0 % 4) * 16 + x1 / 16) / 16 == x0
    ensures (((x0 % 4) * 16 + x1 / 16) % 16) * 16 + ((x1 % 16) * 4 + x2 / 64) / 4 == x1
    ensures (((x1 % 16) * 4 + x2 / 64) % 4) * 64 + x2 % 64 == x2
  {
  }

  lemma DecodeQuad(x0: byte, x1: byte, x2: byte, t: string)
    requires AllBase64(t) && |t| % 4 != 1
    ensures AllBase64(Quad(x0, x1, x2) + t) && |Quad(x0, x1, x2) + t| % 4 != 1
    ensures DecodeChars(Quad(x0, x1, x2) + t) == [x0, x1, x2] + DecodeChars(t)
  {
    GroupsBase64(x0, x1, x2);
    AllBase64Append(Quad(x0, x1, x2), t);
    var s := Quad(x0, x1, x2) + t;
    assert s[4..] == t;
    assert s[..4] == Quad(x0, x1, x2);
    DecodeHead(x0, x1, x2);
  }

  /** The first three octets decoded from a group of four characters. */
  lemma DecodeHead(x0: byte, x1: byte, x2: byte)
    ensures AllBase64(Quad(x0, x1, x2))
    ensures var q := Quad(x0, x1, x2);
      && (Val(q[0]) * 4 + Val(q[1]) / 16) as int == x0 as int
      && ((Val(q[1]) % 16) * 16 + Val(q[2]) / 4) as int == x1 as int
      && ((Val(q[2]) % 4) * 64 + Val(q[3])) as int == x2 as int
  {
    var y0, y1, y2 := x0 as int, x1 as int, x2 as int;
    GroupArith(y0, y1, y2);
    CharOfSextet(y0 / 4);
    CharOfSextet((y0 % 4) * 16 + y1 / 16);
    CharOfSextet((y1 % 16) * 4 + y2 / 64);
    CharOfSextet(y2 % 64);
  }

  lemma DecodeTriple(x0: byte, x1: byte)
    ensures AllBase64(Triple(x0, x1)) && DecodeChars(Triple(x0, x1)) == [x0, x1]
  {
    var y0, y1 := x0 as int, x1 as int;
    GroupArith(y0, y1, 0);
    CharOfSextet(y0 / 4);
    CharOfSextet((y0 % 4) * 16 + y1 / 16);
    CharOfSextet((y1 % 16) * 4);
  }

  lemma DecodePair(x0: byte)
    ensures AllBase64(Pair(x0)) && DecodeChars(Pair(x0)) == [x0]
  {
    var y0 := x0 as int;
    GroupArith(y0, 0, 0);
    CharOfSextet(y0 / 4);
    CharOfSextet((y0 % 4) * 16);
  }

  /** Decoding undoes the unpadded encoding. */
  lemma {:induction false} DecodeEncodeChars(b: seq<byte>)
    ensures AllBase64(EncodeChars(b)) && |EncodeChars(b)| % 4 != 1
    ensures DecodeChars(EncodeChars(b)) == b
    decreases |b|
  {
    EncodeCharsShape(b);
    if |b| == 1 {
      DecodePair(b[0]);
    } else if |b| == 2 {
      DecodeTriple(b[0], b[1]);
      assert b == [b[0], b[1]];
    } else if |b| >= 3 {
      DecodeEncodeChars(b[3..]);
      DecodeQuad(b[0], b[1], b[2], EncodeChars(b[3..]));
      assert b == [b[0], b[1], b[2]] + b[3..];
    }
  }

  /** The padded encoding holds no whitespace, so `atob` removes nothing from it in step 1. */
  lemma EncodeNoWhitespace(b: seq<byte>)
    ensures RemoveAsciiWhitespace(Encode(b)) == Encode(b)
  {
    var e, pad := EncodeChars(b), Padding(|b|);
    EncodeCharsBase64(b);
    assert forall i | 0 <= i < |e + pad| :: (e + pad)[i] == if i < |e| then e[i] else '=';
    RemoveNoWhitespace(e + pad);
  }

  /** The padded encoding has a length that is a multiple of four, and `atob` strips exactly its padding. */
  lemma StripEncoded(b: seq<byte>)
    ensures |Encode(b)| % 4 == 0
    ensures StripPadding(Encode(b)) == EncodeChars(b)
  {
    EncodeCharsShape(b);
    var e, pad := EncodeChars(b), Padding(|b|);
    assert Encode(b) == e + pad;
    var k := |e| / 4;
    assert |e| == 4 * k + |e| % 4;
    var groups := if |b| % 3 == 0 then k else k + 1;
    assert |e| + |pad| == 4 * groups;
    StripPadded(e, |b|, groups);
  }

  /** Removing the padding of a string of alphabet characters whose padding completes its last group. */
  lemma StripPadded(e: string, n: nat, groups: nat)
    requires AllBase64(e)
    requires |e| + |Padding(n)| == 4 * groups
    ensures StripPadding(e + Padding(n)) == e
  {
    var pad := Padding(n);
    var s := e + pad;
    if |e| > 0 {
      assert IsBase64Char(e[|e| - 1]) && s[|e| - 1] == e[|e| - 1];
    }
    if pad == "==" {
      assert s[..|s| - 2] == e;
    } else if pad == "=" {
      assert s[..|s| - 1] == e;
    } else {
      assert s == e;
    }
  }

  /** `atob` reads back what Buffer's base64 encoding wrote. */
  lemma AtobEncode(b: seq<byte>)
    ensures Atob(Encode(b)) == Some(BinaryString(b))
  {
    EncodeNoWhitespace(b);
    StripEncoded(b);
    DecodeEncodeChars(b);
  }
}
