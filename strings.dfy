// String helpers with JavaScript semantics that several modules share:
// prefix/suffix tests, `String.prototype.split` and `Array.prototype.join`,
// character replacement, `String(n)` on integers and `parseInt(s, 10)`.
module Strings {
  import opened Wrappers

  predicate StartsWith(s: string, prefix: string)
  {
    |prefix| <= |s| && s[..|prefix|] == prefix
  }

  predicate EndsWith(s: string, suffix: string)
  {
    |suffix| <= |s| && s[|s| - |suffix|..] == suffix
  }

  /** `sub` occurs in `s` starting at index `i`. */
  predicate OccursAt(s: string, sub: string, i: nat)
  {
    i + |sub| <= |s| && s[i..i + |sub|] == sub
  }

  /** `s.includes(sub)`. */
  predicate Contains(s: string, sub: string)
  {
    exists i: nat | i <= |s| :: OccursAt(s, sub, i)
  }

  // ---------------------------------------------------------------- digits

  predicate IsDigit(c: char)
  {
    '0' <= c <= '9'
  }

  predicate AllDigits(s: string)
  {
    forall i :: 0 <= i < |s| ==> IsDigit(s[i])
  }

  /** The value of a string of decimal digits (most significant first). */
  function DigitsValue(s: string): nat
    requires AllDigits(s)
    decreases |s|
  {
    if s == [] then 0 else 10 * DigitsValue(s[..|s| - 1]) + (s[|s| - 1] as int - '0' as int)
  }

  /** `String(n)` for a non-negative integer: its decimal digits, no leading zeros. */
  function NatToString(n: nat): (r: string)
    ensures |r| > 0 && AllDigits(r)
    ensures r[0] == '0' ==> n == 0
    decreases n
  {
    if n < 10 then [('0' as int + n) as char]
    else NatToString(n / 10) + [('0' as int + n % 10) as char]
  }

  /** `String(i)` for an integer. */
  function IntToString(i: int): (r: string)
    ensures |r| > 0
  {
    if i < 0 then "-" + NatToString(-i) else NatToString(i)
  }

  lemma {:induction false} NatToStringValue(n: nat)
    ensures DigitsValue(NatToString(n)) == n
    decreases n
  {
    if n >= 10 {
      NatToStringValue(n / 10);
      var s := NatToString(n);
      assert s[..|s| - 1] == NatToString(n / 10);
    }
  }

  /** Distinct counters give distinct decimal strings, so ids built from a counter are never reused. */
  lemma NatToStringInjective(a: nat, b: nat)
    ensures NatToString(a) == NatToString(b) ==> a == b
  {
    NatToStringValue(a);
    NatToStringValue(b);
  }

  // ------------------------------------------------------------ white space

  /**
   * The white space that `trim` and `parseInt` skip: ECMAScript's WhiteSpace
   * and LineTerminator (section 12.2 and 12.3 of ECMA-262), that is tab, the
   * line terminators, vertical tab, form feed, space, no-break space, the
   * byte order mark and the space separators of Unicode category Zs.
   */
  predicate IsSpace(c: char)
  {
    var n := c as int;
    || 9 <= n <= 13 || n == 0x20 || n == 0xA0 || n == 0x1680
    || 0x2000 <= n <= 0x200A || n == 0x2028 || n == 0x2029
    || n == 0x202F || n == 0x205F || n == 0x3000 || n == 0xFEFF
  }

  /** `s.trim() === ''`. */
  predicate IsBlank(s: string)
  {
    forall i :: 0 <= i < |s| ==> IsSpace(s[i])
  }

  function TrimStart(s: string): (r: string)
    ensures |r| <= |s| && r == s[|s| - |r|..]
    ensures r == [] || !IsSpace(r[0])
    decreases |s|
  {
    if s != [] && IsSpace(s[0]) then TrimStart(s[1..]) else s
  }

  function TrimEnd(s: string): (r: string)
    ensures |r| <= |s| && r == s[..|r|]
    ensures r == [] || !IsSpace(r[|r| - 1])
    decreases |s|
  {
    if s != [] && IsSpace(s[|s| - 1]) then TrimEnd(s[..|s| - 1]) else s
  }

  /** `s.trim()`. */
  function Trim(s: string): string
  {
    TrimEnd(TrimStart(s))
  }

  /** The longest prefix of `s` made of decimal digits. */
  function DigitPrefix(s: string): (r: string)
    ensures AllDigits(r) && StartsWith(s, r)
    ensures |r| == |s| || !IsDigit(s[|r|])
    decreases |s|
  {
    if s != [] && IsDigit(s[0]) then [s[0]] + DigitPrefix(s[1..]) else []
  }

  lemma {:induction false} DigitPrefixOfDigits(s: string)
    requires AllDigits(s)
    ensures DigitPrefix(s) == s
    decreases |s|
  {
    if s != [] {
      DigitPrefixOfDigits(s[1..]);
    }
  }

  /**
   * `parseInt(s, 10)`: leading white space, an optional sign, then the longest
   * run of decimal digits. No digit at all is NaN, written `None`.
   */
  function ParseInt(s: string): (r: Option<int>)
  {
    var t := TrimStart(s);
    var negative := t != [] && t[0] == '-';
    var body := if t != [] && (t[0] == '-' || t[0] == '+') then t[1..] else t;
    var digits := DigitPrefix(body);
    if digits == [] then None
    else if negative then Some(-(DigitsValue(digits) as int))
    else Some(DigitsValue(digits))
  }

  lemma ParseIntOfDigits(d: string)
    requires d != [] && AllDigits(d)
    ensures ParseInt(d) == Some(DigitsValue(d) as int)
  {
    DigitPrefixOfDigits(d);
    assert !IsSpace(d[0]);
    assert TrimStart(d) == d;
    assert !(d[0] == '-' || d[0] == '+');
  }

  lemma ParseIntOfNegativeDigits(d: string)
    requires d != [] && AllDigits(d)
    ensures ParseInt("-" + d) == Some(-(DigitsValue(d) as int))
  {
    DigitPrefixOfDigits(d);
    var s := "-" + d;
    assert s[0] == '-' && !IsSpace(s[0]);
    var t := TrimStart(s);
    assert t == s;
    assert t[1..] == d;
    assert DigitPrefix(t[1..]) == d;
  }

  /** `parseInt(String(i), 10) === i`: the decimal rendering of an integer parses back to it. */
  lemma ParseIntOfIntToString(i: int)
    ensures ParseInt(IntToString(i)) == Some(i)
  {
    var n: nat := if i < 0 then -i else i;
    if i < 0 {
      ParseIntOfNegativeDigits(NatToString(n));
    } else {
      ParseIntOfDigits(NatToString(n));
    }
    NatToStringValue(n);
  }

  // --------------------------------------------------------- split and join

  /**
   * `s.split(sep)` for a non-empty separator: the pieces between the
   * leftmost non-overlapping occurrences of `sep`.
   */
  function Split(s: string, sep: string): (r: seq<string>)
    requires |sep| > 0
    ensures |r| >= 1
    decreases |s|
  {
    if |s| < |sep| then [s]
    else if s[..|sep|] == sep then [""] + Split(s[|sep|..], sep)
    else
      var rest := Split(s[1..], sep);
      [[s[0]] + rest[0]] + rest[1..]
  }

  /** `parts.join(sep)`. */
  function Join(parts: seq<string>, sep: string): string
    decreases |parts|
  {
    if parts == [] then ""
    else if |parts| == 1 then parts[0]
    else parts[0] + sep + Join(parts[1..], sep)
  }

  lemma JoinConsHead(c: string, p: string, ps: seq<string>, sep: string)
    ensures Join([c + p] + ps, sep) == c + Join([p] + ps, sep)
  {
    if ps != [] {
      assert ([c + p] + ps)[1..] == ps;
      assert ([p] + ps)[1..] == ps;
    }
  }

  /** Joining the pieces of a split with the same separator gives the input back. */
  lemma {:induction false} JoinSplit(s: string, sep: string)
    requires |sep| > 0
    ensures Join(Split(s, sep), sep) == s
    decreases |s|
  {
    if |s| < |sep| {
    } else if s[..|sep|] == sep {
      JoinSplit(s[|sep|..], sep);
      var rest := Split(s[|sep|..], sep);
      assert ([""] + rest)[1..] == rest;
      assert s == sep + s[|sep|..];
    } else {
      JoinSplit(s[1..], sep);
      var rest := Split(s[1..], sep);
      JoinConsHead([s[0]], rest[0], rest[1..], sep);
      assert [rest[0]] + rest[1..] == rest;
      assert s == [s[0]] + s[1..];
    }
  }

  /** An occurrence past the first character is an occurrence in the tail. */
  lemma ContainsTail(s: string, sep: string)
    requires |sep| > 0 && |s| >= |sep| && s[..|sep|] != sep
    ensures Contains(s, sep) <==> Contains(s[1..], sep)
  {
    if Contains(s, sep) {
      var i: nat :| i <= |s| && OccursAt(s, sep, i);
      assert i != 0;
      assert s[1..][i - 1..i - 1 + |sep|] == s[i..i + |sep|];
      assert OccursAt(s[1..], sep, i - 1);
    }
    if Contains(s[1..], sep) {
      var i: nat :| i <= |s[1..]| && OccursAt(s[1..], sep, i);
      assert s[i + 1..i + 1 + |sep|] == s[1..][i..i + |sep|];
      assert OccursAt(s, sep, i + 1);
    }
  }

  /** A split yields more than one piece exactly when the separator occurs. */
  lemma {:induction false} SplitCount(s: string, sep: string)
    requires |sep| > 0
    ensures |Split(s, sep)| == 1 <==> !Contains(s, sep)
    decreases |s|
  {
    if |s| < |sep| {
      assert !Contains(s, sep);
    } else if s[..|sep|] == sep {
      assert OccursAt(s, sep, 0);
    } else {
      SplitCount(s[1..], sep);
      ContainsTail(s, sep);
    }
  }

  // ------------------------------------------------------------ replacement

  /** `s.replace(/c/g, replacement)`: every occurrence of the character `c` is replaced. */
  function ReplaceChar(s: string, c: char, replacement: string): (r: string)
    ensures c !in replacement ==> c !in r
    ensures c !in s ==> r == s
    decreases |s|
  {
    if s == [] then []
    else (if s[0] == c then replacement else [s[0]]) + ReplaceChar(s[1..], c, replacement)
  }

  lemma AppendAssoc<T>(x: seq<T>, y: seq<T>, z: seq<T>)
    ensures x + (y + z) == (x + y) + z
  {
  }

  lemma {:induction false} ReplaceCharAppend(a: string, b: string, c: char, replacement: string)
    ensures ReplaceChar(a + b, c, replacement) == ReplaceChar(a, c, replacement) + ReplaceChar(b, c, replacement)
    decreases |a|
  {
    if a == [] {
      assert a + b == b;
    } else {
      var t := a[1..];
      assert (a + b)[0] == a[0] && (a + b)[1..] == t + b;
      ReplaceCharAppend(t, b, c, replacement);
      var head := if a[0] == c then replacement else [a[0]];
      assert ReplaceChar(a + b, c, replacement) == head + ReplaceChar(t + b, c, replacement);
      AppendAssoc(head, ReplaceChar(t, c, replacement), ReplaceChar(b, c, replacement));
    }
  }


  /** Replacing a character by a single character keeps the length and changes exactly the occurrences. */
  lemma {:induction false} ReplaceCharByChar(s: string, c: char, d: char)
    ensures |ReplaceChar(s, c, [d])| == |s|
    ensures forall i | 0 <= i < |s| :: ReplaceChar(s, c, [d])[i] == if s[i] == c then d else s[i]
    decreases |s|
  {
    if s != [] {
      ReplaceCharByChar(s[1..], c, d);
      var head := if s[0] == c then [d] else [s[0]];
      assert ReplaceChar(s, c, [d]) == head + ReplaceChar(s[1..], c, [d]);
    }
  }
}
