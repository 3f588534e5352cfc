// Single-quote escaping for POSIX shell words, as escapeShellArg does it in
// packages/backend/src/transfers/transfers.service.ts:264-267, and the
// reading a POSIX shell gives such a word, which the escaping is proved to
// invert.
module ShellQuote {
  import opened Wrappers
  import opened Strings

  /** `'${arg.replace(/'/g, "'\\''")}'`: quote the word, closing and reopening around every quote. */
  function EscapeShellArg(arg: string): (r: string)
    ensures |r| >= 2 && r[0] == '\'' && r[|r| - 1] == '\''
  {
    "'" + QuoteBody(arg) + "'"
  }

  /** The text between the outer quotes of EscapeShellArg. */
  function QuoteBody(arg: string): string
  {
    ReplaceChar(arg, '\'', "'\\''")
  }

  function Prepend(prefix: string, rest: Option<string>): Option<string>
  {
    if rest.None? then None else Some(prefix + rest.value)
  }

  /**
   * How a POSIX shell reads one word: `'...'` is literal up to the next
   * quote, a backslash makes the next character literal, any other
   * character but a blank stands for itself. `None` when the text is not a
   * single complete word (an unterminated quote, a trailing backslash or a
   * blank outside quotes).
   */
  function ReadWord(w: string): Option<string>
    decreases |w|, 1
  {
    if w == [] then Some([])
    else if w[0] == '\'' then ReadQuoted(w[1..])
    else if w[0] == '\\' then (if |w| < 2 then None else Prepend([w[1]], ReadWord(w[2..])))
    else if w[0] == ' ' then None
    else Prepend([w[0]], ReadWord(w[1..]))
  }

  /** The rest of a word read from just inside a single quote. */
  function ReadQuoted(w: string): Option<string>
    decreases |w|, 0
  {
    if w == [] then None
    else if w[0] == '\'' then ReadWord(w[1..])
    else Prepend([w[0]], ReadQuoted(w[1..]))
  }

  lemma PrependPrepend(a: string, b: string, o: Option<string>)
    ensures Prepend(a, Prepend(b, o)) == Prepend(a + b, o)
  {
    if o.Some? {
      assert a + (b + o.value) == (a + b) + o.value;
    }
  }

  lemma {:induction false} ReadQuotedLiteral(u: string, t: string)
    requires '\'' !in u
    ensures ReadQuoted(u + "'" + t) == Prepend(u, ReadWord(t))
    decreases |u|
  {
    if u == [] {
      assert u + "'" + t == "'" + t;
      assert ("'" + t)[1..] == t;
      if ReadWord(t).Some? {
        assert u + ReadWord(t).value == ReadWord(t).value;
      }
    } else {
      ReadQuotedLiteral(u[1..], t);
      var w := u + "'" + t;
      assert w[0] == u[0] && u[0] != '\'';
      assert w[1..] == u[1..] + "'" + t;
      assert ReadQuoted(w) == Prepend([u[0]], ReadQuoted(w[1..]));
      PrependPrepend([u[0]], u[1..], ReadWord(t));
      assert u == [u[0]] + u[1..];
    }
  }

  /**
   * Inside a quote, the escaped body of `s` followed by quote-free `u`, the
   * closing quote and `t` reads as `s + u` followed by the reading of `t`.
   */
  lemma {:induction false} ReadQuotedBody(s: string, u: string, t: string)
    requires '\'' !in u
    ensures ReadQuoted(QuoteBody(s) + u + "'" + t) == Prepend(s + u, ReadWord(t))
    decreases |s|
  {
    var tail := u + "'" + t;
    assert QuoteBody(s) + u + "'" + t == QuoteBody(s) + tail;
    if s == [] {
      assert QuoteBody(s) + tail == tail;
      assert s + u == u;
      ReadQuotedLiteral(u, t);
    } else {
      ReadQuotedBody(s[1..], u, t);
      assert QuoteBody(s[1..]) + u + "'" + t == QuoteBody(s[1..]) + tail;
      ReadQuotedBodyHead(s, tail);
      PrependPrepend([s[0]], s[1..] + u, ReadWord(t));
      assert [s[0]] + (s[1..] + u) == s + u;
    }
  }

  /** The first character of `s`, escaped, reads back as itself. */
  lemma ReadQuotedBodyHead(s: string, tail: string)
    requires s != []
    ensures ReadQuoted(QuoteBody(s) + tail) == Prepend([s[0]], ReadQuoted(QuoteBody(s[1..]) + tail))
  {
    QuoteBodyCons(s);
    var rest := QuoteBody(s[1..]) + tail;
    if s[0] == '\'' {
      assert QuoteBody(s) + tail == "'\\''" + rest;
      ReadEscapedQuote(rest);
    } else {
      assert QuoteBody(s) + tail == [s[0]] + rest;
      ReadQuotedPlain(s[0], rest);
    }
  }

  lemma QuoteBodyCons(s: string)
    requires s != []
    ensures QuoteBody(s) == (if s[0] == '\'' then "'\\''" else [s[0]]) + QuoteBody(s[1..])
  {
  }

  /** Inside a quote, `'\''` reads as one literal quote. */
  lemma ReadEscapedQuote(rest: string)
    ensures ReadQuoted("'\\''" + rest) == Prepend("'", ReadQuoted(rest))
  {
    var w := "'\\''" + rest;
    var v := "\\''" + rest;
    assert w[0] == '\'' && w[1..] == v;
    assert ReadQuoted(w) == ReadWord(v);
    assert v[0] == '\\' && v[1] == '\'' && v[2..] == "'" + rest;
    assert ReadWord(v) == Prepend([v[1]], ReadWord(v[2..]));
    assert ("'" + rest)[0] == '\'' && ("'" + rest)[1..] == rest;
    assert ReadWord("'" + rest) == ReadQuoted(rest);
  }

  lemma ReadQuotedPlain(c: char, rest: string)
    requires c != '\''
    ensures ReadQuoted([c] + rest) == Prepend([c], ReadQuoted(rest))
  {
    assert ([c] + rest)[1..] == rest;
  }

  /** The shell reads the escaped word back as exactly the original argument. */
  lemma EscapeShellArgRoundTrip(arg: string)
    ensures ReadWord(EscapeShellArg(arg)) == Some(arg)
  {
    ReadQuotedBody(arg, "", "");
    assert EscapeShellArg(arg) == "'" + (QuoteBody(arg) + "" + "'" + "");
    assert arg + "" == arg;
  }

  /** Putting `u` (quote-free) before the closing quote appends it to the word read. */
  lemma EscapeWithSuffixReads(arg: string, u: string)
    requires '\'' !in u
    ensures ReadWord("'" + QuoteBody(arg) + u + "'") == Some(arg + u)
  {
    ReadQuotedBody(arg, u, "");
    var w := "'" + QuoteBody(arg) + u + "'";
    assert w == "'" + (QuoteBody(arg) + u + "'" + "");
    assert w[1..] == QuoteBody(arg) + u + "'" + "";
    assert ReadWord(w) == ReadQuoted(w[1..]);
    assert ReadWord("") == Some("");
    assert (arg + u) + "" == arg + u;
  }

  /** The escaped body ends with '/' exactly when the argument does. */
  lemma QuoteBodyEndsWithSlash(arg: string)
    ensures EndsWith(QuoteBody(arg), "/") <==> EndsWith(arg, "/")
  {
    if arg != [] {
      var init := arg[..|arg| - 1];
      var last := arg[|arg| - 1];
      assert arg == init + [last];
      ReplaceCharAppend(init, [last], '\'', "'\\''");
      var b := QuoteBody(arg);
      if last == '\'' {
        assert QuoteBody([last]) == "'\\''";
        assert b[|b| - 1] == '\'';
      } else {
        assert QuoteBody([last]) == [last];
        assert b[|b| - 1] == last;
      }
    }
  }
}
