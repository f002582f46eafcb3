/**
 * The two quoting grammars of the tool runner: `_uv_quote_cmd_arg` (the
 * port of libuv's `quote_cmd_arg`, used when a process image is invoked
 * directly) and `_windowsQuoteCmdArg` (used for arguments of `.cmd`/`.bat`
 * scripts run through `cmd.exe`), with `_isCmdFile`/`_endsWith`.
 *
 * Both grammars share one reverse scan that differs only in how an embedded
 * double quote is escaped: libuv writes `\"`, the cmd.exe grammar `""`.
 * `Escaped` states the scan's result front to back; `ParseArg` is the
 * Microsoft C runtime's reading of one argument, against which both
 * grammars are proved to round-trip.
 */
module Quoting {
  import opened Wrappers
  import opened Strings

  // ---------------------------------------------------------------------
  // The reverse scan

  /**
   * The scan's `quote_hit` flag at a position, given the characters `t`
   * after it: `t` is zero or more backslashes followed by a double quote or
   * by the end of the argument.
   */
  predicate QuoteFollows(t: string)
    decreases |t|
  {
    t == [] || t[0] == '"' || (t[0] == '\\' && QuoteFollows(t[1..]))
  }

  /**
   * How the scan writes one character: a backslash before a quote or the end
   * is doubled, a double quote is preceded by `quoteEscape`, anything else is
   * copied.
   */
  function EscapeChar(c: char, quoteHit: bool, quoteEscape: char): string
  {
    if quoteHit && c == '\\' then "\\\\"
    else if c == '"' then [quoteEscape, '"']
    else [c]
  }

  /** The text between the wrapping quotes, front to back. */
  function Escaped(s: string, quoteEscape: char): string
    decreases |s|
  {
    if s == [] then [] else EscapeChar(s[0], QuoteFollows(s[1..]), quoteEscape) + Escaped(s[1..], quoteEscape)
  }

  /**
   * The loop shared by both quoting functions: walk `arg` backwards,
   * building the reversed result, then reverse it.
   */
  method ReverseScanQuote(arg: string, quoteEscape: char) returns (r: string)
    ensures r == "\"" + Escaped(arg, quoteEscape) + "\""
  {
    var reverse := "\"";
    var quoteHit := true;
    var i := |arg|;
    while i > 0
      invariant 0 <= i <= |arg|
      invariant quoteHit == QuoteFollows(arg[i..])
      invariant reverse == "\"" + Reverse(Escaped(arg[i..], quoteEscape))
    {
      var c := arg[i - 1];
      ScanStep(arg, i, quoteEscape);
      ghost var before := reverse;
      ghost var piece := Reverse(EscapeChar(c, quoteHit, quoteEscape));
      reverse := reverse + [c];
      if quoteHit && c == '\\' {
        reverse := reverse + "\\";          // double the slash
        AppendAssoc(before, [c], "\\");
        assert piece == "\\\\" == [c] + "\\";
      } else if c == '"' {
        quoteHit := true;
        reverse := reverse + [quoteEscape];  // escape the quote
        AppendAssoc(before, [c], [quoteEscape]);
        assert piece == ['"', quoteEscape] == [c] + [quoteEscape];
      } else {
        quoteHit := false;
        assert piece == [c];
      }
      AppendAssoc("\"", Reverse(Escaped(arg[i..], quoteEscape)), piece);
      i := i - 1;
    }
    reverse := reverse + "\"";
    r := Reverse(reverse);
    ScanResult(Escaped(arg, quoteEscape));
  }

  /** One step of the reverse scan, front to back. */
  lemma ScanStep(arg: string, i: nat, quoteEscape: char)
    requires 0 < i <= |arg|
    ensures QuoteFollows(arg[i - 1..]) == (arg[i - 1] == '"' || (arg[i - 1] == '\\' && QuoteFollows(arg[i..])))
    ensures Reverse(Escaped(arg[i - 1..], quoteEscape))
         == Reverse(Escaped(arg[i..], quoteEscape)) + Reverse(EscapeChar(arg[i - 1], QuoteFollows(arg[i..]), quoteEscape))
  {
    assert arg[i - 1..][1..] == arg[i..];
    ReverseAppend(EscapeChar(arg[i - 1], QuoteFollows(arg[i..]), quoteEscape), Escaped(arg[i..], quoteEscape));
  }

  /** Reversing the reversed, quote-wrapped text gives it back. */
  lemma ScanResult(e: string)
    ensures Reverse("\"" + Reverse(e) + "\"") == "\"" + e + "\""
  {
    ReverseAppend("\"", Reverse(e));
    ReverseAppend("\"" + Reverse(e), "\"");
    ReverseReverse(e);
  }

  // ---------------------------------------------------------------------
  // libuv quoting

  /** What `_uv_quote_cmd_arg(arg)` returns. */
  function UvQuote(arg: string): string
  {
    if arg == [] then "\"\""
    else if ' ' !in arg && '\t' !in arg && '"' !in arg then arg
    else if '"' !in arg && '\\' !in arg then "\"" + arg + "\""
    else "\"" + Escaped(arg, '\\') + "\""
  }

  /** `_uv_quote_cmd_arg`. */
  method UvQuoteCmdArg(arg: string) returns (r: string)
    ensures r == UvQuote(arg)
  {
    if arg == [] {
      return "\"\"";  // an empty argument needs a pair of quotes
    }
    if ' ' !in arg && '\t' !in arg && '"' !in arg {
      return arg;     // no quoting needed
    }
    if '"' !in arg && '\\' !in arg {
      return "\"" + arg + "\"";
    }
    r := ReverseScanQuote(arg, '\\');
  }

  // ---------------------------------------------------------------------
  // Script files and cmd.exe quoting

  /** `str.slice(-end.length) == end`; `slice(-0)` is the whole string, as is a slice longer than it. */
  function EndsWith(str: string, end: string): bool
  {
    (if |end| == 0 || |end| > |str| then str else str[|str| - |end|..]) == end
  }

  /** `_isCmdFile`: the upper-cased tool path ends in `.CMD` or `.BAT`. */
  predicate IsCmdFile(toolPath: string)
  {
    var upper := Upper(toolPath);
    EndsWith(upper, ".CMD") || EndsWith(upper, ".BAT")
  }

  /**
   * One of the characters that make cmd.exe quoting necessary (the source's
   * `cmdSpecialChars` list); a backtick is among them, a backslash is not.
   */
  predicate IsCmdSpecial(c: char)
  {
    c == ' ' || c == '\t' || c == '&' || c == '(' || c == ')' || c == '[' || c == ']' ||
    c == '{' || c == '}' || c == '^' || c == '=' || c == ';' || c == '!' || c == '\'' ||
    c == '+' || c == ',' || c == '`' || c == '~' || c == '|' || c == '<' || c == '>' || c == '"'
  }

  predicate NeedsCmdQuotes(arg: string)
  {
    exists k :: 0 <= k < |arg| && IsCmdSpecial(arg[k])
  }

  /** What `_windowsQuoteCmdArg(arg)` returns for a runner whose tool path is `toolPath`. */
  function WindowsQuote(toolPath: string, arg: string): string
  {
    if !IsCmdFile(toolPath) then UvQuote(arg)
    else if arg == [] then "\"\""
    else if !NeedsCmdQuotes(arg) then arg
    else "\"" + Escaped(arg, '"') + "\""
  }

  /** `_windowsQuoteCmdArg`. */
  method WindowsQuoteCmdArg(toolPath: string, arg: string) returns (r: string)
    ensures r == WindowsQuote(toolPath, arg)
  {
    if !IsCmdFile(toolPath) {
      r := UvQuoteCmdArg(arg);
      return;
    }
    if arg == [] {
      return "\"\"";
    }
    var needsQuotes := false;
    var i := 0;
    while i < |arg|
      invariant 0 <= i <= |arg|
      invariant !needsQuotes
      invariant forall k :: 0 <= k < i ==> !IsCmdSpecial(arg[k])
    {
      if IsCmdSpecial(arg[i]) {
        needsQuotes := true;
        break;
      }
      i := i + 1;
    }
    if !needsQuotes {
      return arg;
    }
    r := ReverseScanQuote(arg, '"');
  }

  // ---------------------------------------------------------------------
  // How the scan treats pieces of its input

  /** Characters other than backslash and double quote are copied. */
  lemma {:induction false} EscapedPlain(a: string, b: string, quoteEscape: char)
    requires '"' !in a && '\\' !in a
    ensures Escaped(a + b, quoteEscape) == a + Escaped(b, quoteEscape)
    decreases |a|
  {
    if a == [] {
      assert a + b == b;
    } else {
      var t := a + b;
      assert t[0] == a[0] && t[1..] == a[1..] + b;
      EscapedPlain(a[1..], b, quoteEscape);
      calc {
        Escaped(t, quoteEscape);
        EscapeChar(a[0], QuoteFollows(t[1..]), quoteEscape) + Escaped(a[1..] + b, quoteEscape);
        [a[0]] + (a[1..] + Escaped(b, quoteEscape));
        { assert [a[0]] + a[1..] == a; }
        a + Escaped(b, quoteEscape);
      }
    }
  }

  /** A run of backslashes is doubled exactly when a double quote or the end follows it. */
  lemma {:induction false} EscapedBackslashes(m: nat, b: string, quoteEscape: char)
    ensures QuoteFollows(Repeat('\\', m) + b) == QuoteFollows(b)
    ensures Escaped(Repeat('\\', m) + b, quoteEscape)
         == Repeat('\\', if QuoteFollows(b) then 2 * m else m) + Escaped(b, quoteEscape)
    decreases m
  {
    if m == 0 {
      assert Repeat('\\', m) + b == b;
    } else {
      var t := Repeat('\\', m) + b;
      assert t[0] == '\\' && t[1..] == Repeat('\\', m - 1) + b;
      EscapedBackslashes(m - 1, b, quoteEscape);
      var e := Escaped(b, quoteEscape);
      assert Escaped(t, quoteEscape) == EscapeChar('\\', QuoteFollows(b), quoteEscape) + Escaped(t[1..], quoteEscape);
      if QuoteFollows(b) {
        assert EscapeChar('\\', true, quoteEscape) == Repeat('\\', 2);
        AppendAssoc(Repeat('\\', 2), Repeat('\\', 2 * (m - 1)), e);
        RepeatAdd('\\', 2, 2 * (m - 1));
      } else {
        assert EscapeChar('\\', false, quoteEscape) == Repeat('\\', 1);
        AppendAssoc(Repeat('\\', 1), Repeat('\\', m - 1), e);
        RepeatAdd('\\', 1, m - 1);
      }
    }
  }

  /** A double quote is preceded by the grammar's escape character. */
  lemma EscapedQuote(b: string, quoteEscape: char)
    ensures Escaped("\"" + b, quoteEscape) == [quoteEscape, '"'] + Escaped(b, quoteEscape)
  {
    assert ("\"" + b)[1..] == b;
  }

  /** With neither double quotes nor backslashes, the scan changes nothing. */
  lemma EscapedIdentity(a: string, quoteEscape: char)
    requires '"' !in a && '\\' !in a
    ensures Escaped(a, quoteEscape) == a
  {
    EscapedPlain(a, [], quoteEscape);
    assert a + [] == a;
  }

  // ---------------------------------------------------------------------
  // Properties of libuv quoting

  /**
   * The three outcomes of `_uv_quote_cmd_arg`: `""` for the empty argument,
   * the argument itself when it has no space, tab or double quote, and
   * otherwise the escaped argument between double quotes (the shortcut for
   * arguments without quotes and backslashes is the same text).
   */
  lemma UvQuoteCases(arg: string)
    ensures arg == [] ==> UvQuote(arg) == "\"\""
    ensures arg != [] && ' ' !in arg && '\t' !in arg && '"' !in arg ==> UvQuote(arg) == arg
    ensures ' ' in arg || '\t' in arg || '"' in arg ==> UvQuote(arg) == "\"" + Escaped(arg, '\\') + "\""
    ensures '"' !in arg && '\\' !in arg && (' ' in arg || '\t' in arg) ==> UvQuote(arg) == "\"" + arg + "\""
  {
    if '"' !in arg && '\\' !in arg {
      EscapedIdentity(arg, '\\');
    }
  }

  /** A backslash run before a double quote: the run is doubled and the quote escaped. */
  lemma EscapedQuoteAfterRun(x: string, m: nat, z: string, quoteEscape: char)
    requires '"' !in x && '\\' !in x
    ensures Escaped(x + Repeat('\\', m) + "\"" + z, quoteEscape)
         == x + Repeat('\\', 2 * m) + [quoteEscape, '"'] + Escaped(z, quoteEscape)
  {
    var run, run2, qz := Repeat('\\', m), Repeat('\\', 2 * m), "\"" + z;
    var e := Escaped(z, quoteEscape);
    AppendAssoc(x + run, "\"", z);
    AppendAssoc(x, run, qz);
    assert QuoteFollows(qz);
    EscapedPlain(x, run + qz, quoteEscape);
    EscapedBackslashes(m, qz, quoteEscape);
    EscapedQuote(z, quoteEscape);
    AppendAssoc(x + run2, [quoteEscape, '"'], e);
    AppendAssoc(x, run2, [quoteEscape, '"'] + e);
  }

  /** A backslash run at the end is doubled. */
  lemma EscapedTrailingRun(x: string, m: nat, quoteEscape: char)
    requires '"' !in x && '\\' !in x
    ensures Escaped(x + Repeat('\\', m), quoteEscape) == x + Repeat('\\', 2 * m)
  {
    EscapedBackslashes(m, [], quoteEscape);
    EscapedPlain(x, Repeat('\\', m) + [], quoteEscape);
    assert Repeat('\\', m) + [] == Repeat('\\', m);
    assert Repeat('\\', 2 * m) + [] == Repeat('\\', 2 * m);
  }

  /** A backslash run followed by an ordinary character is kept as it is. */
  lemma EscapedInnerRun(x: string, m: nat, y: string, quoteEscape: char)
    requires '"' !in x && '\\' !in x && '"' !in y && '\\' !in y && y != []
    ensures Escaped(x + Repeat('\\', m) + y, quoteEscape) == x + Repeat('\\', m) + y
  {
    EscapedIdentity(y, quoteEscape);
    EscapedBackslashes(m, y, quoteEscape);
    EscapedPlain(x, Repeat('\\', m) + y, quoteEscape);
    assert x + Repeat('\\', m) + y == x + (Repeat('\\', m) + y);
  }

  // The rows of the table in the source's comment on `_uv_quote_cmd_arg`,
  // stated for any text around the backslashes and any length of run.

  /** `hello"world` gives `"hello\"world"`; `hello\"world` gives `"hello\\\"world"`, and so on. */
  lemma UvQuoteRunBeforeQuote(x: string, m: nat, z: string)
    requires '"' !in x && '\\' !in x && '"' !in z && '\\' !in z
    ensures UvQuote(x + Repeat('\\', m) + "\"" + z)
         == "\"" + (x + Repeat('\\', 2 * m) + "\\\"" + z) + "\""
  {
    var arg := x + Repeat('\\', m) + "\"" + z;
    assert arg[|x| + m] == '"';
    UvQuoteCases(arg);
    EscapedQuoteAfterRun(x, m, z, '\\');
    EscapedIdentity(z, '\\');
  }

  /** Two adjacent double quotes are escaped one by one. */
  lemma EscapedTwoQuotes(x: string, z: string, quoteEscape: char)
    requires '"' !in x && '\\' !in x
    ensures Escaped(x + "\"\"" + z, quoteEscape) == x + [quoteEscape, '"', quoteEscape, '"'] + Escaped(z, quoteEscape)
  {
    var e := Escaped(z, quoteEscape);
    AppendAssoc(x, "\"\"", z);
    assert "\"\"" + z == "\"" + ("\"" + z);
    EscapedPlain(x, "\"\"" + z, quoteEscape);
    EscapedQuote("\"" + z, quoteEscape);
    EscapedQuote(z, quoteEscape);
    assert [quoteEscape, '"'] + ([quoteEscape, '"'] + e) == [quoteEscape, '"', quoteEscape, '"'] + e;
    AppendAssoc(x, [quoteEscape, '"', quoteEscape, '"'], e);
  }

  /** `hello""world` gives `"hello\\"\\"world"`. */
  lemma UvQuoteTwoQuotes(x: string, z: string)
    requires '"' !in x && '\\' !in x && '"' !in z && '\\' !in z
    ensures UvQuote(x + "\"\"" + z) == "\"" + (x + "\\\"\\\"" + z) + "\""
  {
    var arg := x + "\"\"" + z;
    assert arg[|x|] == '"';
    UvQuoteCases(arg);
    EscapedTwoQuotes(x, z, '\\');
    EscapedIdentity(z, '\\');
  }

  /** `hello\world` is left alone: backslashes alone do not call for quoting. */
  lemma UvQuoteBackslashesAlone(x: string, m: nat, z: string)
    requires x != [] && ' ' !in x && '\t' !in x && '"' !in x
    requires ' ' !in z && '\t' !in z && '"' !in z
    ensures UvQuote(x + Repeat('\\', m) + z) == x + Repeat('\\', m) + z
  {
    var arg := x + Repeat('\\', m) + z;
    assert arg[0] == x[0];
    forall k | 0 <= k < |arg|
      ensures arg[k] != ' ' && arg[k] != '\t' && arg[k] != '"'
    {
      if k < |x| {
        assert arg[k] == x[k];
      } else if k < |x| + m {
        assert arg[k] == '\\';
      } else {
        assert arg[k] == z[k - |x| - m];
      }
    }
    UvQuoteCases(arg);
  }

  /** `hello world\` gives `"hello world\\"`: a trailing run is doubled before the closing quote. */
  lemma UvQuoteTrailingRun(x: string, m: nat)
    requires '"' !in x && '\\' !in x && (' ' in x || '\t' in x)
    ensures UvQuote(x + Repeat('\\', m)) == "\"" + (x + Repeat('\\', 2 * m)) + "\""
  {
    var arg := x + Repeat('\\', m);
    var k :| 0 <= k < |x| && (x[k] == ' ' || x[k] == '\t');
    assert arg[k] == x[k];
    UvQuoteCases(arg);
    EscapedTrailingRun(x, m, '\\');
  }

  // ---------------------------------------------------------------------
  // Properties of cmd.exe quoting

  /**
   * The outcomes of `_windowsQuoteCmdArg`: libuv quoting for a tool that is
   * not a script; for a script `""` for the empty argument, the argument
   * itself when it has no special character, and otherwise the argument
   * wrapped in double quotes with embedded quotes doubled.
   */
  lemma WindowsQuoteCases(toolPath: string, arg: string)
    ensures !IsCmdFile(toolPath) ==> WindowsQuote(toolPath, arg) == UvQuote(arg)
    ensures IsCmdFile(toolPath) && arg == [] ==> WindowsQuote(toolPath, arg) == "\"\""
    ensures IsCmdFile(toolPath) && (forall k :: 0 <= k < |arg| ==> !IsCmdSpecial(arg[k]))
      ==> WindowsQuote(toolPath, arg) == (if arg == [] then "\"\"" else arg)
    ensures IsCmdFile(toolPath) && (exists k :: 0 <= k < |arg| && IsCmdSpecial(arg[k]))
      ==> WindowsQuote(toolPath, arg) == "\"" + Escaped(arg, '"') + "\""
  {
  }

  // The examples in the source's comment on `_windowsQuoteCmdArg`, stated for
  // any text around the backslashes and any length of run, and the
  // special-character set at work.

  /** `hello \world` gives `"hello \world"`: a run before an ordinary character is kept. */
  lemma WindowsQuoteInnerRun(script: string, x: string, m: nat, y: string)
    requires IsCmdFile(script) && NeedsCmdQuotes(x)
    requires '"' !in x && '\\' !in x && '"' !in y && '\\' !in y && y != []
    ensures WindowsQuote(script, x + Repeat('\\', m) + y) == "\"" + (x + Repeat('\\', m) + y) + "\""
  {
    var arg := x + Repeat('\\', m) + y;
    var k :| 0 <= k < |x| && IsCmdSpecial(x[k]);
    assert arg[k] == x[k];
    assert NeedsCmdQuotes(arg);
    assert arg != [];
    assert WindowsQuote(script, arg) == "\"" + Escaped(arg, '"') + "\"";
    EscapedInnerRun(x, m, y, '"');
  }

  /** `hello\"world` gives `"hello\\""world"`: the run is doubled and the quote doubled. */
  lemma WindowsQuoteRunBeforeQuote(script: string, x: string, m: nat, z: string)
    requires IsCmdFile(script)
    requires '"' !in x && '\\' !in x && '"' !in z && '\\' !in z
    ensures WindowsQuote(script, x + Repeat('\\', m) + "\"" + z)
         == "\"" + (x + Repeat('\\', 2 * m) + "\"\"" + z) + "\""
  {
    var arg := x + Repeat('\\', m) + "\"" + z;
    var e := Escaped(arg, '"');
    assert e == x + Repeat('\\', 2 * m) + "\"\"" + z by {
      EscapedQuoteAfterRun(x, m, z, '"');
      EscapedIdentity(z, '"');
    }
    assert WindowsQuote(script, arg) == "\"" + e + "\"" by {
      assert arg[|x| + m] == '"' && IsCmdSpecial('"');
      assert NeedsCmdQuotes(arg);
    }
  }

  /** `hello world\` gives `"hello world\\"`. */
  lemma WindowsQuoteTrailingRun(script: string, x: string, m: nat)
    requires IsCmdFile(script) && NeedsCmdQuotes(x)
    requires '"' !in x && '\\' !in x
    ensures WindowsQuote(script, x + Repeat('\\', m)) == "\"" + (x + Repeat('\\', 2 * m)) + "\""
  {
    var arg := x + Repeat('\\', m);
    var k :| 0 <= k < |x| && IsCmdSpecial(x[k]);
    assert arg[k] == x[k];
    EscapedTrailingRun(x, m, '"');
  }

  /** Backslashes alone do not make cmd.exe quoting necessary. */
  lemma WindowsQuoteKeepsBackslashes(script: string, x: string, m: nat, y: string)
    requires IsCmdFile(script) && x != [] && !NeedsCmdQuotes(x) && !NeedsCmdQuotes(y)
    ensures WindowsQuote(script, x + Repeat('\\', m) + y) == x + Repeat('\\', m) + y
  {
    BackslashesNeedNoQuotes(m);
    NoQuotesAppend(x, Repeat('\\', m));
    NoQuotesAppend(x + Repeat('\\', m), y);
    assert (x + Repeat('\\', m) + y)[0] == x[0];
  }

  lemma BackslashesNeedNoQuotes(m: nat)
    ensures !NeedsCmdQuotes(Repeat('\\', m))
  {
  }

  /** Two pieces that need no cmd.exe quoting need none together. */
  lemma NoQuotesAppend(a: string, b: string)
    requires !NeedsCmdQuotes(a) && !NeedsCmdQuotes(b)
    ensures !NeedsCmdQuotes(a + b)
  {
    forall k | 0 <= k < |a + b|
      ensures !IsCmdSpecial((a + b)[k])
    {
      if k >= |a| {
        assert (a + b)[k] == b[k - |a|];
      }
    }
  }

  /**
   * Any special character, a backtick or an ampersand among them, does; an
   * argument without double quotes and backslashes is then wrapped as it is.
   */
  lemma WindowsQuoteWrapsPlain(script: string, arg: string)
    requires IsCmdFile(script) && NeedsCmdQuotes(arg)
    requires '"' !in arg && '\\' !in arg
    ensures WindowsQuote(script, arg) == "\"" + arg + "\""
  {
    EscapedIdentity(arg, '"');
  }

  // ---------------------------------------------------------------------
  // Script-file detection

  /** For a non-empty suffix, `_endsWith` is the suffix test. */
  lemma EndsWithIsSuffix(str: string, end: string)
    requires end != []
    ensures EndsWith(str, end) <==> exists p :: str == p + end
  {
    if EndsWith(str, end) {
      assert str == str[..|str| - |end|] + end;
    }
    if p :| str == p + end {
      assert str[|str| - |end|..] == end;
    }
  }

  /** `_isCmdFile` holds exactly when the last four characters are `.cmd` or `.bat` in any letter case. */
  lemma IsCmdFileIff(toolPath: string)
    ensures IsCmdFile(toolPath) <==>
      |toolPath| >= 4 && (Upper(toolPath[|toolPath| - 4..]) == ".CMD" || Upper(toolPath[|toolPath| - 4..]) == ".BAT")
  {
    var upper := Upper(toolPath);
    if |toolPath| >= 4 {
      assert upper[|upper| - 4..] == Upper(toolPath[|toolPath| - 4..]);
    }
  }

  // ---------------------------------------------------------------------
  // Reading an argument back: the Microsoft C runtime's rules

  function Prepend(p: string, o: Option<string>): Option<string>
  {
    match o
    case None => None
    case Some(v) => Some(p + v)
  }

  /** The number of backslashes `t` starts with. */
  function LeadingBackslashes(t: string): (n: nat)
    ensures n <= |t|
    ensures forall k :: 0 <= k < n ==> t[k] == '\\'
    ensures n == |t| || t[n] != '\\'
    decreases |t|
  {
    if t != [] && t[0] == '\\' then 1 + LeadingBackslashes(t[1..]) else 0
  }

  /**
   * The text of one argument as the Microsoft C runtime reads it from the
   * characters after its opening double quote, up to a closing double quote
   * that ends `t`: `2n` backslashes before a double quote stand for `n`
   * backslashes and leave the quote special, `2n+1` for `n` backslashes and a
   * literal quote; backslashes before anything else are literal; and inside
   * quotes `""` is a literal quote. `None` when `t` is not of that shape.
   */
  function ParseQuoted(t: string): Option<string>
    decreases |t|
  {
    if t == [] then None
    else if t[0] == '\\' then
      var n := LeadingBackslashes(t);
      var r := t[n..];
      if r != [] && r[0] == '"' then
        if n % 2 == 1 then Prepend(Repeat('\\', n / 2) + "\"", ParseQuoted(r[1..]))
        else if |r| == 1 then Some(Repeat('\\', n / 2))
        else if r[1] == '"' then Prepend(Repeat('\\', n / 2) + "\"", ParseQuoted(r[2..]))
        else None
      else Prepend(Repeat('\\', n), ParseQuoted(r))
    else if t[0] == '"' then
      if |t| == 1 then Some([])
      else if t[1] == '"' then Prepend("\"", ParseQuoted(t[2..]))
      else None
    else Prepend([t[0]], ParseQuoted(t[1..]))
  }

  /**
   * One command-line argument as the Microsoft C runtime reads it: a quoted
   * argument as above, or a bare one without whitespace or double quotes,
   * whose backslashes are literal. `None` for other shapes.
   */
  function ParseArg(s: string): Option<string>
  {
    if s != [] && s[0] == '"' then ParseQuoted(s[1..])
    else if s != [] && ' ' !in s && '\t' !in s && '"' !in s then Some(s)
    else None
  }

  lemma {:induction false} LeadingRun(k: nat, s: string)
    requires s == [] || s[0] != '\\'
    ensures LeadingBackslashes(Repeat('\\', k) + s) == k
    ensures (Repeat('\\', k) + s)[k..] == s
    decreases k
  {
    var t := Repeat('\\', k) + s;
    if k == 0 {
      assert t == s;
    } else {
      assert t[0] == '\\' && t[1..] == Repeat('\\', k - 1) + s;
      LeadingRun(k - 1, s);
    }
  }

  /** An argument split at the end of its leading backslash run. */
  lemma SplitRun(arg: string)
    ensures arg == Repeat('\\', LeadingBackslashes(arg)) + arg[LeadingBackslashes(arg)..]
  {
    var m := LeadingBackslashes(arg);
    assert arg[..m] == Repeat('\\', m);
    assert arg == arg[..m] + arg[m..];
  }

  /** Whatever a quoting grammar writes between the quotes, the reader gives back the argument. */
  lemma {:induction false} ParseEscaped(arg: string, quoteEscape: char)
    requires quoteEscape == '\\' || quoteEscape == '"'
    ensures ParseQuoted(Escaped(arg, quoteEscape) + "\"") == Some(arg)
    decreases |arg|, 1
  {
    if arg == [] {
      assert Escaped(arg, quoteEscape) + "\"" == "\"";
    } else if arg[0] == '"' {
      ParseEscaped(arg[1..], quoteEscape);
      ParseEscapedQuote(arg, quoteEscape);
    } else if arg[0] != '\\' {
      ParseEscaped(arg[1..], quoteEscape);
      ParseEscapedPlain(arg, quoteEscape);
    } else {
      ParseEscapedRun(arg, quoteEscape);
    }
  }

  /** The step of `ParseEscaped` for an argument that starts with a double quote. */
  lemma ParseEscapedQuote(arg: string, quoteEscape: char)
    requires quoteEscape == '\\' || quoteEscape == '"'
    requires arg != [] && arg[0] == '"'
    requires ParseQuoted(Escaped(arg[1..], quoteEscape) + "\"") == Some(arg[1..])
    ensures ParseQuoted(Escaped(arg, quoteEscape) + "\"") == Some(arg)
  {
    var e1 := Escaped(arg[1..], quoteEscape);
    assert Escaped(arg, quoteEscape) == [quoteEscape, '"'] + e1;
    AppendAssoc([quoteEscape, '"'], e1, "\"");
    ParseEscapedQuoteRun(0, e1, quoteEscape);
    assert Repeat('\\', 0) + "\"" + arg[1..] == arg;
  }

  /** The step of `ParseEscaped` for an argument that starts with an ordinary character. */
  lemma ParseEscapedPlain(arg: string, quoteEscape: char)
    requires arg != [] && arg[0] != '"' && arg[0] != '\\'
    requires ParseQuoted(Escaped(arg[1..], quoteEscape) + "\"") == Some(arg[1..])
    ensures ParseQuoted(Escaped(arg, quoteEscape) + "\"") == Some(arg)
  {
    var e1 := Escaped(arg[1..], quoteEscape);
    var t := Escaped(arg, quoteEscape) + "\"";
    assert t == [arg[0]] + (e1 + "\"");
    assert t[1..] == e1 + "\"";
    assert [arg[0]] + arg[1..] == arg;
  }

  /** The step of `ParseEscaped` for an argument that starts with a backslash run. */
  lemma {:induction false} ParseEscapedRun(arg: string, quoteEscape: char)
    requires quoteEscape == '\\' || quoteEscape == '"'
    requires arg != [] && arg[0] == '\\'
    ensures ParseQuoted(Escaped(arg, quoteEscape) + "\"") == Some(arg)
    decreases |arg|, 0
  {
    var m := LeadingBackslashes(arg);
    var rest := arg[m..];
    if rest == [] {
      assert arg == Repeat('\\', m) by {
        SplitRun(arg);
      }
      ParseRunAtEnd(m, quoteEscape);
    } else if rest[0] == '"' {
      var z := rest[1..];
      assert arg == Repeat('\\', m) + "\"" + z by {
        SplitRun(arg);
        assert rest == "\"" + z;
      }
      ParseEscaped(z, quoteEscape);
      ParseRunBeforeQuote(m, z, quoteEscape);
    } else {
      assert arg == Repeat('\\', m) + rest by {
        SplitRun(arg);
      }
      ParseEscaped(rest, quoteEscape);
      ParseRunBeforePlain(m, rest, quoteEscape);
    }
  }

  lemma ParseRunAtEnd(m: nat, quoteEscape: char)
    requires m >= 1
    ensures ParseQuoted(Escaped(Repeat('\\', m), quoteEscape) + "\"") == Some(Repeat('\\', m))
  {
    EscapedBackslashes(m, [], quoteEscape);
    assert Repeat('\\', m) + [] == Repeat('\\', m);
    assert Repeat('\\', 2 * m) + [] == Repeat('\\', 2 * m);
    LeadingRun(2 * m, "\"");
    var t := Repeat('\\', 2 * m) + "\"";
    assert t[0] == '\\' && t[2 * m..] == "\"" && (2 * m) / 2 == m;
  }

  /** `2k+1` backslashes and a double quote read as `k` backslashes and a literal quote. */
  lemma ParseOddRun(k: nat, rest: string)
    ensures ParseQuoted(Repeat('\\', 2 * k + 1) + ("\"" + rest)) == Prepend(Repeat('\\', k) + "\"", ParseQuoted(rest))
  {
    var n := 2 * k + 1;
    var t := Repeat('\\', n) + ("\"" + rest);
    LeadingRun(n, "\"" + rest);
    assert t[0] == '\\' && t[n..] == "\"" + rest && ("\"" + rest)[1..] == rest;
    assert n % 2 == 1 && n / 2 == k;
  }

  /** Inside quotes, `2k` backslashes and `""` read as `k` backslashes and a literal quote. */
  lemma ParseEvenRunQuotes(k: nat, rest: string)
    requires k >= 1
    ensures ParseQuoted(Repeat('\\', 2 * k) + ("\"\"" + rest)) == Prepend(Repeat('\\', k) + "\"", ParseQuoted(rest))
  {
    var n := 2 * k;
    var t := Repeat('\\', n) + ("\"\"" + rest);
    LeadingRun(n, "\"\"" + rest);
    assert t[0] == '\\' && t[n..] == "\"\"" + rest && ("\"\"" + rest)[2..] == rest;
    assert n % 2 == 0 && n / 2 == k;
  }

  /** Either grammar's escaped quote after a doubled run reads as the run and a literal quote. */
  lemma ParseEscapedQuoteRun(m: nat, e1: string, quoteEscape: char)
    requires quoteEscape == '\\' || quoteEscape == '"'
    ensures ParseQuoted(Repeat('\\', 2 * m) + ([quoteEscape, '"'] + (e1 + "\"")))
         == Prepend(Repeat('\\', m) + "\"", ParseQuoted(e1 + "\""))
  {
    var t := Repeat('\\', 2 * m) + ([quoteEscape, '"'] + (e1 + "\""));
    var rest := e1 + "\"";
    if quoteEscape == '\\' {
      RepeatAdd('\\', 2 * m, 1);
      assert Repeat('\\', 1) == "\\";
      assert [quoteEscape, '"'] + rest == "\\" + ("\"" + rest);
      AppendAssoc(Repeat('\\', 2 * m), "\\", "\"" + rest);
      ParseOddRun(m, rest);
    } else if m == 0 {
      assert t == "\"\"" + rest;
      assert t[0] == '"' && t[1] == '"' && t[2..] == rest;
      assert Repeat('\\', m) + "\"" == "\"";
    } else {
      AppendAssoc("\"", "\"", e1 + "\"");
      ParseEvenRunQuotes(m, e1 + "\"");
    }
  }

  lemma ParseRunBeforeQuote(m: nat, z: string, quoteEscape: char)
    requires quoteEscape == '\\' || quoteEscape == '"'
    requires m >= 1
    requires ParseQuoted(Escaped(z, quoteEscape) + "\"") == Some(z)
    ensures ParseQuoted(Escaped(Repeat('\\', m) + "\"" + z, quoteEscape) + "\"")
         == Some(Repeat('\\', m) + "\"" + z)
  {
    EscapedRunQuoteText(m, z, quoteEscape);
    ParseEscapedQuoteRun(m, Escaped(z, quoteEscape), quoteEscape);
  }

  /** The quoted text for a backslash run, a double quote and the rest, regrouped for the reader. */
  lemma EscapedRunQuoteText(m: nat, z: string, quoteEscape: char)
    ensures Escaped(Repeat('\\', m) + "\"" + z, quoteEscape) + "\""
         == Repeat('\\', 2 * m) + ([quoteEscape, '"'] + (Escaped(z, quoteEscape) + "\""))
  {
    var e := Escaped(z, quoteEscape);
    AppendAssoc(Repeat('\\', m), "\"", z);
    EscapedBackslashes(m, "\"" + z, quoteEscape);
    EscapedQuote(z, quoteEscape);
    AppendAssoc(Repeat('\\', 2 * m), [quoteEscape, '"'] + e, "\"");
    AppendAssoc([quoteEscape, '"'], e, "\"");
  }

  lemma ParseRunBeforePlain(m: nat, y: string, quoteEscape: char)
    requires m >= 1 && y != [] && y[0] != '"' && y[0] != '\\'
    requires ParseQuoted(Escaped(y, quoteEscape) + "\"") == Some(y)
    ensures ParseQuoted(Escaped(Repeat('\\', m) + y, quoteEscape) + "\"") == Some(Repeat('\\', m) + y)
  {
    EscapedBackslashes(m, y, quoteEscape);
    var ey := Escaped(y, quoteEscape);
    assert ey == [y[0]] + Escaped(y[1..], quoteEscape);
    assert !QuoteFollows(y);
    var tail := ey + "\"";
    var t := Escaped(Repeat('\\', m) + y, quoteEscape) + "\"";
    assert t == Repeat('\\', m) + tail;
    LeadingRun(m, tail);
    assert t[0] == '\\' && t[m..] == tail && tail[0] == y[0];
  }

  /** A double quote followed by `t` is read as a quoted argument. */
  lemma ParseArgQuoted(t: string)
    ensures ParseArg("\"" + t) == ParseQuoted(t)
  {
    assert ("\"" + t)[1..] == t;
  }

  /** Escaped text between double quotes reads back as the argument. */
  lemma ParseWrapped(arg: string, quoteEscape: char)
    requires quoteEscape == '\\' || quoteEscape == '"'
    ensures ParseArg("\"" + Escaped(arg, quoteEscape) + "\"") == Some(arg)
  {
    var e := Escaped(arg, quoteEscape);
    AppendAssoc("\"", e, "\"");
    ParseArgQuoted(e + "\"");
    ParseEscaped(arg, quoteEscape);
  }

  /** What `_uv_quote_cmd_arg` writes, the Microsoft C runtime reads back as the same argument. */
  lemma UvQuoteRoundTrip(arg: string)
    ensures ParseArg(UvQuote(arg)) == Some(arg)
  {
    UvQuoteCases(arg);
    if ' ' in arg || '\t' in arg || '"' in arg {
      ParseWrapped(arg, '\\');
    } else if arg == [] {
      ParseArgQuoted("\"");
    }
  }

  /**
   * What `_windowsQuoteCmdArg` writes, a program started with the Microsoft C
   * runtime reads back as the same argument (the `.NET console app` case of
   * the source's comment); `cmd.exe`'s own expansion is not modelled.
   */
  lemma WindowsQuoteRoundTrip(toolPath: string, arg: string)
    ensures ParseArg(WindowsQuote(toolPath, arg)) == Some(arg)
  {
    WindowsQuoteCases(toolPath, arg);
    if !IsCmdFile(toolPath) {
      UvQuoteRoundTrip(arg);
    } else if arg == [] {
      ParseArgQuoted("\"");
    } else if NeedsCmdQuotes(arg) {
      ParseWrapped(arg, '"');
    } else {
      PlainIsBare(arg);
    }
  }

  /** An argument without cmd.exe special characters has no whitespace and no double quote. */
  lemma PlainIsBare(arg: string)
    requires !NeedsCmdQuotes(arg)
    ensures ' ' !in arg && '\t' !in arg && '"' !in arg
  {
    assert IsCmdSpecial(' ') && IsCmdSpecial('\t') && IsCmdSpecial('"');
    forall k | 0 <= k < |arg|
      ensures arg[k] != ' ' && arg[k] != '\t' && arg[k] != '"'
    {
      assert !IsCmdSpecial(arg[k]);
    }
  }
}
