/**
 * The tool runner's argument-line tokenizer (`_argStringToArray`): a single
 * pass over the characters with the flags `inQuotes`, `escaped` and
 * `lastCharWasSpace`.
 *
 * The specification is the same pass written as a fold of `Step` over the
 * characters (`RunFrom`), followed by `Finish`; the method
 * `ArgStringToArray` is the loop itself, proved to compute `Tokenize`.
 */
module ArgTokenizer {
  import opened Strings

  /** The loop's variables between two characters. */
  datatype TokState = TokState(
    args: seq<string>,       // tokens emitted so far
    inQuotes: bool,          // inside a "..." region
    escaped: bool,           // a backslash inside quotes is pending
    lastCharWasSpace: bool,  // the previous character delimited a token (true at the start)
    arg: string)             // the token being accumulated

  const Start := TokState([], false, false, true, "")

  /** The `append` closure: a pending backslash is kept unless `c` is a double quote. */
  function Append(st: TokState, c: char): TokState
  {
    st.(arg := st.arg + (if st.escaped && c != '"' then "\\" else "") + [c], escaped := false)
  }

  /** One iteration of the loop, on character `c`. */
  function Step(st: TokState, c: char): TokState
  {
    if c == ' ' && !st.inQuotes then
      // only an unquoted space delimits; a run of them emits one token
      if !st.lastCharWasSpace then st.(args := st.args + [st.arg], arg := "", lastCharWasSpace := true)
      else st.(lastCharWasSpace := true)
    else
      var st := st.(lastCharWasSpace := false);
      if c == '"' then
        if !st.escaped then st.(inQuotes := !st.inQuotes) else Append(st, c)
      else if c == '\\' && st.escaped then Append(st, c)
      else if c == '\\' && st.inQuotes then st.(escaped := true)
      else Append(st, c)
  }

  /** The state after the loop has consumed all of `s`, starting from `st`. */
  function RunFrom(st: TokState, s: string): TokState
    decreases |s|
  {
    if s == [] then st else Step(RunFrom(st, s[..|s| - 1]), s[|s| - 1])
  }

  /** After the loop: the last token, if any, is trimmed and emitted; a pending backslash is dropped. */
  function Finish(st: TokState): seq<string>
  {
    if !st.lastCharWasSpace then st.args + [Trim(st.arg)] else st.args
  }

  /** The arguments `_argStringToArray(s)` returns. */
  function Tokenize(s: string): seq<string>
  {
    Finish(RunFrom(Start, s))
  }

  /** The closure `append(c)` of the source, on the loop's variables. */
  method AppendChar(arg: string, escaped: bool, c: char) returns (arg': string, escaped': bool)
    ensures TokState([], true, escaped', false, arg') == Append(TokState([], true, escaped, false, arg), c)
  {
    arg' := arg;
    if escaped && c != '"' {
      arg' := arg' + "\\";
    }
    arg' := arg' + [c];
    escaped' := false;
  }

  /** `_argStringToArray`: splits an argument line into arguments. */
  method ArgStringToArray(argString: string) returns (args: seq<string>)
    ensures args == Tokenize(argString)
  {
    args := [];
    var inQuotes, escaped, lastCharWasSpace, arg := false, false, true, "";
    for i := 0 to |argString|
      invariant TokState(args, inQuotes, escaped, lastCharWasSpace, arg) == RunFrom(Start, argString[..i])
    {
      var c := argString[i];
      assert argString[..i + 1][..i] == argString[..i];
      if c == ' ' && !inQuotes {
        if !lastCharWasSpace {
          args := args + [arg];
          arg := "";
        }
        lastCharWasSpace := true;
        continue;
      } else {
        lastCharWasSpace := false;
      }

      if c == '"' {
        if !escaped {
          inQuotes := !inQuotes;
        } else {
          arg, escaped := AppendChar(arg, escaped, c);
        }
        continue;
      }

      if c == '\\' && escaped {
        arg, escaped := AppendChar(arg, escaped, c);
        continue;
      }

      if c == '\\' && inQuotes {
        escaped := true;
        continue;
      }

      arg, escaped := AppendChar(arg, escaped, c);
      lastCharWasSpace := false;
    }
    assert argString[..|argString|] == argString;

    if !lastCharWasSpace {
      args := args + [Trim(arg)];
    }
  }

  // ---------------------------------------------------------------------
  // Properties of the tokenizer

  /** Consuming `a + b` is consuming `a`, then `b`. */
  lemma {:induction false} RunFromAppend(st: TokState, a: string, b: string)
    ensures RunFrom(st, a + b) == RunFrom(RunFrom(st, a), b)
    decreases |b|
  {
    if b == [] {
      assert a + b == a;
    } else {
      var n := |b| - 1;
      assert (a + b)[..|a + b| - 1] == a + b[..n];
      RunFromAppend(st, a, b[..n]);
    }
  }

  /** The flags the loop keeps consistent with each other. */
  ghost predicate Consistent(st: TokState)
  {
    && (st.escaped ==> st.inQuotes)
    && (st.inQuotes ==> !st.lastCharWasSpace)
    && (st.lastCharWasSpace ==> st.arg == [])
  }

  lemma {:induction false} ConsistentRun(s: string)
    ensures Consistent(RunFrom(Start, s))
    decreases |s|
  {
    if s != [] {
      ConsistentRun(s[..|s| - 1]);
    }
  }

  /** Consuming one more character is one more `Step`. */
  lemma RunFromSnoc(st: TokState, s: string, c: char)
    ensures RunFrom(st, s + [c]) == Step(RunFrom(st, s), c)
  {
    assert (s + [c])[..|s|] == s;
  }

  /** Characters that are copied into the current token as they are, inside or outside quotes. */
  predicate Plain(c: char)
  {
    c != '"' && c != '\\'
  }

  /**
   * Inside quotes (and with no backslash pending), a run of plain characters,
   * spaces included, is appended to the current token.
   */
  lemma {:induction false} QuotedRun(st: TokState, x: string)
    requires st.inQuotes && !st.escaped && !st.lastCharWasSpace
    requires forall k :: 0 <= k < |x| ==> Plain(x[k])
    ensures RunFrom(st, x) == st.(arg := st.arg + x)
    decreases |x|
  {
    if x != [] {
      var n := |x| - 1;
      QuotedRun(st, x[..n]);
      ButLastSnoc(x);
      RunFromSnoc(st, x[..n], x[n]);
    }
  }

  /**
   * Outside quotes, a non-empty run of plain characters other than the space
   * is appended to the current token, which is then no longer delimited.
   */
  lemma {:induction false} UnquotedRun(st: TokState, x: string)
    requires !st.inQuotes && !st.escaped
    requires x != [] && forall k :: 0 <= k < |x| ==> Plain(x[k]) && x[k] != ' '
    ensures RunFrom(st, x) == st.(arg := st.arg + x, lastCharWasSpace := false)
    decreases |x|
  {
    var n := |x| - 1;
    ButLastSnoc(x);
    RunFromSnoc(st, x[..n], x[n]);
    if n > 0 {
      UnquotedRun(st, x[..n]);
    }
  }

  /** A double-quoted run of plain characters contributes exactly those characters, spaces included. */
  lemma QuotedSegment(st: TokState, x: string)
    requires !st.inQuotes && !st.escaped
    requires forall k :: 0 <= k < |x| ==> Plain(x[k])
    ensures RunFrom(st, "\"" + x + "\"") == st.(arg := st.arg + x, lastCharWasSpace := false)
  {
    var open := Step(st, '"');
    assert RunFrom(st, "\"") == open by { RunFromSnoc(st, [], '"'); }
    QuotedRun(open, x);
    RunFromAppend(st, "\"", x);
    RunFromSnoc(st, "\"" + x, '"');
  }

  /** An unquoted space after a token emits that token. */
  lemma Delimit(st: TokState)
    requires !st.inQuotes && !st.lastCharWasSpace
    ensures RunFrom(st, " ") == st.(args := st.args + [st.arg], arg := "", lastCharWasSpace := true)
  {
    RunFromSnoc(st, [], ' ');
  }

  /**
   * A quoted argument followed by two unquoted ones, each separated by one
   * space, yields exactly the three arguments, the quotes removed.
   */
  lemma QuotedThenTwo(x: string, y: string, z: string)
    requires forall k :: 0 <= k < |x| ==> Plain(x[k])
    requires y != [] && forall k :: 0 <= k < |y| ==> Plain(y[k]) && y[k] != ' '
    requires z != [] && forall k :: 0 <= k < |z| ==> Plain(z[k]) && z[k] != ' '
    requires !IsJsWhitespace(z[0]) && !IsJsWhitespace(z[|z| - 1])
    ensures Tokenize("\"" + x + "\"" + " " + y + " " + z) == [x, y, z]
  {
    var s1 := "\"" + x + "\"";
    QuotedSegment(Start, x);
    var a := RunFrom(Start, s1);
    assert a == TokState([], false, false, false, x);
    Delimit(a);
    var b := RunFrom(a, " ");
    assert b == TokState([x], false, false, true, "");
    UnquotedRun(b, y);
    var c := RunFrom(b, y);
    assert c == TokState([x], false, false, false, y);
    Delimit(c);
    var d := RunFrom(c, " ");
    assert d == TokState([x, y], false, false, true, "");
    UnquotedRun(d, z);
    var e := RunFrom(d, z);
    assert e == TokState([x, y], false, false, false, z);
    RunFromAppend(Start, s1, " ");
    RunFromAppend(Start, s1 + " ", y);
    RunFromAppend(Start, s1 + " " + y, " ");
    RunFromAppend(Start, s1 + " " + y + " ", z);
    assert RunFrom(Start, s1 + " " + y + " " + z) == e;
    TrimIdentity(z);
    assert Tokenize(s1 + " " + y + " " + z) == [x, y] + [z];
    SnocDisplay(x, y, z);
  }

  lemma SnocDisplay<T>(a: T, b: T, c: T)
    ensures [a, b] + [c] == [a, b, c]
  {
  }

  /** The example in the source's documentation of `line`. */
  lemma LineExample()
    ensures Tokenize("\"arg one\" two -z") == ["arg one", "two", "-z"]
  {
    QuotedThenTwo("arg one", "two", "-z");
    assert "\"arg one\" two -z" == "\"" + "arg one" + "\"" + " " + "two" + " " + "-z";
  }

  /** Spaces before the first argument produce nothing. */
  lemma LeadingSpaceIgnored(s: string)
    ensures Tokenize(" " + s) == Tokenize(s)
  {
    RunFromSnoc(Start, [], ' ');
    RunFromAppend(Start, " ", s);
  }

  /** A run of unquoted spaces delimits exactly as one space does. */
  lemma SpaceRunsCollapse(a: string, b: string)
    requires !RunFrom(Start, a).inQuotes
    ensures Tokenize(a + "  " + b) == Tokenize(a + " " + b)
  {
    var st := RunFrom(Start, a);
    RunFromSnoc(st, [], ' ');
    RunFromSnoc(st, " ", ' ');
    assert RunFrom(st, "  ") == RunFrom(st, " ");
    RunFromAppend(Start, a, "  ");
    RunFromAppend(Start, a + "  ", b);
    RunFromAppend(Start, a, " ");
    RunFromAppend(Start, a + " ", b);
  }

  /** Without backslashes in the line, no argument contains a double quote: quotes only group. */
  lemma {:induction false} QuotesNeverCopied(s: string)
    requires forall k :: 0 <= k < |s| ==> s[k] != '\\'
    ensures forall t :: t in Tokenize(s) ==> '"' !in t
  {
    NoQuoteInRun(s);
    var st := RunFrom(Start, s);
    forall c | c in Trim(st.arg)
      ensures c != '"'
    {
      TrimChars(st.arg, c);
    }
  }

  lemma {:induction false} NoQuoteInRun(s: string)
    requires forall k :: 0 <= k < |s| ==> s[k] != '\\'
    ensures var st := RunFrom(Start, s);
      && !st.escaped && '"' !in st.arg && forall t :: t in st.args ==> '"' !in t
    decreases |s|
  {
    if s != [] {
      NoQuoteInRun(s[..|s| - 1]);
    }
  }

  /** Without double quotes in the line, no argument contains a space: only unquoted spaces delimit. */
  lemma {:induction false} SpacesOnlyInsideQuotes(s: string)
    requires forall k :: 0 <= k < |s| ==> s[k] != '"'
    ensures forall t :: t in Tokenize(s) ==> ' ' !in t
  {
    NoSpaceInRun(s);
    var st := RunFrom(Start, s);
    forall c | c in Trim(st.arg)
      ensures c != ' '
    {
      TrimChars(st.arg, c);
    }
  }

  lemma {:induction false} NoSpaceInRun(s: string)
    requires forall k :: 0 <= k < |s| ==> s[k] != '"'
    ensures var st := RunFrom(Start, s);
      && !st.inQuotes && !st.escaped && ' ' !in st.arg && forall t :: t in st.args ==> ' ' !in t
    decreases |s|
  {
    if s != [] {
      NoSpaceInRun(s[..|s| - 1]);
    }
  }

  /** Inside quotes, `\"` is a literal double quote and does not leave the quotes. */
  lemma EscapedQuoteInQuotes(st: TokState)
    requires st.inQuotes && !st.escaped
    ensures RunFrom(st, "\\\"") == st.(arg := st.arg + "\"", lastCharWasSpace := false)
  {
    RunFromSnoc(st, [], '\\');
    RunFromSnoc(st, "\\", '"');
  }

  /** Inside quotes, a backslash before anything but a double quote is kept, so `\\` stays two backslashes. */
  lemma BackslashKeptInQuotes(st: TokState, c: char)
    requires st.inQuotes && !st.escaped && c != '"'
    ensures RunFrom(st, ['\\', c]) == st.(arg := st.arg + ['\\', c], lastCharWasSpace := false)
  {
    RunFromSnoc(st, [], '\\');
    RunFromSnoc(st, ['\\'], c);
  }

  /** Outside quotes a backslash is an ordinary character. */
  lemma BackslashLiteralOutsideQuotes(st: TokState)
    requires !st.inQuotes && !st.escaped
    ensures RunFrom(st, "\\") == st.(arg := st.arg + "\\", lastCharWasSpace := false)
  {
    RunFromSnoc(st, [], '\\');
  }

  /** A tab is never a delimiter: it is copied into the current argument. */
  lemma TabIsNotDelimiter(st: TokState)
    requires !st.escaped
    ensures RunFrom(st, "\t") == st.(arg := st.arg + "\t", lastCharWasSpace := false)
  {
    RunFromSnoc(st, [], '\t');
  }

  /** A backslash left pending inside quotes at the end of the line is dropped. */
  lemma PendingBackslashDropped(s: string)
    requires RunFrom(Start, s).inQuotes && !RunFrom(Start, s).escaped
    ensures Tokenize(s + "\\") == Tokenize(s)
  {
    ConsistentRun(s);
    RunFromSnoc(Start, s, '\\');
  }

  /** Two quoted arguments: only the last one is trimmed. */
  lemma OnlyLastTrimmed(x: string, y: string)
    requires forall k :: 0 <= k < |x| ==> Plain(x[k])
    requires forall k :: 0 <= k < |y| ==> Plain(y[k])
    ensures Tokenize("\"" + x + "\"" + " " + ("\"" + y + "\"")) == [x, Trim(y)]
  {
    var s1, s2 := "\"" + x + "\"", "\"" + y + "\"";
    QuotedSegment(Start, x);
    var a := RunFrom(Start, s1);
    assert a == TokState([], false, false, false, x);
    Delimit(a);
    var b := RunFrom(a, " ");
    assert b == TokState([x], false, false, true, "");
    QuotedSegment(b, y);
    var c := RunFrom(b, s2);
    assert c == TokState([x], false, false, false, y);
    RunFromAppend(Start, s1, " ");
    RunFromAppend(Start, s1 + " ", s2);
    assert RunFrom(Start, s1 + " " + s2) == c;
  }

  /** A token the tokenizer reads back unchanged when it stands unquoted between spaces. */
  predicate SimpleToken(x: string)
  {
    x != [] && forall k :: 0 <= k < |x| ==> Plain(x[k]) && !IsJsWhitespace(x[k])
  }

  /** Simple tokens joined by single spaces tokenize back to themselves. */
  lemma JoinRoundTrip(xs: seq<string>)
    requires forall k :: 0 <= k < |xs| ==> SimpleToken(xs[k])
    ensures Tokenize(Join(xs, " ")) == xs
  {
    if xs != [] {
      JoinRun([], xs);
      assert [] + xs[..|xs| - 1] == xs[..|xs| - 1];
      FinishSimple(Join(xs, " "), xs[..|xs| - 1], xs[|xs| - 1]);
      ButLastSnoc(xs);
    }
  }

  /** A line that ends inside an unquoted simple token emits that token untrimmed. */
  lemma FinishSimple(s: string, init: seq<string>, last: string)
    requires RunFrom(Start, s) == TokState(init, false, false, false, last)
    requires SimpleToken(last)
    ensures Tokenize(s) == init + [last]
  {
    TrimIdentity(last);
  }

  lemma {:induction false} JoinRun(done: seq<string>, xs: seq<string>)
    requires xs != [] && forall k :: 0 <= k < |xs| ==> SimpleToken(xs[k])
    ensures RunFrom(TokState(done, false, false, true, ""), Join(xs, " "))
         == TokState(done + xs[..|xs| - 1], false, false, false, xs[|xs| - 1])
    decreases |xs|
  {
    var st := TokState(done, false, false, true, "");
    assert SimpleToken(xs[0]);
    UnquotedRun(st, xs[0]);
    if |xs| > 1 {
      assert Join(xs, " ") == xs[0] + " " + Join(xs[1..], " ");
      var a := RunFrom(st, xs[0]);
      assert [] + xs[0] == xs[0];
      assert a == TokState(done, false, false, false, xs[0]);
      Delimit(a);
      var b := RunFrom(a, " ");
      assert b == TokState(done + [xs[0]], false, false, true, "");
      assert forall k :: 0 <= k < |xs[1..]| ==> SimpleToken(xs[1..][k]) by {
        forall k | 0 <= k < |xs[1..]| ensures SimpleToken(xs[1..][k]) { assert xs[1..][k] == xs[k + 1]; }
      }
      JoinRun(done + [xs[0]], xs[1..]);
      RunFromAppend(st, xs[0], " ");
      RunFromAppend(st, xs[0] + " ", Join(xs[1..], " "));
      ButLastCons(xs);
      AppendAssoc(done, [xs[0]], xs[1..][..|xs[1..]| - 1]);
    }
  }
}
