/**
 * String helpers with the semantics of the JavaScript string methods the
 * tool runner relies on: `trim`, `toUpperCase` (ASCII letters only) and the
 * `split('').reverse().join('')` idiom.
 */
module Strings {

  /** ECMAScript WhiteSpace and LineTerminator code points, which `String.prototype.trim` removes. */
  predicate IsJsWhitespace(c: char)
  {
    var n := c as int;
    n == 0x09 || n == 0x0A || n == 0x0B || n == 0x0C || n == 0x0D || n == 0x20 ||
    n == 0xA0 || n == 0x1680 || (0x2000 <= n <= 0x200A) || n == 0x2028 || n == 0x2029 ||
    n == 0x202F || n == 0x205F || n == 0x3000 || n == 0xFEFF
  }

  /** The number of whitespace characters `s` starts with. */
  function LeadingWhitespace(s: string): (n: nat)
    ensures n <= |s|
    ensures forall k :: 0 <= k < n ==> IsJsWhitespace(s[k])
    ensures n < |s| ==> !IsJsWhitespace(s[n])
    decreases |s|
  {
    if s != [] && IsJsWhitespace(s[0]) then 1 + LeadingWhitespace(s[1..]) else 0
  }

  /** The number of whitespace characters `s` ends with. */
  function TrailingWhitespace(s: string): (n: nat)
    ensures n <= |s|
    ensures forall k :: |s| - n <= k < |s| ==> IsJsWhitespace(s[k])
    ensures n < |s| ==> !IsJsWhitespace(s[|s| - 1 - n])
    decreases |s|
  {
    if s != [] && IsJsWhitespace(s[|s| - 1]) then 1 + TrailingWhitespace(s[..|s| - 1]) else 0
  }

  /**
   * JavaScript `s.trim()`: `s` without its leading and trailing whitespace;
   * nothing is left of a string that is whitespace throughout.
   */
  function Trim(s: string): (r: string)
    ensures exists i, j :: 0 <= i <= j <= |s| && r == s[i..j] &&
                           (forall k :: 0 <= k < i ==> IsJsWhitespace(s[k])) &&
                           (forall k :: j <= k < |s| ==> IsJsWhitespace(s[k]))
    ensures r != [] ==> !IsJsWhitespace(r[0]) && !IsJsWhitespace(r[|r| - 1])
    ensures r == [] <==> forall k :: 0 <= k < |s| ==> IsJsWhitespace(s[k])
  {
    var i := LeadingWhitespace(s);
    if i == |s| then
      assert s[|s|..|s|] == [];
      []
    else
      var n := TrailingWhitespace(s);
      assert !IsJsWhitespace(s[i]);
      s[i..|s| - n]
  }

  /** Every character of `Trim(s)` occurs in `s`. */
  lemma TrimChars(s: string, c: char)
    requires c in Trim(s)
    ensures c in s
  {
    var r := Trim(s);
    var k :| 0 <= k < |r| && r[k] == c;
    assert s[LeadingWhitespace(s) + k] == c;
  }

  /** A string with no whitespace at either end is left alone by `trim`. */
  lemma TrimIdentity(s: string)
    requires s == [] || (!IsJsWhitespace(s[0]) && !IsJsWhitespace(s[|s| - 1]))
    ensures Trim(s) == s
  {
    if s != [] {
      assert LeadingWhitespace(s) == 0 && TrailingWhitespace(s) == 0;
      assert s[0..|s|] == s;
    }
  }

  /** Whatever lies between whitespace-only ends, and itself starts and ends with a non-blank, is what `trim` keeps. */
  lemma TrimSlice(t: string, a: nat, b: nat)
    requires a < b <= |t| && !IsJsWhitespace(t[a]) && !IsJsWhitespace(t[b - 1])
    requires forall k :: 0 <= k < a ==> IsJsWhitespace(t[k])
    requires forall k :: b <= k < |t| ==> IsJsWhitespace(t[k])
    ensures Trim(t) == t[a..b]
  {
    var r := Trim(t);
    var i, j :| 0 <= i <= j <= |t| && r == t[i..j] &&
                (forall k :: 0 <= k < i ==> IsJsWhitespace(t[k])) &&
                (forall k :: j <= k < |t| ==> IsJsWhitespace(t[k]));
    assert i <= a && b <= j;
    assert r[0] == t[i] && r[|r| - 1] == t[j - 1];
  }

  /** `toUpperCase` restricted to the ASCII letters `a`..`z`. */
  function UpperChar(c: char): (u: char)
    ensures 'a' <= c <= 'z' ==> u as int == c as int - 32
    ensures !('a' <= c <= 'z') ==> u == c
    ensures !('a' <= u <= 'z')
  {
    if 'a' <= c <= 'z' then (c as int - 32) as char else c
  }

  /** `s.toUpperCase()`, character by character (ASCII letters only). */
  function Upper(s: string): (u: string)
    ensures |u| == |s|
    ensures forall k :: 0 <= k < |s| ==> u[k] == UpperChar(s[k])
  {
    if s == [] then [] else [UpperChar(s[0])] + Upper(s[1..])
  }

  /** `s.split('').reverse().join('')`. */
  function Reverse(s: string): (r: string)
    ensures |r| == |s|
    ensures forall k :: 0 <= k < |s| ==> r[k] == s[|s| - 1 - k]
  {
    if s == [] then [] else Reverse(s[1..]) + [s[0]]
  }

  lemma ReverseAppend(a: string, b: string)
    ensures Reverse(a + b) == Reverse(b) + Reverse(a)
  {
  }

  lemma ReverseReverse(s: string)
    ensures Reverse(Reverse(s)) == s
  {
  }

  /** Concatenation regrouped. */
  lemma AppendAssoc<T>(a: seq<T>, b: seq<T>, c: seq<T>)
    ensures (a + b) + c == a + (b + c)
  {
  }

  /** A non-empty sequence is its prefix followed by its last element. */
  lemma ButLastSnoc<T>(xs: seq<T>)
    requires xs != []
    ensures xs[..|xs| - 1] + [xs[|xs| - 1]] == xs
  {
  }

  /** Dropping the last element commutes with splitting off the first. */
  lemma ButLastCons<T>(xs: seq<T>)
    requires |xs| > 1
    ensures xs[..|xs| - 1] == [xs[0]] + xs[1..][..|xs[1..]| - 1]
  {
  }

  /** `n` copies of the character `c`. */
  function Repeat(c: char, n: nat): (r: string)
    ensures |r| == n
    ensures forall k :: 0 <= k < n ==> r[k] == c
  {
    if n == 0 then [] else [c] + Repeat(c, n - 1)
  }

  lemma RepeatAdd(c: char, m: nat, n: nat)
    ensures Repeat(c, m) + Repeat(c, n) == Repeat(c, m + n)
  {
  }

  /** `xs.join(sep)`. */
  function Join(xs: seq<string>, sep: string): (r: string)
    ensures xs == [] ==> r == []
    ensures |xs| == 1 ==> r == xs[0]
  {
    if xs == [] then [] else if |xs| == 1 then xs[0] else xs[0] + sep + Join(xs[1..], sep)
  }

  /** Joining one more element appends the separator and that element. */
  lemma {:induction false} JoinSnoc(xs: seq<string>, x: string, sep: string)
    requires xs != []
    ensures Join(xs + [x], sep) == Join(xs, sep) + sep + x
    decreases |xs|
  {
    var ys := xs + [x];
    assert ys[0] == xs[0] && ys[1..] == xs[1..] + [x];
    if |xs| == 1 {
      assert ys[1..] == [x];
    } else {
      JoinSnoc(xs[1..], x, sep);
      calc {
        Join(ys, sep);
        xs[0] + sep + (Join(xs[1..], sep) + sep + x);
        { AppendAssoc(xs[0] + sep, Join(xs[1..], sep) + sep, x);
          AppendAssoc(xs[0] + sep, Join(xs[1..], sep), sep); }
        xs[0] + sep + Join(xs[1..], sep) + sep + x;
      }
    }
  }
}
