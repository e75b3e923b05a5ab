/**
 * The string operations of Python and JavaScript that the modelled code relies on,
 * with their exact edge cases (an empty input, a missing separator, a short slice).
 */
module Strings {

  predicate StartsWith(s: string, prefix: string)
  {
    |prefix| <= |s| && s[..|prefix|] == prefix
  }

  predicate EndsWith(s: string, suffix: string)
  {
    |suffix| <= |s| && s[|s| - |suffix|..] == suffix
  }

  /** Python `s[:n]` and JavaScript `s.substring(0, n)` for `n >= 0`: at most the first `n` characters. */
  function Take(s: string, n: nat): string
  {
    if n <= |s| then s[..n] else s
  }

  /**
   * `s.split(c)` for a one-character separator, in Python and in JavaScript alike:
   * the pieces between separators, with an empty piece before a leading, after a
   * trailing and between two adjacent separators; the empty string gives `[""]`.
   */
  function Split(s: string, c: char): (parts: seq<string>)
    ensures |parts| >= 1
  {
    if |s| == 0 then [""]
    else
      var rest := Split(s[1..], c);
      if s[0] == c then [""] + rest
      else [[s[0]] + rest[0]] + rest[1..]
  }

  /** A string without the separator is one piece. */
  lemma {:induction false} SplitNone(a: string, c: char)
    requires c !in a
    ensures Split(a, c) == [a]
  {
    if |a| > 0 {
      SplitNone(a[1..], c);
      assert [a[0]] + a[1..] == a;
    }
  }

  /** Splitting at the first separator: the piece before it, then the pieces of the rest. */
  lemma {:induction false} SplitFirst(a: string, c: char, b: string)
    requires c !in a
    ensures Split(a + [c] + b, c) == [a] + Split(b, c)
  {
    if |a| == 0 {
      assert a + [c] + b == [c] + b;
      assert ([c] + b)[1..] == b;
    } else {
      assert (a + [c] + b)[1..] == a[1..] + [c] + b;
      SplitFirst(a[1..], c, b);
      assert [a[0]] + a[1..] == a;
    }
  }

  /** Splitting at the last separator: the pieces of the text before it, then the piece after it. */
  lemma {:induction false} SplitLast(a: string, c: char, b: string)
    requires c !in b
    ensures Split(a + [c] + b, c) == Split(a, c) + [b]
  {
    if |a| == 0 {
      assert a + [c] + b == [c] + b;
      assert ([c] + b)[1..] == b;
      SplitNone(b, c);
    } else {
      assert (a + [c] + b)[1..] == a[1..] + [c] + b;
      SplitLast(a[1..], c, b);
    }
  }

  /** Three pieces joined by the separator split back into those three. */
  lemma {:induction false} SplitThree(a: string, b: string, d: string, c: char)
    requires c !in a && c !in b && c !in d
    ensures Split(a + [c] + b + [c] + d, c) == [a, b, d]
  {
    SplitNone(d, c);
    SplitFirst(b, c, d);
    SplitFirst(a, c, b + [c] + d);
    assert a + [c] + b + [c] + d == a + [c] + (b + [c] + d);
  }

  /** Splitting loses nothing: two strings with the same pieces are the same string. */
  lemma {:induction false} SplitInjective(a: string, b: string, c: char)
    requires Split(a, c) == Split(b, c)
    ensures a == b
  {
    if |a| > 0 && |b| > 0 {
      var ra, rb := Split(a[1..], c), Split(b[1..], c);
      if a[0] == c {
        assert ra == Split(a, c)[1..];
        SplitInjective(a[1..], b[1..], c);
        assert a == [a[0]] + a[1..] && b == [b[0]] + b[1..];
      } else {
        var x, y := [a[0]] + ra[0], [b[0]] + rb[0];
        assert Split(a, c) == [x] + ra[1..];
        assert |Split(b, c)[0]| > 0;
        assert b[0] != c;
        assert Split(b, c) == [y] + rb[1..];
        assert x == Split(a, c)[0] == Split(b, c)[0] == y;
        assert a[0] == x[0] == y[0] == b[0];
        assert ra[0] == x[1..] == y[1..] == rb[0];
        assert ra[1..] == Split(a, c)[1..] == Split(b, c)[1..] == rb[1..];
        assert ra == [ra[0]] + ra[1..];
        assert rb == [rb[0]] + rb[1..];
        SplitInjective(a[1..], b[1..], c);
        assert a == [a[0]] + a[1..] && b == [b[0]] + b[1..];
      }
    } else if |a| > 0 {
      SplitEmptyOnly(a, c);
    } else if |b| > 0 {
      SplitEmptyOnly(b, c);
    }
  }

  /** Only the empty string splits into the single empty piece. */
  lemma SplitEmptyOnly(a: string, c: char)
    requires |a| > 0
    ensures Split(a, c) != [""]
  {
    var r := Split(a[1..], c);
    if a[0] == c {
      assert |Split(a, c)| == 1 + |r| >= 2;
    } else {
      assert |Split(a, c)[0]| > 0;
    }
  }

  /** JavaScript `s.split(c, limit)`: the first `limit` pieces of the full split. */
  function SplitLimit(s: string, c: char, limit: nat): seq<string>
  {
    var parts := Split(s, c);
    if limit <= |parts| then parts[..limit] else parts
  }

  /**
   * Python `s.split(c, 1)`: the text before the first separator and everything after
   * it, or `[s]` when there is no separator.
   */
  function SplitOnce(s: string, c: char): (parts: seq<string>)
    ensures 1 <= |parts| <= 2
    ensures |parts| == 1 <==> c !in s
    ensures |parts| == 1 ==> parts[0] == s
    ensures |parts| == 2 ==> c !in parts[0] && s == parts[0] + [c] + parts[1]
  {
    if |s| == 0 then [s]
    else if s[0] == c then
      assert s == [] + [c] + s[1..];
      ["", s[1..]]
    else
      var rest := SplitOnce(s[1..], c);
      if |rest| == 1 then
        assert s == [s[0]] + s[1..];
        [s]
      else
        assert s == [s[0]] + s[1..];
        assert s == ([s[0]] + rest[0]) + [c] + rest[1];
        [[s[0]] + rest[0], rest[1]]
  }

  /** `sep.join(parts)` (Python) and `parts.join(sep)` (JavaScript). */
  function Join(parts: seq<string>, sep: string): string
  {
    if |parts| == 0 then ""
    else if |parts| == 1 then parts[0]
    else parts[0] + sep + Join(parts[1..], sep)
  }

  /** Python's `str.isspace()` for one character: the separators of `split()` and `strip()`. */
  predicate IsSpace(ch: char)
  {
    ch == ' ' || ('\t' <= ch <= '\r') || ('\U{1C}' <= ch <= '\U{1F}') || ch == '\U{85}' || ch == '\U{A0}'
    || ch == '\U{1680}' || ('\U{2000}' <= ch <= '\U{200A}') || ch == '\U{2028}' || ch == '\U{2029}'
    || ch == '\U{202F}' || ch == '\U{205F}' || ch == '\U{3000}'
  }

  /** Python `s.split()`: the maximal runs of non-whitespace characters, in order. */
  function Words(s: string): (words: seq<string>)
    ensures forall i :: 0 <= i < |words| ==> |words[i]| > 0
    ensures forall i, j :: 0 <= i < |words| && 0 <= j < |words[i]| ==> !IsSpace(words[i][j])
  {
    if |s| == 0 then []
    else
      var rest := Words(s[1..]);
      if IsSpace(s[0]) then rest
      else if |rest| > 0 && !IsSpace(s[1]) then [[s[0]] + rest[0]] + rest[1..]
      else [[s[0]]] + rest
  }

  /** A word that `split()` meets at the start of a string makes it split into at least one word. */
  lemma {:induction false} WordsStart(s: string)
    requires |s| > 0 && !IsSpace(s[0])
    ensures |Words(s)| > 0
  {
  }

  /** `split()` skips a leading whitespace character. */
  lemma WordsSkip(s: string)
    requires |s| > 0 && IsSpace(s[0])
    ensures Words(s) == Words(s[1..])
  {
  }

  /** A non-whitespace character followed by whitespace or by nothing is a word of its own. */
  lemma WordsSingle(s: string)
    requires |s| > 0 && !IsSpace(s[0]) && (|s| == 1 || IsSpace(s[1]))
    ensures Words(s) == [[s[0]]] + Words(s[1..])
  {
  }

  /** A non-whitespace character followed by another starts the next word. */
  lemma WordsJoin(s: string)
    requires |s| > 1 && !IsSpace(s[0]) && !IsSpace(s[1])
    ensures |Words(s[1..])| > 0 && Words(s) == [[s[0]] + Words(s[1..])[0]] + Words(s[1..])[1..]
  {
    assert s[1..][0] == s[1];
    WordsStart(s[1..]);
  }

  /** A whitespace character separates: the words on each side of it, in order. */
  lemma {:induction false} WordsSplitAt(x: string, c: char, y: string)
    requires IsSpace(c)
    ensures Words(x + [c] + y) == Words(x) + Words(y)
  {
    if |x| == 0 {
      var s := x + [c] + y;
      assert s[0] == c && s[1..] == y;
      WordsSkip(s);
    } else {
      WordsSplitAt(x[1..], c, y);
      WordsSplitStep(x, c, y);
    }
  }

  /** The separator lemma for `x` from the one for `x` without its first character. */
  lemma WordsSplitStep(x: string, c: char, y: string)
    requires IsSpace(c) && |x| > 0
    requires Words(x[1..] + [c] + y) == Words(x[1..]) + Words(y)
    ensures Words(x + [c] + y) == Words(x) + Words(y)
  {
    if IsSpace(x[0]) {
      WordsStepSkip(x, c, y);
    } else if |x| == 1 || IsSpace(x[1]) {
      WordsStepSingle(x, c, y);
    } else {
      WordsStepJoin(x, c, y);
    }
  }

  /** `x + [c] + y` without its first character, and its second character. */
  lemma AroundSeparator(x: string, c: char, y: string)
    requires |x| > 0
    ensures (x + [c] + y)[0] == x[0] && (x + [c] + y)[1..] == x[1..] + [c] + y
    ensures |x + [c] + y| > 1 && (x + [c] + y)[1] == if |x| > 1 then x[1] else c
  {
  }

  /** The step when `x` starts with whitespace. */
  lemma WordsStepSkip(x: string, c: char, y: string)
    requires IsSpace(c) && |x| > 0 && IsSpace(x[0])
    requires Words(x[1..] + [c] + y) == Words(x[1..]) + Words(y)
    ensures Words(x + [c] + y) == Words(x) + Words(y)
  {
    AroundSeparator(x, c, y);
    WordsSkip(x + [c] + y);
    WordsSkip(x);
  }

  /** The step when `x` starts with a one-character word. */
  lemma WordsStepSingle(x: string, c: char, y: string)
    requires IsSpace(c) && |x| > 0 && !IsSpace(x[0]) && (|x| == 1 || IsSpace(x[1]))
    requires Words(x[1..] + [c] + y) == Words(x[1..]) + Words(y)
    ensures Words(x + [c] + y) == Words(x) + Words(y)
  {
    AroundSeparator(x, c, y);
    WordsSingle(x + [c] + y);
    WordsSingle(x);
    var u, v := Words(x[1..]), Words(y);
    assert [[x[0]]] + (u + v) == ([[x[0]]] + u) + v;
  }

  /** The step when the first character of `x` starts a longer word. */
  lemma WordsStepJoin(x: string, c: char, y: string)
    requires IsSpace(c) && |x| > 1 && !IsSpace(x[0]) && !IsSpace(x[1])
    requires Words(x[1..] + [c] + y) == Words(x[1..]) + Words(y)
    ensures Words(x + [c] + y) == Words(x) + Words(y)
  {
    AroundSeparator(x, c, y);
    WordsJoin(x + [c] + y);
    WordsJoin(x);
    ConsFirst(x[0], Words(x[1..]), Words(y));
  }

  /** Joining a character onto the first word commutes with appending more words. */
  lemma ConsFirst(a: char, u: seq<string>, v: seq<string>)
    requires |u| > 0
    ensures [[a] + (u + v)[0]] + (u + v)[1..] == ([[a] + u[0]] + u[1..]) + v
  {
    assert (u + v)[0] == u[0];
    assert (u + v)[1..] == u[1..] + v;
  }

  /** A non-empty run without whitespace is one word. */
  lemma {:induction false} WordsOfWord(w: string)
    requires |w| > 0 && forall i :: 0 <= i < |w| ==> !IsSpace(w[i])
    ensures Words(w) == [w]
  {
    if |w| > 1 {
      WordsOfWord(w[1..]);
      assert [w[0]] + w[1..] == w;
    } else {
      assert w == [w[0]];
    }
  }

  /** A string of whitespace only has no words. */
  lemma {:induction false} WordsOfSpace(s: string)
    requires forall i :: 0 <= i < |s| ==> IsSpace(s[i])
    ensures Words(s) == []
  {
    if |s| > 0 {
      WordsOfSpace(s[1..]);
    }
  }

  /** Python `s.strip()`: `s` without leading and trailing whitespace. */
  function Strip(s: string): (r: string)
    ensures |r| == 0 || (!IsSpace(r[0]) && !IsSpace(r[|r| - 1]))
    ensures exists i :: StrippedAt(s, r, i)
  {
    var t := StripStart(s);
    var r := StripEnd(t);
    assert StrippedAt(s, r, |s| - |t|);
    r
  }

  /** `r` is `s[i..]` up to some end, and everything of `s` around it is whitespace. */
  predicate StrippedAt(s: string, r: string, i: int)
  {
    0 <= i && i + |r| <= |s| && r == s[i..i + |r|]
    && (forall k :: 0 <= k < i ==> IsSpace(s[k]))
    && (forall k :: i + |r| <= k < |s| ==> IsSpace(s[k]))
  }

  function StripStart(s: string): (r: string)
    ensures |r| <= |s| && r == s[|s| - |r|..]
    ensures forall k :: 0 <= k < |s| - |r| ==> IsSpace(s[k])
    ensures |r| == 0 || !IsSpace(r[0])
  {
    if |s| > 0 && IsSpace(s[0]) then StripStart(s[1..]) else s
  }

  function StripEnd(s: string): (r: string)
    ensures |r| <= |s| && r == s[..|r|]
    ensures forall k :: |r| <= k < |s| ==> IsSpace(s[k])
    ensures |r| == 0 || !IsSpace(r[|r| - 1])
  {
    if |s| > 0 && IsSpace(s[|s| - 1]) then StripEnd(s[..|s| - 1]) else s
  }

  /** Python `s.replace(pat, rep)` for a non-empty pattern `pat`: every occurrence, scanning left to right. */
  function ReplaceAll(s: string, pat: string, rep: string): string
    requires |pat| > 0
  {
    if |s| == 0 then ""
    else if StartsWith(s, pat) then rep + ReplaceAll(s[|pat|..], pat, rep)
    else [s[0]] + ReplaceAll(s[1..], pat, rep)
  }

  /** Whether `pat` occurs in `s` (Python `pat in s`). */
  predicate Contains(s: string, pat: string)
  {
    StartsWith(s, pat) || (|s| > 0 && Contains(s[1..], pat))
  }

  /** A string without an occurrence of the pattern is left as it is. */
  lemma {:induction false} ReplaceAbsent(s: string, pat: string, rep: string)
    requires |pat| > 0 && !Contains(s, pat)
    ensures ReplaceAll(s, pat, rep) == s
  {
    if |s| > 0 {
      ReplaceAbsent(s[1..], pat, rep);
      assert [s[0]] + s[1..] == s;
    }
  }

  /** Python `str(n)` for a natural number: its decimal digits. */
  function NatToString(n: nat): (s: string)
    ensures |s| > 0
    ensures forall i :: 0 <= i < |s| ==> '0' <= s[i] <= '9'
  {
    if n < 10 then [Digit(n)] else NatToString(n / 10) + [Digit(n % 10)]
  }

  function Digit(d: nat): (ch: char)
    requires d < 10
    ensures '0' <= ch <= '9'
  {
    ['0', '1', '2', '3', '4', '5', '6', '7', '8', '9'][d]
  }

  /** The number a string of decimal digits denotes. */
  function DigitsValue(s: string): nat
    requires forall i :: 0 <= i < |s| ==> '0' <= s[i] <= '9'
  {
    if |s| == 0 then 0 else DigitsValue(s[..|s| - 1]) * 10 + (s[|s| - 1] as int - '0' as int)
  }

  /** Reading back the digits of `str(n)` gives `n`. */
  lemma {:induction false} NatToStringValue(n: nat)
    ensures DigitsValue(NatToString(n)) == n
  {
    var s := NatToString(n);
    if n >= 10 {
      NatToStringValue(n / 10);
      assert s[..|s| - 1] == NatToString(n / 10);
    }
  }

  /** Distinct numbers print differently. */
  lemma NatToStringInjective(m: nat, n: nat)
    requires m != n
    ensures NatToString(m) != NatToString(n)
  {
    NatToStringValue(m);
    NatToStringValue(n);
  }
}
