/** String operations of the JavaScript standard library that the core relies
    on, written out: `trim`, `startsWith`, `indexOf`, `lastIndexOf`, `split`,
    `join`, `replaceAll` and decimal integer formatting. */
module Strings {

  /** The characters `String.prototype.trim` and the regular-expression class
      `\s` treat as white space (line terminators included). */
  predicate IsWhitespace(c: char) {
    c == ' ' || c == '\t' || c == '\n' || c == '\r' || c == '\U{000B}' || c == '\U{000C}'
    || c == '\U{00A0}' || c == '\U{1680}' || ('\U{2000}' <= c <= '\U{200A}')
    || c == '\U{2028}' || c == '\U{2029}' || c == '\U{202F}' || c == '\U{205F}'
    || c == '\U{3000}' || c == '\U{FEFF}'
  }

  function TrimStart(s: string): (r: string)
    ensures |r| <= |s| && r == s[|s| - |r|..]
    ensures r == [] || !IsWhitespace(r[0])
  {
    if |s| > 0 && IsWhitespace(s[0]) then TrimStart(s[1..]) else s
  }

  function TrimEnd(s: string): (r: string)
    ensures |r| <= |s| && r == s[..|r|]
    ensures r == [] || !IsWhitespace(r[|r| - 1])
  {
    if |s| > 0 && IsWhitespace(s[|s| - 1]) then TrimEnd(s[..|s| - 1]) else s
  }

  /** `s.trim()`: the result has no white space at either end. */
  function Trim(s: string): (r: string)
    ensures r == [] || (!IsWhitespace(r[0]) && !IsWhitespace(r[|r| - 1]))
    ensures |r| <= |s|
  {
    TrimEnd(TrimStart(s))
  }

  /** `TrimStart` removes white space only. */
  lemma {:induction false} TrimStartDropsWhitespace(s: string)
    ensures forall i :: 0 <= i < |s| - |TrimStart(s)| ==> IsWhitespace(s[i])
    decreases |s|
  {
    if |s| > 0 && IsWhitespace(s[0]) {
      TrimStartDropsWhitespace(s[1..]);
      forall i | 1 <= i < |s| - |TrimStart(s)| ensures IsWhitespace(s[i]) {
        assert s[i] == s[1..][i - 1];
      }
    }
  }

  /** `TrimEnd` removes white space only. */
  lemma {:induction false} TrimEndDropsWhitespace(s: string)
    ensures forall i :: |TrimEnd(s)| <= i < |s| ==> IsWhitespace(s[i])
    decreases |s|
  {
    if |s| > 0 && IsWhitespace(s[|s| - 1]) {
      TrimEndDropsWhitespace(s[..|s| - 1]);
      forall i | |TrimEnd(s)| <= i < |s| - 1 ensures IsWhitespace(s[i]) {
        assert s[i] == s[..|s| - 1][i];
      }
    }
  }

  predicate StartsWith(s: string, prefix: string) {
    |prefix| <= |s| && s[..|prefix|] == prefix
  }

  /** `s.indexOf(c)` for a one-character search string. */
  function IndexOf(s: string, c: char): (i: int)
    ensures -1 <= i < |s|
    ensures i >= 0 ==> s[i] == c && c !in s[..i]
    ensures i < 0 ==> c !in s
  {
    if |s| == 0 then -1
    else if s[0] == c then 0
    else
      var j := IndexOf(s[1..], c);
      if j < 0 then -1 else j + 1
  }

  /** `s.lastIndexOf(c, from)` for a one-character search string: the last
      position not after `from` holding `c`, where a negative `from` counts as 0. */
  function LastIndexOfFrom(s: string, c: char, from: int): (i: int)
    ensures -1 <= i < |s|
    ensures i >= 0 ==> s[i] == c && i <= (if from < 0 then 0 else from)
    ensures forall k :: i < k < |s| && k <= from ==> s[k] != c
    ensures i < 0 ==> forall k :: 0 <= k < |s| && k <= (if from < 0 then 0 else from) ==> s[k] != c
    decreases if from < 0 then 0 else from + 1
  {
    var start := if from < 0 then 0 else if from >= |s| then |s| - 1 else from;
    if start < 0 || start >= |s| then -1
    else if s[start] == c then start
    else if start == 0 then -1
    else LastIndexOfFrom(s, c, start - 1)
  }

  /** `s.split(sep)` for a one-character separator. */
  function Split(s: string, sep: char): (parts: seq<string>)
    ensures |parts| >= 1
    ensures forall k :: 0 <= k < |parts| ==> sep !in parts[k]
    decreases |s|
  {
    var i := IndexOf(s, sep);
    if i < 0 then [s]
    else
      var rest := Split(s[i + 1..], sep);
      ConsWithout(s[..i], rest, sep);
      [s[..i]] + rest
  }

  lemma ConsWithout(head: string, rest: seq<string>, sep: char)
    requires sep !in head && forall k :: 0 <= k < |rest| ==> sep !in rest[k]
    ensures forall k :: 0 <= k < |[head] + rest| ==> sep !in ([head] + rest)[k]
  {
    forall k | 1 <= k < |[head] + rest|
      ensures ([head] + rest)[k] == rest[k - 1]
    {
    }
  }

  /** `parts.join(sep)`. */
  function Join(parts: seq<string>, sep: string): string
  {
    if |parts| == 0 then ""
    else if |parts| == 1 then parts[0]
    else parts[0] + sep + Join(parts[1..], sep)
  }

  /** Splitting at a character and joining with it gives the string back. */
  lemma {:induction false} SplitJoin(s: string, sep: char)
    ensures Join(Split(s, sep), [sep]) == s
    decreases |s|
  {
    var i := IndexOf(s, sep);
    if i >= 0 {
      var rest := s[i + 1..];
      SplitJoin(rest, sep);
      JoinCons(s[..i], Split(rest, sep), [sep]);
      SplitAround(s, i);
    }
  }

  /** A string is its part before `i`, the character at `i` and the rest. */
  lemma SplitAround(s: string, i: nat)
    requires i < |s|
    ensures s == s[..i] + [s[i]] + s[i + 1..]
  {
    assert s[..i] + [s[i]] == s[..i + 1];
  }

  lemma JoinCons(head: string, tail: seq<string>, sep: string)
    requires |tail| >= 1
    ensures Join([head] + tail, sep) == head + sep + Join(tail, sep)
  {
    assert ([head] + tail)[1..] == tail;
  }

  predicate IsDigit(c: char) { '0' <= c <= '9' }

  predicate AllDigits(s: string) { forall i :: 0 <= i < |s| ==> IsDigit(s[i]) }

  function DigitOf(c: char): (d: nat)
    requires IsDigit(c)
    ensures d < 10
  {
    (c as int) - ('0' as int)
  }

  function DigitChar(d: nat): (c: char)
    requires d < 10
    ensures IsDigit(c) && DigitOf(c) == d
  {
    "0123456789"[d]
  }

  /** `Number.parseInt` of a string of decimal digits. */
  function DigitsValue(s: string): nat
    requires AllDigits(s)
  {
    if |s| == 0 then 0 else DigitsValue(s[..|s| - 1]) * 10 + DigitOf(s[|s| - 1])
  }

  /** Decimal notation of a natural number, as `String(n)` writes it. */
  function NatToString(n: nat): (s: string)
    ensures |s| >= 1 && AllDigits(s)
  {
    if n < 10 then [DigitChar(n)] else NatToString(n / 10) + [DigitChar(n % 10)]
  }

  /** Decimal notation of an integer, with a leading `-` when negative. */
  function IntToString(i: int): (s: string)
    ensures |s| >= 1
    ensures (i < 0) == (s[0] == '-')
  {
    if i < 0 then "-" + NatToString(-i) else NatToString(i)
  }

  /** Reading back the decimal notation of `n` gives `n`. */
  lemma {:induction false} NatToStringRoundTrip(n: nat)
    ensures DigitsValue(NatToString(n)) == n
  {
    if n >= 10 {
      NatToStringRoundTrip(n / 10);
      var s := NatToString(n);
      assert s[..|s| - 1] == NatToString(n / 10);
    }
  }

  /** Different numbers have different decimal notations. */
  lemma NatToStringInjective(a: nat, b: nat)
    requires NatToString(a) == NatToString(b)
    ensures a == b
  {
    NatToStringRoundTrip(a);
    NatToStringRoundTrip(b);
  }

  /** A common prefix cancels. */
  lemma PrefixCancel(p: string, a: string, b: string)
    requires p + a == p + b
    ensures a == b
  {
    assert a == (p + a)[|p|..];
    assert b == (p + b)[|p|..];
  }

  /** Decimal notation of integers is injective. */
  lemma IntToStringInjective(a: int, b: int)
    requires IntToString(a) == IntToString(b)
    ensures a == b
  {
    if a < 0 && b < 0 {
      PrefixCancel("-", NatToString(-a), NatToString(-b));
      NatToStringInjective(-a, -b);
    } else if a >= 0 && b >= 0 {
      NatToStringInjective(a, b);
    }
  }

  /** The text that replaces one match of a string pattern, with
      JavaScript's replacement patterns expanded: `$$` is `$`, `$&` the
      match, `` $` `` the text before the match and `$'` the text after it.
      Every other `$` (`$1`, `$<` included, as a string pattern has no
      groups) stays as written. */
  function Expand(replacement: string, matched: string, before: string, after: string): string
    decreases |replacement|
  {
    if |replacement| == 0 then ""
    else if replacement[0] == '$' && |replacement| >= 2 && replacement[1] in "$&`'" then
      var part :=
        if replacement[1] == '$' then "$"
        else if replacement[1] == '&' then matched
        else if replacement[1] == '`' then before
        else after;
      part + Expand(replacement[2..], matched, before, after)
    else [replacement[0]] + Expand(replacement[1..], matched, before, after)
  }

  /** `s.replaceAll(pattern, replacement)` for a string pattern: occurrences
      are found left to right and do not overlap, and each is replaced by the
      expanded replacement. */
  function ReplaceAll(s: string, pattern: string, replacement: string): string
    requires |pattern| > 0
  {
    ReplaceFrom(s, pattern, replacement, 0)
  }

  /** The scan of `ReplaceAll` from position `i` of `s`. */
  function ReplaceFrom(s: string, pattern: string, replacement: string, i: nat): string
    requires |pattern| > 0 && i <= |s|
    decreases |s| - i
  {
    if |s| - i < |pattern| then s[i..]
    else if s[i..i + |pattern|] == pattern then
      Expand(replacement, pattern, s[..i], s[i + |pattern|..]) + ReplaceFrom(s, pattern, replacement, i + |pattern|)
    else [s[i]] + ReplaceFrom(s, pattern, replacement, i + 1)
  }

  /** True when `pattern` occurs in `s` at position `i`. */
  predicate OccursAt(s: string, pattern: string, i: int) {
    0 <= i <= |s| - |pattern| && s[i..i + |pattern|] == pattern
  }

  /** True when `pattern` occurs in `s`. */
  predicate Contains(s: string, pattern: string) {
    exists i :: 0 <= i <= |s| && OccursAt(s, pattern, i)
  }

  /** The pieces of `s` between the occurrences of `pattern` that
      `ReplaceAll` finds: `s.split(pattern)`. */
  function SplitOn(s: string, pattern: string): (pieces: seq<string>)
    requires |pattern| > 0
    ensures |pieces| >= 1
    ensures StartsWith(s, pieces[0])
    decreases |s|
  {
    if |s| < |pattern| then [s]
    else if s[..|pattern|] == pattern then [""] + SplitOn(s[|pattern|..], pattern)
    else
      var rest := SplitOn(s[1..], pattern);
      [[s[0]] + rest[0]] + rest[1..]
  }

  lemma JoinConsHead(x: char, pieces: seq<string>, sep: string)
    requires |pieces| >= 1
    ensures Join([[x] + pieces[0]] + pieces[1..], sep) == [x] + Join(pieces, sep)
  {
  }

  /** The pieces of a text joined back, the occurrence of `pattern` after
      each piece but the last replaced by the expanded replacement; `pre` is
      the text before `pieces[0]`. */
  function ExpandedJoin(pieces: seq<string>, pattern: string, replacement: string, pre: string): string
    requires |pieces| >= 1
    decreases |pieces|
  {
    if |pieces| == 1 then pieces[0]
    else
      var before := pre + pieces[0];
      pieces[0] + Expand(replacement, pattern, before, Join(pieces[1..], pattern))
        + ExpandedJoin(pieces[1..], pattern, replacement, before + pattern)
  }

  /** A replacement without `$` is inserted as written. */
  lemma {:induction false} ExpandLiteral(replacement: string, matched: string, before: string, after: string)
    requires '$' !in replacement
    ensures Expand(replacement, matched, before, after) == replacement
    decreases |replacement|
  {
    if |replacement| > 0 {
      ExpandLiteral(replacement[1..], matched, before, after);
      assert replacement == [replacement[0]] + replacement[1..];
    }
  }

  lemma {:induction false} ExpandedJoinLiteral(pieces: seq<string>, pattern: string, replacement: string, pre: string)
    requires |pieces| >= 1 && '$' !in replacement
    ensures ExpandedJoin(pieces, pattern, replacement, pre) == Join(pieces, replacement)
    decreases |pieces|
  {
    if |pieces| > 1 {
      ExpandLiteral(replacement, pattern, pre + pieces[0], Join(pieces[1..], pattern));
      ExpandedJoinLiteral(pieces[1..], pattern, replacement, pre + pieces[0] + pattern);
    }
  }

  lemma {:induction false} ExpandedJoinMatch(pieces: seq<string>, pattern: string, pre: string)
    requires |pieces| >= 1
    ensures ExpandedJoin(pieces, pattern, "$&", pre) == Join(pieces, pattern)
    decreases |pieces|
  {
    if |pieces| > 1 {
      var before := pre + pieces[0];
      var after := Join(pieces[1..], pattern);
      assert "$&"[2..] == "";
      assert Expand("$&", pattern, before, after) == pattern + Expand("", pattern, before, after);
      ExpandedJoinMatch(pieces[1..], pattern, before + pattern);
    }
  }

  lemma ExpandedJoinConsHead(x: char, pieces: seq<string>, pattern: string, replacement: string, pre: string)
    requires |pieces| >= 1
    ensures ExpandedJoin([[x] + pieces[0]] + pieces[1..], pattern, replacement, pre)
            == [x] + ExpandedJoin(pieces, pattern, replacement, pre + [x])
  {
    var q := [[x] + pieces[0]] + pieces[1..];
    assert q[1..] == pieces[1..];
    assert pre + q[0] == pre + [x] + pieces[0];
  }

  lemma {:induction false} ReplaceFromIsSplitJoin(s: string, pattern: string, replacement: string, i: nat)
    requires |pattern| > 0 && i <= |s|
    ensures ReplaceFrom(s, pattern, replacement, i)
            == ExpandedJoin(SplitOn(s[i..], pattern), pattern, replacement, s[..i])
    decreases |s| - i
  {
    var t := s[i..];
    if |s| - i < |pattern| {
    } else if s[i..i + |pattern|] == pattern {
      assert t[..|pattern|] == s[i..i + |pattern|];
      assert t[|pattern|..] == s[i + |pattern|..];
      var rest := SplitOn(s[i + |pattern|..], pattern);
      assert SplitOn(t, pattern) == [""] + rest;
      assert ([""] + rest)[1..] == rest;
      SplitOnJoin(s[i + |pattern|..], pattern);
      ReplaceFromIsSplitJoin(s, pattern, replacement, i + |pattern|);
      assert s[..i] + "" == s[..i];
      assert s[..i] + pattern == s[..i + |pattern|];
    } else {
      assert t[..|pattern|] == s[i..i + |pattern|];
      assert t[1..] == s[i + 1..];
      assert t[0] == s[i];
      var rest := SplitOn(s[i + 1..], pattern);
      assert SplitOn(t, pattern) == [[s[i]] + rest[0]] + rest[1..];
      ReplaceFromIsSplitJoin(s, pattern, replacement, i + 1);
      ExpandedJoinConsHead(s[i], rest, pattern, replacement, s[..i]);
      assert s[..i] + [s[i]] == s[..i + 1];
    }
  }

  /** `replaceAll` is `split` followed by a join whose separators are the
      expanded replacement; a replacement without `$` is a plain `join`. */
  lemma ReplaceAllIsSplitJoin(s: string, pattern: string, replacement: string)
    requires |pattern| > 0
    ensures ReplaceAll(s, pattern, replacement) == ExpandedJoin(SplitOn(s, pattern), pattern, replacement, "")
    ensures '$' !in replacement ==> ReplaceAll(s, pattern, replacement) == Join(SplitOn(s, pattern), replacement)
  {
    ReplaceFromIsSplitJoin(s, pattern, replacement, 0);
    assert s[0..] == s && s[..0] == "";
    if '$' !in replacement {
      ExpandedJoinLiteral(SplitOn(s, pattern), pattern, replacement, "");
    }
  }

  /** The replacement `$&` puts every match back: the text is unchanged. */
  lemma ReplaceAllMatchKeeps(s: string, pattern: string)
    requires |pattern| > 0
    ensures ReplaceAll(s, pattern, "$&") == s
  {
    ReplaceAllIsSplitJoin(s, pattern, "$&");
    ExpandedJoinMatch(SplitOn(s, pattern), pattern, "");
    SplitOnJoin(s, pattern);
  }

  /** Text without the pattern's first character is left alone. */
  lemma {:induction false} ReplaceFromAbsent(s: string, pattern: string, replacement: string, i: nat)
    requires |pattern| > 0 && i <= |s| && pattern[0] !in s
    ensures ReplaceFrom(s, pattern, replacement, i) == s[i..]
    decreases |s| - i
  {
    if |s| - i >= |pattern| {
      assert s[i..i + |pattern|][0] == s[i];
      ReplaceFromAbsent(s, pattern, replacement, i + 1);
      assert s[i..] == [s[i]] + s[i + 1..];
    }
  }

  /** The pieces joined back with the pattern give `s`: nothing but the
      occurrences is replaced. */
  lemma {:induction false} SplitOnJoin(s: string, pattern: string)
    requires |pattern| > 0
    ensures Join(SplitOn(s, pattern), pattern) == s
    decreases |s|
  {
    if |s| < |pattern| {
    } else if s[..|pattern|] == pattern {
      var rest := SplitOn(s[|pattern|..], pattern);
      SplitOnJoin(s[|pattern|..], pattern);
      assert SplitOn(s, pattern) == [""] + rest;
      assert ([""] + rest)[1..] == rest;
      assert Join([""] + rest, pattern) == "" + pattern + Join(rest, pattern);
      assert s == pattern + s[|pattern|..];
    } else {
      SplitOnJoin(s[1..], pattern);
      JoinConsHead(s[0], SplitOn(s[1..], pattern), pattern);
      assert s == [s[0]] + s[1..];
    }
  }

  /** No piece contains the pattern: every occurrence was replaced. */
  lemma {:induction false} SplitOnPiecesFree(s: string, pattern: string)
    requires |pattern| > 0
    ensures forall k :: 0 <= k < |SplitOn(s, pattern)| ==> !Contains(SplitOn(s, pattern)[k], pattern)
    decreases |s|
  {
    var pieces := SplitOn(s, pattern);
    if |s| < |pattern| {
    } else if s[..|pattern|] == pattern {
      SplitOnPiecesFree(s[|pattern|..], pattern);
      assert pieces[1..] == SplitOn(s[|pattern|..], pattern);
      forall k | 0 <= k < |pieces| ensures !Contains(pieces[k], pattern) {
        if k > 0 { assert pieces[k] == SplitOn(s[|pattern|..], pattern)[k - 1]; }
      }
    } else {
      var rest := SplitOn(s[1..], pattern);
      SplitOnPiecesFree(s[1..], pattern);
      var head := [s[0]] + rest[0];
      assert StartsWith(s[1..], rest[0]);
      forall k | 0 <= k < |pieces| ensures !Contains(pieces[k], pattern) {
        if k > 0 {
          assert pieces[k] == rest[k];
        } else {
          assert pieces[0] == head;
          forall i | 0 <= i <= |head| ensures !OccursAt(head, pattern, i) {
            if i == 0 && |pattern| <= |head| {
              assert head[..|pattern|] == s[..|pattern|];
            } else if i <= |head| - |pattern| {
              assert rest[0][i - 1..i - 1 + |pattern|] == head[i..i + |pattern|];
              assert !OccursAt(rest[0], pattern, i - 1);
            }
          }
        }
      }
    }
  }
}
