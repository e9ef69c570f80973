/** The url helpers of `src/utils/url.ts`: placeholder substitution in ad tag
    urls, and the longest common directory prefix of a list of urls. */
module Urls {
  import opened Wrappers
  import opened Values
  import opened Strings

  /** A url parameter: a string or a number. */
  datatype ParamValue = PStr(s: string) | PNum(n: Num)

  /** The parameter record; a key may be present with an undefined value. */
  type Params = seq<(string, Option<ParamValue>)>

  /** `value.toString()`; `numToString` is JavaScript's number formatting. */
  function ValueText(v: ParamValue, numToString: Num -> string): string {
    match v
    case PStr(s) => s
    case PNum(n) => numToString(n)
  }

  /** The placeholder `{key}`. */
  function Placeholder(key: string): (p: string)
    ensures |p| == |key| + 2 && p[0] == '{'
  {
    "{" + key + "}"
  }

  /** `Math.floor(Math.random() * 10_000)` for the draw `Math.random()`
      returned. */
  function RandomValue(draw: real): (k: int)
    requires 0.0 <= draw < 1.0
    ensures 0 <= k <= 9999
  {
    (draw * 10000.0).Floor
  }

  /** `{...params, random}`: the caller's parameters with `random` set last,
      overriding a caller-supplied `random` in place. */
  function AllParams(params: Option<Params>, draw: real): Params
    requires 0.0 <= draw < 1.0
  {
    Put(params.GetOr([]), "random", Some(PNum(Fin(RandomValue(draw) as real))))
  }

  /** The url after substituting every defined entry in order. */
  function Substituted(url: string, entries: Params, numToString: Num -> string): string
  {
    if |entries| == 0 then url
    else
      var (key, value) := entries[|entries| - 1];
      var before := Substituted(url, entries[..|entries| - 1], numToString);
      if value.None? then before else ReplaceAll(before, Placeholder(key), ValueText(value.value, numToString))
  }

  /** `replaceUrlParams(inputUrl, params)`, with `draw` the value of
      `Math.random()`. */
  method ReplaceUrlParams(inputUrl: string, params: Option<Params>, draw: real, numToString: Num -> string)
    returns (url: string)
    requires 0.0 <= draw < 1.0
    ensures url == Substituted(inputUrl, AllParams(params, draw), numToString)
  {
    url := inputUrl;
    var entries := AllParams(params, draw);
    for i := 0 to |entries|
      invariant url == Substituted(inputUrl, entries[..i], numToString)
    {
      assert entries[..i + 1][..i] == entries[..i];
      var (key, value) := entries[i];
      if value.None? {
        continue;
      }
      url := ReplaceAll(url, Placeholder(key), ValueText(value.value, numToString));
    }
    assert entries[..|entries|] == entries;
  }

  /** `random` is always defined as a whole number in [0, 9999], whatever the
      caller passed; every other key reads as the caller's. */
  lemma RandomAlwaysSet(params: Option<Params>, draw: real, key: string)
    requires 0.0 <= draw < 1.0
    ensures Get(AllParams(params, draw), "random") == Some(Some(PNum(Fin(RandomValue(draw) as real))))
    ensures 0 <= RandomValue(draw) <= 9999
    ensures key != "random" ==> Get(AllParams(params, draw), key) == Get(params.GetOr([]), key)
  {
    PutGet(params.GetOr([]), "random", Some(PNum(Fin(RandomValue(draw) as real))), "random");
    PutGet(params.GetOr([]), "random", Some(PNum(Fin(RandomValue(draw) as real))), key);
  }

  /** One defined entry replaces every occurrence of its placeholder: the url
      is cut at the occurrences, none of the pieces holds the placeholder, and
      the pieces are joined with the value, its replacement patterns expanded
      at each occurrence; a value without `$` joins them as written. */
  lemma SubstituteStep(url: string, entries: Params, key: string, v: ParamValue, numToString: Num -> string)
    ensures var before := Substituted(url, entries, numToString);
            var pieces := SplitOn(before, Placeholder(key));
            var value := ValueText(v, numToString);
            var after := Substituted(url, entries + [(key, Some(v))], numToString);
            after == ExpandedJoin(pieces, Placeholder(key), value, "")
            && ('$' !in value ==> after == Join(pieces, value))
            && Join(pieces, Placeholder(key)) == before
            && forall k :: 0 <= k < |pieces| ==> !Contains(pieces[k], Placeholder(key))
  {
    var e := entries + [(key, Some(v))];
    assert e[..|e| - 1] == entries;
    var before := Substituted(url, entries, numToString);
    ReplaceAllIsSplitJoin(before, Placeholder(key), ValueText(v, numToString));
    SplitOnJoin(before, Placeholder(key));
    SplitOnPiecesFree(before, Placeholder(key));
  }

  /** A value of `$&` writes back each occurrence it matches, so its
      placeholder stays in the url. */
  lemma SubstituteMatchKeeps(url: string, entries: Params, key: string)
    ensures forall numToString: Num -> string ::
      Substituted(url, entries + [(key, Some(PStr("$&")))], numToString) == Substituted(url, entries, numToString)
  {
    var e := entries + [(key, Some(PStr("$&")))];
    assert e[..|e| - 1] == entries;
    forall numToString: Num -> string
      ensures Substituted(url, e, numToString) == Substituted(url, entries, numToString)
    {
      ReplaceAllMatchKeeps(Substituted(url, entries, numToString), Placeholder(key));
    }
  }

  /** `replaceUrlParams("x={a}", {a: "$$"})` without its `random` entry:
      `$$` is written as a single `$`. */
  lemma DollarPairExample(numToString: Num -> string)
    ensures Substituted("x={a}", [("a", Some(PStr("$$")))], numToString) == "x=$"
  {
    var s := "x={a}";
    var e: Params := [("a", Some(PStr("$$")))];
    assert e[..0] == [];
    assert Placeholder("a") == "{a}";
    assert s[0..3] != "{a}" && s[1..4] != "{a}" && s[2..5] == "{a}";
    assert Expand("$$", "{a}", s[..2], s[5..]) == "$" + Expand("", "{a}", s[..2], s[5..]);
    assert ReplaceFrom(s, "{a}", "$$", 2) == "$";
    assert ReplaceFrom(s, "{a}", "$$", 1) == "=$";
  }

  /** An undefined entry is skipped. */
  lemma SubstituteSkipsUndefined(url: string, entries: Params, key: string, numToString: Num -> string)
    ensures Substituted(url, entries + [(key, None)], numToString) == Substituted(url, entries, numToString)
  {
    var e := entries + [(key, None)];
    assert e[..|e| - 1] == entries;
  }

  /** Text without the pattern's first character is left alone. */
  lemma ReplaceAllAbsent(s: string, pattern: string, replacement: string)
    requires |pattern| > 0 && pattern[0] !in s
    ensures ReplaceAll(s, pattern, replacement) == s
  {
    ReplaceFromAbsent(s, pattern, replacement, 0);
    assert s[0..] == s;
  }

  /** A url without placeholders passes through unchanged, whatever the
      parameters. */
  lemma {:induction false} NoPlaceholderUnchanged(url: string, entries: Params, numToString: Num -> string)
    requires '{' !in url
    ensures Substituted(url, entries, numToString) == url
  {
    if |entries| > 0 {
      var (key, value) := entries[|entries| - 1];
      NoPlaceholderUnchanged(url, entries[..|entries| - 1], numToString);
      if value.Some? {
        ReplaceAllAbsent(url, Placeholder(key), ValueText(value.value, numToString));
      }
    }
  }

  /** The length of the longest common prefix of `a` and `b`. */
  function CommonLen(a: string, b: string): (i: nat)
    ensures i <= |a| && i <= |b| && a[..i] == b[..i]
    ensures i == |a| || i == |b| || a[i] != b[i]
  {
    if |a| == 0 || |b| == 0 || a[0] != b[0] then 0
    else
      var j := CommonLen(a[1..], b[1..]);
      assert a[..j + 1] == [a[0]] + a[1..][..j];
      assert b[..j + 1] == [b[0]] + b[1..][..j];
      j + 1
  }

  /** The longest common prefix is the only one that cannot be extended. */
  lemma CommonLenUnique(a: string, b: string, i: nat)
    requires i <= |a| && i <= |b| && a[..i] == b[..i]
    requires i == |a| || i == |b| || a[i] != b[i]
    ensures i == CommonLen(a, b)
  {
    var j := CommonLen(a, b);
    if i < j {
      assert false;
    } else if j < i {
      assert false;
    }
  }

  /** One step of the reducer as written: `prefix.lastIndexOf("/", i - 1)`,
      where a negative start position counts as 0. */
  function StepAsWritten(prefix: string, url: string): string {
    if prefix == "" || url == "" then ""
    else
      var i := CommonLen(prefix, url);
      var lastSlash := LastIndexOfFrom(prefix, '/', i - 1);
      if lastSlash >= 0 then prefix[..lastSlash + 1] else ""
  }

  /** One step with no common character handled: no shared directory. */
  function Step(prefix: string, url: string): string {
    if prefix == "" || url == "" then ""
    else
      var i := CommonLen(prefix, url);
      var lastSlash := if i == 0 then -1 else LastIndexOfFrom(prefix, '/', i - 1);
      if lastSlash >= 0 then prefix[..lastSlash + 1] else ""
  }

  /** `urls.reduce(step, urls[0])`, over a prefix of the list. */
  function FoldAsWritten(urls: seq<string>, n: nat): string
    requires 0 < |urls| && n <= |urls|
  {
    if n == 0 then urls[0] else StepAsWritten(FoldAsWritten(urls, n - 1), urls[n - 1])
  }

  function Fold(urls: seq<string>, n: nat): string
    requires 0 < |urls| && n <= |urls|
  {
    if n == 0 then urls[0] else Step(Fold(urls, n - 1), urls[n - 1])
  }

  /** `getUrlCommonPrefix(urls)` as written. */
  function CommonPrefixAsWritten(urls: seq<string>): string {
    if |urls| == 0 then "" else FoldAsWritten(urls, |urls|)
  }

  /** `getUrlCommonPrefix(urls)` with the step that shares nothing when the
      urls differ from their first character. */
  function CommonPrefix(urls: seq<string>): string {
    if |urls| == 0 then "" else Fold(urls, |urls|)
  }

  lemma StepUnfolds(prefix: string, url: string, lastSlash: int)
    requires prefix != "" && url != ""
    requires lastSlash == (if CommonLen(prefix, url) == 0 then -1 else LastIndexOfFrom(prefix, '/', CommonLen(prefix, url) - 1))
    ensures Step(prefix, url) == if lastSlash >= 0 then prefix[..lastSlash + 1] else ""
  {
  }

  /** The reducer of `getUrlCommonPrefix`, with its counting loop; it shares
      nothing when the urls differ from their first character. */
  method Reduce(prefix: string, url: string) returns (next: string)
    ensures next == Step(prefix, url)
  {
    if prefix == "" || url == "" {
      return "";
    }
    var i := 0;
    var minLength := if |prefix| < |url| then |prefix| else |url|;
    while i < minLength && prefix[i] == url[i]
      invariant i <= minLength
      invariant prefix[..i] == url[..i]
    {
      assert prefix[..i + 1] == prefix[..i] + [prefix[i]];
      assert url[..i + 1] == url[..i] + [url[i]];
      i := i + 1;
    }
    CommonLenUnique(prefix, url, i);
    var lastSlash := if i == 0 then -1 else LastIndexOfFrom(prefix, '/', i - 1);
    StepUnfolds(prefix, url, lastSlash);
    next := if lastSlash >= 0 then prefix[..lastSlash + 1] else "";
  }

  /** `getUrlCommonPrefix(urls)`: `urls.reduce(reducer, urls[0])`. */
  method GetUrlCommonPrefix(urls: seq<string>) returns (value: string)
    ensures value == CommonPrefix(urls)
  {
    if |urls| == 0 {
      return "";
    }
    value := urls[0];
    for n := 0 to |urls|
      invariant value == Fold(urls, n)
    {
      value := Reduce(value, urls[n]);
    }
  }

  /** The as-written reducer returns `/` for `["/a", "b"]`, which is not a
      prefix of `b`: with no common character, `lastIndexOf("/", -1)` still
      looks at position 0. */
  lemma AsWrittenCounterexample()
    ensures CommonPrefixAsWritten(["/a", "b"]) == "/"
    ensures !StartsWith("b", "/")
  {
    var urls := ["/a", "b"];
    SharedDirectoryStep();
    DisjointStepAsWritten();
    assert FoldAsWritten(urls, 1) == "/";
  }

  lemma SharedDirectoryStep()
    ensures StepAsWritten("/a", "/a") == "/"
  {
    CommonLenUnique("/a", "/a", 2);
    assert LastIndexOfFrom("/a", '/', 1) == 0;
  }

  lemma DisjointStepAsWritten()
    ensures StepAsWritten("/", "b") == "/"
  {
    CommonLenUnique("/", "b", 0);
    assert LastIndexOfFrom("/", '/', -1) == 0;
  }

  /** The two steps agree except when the urls share no first character and
      the prefix starts with `/`. */
  lemma StepAgrees(prefix: string, url: string)
    requires prefix == "" || url == "" || CommonLen(prefix, url) > 0 || prefix[0] != '/'
    ensures Step(prefix, url) == StepAsWritten(prefix, url)
  {
  }

  /** A step's result is a directory prefix (ending in `/`, or empty) of both
      its inputs. */
  lemma StepIsCommonDirectory(prefix: string, url: string)
    ensures var r := Step(prefix, url);
            StartsWith(prefix, r) && StartsWith(url, r) && (r == "" || r[|r| - 1] == '/')
  {
    var r := Step(prefix, url);
    if r != "" {
      var i := CommonLen(prefix, url);
      var lastSlash := LastIndexOfFrom(prefix, '/', i - 1);
      assert r == prefix[..lastSlash + 1];
      assert lastSlash + 1 <= i;
      assert r == prefix[..i][..lastSlash + 1];
      assert r == url[..i][..lastSlash + 1];
      assert url[..lastSlash + 1] == url[..i][..lastSlash + 1];
    }
  }

  lemma StartsWithTrans(a: string, b: string, c: string)
    requires StartsWith(a, b) && StartsWith(b, c)
    ensures StartsWith(a, c)
  {
    assert a[..|c|] == a[..|b|][..|c|];
  }

  /** After the first step the folded value is a directory prefix of every
      url folded so far. */
  lemma {:induction false} FoldIsCommonDirectory(urls: seq<string>, n: nat)
    requires 0 < n <= |urls|
    ensures var r := Fold(urls, n);
            (r == "" || r[|r| - 1] == '/') && forall k :: 0 <= k < n ==> StartsWith(urls[k], r)
  {
    var r := Fold(urls, n);
    var prev := Fold(urls, n - 1);
    StepIsCommonDirectory(prev, urls[n - 1]);
    if n > 1 {
      FoldIsCommonDirectory(urls, n - 1);
      forall k | 0 <= k < n - 1 ensures StartsWith(urls[k], r) {
        StartsWithTrans(urls[k], prev, r);
      }
    }
  }

  /** The common prefix is a directory prefix of every url: empty or ending
      in `/`. An empty list or an empty url gives the empty string. */
  lemma CommonPrefixIsCommonDirectory(urls: seq<string>)
    ensures var r := CommonPrefix(urls);
            (r == "" || r[|r| - 1] == '/') && forall k :: 0 <= k < |urls| ==> StartsWith(urls[k], r)
    ensures |urls| == 0 || "" in urls ==> CommonPrefix(urls) == ""
  {
    if |urls| > 0 {
      FoldIsCommonDirectory(urls, |urls|);
      if "" in urls {
        var k :| 0 <= k < |urls| && urls[k] == "";
        assert StartsWith(urls[k], CommonPrefix(urls));
      }
    }
  }

  /** For one url the result is everything up to and including its last `/`. */
  lemma SingleUrl(u: string)
    ensures var r := CommonPrefix([u]);
            StartsWith(u, r) && (r == "" || r[|r| - 1] == '/')
            && forall k :: |r| <= k < |u| ==> u[k] != '/'
  {
    CommonPrefixIsCommonDirectory([u]);
    if u != "" {
      assert CommonLen(u, u) == |u| by {
        CommonLenUnique(u, u, |u|);
      }
      assert Fold([u], 0) == u;
      assert CommonPrefix([u]) == Step(u, u);
      var lastSlash := LastIndexOfFrom(u, '/', |u| - 1);
      assert CommonPrefix([u]) == if lastSlash >= 0 then u[..lastSlash + 1] else "";
    }
  }

  /** The as-written reducer still yields a directory prefix of the first
      url: empty or ending in `/`. */
  lemma {:induction false} AsWrittenPrefixOfFirst(urls: seq<string>, n: nat)
    requires 0 < |urls| && n <= |urls|
    ensures var r := FoldAsWritten(urls, n);
            StartsWith(urls[0], r) && (n == 0 || r == "" || r[|r| - 1] == '/')
  {
    if n > 0 {
      AsWrittenPrefixOfFirst(urls, n - 1);
      var prev := FoldAsWritten(urls, n - 1);
      var r := FoldAsWritten(urls, n);
      StepAsWrittenShape(prev, urls[n - 1]);
      if r != "" {
        StartsWithTrans(urls[0], prev, r);
      }
    }
  }

  /** One as-written step keeps a prefix of the accumulated prefix that ends
      in `/`, or nothing. */
  lemma StepAsWrittenShape(prefix: string, url: string)
    ensures var r := StepAsWritten(prefix, url);
            r == "" || (StartsWith(prefix, r) && r[|r| - 1] == '/')
  {
    if prefix != "" && url != "" {
      var i: int := CommonLen(prefix, url);
      var lastSlash := LastIndexOfFrom(prefix, '/', i - 1);
      if lastSlash >= 0 {
        var r := prefix[..lastSlash + 1];
        assert r[|r| - 1] == prefix[lastSlash] == '/';
        assert prefix[..|r|] == r;
      }
    }
  }
}
