/** The variant filter of `src/filter.ts`: a size filter such as `"720-1080"`,
    `"<=720"` or `">1080"` parsed into an inclusive range, variants whose
    height or width falls outside it removed, and forced subtitles switched
    off. */
module Filters {
  import opened Wrappers
  import opened Values
  import opened Strings
  import opened HlsTypes

  /** The upper end of a range; `Number.POSITIVE_INFINITY` is `PosInfinity`. */
  datatype Bound = Finite(n: int) | PosInfinity

  /** The inclusive range `[min, max]`. */
  datatype Range = Range(min: int, max: Bound)

  /** `x` lies in the range. */
  predicate Within(x: real, r: Range) {
    x >= r.min as real && (r.max.PosInfinity? || x <= r.max.n as real)
  }

  /** The text `a-b`. */
  function RangeText(a: string, b: string): string { a + "-" + b }

  /** `parseRange`: the whole input must be digits, `-`, digits
      (`/^(\d+)-(\d+)$/`). Digits hold no `-`, so the first `-` separates the
      two numbers. */
  function ParseRange(input: string): Option<Range> {
    var i := IndexOf(input, '-');
    if i <= 0 || i == |input| - 1 then None
    else
      var a := input[..i];
      var b := input[i + 1..];
      if AllDigits(a) && AllDigits(b) then Some(Range(DigitsValue(a), Finite(DigitsValue(b)))) else None
  }

  /** Every `digits-digits` text parses to its two numbers. */
  lemma ParseRangeAccepts(a: string, b: string)
    requires |a| > 0 && |b| > 0 && AllDigits(a) && AllDigits(b)
    ensures ParseRange(RangeText(a, b)) == Some(Range(DigitsValue(a), Finite(DigitsValue(b))))
  {
    var s := RangeText(a, b);
    var i := IndexOf(s, '-');
    assert s[|a|] == '-';
    assert s[..|a|] == a;
    assert '-' !in a by {
      forall k | 0 <= k < |a| ensures a[k] != '-' {
        assert IsDigit(a[k]);
      }
    }
    assert i == |a|;
    assert s[i + 1..] == b;
  }

  /** Nothing but a `digits-digits` text parses. */
  lemma ParseRangeOnly(s: string)
    requires ParseRange(s).Some?
    ensures exists a, b :: |a| > 0 && |b| > 0 && AllDigits(a) && AllDigits(b) && s == RangeText(a, b)
                           && ParseRange(s) == Some(Range(DigitsValue(a), Finite(DigitsValue(b))))
  {
    var i := IndexOf(s, '-');
    var a, b := s[..i], s[i + 1..];
    assert s == RangeText(a, b);
  }

  /** The first position at or after `q` that is not white space. */
  function SkipSpaces(s: string, q: nat): (r: nat)
    requires q <= |s|
    ensures q <= r <= |s|
    decreases |s| - q
  {
    if q < |s| && IsWhitespace(s[q]) then SkipSpaces(s, q + 1) else q
  }

  /** The first position at or after `q` that is not a digit. */
  function DigitsEnd(s: string, q: nat): (r: nat)
    requires q <= |s|
    ensures q <= r <= |s| && AllDigits(s[q..r])
    decreases |s| - q
  {
    if q < |s| && IsDigit(s[q]) then
      var r := DigitsEnd(s, q + 1);
      assert s[q..r] == [s[q]] + s[q + 1..r];
      r
    else q
  }

  /** The match of `/(<=?|>=?)\s*(\d+)/` starting at `p`, as a range. Taking
      `<=` rather than `<` never loses a match: after a lone `<` the regular
      expression would need white space or a digit, and `=` is neither. */
  function OperatorAt(s: string, p: nat): Option<Range>
    requires p < |s|
  {
    if s[p] != '<' && s[p] != '>' then None
    else
      var orEqual := p + 1 < |s| && s[p + 1] == '=';
      var q := if orEqual then p + 2 else p + 1;
      var r := SkipSpaces(s, q);
      var e := DigitsEnd(s, r);
      if e == r then None
      else
        var n := DigitsValue(s[r..e]);
        if s[p] == '<' then Some(Range(0, Finite(if orEqual then n else n - 1)))
        else Some(Range(if orEqual then n else n + 1, PosInfinity))
  }

  /** The leftmost match at or after `p`. */
  function OperatorFrom(s: string, p: nat): Option<Range>
    decreases |s| - p
  {
    if p >= |s| then None
    else if OperatorAt(s, p).Some? then OperatorAt(s, p)
    else OperatorFrom(s, p + 1)
  }

  /** `parseOperatorToRange`: the leftmost operator followed by a number,
      anywhere in the input. */
  function ParseOperatorToRange(input: string): Option<Range> {
    OperatorFrom(input, 0)
  }

  /** `parseFilterToRange`: the `a-b` form first, then the operator form. */
  function ParseFilterToRange(input: string): Result<Range> {
    var range := ParseRange(input);
    if range.Some? then Ok(range.value)
    else
      var op := ParseOperatorToRange(input);
      if op.Some? then Ok(op.value) else Err("Failed to parse to range")
  }

  lemma {:induction false} SkipSpacesOver(s: string, q: nat, k: nat)
    requires q <= k <= |s|
    requires forall i :: q <= i < k ==> IsWhitespace(s[i])
    requires k == |s| || !IsWhitespace(s[k])
    ensures SkipSpaces(s, q) == k
    decreases k - q
  {
    if q < k {
      SkipSpacesOver(s, q + 1, k);
    }
  }

  lemma {:induction false} DigitsEndOver(s: string, q: nat, k: nat)
    requires q <= k <= |s|
    requires forall i :: q <= i < k ==> IsDigit(s[i])
    requires k == |s| || !IsDigit(s[k])
    ensures DigitsEnd(s, q) == k
    decreases k - q
  {
    if q < k {
      DigitsEndOver(s, q + 1, k);
    }
  }

  /** Positions before `k` holding no operator are passed over. */
  lemma {:induction false} OperatorFromSkips(s: string, p: nat, k: nat)
    requires p <= k <= |s|
    requires forall i :: p <= i < k ==> s[i] != '<' && s[i] != '>'
    ensures OperatorFrom(s, p) == OperatorFrom(s, k)
    decreases k - p
  {
    if p < k {
      OperatorFromSkips(s, p + 1, k);
    }
  }

  /** The text `pre op ws digits post` with the operator `op` as the first
      `<` or `>`. */
  predicate OperatorText(pre: string, ws: string, digits: string, post: string) {
    (forall i :: 0 <= i < |pre| ==> pre[i] != '<' && pre[i] != '>')
    && (forall i :: 0 <= i < |ws| ==> IsWhitespace(ws[i]))
    && |digits| > 0 && AllDigits(digits)
    && (|post| == 0 || !IsDigit(post[0]))
  }

  /** An operator at `p`, white space from `q` to `r` and digits from `r` to
      `e` read as the range the operator gives the number. */
  lemma OperatorAtReads(s: string, p: nat, q: nat, r: nat, e: nat)
    requires p < q <= r < e <= |s|
    requires s[p] == '<' || s[p] == '>'
    requires (q == p + 2 && s[p + 1] == '=') || (q == p + 1 && (p + 1 == r || IsWhitespace(s[p + 1])))
    requires forall i :: q <= i < r ==> IsWhitespace(s[i])
    requires forall i :: r <= i < e ==> IsDigit(s[i])
    requires e == |s| || !IsDigit(s[e])
    ensures var n := DigitsValue(s[r..e]);
            OperatorAt(s, p) ==
              if s[p] == '<' then Some(Range(0, Finite(if q == p + 2 then n else n - 1)))
              else Some(Range(if q == p + 2 then n else n + 1, PosInfinity))
  {
    assert !IsWhitespace(s[r]);
    SkipSpacesOver(s, q, r);
    DigitsEndOver(s, r, e);
    if q == p + 1 {
      assert s[p + 1] != '=';
    }
  }

  /** The four comparison operators. */
  datatype Op = Le | Lt | Ge | Gt

  function OpText(o: Op): string {
    match o
    case Le => "<="
    case Lt => "<"
    case Ge => ">="
    case Gt => ">"
  }

  /** The range each operator stands for: `<=n` is `[0, n]`, `<n` is
      `[0, n - 1]`, `>=n` is `[n, ∞]` and `>n` is `[n + 1, ∞]`. */
  function OpRange(o: Op, n: int): Range {
    match o
    case Le => Range(0, Finite(n))
    case Lt => Range(0, Finite(n - 1))
    case Ge => Range(n, PosInfinity)
    case Gt => Range(n + 1, PosInfinity)
  }

  /** Where the pieces of `pre + op + ws + digits + post` sit. */
  lemma PiecesAt(pre: string, op: string, ws: string, digits: string, post: string)
    ensures var s := pre + op + ws + digits + post;
            var q := |pre| + |op|;
            var r := q + |ws|;
            var e := r + |digits|;
            e <= |s|
            && (forall i :: 0 <= i < |pre| ==> s[i] == pre[i])
            && (forall i :: |pre| <= i < q ==> s[i] == op[i - |pre|])
            && (forall i :: q <= i < r ==> s[i] == ws[i - q])
            && (forall i :: r <= i < e ==> s[i] == digits[i - r])
            && s[r..e] == digits
            && (e == |s| || s[e] == post[0])
  {
  }

  /** The operator form read after leading text free of `<` and `>`, across
      white space, up to the last digit, gives the operator's range. */
  lemma ParseOperatorForms(pre: string, o: Op, ws: string, digits: string, post: string)
    requires OperatorText(pre, ws, digits, post)
    ensures ParseOperatorToRange(pre + OpText(o) + ws + digits + post) == Some(OpRange(o, DigitsValue(digits)))
  {
    var op := OpText(o);
    var s := pre + op + ws + digits + post;
    PiecesAt(pre, op, ws, digits, post);
    var p := |pre|;
    var q := p + |op|;
    var r := q + |ws|;
    var e := r + |digits|;
    OperatorFromSkips(s, 0, p);
    assert s[p] == op[0];
    if |op| == 1 {
      assert p + 1 == r || IsWhitespace(s[p + 1]);
    } else {
      assert s[p + 1] == op[1];
    }
    OperatorAtReads(s, p, q, r, e);
    OpReads(o, DigitsValue(digits));
    assert OperatorAt(s, p).Some?;
    assert ParseOperatorToRange(s) == OperatorAt(s, p);
    assert s[r..e] == digits && s[p] == OpText(o)[0] && (q == p + 2 <==> |OpText(o)| == 2);
  }

  /** An operator's range in terms of its first character and length. */
  lemma OpReads(o: Op, n: int)
    ensures OpRange(o, n) ==
      if OpText(o)[0] == '<' then Range(0, Finite(if |OpText(o)| == 2 then n else n - 1))
      else Range(if |OpText(o)| == 2 then n else n + 1, PosInfinity)
  {
  }

  /** Without `<` or `>` there is no operator form. */
  lemma ParseOperatorNeedsOperator(s: string)
    requires forall i :: 0 <= i < |s| ==> s[i] != '<' && s[i] != '>'
    ensures ParseOperatorToRange(s) == None
  {
    OperatorFromSkips(s, 0, |s|);
  }

  /** The range form is tried first; only when both forms fail is it an
      error. */
  lemma ParseFilterOrder(input: string)
    ensures ParseFilterToRange(input).Err? <==> ParseRange(input).None? && ParseOperatorToRange(input).None?
    ensures ParseRange(input).Some? ==> ParseFilterToRange(input) == Ok(ParseRange(input).value)
    ensures ParseRange(input).None? && ParseOperatorToRange(input).Some? ==>
              ParseFilterToRange(input) == Ok(ParseOperatorToRange(input).value)
  {
  }

  /** The size a filter looks at. */
  datatype Dim = Height | Width

  /** The variant's height or width, when it has a resolution. */
  function Extent(v: Variant, d: Dim): Option<Num> {
    if v.resolution.None? then None
    else if d == Height then Some(v.resolution.value.height)
    else Some(v.resolution.value.width)
  }

  /** A variant passes when it has no (or a zero) size, or its size is in
      the range. */
  predicate Passes(v: Variant, d: Dim, r: Range) {
    !TruthyOpt(Extent(v, d)) || Within(Extent(v, d).value.v, r)
  }

  function PassOpt(d: Dim, r: Range): Variant -> Option<Variant> {
    v => if Passes(v, d, r) then Some(v) else None
  }

  /** `variants.filter(...)` for one size. */
  function Kept(vs: seq<Variant>, d: Dim, r: Range): seq<Variant> {
    FilterMap(vs, PassOpt(d, r))
  }

  /** The size filter keeps, in their order, exactly the variants that pass. */
  lemma KeptExactly(vs: seq<Variant>, d: Dim, r: Range)
    ensures var ks := KeptIndices(vs, PassOpt(d, r));
            var out := Kept(vs, d, r);
            |out| == |ks| <= |vs|
            && (forall j :: 0 <= j < |ks| ==> ks[j] < |vs| && out[j] == vs[ks[j]] && Passes(vs[ks[j]], d, r))
            && (forall j, j' :: 0 <= j < j' < |ks| ==> ks[j] < ks[j'])
            && (forall k :: 0 <= k < |vs| && Passes(vs[k], d, r) ==> k in ks)
  {
    FilterMapIsKept(vs, PassOpt(d, r));
  }

  /** A media with forced subtitles switched off. */
  function Unforced(m: Media): Media {
    if m.mediaType == Subtitles then m.(autoSelect := Some(false), isDefault := Some(false)) else m
  }

  /** Every media with forced subtitles switched off. */
  function UnforcedAll(ms: seq<Media>): (r: seq<Media>)
    ensures |r| == |ms| && forall i :: 0 <= i < |ms| ==> r[i] == Unforced(ms[i])
  {
    seq(|ms|, i requires 0 <= i < |ms| => Unforced(ms[i]))
  }

  /** Subtitles lose `AUTOSELECT` and `DEFAULT`, everything else about every
      media stays. */
  lemma UnforcedFields(m: Media)
    ensures var u := Unforced(m);
            u.mediaType == m.mediaType && u.groupId == m.groupId && u.name == m.name
            && u.language == m.language && u.uri == m.uri && u.channels == m.channels
            && u.characteristics == m.characteristics
            && (m.mediaType == Subtitles ==> u.autoSelect == Some(false) && u.isDefault == Some(false))
            && (m.mediaType == Audio ==> u == m)
  {
  }

  /** What a request filters by. */
  datatype Filter = Filter(height: Option<string>, width: Option<string>, disableForcedText: bool)

  /** The variants after one size filter, or the parse error of its range. */
  function SizeFiltered(vs: seq<Variant>, spec: Option<string>, d: Dim): Result<seq<Variant>> {
    if spec.None? then Ok(vs)
    else
      var r := ParseFilterToRange(spec.value);
      if r.Err? then Err(r.msg) else Ok(Kept(vs, d, r.value))
  }

  /** The playlist after `filterMainPlaylist`, and whether it returned
      normally: a width filter that fails to parse leaves the height filter
      applied. */
  function FilterOutcome(v: MainPlaylistValue, f: Filter): (MainPlaylistValue, bool) {
    var byHeight := SizeFiltered(v.variants, f.height, Height);
    if byHeight.Err? then (v, false)
    else
      var byWidth := SizeFiltered(byHeight.value, f.width, Width);
      if byWidth.Err? then (v.(variants := byHeight.value), false)
      else
        var medias := if f.disableForcedText then UnforcedAll(v.medias) else v.medias;
        (v.(variants := byWidth.value, medias := medias), true)
  }

  /** Filtering only removes variants. */
  lemma FilterOutcomeSubset(v: MainPlaylistValue, f: Filter)
    ensures |FilterOutcome(v, f).0.variants| <= |v.variants|
    ensures forall x :: x in FilterOutcome(v, f).0.variants ==> x in v.variants
  {
    var byHeight := SizeFiltered(v.variants, f.height, Height);
    if f.height.Some? && byHeight.Ok? {
      KeptExactly(v.variants, Height, ParseFilterToRange(f.height.value).value);
    }
    if byHeight.Ok? {
      var byWidth := SizeFiltered(byHeight.value, f.width, Width);
      if f.width.Some? && byWidth.Ok? {
        KeptExactly(byHeight.value, Width, ParseFilterToRange(f.width.value).value);
      }
    }
  }

  /** After a successful call every remaining variant passes both size
      filters. */
  lemma FilterOutcomePasses(v: MainPlaylistValue, f: Filter)
    requires FilterOutcome(v, f).1
    ensures f.height.Some? ==>
              forall x :: x in FilterOutcome(v, f).0.variants ==> Passes(x, Height, ParseFilterToRange(f.height.value).value)
    ensures f.width.Some? ==>
              forall x :: x in FilterOutcome(v, f).0.variants ==> Passes(x, Width, ParseFilterToRange(f.width.value).value)
  {
    var byHeight := SizeFiltered(v.variants, f.height, Height).value;
    if f.height.Some? {
      KeptExactly(v.variants, Height, ParseFilterToRange(f.height.value).value);
    }
    if f.width.Some? {
      KeptExactly(byHeight, Width, ParseFilterToRange(f.width.value).value);
    }
  }

  /** Only the medias' forced flags change, and only on success with the
      switch set; the other playlist fields stay. */
  lemma FilterOutcomeMedias(v: MainPlaylistValue, f: Filter)
    ensures var out := FilterOutcome(v, f).0;
            out.medias == if FilterOutcome(v, f).1 && f.disableForcedText then UnforcedAll(v.medias) else v.medias
    ensures var out := FilterOutcome(v, f).0;
            out.independentSegments == v.independentSegments && out.defines == v.defines && out.comments == v.comments
  {
  }

  /** `filterMainPlaylist(playlist, filter)`; a range that fails to parse
      throws. */
  method FilterMainPlaylist(playlist: MainPlaylist, filter: Filter) returns (r: Result<bool>)
    modifies playlist
    ensures playlist.View() == FilterOutcome(old(playlist.View()), filter).0
    ensures r.Ok? == FilterOutcome(old(playlist.View()), filter).1
  {
    if filter.height.Some? {
      var range := ParseFilterToRange(filter.height.value);
      if range.Err? {
        return Err(range.msg);
      }
      playlist.variants := Kept(playlist.variants, Height, range.value);
    }
    if filter.width.Some? {
      var range := ParseFilterToRange(filter.width.value);
      if range.Err? {
        return Err(range.msg);
      }
      playlist.variants := Kept(playlist.variants, Width, range.value);
    }
    if filter.disableForcedText {
      var medias := playlist.medias;
      var i := 0;
      while i < |medias|
        invariant 0 <= i <= |medias| == |playlist.medias|
        invariant forall k :: 0 <= k < i ==> medias[k] == Unforced(playlist.medias[k])
        invariant forall k :: i <= k < |medias| ==> medias[k] == playlist.medias[k]
      {
        var media := medias[i];
        if media.mediaType == Subtitles {
          medias := medias[i := media.(autoSelect := Some(false), isDefault := Some(false))];
        }
        i := i + 1;
      }
      assert medias == UnforcedAll(playlist.medias);
      playlist.medias := medias;
    }
    r := Ok(true);
  }
}
