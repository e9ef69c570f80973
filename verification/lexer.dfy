/** The lexer of `src/parser/lexical-parse.ts`: playlist text becomes an ordered
    list of typed tags, one per known `#EXT` tag line and one `Literal` per
    other non-blank, non-comment line. */
module Lexer {
  import opened Wrappers
  import opened Values
  import opened Strings
  import opened HlsTypes

  /** The library routines the lexer calls and that are not part of this model:
      `Number.parseFloat`, unary `+`, luxon's `DateTime.fromISO`, the attribute
      list splitter `mapAttributes` (the key/value pairs in the order it visits
      them) and `hexToByteSequence`. */
  datatype Env = Env(
    parseFloat: string -> Num,
    toNumber: string -> Num,
    fromIso: string -> DateTime,
    attributes: string -> seq<(string, string)>,
    hexToBytes: string -> seq<bv8>)

  type Pairs = seq<(string, string)>

  // ---------------------------------------------------------------------------
  // Attribute lists: the last occurrence of a key wins

  /** The value of the last pair with `key`, which is what an attribute
      callback that assigns on every visit leaves behind. */
  function Last(pairs: Pairs, key: string): Option<string> {
    if pairs == [] then None
    else if pairs[|pairs| - 1].0 == key then Some(pairs[|pairs| - 1].1)
    else Last(pairs[..|pairs| - 1], key)
  }

  /** One more pair: it wins if it has the key. */
  lemma LastStep(pairs: Pairs, i: nat, key: string)
    requires i < |pairs|
    ensures Last(pairs[..i + 1], key) == if pairs[i].0 == key then Some(pairs[i].1) else Last(pairs[..i], key)
  {
    assert pairs[..i + 1][..i] == pairs[..i];
  }

  /** `Last` finds the value of a pair with the key after which no pair has
      it, and finds nothing exactly when no pair has the key. */
  lemma {:induction false} LastIsLastPair(pairs: Pairs, key: string)
    ensures Last(pairs, key).None? <==> forall i :: 0 <= i < |pairs| ==> pairs[i].0 != key
    ensures Last(pairs, key).Some? ==>
              exists i :: 0 <= i < |pairs| && pairs[i] == (key, Last(pairs, key).value)
                          && forall j :: i < j < |pairs| ==> pairs[j].0 != key
  {
    if pairs != [] {
      var init := pairs[..|pairs| - 1];
      LastIsLastPair(init, key);
      if pairs[|pairs| - 1].0 != key && Last(init, key).Some? {
        var i :| 0 <= i < |init| && init[i] == (key, Last(init, key).value)
                 && forall j :: i < j < |init| ==> init[j].0 != key;
        assert pairs[i] == (key, Last(pairs, key).value);
      }
    }
  }

  function NumOf(s: Option<string>, env: Env): Option<Num> {
    if s.Some? then Some(env.parseFloat(s.value)) else None
  }

  // ---------------------------------------------------------------------------
  // splitLine, parseIV, nextLiteral

  /** `splitLine`: drop the leading `#`, cut at the first `:` and trim both
      halves; without a `:` there is no parameter. */
  function SplitLine(line: string): (r: (string, Option<string>))
    ensures ':' !in r.0
    ensures r.1.None? <==> ':' !in line
    ensures r.1.None? ==> r.0 == Trim(if line == "" then "" else line[1..])
  {
    var index := IndexOf(line, ':');
    if index < 0 then
      (Trim(if line == "" then "" else line[1..]), None)
    else
      var name := if index == 0 then "" else line[1..index];
      assert ':' !in name by { assert index == 0 || name == line[..index][1..]; }
      TrimKeepsOut(name, ':');
      (Trim(name), Some(Trim(line[index + 1..])))
  }

  /** With a `:`, the name is the trimmed text between the `#` and the first
      `:`, and the parameter the trimmed text after it. */
  lemma SplitLineAtFirstColon(line: string)
    requires ':' in line
    ensures exists k :: 0 <= k < |line| && line[k] == ':' && ':' !in line[..k]
                        && SplitLine(line).0 == Trim(if k == 0 then "" else line[1..k])
                        && SplitLine(line).1 == Some(Trim(line[k + 1..]))
  {
    var k := IndexOf(line, ':');
    assert line[k] == ':' && ':' !in line[..k];
  }

  /** Trimming does not introduce characters. */
  lemma TrimKeepsOut(s: string, c: char)
    requires c !in s
    ensures c !in Trim(s)
  {
    var t := TrimStart(s);
    assert t == s[|s| - |t|..];
    assert TrimEnd(t) == t[..|TrimEnd(t)|];
  }

  /** `parseIV`: the decoded bytes, which must be exactly 128 bits. */
  function ParseIV(value: string, env: Env): (r: Result<seq<bv8>>)
    ensures r.Ok? <==> |env.hexToBytes(value)| == 16
    ensures r.Ok? ==> |r.value| == 16 && r.value == env.hexToBytes(value)
  {
    var iv := env.hexToBytes(value);
    if |iv| != 16 then Err("IV must be a 128-bit unsigned integer") else Ok(iv)
  }

  /** `nextLiteral`: the text of the tag after `index`, which must exist and be
      a literal. */
  function NextLiteral(tags: seq<Tag>, index: int): (r: Result<string>)
    ensures r.Ok? <==> 0 <= index + 1 < |tags| && tags[index + 1].Literal?
    ensures r.Ok? ==> r.value == tags[index + 1].text
  {
    if !(0 <= index + 1 < |tags|) then Err("Expecting next tag to be found")
    else if !tags[index + 1].Literal? then Err("Expecting next tag to be a literal")
    else Ok(tags[index + 1].text)
  }

  // ---------------------------------------------------------------------------
  // EXT-X-STREAM-INF

  /** The `RESOLUTION` value `<width>x<height>`; both parts must be non-empty. */
  function ResolutionOf(value: string, env: Env): (r: Result<Resolution>)
    ensures r.Ok? <==> |Split(value, 'x')| >= 2 && Split(value, 'x')[0] != "" && Split(value, 'x')[1] != ""
    ensures r.Ok? ==> r.value == Resolution(env.parseFloat(Split(value, 'x')[0]), env.parseFloat(Split(value, 'x')[1]))
  {
    var chunks := Split(value, 'x');
    if chunks[0] == "" then Err("EXT-X-STREAM-INF DURATION: no width")
    else if |chunks| < 2 || chunks[1] == "" then Err("EXT-X-STREAM-INF DURATION: no height")
    else Ok(Resolution(env.parseFloat(chunks[0]), env.parseFloat(chunks[1])))
  }

  predicate ResolutionsOk(pairs: Pairs, env: Env) {
    forall i :: 0 <= i < |pairs| && pairs[i].0 == "RESOLUTION" ==> ResolutionOf(pairs[i].1, env).Ok?
  }

  function LastResolution(pairs: Pairs, env: Env): Option<Resolution>
    requires ResolutionsOk(pairs, env)
  {
    var v := Last(pairs, "RESOLUTION");
    LastIsLastPair(pairs, "RESOLUTION");
    if v.Some? then Some(ResolutionOf(v.value, env).value) else None
  }

  /** One more pair keeps the resolutions well formed when it is, and a
      `RESOLUTION` pair replaces the last resolution. */
  lemma ResolutionStep(pairs: Pairs, i: nat, env: Env)
    requires i < |pairs| && ResolutionsOk(pairs[..i], env)
    requires pairs[i].0 == "RESOLUTION" ==> ResolutionOf(pairs[i].1, env).Ok?
    ensures ResolutionsOk(pairs[..i + 1], env)
    ensures LastResolution(pairs[..i + 1], env) ==
      if pairs[i].0 == "RESOLUTION" then Some(ResolutionOf(pairs[i].1, env).value) else LastResolution(pairs[..i], env)
  {
    assert pairs[..i + 1][..i] == pairs[..i];
    LastStep(pairs, i, "RESOLUTION");
  }

  /** One malformed `RESOLUTION` makes the whole list invalid. */
  lemma ResolutionFails(pairs: Pairs, i: nat, env: Env)
    requires i < |pairs| && pairs[i].0 == "RESOLUTION" && ResolutionOf(pairs[i].1, env).Err?
    ensures !ResolutionsOk(pairs, env)
  {
  }

  /** An `EXT-X-STREAM-INF` attribute list decodes when every `RESOLUTION` is
      well formed and the last `BANDWIDTH` is a truthy number. */
  predicate StreamInfValid(pairs: Pairs, env: Env) {
    ResolutionsOk(pairs, env) && TruthyOpt(NumOf(Last(pairs, "BANDWIDTH"), env))
  }

  function StreamInfOf(pairs: Pairs, env: Env): StreamInf
    requires StreamInfValid(pairs, env)
  {
    StreamInf(NumOf(Last(pairs, "BANDWIDTH"), env).value, Last(pairs, "CODECS"),
              LastResolution(pairs, env), Last(pairs, "AUDIO"), Last(pairs, "SUBTITLES"))
  }

  /** The `EXT-X-STREAM-INF` decoder: one pass over the attributes, keeping the
      last value of each. */
  method DecodeStreamInf(pairs: Pairs, env: Env) returns (r: Result<StreamInf>)
    ensures r.Ok? <==> StreamInfValid(pairs, env)
    ensures r.Ok? ==> r.value == StreamInfOf(pairs, env)
  {
    var bandwidth: Option<Num> := None;
    var resolution: Option<Resolution> := None;
    var audio: Option<string> := None;
    var subtitles: Option<string> := None;
    var codecs: Option<string> := None;
    var i := 0;
    while i < |pairs|
      invariant 0 <= i <= |pairs|
      invariant ResolutionsOk(pairs[..i], env)
      invariant bandwidth == NumOf(Last(pairs[..i], "BANDWIDTH"), env)
      invariant resolution == LastResolution(pairs[..i], env)
      invariant audio == Last(pairs[..i], "AUDIO")
      invariant subtitles == Last(pairs[..i], "SUBTITLES")
      invariant codecs == Last(pairs[..i], "CODECS")
    {
      var (key, value) := pairs[i];
      LastStep(pairs, i, "BANDWIDTH");
      LastStep(pairs, i, "AUDIO");
      LastStep(pairs, i, "SUBTITLES");
      LastStep(pairs, i, "CODECS");
      if key == "BANDWIDTH" {
        bandwidth := Some(env.parseFloat(value));
      } else if key == "RESOLUTION" {
        var res := ResolutionOf(value, env);
        if res.Err? {
          ResolutionFails(pairs, i, env);
          return Err(res.msg);
        }
        resolution := Some(res.value);
      } else if key == "AUDIO" {
        audio := Some(value);
      } else if key == "SUBTITLES" {
        subtitles := Some(value);
      } else if key == "CODECS" {
        codecs := Some(value);
      }
      ResolutionStep(pairs, i, env);
      i := i + 1;
    }
    assert pairs[..i] == pairs;
    if !TruthyOpt(bandwidth) {
      return Err("EXT-X-STREAM-INF: no bandwidth");
    }
    r := Ok(StreamInf(bandwidth.value, codecs, resolution, audio, subtitles));
  }

  // ---------------------------------------------------------------------------
  // EXT-X-MEDIA

  predicate MediaTypeOk(value: string) { value == "AUDIO" || value == "SUBTITLES" }

  function MediaTypeOf(value: string): MediaType
    requires MediaTypeOk(value)
  {
    if value == "AUDIO" then Audio else Subtitles
  }

  predicate MediaTypesOk(pairs: Pairs) {
    forall i :: 0 <= i < |pairs| && pairs[i].0 == "TYPE" ==> MediaTypeOk(pairs[i].1)
  }

  function LastMediaType(pairs: Pairs): Option<MediaType>
    requires MediaTypesOk(pairs)
  {
    var v := Last(pairs, "TYPE");
    LastIsLastPair(pairs, "TYPE");
    if v.Some? then Some(MediaTypeOf(v.value)) else None
  }

  /** A `YES`/`NO` attribute: true exactly when the value is `YES`. */
  function FlagOf(s: Option<string>): (r: Option<bool>)
    ensures r.Some? <==> s.Some?
    ensures r.Some? ==> (r.value <==> s.value == "YES")
  {
    if s.Some? then Some(s.value == "YES") else None
  }

  /** An `EXT-X-MEDIA` attribute list decodes when every `TYPE` is `AUDIO` or
      `SUBTITLES`, some `TYPE` is present, and the last `GROUP-ID`, `NAME` and
      `URI` are non-empty. */
  predicate MediaValid(pairs: Pairs) {
    MediaTypesOk(pairs) && Last(pairs, "TYPE").Some?
    && NonEmpty(Last(pairs, "GROUP-ID")) && NonEmpty(Last(pairs, "NAME")) && NonEmpty(Last(pairs, "URI"))
  }

  function MediaOf(pairs: Pairs): Media
    requires MediaValid(pairs)
  {
    Media(LastMediaType(pairs).value, Last(pairs, "GROUP-ID").value, Last(pairs, "NAME").value,
          Last(pairs, "LANGUAGE"), Last(pairs, "URI").value, Last(pairs, "CHANNELS"),
          FlagOf(Last(pairs, "DEFAULT")), FlagOf(Last(pairs, "AUTOSELECT")),
          Last(pairs, "CHARACTERISTICS"))
  }

  /** The `EXT-X-MEDIA` decoder. */
  method DecodeMedia(pairs: Pairs) returns (r: Result<Media>)
    ensures r.Ok? <==> MediaValid(pairs)
    ensures r.Ok? ==> r.value == MediaOf(pairs)
  {
    var mediaType: Option<MediaType> := None;
    var groupId: Option<string> := None;
    var language: Option<string> := None;
    var name: Option<string> := None;
    var uri: Option<string> := None;
    var channels: Option<string> := None;
    var isDefault: Option<bool> := None;
    var autoSelect: Option<bool> := None;
    var characteristics: Option<string> := None;
    var i := 0;
    while i < |pairs|
      invariant 0 <= i <= |pairs|
      invariant MediaTypesOk(pairs[..i])
      invariant mediaType == LastMediaType(pairs[..i])
      invariant groupId == Last(pairs[..i], "GROUP-ID")
      invariant language == Last(pairs[..i], "LANGUAGE")
      invariant name == Last(pairs[..i], "NAME")
      invariant uri == Last(pairs[..i], "URI")
      invariant channels == Last(pairs[..i], "CHANNELS")
      invariant isDefault == FlagOf(Last(pairs[..i], "DEFAULT"))
      invariant autoSelect == FlagOf(Last(pairs[..i], "AUTOSELECT"))
      invariant characteristics == Last(pairs[..i], "CHARACTERISTICS")
    {
      var (key, value) := pairs[i];
      assert pairs[..i + 1][..i] == pairs[..i];
      if key == "TYPE" {
        if value == "AUDIO" {
          mediaType := Some(Audio);
        } else if value == "SUBTITLES" {
          mediaType := Some(Subtitles);
        } else {
          return Err("EXT-X-MEDIA: invalid type param");
        }
      } else if key == "GROUP-ID" {
        groupId := Some(value);
      } else if key == "LANGUAGE" {
        language := Some(value);
      } else if key == "NAME" {
        name := Some(value);
      } else if key == "URI" {
        uri := Some(value);
      } else if key == "CHANNELS" {
        channels := Some(value);
      } else if key == "DEFAULT" {
        isDefault := Some(value == "YES");
      } else if key == "AUTOSELECT" {
        autoSelect := Some(value == "YES");
      } else if key == "CHARACTERISTICS" {
        characteristics := Some(value);
      }
      i := i + 1;
    }
    assert pairs[..i] == pairs;
    if mediaType.None? {
      return Err("EXT-X-MEDIA: no type");
    }
    if !NonEmpty(groupId) {
      return Err("EXT-X-MEDIA: no groupId");
    }
    if !NonEmpty(name) {
      return Err("EXT-X-MEDIA: no name");
    }
    if !NonEmpty(uri) {
      return Err("EXT-X-MEDIA: no uri");
    }
    r := Ok(Media(mediaType.value, groupId.value, name.value, language, uri.value, channels,
                  isDefault, autoSelect, characteristics));
  }

  // ---------------------------------------------------------------------------
  // EXT-X-MAP

  /** The `EXT-X-MAP` decoder: the last `URI` must be non-empty. The map's
      identity is the position `ref` the tag will take in the lexer's output. */
  method DecodeMap(pairs: Pairs, ref: nat) returns (r: Result<HLSMap>)
    ensures r.Ok? <==> NonEmpty(Last(pairs, "URI"))
    ensures r.Ok? ==> r.value == HLSMap(ref, Last(pairs, "URI").value)
  {
    var uri: Option<string> := None;
    var i := 0;
    while i < |pairs|
      invariant 0 <= i <= |pairs|
      invariant uri == Last(pairs[..i], "URI")
    {
      assert pairs[..i + 1][..i] == pairs[..i];
      if pairs[i].0 == "URI" {
        uri := Some(pairs[i].1);
      }
      i := i + 1;
    }
    assert pairs[..i] == pairs;
    if !NonEmpty(uri) {
      return Err("EXT-X-MAP: no uri");
    }
    r := Ok(HLSMap(ref, uri.value));
  }

  // ---------------------------------------------------------------------------
  // EXT-X-DATERANGE

  /** Keys the date-range decoder files under `clientAttributes`. */
  predicate IsClientKey(key: string) { |key| >= 2 && key[0] == 'X' && key[1] == '-' }

  /** A client attribute value: a number when unary `+` does not give NaN,
      the string otherwise. */
  function ClientValue(value: string, env: Env): AttrValue {
    if env.toNumber(value) != NaN then ANum(env.parseFloat(value)) else AStr(value)
  }

  /** The `clientAttributes` record after visiting `pairs`: created at the
      first `X-` key, then assigned one entry per `X-` key, without the prefix. */
  function ClientAttrs(pairs: Pairs, env: Env): (r: Option<seq<(string, AttrValue)>>)
    ensures r.None? <==> forall i :: 0 <= i < |pairs| ==> !IsClientKey(pairs[i].0)
  {
    if pairs == [] then None
    else
      var prev := ClientAttrs(pairs[..|pairs| - 1], env);
      var (key, value) := pairs[|pairs| - 1];
      if IsClientKey(key) then Some(Put(prev.GetOr([]), key[2..], ClientValue(value, env)))
      else prev
  }

  /** Each client attribute holds the converted value of the last `X-<name>`
      attribute, and nothing else is stored. */
  lemma {:induction false} ClientAttrsAreLastValues(pairs: Pairs, env: Env, name: string)
    ensures var v := Last(pairs, "X-" + name);
            Get(ClientAttrs(pairs, env).GetOr([]), name)
            == if v.Some? then Some(ClientValue(v.value, env)) else None
  {
    if pairs != [] {
      var init := pairs[..|pairs| - 1];
      ClientAttrsAreLastValues(init, env, name);
      var (key, value) := pairs[|pairs| - 1];
      if IsClientKey(key) {
        PutGet(ClientAttrs(init, env).GetOr([]), key[2..], ClientValue(value, env), name);
        assert key == "X-" + key[2..];
        assert key == "X-" + name <==> key[2..] == name;
      } else {
        assert key != "X-" + name;
      }
    }
  }

  predicate DateRangeValid(pairs: Pairs) {
    NonEmpty(Last(pairs, "ID")) && NonEmpty(Last(pairs, "CLASS")) && Last(pairs, "START-DATE").Some?
  }

  /** The decoded record. `DURATION` and `PLANNED-DURATION` are read but the
      returned record does not carry them. */
  function DateRangeOf(pairs: Pairs, env: Env): DateRange
    requires DateRangeValid(pairs)
  {
    DateRange(Last(pairs, "ID").value, Last(pairs, "CLASS").value,
              env.fromIso(Last(pairs, "START-DATE").value), None, None,
              ClientAttrs(pairs, env), None, None)
  }

  /** The `EXT-X-DATERANGE` decoder. */
  method DecodeDateRange(pairs: Pairs, env: Env) returns (r: Result<DateRange>)
    ensures r.Ok? <==> DateRangeValid(pairs)
    ensures r.Ok? ==> r.value == DateRangeOf(pairs, env)
  {
    var id: Option<string> := None;
    var classId: Option<string> := None;
    var startDate: Option<DateTime> := None;
    var duration: Option<Num> := None;
    var plannedDuration: Option<Num> := None;
    var clientAttributes: Option<seq<(string, AttrValue)>> := None;
    var i := 0;
    while i < |pairs|
      invariant 0 <= i <= |pairs|
      invariant id == Last(pairs[..i], "ID")
      invariant classId == Last(pairs[..i], "CLASS")
      invariant startDate.Some? == Last(pairs[..i], "START-DATE").Some?
      invariant startDate.Some? ==> startDate.value == env.fromIso(Last(pairs[..i], "START-DATE").value)
      invariant clientAttributes == ClientAttrs(pairs[..i], env)
    {
      var (key, value) := pairs[i];
      assert pairs[..i + 1][..i] == pairs[..i];
      if key == "ID" {
        id := Some(value);
      } else if key == "CLASS" {
        classId := Some(value);
      } else if key == "START-DATE" {
        startDate := Some(env.fromIso(value));
      } else if key == "DURATION" {
        duration := Some(env.parseFloat(value));
      } else if key == "PLANNED-DURATION" {
        plannedDuration := Some(env.parseFloat(value));
      } else if IsClientKey(key) {
        var record := if clientAttributes.Some? then clientAttributes.value else [];
        clientAttributes := Some(Put(record, key[2..], ClientValue(value, env)));
      }
      i := i + 1;
    }
    assert pairs[..i] == pairs;
    if !NonEmpty(id) {
      return Err("EXT-X-DATERANGE: no id");
    }
    if !NonEmpty(classId) {
      return Err("EXT-X-DATERANGE: no classId");
    }
    if startDate.None? {
      return Err("EXT-X-DATERANGE: no startDate");
    }
    r := Ok(DateRange(id.value, classId.value, startDate.value, None, None, clientAttributes, None, None));
  }

  // ---------------------------------------------------------------------------
  // EXT-X-DEFINE, EXT-X-CUE-OUT, EXT-X-KEY

  /** The `EXT-X-DEFINE` decoder, which never fails. */
  method DecodeDefine(pairs: Pairs) returns (d: Define)
    ensures d == Define(Last(pairs, "NAME"), Last(pairs, "VALUE"), Last(pairs, "IMPORT"))
  {
    var name: Option<string> := None;
    var value: Option<string> := None;
    var importName: Option<string> := None;
    var i := 0;
    while i < |pairs|
      invariant 0 <= i <= |pairs|
      invariant name == Last(pairs[..i], "NAME")
      invariant value == Last(pairs[..i], "VALUE")
      invariant importName == Last(pairs[..i], "IMPORT")
    {
      assert pairs[..i + 1][..i] == pairs[..i];
      if pairs[i].0 == "NAME" {
        name := Some(pairs[i].1);
      } else if pairs[i].0 == "VALUE" {
        value := Some(pairs[i].1);
      } else if pairs[i].0 == "IMPORT" {
        importName := Some(pairs[i].1);
      }
      i := i + 1;
    }
    assert pairs[..i] == pairs;
    d := Define(name, value, importName);
  }

  /** An `EXT-X-CUE-OUT` parameter decodes when it is itself a number (any
      number, zero included), or else when its last `DURATION` attribute is a
      truthy number. */
  predicate CueOutValid(param: string, env: Env) {
    env.parseFloat(param) != NaN || TruthyOpt(NumOf(Last(env.attributes(param), "DURATION"), env))
  }

  function CueOutOf(param: string, env: Env): Num
    requires CueOutValid(param, env)
  {
    if env.parseFloat(param) != NaN then env.parseFloat(param)
    else NumOf(Last(env.attributes(param), "DURATION"), env).value
  }

  /** The `EXT-X-CUE-OUT` decoder. */
  method DecodeCueOut(param: string, env: Env) returns (r: Result<Num>)
    ensures r.Ok? <==> CueOutValid(param, env)
    ensures r.Ok? ==> r.value == CueOutOf(param, env)
  {
    var asNumber := env.parseFloat(param);
    if asNumber != NaN {
      return Ok(asNumber);
    }
    var pairs := env.attributes(param);
    var duration: Option<Num> := None;
    var i := 0;
    while i < |pairs|
      invariant 0 <= i <= |pairs|
      invariant duration == NumOf(Last(pairs[..i], "DURATION"), env)
    {
      assert pairs[..i + 1][..i] == pairs[..i];
      if pairs[i].0 == "DURATION" {
        duration := Some(env.parseFloat(pairs[i].1));
      }
      i := i + 1;
    }
    assert pairs[..i] == pairs;
    if !TruthyOpt(duration) {
      return Err("EXT-X-CUE-OUT: no duration");
    }
    r := Ok(duration.value);
  }

  predicate IVsOk(pairs: Pairs, env: Env) {
    forall i :: 0 <= i < |pairs| && pairs[i].0 == "IV" ==> ParseIV(pairs[i].1, env).Ok?
  }

  function LastIV(pairs: Pairs, env: Env): (r: Option<seq<bv8>>)
    requires IVsOk(pairs, env)
    ensures r.Some? ==> |r.value| == 16
  {
    var v := Last(pairs, "IV");
    LastIsLastPair(pairs, "IV");
    if v.Some? then Some(ParseIV(v.value, env).value) else None
  }

  /** An `EXT-X-KEY` attribute list decodes when every `IV` is 16 bytes and the
      last `METHOD` is non-empty. */
  predicate KeyValid(pairs: Pairs, env: Env) {
    IVsOk(pairs, env) && NonEmpty(Last(pairs, "METHOD"))
  }

  function KeyOf(pairs: Pairs, env: Env, ref: nat): HLSKey
    requires KeyValid(pairs, env)
  {
    HLSKey(ref, Last(pairs, "METHOD").value, Last(pairs, "URI"), LastIV(pairs, env),
           Last(pairs, "KEYFORMAT"), Last(pairs, "KEYFORMATVERSION"))
  }

  /** The `EXT-X-KEY` decoder; the key's identity is its position `ref`. */
  method DecodeKey(pairs: Pairs, env: Env, ref: nat) returns (r: Result<HLSKey>)
    ensures r.Ok? <==> KeyValid(pairs, env)
    ensures r.Ok? ==> r.value == KeyOf(pairs, env, ref)
  {
    var keyMethod: Option<string> := None;
    var uri: Option<string> := None;
    var format: Option<string> := None;
    var formatVersion: Option<string> := None;
    var iv: Option<seq<bv8>> := None;
    var i := 0;
    while i < |pairs|
      invariant 0 <= i <= |pairs|
      invariant IVsOk(pairs[..i], env)
      invariant keyMethod == Last(pairs[..i], "METHOD")
      invariant uri == Last(pairs[..i], "URI")
      invariant format == Last(pairs[..i], "KEYFORMAT")
      invariant formatVersion == Last(pairs[..i], "KEYFORMATVERSION")
      invariant iv == LastIV(pairs[..i], env)
    {
      var (key, value) := pairs[i];
      assert pairs[..i + 1][..i] == pairs[..i];
      if key == "METHOD" {
        keyMethod := Some(value);
      } else if key == "URI" {
        uri := Some(value);
      } else if key == "KEYFORMAT" {
        format := Some(value);
      } else if key == "KEYFORMATVERSION" {
        formatVersion := Some(value);
      } else if key == "IV" {
        var bytes := ParseIV(value, env);
        if bytes.Err? {
          return Err(bytes.msg);
        }
        iv := Some(bytes.value);
      }
      i := i + 1;
    }
    assert pairs[..i] == pairs;
    if !NonEmpty(keyMethod) {
      return Err("EXT-X-KEY: no method");
    }
    r := Ok(HLSKey(ref, keyMethod.value, uri, iv, format, formatVersion));
  }

  // ---------------------------------------------------------------------------
  // parseLine

  /** The tag names `parseLine` recognises. */
  datatype TagName =
    | NExtM3u | NDiscontinuity | NEndlist | NIFramesOnly | NIndependentSegments | NCueIn
    | NVersion | NTargetDuration | NMediaSequence | NDiscontinuitySequence
    | NProgramDateTime | NPlaylistType | NExtInf | NStreamInf | NMedia | NMap | NDateRange
    | NDefine | NCueOut | NKey
  {
    /** The tags that take no parameter. */
    predicate IsEmpty() {
      NExtM3u? || NDiscontinuity? || NEndlist? || NIFramesOnly? || NIndependentSegments? || NCueIn?
    }

    /** The tags whose parameter is a number. */
    predicate IsNumber() {
      NVersion? || NTargetDuration? || NMediaSequence? || NDiscontinuitySequence?
    }
  }

  /** The recognised tag named `name`, if any. */
  function TagNameOf(name: string): Option<TagName> {
    match name
    case "EXTM3U" => Some(NExtM3u)
    case "EXT-X-DISCONTINUITY" => Some(NDiscontinuity)
    case "EXT-X-ENDLIST" => Some(NEndlist)
    case "EXT-X-I-FRAMES-ONLY" => Some(NIFramesOnly)
    case "EXT-X-INDEPENDENT-SEGMENTS" => Some(NIndependentSegments)
    case "EXT-X-CUE-IN" => Some(NCueIn)
    case "EXT-X-VERSION" => Some(NVersion)
    case "EXT-X-TARGETDURATION" => Some(NTargetDuration)
    case "EXT-X-MEDIA-SEQUENCE" => Some(NMediaSequence)
    case "EXT-X-DISCONTINUITY-SEQUENCE" => Some(NDiscontinuitySequence)
    case "EXT-X-PROGRAM-DATE-TIME" => Some(NProgramDateTime)
    case "EXT-X-PLAYLIST-TYPE" => Some(NPlaylistType)
    case "EXTINF" => Some(NExtInf)
    case "EXT-X-STREAM-INF" => Some(NStreamInf)
    case "EXT-X-MEDIA" => Some(NMedia)
    case "EXT-X-MAP" => Some(NMap)
    case "EXT-X-DATERANGE" => Some(NDateRange)
    case "EXT-X-DEFINE" => Some(NDefine)
    case "EXT-X-CUE-OUT" => Some(NCueOut)
    case "EXT-X-KEY" => Some(NKey)
    case _ => None
  }

  function EmptyTag(kind: TagName): Tag
    requires kind.IsEmpty()
  {
    match kind
    case NExtM3u => ExtM3u
    case NDiscontinuity => Discontinuity
    case NEndlist => Endlist
    case NIFramesOnly => IFramesOnly
    case NIndependentSegments => IndependentSegments
    case NCueIn => CueIn
  }

  function NumberTag(kind: TagName, n: Num): Tag
    requires kind.IsNumber()
  {
    match kind
    case NVersion => Version(n)
    case NTargetDuration => TargetDuration(n)
    case NMediaSequence => MediaSequence(n)
    case NDiscontinuitySequence => DiscontinuitySequence(n)
  }

  /** The decoded tag of a recognised tag that takes a (non-empty) parameter. */
  function ParamTag(kind: TagName, p: string, env: Env, ref: nat): (r: Result<Tag>)
    requires !kind.IsEmpty()
    ensures r.Ok? ==> !r.value.Literal?
    ensures r.Ok? && r.value.MapTag? ==> r.value.hlsMap.ref == ref
    ensures r.Ok? && r.value.KeyTag? ==> r.value.key.ref == ref
  {
    match kind
    case NVersion | NTargetDuration | NMediaSequence | NDiscontinuitySequence =>
      Ok(NumberTag(kind, env.parseFloat(p)))
    case NProgramDateTime => Ok(ProgramDateTime(env.fromIso(p)))
    case NPlaylistType =>
      if p == "EVENT" then Ok(PlaylistTypeTag(Event))
      else if p == "VOD" then Ok(PlaylistTypeTag(Vod))
      else Err("EXT-X-PLAYLIST-TYPE: param must be EVENT or VOD")
    case NExtInf =>
      var chunks := Split(p, ',');
      if chunks[0] == "" then Err("EXTINF: no duration in param") else Ok(ExtInf(env.parseFloat(chunks[0])))
    case NStreamInf =>
      var pairs := env.attributes(p);
      if StreamInfValid(pairs, env) then Ok(StreamInfTag(StreamInfOf(pairs, env))) else Err("EXT-X-STREAM-INF")
    case NMedia =>
      var pairs := env.attributes(p);
      if MediaValid(pairs) then Ok(MediaTag(MediaOf(pairs))) else Err("EXT-X-MEDIA")
    case NMap =>
      var uri := Last(env.attributes(p), "URI");
      if NonEmpty(uri) then Ok(MapTag(HLSMap(ref, uri.value))) else Err("EXT-X-MAP: no uri")
    case NDateRange =>
      var pairs := env.attributes(p);
      if DateRangeValid(pairs) then Ok(DateRangeTag(DateRangeOf(pairs, env))) else Err("EXT-X-DATERANGE")
    case NDefine =>
      var pairs := env.attributes(p);
      Ok(DefineTag(Define(Last(pairs, "NAME"), Last(pairs, "VALUE"), Last(pairs, "IMPORT"))))
    case NCueOut =>
      if CueOutValid(p, env) then Ok(CueOut(CueOutOf(p, env))) else Err("EXT-X-CUE-OUT: no duration")
    case NKey =>
      var pairs := env.attributes(p);
      if KeyValid(pairs, env) then Ok(KeyTag(KeyOf(pairs, env, ref))) else Err("EXT-X-KEY")
  }

  /** What `parseLine` makes of a tag line: `Ok(None)` for an unknown tag, an
      error when a tag that needs a parameter has none or its decoder rejects
      it. A map or key decoded here gets the identity `ref`. */
  function LineTag(line: string, env: Env, ref: nat): (r: Result<Option<Tag>>)
    ensures TagNameOf(SplitLine(line).0).None? ==> r == Ok(None)
    ensures r.Ok? && r.value.Some? ==> !r.value.value.Literal?
    ensures r.Ok? && r.value.Some? && r.value.value.MapTag? ==> r.value.value.hlsMap.ref == ref
    ensures r.Ok? && r.value.Some? && r.value.value.KeyTag? ==> r.value.value.key.ref == ref
  {
    var (name, param) := SplitLine(line);
    var kind := TagNameOf(name);
    if kind.None? then Ok(None)
    else if kind.value.IsEmpty() then Ok(Some(EmptyTag(kind.value)))
    else if !NonEmpty(param) then Err(name + ": no param")
    else
      var t := ParamTag(kind.value, param.value, env, ref);
      if t.Ok? then Ok(Some(t.value)) else Err(t.msg)
  }

  /** `parseLine` for a tag that takes a parameter: the decoder of the tag. */
  method DecodeParam(kind: TagName, p: string, env: Env, ref: nat) returns (r: Result<Tag>)
    requires !kind.IsEmpty()
    ensures Agrees(r, ParamTag(kind, p, env, ref))
  {
    match kind {
      case NVersion | NTargetDuration | NMediaSequence | NDiscontinuitySequence =>
        r := Ok(NumberTag(kind, env.parseFloat(p)));
      case NProgramDateTime =>
        r := Ok(ProgramDateTime(env.fromIso(p)));
      case NPlaylistType =>
        if p == "EVENT" {
          r := Ok(PlaylistTypeTag(Event));
        } else if p == "VOD" {
          r := Ok(PlaylistTypeTag(Vod));
        } else {
          r := Err("EXT-X-PLAYLIST-TYPE: param must be EVENT or VOD");
        }
      case NExtInf =>
        var chunks := Split(p, ',');
        if chunks[0] == "" {
          r := Err("EXTINF: no duration in param");
        } else {
          r := Ok(ExtInf(env.parseFloat(chunks[0])));
        }
      case NStreamInf =>
        var s := DecodeStreamInf(env.attributes(p), env);
        r := if s.Ok? then Ok(StreamInfTag(s.value)) else Err(s.msg);
      case NMedia =>
        var m := DecodeMedia(env.attributes(p));
        r := if m.Ok? then Ok(MediaTag(m.value)) else Err(m.msg);
      case NMap =>
        var m := DecodeMap(env.attributes(p), ref);
        r := if m.Ok? then Ok(MapTag(m.value)) else Err(m.msg);
      case NDateRange =>
        var d := DecodeDateRange(env.attributes(p), env);
        r := if d.Ok? then Ok(DateRangeTag(d.value)) else Err(d.msg);
      case NDefine =>
        var d := DecodeDefine(env.attributes(p));
        r := Ok(DefineTag(d));
      case NCueOut =>
        var c := DecodeCueOut(p, env);
        r := if c.Ok? then Ok(CueOut(c.value)) else Err(c.msg);
      case NKey =>
        var k := DecodeKey(env.attributes(p), env, ref);
        r := if k.Ok? then Ok(KeyTag(k.value)) else Err(k.msg);
    }
  }

  /** `parseLine`: split the line, then dispatch on the tag name. */
  method ParseLine(line: string, env: Env, ref: nat) returns (r: Result<Option<Tag>>)
    ensures Agrees(r, LineTag(line, env, ref))
  {
    var (name, param) := SplitLine(line);
    var kind := TagNameOf(name);
    if kind.None? {
      return Ok(None);
    }
    if kind.value.IsEmpty() {
      return Ok(Some(EmptyTag(kind.value)));
    }
    if !NonEmpty(param) {
      return Err(name + ": no param");
    }
    var t := DecodeParam(kind.value, param.value, env, ref);
    r := if t.Ok? then Ok(Some(t.value)) else Err(t.msg);
  }

  // ---------------------------------------------------------------------------
  // lexicalParse

  /** What one input line contributes, given the number of tags before it. */
  function LexLine(line: string, env: Env, ref: nat): Result<Option<Tag>> {
    var t := Trim(line);
    if t == "" then Ok(None)
    else if t[0] == '#' then
      if StartsWith(t, "#EXT") then LineTag(t, env, ref) else Ok(None)
    else Ok(Some(Literal(t)))
  }

  /** The tags of a list of lines, in line order; the first failing line fails
      the whole list. */
  function LexLines(lines: seq<string>, env: Env): (r: Result<seq<Tag>>)
    ensures r.Ok? ==> |r.value| <= |lines|
  {
    if lines == [] then Ok([])
    else
      var prev := LexLines(lines[..|lines| - 1], env);
      if prev.Err? then prev
      else
        var tag := LexLine(lines[|lines| - 1], env, |prev.value|);
        if tag.Err? then Err(tag.msg)
        else if tag.value.Some? then Ok(prev.value + [tag.value.value])
        else prev
  }

  /** `lexicalParse`: the tags of the text's lines; a text without any tag is
      an error. */
  function Lex(text: string, env: Env): (r: Result<seq<Tag>>)
    ensures r.Ok? ==> |r.value| > 0
  {
    var tags := LexLines(Split(text, '\n'), env);
    if tags.Err? then tags
    else if tags.value == [] then Err("lexicalParse: no tags")
    else tags
  }

  /** A failing line fails every longer list of lines. */
  lemma {:induction false} LexLinesErrStays(lines: seq<string>, env: Env, k: nat)
    requires k <= |lines| && LexLines(lines[..k], env).Err?
    ensures LexLines(lines, env).Err?
    decreases |lines|
  {
    if k < |lines| {
      assert lines[..|lines| - 1][..k] == lines[..k];
      LexLinesErrStays(lines[..|lines| - 1], env, k);
    } else {
      assert lines[..k] == lines;
    }
  }

  /** One more line: its tag, if any, is pushed, and its failure fails all. */
  lemma LexLinesStep(lines: seq<string>, env: Env, i: nat, tags: seq<Tag>)
    requires i < |lines| && LexLines(lines[..i], env) == Ok(tags)
    ensures var tag := LexLine(lines[i], env, |tags|);
            LexLines(lines[..i + 1], env)
            == if tag.Err? then Err(tag.msg) else if tag.value.Some? then Ok(tags + [tag.value.value]) else Ok(tags)
  {
    assert lines[..i + 1][..i] == lines[..i];
  }

  /** The lexer loop: one pass over the lines, pushing each line's tag. */
  method LexicalParse(text: string, env: Env) returns (r: Result<seq<Tag>>)
    ensures Agrees(r, Lex(text, env))
  {
    var lines := Split(text, '\n');
    var tags: seq<Tag> := [];
    var i := 0;
    while i < |lines|
      invariant 0 <= i <= |lines|
      invariant LexLines(lines[..i], env) == Ok(tags)
    {
      LexLinesStep(lines, env, i, tags);
      var line := Trim(lines[i]);
      if line != "" {
        if line[0] == '#' {
          if StartsWith(line, "#EXT") {
            var tag := ParseLine(line, env, |tags|);
            if tag.Err? {
              LexLinesErrStays(lines, env, i + 1);
              return Err(tag.msg);
            }
            if tag.value.Some? {
              tags := tags + [tag.value.value];
            }
          }
        } else {
          tags := tags + [Literal(line)];
        }
      }
      i := i + 1;
    }
    assert lines[..i] == lines;
    if tags == [] {
      return Err("lexicalParse: no tags");
    }
    r := Ok(tags);
  }

  // ---------------------------------------------------------------------------
  // Properties of the lexer

  /** The texts of the literal tags, in order. */
  function Literals(tags: seq<Tag>): seq<string> {
    if tags == [] then []
    else Literals(tags[..|tags| - 1]) + (if tags[|tags| - 1].Literal? then [tags[|tags| - 1].text] else [])
  }

  /** A line is a literal when, trimmed, it is non-empty and not a `#` line. */
  predicate IsLiteralLine(line: string) {
    Trim(line) != "" && Trim(line)[0] != '#'
  }

  /** The trimmed literal lines of the input, in order. */
  function LiteralLines(lines: seq<string>): (r: seq<string>)
    ensures forall k :: 0 <= k < |r| ==>
              r[k] != "" && r[k][0] != '#' && !IsWhitespace(r[k][0]) && !IsWhitespace(r[k][|r[k]| - 1])
  {
    if lines == [] then []
    else LiteralLines(lines[..|lines| - 1])
         + (if IsLiteralLine(lines[|lines| - 1]) then [Trim(lines[|lines| - 1])] else [])
  }

  /** The literal tags are exactly the literal lines: each is a trimmed,
      non-empty line not starting with `#`, and they keep the input order. */
  lemma {:induction false} LexLiterals(lines: seq<string>, env: Env)
    requires LexLines(lines, env).Ok?
    ensures Literals(LexLines(lines, env).value) == LiteralLines(lines)
  {
    if lines != [] {
      var init := lines[..|lines| - 1];
      LexLiterals(init, env);
      var prev := LexLines(init, env).value;
      var t := Trim(lines[|lines| - 1]);
      var tag := LexLine(lines[|lines| - 1], env, |prev|);
      if tag.value.Some? {
        var tags := prev + [tag.value.value];
        assert tags[..|tags| - 1] == prev;
        assert tag.value.value.Literal? <==> IsLiteralLine(lines[|lines| - 1]);
      } else {
        assert !IsLiteralLine(lines[|lines| - 1]);
      }
    }
  }

  /** Blank lines, comment lines (a `#` not followed by `EXT`) and tag lines
      with an unknown name add no tag. */
  lemma LexLineDropped(line: string, env: Env, ref: nat)
    requires var t := Trim(line);
             t == "" || (t[0] == '#' && (!StartsWith(t, "#EXT") || TagNameOf(SplitLine(t).0).None?))
    ensures LexLine(line, env, ref) == Ok(None)
  {
  }

  /** Every map and key tag's identity is its own position in the output, so
      distinct map and key tags have distinct identities. */
  lemma {:induction false} RefsArePositions(lines: seq<string>, env: Env)
    requires LexLines(lines, env).Ok?
    ensures var tags := LexLines(lines, env).value;
            forall i :: 0 <= i < |tags| ==>
              (tags[i].MapTag? ==> tags[i].hlsMap.ref == i) && (tags[i].KeyTag? ==> tags[i].key.ref == i)
  {
    if lines != [] {
      var init := lines[..|lines| - 1];
      RefsArePositions(init, env);
      var prev := LexLines(init, env).value;
      var tag := LexLine(lines[|lines| - 1], env, |prev|);
      if tag.value.Some? {
        var tags := prev + [tag.value.value];
        assert forall i :: 0 <= i < |prev| ==> tags[i] == prev[i];
      }
    }
  }
}
