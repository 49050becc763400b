/** The Anthropic messages client: the request it sends and the text it
    reads from the response. */
module AnthropicClient {
  import opened Values
  import opened Text
  import opened BaseClient
  import Base64

  const DefaultEndpoint: string := "https://api.anthropic.com/v1/messages"
  const DefaultModel: string := "claude-3-5-sonnet-latest"
  const DefaultMaxTokens: int := 180
  const ApiVersion: string := "2023-06-01"
  const SystemText: string := "You write concise, accessible alt text. Keep it short."
  const MissingKey: string := "Anthropic API key is missing."

  /** The two data URI prefixes stripped from an inline image. */
  const JpegPrefix: string := "data:image/jpeg;base64,"
  const PngPrefix: string := "data:image/png;base64,"

  /** Where the answer sits in the response: `content[0].text`. */
  const ReplyPath: seq<PathStep> := [Key("content"), At(0), Key("text")]

  function TextPart(prompt: string): Value {
    Obj([("type", Str("text")), ("text", Str(prompt))])
  }

  /** `str_replace([jpeg prefix, png prefix], '', $value)`: each needle in
      turn, over the whole string. */
  function StripDataPrefixes(value: string): string {
    RemoveAll(RemoveAll(value, JpegPrefix), PngPrefix)
  }

  function Base64Part(value: string): Value {
    Obj([("type", Str("image")),
         ("source", Obj([("type", Str("base64")), ("media_type", Str("image/jpeg")),
                         ("data", Str(StripDataPrefixes(value)))]))])
  }

  function UrlPart(url: string): Value {
    Obj([("type", Str("image")), ("source", Obj([("type", Str("url")), ("url", Str(url))]))])
  }

  /** `buildContent($prompt, $image)`: the text part first, then one image
      part for a `base64` or a `url` image and nothing for any other. */
  function BuildContent(prompt: string, image: Option<Image>): (r: seq<Value>)
    ensures |r| >= 1 && r[0] == TextPart(prompt)
    ensures image.None? ==> r == [TextPart(prompt)]
    ensures image.Some? && image.value.kind == "base64" ==> r == [TextPart(prompt), Base64Part(image.value.value)]
    ensures image.Some? && image.value.kind == "url" ==> r == [TextPart(prompt), UrlPart(image.value.value)]
    ensures image.Some? && image.value.kind != "base64" && image.value.kind != "url" ==> r == [TextPart(prompt)]
  {
    var content := [TextPart(prompt)];
    if image.None? then content
    else if image.value.kind == "base64" then content + [Base64Part(image.value.value)]
    else if image.value.kind == "url" then content + [UrlPart(image.value.value)]
    else content
  }

  /** The request headers: the key, the API version, JSON. */
  function Headers(apiKey: Value): (h: Fields)
    ensures Lookup(h, "x-api-key") == Some(apiKey)
    ensures Lookup(h, "anthropic-version") == Some(Str(ApiVersion))
  {
    var h := [("x-api-key", apiKey), ("anthropic-version", Str(ApiVersion)), ("Content-Type", Str("application/json"))];
    LookupAt(h, 1);
    h
  }

  /** The request body: model, token limit, the fixed system text and one
      user message with the content parts. */
  function Body(model: Value, maxTokens: Value, content: seq<Value>): (j: Value)
    ensures Get(j, "model") == Some(model) && Get(j, "max_tokens") == Some(maxTokens)
    ensures Get(j, "system") == Some(Str(SystemText))
    ensures Get(j, "messages") == Some(List([Obj([("role", Str("user")), ("content", List(content))])]))
  {
    var messages := List([Obj([("role", Str("user")), ("content", List(content))])]);
    var fs := [("model", model), ("max_tokens", maxTokens), ("system", Str(SystemText)), ("messages", messages)];
    LookupAt(fs, 1);
    LookupAt(fs, 2);
    LookupAt(fs, 3);
    Obj(fs)
  }

  /** The request `generateAltText` posts, or the exception it throws when
      the API key is empty or missing (before anything is sent). */
  function Request(c: Client, prompt: string, options: Options): (r: Outcome<HttpRequest>)
    ensures !Truthy(GetConfig(c, "api_key", Null)) <==> r.Thrown?
    ensures r.Thrown? ==> r.error == Exception(Runtime, MissingKey, 0)
    ensures r.Ok? ==>
      && r.value.endpoint == GetConfig(c, "endpoint", Str(DefaultEndpoint))
      && r.value.timeout == Timeout
      && Lookup(r.value.headers, "x-api-key") == Some(GetConfig(c, "api_key", Null))
      && Lookup(r.value.headers, "anthropic-version") == Some(Str(ApiVersion))
      && Get(r.value.json, "model") == Some(GetConfig(c, "model", Str(DefaultModel)))
      && Get(r.value.json, "max_tokens") ==
           Some(if options.maxTokens != Null then options.maxTokens
                else GetConfig(c, "max_tokens", Int(DefaultMaxTokens)))
      && Get(r.value.json, "system") == Some(Str(SystemText))
      && Get(r.value.json, "messages") ==
           Some(List([Obj([("role", Str("user")), ("content", List(BuildContent(prompt, options.image)))])]))
  {
    var apiKey := GetConfig(c, "api_key", Null);
    if !Truthy(apiKey) then Thrown(Exception(Runtime, MissingKey, 0))
    else
      var maxTokens := if options.maxTokens != Null then options.maxTokens
                       else GetConfig(c, "max_tokens", Int(DefaultMaxTokens));
      var json := Body(GetConfig(c, "model", Str(DefaultModel)), maxTokens, BuildContent(prompt, options.image));
      Ok(Post(GetConfig(c, "endpoint", Str(DefaultEndpoint)), Headers(apiKey), json))
  }

  /** `generateAltText($prompt, $options)` with `send` standing for the
      transport. */
  function Generate(c: Client, prompt: string, options: Options, send: HttpRequest -> Outcome<Value>): Outcome<string> {
    match Request(c, prompt, options)
    case Thrown(e) => Thrown(e)
    case Ok(req) =>
      WithExceptionHandling(match send(req) case Thrown(e) => Thrown(e) case Ok(data) => ExtractText(data, ReplyPath))
  }

  /** Without an API key the call fails the same way whatever the transport
      would do: no request is sent. */
  lemma MissingKeyFailsFirst(c: Client, prompt: string, options: Options, send: HttpRequest -> Outcome<Value>)
    requires !Truthy(GetConfig(c, "api_key", Null))
    ensures Generate(c, prompt, options, send) == Thrown(Exception(Runtime, MissingKey, 0))
  {
  }

  /** With a key, the reply is the trimmed `content[0].text` of what the
      transport returns, `""` when that path is absent, and a Guzzle
      exception comes out as a RuntimeException with its message and code. */
  lemma GenerateWithKey(c: Client, prompt: string, options: Options, send: HttpRequest -> Outcome<Value>)
    requires Truthy(GetConfig(c, "api_key", Null))
    ensures var req := Request(c, prompt, options).value;
            var out := Generate(c, prompt, options, send);
            && (send(req).Ok? && Walk(send(req).value, ReplyPath).None? ==> out == Ok(""))
            && (send(req).Ok? && Walk(send(req).value, ReplyPath).Some? && Walk(send(req).value, ReplyPath).value.Str? ==>
                  out == Ok(Trim(Walk(send(req).value, ReplyPath).value.s, DefaultTrim)))
            && (send(req).Thrown? && send(req).error.kind == Guzzle ==>
                  out == Thrown(Exception(Runtime, send(req).error.message, send(req).error.code)))
            && (out.Thrown? ==> out.error.kind != Guzzle)
  {
  }

  // ---------------------------------------------------------------------------
  // What `data` holds for the data URIs the inline image path produces.

  /** In a data URI whose media type has no `:` the only `:` is the one
      after `data`, so a needle with a `:` at index 4 can only occur at the
      start. */
  lemma OnlyAtStart(mime: string, b: seq<Base64.byte>, needle: string)
    requires ':' !in mime && |needle| > 4 && needle[4] == ':'
    ensures var s := Base64.DataUri(mime, b);
            forall i :: 0 < i < |s| ==> !(needle <= s[i..])
  {
    var s := Base64.DataUri(mime, b);
    var e := Base64.Encode(b);
    Base64.EncodeAlphabet(b);
    forall i | 0 < i < |s| ensures !(needle <= s[i..]) {
      if i + 4 < |s| {
        assert s[i + 4] != ':' by {
          if i + 4 < 5 + |mime| {
            assert s[i + 4] == mime[i - 1];
          } else if i + 4 < 13 + |mime| {
            assert s[i + 4] == (";base64,")[i + 4 - 5 - |mime|];
          } else {
            assert s[i + 4] == e[i + 4 - 13 - |mime|];
          }
        }
        assert s[i..][4] == s[i + 4];
      }
    }
  }

  /** No `:` occurs in base 64 text. */
  lemma NoColonInEncoding(b: seq<Base64.byte>)
    ensures ':' !in Base64.Encode(b)
  {
    Base64.EncodeAlphabet(b);
  }

  /** A JPEG data URI is sent as its bare base 64 text. */
  lemma JpegDataIsPayload(b: seq<Base64.byte>)
    ensures StripDataPrefixes(Base64.DataUri("image/jpeg", b)) == Base64.Encode(b)
  {
    var e := Base64.Encode(b);
    assert Base64.DataUri("image/jpeg", b) == JpegPrefix + e;
    RemoveAllPrefix(JpegPrefix, e);
    NoColonInEncoding(b);
    RemoveAllAbsent(e, JpegPrefix, ':');
    RemoveAllAbsent(e, PngPrefix, ':');
  }

  /** A PNG data URI is sent as its bare base 64 text (still labelled
      `image/jpeg`). */
  lemma PngDataIsPayload(b: seq<Base64.byte>)
    ensures StripDataPrefixes(Base64.DataUri("image/png", b)) == Base64.Encode(b)
  {
    var s := Base64.DataUri("image/png", b);
    var e := Base64.Encode(b);
    NoJpegPrefixInPng(b);
    assert RemoveAll(s, JpegPrefix) == s;
    PngPrefixRemoved(b);
    assert RemoveAll(s, PngPrefix) == e;
  }

  lemma PngPrefixRemoved(b: seq<Base64.byte>)
    ensures RemoveAll(Base64.DataUri("image/png", b), PngPrefix) == Base64.Encode(b)
  {
    var e := Base64.Encode(b);
    assert Base64.DataUri("image/png", b) == PngPrefix + e;
    RemoveAllPrefix(PngPrefix, e);
    NoColonInEncoding(b);
    RemoveAllAbsent(e, PngPrefix, ':');
  }

  lemma NoJpegPrefixInPng(b: seq<Base64.byte>)
    ensures RemoveAll(Base64.DataUri("image/png", b), JpegPrefix) == Base64.DataUri("image/png", b)
  {
    assert JpegPrefix == "data:" + "image/jpeg" + ";base64,";
    assert "image/png"[6] != "image/jpeg"[6];
    PrefixKept("image/png", b, "image/jpeg");
  }

  /** Any other media type (without `:` or `,`) is sent as the whole data
      URI, prefix included. */
  lemma OtherDataIsWholeUri(mime: string, b: seq<Base64.byte>)
    requires mime != "image/jpeg" && mime != "image/png"
    requires ':' !in mime && ',' !in mime
    ensures StripDataPrefixes(Base64.DataUri(mime, b)) == Base64.DataUri(mime, b)
  {
    assert JpegPrefix == "data:" + "image/jpeg" + ";base64," && PngPrefix == "data:" + "image/png" + ";base64,";
    PrefixKept(mime, b, "image/jpeg");
    PrefixKept(mime, b, "image/png");
  }

  /** The prefix for another media type occurs nowhere in a data URI, so
      removing it changes nothing. */
  lemma PrefixKept(mime: string, b: seq<Base64.byte>, other: string)
    requires mime != other && ':' !in mime && ',' !in mime && ',' !in other
    ensures RemoveAll(Base64.DataUri(mime, b), "data:" + other + ";base64,") == Base64.DataUri(mime, b)
  {
    var s := Base64.DataUri(mime, b);
    var needle := "data:" + other + ";base64,";
    assert needle[4] == ':';
    OnlyAtStart(mime, b, needle);
    NotAtStart(mime, b, other);
    assert s[0..] == s;
    RemoveAllNoMatch(s, needle);
  }

  /** The prefix for media type `other` (no `,` in it) starts a data URI
      only for that same media type: the first `,` of each sits right after
      its media type. */
  lemma NotAtStart(mime: string, b: seq<Base64.byte>, other: string)
    requires mime != other && ',' !in mime && ',' !in other
    ensures !(("data:" + other + ";base64,") <= Base64.DataUri(mime, b))
  {
    var s := Base64.DataUri(mime, b);
    var n := "data:" + other + ";base64,";
    var j: nat;
    if |other| < |mime| {
      j := 5 + |other| + 7;
      assert n[j] == ',';
      if j < 5 + |mime| {
        assert s[j] == mime[j - 5];
      } else {
        assert s[j] == (";base64,")[j - 5 - |mime|];
      }
    } else if |other| > |mime| {
      j := 5 + |mime| + 7;
      assert s[j] == ',';
      if j < 5 + |other| {
        assert n[j] == other[j - 5];
      } else {
        assert n[j] == (";base64,")[j - 5 - |other|];
      }
    } else {
      var k :| 0 <= k < |mime| && mime[k] != other[k];
      j := 5 + k;
      assert s[j] == mime[k] && n[j] == other[k];
    }
    assert j < |n| && j < |s| && n[j] != s[j];
  }
}
