/** The OpenAI chat-completions client: the request it sends and the text it
    reads from the response. */
module OpenAiClient {
  import opened Values
  import opened Text
  import opened BaseClient

  const DefaultEndpoint: string := "https://api.openai.com/v1/chat/completions"
  const DefaultModel: string := "gpt-4o-mini"
  const DefaultMaxTokens: int := 120
  const SystemText: string := "You write concise, accessible alt text."
  const MissingKey: string := "OpenAI API key is missing."

  /** Where the answer sits in the response: `choices[0].message.content`. */
  const ReplyPath: seq<PathStep> := [Key("choices"), At(0), Key("message"), Key("content")]

  function Message(role: string, content: Value): Value {
    Obj([("role", Str(role)), ("content", content)])
  }

  /** The `image_url` part both image kinds are sent as. */
  function ImagePart(url: string): Value {
    Obj([("type", Str("image_url")), ("image_url", Obj([("url", Str(url)), ("detail", Str("auto"))]))])
  }

  function TextPart(prompt: string): Value {
    Obj([("type", Str("text")), ("text", Str(prompt))])
  }

  /** `buildMessages($prompt, $image)`: a system and a user message; with no
      image the user content is the prompt itself, with one it is a list of
      the text part and, for a `base64` or `url` image, one `image_url` part
      carrying the image's value. */
  function BuildMessages(prompt: string, image: Option<Image>): (r: Value)
    ensures r.List? && |r.items| == 2 && r.items[0] == Message("system", Str(SystemText))
    ensures image.None? ==> r.items[1] == Message("user", Str(prompt))
    ensures image.Some? && (image.value.kind == "base64" || image.value.kind == "url") ==>
              r.items[1] == Message("user", List([TextPart(prompt), ImagePart(image.value.value)]))
    ensures image.Some? && image.value.kind != "base64" && image.value.kind != "url" ==>
              r.items[1] == Message("user", List([TextPart(prompt)]))
  {
    if image.None? then
      List([Message("system", Str(SystemText)), Message("user", Str(prompt))])
    else
      var content := [TextPart(prompt)];
      var content := if image.value.kind == "base64" then content + [ImagePart(image.value.value)]
                     else if image.value.kind == "url" then content + [ImagePart(image.value.value)]
                     else content;
      assert [TextPart(prompt)] + [ImagePart(image.value.value)] == [TextPart(prompt), ImagePart(image.value.value)];
      List([Message("system", Str(SystemText)), Message("user", List(content))])
  }

  /** The request `generateAltText` posts, or the exception it throws when
      the API key is empty or missing (before anything is sent). The float
      `temperature` of the body is not modelled. */
  function Request(c: Client, prompt: string, options: Options): (r: Outcome<HttpRequest>)
    ensures !Truthy(GetConfig(c, "api_key", Null)) <==> r.Thrown?
    ensures r.Thrown? ==> r.error == Exception(Runtime, MissingKey, 0)
    ensures r.Ok? ==>
      && r.value.endpoint == GetConfig(c, "endpoint", Str(DefaultEndpoint))
      && r.value.timeout == Timeout
      && Lookup(r.value.headers, "Authorization") == Some(Str("Bearer " + ToStr(GetConfig(c, "api_key", Null))))
      && Get(r.value.json, "model") == Some(GetConfig(c, "model", Str(DefaultModel)))
      && Get(r.value.json, "messages") == Some(BuildMessages(prompt, options.image))
      && Get(r.value.json, "max_tokens") ==
           Some(if options.maxTokens != Null then options.maxTokens
                else GetConfig(c, "max_tokens", Int(DefaultMaxTokens)))
  {
    var apiKey := GetConfig(c, "api_key", Null);
    if !Truthy(apiKey) then Thrown(Exception(Runtime, MissingKey, 0))
    else
      var headers := [("Authorization", Str("Bearer " + ToStr(apiKey))), ("Content-Type", Str("application/json"))];
      var maxTokens := if options.maxTokens != Null then options.maxTokens
                       else GetConfig(c, "max_tokens", Int(DefaultMaxTokens));
      var json := Obj([("model", GetConfig(c, "model", Str(DefaultModel))),
                       ("messages", BuildMessages(prompt, options.image)),
                       ("max_tokens", maxTokens)]);
      LookupAt(json.fields, 1);
      LookupAt(json.fields, 2);
      Ok(Post(GetConfig(c, "endpoint", Str(DefaultEndpoint)), headers, json))
  }

  /** `generateAltText($prompt, $options)` with `send` standing for the
      transport: the key check, then the request, then the trimmed reply
      text, with transport exceptions wrapped. */
  function Generate(c: Client, prompt: string, options: Options, send: HttpRequest -> Outcome<Value>): Outcome<string> {
    match Request(c, prompt, options)
    case Thrown(e) => Thrown(e)
    case Ok(req) =>
      WithExceptionHandling(match send(req) case Thrown(e) => Thrown(e) case Ok(data) => ExtractText(data, ReplyPath))
  }

  /** Without an API key the call fails the same way whatever the transport
      would do: no request is sent. */
  lemma MissingKeyFailsFirst(c: Client, prompt: string, options: Options, send: HttpRequest -> Outcome<Value>)
    requires !Truthy(GetConfig(c, "api_key", Null))
    ensures Generate(c, prompt, options, send) == Thrown(Exception(Runtime, MissingKey, 0))
  {
  }

  /** With a key, the reply is the trimmed `choices[0].message.content` of
      what the transport returns, `""` when that path is absent, and a
      Guzzle exception comes out as a RuntimeException with its message and
      code. */
  lemma GenerateWithKey(c: Client, prompt: string, options: Options, send: HttpRequest -> Outcome<Value>)
    requires Truthy(GetConfig(c, "api_key", Null))
    ensures var req := Request(c, prompt, options).value;
            var out := Generate(c, prompt, options, send);
            && (send(req).Ok? && Walk(send(req).value, ReplyPath).None? ==> out == Ok(""))
            && (send(req).Ok? && Walk(send(req).value, ReplyPath).Some? && Walk(send(req).value, ReplyPath).value.Str? ==>
                  out == Ok(Trim(Walk(send(req).value, ReplyPath).value.s, DefaultTrim)))
            && (send(req).Thrown? && send(req).error.kind == Guzzle ==>
                  out == Thrown(Exception(Runtime, send(req).error.message, send(req).error.code)))
            && (out.Thrown? ==> out.error.kind != Guzzle)
  {
  }
}
