/** What every provider client shares: its name and configuration, the
    lookup of a configuration key with a default, the wrapping of transport
    exceptions, and the shapes of what goes over the wire. The HTTP
    transport itself is a function parameter: it maps the request the client
    builds to the decoded JSON body of the response, or to the exception the
    transport throws. */
module BaseClient {
  import opened Values
  import opened Text

  /** The exception classes the pipeline raises or lets through. */
  datatype ExceptionKind =
    | InvalidArgument   // \InvalidArgumentException
    | Runtime           // \RuntimeException
    | Guzzle            // any GuzzleHttp\Exception\GuzzleException
    | TypeError         // \TypeError raised by a PHP built-in
    | Other             // any other \Throwable from the transport

  datatype Exception = Exception(kind: ExceptionKind, message: string, code: int)

  /** A computation that returns a value or throws. */
  datatype Outcome<T> = Ok(value: T) | Thrown(error: Exception)

  /** The timeout, in seconds, the HTTP client is constructed with. */
  const Timeout: int := 20

  /** A POST request: endpoint, headers and JSON body, sent by an HTTP
      client whose timeout is fixed at construction. */
  datatype HttpRequest = HttpRequest(endpoint: Value, headers: Fields, json: Value, timeout: int)

  /** `new HttpClient(['timeout' => 20])` followed by `->post($endpoint, ...)`. */
  function Post(endpoint: Value, headers: Fields, json: Value): (r: HttpRequest)
    ensures r.endpoint == endpoint && r.headers == headers && r.json == json
    ensures r.timeout == Timeout
  {
    HttpRequest(endpoint, headers, json, Timeout)
  }

  /** An image handed to a client: `['type' => ..., 'value' => ...]`. */
  datatype Image = Image(kind: string, value: string)

  /** The options a client is called with: `max_tokens` and `image`. */
  datatype Options = Options(maxTokens: Value, image: Option<Image>)

  datatype Driver = OpenAi | Anthropic

  /** A constructed client: its driver class, the provider name it was
      created under and that provider's configuration. */
  datatype Client = Client(driver: Driver, name: string, config: Fields)

  /** `new OpenAiClient($name, $config)` / `new AnthropicClient(...)`. */
  function NewClient(driver: Driver, name: string, config: Fields): (c: Client)
    ensures GetName(c) == name && c.config == config && c.driver == driver
  {
    Client(driver, name, config)
  }

  /** `getName()`. */
  function GetName(c: Client): string {
    c.name
  }

  /** `getConfig($key, $default)`: the configured value when the key is
      present and not null, the default otherwise. */
  function GetConfig(c: Client, key: string, default: Value): (r: Value)
    ensures Isset(c.config, key) ==> r == Lookup(c.config, key).value
    ensures !Isset(c.config, key) ==> r == default
  {
    Coalesce(Lookup(c.config, key), default)
  }

  /** `withExceptionHandling($callback)`: the callback's result passes
      through; a Guzzle exception is rethrown as a RuntimeException with the
      same message and code; anything else propagates as it is. */
  function WithExceptionHandling(o: Outcome<string>): (r: Outcome<string>)
    ensures o.Ok? ==> r == o
    ensures o.Thrown? && o.error.kind == Guzzle ==>
              r == Thrown(Exception(Runtime, o.error.message, o.error.code))
    ensures o.Thrown? && o.error.kind != Guzzle ==> r == o
    ensures r.Thrown? ==> r.error.kind != Guzzle
  {
    match o
    case Ok(_) => o
    case Thrown(e) => if e.kind == Guzzle then Thrown(Exception(Runtime, e.message, e.code)) else o
  }

  /** `$a[$i]` on a decoded JSON list (or on an array keyed by `"0"`...). */
  function Index(v: Value, i: nat): Option<Value> {
    if v.List? then (if i < |v.items| then Some(v.items[i]) else None)
    else if v.Obj? then Lookup(v.fields, IntToDecimal(i))
    else None
  }

  /** A read of a nested key path through `??`: missing or null anywhere
      gives `None`. */
  function Walk(v: Value, path: seq<PathStep>): (r: Option<Value>)
    ensures path == [] ==> r == Some(v)
    decreases |path|
  {
    if path == [] then Some(v)
    else
      var next := match path[0] case Key(k) => Get(v, k) case At(i) => Index(v, i);
      if next.None? || next.value == Null then None else Walk(next.value, path[1..])
  }

  datatype PathStep = Key(k: string) | At(i: nat)

  /** `trim($x)` on the value read from a response: strings are trimmed,
      scalars are converted to strings first, and an array raises a type
      error. */
  function TrimValue(v: Value): (r: Outcome<string>)
    ensures v.Str? ==> r == Ok(Trim(v.s, DefaultTrim))
    ensures (v.List? || v.Obj?) <==> r.Thrown?
    ensures r.Thrown? ==> r.error.kind == TypeError
  {
    if v.List? || v.Obj? then
      Thrown(Exception(TypeError, "trim(): Argument #1 ($string) must be of type string, array given", 0))
    else Ok(Trim(ToStr(v), DefaultTrim))
  }

  /** `trim($data[...path...] ?? '')`: the trimmed text at `path`, or `""`
      when the path is absent. */
  function ExtractText(data: Value, path: seq<PathStep>): (r: Outcome<string>)
    ensures Walk(data, path).None? ==> r == Ok("")
    ensures Walk(data, path).Some? ==> r == TrimValue(Walk(data, path).value)
  {
    TrimValue(Coalesce(Walk(data, path), Str("")))
  }
}
