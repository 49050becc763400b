/** The provider registry: `driver($name)` builds the client configured
    under a provider name, keyed on the configuration's `driver` tag, and
    keeps it for later calls. */
module AiClientFactory {
  import opened Values
  import opened BaseClient
  import OpenAiClient
  import AnthropicClient

  function NotConfigured(name: string): Exception {
    Exception(InvalidArgument, "Provider [" + name + "] is not configured.", 0)
  }

  function NotSupported(driver: Value): Exception {
    Exception(InvalidArgument, "Driver [" + ToStr(driver) + "] is not supported.", 0)
  }

  /** The driver tag of a provider configuration: its `driver` entry, or the
      provider name itself. */
  function DriverTag(providerConfig: Value, name: string): (tag: Value)
    ensures Get(providerConfig, "driver").Some? && Get(providerConfig, "driver").value != Null ==>
              tag == Get(providerConfig, "driver").value
    ensures (Get(providerConfig, "driver").None? || Get(providerConfig, "driver").value == Null) ==>
              tag == Str(name)
  {
    Coalesce(Get(providerConfig, "driver"), Str(name))
  }

  /** PHP's name for the type of a scalar value, as a TypeError reports it. */
  function ScalarTypeName(v: Value): string {
    match v
    case Null => "null"
    case Bool(_) => "bool"
    case Int(_) => "int"
    case Str(_) => "string"
    case List(_) => "array"
    case Obj(_) => "array"
  }

  /** The start of the message of that TypeError, before the type name. */
  const ConstructorTypeError: string :=
    "FortyQ\\MediaAltSuggester\\Clients\\BaseClient::__construct(): Argument #2 ($config) must be of type array, "

  /** The TypeError a client constructor raises for a provider
      configuration that is not an array: both constructors declare
      `array $config`. */
  function NotAnArray(providerConfig: Value): Exception {
    Exception(TypeError, ConstructorTypeError + ScalarTypeName(providerConfig) + " given", 0)
  }

  /** What `driver($name)` returns for a name it has not built yet: an
      unconfigured name and an unknown driver tag throw; `openai` and
      `anthropic` build that client with the name and the provider's
      configuration, and that constructor throws a TypeError when the
      configuration is not an array. */
  function MakeClient(config: Fields, name: string): (r: Outcome<Client>)
    ensures !Isset(config, name) ==> r == Thrown(NotConfigured(name))
    ensures r.Ok? ==> Isset(config, name) && GetName(r.value) == name &&
                      (Lookup(config, name).value.Obj? || Lookup(config, name).value.List?) &&
                      r.value.config == FieldsOf(Lookup(config, name))
    ensures Isset(config, name) ==>
              var providerConfig := Lookup(config, name).value;
              var isArray := providerConfig.Obj? || providerConfig.List?;
              var tag := DriverTag(providerConfig, name);
              && (tag == Str("openai") && isArray <==> r.Ok? && r.value.driver == OpenAi)
              && (tag == Str("anthropic") && isArray <==> r.Ok? && r.value.driver == Anthropic)
              && ((tag == Str("openai") || tag == Str("anthropic")) && !isArray ==> r == Thrown(NotAnArray(providerConfig)))
              && (tag != Str("openai") && tag != Str("anthropic") ==> r == Thrown(NotSupported(tag)))
  {
    if !Isset(config, name) then Thrown(NotConfigured(name))
    else
      var providerConfig := Lookup(config, name).value;
      var tag := DriverTag(providerConfig, name);
      if tag != Str("openai") && tag != Str("anthropic") then Thrown(NotSupported(tag))
      else if !providerConfig.Obj? && !providerConfig.List? then Thrown(NotAnArray(providerConfig))
      else if tag == Str("openai") then Ok(NewClient(OpenAi, name, FieldsOf(Some(providerConfig))))
      else Ok(NewClient(Anthropic, name, FieldsOf(Some(providerConfig))))
  }

  /** `generateAltText` of whichever client class was built. */
  function Generate(c: Client, prompt: string, options: Options, send: HttpRequest -> Outcome<Value>): Outcome<string> {
    match c.driver
    case OpenAi => OpenAiClient.Generate(c, prompt, options, send)
    case Anthropic => AnthropicClient.Generate(c, prompt, options, send)
  }

  /** The factory with its cache of built clients. */
  class ClientFactory {
    const config: Fields
    var clients: map<string, Client>

    /** Every cached client is the one `MakeClient` builds for its name, so
        the cache never changes what a name resolves to. */
    predicate Valid()
      reads this
    {
      forall n :: n in clients ==> MakeClient(config, n) == Ok(clients[n])
    }

    constructor (config: Fields)
      ensures this.config == config && clients == map[] && Valid()
    {
      this.config := config;
      clients := map[];
    }

    /** `driver($name)`: a cached client is returned as it is, without
        looking at the configuration; otherwise the client is built and, when
        that succeeds, cached under exactly that name. A failure caches
        nothing. Either way the result is what the name resolves to. */
    method Driver(name: string) returns (r: Outcome<Client>)
      requires Valid()
      modifies this
      ensures Valid()
      ensures r == MakeClient(config, name)
      ensures name in old(clients) ==> r == Ok(old(clients)[name]) && clients == old(clients)
      ensures name !in old(clients) && r.Ok? ==> clients == old(clients)[name := r.value]
      ensures r.Thrown? ==> clients == old(clients)
    {
      if name in clients {
        return Ok(clients[name]);
      }
      r := MakeClient(config, name);
      if r.Ok? {
        clients := clients[name := r.value];
      }
    }
  }
}
