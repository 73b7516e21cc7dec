/**
 * The request that llm_request sends: the JSON body with the caller's
 * sampling parameters merged over the defaults (lookahead_client.py,
 * lines 22-33), the chat-completions address and the bearer header built
 * from the two environment settings (lines 50-61).
 */
module Request {
  import opened Wrappers

  /** The JSON values a request body can hold. */
  datatype Json =
    | JNull
    | JBool(b: bool)
    | JNumber(n: real)
    | JString(s: string)
    | JArray(items: seq<Json>)
    | JObject(members: seq<(string, Json)>)

  /** The single user message that carries the prompt. */
  function UserMessages(prompt: string): Json {
    JArray([JObject([("role", JString("user")), ("content", JString(prompt))])])
  }

  /** The body before the sampling parameters are merged in. */
  function DefaultBody(model: string, prompt: string): map<string, Json> {
    map["model" := JString(model), "messages" := UserMessages(prompt), "stream" := JBool(true)]
  }

  /** `sampling_params or {}`: an absent parameter map contributes nothing. */
  function Overrides(samplingParams: Option<map<string, Json>>): map<string, Json> {
    if samplingParams.Some? then samplingParams.value else map[]
  }

  /** `body.update(sampling_params or {})`: every sampling parameter overrides or extends the defaults. */
  function RequestBody(model: string, prompt: string, samplingParams: Option<map<string, Json>>): (body: map<string, Json>)
    ensures body.Keys == {"model", "messages", "stream"} + Overrides(samplingParams).Keys
    ensures forall k :: k in Overrides(samplingParams) ==> body[k] == Overrides(samplingParams)[k]
    ensures "model" !in Overrides(samplingParams) ==> body["model"] == JString(model)
    ensures "messages" !in Overrides(samplingParams) ==> body["messages"] == UserMessages(prompt)
    ensures "stream" !in Overrides(samplingParams) ==> body["stream"] == JBool(true)
    ensures samplingParams == None || samplingParams == Some(map[]) ==> body == DefaultBody(model, prompt)
  {
    DefaultBody(model, prompt) + Overrides(samplingParams)
  }

  const ChatCompletionsPath := "chat/completions"
  const NoHostMessage := "No host provided."
  const MissingBaseMessage := "the environment variable OPENAI_API_BASE must be set."
  const MissingKeyMessage := "the environment variable OPENAI_API_KEY must be set."

  /**
   * Lines 57-61: the chat-completions address under an API base. A base that
   * does not end in "/" gets exactly one "/" before the path.
   */
  function Endpoint(base: string): (address: Result<string, string>)
    ensures address.Failure? <==> base == []
    ensures address.Failure? ==> address.error == NoHostMessage
    ensures address.Success? ==>
      var a := address.value;
      var gap := if base[|base| - 1] == '/' then 0 else 1;
      && |a| == |base| + gap + |ChatCompletionsPath|
      && a[..|base|] == base
      && a[|base| + gap - 1] == '/'
      && a[|base| + gap..] == ChatCompletionsPath
  {
    if base == [] then Failure(NoHostMessage)
    else
      var withSlash := if base[|base| - 1] == '/' then base else base + "/";
      Success(withSlash + ChatCompletionsPath)
  }

  /** Adding the trailing "/" by hand does not change the address. */
  lemma EndpointSlashInsensitive(base: string)
    requires base != [] && base[|base| - 1] != '/'
    ensures Endpoint(base + "/") == Endpoint(base)
  {
    var slashed := base + "/";
    assert slashed[|slashed| - 1] == '/';
  }

  /** Python's truthiness of an optional string: present and non-empty. */
  predicate IsSet(setting: Option<string>) {
    setting.Some? && setting.value != []
  }

  /** The two environment settings the client reads. */
  datatype Environment = Environment(apiBase: Option<string>, apiKey: Option<string>)

  /** Where the request goes and how it is authorised. */
  datatype Target = Target(address: string, headers: map<string, string>)

  /**
   * Lines 50-61: the base is checked first, then the key; either one missing
   * or empty is a ValueError. The later "No host provided." check can never
   * fire, because the base is known to be non-empty by then.
   */
  function Configure(env: Environment): (t: Result<Target, string>)
    ensures t.Failure? <==> !IsSet(env.apiBase) || !IsSet(env.apiKey)
    ensures !IsSet(env.apiBase) ==> t == Failure(MissingBaseMessage)
    ensures IsSet(env.apiBase) && !IsSet(env.apiKey) ==> t == Failure(MissingKeyMessage)
    ensures t.Failure? ==> t.error != NoHostMessage
    ensures t.Success? ==>
      && Endpoint(env.apiBase.value) == Success(t.value.address)
      && t.value.headers == map["Authorization" := "Bearer " + env.apiKey.value]
  {
    if !IsSet(env.apiBase) then Failure(MissingBaseMessage)
    else if !IsSet(env.apiKey) then Failure(MissingKeyMessage)
    else
      var headers := map["Authorization" := "Bearer " + env.apiKey.value];
      Success(Target(Endpoint(env.apiBase.value).value, headers))
  }
}
