/**
 * services/geminiService.ts: the one call into the generation backend. It
 * refuses to run without an API key, assembles the request's config object key
 * by key, and hands the request to the SDK, whose stream (or exception) it
 * passes back unchanged.
 */
module GeminiService {
  import opened Wrappers
  import opened Types

  /** The JavaScript values a caller may put in the untyped `responseSchema` field. */
  datatype JsValue =
    | Undefined
    | Null
    | Bool(b: bool)
    | Number(n: real)
    | Str(s: string)
    | Array(items: seq<JsValue>)
    | Object(entries: seq<(string, JsValue)>)

  /** JavaScript truthiness (`if (v)`). */
  predicate Truthy(v: JsValue) {
    match v
    case Undefined => false
    case Null => false
    case Bool(b) => b
    case Number(n) => n != 0.0
    case Str(s) => s != ""
    case Array(_) => true
    case Object(_) => true
  }

  /** Truthiness of a `string | undefined`. */
  predicate NonEmpty(s: Option<string>) {
    s.Some? && s.value != ""
  }

  /** The optional sampling settings a caller passes in; `None` is `undefined`. */
  datatype GenerationConfig = GenerationConfig(
    temperature: Option<real>,
    topP: Option<real>,
    responseMimeType: Option<string>,
    responseSchema: JsValue)

  /** A value a JavaScript `throw` can carry: an `Error` object, or anything else with perhaps a string `message`. */
  datatype Thrown = ErrorInstance(message: string) | OtherValue(messageField: Option<string>)

  /** How the backend's stream finishes once its chunks are delivered. */
  datatype End = Finished | Raised(thrown: Thrown)

  /**
   * The backend's asynchronous stream: the text of each chunk in arrival order
   * (`None` for a chunk without text), then either the end of the stream or an
   * exception raised while the next chunk was awaited.
   */
  datatype Stream = Stream(chunks: seq<Option<string>>, end: End)

  /**
   * The property names the config object can carry: `systemInstruction`,
   * `temperature`, `topP`, `responseMimeType` and `responseSchema`.
   */
  datatype ConfigKey = SystemInstruction | Temperature | TopP | ResponseMimeType | ResponseSchema

  /**
   * The request handed to the SDK: `{ model, contents, config }`. The model
   * travels as the enum's string value.
   */
  datatype Request = Request(model: string, contents: string, config: map<ConfigKey, JsValue>)

  const MissingKeyMessage := "Missing VITE_API_KEY in environment"

  /** `if (present) config[key] = value`. */
  function SetIf(config: map<ConfigKey, JsValue>, present: bool, key: ConfigKey, value: JsValue): map<ConfigKey, JsValue> {
    if present then config[key := value] else config
  }

  /** The config object the service assembles, one optional key at a time. */
  function ConfigFor(systemInstruction: Option<string>, generationConfig: Option<GenerationConfig>): (config: map<ConfigKey, JsValue>)
    ensures SystemInstruction in config <==> NonEmpty(systemInstruction)
    ensures generationConfig.None? ==> config.Keys <= {SystemInstruction}
  {
    var config := SetIf(map[], NonEmpty(systemInstruction), SystemInstruction, Str(systemInstruction.GetOr("")));
    match generationConfig
    case None => config
    case Some(gc) =>
      var config := SetIf(config, gc.temperature.Some?, Temperature, Number(gc.temperature.GetOr(0.0)));
      var config := SetIf(config, gc.topP.Some?, TopP, Number(gc.topP.GetOr(0.0)));
      var config := SetIf(config, NonEmpty(gc.responseMimeType), ResponseMimeType, Str(gc.responseMimeType.GetOr("")));
      SetIf(config, Truthy(gc.responseSchema), ResponseSchema, gc.responseSchema)
  }

  /**
   * Which keys the config ends up with: each is present only when its own
   * presence test passes (truthiness for the strings and the schema,
   * `!== undefined` for the two numbers, so a 0 is kept) and then holds the
   * caller's value unchanged; without a generation config at most the
   * system instruction is present.
   */
  lemma ConfigKeysPresent(systemInstruction: Option<string>, generationConfig: Option<GenerationConfig>)
    ensures var config := ConfigFor(systemInstruction, generationConfig);
      && (SystemInstruction in config <==> NonEmpty(systemInstruction))
      && (SystemInstruction in config ==> config[SystemInstruction] == Str(systemInstruction.value))
      && (Temperature in config <==> generationConfig.Some? && generationConfig.value.temperature.Some?)
      && (Temperature in config ==> config[Temperature] == Number(generationConfig.value.temperature.value))
      && (TopP in config <==> generationConfig.Some? && generationConfig.value.topP.Some?)
      && (TopP in config ==> config[TopP] == Number(generationConfig.value.topP.value))
      && (ResponseMimeType in config <==> generationConfig.Some? && NonEmpty(generationConfig.value.responseMimeType))
      && (ResponseMimeType in config ==> config[ResponseMimeType] == Str(generationConfig.value.responseMimeType.value))
      && (ResponseSchema in config <==> generationConfig.Some? && Truthy(generationConfig.value.responseSchema))
      && (ResponseSchema in config ==> config[ResponseSchema] == generationConfig.value.responseSchema)
      && (generationConfig.None? ==> config.Keys <= {SystemInstruction})
  {
  }

  /** The request the service issues, if any: none at all without an API key. */
  function RequestFor(apiKey: Option<string>, model: GeminiModel, prompt: string,
                      systemInstruction: Option<string>, generationConfig: Option<GenerationConfig>): (r: Option<Request>)
    ensures r.Some? <==> NonEmpty(apiKey)
    ensures r.Some? ==> r.value.model == ModelId(model) && r.value.contents == prompt
  {
    if NonEmpty(apiKey) then Some(Request(ModelId(model), prompt, ConfigFor(systemInstruction, generationConfig))) else None
  }

  /** The requests a service call hands to the backend: none or one. */
  function Sent(issued: Option<Request>): seq<Request> {
    if issued.Some? then [issued.value] else []
  }

  /**
   * What the service's returned promise settles to: the missing-key `Error`
   * before anything else, otherwise whatever the backend answers the request
   * with, its failures included, passed on unchanged.
   */
  function StreamFor(apiKey: Option<string>, backend: Request -> Result<Stream, Thrown>, model: GeminiModel,
                     prompt: string, systemInstruction: Option<string>, generationConfig: Option<GenerationConfig>): (r: Result<Stream, Thrown>)
    ensures !NonEmpty(apiKey) ==> r == Failure(ErrorInstance(MissingKeyMessage))
    ensures NonEmpty(apiKey) ==> r == backend(Request(ModelId(model), prompt, ConfigFor(systemInstruction, generationConfig)))
  {
    match RequestFor(apiKey, model, prompt, systemInstruction, generationConfig)
    case None => Failure(ErrorInstance(MissingKeyMessage))
    case Some(request) => backend(request)
  }

  /**
   * `generateContentStream`. `apiKey` is the build-time `VITE_API_KEY`, and
   * `backend` stands for the SDK client's streaming call. `issued` is the
   * request handed to the SDK (`None`: no client was built and nothing was
   * sent); `r` is the stream, or the exception the caller's `await` sees.
   */
  method GenerateContentStream(apiKey: Option<string>, backend: Request -> Result<Stream, Thrown>, model: GeminiModel,
                               prompt: string, systemInstruction: Option<string>, generationConfig: Option<GenerationConfig>)
    returns (issued: Option<Request>, r: Result<Stream, Thrown>)
    ensures issued == RequestFor(apiKey, model, prompt, systemInstruction, generationConfig)
    ensures issued.None? ==> r == Failure(ErrorInstance(MissingKeyMessage))
    ensures issued.Some? ==> r == backend(issued.value)
  {
    if !NonEmpty(apiKey) {
      return None, Failure(ErrorInstance(MissingKeyMessage));
    }
    var config: map<ConfigKey, JsValue> := map[];
    if NonEmpty(systemInstruction) {
      config := config[SystemInstruction := Str(systemInstruction.value)];
    }
    if generationConfig.Some? {
      var gc := generationConfig.value;
      if gc.temperature.Some? {
        config := config[Temperature := Number(gc.temperature.value)];
      }
      if gc.topP.Some? {
        config := config[TopP := Number(gc.topP.value)];
      }
      if NonEmpty(gc.responseMimeType) {
        config := config[ResponseMimeType := Str(gc.responseMimeType.value)];
      }
      if Truthy(gc.responseSchema) {
        config := config[ResponseSchema := gc.responseSchema];
      }
    }
    var request := Request(ModelId(model), prompt, config);
    issued := Some(request);
    r := backend(request);
  }
}
