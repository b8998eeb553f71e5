/**
 * components/PromptDebugger.tsx: the list of debugger configurations and the
 * single-prompt generation panel.
 */
module PromptDebugger {
  import opened Wrappers
  import opened Text
  import opened Lists
  import opened Types
  import opened GeminiService
  import opened Session
  import opened Params

  datatype DebuggerItem = DebuggerItem(id: string, name: string, version: string, node: string, updatedAt: string)

  function ItemId(item: DebuggerItem): string {
    item.id
  }

  /** The deletion behind the trash button, once `confirm()` returned `confirmed`. */
  function AfterDelete(items: seq<DebuggerItem>, id: string, confirmed: bool): (r: seq<DebuggerItem>)
    ensures !confirmed ==> r == items
    ensures confirmed ==> forall item | item in r :: item in items && item.id != id
    ensures confirmed ==> forall item | item in items && item.id != id :: multiset(r)[item] == multiset(items)[item]
  {
    if confirmed then WithoutId(items, ItemId, id) else items
  }

  /**
   * The message shown after `Error: `: an `Error`'s message as it is (even
   * when empty); for any other thrown value, whatever its `message`, a fixed text.
   */
  function ErrorText(thrown: Thrown): (message: string)
    ensures thrown.ErrorInstance? ==> message == thrown.message
    ensures thrown.OtherValue? ==> message == "Unknown error occurred"
  {
    match thrown
    case ErrorInstance(message) => message
    case OtherValue(_) => "Unknown error occurred"
  }

  /**
   * A run that the missing (undefined or empty) API key stops shows only the
   * marker with the service's message.
   */
  lemma MissingKeyShowsOnlyMarker(apiKey: Option<string>, backend: Request -> Result<Stream, Thrown>, model: GeminiModel,
                                  prompt: string, systemInstruction: string, config: GenerationConfig, stopAt: Option<nat>)
    requires !NonEmpty(apiKey)
    ensures ResponseAfter(StreamFor(apiKey, backend, model, prompt, Some(systemInstruction), Some(config)), stopAt, ErrorText)
      == ErrorMarker(MissingKeyMessage)
  {
  }

  /** With JSON output on, the backend is asked for JSON; with it off the key is absent. */
  lemma JsonModeReachesBackend(systemInstruction: string, temperature: real, topP: real, jsonFormatEnabled: bool)
    ensures var config := ConfigFor(Some(systemInstruction), Some(RunConfig(temperature, topP, jsonFormatEnabled)));
      && (ResponseMimeType in config <==> jsonFormatEnabled)
      && (jsonFormatEnabled ==> config[ResponseMimeType] == Str("application/json"))
      && config[Temperature] == Number(temperature) && config[TopP] == Number(topP)
      && ResponseSchema !in config
  {
    ConfigKeysPresent(Some(systemInstruction), Some(RunConfig(temperature, topP, jsonFormatEnabled)));
  }

  /** The two parameter builders of the debug view: the input list and the JSON schema fields. */
  datatype Builder = InputBuilder | SchemaBuilder

  class PromptDebugger {
    var items: seq<DebuggerItem>
    var model: GeminiModel
    var systemInstruction: string
    var userPrompt: string
    var temperature: real
    var topP: real
    var jsonFormatEnabled: bool
    var inputParams: seq<InputParam>
    var jsonParams: seq<InputParam>
    const generation: Generation
    /** The requests handed to the backend so far. */
    ghost var requests: seq<Request>

    /** The initial state of the component (the debugger list is the caller's). */
    constructor (initialItems: seq<DebuggerItem>)
      ensures items == initialItems && model == Flash && systemInstruction == ""
      ensures userPrompt == "Explain quantum computing to a 5-year-old."
      ensures temperature == 0.7 && topP == 0.95 && !jsonFormatEnabled
      ensures inputParams == [] && jsonParams == [] && requests == []
      ensures fresh(generation) && generation.response == "" && !generation.isGenerating && !generation.isCancelled
    {
      items := initialItems;
      model := Flash;
      systemInstruction := "";
      userPrompt := "Explain quantum computing to a 5-year-old.";
      temperature, topP := 0.7, 0.95;
      jsonFormatEnabled := false;
      inputParams, jsonParams := [], [];
      generation := new Generation();
      requests := [];
    }

    /** The sampling settings the panel currently holds, as passed to the service. */
    function RunSettings(): Option<GenerationConfig>
      reads this`temperature, this`topP, this`jsonFormatEnabled
    {
      Some(RunConfig(temperature, topP, jsonFormatEnabled))
    }

    /** What the service call of a run with the panel's current settings settles to. */
    function Answer(apiKey: Option<string>, backend: Request -> Result<Stream, Thrown>): Result<Stream, Thrown>
      reads this`model, this`userPrompt, this`systemInstruction, this`temperature, this`topP, this`jsonFormatEnabled
    {
      StreamFor(apiKey, backend, model, userPrompt, Some(systemInstruction), RunSettings())
    }

    /**
     * `handleEnterDebug(item)`: the panel is reset for the chosen debugger.
     * `freshId` stands for the `Date.now().toString()` id of the one input row.
     */
    method EnterDebug(item: DebuggerItem, freshId: string)
      modifies this`systemInstruction, this`inputParams, this`temperature, this`topP,
               this`jsonFormatEnabled, this`jsonParams
      ensures systemInstruction == "You are the " + item.name + "."
      ensures inputParams == [InputParam(freshId, "text", "string", "引用", "接收文本消息/text")]
      ensures temperature == 0.7 && topP == 0.95 && !jsonFormatEnabled && jsonParams == []
    {
      systemInstruction := "You are the " + item.name + ".";
      inputParams := [InputParam(freshId, "text", "string", "引用", "接收文本消息/text")];
      temperature, topP := 0.7, 0.95;
      jsonFormatEnabled := false;
      jsonParams := [];
    }

    /** One action in a parameter builder: the chosen list is edited, the other is left alone. */
    method EditParams(builder: Builder, edit: ParamEdit)
      modifies this`inputParams, this`jsonParams
      ensures builder == InputBuilder ==> inputParams == Apply(old(inputParams), edit) && jsonParams == old(jsonParams)
      ensures builder == SchemaBuilder ==> jsonParams == Apply(old(jsonParams), edit) && inputParams == old(inputParams)
    {
      if builder == InputBuilder {
        inputParams := Apply(inputParams, edit);
      } else {
        jsonParams := Apply(jsonParams, edit);
      }
    }

    /** `handleDelete(id)`; `confirmed` is the answer to the browser's `confirm()`. */
    method HandleDelete(id: string, confirmed: bool)
      modifies this`items
      ensures items == AfterDelete(old(items), id, confirmed)
    {
      if confirmed {
        items := WithoutId(items, ItemId, id);
      }
    }

    /**
     * `handleRun`. `apiKey` is the build-time key, `backend` the SDK's
     * streaming call and `stopAt` the moment of a Stop click during the run.
     * A blank prompt changes nothing and sends nothing; any other prompt runs.
     */
    method HandleRun(apiKey: Option<string>, backend: Request -> Result<Stream, Thrown>, stopAt: Option<nat>)
      modifies this`requests, generation
      ensures IsBlank(old(userPrompt)) ==>
        && requests == old(requests)
        && generation.response == old(generation.response)
        && generation.isGenerating == old(generation.isGenerating)
        && generation.isCancelled == old(generation.isCancelled)
      ensures !IsBlank(old(userPrompt)) ==> RanOnce(apiKey, backend, stopAt, old(requests))
    {
      if IsBlank(userPrompt) {
        return;
      }
      Run(apiKey, backend, stopAt);
    }

    /**
     * The state a run leaves: exactly one service call made with the panel's
     * settings, the response as `ResponseAfter` says, the cancel flag up
     * exactly when the Stop click landed during the run, and `isGenerating`
     * false.
     */
    ghost predicate RanOnce(apiKey: Option<string>, backend: Request -> Result<Stream, Thrown>, stopAt: Option<nat>, before: seq<Request>)
      reads this, generation
    {
      && requests == before + Sent(RequestFor(apiKey, model, userPrompt, Some(systemInstruction), RunSettings()))
      && generation.response == ResponseAfter(Answer(apiKey, backend), stopAt, ErrorText)
      && generation.isCancelled == Consumed(Answer(apiKey, backend), stopAt).stopped
      && !generation.isGenerating
    }

    /** The body of `handleRun` past the blank-prompt guard. */
    method Run(apiKey: Option<string>, backend: Request -> Result<Stream, Thrown>, stopAt: Option<nat>)
      modifies this`requests, generation
      ensures RanOnce(apiKey, backend, stopAt, old(requests))
    {
      generation.Begin();
      var answer := Call(apiKey, backend);
      var thrown := generation.Consume(answer, stopAt);
      assert generation.response == Consumed(answer, stopAt).text;
      if thrown.Some? {
        generation.Fail(ErrorText(thrown.value));
      }
      assert generation.response == ResponseAfter(answer, stopAt, ErrorText);
      generation.Settle();
    }

    /** The service call with the panel's settings, logged in `requests` when it is issued. */
    method Call(apiKey: Option<string>, backend: Request -> Result<Stream, Thrown>) returns (answer: Result<Stream, Thrown>)
      modifies this`requests
      ensures answer == Answer(apiKey, backend)
      ensures requests == old(requests) + Sent(RequestFor(apiKey, model, userPrompt, Some(systemInstruction), RunSettings()))
    {
      var config := RunConfig(temperature, topP, jsonFormatEnabled);
      var issued;
      issued, answer := GenerateContentStream(apiKey, backend, model, userPrompt, Some(systemInstruction), Some(config));
      if issued.Some? {
        requests := requests + [issued.value];
      }
    }

    /** The Clear Input button: the prompt and the response are emptied; the flags stay. */
    method ClearInput()
      modifies this`userPrompt, generation`response
      ensures userPrompt == "" && generation.response == ""
    {
      userPrompt := "";
      generation.Clear();
    }

    /** `handleStop`: the cancel flag goes up and `isGenerating` goes down at once; the text stays. */
    method HandleStop()
      modifies generation
      ensures generation.isCancelled && !generation.isGenerating
      ensures generation.response == old(generation.response)
    {
      generation.Stop();
    }
  }
}
