/**
 * The run / stream / stop session both consoles implement in their
 * `handleRun` and `handleStop` (components/PromptDebugger.tsx and
 * components/TaskList.tsx): the `response`, `isGenerating` and
 * `isCancelledRef` state, the `for await` loop that appends each chunk's text
 * unless the cancel flag is up, and the error marker the handlers append.
 */
module Session {
  import opened Wrappers
  import opened GeminiService

  /** What one chunk adds to the response: its text when truthy (`if (c.text)`), nothing otherwise. */
  function TextOf(chunk: Option<string>): string {
    if chunk.Some? && chunk.value != "" then chunk.value else ""
  }

  /** The in-order concatenation of the chunks' texts. */
  function Collected(chunks: seq<Option<string>>): string {
    if chunks == [] then "" else Collected(chunks[..|chunks| - 1]) + TextOf(chunks[|chunks| - 1])
  }

  /** The marker a handler appends to the partial response when the run throws. */
  function ErrorMarker(message: string): string {
    "\n\nError: " + message
  }

  /**
   * The sampling settings both handlers pass to the service:
   * `{ temperature, topP, responseMimeType: jsonFormatEnabled ? 'application/json' : undefined }`.
   */
  function RunConfig(temperature: real, topP: real, jsonFormatEnabled: bool): (config: GenerationConfig)
    ensures config.temperature == Some(temperature) && config.topP == Some(topP)
    ensures NonEmpty(config.responseMimeType) <==> jsonFormatEnabled
    ensures jsonFormatEnabled ==> config.responseMimeType == Some("application/json")
    ensures !Truthy(config.responseSchema)
  {
    GenerationConfig(Some(temperature), Some(topP), if jsonFormatEnabled then Some("application/json") else None, Undefined)
  }

  /**
   * The summary of one consumption of the backend's answer: the text appended
   * to the response, the exception the loop lets through (if any), and whether
   * the Stop click landed while the run was in flight.
   */
  datatype Run = Run(text: string, raised: Option<Thrown>, stopped: bool)

  /**
   * What the loop does with `answer` (the awaited result of the service call)
   * when the user's Stop click lands, if `stopAt == Some(k)`, while the k-th
   * chunk is awaited (for k == 0 this includes the await of the service call
   * itself). A failed call throws at once. Otherwise the flag is seen at chunk
   * k, before its text is appended, and nothing from chunk k on is observed;
   * a stream that runs out of chunks first ends normally or with its error.
   */
  function Consumed(answer: Result<Stream, Thrown>, stopAt: Option<nat>): (run: Run)
    ensures run.stopped <==> stopAt.Some? && stopAt.value <= (if answer.Success? then |answer.value.chunks| else 0)
    ensures answer.Failure? ==> run.text == "" && run.raised == Some(answer.error)
    ensures answer.Success? && run.raised.Some? ==> answer.value.end == Raised(run.raised.value)
    ensures answer.Success? && stopAt.Some? && stopAt.value < |answer.value.chunks| ==> run.raised.None?
  {
    match answer
    case Failure(thrown) => Run("", Some(thrown), stopAt == Some(0))
    case Success(s) =>
      if stopAt.Some? && stopAt.value < |s.chunks| then
        Run(Collected(s.chunks[..stopAt.value]), None, true)
      else
        Run(Collected(s.chunks), if s.end.Raised? then Some(s.end.thrown) else None, stopAt == Some(|s.chunks|))
  }

  /**
   * The response a run leaves behind: the streamed text, then, if the run
   * threw, the error marker with the handler's description of the exception.
   */
  function ResponseAfter(answer: Result<Stream, Thrown>, stopAt: Option<nat>, describe: Thrown -> string): (response: string)
    ensures Consumed(answer, stopAt).text <= response
    ensures Consumed(answer, stopAt).raised.None? ==> response == Consumed(answer, stopAt).text
    ensures Consumed(answer, stopAt).raised.Some? ==>
      response[|Consumed(answer, stopAt).text|..] == ErrorMarker(describe(Consumed(answer, stopAt).raised.value))
  {
    var run := Consumed(answer, stopAt);
    if run.raised.Some? then run.text + ErrorMarker(describe(run.raised.value)) else run.text
  }

  /** Collecting a concatenation concatenates the collections. */
  lemma {:induction false} CollectedAppend(a: seq<Option<string>>, b: seq<Option<string>>)
    ensures Collected(a + b) == Collected(a) + Collected(b)
  {
    if b == [] {
      assert a + b == a;
    } else {
      var last := |b| - 1;
      assert (a + b)[..|a + b| - 1] == a + b[..last];
      CollectedAppend(a, b[..last]);
    }
  }

  /** Chunks without text contribute nothing, wherever they arrive. */
  lemma TextlessChunkVanishes(before: seq<Option<string>>, chunk: Option<string>, after: seq<Option<string>>)
    requires chunk.None? || chunk.value == ""
    ensures Collected(before + [chunk] + after) == Collected(before + after)
  {
    CollectedAppend(before + [chunk], after);
    CollectedAppend(before, after);
    assert (before + [chunk])[..|before|] == before;
  }

  /** An uninterrupted run collects every chunk, in order, and lets the stream's own error through. */
  lemma UninterruptedRunCollectsAll(s: Stream)
    ensures Consumed(Success(s), None).text == Collected(s.chunks)
    ensures Consumed(Success(s), None).raised == (if s.end.Raised? then Some(s.end.thrown) else None)
    ensures !Consumed(Success(s), None).stopped
  {
  }

  /**
   * A run stopped at chunk k holds exactly the text of the chunks before k,
   * whatever the backend sends from chunk k on, and lets no error through.
   */
  lemma {:induction false} StopFreezesResponse(s: Stream, other: Stream, k: nat)
    requires k < |s.chunks| && k < |other.chunks| && s.chunks[..k] == other.chunks[..k]
    ensures Consumed(Success(s), Some(k)) == Consumed(Success(other), Some(k))
    ensures Consumed(Success(s), Some(k)) == Run(Collected(s.chunks[..k]), None, true)
  {
  }

  /** Whatever the stop point, the appended text is a prefix of the full collection. */
  lemma {:induction false} RunTextIsPrefix(s: Stream, stopAt: Option<nat>)
    ensures Consumed(Success(s), stopAt).text <= Collected(s.chunks)
  {
    if stopAt.Some? && stopAt.value < |s.chunks| {
      var k := stopAt.value;
      assert s.chunks == s.chunks[..k] + s.chunks[k..];
      CollectedAppend(s.chunks[..k], s.chunks[k..]);
    }
  }

  /**
   * The three state hooks of one console's generation panel: the streamed
   * `response`, the `isGenerating` flag that drives the Run/Stop button, and
   * `isCancelledRef.current`.
   */
  class Generation {
    var response: string
    var isGenerating: bool
    var isCancelled: bool

    constructor ()
      ensures response == "" && !isGenerating && !isCancelled
    {
      response, isGenerating, isCancelled := "", false, false;
    }

    /** The start of a run: `setIsGenerating(true); setResponse(''); isCancelledRef.current = false`. */
    method Begin()
      modifies this
      ensures response == "" && isGenerating && !isCancelled
    {
      isGenerating := true;
      response := "";
      isCancelled := false;
    }

    /**
     * `handleStop`: raise the cancel flag and clear `isGenerating` at once.
     * The text is untouched, and a second call leaves the same state.
     */
    method Stop()
      modifies this`isCancelled, this`isGenerating
      ensures isCancelled && !isGenerating
    {
      isCancelled := true;
      isGenerating := false;
    }

    /**
     * The `for await` loop over the service's answer. `stopAt` says when the
     * user's Stop click lands (see `Consumed`); the click runs `Stop` between
     * two chunks, exactly as the event handler interleaves with the loop.
     * Returns the exception that reaches the handler's `catch`, if any.
     */
    method Consume(answer: Result<Stream, Thrown>, stopAt: Option<nat>) returns (thrown: Option<Thrown>)
      requires !isCancelled
      modifies this
      ensures response == old(response) + Consumed(answer, stopAt).text
      ensures thrown == Consumed(answer, stopAt).raised
      ensures isCancelled == Consumed(answer, stopAt).stopped
      ensures isGenerating == (old(isGenerating) && !isCancelled)
    {
      if answer.Failure? {
        if stopAt == Some(0) {
          Stop();
        }
        return Some(answer.error);
      }
      var s := answer.value;
      var i := 0;
      while i < |s.chunks|
        invariant 0 <= i <= |s.chunks|
        invariant stopAt.Some? ==> i <= stopAt.value
        invariant response == old(response) + Collected(s.chunks[..i])
        invariant !isCancelled && isGenerating == old(isGenerating)
      {
        if stopAt == Some(i) {
          Stop();
        }
        if isCancelled {
          break;
        }
        var chunk := s.chunks[i];
        if chunk.Some? && chunk.value != "" {
          response := response + chunk.value;
        }
        assert s.chunks[..i + 1][..i] == s.chunks[..i];
        i := i + 1;
      }
      thrown := None;
      if !isCancelled {
        assert s.chunks[..i] == s.chunks;
        if stopAt == Some(i) {
          Stop();
        }
        if s.end.Raised? {
          thrown := Some(s.end.thrown);
        }
      }
    }

    /** The `catch` branch: append the error marker to whatever partial text exists. */
    method Fail(message: string)
      modifies this`response
      ensures response == old(response) + ErrorMarker(message)
    {
      response := response + ErrorMarker(message);
    }

    /** `setResponse('')` outside a run: the text is emptied and nothing else changes. */
    method Clear()
      modifies this`response
      ensures response == ""
    {
      response := "";
    }

    /** The `finally` branch: `setIsGenerating(false)`. */
    method Settle()
      modifies this`isGenerating
      ensures !isGenerating
    {
      isGenerating := false;
    }
  }
}
