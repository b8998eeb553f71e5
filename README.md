# Prompt-debugging console: the generation core

This project models the logic behind the prompt-debugging console, a React application for editing LLM
"debugger" configurations, running a prompt against the Gemini backend, and reviewing the result rows of
debug tasks. It covers three parts of that logic and proves what each one promises.

- **The service call** (`services/geminiService.ts`). `generateContentStream` refuses to run without an API key.
  Otherwise it builds the request's `config` object one optional key at a time and hands the request to the SDK.
  It passes back the SDK's stream, or the SDK's exception, unchanged. `GeminiService.GenerateContentStream` is the
  imperative method. `ConfigFor`, `RequestFor` and `StreamFor` are the functions that specify it. The SDK is a
  function-valued parameter `backend`, and the build-time key is a parameter `apiKey`.
- **The generation session** (`handleRun` and `handleStop`, the same in both consoles). The panel state is
  `response`, `isGenerating` and `isCancelledRef`, and it is the class `Session.Generation`. The
  `for await` loop is `Generation.Consume`, a `while` loop over the stream's chunks. The backend's
  stream is a list of chunk texts followed by a normal end or an exception. When the user clicks Stop, that click
  is an input `stopAt`: the index of the chunk being awaited when it lands. The loop calls `Stop` at that point,
  the same interleaving the browser allows. `Session.Consumed` and `Session.ResponseAfter` say what a run leaves
  behind, and `Consume`'s postcondition ties the loop to them.
- **The two consoles** are classes with the components' state as fields:
  - `PromptDebugger.PromptDebugger` has the debugger list, the prompt panel and the parameter builders.
  - `TaskList.TaskList` has the task table, the result rows and the detail panel. A run there also rewrites the
    active result row.

  The parameter-list editor (`addParam`, `updateParam`, `removeParam`) is written the same way in both components.
  It is modelled once, in `Params`, over the generic id-keyed list operations in `Lists`. The JavaScript string
  primitives the handlers rely on are modelled in `Text`: `trim` with ECMAScript's whitespace set, and
  `split` on one character.

Some TaskList behaviour is modelled as written, even where it is probably unintended:
- `handleRun` writes into the result row the `response` value its closure captured when it was created. That is
  the text shown before the run began, not the text just streamed. The model takes it as the parameter
  `captured`.
- The run always uses the left-hand (`model`, `systemInstruction`, `userPrompt`, `temperature`, ...) settings,
  even when the detail panel shows the right-hand debugger.
- Nothing in the component's markup calls TaskList's `handleRun` or `handleStop` (components/TaskList.tsx:154-198). Both are modelled as the component defines them, so the Stop click that `stopAt` describes there is one the component never offers.

Inputs from the environment become parameters:
- `confirm()` becomes `confirmed`.
- `Date.now().toString()` becomes `freshId`.
- `Math.round(t1 - t0)` becomes `latencyMs`.
- The SDK becomes `backend`.
- The environment variable becomes `apiKey`.

Some definitions serve only as the vocabulary of the contracts below and carry no contract of their own:
- `Session.TextOf` is what one chunk adds (`if (c.text)`, components/PromptDebugger.tsx:110).
- `Session.Collected` is the in-order concatenation of the chunks' texts (lines 107-113).
- `Session.ErrorMarker` is the `\n\nError: ` suffix (line 115 and components/TaskList.tsx:182).
- `TaskList.IsContrast` is the contrast-mode test (components/TaskList.tsx:302).
- `Params.BlankParam` is the row `addParam` appends (components/PromptDebugger.tsx:135).

## Model

| member | source | states |
|---|---|---|
| Types.ModelIdInjective | types.ts:8-11 | The two models have different identifier strings. Because a request carries `ModelId(model)`, requests for different models name different models. |
| GeminiService.GenerateContentStream | services/geminiService.ts:13-47 | The method issues exactly the request `RequestFor` describes. With no key nothing is sent and the result is the `Missing VITE_API_KEY in environment` Error. Otherwise the result is the backend's answer to that request, passed on unchanged. |
| GeminiService.ConfigKeysPresent | services/geminiService.ts:24-34 | Each config key is present iff its own test passes: truthiness for the system instruction, mime type and schema, `!== undefined` for temperature and topP. A present key holds the caller's value. Without a generation config, at most the system instruction is set. |
| GeminiService.RequestFor | services/geminiService.ts:20-40 | A request is issued iff the API key is non-empty. It carries the model's identifier string and the prompt unchanged. |
| GeminiService.ConfigFor | services/geminiService.ts:24-34 | `systemInstruction` is present iff the instruction is non-empty. Without a generation config, no other key is present. |
| GeminiService.StreamFor | services/geminiService.ts:19-46 | With an undefined or empty key, the result is the missing-key `Error` and the backend is not consulted. Otherwise it is the backend's answer to the request built from the model's identifier, the prompt and `ConfigFor`. |
| Session.RunConfig | components/PromptDebugger.tsx:99-103 | The handler's settings carry temperature and topP as given. The mime type is set (to `application/json`) iff JSON output is on. There is no schema. |
| Session.Consumed | components/PromptDebugger.tsx:105-115 | A run counts as stopped iff the Stop click lands no later than the end of the stream (at the service await for a failed call). A failed call appends nothing and throws its own error. A stream's error is the only other thing thrown, and a Stop before the last chunk suppresses it. |
| Session.ResponseAfter | components/PromptDebugger.tsx:107-115 | The streamed partial text is a prefix of the final response. After an exception, exactly `\n\nError: ` and the message follow it. Without one, nothing follows. |
| Session.CollectedAppend | components/PromptDebugger.tsx:107-113 | Collecting chunk texts distributes over concatenation of chunk lists. |
| Session.TextlessChunkVanishes | components/PromptDebugger.tsx:110-112 | A chunk with no or empty text adds nothing to the response, wherever it arrives. |
| Session.UninterruptedRunCollectsAll | components/PromptDebugger.tsx:107-113 | Without a Stop click, the response is every chunk's text in order, the stream's own exception reaches the handler, and the run is not marked cancelled. |
| Session.StopFreezesResponse | components/PromptDebugger.tsx:107-108 | A run stopped while chunk k is awaited keeps exactly the text of chunks before k, whatever the backend sends from k on, and raises nothing. |
| Session.RunTextIsPrefix | components/PromptDebugger.tsx:107-113 | Whatever the stop point, the appended text is a prefix of the whole stream's text. |
| Session.Generation.constructor | components/PromptDebugger.tsx:44-59 | The panel starts with an empty response, not generating and not cancelled. |
| Session.Generation.Begin | components/PromptDebugger.tsx:94-96 | A run starts with an empty response, generating, and the cancel flag down. |
| Session.Generation.Stop | components/PromptDebugger.tsx:121-124 | Stop raises the cancel flag and clears `isGenerating`, and changes nothing else. |
| Session.Generation.Consume | components/PromptDebugger.tsx:107-113 | The loop appends exactly `Consumed(answer, stopAt).text`. It returns the exception that reaches `catch`. The cancel flag ends up set iff the Stop click landed during the run, and `isGenerating` is cleared then and only then. |
| Session.Generation.Fail | components/PromptDebugger.tsx:114-115 | The catch branch appends the error marker to the partial response. |
| Session.Generation.Settle | components/PromptDebugger.tsx:116-117 | The finally branch clears `isGenerating`. |
| Session.Generation.Clear | components/PromptDebugger.tsx:526 | `setResponse('')` empties the response and changes nothing else. |
| Lists.WithoutId | components/PromptDebugger.tsx:82 | `filter(x => x.id !== id)` keeps only entries from the list with another id. Each such entry is kept as many times as it occurs. |
| Lists.WithoutIdAppend | components/PromptDebugger.tsx:82 | Filtering by id distributes over concatenation, so the kept entries stay in their order. |
| Lists.WithoutAbsentId | components/PromptDebugger.tsx:82 | Filtering out an id no entry has returns the list unchanged. |
| Lists.MapById | components/PromptDebugger.tsx:139 | `map(x => x.id === id ? f(x) : x)` keeps the length. It applies `f` exactly at the entries with that id and leaves every other entry as it was. |
| Params.With | components/PromptDebugger.tsx:139 | `{ ...p, [field]: value }` sets the chosen field and leaves the other four fields unchanged. |
| Params.AddParam | components/PromptDebugger.tsx:134-136 | `addParam` appends exactly one row after the existing ones. The row has the fresh id and an empty name. |
| Params.UpdateParam | components/PromptDebugger.tsx:138-140 | `updateParam` keeps the length. It sets the field on each row with that id and changes no other row. |
| Params.RemoveParam | components/PromptDebugger.tsx:142-144 | `removeParam` never lengthens the list. It drops the rows with that id and keeps every other row, with its multiplicity. |
| Params.Apply | components/PromptDebugger.tsx:133-144 | One builder action: an add grows the list by one and keeps the existing rows as a prefix, an update keeps the length, and a remove leaves only rows of the old list with another id. |
| Params.RemoveUndoesAdd | components/TaskList.tsx:201-203 | Removing the row just added, under an id no other row has, restores the list. |
| Params.RemoveKeepsOrder | components/TaskList.tsx:203 | Removal commutes with concatenation, so the remaining rows keep their order. |
| Params.UpdateIdempotent | components/TaskList.tsx:202 | Applying the same field edit twice equals applying it once. |
| PromptDebugger.ErrorText | components/PromptDebugger.tsx:115 | An `Error`'s message is shown as it is, even when empty. Any other thrown value shows `Unknown error occurred`, whatever its own `message`. |
| PromptDebugger.AfterDelete | components/PromptDebugger.tsx:80-84 | Without confirmation the list is unchanged. With it, exactly the items with that id go, and every other item is kept with its multiplicity. |
| PromptDebugger.PromptDebugger.HandleDelete | components/PromptDebugger.tsx:80-84 | The component's list becomes `AfterDelete` of the old list. |
| PromptDebugger.PromptDebugger.EnterDebug | components/PromptDebugger.tsx:62-78 | Entering a debugger sets the system instruction to `You are the <name>.`. It resets the input list to one `text` row under the fresh id, temperature to 0.7, topP to 0.95, JSON output to off and the schema fields to empty. |
| PromptDebugger.PromptDebugger.constructor | components/PromptDebugger.tsx:41-57 | The initial state: Flash, empty instruction, the sample prompt, temperature 0.7, topP 0.95, JSON off, empty parameter lists, an idle panel. |
| PromptDebugger.PromptDebugger.HandleRun | components/PromptDebugger.tsx:91-119 | A blank prompt (after ECMAScript `trim`) changes nothing. Otherwise the run sends at most one request, the one `RequestFor` gives for the panel's settings. The response becomes `ResponseAfter` with `Error.message` or `Unknown error occurred`. The cancel flag records the Stop click, and `isGenerating` ends false. |
| PromptDebugger.PromptDebugger.Run | components/PromptDebugger.tsx:94-118 | The run past the guard leaves the state `RanOnce` describes: one request as `RequestFor` says, the response, the cancel flag, and `isGenerating` false. |
| PromptDebugger.PromptDebugger.Call | components/PromptDebugger.tsx:99-105 | The service call with the panel's settings. It settles to `Answer`, and `requests` gains exactly the request it issued. |
| PromptDebugger.PromptDebugger.HandleStop | components/PromptDebugger.tsx:121-124 | The cancel flag goes up, `isGenerating` goes down, and the response text is kept. |
| PromptDebugger.PromptDebugger.EditParams | components/PromptDebugger.tsx:407 | An action in the input builder applies to `inputParams` only. An action in the schema builder (line 497) applies to `jsonParams` only. The other list stays. |
| PromptDebugger.PromptDebugger.ClearInput | components/PromptDebugger.tsx:523-527 | Clear Input empties the prompt and the response. |
| PromptDebugger.MissingKeyShowsOnlyMarker | components/PromptDebugger.tsx:105-115 | With an undefined or empty API key, a run's response is just the marker with the service's missing-key message. |
| PromptDebugger.JsonModeReachesBackend | components/PromptDebugger.tsx:99-105 | The backend gets `responseMimeType: application/json` iff JSON output is on. It gets temperature and topP as set, and never a schema. |
| TaskList.PartOr | components/TaskList.tsx:508-511 | `names[k] \|\| fallback` is the trimmed k-th `/`-part when that part exists and is non-blank. It is the fallback when the part is missing or trims to the empty string. The result never contains `/` unless it is the fallback. |
| TaskList.OpenedRows | components/TaskList.tsx:505-523 | 详情 loads exactly two rows, `r1` done and `r2` failed. In contrast mode they are named after the two halves of the collection name, with fallbacks 调试器A/调试器B. Otherwise both are named after the whole collection name. |
| TaskList.ContrastNamesFromHalves | components/TaskList.tsx:507-512 | For a collection named `left/right`, the rows are named after the trimmed halves, or the fallbacks where a half is blank. |
| TaskList.ContrastWithoutSeparator | components/TaskList.tsx:507-512 | A contrast collection name without `/` names the left row after the trimmed whole. The right row gets its fallback. |
| TaskList.IsRight | components/TaskList.tsx:302-303 | The panel edits the right-hand side only for a contrast debug task with at least two rows whose second row has the opened row's id. |
| TaskList.OpenedRowsSides | components/TaskList.tsx:302-303 | On the rows a task opens with, in contrast mode the second row is the right-hand side. The first row never is, and outside contrast mode no row is. |
| TaskList.ErrorText | components/TaskList.tsx:182 | `error?.message \|\| 'Unknown error'` is never empty. |
| TaskList.ErrorTextsAgreeOnlyOnMessages | components/TaskList.tsx:182 | The two consoles show the same text for an `Error` with a message. They differ for an `Error` with an empty message, and for a non-`Error` value carrying its own message (line 115 of PromptDebugger.tsx ignores it). |
| TaskList.MarkDone | components/TaskList.tsx:174-179 | The success rewrite keeps the length. It sets text, latency and `DONE` exactly on the rows with the active id, and changes no other row. |
| TaskList.MarkFailed | components/TaskList.tsx:184-188 | The failure rewrite keeps the length. It sets text and `FAILED` exactly on the rows with the active id, keeps their latency, and changes no other row. |
| TaskList.RowsAfterRun | components/TaskList.tsx:173-189 | A run keeps the number of rows. With no active result, every row stays. Otherwise every row without the active id stays. |
| TaskList.RunRewritesActiveRow | components/TaskList.tsx:173-189 | The rows with the active id become `DONE` with the captured text and new latency after a run that did not throw. After one that did, they become `FAILED` with the captured text plus the error marker, keeping their latency. |
| TaskList.TaskList.constructor | components/TaskList.tsx:101-152 | The initial state: list view, nothing selected, no rows, Flash, empty texts, 0.7/0.95, JSON off, the `p1`/`rp1` parameter rows, an idle panel. |
| TaskList.TaskList.OpenTask | components/TaskList.tsx:505-524 | The task becomes active, the rows become `OpenedRows(task)`, and the results view shows. |
| TaskList.TaskList.OpenResult | components/TaskList.tsx:285 | The row becomes the active result, and the detail view shows. |
| TaskList.TaskList.EditsRight | components/TaskList.tsx:300-306 | The right-hand parameters are edited only in the detail view, with a task and a result open. |
| TaskList.TaskList.CurrentInputParams | components/TaskList.tsx:305 | The builder shows the right-hand list exactly when the panel edits the right-hand side, and the left-hand list otherwise. |
| TaskList.TaskList.EditParams | components/TaskList.tsx:306-369 | A builder action applies `Apply` to the list `CurrentInputParams` selects, and the other side's list stays. |
| TaskList.TaskList.HandleRun | components/TaskList.tsx:154-193 | A blank prompt changes nothing. Otherwise one run as in the debugger, with the left-hand settings and the `error?.message \|\| 'Unknown error'` text. The result rows become `RowsAfterRun` of the old rows with the captured response and the latency. |
| TaskList.TaskList.Run | components/TaskList.tsx:156-192 | The run past the guard leaves the state `RanOnce` describes, result rows included. |
| TaskList.TaskList.Call | components/TaskList.tsx:161-166 | The service call with the left-hand settings. It settles to `Answer`, and `requests` gains exactly the request it issued. |
| TaskList.TaskList.RecordOutcome | components/TaskList.tsx:173-189 | The rows become `RowsAfterRun` for the outcome of the run. |
| TaskList.TaskList.HandleStop | components/TaskList.tsx:195-198 | The cancel flag goes up, `isGenerating` goes down, and the response text is kept. |
| Text.LeadingWhitespace | components/PromptDebugger.tsx:92 | `trimStart` cuts exactly the maximal whitespace prefix: everything before the index is whitespace, and the character at the index (if any) is not. |
| Text.TrailingWhitespace | components/PromptDebugger.tsx:92 | `trimEnd` cuts exactly the maximal whitespace suffix: everything from the index on is whitespace, and the character before it (if any) is not. |
| Text.Trim | components/PromptDebugger.tsx:92 | The trimmed string is no longer than the input and neither starts nor ends with whitespace. |
| Text.TrimIsMiddle | components/PromptDebugger.tsx:92 | `trim()` returns the piece of the input that starts where the leading whitespace ends, and whitespace is all it cuts off at either end. |
| Text.TrimIdempotent | components/TaskList.tsx:508 | Trimming twice is trimming once. |
| Text.IsBlank | components/PromptDebugger.tsx:92 | `!userPrompt.trim()` holds iff every character of the prompt is ECMAScript whitespace. |
| Text.TrimsToEmptyIffAllWhitespace | components/TaskList.tsx:155 | `trim()` returns the empty string iff every character of the input is whitespace. |
| Text.Split | components/TaskList.tsx:508 | `split('/')` yields at least one part, and no part contains the separator. |
| Text.JoinSplit | components/TaskList.tsx:508 | Joining the parts of a split with the separator gives back the string. |
| Text.SplitJoin | components/TaskList.tsx:508 | Splitting the join of separator-free parts gives back the parts. |
| Text.SplitFree | components/TaskList.tsx:508 | A string without the separator splits into itself alone. |
| Text.SplitAfterPiece | components/TaskList.tsx:508 | Splitting `piece + sep + tail`, with no separator in `piece`, yields `piece` followed by the parts of `tail`. |

## Left out

- The JSX rendering, styling, navigation back to the list (`handleBackToList`) and the copy button (`handleCopy`, clipboard, timers) are presentation and are not modelled.
- PromptDebugger.PromptDebugger.EnterDebug: `handleEnterDebug` (components/PromptDebugger.tsx:62-78) also sets `activeItem`, `debugMode`, `addMethod`, `kbName`, `toolCallCount` and `view`. These fields are not part of the model, so its contract does not cover them.
- Stop is the only event modelled during a run. A Clear Input click while a run streams (components/PromptDebugger.tsx:523-527) would empty `userPrompt` and `response` mid-run. The chunks that follow would then be appended to the empty text, so the run would end holding only the text after the click. `RanOnce` and `ResponseAfter` do not cover this. `ClearInput` is modelled only between runs, and edits of the prompt or the settings during a run are not modelled either.
- `App.tsx` and `components/TestingList.tsx` are not part of this model.
- The SDK client (`new GoogleGenAI`, `ai.models.generateContentStream`) is foreign code. It is the parameter `backend`, and the client constructor is assumed not to throw.
- `console.error` logging in the service is I/O and is not modelled.
- `performance.now()` timing is the parameter `latencyMs`. `Date.now()` ids are the parameter `freshId`. `confirm()` is the parameter `confirmed`.
- React's batching of state updates, re-renders between chunks, and overlapping runs started while one is in flight are not modelled. A run is one atomic sequence in which the Stop click lands at one chosen point.
- The stale `response` that TaskList's `handleRun` writes into the row is the parameter `captured`, not derived from render history.
- Temperature and topP are reals passed through unchanged. Floating point, NaN and negative zero are not modelled.
- Thrown values whose `message` property is not a string are not modelled. `Thrown` holds an `Error`'s message, or another value with or without a string `message`.
- The task table's progress bar, rate text, token-usage figures and display-only task fields are display logic and are not modelled.
- The contrast panel's right-hand prompt, model and settings fields are not read by any modelled handler, so they are not modelled.
