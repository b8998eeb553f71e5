/**
 * components/TaskList.tsx: the task table, the result rows of a task, and the
 * detail panel that can re-run a prompt and write the outcome back into the
 * result row it was opened from.
 */
module TaskList {
  import opened Wrappers
  import opened Text
  import opened Lists
  import opened Types
  import opened GeminiService
  import opened Session
  import opened Params
  import PromptDebugger

  datatype TaskType = Test | Debug
  datatype DebugMode = Single | Contrast
  datatype Status = Done | Pending | Failed
  datatype View = ListView | ResultsView | ResultDetailView

  /** The fields of a task the logic reads; the rest of the record is display-only. */
  datatype TaskItem = TaskItem(id: string, name: string, taskType: TaskType, collectionName: string, debugMode: Option<DebugMode>)

  datatype ResultRow = ResultRow(
    id: string,
    debuggerName: string,
    resultText: string,
    latencyMs: int,
    status: Status,
    sourceMethod: string,
    tokenUsage: Option<int>)

  function RowId(row: ResultRow): string {
    row.id
  }

  const FallbackLeft := "调试器A"
  const FallbackRight := "调试器B"

  /** `task.type === 'DEBUG' && task.debugMode === 'CONTRAST'`. */
  predicate IsContrast(task: TaskItem) {
    task.taskType == Debug && task.debugMode == Some(Contrast)
  }

  /** `names[k] || fallback` over the trimmed `/`-separated parts of a collection name. */
  function PartOr(collectionName: string, k: nat, fallback: string): (name: string)
    ensures name == fallback || (k < |Split(collectionName, '/')| && name == Trim(Split(collectionName, '/')[k]))
    ensures k < |Split(collectionName, '/')| && Trim(Split(collectionName, '/')[k]) != "" ==>
      name == Trim(Split(collectionName, '/')[k])
    ensures k >= |Split(collectionName, '/')| || Trim(Split(collectionName, '/')[k]) == "" ==> name == fallback
    ensures '/' !in name || name == fallback
  {
    var names := Split(collectionName, '/');
    if k < |names| && Trim(names[k]) != "" then Trim(names[k]) else fallback
  }

  /**
   * The rows the 详情 button loads for a task: always `r1` (done) and `r2`
   * (failed); a contrast task names them after the two halves of its
   * collection name, any other task after the whole collection name.
   */
  function OpenedRows(task: TaskItem): (rows: seq<ResultRow>)
    ensures |rows| == 2 && rows[0].id == "r1" && rows[1].id == "r2"
    ensures rows[0].status == Done && rows[1].status == Failed
    ensures IsContrast(task) ==>
      rows[0].debuggerName == PartOr(task.collectionName, 0, FallbackLeft)
      && rows[1].debuggerName == PartOr(task.collectionName, 1, FallbackRight)
    ensures !IsContrast(task) ==> rows[0].debuggerName == task.collectionName == rows[1].debuggerName
  {
    if IsContrast(task) then
      [ ResultRow("r1", PartOr(task.collectionName, 0, FallbackLeft), "OK: 输出匹配预期", 720, Done, "从调优中心导入", Some(1250)),
        ResultRow("r2", PartOr(task.collectionName, 1, FallbackRight), "FAILED: 接口报错 500", 300, Failed, "从调优中心导入", Some(0)) ]
    else if task.taskType == Debug && task.debugMode == Some(Single) then
      [ ResultRow("r1", task.collectionName, "OK: 输出匹配预期", 720, Done, "手动输入", Some(850)),
        ResultRow("r2", task.collectionName, "FAILED: 接口报错 500", 300, Failed, "手动输入", Some(0)) ]
    else
      [ ResultRow("r1", task.collectionName, "OK: 输出匹配预期", 720, Done, "从调优中心导入", Some(1250)),
        ResultRow("r2", task.collectionName, "FAILED: 接口报错 500", 300, Failed, "从调优中心导入", Some(0)) ]
  }

  /**
   * A contrast collection named `left/right` (two separator-free halves)
   * names the rows after the trimmed halves, or the fallbacks where a half is
   * blank.
   */
  lemma ContrastNamesFromHalves(task: TaskItem, left: string, right: string)
    requires IsContrast(task) && task.collectionName == left + "/" + right
    requires '/' !in left && '/' !in right
    ensures OpenedRows(task)[0].debuggerName == if Trim(left) != "" then Trim(left) else FallbackLeft
    ensures OpenedRows(task)[1].debuggerName == if Trim(right) != "" then Trim(right) else FallbackRight
  {
    SplitJoin([left, right], '/');
    assert Join([left, right], '/') == left + "/" + right;
  }

  /** A contrast collection name without `/` names only the left row; the right one falls back. */
  lemma ContrastWithoutSeparator(task: TaskItem)
    requires IsContrast(task) && '/' !in task.collectionName
    ensures OpenedRows(task)[1].debuggerName == FallbackRight
    ensures OpenedRows(task)[0].debuggerName == if Trim(task.collectionName) != "" then Trim(task.collectionName) else FallbackLeft
  {
    SplitFree(task.collectionName, '/');
  }

  /**
   * The detail panel edits the right-hand debugger's settings exactly when
   * the task is a contrast debug task with at least two rows and the opened
   * row is the second one.
   */
  function IsRight(task: TaskItem, rows: seq<ResultRow>, active: ResultRow): (right: bool)
    ensures right ==> IsContrast(task) && |rows| >= 2 && active.id == rows[1].id
  {
    IsContrast(task) && |rows| > 1 && active.id == rows[1].id
  }

  /**
   * On the rows a task opens with, the second row is the right-hand side and
   * the first is not, in contrast mode; outside it no row is.
   */
  lemma OpenedRowsSides(task: TaskItem, active: ResultRow)
    ensures IsContrast(task) ==> IsRight(task, OpenedRows(task), OpenedRows(task)[1])
    ensures !IsRight(task, OpenedRows(task), OpenedRows(task)[0])
    ensures !IsContrast(task) ==> !IsRight(task, OpenedRows(task), active)
  {
    assert OpenedRows(task)[0].id[1] != OpenedRows(task)[1].id[1];
  }

  /** The message after `Error: `: `error?.message || 'Unknown error'`. */
  function ErrorText(thrown: Thrown): (message: string)
    ensures message != ""
  {
    match thrown
    case ErrorInstance(m) => if m != "" then m else "Unknown error"
    case OtherValue(Some(m)) => if m != "" then m else "Unknown error"
    case OtherValue(None) => "Unknown error"
  }

  /**
   * The two consoles describe a thrown value differently: they agree on an
   * `Error` with a message, but an `Error` with an empty message, and a
   * non-`Error` value carrying its own message, are shown differently.
   */
  lemma ErrorTextsAgreeOnlyOnMessages(message: string)
    ensures message != "" ==> ErrorText(ErrorInstance(message)) == PromptDebugger.ErrorText(ErrorInstance(message))
    ensures ErrorText(ErrorInstance("")) != PromptDebugger.ErrorText(ErrorInstance(""))
    ensures message != "" && message != "Unknown error occurred" ==>
      ErrorText(OtherValue(Some(message))) != PromptDebugger.ErrorText(OtherValue(Some(message)))
  {
  }

  /** The rewrite of a successful (or stopped) run: text, latency and `DONE` on the active row. */
  function MarkDone(rows: seq<ResultRow>, id: string, text: string, latencyMs: int): (r: seq<ResultRow>)
    ensures |r| == |rows|
    ensures forall k | 0 <= k < |rows| && rows[k].id == id ::
      r[k] == rows[k].(resultText := text, latencyMs := latencyMs, status := Done)
    ensures forall k | 0 <= k < |rows| && rows[k].id != id :: r[k] == rows[k]
  {
    MapById(rows, RowId, id, (row: ResultRow) => row.(resultText := text, latencyMs := latencyMs, status := Done))
  }

  /** The rewrite of a failed run: text and `FAILED` on the active row; its latency is kept. */
  function MarkFailed(rows: seq<ResultRow>, id: string, text: string): (r: seq<ResultRow>)
    ensures |r| == |rows|
    ensures forall k | 0 <= k < |rows| && rows[k].id == id ::
      r[k] == rows[k].(resultText := text, status := Failed)
    ensures forall k | 0 <= k < |rows| && rows[k].id != id :: r[k] == rows[k]
  {
    MapById(rows, RowId, id, (row: ResultRow) => row.(resultText := text, status := Failed))
  }

  /**
   * The result rows after a run. `captured` is the `response` value the
   * handler closed over when it was created, not the text just streamed.
   */
  function RowsAfterRun(rows: seq<ResultRow>, active: Option<ResultRow>, raised: Option<Thrown>,
                        captured: string, latencyMs: int): (r: seq<ResultRow>)
    ensures |r| == |rows|
    ensures active.None? ==> r == rows
    ensures forall k | 0 <= k < |rows| && (active.None? || rows[k].id != active.value.id) :: r[k] == rows[k]
  {
    match active
    case None => rows
    case Some(row) =>
      if raised.None? then MarkDone(rows, row.id, captured, latencyMs)
      else MarkFailed(rows, row.id, captured + ErrorMarker(ErrorText(raised.value)))
  }

  /**
   * The rows carrying the active result's id become `DONE` with the captured
   * text and the new latency after a run that did not throw, and `FAILED`
   * with the captured text and the error marker (latency kept) after one
   * that did.
   */
  lemma RunRewritesActiveRow(rows: seq<ResultRow>, active: Option<ResultRow>, raised: Option<Thrown>,
                             captured: string, latencyMs: int)
    ensures var r := RowsAfterRun(rows, active, raised, captured, latencyMs);
      && (active.Some? && raised.None? ==> forall k | 0 <= k < |rows| && rows[k].id == active.value.id ::
            r[k] == rows[k].(resultText := captured, latencyMs := latencyMs, status := Done))
      && (active.Some? && raised.Some? ==> forall k | 0 <= k < |rows| && rows[k].id == active.value.id ::
            r[k] == rows[k].(resultText := captured + ErrorMarker(ErrorText(raised.value)), status := Failed))
  {
  }

  class TaskList {
    var view: View
    var activeTask: Option<TaskItem>
    var activeResult: Option<ResultRow>
    var resultRows: seq<ResultRow>
    var model: GeminiModel
    var systemInstruction: string
    var userPrompt: string
    var temperature: real
    var topP: real
    var jsonFormatEnabled: bool
    var inputParams: seq<InputParam>
    var inputParamsRight: seq<InputParam>
    const generation: Generation
    /** The requests handed to the backend so far. */
    ghost var requests: seq<Request>

    /** The initial state of the component. */
    constructor ()
      ensures view == ListView && activeTask == None && activeResult == None && resultRows == []
      ensures model == Flash && systemInstruction == "" && userPrompt == ""
      ensures temperature == 0.7 && topP == 0.95 && !jsonFormatEnabled
      ensures inputParams == [InputParam("p1", "text", "string", "引用", "接收文本消息/text")]
      ensures inputParamsRight == [InputParam("rp1", "text", "string", "引用", "接收文本消息/text")]
      ensures requests == []
      ensures fresh(generation) && generation.response == "" && !generation.isGenerating && !generation.isCancelled
    {
      view := ListView;
      activeTask, activeResult, resultRows := None, None, [];
      model := Flash;
      systemInstruction, userPrompt := "", "";
      temperature, topP := 0.7, 0.95;
      jsonFormatEnabled := false;
      inputParams := [InputParam("p1", "text", "string", "引用", "接收文本消息/text")];
      inputParamsRight := [InputParam("rp1", "text", "string", "引用", "接收文本消息/text")];
      generation := new Generation();
      requests := [];
    }

    /** The 详情 button of a task: select it, load its two result rows, show them. */
    method OpenTask(task: TaskItem)
      modifies this`activeTask, this`resultRows, this`view
      ensures activeTask == Some(task) && resultRows == OpenedRows(task) && view == ResultsView
    {
      activeTask := Some(task);
      resultRows := OpenedRows(task);
      view := ResultsView;
    }

    /** The 详情 button of a result row: open it in the detail panel. */
    method OpenResult(row: ResultRow)
      modifies this`activeResult, this`view
      ensures activeResult == Some(row) && view == ResultDetailView
    {
      activeResult := Some(row);
      view := ResultDetailView;
    }

    /** Whether the detail panel shows the right-hand debugger's settings. */
    function EditsRight(): (right: bool)
      reads this
      ensures right ==> view == ResultDetailView && activeTask.Some? && activeResult.Some?
    {
      view == ResultDetailView && activeTask.Some? && activeResult.Some?
      && IsRight(activeTask.value, resultRows, activeResult.value)
    }

    /** The parameter list the detail panel's builder edits. */
    function CurrentInputParams(): (params: seq<InputParam>)
      reads this
      ensures EditsRight() ==> params == inputParamsRight
      ensures !EditsRight() ==> params == inputParams
    {
      if EditsRight() then inputParamsRight else inputParams
    }

    /**
     * One action in the detail panel's parameter builder: it edits the list
     * `CurrentInputParams` selects, and the other side's list stays.
     */
    method EditParams(edit: ParamEdit)
      modifies this`inputParams, this`inputParamsRight
      ensures CurrentInputParams() == Apply(old(CurrentInputParams()), edit)
      ensures EditsRight() ==> inputParams == old(inputParams)
      ensures !EditsRight() ==> inputParamsRight == old(inputParamsRight)
    {
      if EditsRight() {
        inputParamsRight := Apply(inputParamsRight, edit);
      } else {
        inputParams := Apply(inputParams, edit);
      }
    }

    function RunSettings(): Option<GenerationConfig>
      reads this`temperature, this`topP, this`jsonFormatEnabled
    {
      Some(RunConfig(temperature, topP, jsonFormatEnabled))
    }

    /** What the service call of a run with the panel's current (left-hand) settings settles to. */
    function Answer(apiKey: Option<string>, backend: Request -> Result<Stream, Thrown>): Result<Stream, Thrown>
      reads this`model, this`userPrompt, this`systemInstruction, this`temperature, this`topP, this`jsonFormatEnabled
    {
      StreamFor(apiKey, backend, model, userPrompt, Some(systemInstruction), RunSettings())
    }

    /**
     * The state a run leaves: one service call with the left-hand settings,
     * the response and cancel flag as in the debugger, `isGenerating` false,
     * and the active row rewritten from `captured` as `RowsAfterRun` says.
     */
    ghost predicate RanOnce(apiKey: Option<string>, backend: Request -> Result<Stream, Thrown>, stopAt: Option<nat>,
                            captured: string, latencyMs: int, before: seq<Request>, rowsBefore: seq<ResultRow>)
      reads this, generation
    {
      && requests == before + Sent(RequestFor(apiKey, model, userPrompt, Some(systemInstruction), RunSettings()))
      && generation.response == ResponseAfter(Answer(apiKey, backend), stopAt, ErrorText)
      && generation.isCancelled == Consumed(Answer(apiKey, backend), stopAt).stopped
      && !generation.isGenerating
      && resultRows == RowsAfterRun(rowsBefore, activeResult, Consumed(Answer(apiKey, backend), stopAt).raised, captured, latencyMs)
    }

    /**
     * `handleRun`. Besides the debugger's inputs it takes `captured`, the
     * stale `response` its closure holds, and `latencyMs`, the rounded
     * wall-clock time of the run. A blank prompt changes nothing.
     */
    method HandleRun(apiKey: Option<string>, backend: Request -> Result<Stream, Thrown>, stopAt: Option<nat>,
                     captured: string, latencyMs: int)
      modifies this`requests, this`resultRows, generation
      ensures IsBlank(old(userPrompt)) ==>
        && requests == old(requests)
        && resultRows == old(resultRows)
        && generation.response == old(generation.response)
        && generation.isGenerating == old(generation.isGenerating)
        && generation.isCancelled == old(generation.isCancelled)
      ensures !IsBlank(old(userPrompt)) ==>
        RanOnce(apiKey, backend, stopAt, captured, latencyMs, old(requests), old(resultRows))
    {
      if IsBlank(userPrompt) {
        return;
      }
      Run(apiKey, backend, stopAt, captured, latencyMs);
    }

    /** The body of `handleRun` past the blank-prompt guard. */
    method Run(apiKey: Option<string>, backend: Request -> Result<Stream, Thrown>, stopAt: Option<nat>,
               captured: string, latencyMs: int)
      modifies this`requests, this`resultRows, generation
      ensures RanOnce(apiKey, backend, stopAt, captured, latencyMs, old(requests), old(resultRows))
    {
      generation.Begin();
      var answer := Call(apiKey, backend);
      var thrown := generation.Consume(answer, stopAt);
      assert generation.response == Consumed(answer, stopAt).text;
      if thrown.Some? {
        generation.Fail(ErrorText(thrown.value));
      }
      assert generation.response == ResponseAfter(answer, stopAt, ErrorText);
      RecordOutcome(thrown, captured, latencyMs);
      generation.Settle();
    }

    /** The service call with the left-hand settings, logged in `requests` when it is issued. */
    method Call(apiKey: Option<string>, backend: Request -> Result<Stream, Thrown>) returns (answer: Result<Stream, Thrown>)
      modifies this`requests
      ensures answer == Answer(apiKey, backend)
      ensures requests == old(requests) + Sent(RequestFor(apiKey, model, userPrompt, Some(systemInstruction), RunSettings()))
    {
      var config := RunConfig(temperature, topP, jsonFormatEnabled);
      var issued;
      issued, answer := GenerateContentStream(apiKey, backend, model, userPrompt, Some(systemInstruction), Some(config));
      if issued.Some? {
        requests := requests + [issued.value];
      }
    }

    /** The `if (activeResult)` rewrites of the `try` and `catch` branches. */
    method RecordOutcome(thrown: Option<Thrown>, captured: string, latencyMs: int)
      modifies this`resultRows
      ensures resultRows == RowsAfterRun(old(resultRows), activeResult, thrown, captured, latencyMs)
    {
      if activeResult.Some? {
        if thrown.None? {
          resultRows := MarkDone(resultRows, activeResult.value.id, captured, latencyMs);
        } else {
          resultRows := MarkFailed(resultRows, activeResult.value.id, captured + ErrorMarker(ErrorText(thrown.value)));
        }
      }
    }

    /** `handleStop`: the cancel flag goes up and `isGenerating` goes down at once; the text stays. */
    method HandleStop()
      modifies generation
      ensures generation.isCancelled && !generation.isGenerating
      ensures generation.response == old(generation.response)
    {
      generation.Stop();
    }
  }
}
