/**
 * The tool-execution loop shared by the agent and its prototype (`call_tools_node`): each tool
 * call of the last assistant message is looked up by name and invoked in order, its result is
 * appended as a tool message, and the statement and result of `ExecuteQuery` calls are tracked.
 */
module ToolLoop {
  import opened Wrappers
  import opened Messages

  const ListTablesName := "ListTablesTool"
  const SampleRowsName := "GetSampleRows"
  const ExecuteQueryName := "ExecuteQuery"
  const SelectedTableArg := "selected_table"
  const SqlStatementArg := "sql_statement"

  /**
   * Why a tool call raises: `tools_by_name[name]` has no such tool, or the call lacks an
   * argument the tool's schema requires (or that the loop reads).
   */
  datatype ToolError = UnknownTool(name: string) | MissingArgument(tool: string, arg: string)

  /** `tools_by_name[call["name"]].invoke(call)` for some set of bound tools. */
  type ToolInvocation = ToolCall -> Result<string, ToolError>

  /** The three tools bound to the model, each already closed over its database. */
  datatype ToolSet = ToolSet(listTables: string, sampleRows: string -> string, executeQuery: string -> string)

  /** `tools_by_name[call["name"]].invoke(call)`: the text the tool returns, or the error it raises. */
  function Dispatch(tools: ToolSet, call: ToolCall): (r: Result<string, ToolError>)
    ensures r.Failure? && r.error.UnknownTool? <==> call.name !in {ListTablesName, SampleRowsName, ExecuteQueryName}
    ensures call.name == ExecuteQueryName && SqlStatementArg in call.args
            ==> r == Success(tools.executeQuery(call.args[SqlStatementArg]))
    ensures call.name == ListTablesName ==> r == Success(tools.listTables)
  {
    if call.name == ListTablesName then
      Success(tools.listTables)
    else if call.name == SampleRowsName then
      if SelectedTableArg in call.args then Success(tools.sampleRows(call.args[SelectedTableArg]))
      else Failure(MissingArgument(call.name, SelectedTableArg))
    else if call.name == ExecuteQueryName then
      if SqlStatementArg in call.args then Success(tools.executeQuery(call.args[SqlStatementArg]))
      else Failure(MissingArgument(call.name, SqlStatementArg))
    else
      Failure(UnknownTool(call.name))
  }

  /**
   * The locals of the loop: the tool messages appended so far, and the last executed statement
   * and `str()` of its tool message (`None` is the empty-string default).
   */
  datatype Resolution = Resolution(results: seq<Message>, executedQuery: string, queryResult: Option<Message>)

  predicate IsExecuteQuery(call: ToolCall) {
    call.name == ExecuteQueryName
  }

  /** The tool messages `answers` resolve `calls` one for one, in order, by correlation id. */
  predicate AnsweredBy(answers: seq<Message>, calls: seq<ToolCall>) {
    |answers| == |calls|
    && forall i :: 0 <= i < |calls| ==> answers[i].Tool? && answers[i].toolCallId == calls[i].id
  }

  /** One iteration of the loop body, after the tool returned `text`. */
  function Track(acc: Resolution, call: ToolCall, text: string): Result<Resolution, ToolError> {
    var answer := Tool(text, call.id);
    if !IsExecuteQuery(call) then
      Success(acc.(results := acc.results + [answer]))
    else if SqlStatementArg !in call.args then
      Failure(MissingArgument(call.name, SqlStatementArg))
    else
      Success(Resolution(acc.results + [answer], call.args[SqlStatementArg], Some(answer)))
  }

  /** The loop over `calls` as a fold: it stops at the first call that raises. */
  function Resolve(calls: seq<ToolCall>, invoke: ToolCall -> Result<string, ToolError>, acc: Resolution)
    : Result<Resolution, ToolError>
    decreases |calls|
  {
    if calls == [] then Success(acc)
    else
      match invoke(calls[0])
      case Failure(e) => Failure(e)
      case Success(text) =>
        match Track(acc, calls[0], text)
        case Failure(e) => Failure(e)
        case Success(next) => Resolve(calls[1..], invoke, next)
  }

  /** A call the loop gets through: the tool returns, and an `ExecuteQuery` call names its statement. */
  predicate Completes(call: ToolCall, invoke: ToolCall -> Result<string, ToolError>) {
    invoke(call).Success? && (IsExecuteQuery(call) ==> SqlStatementArg in call.args)
  }

  /** The `ExecuteQuery` call at index `i` is the last one in `calls`. */
  predicate LastExecuteAt(calls: seq<ToolCall>, i: int) {
    0 <= i < |calls| && IsExecuteQuery(calls[i])
    && forall j :: i < j < |calls| ==> !IsExecuteQuery(calls[j])
  }

  /**
   * The loop of `call_tools_node`: invoke every call in order, append one tool message per call,
   * overwrite the tracked statement and result on every `ExecuteQuery` call.
   */
  method ResolveToolCalls(calls: seq<ToolCall>, invoke: ToolCall -> Result<string, ToolError>,
                          executedQuery: string, queryResult: Option<Message>)
    returns (r: Result<Resolution, ToolError>)
    ensures r == Resolve(calls, invoke, Resolution([], executedQuery, queryResult))
  {
    var toolResults: seq<Message> := [];
    var query, result := executedQuery, queryResult;
    var i := 0;
    while i < |calls|
      invariant 0 <= i <= |calls|
      invariant Resolve(calls, invoke, Resolution([], executedQuery, queryResult))
                == Resolve(calls[i..], invoke, Resolution(toolResults, query, result))
    {
      var call := calls[i];
      assert calls[i..][0] == call && calls[i..][1..] == calls[i + 1..];
      var outcome := invoke(call);
      if outcome.Failure? {
        return Failure(outcome.error);
      }
      var answer := Tool(outcome.value, call.id);
      toolResults := toolResults + [answer];
      if call.name == ExecuteQueryName {
        if SqlStatementArg !in call.args {
          return Failure(MissingArgument(call.name, SqlStatementArg));
        }
        query := call.args[SqlStatementArg];
        result := Some(answer);
      }
      i := i + 1;
    }
    return Success(Resolution(toolResults, query, result));
  }

  // ---------------------------------------------------------------------------------------------
  // Lemmas about the loop
  // ---------------------------------------------------------------------------------------------

  /** The loop completes exactly when every call completes; a failure is the first failing call's. */
  lemma {:induction false} ResolveSucceeds(calls: seq<ToolCall>, invoke: ToolCall -> Result<string, ToolError>,
                                           acc: Resolution)
    ensures Resolve(calls, invoke, acc).Success? <==> forall i :: 0 <= i < |calls| ==> Completes(calls[i], invoke)
    decreases |calls|
  {
    if calls != [] {
      var c := calls[0];
      if Completes(c, invoke) {
        var next := Track(acc, c, invoke(c).value).value;
        ResolveSucceeds(calls[1..], invoke, next);
        assert forall i :: 1 <= i < |calls| ==> calls[i] == calls[1..][i - 1];
      }
    }
  }

  /**
   * On success, exactly one tool message per call is appended after the earlier ones, in call
   * order, carrying the call's id and the text its tool returned.
   */
  lemma {:induction false} ResolveAnswers(calls: seq<ToolCall>, invoke: ToolCall -> Result<string, ToolError>,
                                          acc: Resolution)
    requires Resolve(calls, invoke, acc).Success?
    ensures var r := Resolve(calls, invoke, acc).value;
            |r.results| == |acc.results| + |calls|
            && r.results[..|acc.results|] == acc.results
            && AnsweredBy(r.results[|acc.results|..], calls)
            && forall i :: 0 <= i < |calls| ==>
                 invoke(calls[i]).Success? && r.results[|acc.results|..][i].text == invoke(calls[i]).value
    decreases |calls|
  {
    ResolveSucceeds(calls, invoke, acc);
    if calls != [] {
      var c := calls[0];
      var next := Track(acc, c, invoke(c).value).value;
      ResolveAnswers(calls[1..], invoke, next);
      var r := Resolve(calls, invoke, acc).value;
      var n := |acc.results|;
      assert next.results == acc.results + [Tool(invoke(c).value, c.id)];
      assert r.results[n..][1..] == r.results[n + 1..];
      assert forall i :: 1 <= i < |calls| ==> calls[i] == calls[1..][i - 1];
    }
  }

  /**
   * The tracked statement and result are those of the last `ExecuteQuery` call, or keep their
   * earlier values when the turn has none.
   */
  lemma {:induction false} ResolveTracksLast(calls: seq<ToolCall>, invoke: ToolCall -> Result<string, ToolError>,
                                             acc: Resolution)
    requires Resolve(calls, invoke, acc).Success?
    ensures var r := Resolve(calls, invoke, acc).value;
            ((forall j :: 0 <= j < |calls| ==> !IsExecuteQuery(calls[j]))
                ==> r.executedQuery == acc.executedQuery && r.queryResult == acc.queryResult)
            && forall i :: LastExecuteAt(calls, i) ==>
                 Completes(calls[i], invoke)
                 && r.executedQuery == calls[i].args[SqlStatementArg]
                 && r.queryResult == Some(Tool(invoke(calls[i]).value, calls[i].id))
    decreases |calls|
  {
    if calls != [] {
      var c := calls[0];
      var next := Track(acc, c, invoke(c).value).value;
      ResolveTracksLast(calls[1..], invoke, next);
      ResolveSucceeds(calls, invoke, acc);
      forall i | LastExecuteAt(calls, i) && i > 0
        ensures LastExecuteAt(calls[1..], i - 1)
      {
        forall j | i - 1 < j < |calls[1..]| ensures !IsExecuteQuery(calls[1..][j]) {
          assert calls[1..][j] == calls[j + 1];
        }
      }
      if IsExecuteQuery(c) && forall j :: 1 <= j < |calls| ==> !IsExecuteQuery(calls[j]) {
        assert forall j :: 0 <= j < |calls[1..]| ==> !IsExecuteQuery(calls[1..][j]);
      }
    }
  }
}
