/**
 * The prototype agent of `backend/prototyping/agent_prototype.py`: the same tool loop over an
 * SQLite database, with no guard on `ExecuteQuery`, no review stage, and a graph whose only
 * loop runs between the model and the tools.
 */
module Prototype {
  import opened Wrappers
  import opened Messages
  import opened ToolLoop
  import Agent

  // ---------------------------------------------------------------------------------------------
  // Tools
  // ---------------------------------------------------------------------------------------------

  const ListTablesQuery := "\n        SELECT name FROM sqlite_master WHERE type='table';\n    "

  /** ListTablesTool: the driver's text, or a fixed message when that text is empty. */
  function ListTables(db: Database): (r: string)
    ensures db(ListTablesQuery, false) == "" ==> r == Agent.NoTablesFound
    ensures db(ListTablesQuery, false) != "" ==> r == db(ListTablesQuery, false)
  {
    var results := db(ListTablesQuery, false);
    if results == "" then Agent.NoTablesFound else results
  }

  /** ExecuteQuery: the statement goes to the driver as it is. */
  function ExecuteQuery(sql: string, db: Database): string {
    db(sql, false)
  }

  /** The sample-rows tool is the agent's, word for word. */
  function Tools(db: Database): ToolSet {
    ToolSet(ListTables(db), table => Agent.GetSampleRows(table, db), sql => ExecuteQuery(sql, db))
  }

  function Invoker(db: Database): ToolCall -> Result<string, ToolError> {
    call => Dispatch(Tools(db), call)
  }

  // ---------------------------------------------------------------------------------------------
  // State and nodes (each node's patch already merged into the state)
  // ---------------------------------------------------------------------------------------------

  datatype ProtoState = ProtoState(
    messages: seq<Message>,
    userQuestion: Content,
    executedQuery: string,
    queryResult: Option<Message>)

  function InitialState(messages: seq<Message>): ProtoState {
    ProtoState(messages, Str(""), "", None)
  }

  /** extract_question: the first message's content when it is a human message. */
  function ExtractUserQuestionNode(s: ProtoState): ProtoState {
    s.(userQuestion := if s.messages != [] && s.messages[0].Human? then s.messages[0].content else Str(""))
  }

  /** call_llm: the model's reply is appended, nothing else is returned. */
  function CallLlmNode(s: ProtoState, replyText: string, replyCalls: seq<ToolCall>): ProtoState {
    s.(messages := s.messages + [Ai(replyText, replyCalls)])
  }

  /** call_tools: the loop of `ToolLoop.ResolveToolCalls` over the last message's tool calls. */
  function CallToolsNode(s: ProtoState, db: Database): Result<ProtoState, ToolError>
    requires s.messages != []
  {
    var last := s.messages[|s.messages| - 1];
    if !last.HasToolCalls() then Success(s)
    else
      match Resolve(last.toolCalls, Invoker(db), Resolution([], s.executedQuery, s.queryResult))
      case Failure(e) => Failure(e)
      case Success(r) => Success(ProtoState(s.messages + r.results, s.userQuestion, r.executedQuery, r.queryResult))
  }

  datatype Node = ExtractQuestion | CallLlm | CallTools | End

  /** should_continue_tools: to the tools while the model asks for them, otherwise the run ends. */
  function ShouldContinueTools(s: ProtoState): Node
    requires s.messages != []
  {
    if s.messages[|s.messages| - 1].HasToolCalls() then CallTools else End
  }

  const Entry := ExtractQuestion

  function Successors(n: Node): set<Node> {
    match n
    case ExtractQuestion => {CallLlm}
    case CallLlm => {CallTools, End}
    case CallTools => {CallLlm}
    case End => {}
  }

  /** A walk along the declared edges. */
  predicate IsPath(path: seq<Node>) {
    forall i :: 0 <= i < |path| - 1 ==> path[i + 1] in Successors(path[i])
  }

  // ---------------------------------------------------------------------------------------------
  // Lemmas
  // ---------------------------------------------------------------------------------------------

  /**
   * No guard: any ExecuteQuery call carrying a statement, whatever its id, its other arguments or
   * the statement, is answered with the driver's text for that statement.
   */
  lemma ExecuteQueryUnguarded(call: ToolCall, db: Database)
    requires call.name == ExecuteQueryName && SqlStatementArg in call.args
    ensures Invoker(db)(call) == Success(db(call.args[SqlStatementArg], false))
  {
  }

  /** The question is the first message's content exactly when that message is from the user. */
  lemma ExtractUserQuestion(s: ProtoState)
    ensures var t := ExtractUserQuestionNode(s);
            t.messages == s.messages && t.executedQuery == s.executedQuery && t.queryResult == s.queryResult
            && (s.messages != [] && s.messages[0].Human? ==> t.userQuestion == s.messages[0].content)
            && (s.messages == [] || !s.messages[0].Human? ==> t.userQuestion == Str(""))
  {
  }

  /** The router goes to the tools exactly when the reply carries tool calls, and ends the run otherwise. */
  lemma CallLlmThenRoute(s: ProtoState, replyText: string, replyCalls: seq<ToolCall>)
    ensures var t := CallLlmNode(s, replyText, replyCalls);
            (ShouldContinueTools(t) == CallTools <==> replyCalls != [])
            && (ShouldContinueTools(t) == End <==> replyCalls == [])
            && ShouldContinueTools(t) in Successors(CallLlm)
  {
  }

  /** With no tool calls on the last message call_tools returns the state unchanged. */
  lemma CallToolsWithoutCalls(s: ProtoState, db: Database)
    requires s.messages != [] && !s.messages[|s.messages| - 1].HasToolCalls()
    ensures CallToolsNode(s, db) == Success(s)
  {
  }

  /**
   * A successful call_tools appends one tool message per call, in order; only ExecuteQuery calls
   * move the tracked statement and result, which end as those of the last such call, whose text
   * is the driver's text for the statement.
   */
  lemma CallToolsResolvesEveryCall(s: ProtoState, db: Database)
    requires s.messages != [] && s.messages[|s.messages| - 1].HasToolCalls()
    requires CallToolsNode(s, db).Success?
    ensures var calls := s.messages[|s.messages| - 1].toolCalls;
            var t := CallToolsNode(s, db).value;
            var added := t.messages[|s.messages|..];
            |t.messages| == |s.messages| + |calls|
            && t.messages[..|s.messages|] == s.messages
            && AnsweredBy(added, calls)
            && t.userQuestion == s.userQuestion
            && ((forall j :: 0 <= j < |calls| ==> !IsExecuteQuery(calls[j]))
                ==> t.executedQuery == s.executedQuery && t.queryResult == s.queryResult)
            && (forall i :: LastExecuteAt(calls, i) ==>
                  SqlStatementArg in calls[i].args
                  && t.executedQuery == calls[i].args[SqlStatementArg]
                  && t.queryResult == Some(added[i])
                  && added[i].text == db(calls[i].args[SqlStatementArg], false))
  {
    var calls := s.messages[|s.messages| - 1].toolCalls;
    var acc := Resolution([], s.executedQuery, s.queryResult);
    ResolveAnswers(calls, Invoker(db), acc);
    ResolveTracksLast(calls, Invoker(db), acc);
    var r := Resolve(calls, Invoker(db), acc).value;
    var t := CallToolsNode(s, db).value;
    assert t.messages == s.messages + r.results;
    assert t.messages[|s.messages|..] == r.results;
    assert r.results[|acc.results|..] == r.results;
  }

  /** Neither the start node nor END lies on a cycle: no edge enters the one, none leaves the other. */
  lemma {:induction false} CycleAvoidsEnds(path: seq<Node>, i: int)
    requires IsPath(path) && |path| >= 2 && path[0] == path[|path| - 1]
    requires 0 <= i < |path|
    ensures path[i] != ExtractQuestion && path[i] != End
  {
    var last := |path| - 1;
    var j := if i == last then 0 else i;
    assert path[j] == path[i];
    assert path[j + 1] in Successors(path[j]);
    var k := if i == 0 then last else i;
    assert path[k] == path[i];
    assert path[k] in Successors(path[k - 1]);
  }

  /** The graph's only cycle alternates between call_llm and call_tools. */
  lemma OnlyCycleIsToolLoop(path: seq<Node>)
    requires IsPath(path) && |path| >= 2 && path[0] == path[|path| - 1]
    ensures forall i :: 0 <= i < |path| ==> path[i] == CallLlm || path[i] == CallTools
    ensures forall i :: 0 <= i < |path| - 1 ==> (path[i] == CallLlm <==> path[i + 1] == CallTools)
  {
    forall i | 0 <= i < |path|
      ensures path[i] == CallLlm || path[i] == CallTools
    {
      CycleAvoidsEnds(path, i);
    }
  }

  /** A run starts with the question extraction followed by the model. */
  lemma EntryThenModel()
    ensures Successors(Entry) == {CallLlm}
  {
  }
}
