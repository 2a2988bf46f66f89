/**
 * The agent of `backend/agent.py`: its tools (with the size guard on `ExecuteQuery`), its state
 * and the patches its nodes return, the five nodes, the two routers and the graph's edges.
 *
 * The model's and the reviewer's replies are oracle inputs: a node that calls a model takes the
 * reply as a parameter and is otherwise a pure function from the state to a patch.
 */
module Agent {
  import opened Wrappers
  import opened Text
  import opened Messages
  import opened ToolLoop

  // ---------------------------------------------------------------------------------------------
  // Tools
  // ---------------------------------------------------------------------------------------------

  const ListTablesQuery :=
    "\n        SELECT TABLE_NAME\n        FROM INFORMATION_SCHEMA.TABLES\n        WHERE TABLE_TYPE = 'BASE TABLE'\n    "
  const NoTablesFound := "No tables found."
  const QueryRejected :=
    "Query rejected: potential to return a large number of rows. "
    + "Please include a LIMIT clause (e.g., SELECT * ... LIMIT 100 ...) or use aggregation."

  const SampleRowsHead := "\n                SELECT *\n                FROM "
  const SampleRowsPad := "\n                "
  const SampleRowsLimit := "LIMIT 2"
  const SampleRowsEnd := "\n            "
  const SampleRowsTail := SampleRowsPad + SampleRowsLimit + SampleRowsEnd

  /** The two-row query of GetSampleRows, with the table name in brackets. */
  function SampleRowsQuery(table: string): string {
    SampleRowsHead + "[" + table + "]" + SampleRowsTail
  }

  /** ListTablesTool: the driver's text, or a fixed message when that text is empty. */
  function ListTables(db: Database): (r: string)
    ensures r != ""
    ensures r == NoTablesFound || r == db(ListTablesQuery, false)
    ensures db(ListTablesQuery, false) != "" ==> r == db(ListTablesQuery, false)
  {
    var results := db(ListTablesQuery, false);
    if results == "" then NoTablesFound else results
  }

  /** GetSampleRows: two rows of the bracketed table, with column names. */
  function GetSampleRows(table: string, db: Database): string {
    db(SampleRowsQuery(table), true)
  }

  /** The guard: a stripped, upper-cased SELECT with no LIMIT, COUNT(, SUM(, AVG( or GROUP BY. */
  predicate IsRisky(sql: string) {
    var stmt := Upper(PyStrip(sql));
    StartsWith(stmt, "SELECT")
    && !Contains(stmt, "LIMIT")
    && !Contains(stmt, "COUNT(")
    && !Contains(stmt, "SUM(")
    && !Contains(stmt, "AVG(")
    && !Contains(stmt, "GROUP BY")
  }

  /** ExecuteQuery: the fixed rejection for a risky statement, otherwise what the driver returns. */
  function ExecuteQuery(sql: string, db: Database): string {
    if IsRisky(sql) then QueryRejected else db(sql, false)
  }

  function Tools(db: Database): ToolSet {
    ToolSet(ListTables(db), table => GetSampleRows(table, db), sql => ExecuteQuery(sql, db))
  }

  /** `tools_by_name[name].invoke(call)` for the tools bound in this file. */
  function Invoker(db: Database): ToolCall -> Result<string, ToolError> {
    call => Dispatch(Tools(db), call)
  }

  // ---------------------------------------------------------------------------------------------
  // State and patches
  // ---------------------------------------------------------------------------------------------

  /** AgentState; keys a run has not set yet hold the default the nodes read them with. */
  datatype AgentState = AgentState(
    messages: seq<Message>,
    userQuestion: Content,
    executedQuery: string,
    queryResult: Option<Message>,
    llmResponse: string,
    reviewFeedback: string,
    needsRevision: bool,
    finalApprovedResponse: string,
    isFinalResponse: bool,
    showQuery: bool,
    formattedResponseWithQuery: string)

  /** The state a run starts from: only the input messages are set. */
  function InitialState(messages: seq<Message>): AgentState {
    AgentState(messages, Str(""), "", None, "", "", false, "", false, false, "")
  }

  /** What a node returns: messages to append, and the keys it sets (`None`: key not returned). */
  datatype Patch = Patch(
    newMessages: seq<Message>,
    userQuestion: Option<Content>,
    executedQuery: Option<string>,
    queryResult: Option<Option<Message>>,
    llmResponse: Option<string>,
    reviewFeedback: Option<string>,
    needsRevision: Option<bool>,
    finalApprovedResponse: Option<string>,
    isFinalResponse: Option<bool>,
    showQuery: Option<bool>,
    formattedResponseWithQuery: Option<string>)

  const NoChange := Patch([], None, None, None, None, None, None, None, None, None, None)

  /** The merge the graph performs: messages are appended, every returned key is overwritten. */
  function Apply(s: AgentState, p: Patch): AgentState {
    AgentState(
      s.messages + p.newMessages,
      p.userQuestion.GetOr(s.userQuestion),
      p.executedQuery.GetOr(s.executedQuery),
      p.queryResult.GetOr(s.queryResult),
      p.llmResponse.GetOr(s.llmResponse),
      p.reviewFeedback.GetOr(s.reviewFeedback),
      p.needsRevision.GetOr(s.needsRevision),
      p.finalApprovedResponse.GetOr(s.finalApprovedResponse),
      p.isFinalResponse.GetOr(s.isFinalResponse),
      p.showQuery.GetOr(s.showQuery),
      p.formattedResponseWithQuery.GetOr(s.formattedResponseWithQuery))
  }

  // ---------------------------------------------------------------------------------------------
  // Nodes
  // ---------------------------------------------------------------------------------------------

  /** extract_question: the first message's content when it is a human message; `show_query` from the run config. */
  function ExtractUserQuestionNode(s: AgentState, configShowQuery: Option<bool>): Patch {
    var question := if s.messages != [] && s.messages[0].Human? then s.messages[0].content else Str("");
    NoChange.(userQuestion := Some(question), showQuery := Some(configShowQuery.GetOr(false)))
  }

  /** call_llm, given the model's reply (its text and its tool calls) to the prompt plus history. */
  function CallLlmNode(replyText: string, replyCalls: seq<ToolCall>): Patch {
    NoChange.(newMessages := [Ai(replyText, replyCalls)],
              llmResponse := Some(if replyCalls == [] then replyText else ""),
              isFinalResponse := Some(false))
  }

  /**
   * call_tools with a given tool set: nothing changes when the last message has no tool calls;
   * otherwise the loop of `ToolLoop.ResolveToolCalls` runs over them and its messages and
   * tracked fields are returned.
   */
  function CallToolsWith(s: AgentState, tools: ToolInvocation): Result<Patch, ToolError>
    requires s.messages != []
  {
    var last := s.messages[|s.messages| - 1];
    if !last.HasToolCalls() then Success(NoChange)
    else
      match Resolve(last.toolCalls, tools, Resolution([], s.executedQuery, s.queryResult))
      case Failure(e) => Failure(e)
      case Success(r) =>
        Success(NoChange.(newMessages := r.results, executedQuery := Some(r.executedQuery),
                          queryResult := Some(r.queryResult)))
  }

  /** call_tools over the three tools this file binds. */
  function CallToolsNode(s: AgentState, db: Database): Result<Patch, ToolError>
    requires s.messages != []
  {
    CallToolsWith(s, Invoker(db))
  }

  const DirectApproval := "No SQL logic involved; response seems appropriate for a casual query. APPROVED"
  const RevisionMarker := "NEEDS_REVISION"

  /** The approved answer followed by the statement in a fenced SQL block, as the node formats it. */
  const QueryBlockHead := "\n            ---\n            **SQL Query executed:**\n\n\n                ```sql\n                "
  const QueryBlockTail := "\n                ```\n            "

  function WithQuery(response: string, query: string): string {
    response + QueryBlockHead + query + QueryBlockTail
  }

  /**
   * review_response, given the reviewer's reply. A text answer with no executed statement is
   * approved without asking the reviewer.
   */
  function ReviewResponseNode(s: AgentState, reviewText: string): Patch {
    if s.executedQuery == "" && s.llmResponse != "" then
      NoChange.(reviewFeedback := Some(DirectApproval), needsRevision := Some(false),
                finalApprovedResponse := Some(s.llmResponse),
                formattedResponseWithQuery := Some(s.llmResponse), isFinalResponse := Some(true))
    else
      var needsRevision := Contains(reviewText, RevisionMarker);
      var formatted :=
        if needsRevision then ""
        else if s.showQuery && s.executedQuery != "" then WithQuery(s.llmResponse, s.executedQuery)
        else s.llmResponse;
      NoChange.(reviewFeedback := Some(reviewText), needsRevision := Some(needsRevision),
                finalApprovedResponse := Some(if needsRevision then "" else s.llmResponse),
                formattedResponseWithQuery := Some(formatted), isFinalResponse := Some(!needsRevision))
  }

  /** The human message that hands the reviewer's feedback back to the model. */
  const RevisionIntro := "The reviewer has identified potential issues with your previous response. "
    + "Please reconsider your approach based on this feedback:\n            "
  const RevisionOutro := "\n            Please revise your analysis and provide a better answer. "
    + "You can use the available tools again if needed.\n        "

  function RevisionRequest(feedback: string): string {
    RevisionIntro + feedback + RevisionOutro
  }

  /** handle_revision. */
  function HandleRevisionNode(s: AgentState): Patch {
    NoChange.(newMessages := [Human(Str(RevisionRequest(s.reviewFeedback)))],
              needsRevision := Some(false), isFinalResponse := Some(false))
  }

  // ---------------------------------------------------------------------------------------------
  // Routers and edges
  // ---------------------------------------------------------------------------------------------

  datatype Node = ExtractQuestion | CallLlm | CallTools | ReviewResponse | HandleRevision | End

  /** should_continue_tools. */
  function ShouldContinueTools(s: AgentState): Node
    requires s.messages != []
  {
    if s.messages[|s.messages| - 1].HasToolCalls() then CallTools else ReviewResponse
  }

  /** should_revise. */
  function ShouldRevise(s: AgentState): Node {
    if s.needsRevision then HandleRevision else End
  }

  const Entry := ExtractQuestion

  /** The edges create_agent_graph declares (a conditional edge lists every target of its map). */
  function Successors(n: Node): set<Node> {
    match n
    case ExtractQuestion => {CallLlm}
    case CallLlm => {CallTools, ReviewResponse, End}
    case CallTools => {CallLlm}
    case ReviewResponse => {HandleRevision, End}
    case HandleRevision => {CallLlm}
    case End => {}
  }

  // ---------------------------------------------------------------------------------------------
  // Lemmas: the guard
  // ---------------------------------------------------------------------------------------------

  /** The sample query names the table in brackets and asks for two rows. */
  lemma SampleRowsBracketsTable(table: string)
    ensures Contains(SampleRowsQuery(table), "[" + table + "]")
    ensures Contains(SampleRowsQuery(table), "LIMIT 2")
  {
    var q := SampleRowsQuery(table);
    assert q == SampleRowsHead + ("[" + table + "]") + SampleRowsTail;
    ContainsMiddle(SampleRowsHead, "[" + table + "]", SampleRowsTail);
    var before := SampleRowsHead + "[" + table + "]" + SampleRowsPad;
    assert q == before + SampleRowsLimit + SampleRowsEnd;
    ContainsMiddle(before, SampleRowsLimit, SampleRowsEnd);
  }

  /** The verdict depends only on the upper-cased text: upper- or lower-casing the statement keeps it. */
  lemma IsRiskyIgnoresCase(sql: string)
    ensures IsRisky(Upper(sql)) == IsRisky(sql)
    ensures IsRisky(Lower(sql)) == IsRisky(sql)
  {
    UpperStripCommute(sql);
    UpperStripCommute(Upper(sql));
    UpperStripCommute(Lower(sql));
    UpperOfLower(sql);
  }

  /** A statement that does not start with SELECT once stripped and upper-cased is never risky. */
  lemma NotSelectNeverRisky(sql: string)
    requires !StartsWith(Upper(PyStrip(sql)), "SELECT")
    ensures !IsRisky(sql)
    ensures forall db: Database :: ExecuteQuery(sql, db) == db(sql, false)
  {
  }

  /** Any bounding or aggregating keyword in the statement makes it acceptable. */
  lemma KeywordMakesSafe(sql: string, keyword: string)
    requires keyword in {"LIMIT", "COUNT(", "SUM(", "AVG(", "GROUP BY"}
    requires Contains(Upper(PyStrip(sql)), keyword)
    ensures !IsRisky(sql)
  {
  }

  /**
   * A risky statement gets the fixed rejection whatever the database holds, so the driver is not
   * consulted; any other statement gets the driver's text unchanged.
   */
  lemma ExecuteQueryGuards(sql: string, db1: Database, db2: Database)
    ensures IsRisky(sql) ==> ExecuteQuery(sql, db1) == QueryRejected == ExecuteQuery(sql, db2)
    ensures !IsRisky(sql) ==> ExecuteQuery(sql, db1) == db1(sql, false)
  {
  }

  lemma {:induction false} ContainsNeedsChar(s: string, sub: string, k: nat)
    requires Contains(s, sub) && k < |sub|
    ensures sub[k] in s
  {
    ContainsHasOccurrence(s, sub);
    var i: nat :| OccursAt(s, sub, i);
    assert s[i..i + |sub|][k] == s[i + k];
  }

  /** A bare SELECT with no bounding clause is risky. */
  lemma BareSelectIsRisky(sql: string)
    requires sql == "SELECT * FROM orders"
    ensures IsRisky(sql)
  {
    StripUnpadded(sql);
    UpperOfBareSelect(sql);
    BareSelectLetters(Upper(sql));
    UnboundedSelectIsRisky(sql);
  }

  lemma UpperOfBareSelect(sql: string)
    requires sql == "SELECT * FROM orders"
    ensures Upper(sql) == "SELECT * FROM ORDERS"
  {
  }

  lemma BareSelectLetters(u: string)
    requires u == "SELECT * FROM ORDERS"
    ensures StartsWith(u, "SELECT")
    ensures 'I' !in u && '(' !in u && 'Y' !in u
  {
    assert u[..6] == "SELECT";
  }

  /**
   * A SELECT whose stripped, upper-cased text has no `I`, `(` or `Y` cannot hold any of the
   * bounding keywords, so it is risky.
   */
  lemma UnboundedSelectIsRisky(sql: string)
    requires StartsWith(Upper(PyStrip(sql)), "SELECT")
    requires var u := Upper(PyStrip(sql)); 'I' !in u && '(' !in u && 'Y' !in u
    ensures IsRisky(sql)
  {
    NoBoundingKeyword(Upper(PyStrip(sql)));
  }

  lemma NoBoundingKeyword(upper: string)
    requires 'I' !in upper && '(' !in upper && 'Y' !in upper
    ensures !Contains(upper, "LIMIT") && !Contains(upper, "COUNT(") && !Contains(upper, "SUM(")
    ensures !Contains(upper, "AVG(") && !Contains(upper, "GROUP BY")
  {
    LacksKeyword(upper, "LIMIT", 1);
    LacksKeyword(upper, "COUNT(", 5);
    LacksKeyword(upper, "SUM(", 3);
    LacksKeyword(upper, "AVG(", 3);
    LacksKeyword(upper, "GROUP BY", 7);
  }

  lemma LacksKeyword(s: string, keyword: string, k: nat)
    requires k < |keyword| && keyword[k] !in s
    ensures !Contains(s, keyword)
  {
    if Contains(s, keyword) { ContainsNeedsChar(s, keyword, k); }
  }

  /** The check ignores case: a lower-case SELECT with a lower-case limit is not risky. */
  lemma LowerCaseLimitIsSafe(sql: string)
    requires sql == "select * from t limit 10"
    ensures !IsRisky(sql)
  {
    StripUnpadded(sql);
    UpperOfLowerCaseLimit(sql);
    HasKeywordAt(Upper(sql), "LIMIT", 16);
    KeywordMakesSafe(sql, "LIMIT");
  }

  lemma UpperOfLowerCaseLimit(sql: string)
    requires sql == "select * from t limit 10"
    ensures Upper(sql) == "SELECT * FROM T LIMIT 10"
  {
  }

  lemma HasKeywordAt(s: string, keyword: string, at: nat)
    requires at + |keyword| <= |s| && s[at..at + |keyword|] == keyword
    ensures Contains(s, keyword)
  {
    ContainsAt(s, keyword, at);
  }

  /** A counting SELECT is not risky. */
  lemma CountIsSafe(sql: string)
    requires sql == "SELECT COUNT(*) FROM orders"
    ensures !IsRisky(sql)
  {
    StripUnpadded(sql);
    UpperOfCount(sql);
    HasKeywordAt(Upper(sql), "COUNT(", 7);
    KeywordMakesSafe(sql, "COUNT(");
  }

  lemma UpperOfCount(sql: string)
    requires sql == "SELECT COUNT(*) FROM orders"
    ensures Upper(sql) == "SELECT COUNT(*) FROM ORDERS"
  {
  }

  // ---------------------------------------------------------------------------------------------
  // Lemmas: the nodes
  // ---------------------------------------------------------------------------------------------

  lemma ApplyNoChange(s: AgentState)
    ensures Apply(s, NoChange) == s
  {
    assert s.messages + [] == s.messages;
  }

  /** The question is the first message's content exactly when that message is from the user. */
  lemma ExtractUserQuestion(s: AgentState, configShowQuery: Option<bool>)
    ensures var t := Apply(s, ExtractUserQuestionNode(s, configShowQuery));
            t.messages == s.messages
            && (s.messages != [] && s.messages[0].Human? ==> t.userQuestion == s.messages[0].content)
            && (s.messages == [] || !s.messages[0].Human? ==> t.userQuestion == Str(""))
            && t.showQuery == (configShowQuery == Some(true))
  {
    ApplyNoChange(s);
  }

  /**
   * After call_llm the reply is the last message; `llm_response` holds its text exactly when it
   * has no tool calls; the run is never final; and the router sends it to the tools exactly when
   * it has tool calls, to the review otherwise.
   */
  lemma CallLlmThenRoute(s: AgentState, replyText: string, replyCalls: seq<ToolCall>)
    ensures var t := Apply(s, CallLlmNode(replyText, replyCalls));
            t.messages == s.messages + [Ai(replyText, replyCalls)]
            && t.llmResponse == (if replyCalls == [] then replyText else "")
            && !t.isFinalResponse
            && (ShouldContinueTools(t) == CallTools <==> replyCalls != [])
            && (ShouldContinueTools(t) == ReviewResponse <==> replyCalls == [])
            && t.executedQuery == s.executedQuery && t.queryResult == s.queryResult
  {
  }

  /** With no tool calls on the last message call_tools leaves the state exactly as it was. */
  lemma CallToolsWithoutCalls(s: AgentState, tools: ToolInvocation)
    requires s.messages != [] && !s.messages[|s.messages| - 1].HasToolCalls()
    ensures CallToolsWith(s, tools) == Success(NoChange)
    ensures Apply(s, CallToolsWith(s, tools).value) == s
  {
    ApplyNoChange(s);
  }

  /** With tool calls, call_tools succeeds exactly when every call completes. */
  lemma CallToolsSucceeds(s: AgentState, tools: ToolInvocation)
    requires s.messages != [] && s.messages[|s.messages| - 1].HasToolCalls()
    ensures var calls := s.messages[|s.messages| - 1].toolCalls;
            CallToolsWith(s, tools).Success? <==> forall i :: 0 <= i < |calls| ==> Completes(calls[i], tools)
  {
    var calls := s.messages[|s.messages| - 1].toolCalls;
    ResolveSucceeds(calls, tools, Resolution([], s.executedQuery, s.queryResult));
  }

  /** Over the bound tools, a call completes exactly when it names one of them and carries its argument. */
  lemma BoundToolCompletes(db: Database, call: ToolCall)
    ensures Completes(call, Invoker(db)) <==>
              call.name == ListTablesName
              || (call.name == SampleRowsName && SelectedTableArg in call.args)
              || (call.name == ExecuteQueryName && SqlStatementArg in call.args)
  {
  }

  /**
   * A successful call_tools appends one tool message per call, in order, with the call's id and
   * the tool's text, and tracks the statement and message of the last ExecuteQuery call (or
   * keeps the earlier ones when there is none).
   */
  lemma CallToolsAnswers(s: AgentState, tools: ToolInvocation)
    requires s.messages != [] && s.messages[|s.messages| - 1].HasToolCalls()
    requires CallToolsWith(s, tools).Success?
    ensures var calls := s.messages[|s.messages| - 1].toolCalls;
            var t := Apply(s, CallToolsWith(s, tools).value);
            var added := t.messages[|s.messages|..];
            |t.messages| == |s.messages| + |calls|
            && t.messages[..|s.messages|] == s.messages
            && AnsweredBy(added, calls)
            && (forall i :: 0 <= i < |calls| ==> Success(added[i].text) == tools(calls[i]))
            && ((forall j :: 0 <= j < |calls| ==> !IsExecuteQuery(calls[j]))
                ==> t.executedQuery == s.executedQuery && t.queryResult == s.queryResult)
            && (forall i :: LastExecuteAt(calls, i) ==>
                  SqlStatementArg in calls[i].args
                  && t.executedQuery == calls[i].args[SqlStatementArg] && t.queryResult == Some(added[i]))
  {
    var calls := s.messages[|s.messages| - 1].toolCalls;
    var acc := Resolution([], s.executedQuery, s.queryResult);
    ResolveAnswers(calls, tools, acc);
    ResolveTracksLast(calls, tools, acc);
    var r := Resolve(calls, tools, acc).value;
    var t := Apply(s, CallToolsWith(s, tools).value);
    assert t.messages == s.messages + r.results;
    assert t.messages[|s.messages|..] == r.results;
    assert r.results[|acc.results|..] == r.results;
  }

  /** The bound ExecuteQuery tool answers with the guarded statement tool. */
  lemma InvokeExecuteQuery(db: Database, call: ToolCall)
    requires call.name == ExecuteQueryName && SqlStatementArg in call.args
    ensures Invoker(db)(call) == Success(ExecuteQuery(call.args[SqlStatementArg], db))
  {
  }

  /** Over the bound tools, the tracked ExecuteQuery result is the guarded answer to its statement. */
  lemma CallToolsResolvesEveryCall(s: AgentState, db: Database)
    requires s.messages != [] && s.messages[|s.messages| - 1].HasToolCalls()
    requires CallToolsNode(s, db).Success?
    ensures var calls := s.messages[|s.messages| - 1].toolCalls;
            var t := Apply(s, CallToolsNode(s, db).value);
            var added := t.messages[|s.messages|..];
            |t.messages| == |s.messages| + |calls|
            && AnsweredBy(added, calls)
            && forall i :: LastExecuteAt(calls, i) ==>
                 SqlStatementArg in calls[i].args
                 && t.executedQuery == calls[i].args[SqlStatementArg]
                 && added[i].text == ExecuteQuery(calls[i].args[SqlStatementArg], db)
  {
    var calls := s.messages[|s.messages| - 1].toolCalls;
    CallToolsAnswers(s, Invoker(db));
    var added := Apply(s, CallToolsNode(s, db).value).messages[|s.messages|..];
    forall i | LastExecuteAt(calls, i)
      ensures added[i].text == ExecuteQuery(calls[i].args[SqlStatementArg], db)
    {
      InvokeExecuteQuery(db, calls[i]);
    }
  }

  /** The formatted answer starts with the approved text and shows the executed statement. */
  lemma WithQueryShowsBoth(response: string, query: string)
    ensures StartsWith(WithQuery(response, query), response)
    ensures Contains(WithQuery(response, query), query)
  {
    var head := response + QueryBlockHead;
    assert WithQuery(response, query) == head + query + QueryBlockTail;
    ContainsMiddle(head, query, QueryBlockTail);
    assert WithQuery(response, query)[..|response|] == response;
  }

  /**
   * The review approves a text answer directly, without the reviewer, when no statement ran;
   * otherwise it asks for a revision exactly when the reviewer's text contains NEEDS_REVISION.
   * An approved answer is final and is the model's text, followed by the statement only when
   * `show_query` is set and a statement ran; a rejected one clears the final fields.
   */
  lemma ReviewDecides(s: AgentState, reviewText: string)
    ensures var t := Apply(s, ReviewResponseNode(s, reviewText));
            var direct := s.executedQuery == "" && s.llmResponse != "";
            t.messages == s.messages
            && (direct ==> ReviewResponseNode(s, reviewText) == ReviewResponseNode(s, ""))
            && t.needsRevision == (!direct && Contains(reviewText, RevisionMarker))
            && t.isFinalResponse == !t.needsRevision
            && (ShouldRevise(t) == HandleRevision <==> t.needsRevision)
            && (t.needsRevision ==> t.finalApprovedResponse == "" && t.formattedResponseWithQuery == "")
            && (!t.needsRevision ==>
                  t.finalApprovedResponse == s.llmResponse
                  && StartsWith(t.formattedResponseWithQuery, s.llmResponse)
                  && (t.formattedResponseWithQuery != s.llmResponse
                      ==> Contains(t.formattedResponseWithQuery, s.executedQuery))
                  && (s.showQuery && s.executedQuery != ""
                      <==> t.formattedResponseWithQuery == WithQuery(s.llmResponse, s.executedQuery)))
  {
    WithQueryShowsBoth(s.llmResponse, s.executedQuery);
    assert StartsWith(s.llmResponse, s.llmResponse);
    assert |WithQuery(s.llmResponse, s.executedQuery)| > |s.llmResponse|;
  }

  /** handle_revision hands the reviewer's feedback to the model in a new user message and clears the flags. */
  lemma RevisionCarriesFeedback(s: AgentState)
    ensures var t := Apply(s, HandleRevisionNode(s));
            |t.messages| == |s.messages| + 1
            && t.messages[..|s.messages|] == s.messages
            && t.messages[|s.messages|].Human?
            && t.messages[|s.messages|].content.Str?
            && Contains(t.messages[|s.messages|].content.s, s.reviewFeedback)
            && !t.needsRevision && !t.isFinalResponse
            && ShouldRevise(t) == End
  {
    ContainsMiddle(RevisionIntro, s.reviewFeedback, RevisionOutro);
  }

  /** Each router only chooses among the edges the graph declares for its node. */
  lemma RoutersFollowEdges(s: AgentState)
    requires s.messages != []
    ensures ShouldContinueTools(s) in Successors(CallLlm)
    ensures ShouldRevise(s) in Successors(ReviewResponse)
  {
  }
}
