/**
 * The compiled graph of `create_agent_graph` run step by step: a configuration is the node about
 * to run and the state so far; one step runs that node, merges its patch and follows the edge
 * (or the router) out of it. The model's replies and the reviewer's verdict for a step come from
 * an oracle. The tool set `call_tools` invokes is a parameter: the agent runs the graph with
 * `Agent.Invoker(db)`, and every property proved here holds for any tool set.
 */
module AgentGraph {
  import opened Wrappers
  import opened Text
  import opened Messages
  import opened ToolLoop
  import opened Agent

  /** What the language models answer when the step asks them. */
  datatype Oracle = Oracle(replyText: string, replyCalls: seq<ToolCall>, reviewText: string)

  datatype Config = Config(node: Node, state: AgentState)

  /**
   * Why a step raises: a tool call the loop cannot complete, or `state["messages"][-1]` on an
   * empty history.
   */
  datatype StepError = ToolFailed(error: ToolError) | EmptyHistory

  /** The configuration a run starts from. */
  function Start(messages: seq<Message>): Config {
    Config(Entry, InitialState(messages))
  }

  /** Run the node of `c`, merge its patch, and move along the edge the graph declares. */
  function Step(c: Config, o: Oracle, tools: ToolInvocation, configShowQuery: Option<bool>): (r: Result<Config, StepError>)
    requires c.node != End
    ensures r.Success? ==> r.value.node in Successors(c.node)
    ensures c.node == CallLlm && r.Success? ==> r.value.node != End
    ensures r.Failure? ==> c.node == CallTools
  {
    var s := c.state;
    match c.node
    case ExtractQuestion =>
      Success(Config(CallLlm, Apply(s, ExtractUserQuestionNode(s, configShowQuery))))
    case CallLlm =>
      var t := Apply(s, CallLlmNode(o.replyText, o.replyCalls));
      Success(Config(ShouldContinueTools(t), t))
    case CallTools =>
      if s.messages == [] then Failure(EmptyHistory)
      else (
        match CallToolsWith(s, tools)
        case Failure(e) => Failure(ToolFailed(e))
        case Success(p) => Success(Config(CallLlm, Apply(s, p))))
    case ReviewResponse =>
      var t := Apply(s, ReviewResponseNode(s, o.reviewText));
      Success(Config(ShouldRevise(t), t))
    case HandleRevision =>
      Success(Config(CallLlm, Apply(s, HandleRevisionNode(s))))
  }

  /** Steps with one oracle answer each, until END or until the answers run out. */
  function Run(c: Config, oracles: seq<Oracle>, tools: ToolInvocation, configShowQuery: Option<bool>): Result<Config, StepError>
    decreases |oracles|
  {
    if c.node == End || oracles == [] then Success(c)
    else
      match Step(c, oracles[0], tools, configShowQuery)
      case Failure(e) => Failure(e)
      case Success(next) => Run(next, oracles[1..], tools, configShowQuery)
  }

  // ---------------------------------------------------------------------------------------------
  // The run invariant
  // ---------------------------------------------------------------------------------------------

  /** An assistant message with tool calls at `k` is followed by one tool message per call, in order. */
  predicate Answered(ms: seq<Message>, k: int)
    requires 0 <= k < |ms|
  {
    ms[k].HasToolCalls() ==>
      var calls := ms[k].toolCalls;
      k + |calls| < |ms| && AnsweredBy(ms[k + 1..k + 1 + |calls|], calls)
  }

  /**
   * What holds of every configuration a run reaches, for the messages added after the first
   * `from` (the input history): every tool call has its answer except those call_tools is about
   * to run; review sees a plain assistant reply whose text is `llm_response`; handle_revision is
   * reached only on a revision request; END only with an approved, final answer.
   */
  predicate Inv(c: Config, from: nat) {
    var ms := c.state.messages;
    from <= |ms|
    && (forall k :: from <= k < |ms| && !(c.node == CallTools && k == |ms| - 1) ==> Answered(ms, k))
    && (c.node == CallTools ==> from < |ms| && ms[|ms| - 1].HasToolCalls())
    && (c.node == ReviewResponse || c.node == End ==>
          from < |ms| && ms[|ms| - 1].Ai? && ms[|ms| - 1].toolCalls == []
          && c.state.llmResponse == ms[|ms| - 1].text)
    && (c.node == HandleRevision ==> c.state.needsRevision)
    && (c.node == End ==> c.state.isFinalResponse && !c.state.needsRevision
                          && c.state.finalApprovedResponse == c.state.llmResponse)
  }

  lemma StartInv(messages: seq<Message>)
    ensures Inv(Start(messages), |messages|)
  {
  }

  /** Appending messages keeps an earlier answered call answered. */
  lemma AnsweredExtends(ms: seq<Message>, more: seq<Message>, k: int)
    requires 0 <= k < |ms| && Answered(ms, k)
    ensures Answered(ms + more, k)
  {
    if ms[k].HasToolCalls() {
      var calls := ms[k].toolCalls;
      assert (ms + more)[k + 1..k + 1 + |calls|] == ms[k + 1..k + 1 + |calls|];
    }
  }

  lemma AnsweredExtendsAll(ms: seq<Message>, more: seq<Message>, from: nat, pending: int)
    requires from <= |ms|
    requires forall k :: from <= k < |ms| && k != pending ==> Answered(ms, k)
    ensures forall k :: from <= k < |ms| && k != pending ==> Answered(ms + more, k)
  {
    forall k | from <= k < |ms| && k != pending
      ensures Answered(ms + more, k)
    {
      AnsweredExtends(ms, more, k);
    }
  }

  /** Every step keeps the invariant. */
  lemma StepInv(c: Config, o: Oracle, tools: ToolInvocation, configShowQuery: Option<bool>, from: nat)
    requires Inv(c, from) && c.node != End
    requires Step(c, o, tools, configShowQuery).Success?
    ensures Inv(Step(c, o, tools, configShowQuery).value, from)
  {
    match c.node
    case ExtractQuestion =>
      ExtractQuestionInv(c, o, tools, configShowQuery, from);
    case CallLlm =>
      CallLlmInv(c, o, tools, configShowQuery, from);
    case CallTools =>
      CallToolsInv(c, o, tools, configShowQuery, from);
    case ReviewResponse =>
      ReviewInv(c, o, tools, configShowQuery, from);
    case HandleRevision =>
      HandleRevisionInv(c, o, tools, configShowQuery, from);
  }

  lemma ExtractQuestionInv(c: Config, o: Oracle, tools: ToolInvocation, configShowQuery: Option<bool>, from: nat)
    requires Inv(c, from) && c.node == ExtractQuestion
    ensures Inv(Step(c, o, tools, configShowQuery).value, from)
  {
    ExtractUserQuestion(c.state, configShowQuery);
  }

  lemma ReviewInv(c: Config, o: Oracle, tools: ToolInvocation, configShowQuery: Option<bool>, from: nat)
    requires Inv(c, from) && c.node == ReviewResponse
    ensures Inv(Step(c, o, tools, configShowQuery).value, from)
  {
    var s := c.state;
    var t := Apply(s, ReviewResponseNode(s, o.reviewText));
    assert Step(c, o, tools, configShowQuery) == Success(Config(ShouldRevise(t), t));
    assert t.messages == s.messages && t.llmResponse == s.llmResponse;
    assert t.isFinalResponse == !t.needsRevision;
    assert !t.needsRevision ==> t.finalApprovedResponse == s.llmResponse;
  }

  lemma CallLlmInv(c: Config, o: Oracle, tools: ToolInvocation, configShowQuery: Option<bool>, from: nat)
    requires Inv(c, from) && c.node == CallLlm
    ensures Inv(Step(c, o, tools, configShowQuery).value, from)
  {
    var ms := c.state.messages;
    CallLlmThenRoute(c.state, o.replyText, o.replyCalls);
    AnsweredExtendsAll(ms, [Ai(o.replyText, o.replyCalls)], from, -1);
  }

  lemma CallToolsInv(c: Config, o: Oracle, tools: ToolInvocation, configShowQuery: Option<bool>, from: nat)
    requires Inv(c, from) && c.node == CallTools
    requires Step(c, o, tools, configShowQuery).Success?
    ensures Inv(Step(c, o, tools, configShowQuery).value, from)
  {
    var s := c.state;
    var ms := s.messages;
    var calls := ms[|ms| - 1].toolCalls;
    CallToolsAppendsAnswers(s, tools);
    var t := Apply(s, CallToolsWith(s, tools).value);
    assert Step(c, o, tools, configShowQuery) == Success(Config(CallLlm, t));
    var ms' := t.messages;
    var added := ms'[|ms|..];
    assert ms' == ms + added;
    AnsweredExtendsAll(ms, added, from, |ms| - 1);
    assert ms'[|ms|..|ms| + |calls|] == added;
    assert Answered(ms', |ms| - 1);
    forall k | |ms| <= k < |ms'|
      ensures Answered(ms', k)
    {
      assert ms'[k] == added[k - |ms|];
    }
  }

  /** The part of `Agent.CallToolsAnswers` the invariant needs. */
  lemma CallToolsAppendsAnswers(s: AgentState, tools: ToolInvocation)
    requires s.messages != [] && s.messages[|s.messages| - 1].HasToolCalls()
    requires CallToolsWith(s, tools).Success?
    ensures var t := Apply(s, CallToolsWith(s, tools).value);
            |s.messages| <= |t.messages|
            && t.messages == s.messages + t.messages[|s.messages|..]
            && AnsweredBy(t.messages[|s.messages|..], s.messages[|s.messages| - 1].toolCalls)
  {
    CallToolsAnswers(s, tools);
  }

  lemma HandleRevisionInv(c: Config, o: Oracle, tools: ToolInvocation, configShowQuery: Option<bool>, from: nat)
    requires Inv(c, from) && c.node == HandleRevision
    ensures Inv(Step(c, o, tools, configShowQuery).value, from)
  {
    var s := c.state;
    var ms := s.messages;
    RevisionCarriesFeedback(s);
    var t := Apply(s, HandleRevisionNode(s));
    assert t.messages == ms + [t.messages[|ms|]];
    AnsweredExtendsAll(ms, [t.messages[|ms|]], from, -1);
  }

  /** Every run keeps the invariant. */
  lemma {:induction false} RunInv(c: Config, oracles: seq<Oracle>, tools: ToolInvocation, configShowQuery: Option<bool>,
                                  from: nat)
    requires Inv(c, from)
    requires Run(c, oracles, tools, configShowQuery).Success?
    ensures Inv(Run(c, oracles, tools, configShowQuery).value, from)
    decreases |oracles|
  {
    if c.node != End && oracles != [] {
      StepInv(c, oracles[0], tools, configShowQuery, from);
      RunInv(Step(c, oracles[0], tools, configShowQuery).value, oracles[1..], tools, configShowQuery, from);
    }
  }

  /**
   * A run from the user's history that reaches END ends on a plain assistant reply, approved and
   * final, whose text is the final answer; every tool call the run made was answered.
   */
  lemma FinishedRunIsAnswered(messages: seq<Message>, oracles: seq<Oracle>, tools: ToolInvocation,
                              configShowQuery: Option<bool>)
    requires Run(Start(messages), oracles, tools, configShowQuery).Success?
    requires Run(Start(messages), oracles, tools, configShowQuery).value.node == End
    ensures var t := Run(Start(messages), oracles, tools, configShowQuery).value.state;
            |messages| < |t.messages|
            && t.messages[..|messages|] == messages
            && t.messages[|t.messages| - 1].Ai? && t.messages[|t.messages| - 1].toolCalls == []
            && t.isFinalResponse && !t.needsRevision
            && t.finalApprovedResponse == t.messages[|t.messages| - 1].text
            && forall k :: |messages| <= k < |t.messages| ==> Answered(t.messages, k)
  {
    StartInv(messages);
    RunInv(Start(messages), oracles, tools, configShowQuery, |messages|);
    RunKeepsHistory(Start(messages), oracles, tools, configShowQuery);
  }

  /** One step keeps the history it started from. */
  lemma StepKeepsHistory(c: Config, o: Oracle, tools: ToolInvocation, configShowQuery: Option<bool>)
    requires c.node != End && Step(c, o, tools, configShowQuery).Success?
    ensures var p := Step(c, o, tools, configShowQuery).value.state.messages;
            |c.state.messages| <= |p| && p[..|c.state.messages|] == c.state.messages
  {
    var ms := c.state.messages;
    if c.node == CallTools {
      if ms[|ms| - 1].HasToolCalls() {
        CallToolsAnswers(c.state, tools);
      } else {
        CallToolsWithoutCalls(c.state, tools);
      }
    }
  }

  /** Nodes only ever append messages: a run keeps the history it started from. */
  lemma {:induction false} RunKeepsHistory(c: Config, oracles: seq<Oracle>, tools: ToolInvocation,
                                           configShowQuery: Option<bool>)
    requires Run(c, oracles, tools, configShowQuery).Success?
    ensures var t := Run(c, oracles, tools, configShowQuery).value.state;
            |c.state.messages| <= |t.messages| && t.messages[..|c.state.messages|] == c.state.messages
    decreases |oracles|
  {
    if c.node != End && oracles != [] {
      var next := Step(c, oracles[0], tools, configShowQuery).value;
      RunStep(c, oracles, next, tools, configShowQuery);
      StepKeepsHistory(c, oracles[0], tools, configShowQuery);
      RunKeepsHistory(next, oracles[1..], tools, configShowQuery);
      var ms, p := c.state.messages, next.state.messages;
      var t := Run(c, oracles, tools, configShowQuery).value.state.messages;
      assert t[..|ms|] == t[..|p|][..|ms|];
    }
  }

  // ---------------------------------------------------------------------------------------------
  // No retry bound
  // ---------------------------------------------------------------------------------------------

  /** A reviewer that always asks for a revision, and a model that answers without tools. */
  const Rejecting := Oracle("", [], RevisionMarker)

  function Rounds(n: nat): (r: seq<Oracle>)
    ensures |r| == 3 * n
  {
    if n == 0 then [] else [Rejecting, Rejecting, Rejecting] + Rounds(n - 1)
  }

  /**
   * Once a statement has run, a reviewer that keeps rejecting sends the run round the review →
   * handle_revision → call_llm cycle as often as it likes: after `n` rounds the run is back at
   * review with two more messages per round, and nothing counts the rounds.
   */
  lemma {:induction false} RevisionLoopUnbounded(c: Config, n: nat, tools: ToolInvocation, configShowQuery: Option<bool>)
    requires c.node == ReviewResponse && c.state.executedQuery != ""
    ensures Run(c, Rounds(n), tools, configShowQuery).Success?
    ensures var t := Run(c, Rounds(n), tools, configShowQuery).value;
            t.node == ReviewResponse
            && |t.state.messages| == |c.state.messages| + 2 * n
            && t.state.executedQuery == c.state.executedQuery
    decreases n
  {
    if n > 0 {
      var c3 := OneRound(c, Rounds(n - 1), tools, configShowQuery);
      RevisionLoopUnbounded(c3, n - 1, tools, configShowQuery);
    }
  }

  /** One rejected review, the revision request and a plain reply bring the run back to review. */
  lemma OneRound(c: Config, rest: seq<Oracle>, tools: ToolInvocation, configShowQuery: Option<bool>)
    returns (c3: Config)
    requires c.node == ReviewResponse && c.state.executedQuery != ""
    ensures Run(c, [Rejecting, Rejecting, Rejecting] + rest, tools, configShowQuery)
            == Run(c3, rest, tools, configShowQuery)
    ensures c3.node == ReviewResponse
    ensures |c3.state.messages| == |c.state.messages| + 2
    ensures c3.state.executedQuery == c.state.executedQuery
  {
    var os2 := [Rejecting] + rest;
    var os1 := [Rejecting] + os2;
    var os := [Rejecting] + os1;
    assert os == [Rejecting, Rejecting, Rejecting] + rest;
    assert os[1..] == os1 && os1[1..] == os2 && os2[1..] == rest;
    var c1 := ReviewRejects(c, tools, configShowQuery);
    RunStep(c, os, c1, tools, configShowQuery);
    var c2 := RevisionReturns(c1, tools, configShowQuery);
    RunStep(c1, os1, c2, tools, configShowQuery);
    c3 := PlainReplyIsReviewed(c2, tools, configShowQuery);
    RunStep(c2, os2, c3, tools, configShowQuery);
  }

  lemma RunStep(c: Config, oracles: seq<Oracle>, next: Config, tools: ToolInvocation, configShowQuery: Option<bool>)
    requires c.node != End && oracles != []
    requires Step(c, oracles[0], tools, configShowQuery) == Success(next)
    ensures Run(c, oracles, tools, configShowQuery) == Run(next, oracles[1..], tools, configShowQuery)
  {
  }

  /** A review that contains NEEDS_REVISION, of an answer built on a statement, asks for a revision. */
  lemma ReviewRejects(c: Config, tools: ToolInvocation, configShowQuery: Option<bool>) returns (c1: Config)
    requires c.node == ReviewResponse && c.state.executedQuery != ""
    ensures Step(c, Rejecting, tools, configShowQuery) == Success(c1)
    ensures c1.node == HandleRevision && c1.state.messages == c.state.messages
    ensures c1.state.executedQuery == c.state.executedQuery
  {
    ContainsAt(RevisionMarker, RevisionMarker, 0);
    ReviewDecides(c.state, RevisionMarker);
    c1 := Step(c, Rejecting, tools, configShowQuery).value;
  }

  lemma RevisionReturns(c1: Config, tools: ToolInvocation, configShowQuery: Option<bool>) returns (c2: Config)
    requires c1.node == HandleRevision
    ensures Step(c1, Rejecting, tools, configShowQuery) == Success(c2)
    ensures c2.node == CallLlm && |c2.state.messages| == |c1.state.messages| + 1
    ensures c2.state.executedQuery == c1.state.executedQuery
  {
    c2 := Step(c1, Rejecting, tools, configShowQuery).value;
  }

  lemma PlainReplyIsReviewed(c2: Config, tools: ToolInvocation, configShowQuery: Option<bool>) returns (c3: Config)
    requires c2.node == CallLlm
    ensures Step(c2, Rejecting, tools, configShowQuery) == Success(c3)
    ensures c3.node == ReviewResponse && |c3.state.messages| == |c2.state.messages| + 1
    ensures c3.state.executedQuery == c2.state.executedQuery
  {
    CallLlmThenRoute(c2.state, "", []);
    c3 := Step(c2, Rejecting, tools, configShowQuery).value;
  }
}
