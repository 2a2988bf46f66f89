/**
 * The HTTP route of `backend/add_langgraph_route.py`: the translation of the frontend's wire
 * messages into the agent's messages, the choice of the answer among the graph's updates, and the
 * server-sent event stream that delivers it word by word.
 *
 * A streamed event is a `Frame` value; its JSON encoding and the `data: ...\n\n` framing are not
 * modelled.
 */
module LanggraphRoute {
  import opened Wrappers
  import opened Text
  import opened Messages

  // ---------------------------------------------------------------------------------------------
  // Wire messages
  // ---------------------------------------------------------------------------------------------

  datatype UserPart = UserText(text: string) | UserImage(image: string) | UserFile(data: string)

  datatype AssistantPart =
    | AssistantText(text: string)
    | AssistantToolCall(toolCallId: string, toolName: string, args: map<string, string>)

  /** A tool result; `result` is the `str()` of the result value. */
  datatype ToolResultPart = ToolResultPart(toolCallId: string, toolName: string, result: string)

  datatype WireMessage =
    | SystemWire(content: string)
    | UserWire(userParts: seq<UserPart>)
    | AssistantWire(assistantParts: seq<AssistantPart>)
    | ToolWire(results: seq<ToolResultPart>)

  // ---------------------------------------------------------------------------------------------
  // Conversion, as functions
  // ---------------------------------------------------------------------------------------------

  /** The item a user part becomes; a file part becomes nothing. */
  function UserItem(p: UserPart): seq<ContentItem> {
    match p
    case UserText(t) => [TextItem(t)]
    case UserImage(i) => [ImageUrlItem(i)]
    case UserFile(_) => []
  }

  function UserItems(parts: seq<UserPart>): seq<ContentItem>
    decreases |parts|
  {
    if parts == [] then [] else UserItem(parts[0]) + UserItems(parts[1..])
  }

  /** `[p.text for p in content if text part]`. */
  function AssistantTexts(parts: seq<AssistantPart>): seq<string>
    decreases |parts|
  {
    if parts == [] then []
    else (if parts[0].AssistantText? then [parts[0].text] else []) + AssistantTexts(parts[1..])
  }

  /** `[{"id", "name", "args"} for p in content if tool-call part]`. */
  function AssistantCalls(parts: seq<AssistantPart>): seq<ToolCall>
    decreases |parts|
  {
    if parts == [] then []
    else
      (if parts[0].AssistantToolCall? then [ToolCall(parts[0].toolCallId, parts[0].toolName, parts[0].args)] else [])
      + AssistantCalls(parts[1..])
  }

  function ToolMessages(results: seq<ToolResultPart>): (r: seq<Message>)
    ensures |r| == |results|
  {
    seq(|results|, i requires 0 <= i < |results| => Tool(results[i].result, results[i].toolCallId))
  }

  /** The messages one wire message becomes. */
  function ConvertOne(m: WireMessage): seq<Message> {
    match m
    case SystemWire(c) => [System(c)]
    case UserWire(ps) => [Human(Parts(UserItems(ps)))]
    case AssistantWire(ps) => [Ai(Join(AssistantTexts(ps), " "), AssistantCalls(ps))]
    case ToolWire(rs) => ToolMessages(rs)
  }

  function Convert(ms: seq<WireMessage>): seq<Message>
    decreases |ms|
  {
    if ms == [] then [] else ConvertOne(ms[0]) + Convert(ms[1..])
  }

  /** How many messages a wire message becomes: one, or one per tool result. */
  function Size(m: WireMessage): nat {
    if m.ToolWire? then |m.results| else 1
  }

  function TotalSize(ms: seq<WireMessage>): nat
    decreases |ms|
  {
    if ms == [] then 0 else Size(ms[0]) + TotalSize(ms[1..])
  }

  // ---------------------------------------------------------------------------------------------
  // Conversion, as the loop of `convert_to_langchain_messages`
  // ---------------------------------------------------------------------------------------------

  method ConvertToLangchainMessages(messages: seq<WireMessage>) returns (result: seq<Message>)
    ensures result == Convert(messages)
  {
    result := [];
    var i := 0;
    while i < |messages|
      invariant 0 <= i <= |messages|
      invariant result == Convert(messages[..i])
    {
      var msg := messages[i];
      ConvertSnoc(messages[..i], msg);
      assert messages[..i + 1] == messages[..i] + [msg];
      match msg {
        case SystemWire(c) =>
          result := result + [System(c)];
        case UserWire(parts) =>
          var content := ConvertUserParts(parts);
          result := result + [Human(Parts(content))];
        case AssistantWire(parts) =>
          result := result + [Ai(Join(AssistantTexts(parts), " "), AssistantCalls(parts))];
        case ToolWire(results) =>
          var tools := ConvertToolResults(results);
          result := result + tools;
      }
      i := i + 1;
    }
    assert messages[..i] == messages;
  }

  /** The inner loop over a user message's parts: text and images are kept, files are skipped. */
  method ConvertUserParts(parts: seq<UserPart>) returns (content: seq<ContentItem>)
    ensures content == UserItems(parts)
  {
    content := [];
    var j := 0;
    while j < |parts|
      invariant 0 <= j <= |parts|
      invariant content == UserItems(parts[..j])
    {
      UserItemsSnoc(parts[..j], parts[j]);
      assert parts[..j + 1] == parts[..j] + [parts[j]];
      match parts[j] {
        case UserText(t) => content := content + [TextItem(t)];
        case UserImage(img) => content := content + [ImageUrlItem(img)];
        case UserFile(_) =>
      }
      j := j + 1;
    }
    assert parts[..j] == parts;
  }

  /** The inner loop over a tool message's results: one tool message per result. */
  method ConvertToolResults(results: seq<ToolResultPart>) returns (tools: seq<Message>)
    ensures tools == ToolMessages(results)
  {
    tools := [];
    var j := 0;
    while j < |results|
      invariant 0 <= j <= |results|
      invariant tools == ToolMessages(results[..j])
    {
      assert ToolMessages(results[..j + 1]) == ToolMessages(results[..j]) + [Tool(results[j].result, results[j].toolCallId)];
      tools := tools + [Tool(results[j].result, results[j].toolCallId)];
      j := j + 1;
    }
    assert results[..j] == results;
  }

  // ---------------------------------------------------------------------------------------------
  // Lemmas about the conversion
  // ---------------------------------------------------------------------------------------------

  lemma {:induction false} UserItemsSnoc(parts: seq<UserPart>, p: UserPart)
    ensures UserItems(parts + [p]) == UserItems(parts) + UserItem(p)
    decreases |parts|
  {
    if parts == [] {
      assert [] + [p] == [p];
    } else {
      assert (parts + [p])[1..] == parts[1..] + [p];
      UserItemsSnoc(parts[1..], p);
    }
  }

  lemma {:induction false} ConvertSnoc(ms: seq<WireMessage>, m: WireMessage)
    ensures Convert(ms + [m]) == Convert(ms) + ConvertOne(m)
    decreases |ms|
  {
    if ms == [] {
      assert [] + [m] == [m];
    } else {
      assert (ms + [m])[1..] == ms[1..] + [m];
      ConvertSnoc(ms[1..], m);
    }
  }

  /** The conversion works message by message and keeps their order. */
  lemma {:induction false} ConvertAppend(a: seq<WireMessage>, b: seq<WireMessage>)
    ensures Convert(a + b) == Convert(a) + Convert(b)
    decreases |a|
  {
    if a == [] {
      assert [] + b == b;
    } else {
      assert (a + b)[1..] == a[1..] + b;
      ConvertAppend(a[1..], b);
    }
  }

  /** One message per system, user and assistant message, one per tool result. */
  lemma {:induction false} ConvertLength(ms: seq<WireMessage>)
    ensures |Convert(ms)| == TotalSize(ms)
    decreases |ms|
  {
    if ms != [] {
      ConvertLength(ms[1..]);
    }
  }

  /** User parts keep their order: text parts become text items, images image items, files nothing. */
  lemma {:induction false} UserItemsAppend(a: seq<UserPart>, b: seq<UserPart>)
    ensures UserItems(a + b) == UserItems(a) + UserItems(b)
    decreases |a|
  {
    if a == [] {
      assert [] + b == b;
    } else {
      assert (a + b)[1..] == a[1..] + b;
      UserItemsAppend(a[1..], b);
    }
  }

  /** Without file parts the items match the parts one for one. */
  lemma {:induction false} UserItemsWithoutFiles(parts: seq<UserPart>)
    requires forall i :: 0 <= i < |parts| ==> !parts[i].UserFile?
    ensures |UserItems(parts)| == |parts|
    ensures forall i :: 0 <= i < |parts| ==> UserItems(parts)[i] == UserItem(parts[i])[0]
    decreases |parts|
  {
    if parts != [] {
      UserItemsWithoutFiles(parts[1..]);
      assert forall i :: 1 <= i < |parts| ==> parts[i] == parts[1..][i - 1];
    }
  }

  /** The assistant's tool calls are its tool-call parts, in order, with id, name and arguments copied. */
  lemma {:induction false} AssistantCallsAppend(a: seq<AssistantPart>, b: seq<AssistantPart>)
    ensures AssistantCalls(a + b) == AssistantCalls(a) + AssistantCalls(b)
    ensures AssistantTexts(a + b) == AssistantTexts(a) + AssistantTexts(b)
  {
    AssistantCallsOfAppend(a, b);
    AssistantTextsOfAppend(a, b);
  }

  lemma {:induction false} AssistantCallsOfAppend(a: seq<AssistantPart>, b: seq<AssistantPart>)
    ensures AssistantCalls(a + b) == AssistantCalls(a) + AssistantCalls(b)
    decreases |a|
  {
    if a == [] {
      assert [] + b == b;
    } else {
      var head := if a[0].AssistantToolCall? then [ToolCall(a[0].toolCallId, a[0].toolName, a[0].args)] else [];
      assert (a + b)[0] == a[0];
      assert (a + b)[1..] == a[1..] + b;
      AssistantCallsOfAppend(a[1..], b);
      assert AssistantCalls(a + b) == head + (AssistantCalls(a[1..]) + AssistantCalls(b));
      assert head + (AssistantCalls(a[1..]) + AssistantCalls(b)) == (head + AssistantCalls(a[1..])) + AssistantCalls(b);
    }
  }

  lemma {:induction false} AssistantTextsOfAppend(a: seq<AssistantPart>, b: seq<AssistantPart>)
    ensures AssistantTexts(a + b) == AssistantTexts(a) + AssistantTexts(b)
    decreases |a|
  {
    if a == [] {
      assert [] + b == b;
    } else {
      var head := if a[0].AssistantText? then [a[0].text] else [];
      assert (a + b)[0] == a[0];
      assert (a + b)[1..] == a[1..] + b;
      AssistantTextsOfAppend(a[1..], b);
      assert AssistantTexts(a + b) == head + (AssistantTexts(a[1..]) + AssistantTexts(b));
      assert head + (AssistantTexts(a[1..]) + AssistantTexts(b)) == (head + AssistantTexts(a[1..])) + AssistantTexts(b);
    }
  }

  /** The converted assistant message has tool calls exactly when a tool-call part was sent. */
  lemma {:induction false} AssistantHasCalls(parts: seq<AssistantPart>)
    ensures AssistantCalls(parts) != [] <==> exists i :: 0 <= i < |parts| && parts[i].AssistantToolCall?
    decreases |parts|
  {
    if parts != [] {
      AssistantHasCalls(parts[1..]);
      if exists i :: 0 <= i < |parts[1..]| && parts[1..][i].AssistantToolCall? {
        var i :| 0 <= i < |parts[1..]| && parts[1..][i].AssistantToolCall?;
        assert parts[i + 1].AssistantToolCall?;
      }
      if exists i :: 0 <= i < |parts| && parts[i].AssistantToolCall? {
        var i :| 0 <= i < |parts| && parts[i].AssistantToolCall?;
        if i > 0 {
          assert parts[1..][i - 1].AssistantToolCall?;
        }
      }
    }
  }

  /** Each tool result becomes one tool message with its text and correlation id. */
  lemma ToolResultsConverted(results: seq<ToolResultPart>)
    ensures var r := ConvertOne(ToolWire(results));
            |r| == |results|
            && forall i :: 0 <= i < |results| ==> r[i] == Tool(results[i].result, results[i].toolCallId)
  {
  }

  // ---------------------------------------------------------------------------------------------
  // The answer and the stream
  // ---------------------------------------------------------------------------------------------

  /** One item of an update event: the node that ran and the messages its patch returned. */
  datatype NodeUpdate = NodeUpdate(node: string, messages: seq<Message>)

  /** The update's last message has non-empty content and no tool calls. */
  predicate Qualifies(u: NodeUpdate) {
    u.messages != []
    && u.messages[|u.messages| - 1].ContentOf().IsTruthy()
    && !u.messages[|u.messages| - 1].HasToolCalls()
  }

  function LastContent(u: NodeUpdate): Content
    requires u.messages != []
  {
    u.messages[|u.messages| - 1].ContentOf()
  }

  /** `final_response` after the updates: the content of the last qualifying one, `""` when none. */
  function FinalResponse(updates: seq<NodeUpdate>): Content
    decreases |updates|
  {
    if updates == [] then Str("")
    else if Qualifies(updates[|updates| - 1]) then LastContent(updates[|updates| - 1])
    else FinalResponse(updates[..|updates| - 1])
  }

  /** The loop over the updates, overwriting `final_response` on every qualifying one. */
  method SelectFinalResponse(updates: seq<NodeUpdate>) returns (finalResponse: Content)
    ensures finalResponse == FinalResponse(updates)
  {
    finalResponse := Str("");
    var i := 0;
    while i < |updates|
      invariant 0 <= i <= |updates|
      invariant finalResponse == FinalResponse(updates[..i])
    {
      assert updates[..i + 1][..i] == updates[..i];
      var u := updates[i];
      if u.messages != [] {
        var last := u.messages[|u.messages| - 1];
        if last.ContentOf().IsTruthy() && !last.HasToolCalls() {
          finalResponse := last.ContentOf();
        }
      }
      i := i + 1;
    }
    assert updates[..i] == updates;
  }

  datatype Frame = Delta(text: string) | Done

  const NoResponse := "No response was generated. Please try again."

  /** What `str(e)` gives when `split()` is called on a list. */
  const ListHasNoSplit := "'list' object has no attribute 'split'"

  /** One delta per word; every word but the last carries a trailing space. */
  function DeltaFrames(words: seq<string>): (r: seq<Frame>)
    ensures |r| == |words|
  {
    var chunks := SpacedChunks(words);
    seq(|chunks|, i requires 0 <= i < |chunks| => Delta(chunks[i]))
  }

  /** The loop that emits the deltas. */
  method EmitDeltas(words: seq<string>) returns (frames: seq<Frame>)
    ensures frames == DeltaFrames(words)
  {
    frames := [];
    var i := 0;
    while i < |words|
      invariant 0 <= i <= |words|
      invariant |frames| == i
      invariant forall k :: 0 <= k < i ==> frames[k] == Delta(SpacedChunks(words)[k])
    {
      SpacedChunkAt(words, i);
      frames := frames + [Delta(words[i] + (if i < |words| - 1 then " " else ""))];
      i := i + 1;
    }
  }

  /**
   * generate_sse, given the updates the graph streamed and the exception it raised, if any: the
   * deltas of the answer, or one fallback or error delta, and always the closing frame.
   */
  function GenerateSse(updates: seq<NodeUpdate>, raised: Option<string>): seq<Frame> {
    if raised.Some? then [Delta("Error: " + raised.value), Done]
    else
      var answer := FinalResponse(updates);
      if !answer.IsTruthy() then [Delta(NoResponse), Done]
      else if answer.Parts? then [Delta("Error: " + ListHasNoSplit), Done]
      else DeltaFrames(Words(answer.s)) + [Done]
  }

  /** The text the deltas carry, in order. */
  function DeltaTexts(frames: seq<Frame>): seq<string>
    decreases |frames|
  {
    if frames == [] then []
    else (if frames[0].Delta? then [frames[0].text] else []) + DeltaTexts(frames[1..])
  }

  // ---------------------------------------------------------------------------------------------
  // Lemmas about the answer and the stream
  // ---------------------------------------------------------------------------------------------

  /** The answer is the last qualifying update's content; with none, the empty text. */
  lemma {:induction false} FinalResponseIsLastQualifying(updates: seq<NodeUpdate>)
    ensures (forall i :: 0 <= i < |updates| ==> !Qualifies(updates[i])) ==> FinalResponse(updates) == Str("")
    ensures forall i :: 0 <= i < |updates| && Qualifies(updates[i])
                        && (forall j :: i < j < |updates| ==> !Qualifies(updates[j]))
                        ==> FinalResponse(updates) == LastContent(updates[i])
    decreases |updates|
  {
    if updates != [] {
      var n := |updates| - 1;
      var init := updates[..n];
      FinalResponseIsLastQualifying(init);
      assert forall i :: 0 <= i < n ==> init[i] == updates[i];
      forall i | 0 <= i < |updates| && Qualifies(updates[i]) && (forall j :: i < j < |updates| ==> !Qualifies(updates[j]))
        ensures FinalResponse(updates) == LastContent(updates[i])
      {
        if i < n {
          assert !Qualifies(updates[n]);
          assert Qualifies(init[i]) && forall j :: i < j < n ==> !Qualifies(init[j]);
        }
      }
    }
  }

  /** The answer is non-empty exactly when some update qualifies. */
  lemma {:induction false} FinalResponseTruthy(updates: seq<NodeUpdate>)
    ensures FinalResponse(updates).IsTruthy() <==> exists i :: 0 <= i < |updates| && Qualifies(updates[i])
    decreases |updates|
  {
    if updates != [] {
      var n := |updates| - 1;
      var init := updates[..n];
      FinalResponseTruthy(init);
      if exists i :: 0 <= i < n && Qualifies(init[i]) {
        var i :| 0 <= i < n && Qualifies(init[i]);
        assert Qualifies(updates[i]);
      }
      if exists i :: 0 <= i < |updates| && Qualifies(updates[i]) {
        var i :| 0 <= i < |updates| && Qualifies(updates[i]);
        if i < n {
          assert Qualifies(init[i]);
        }
      }
    }
  }

  lemma {:induction false} DeltaTextsAppend(a: seq<Frame>, b: seq<Frame>)
    ensures DeltaTexts(a + b) == DeltaTexts(a) + DeltaTexts(b)
    decreases |a|
  {
    if a == [] {
      assert [] + b == b;
    } else {
      assert (a + b)[1..] == a[1..] + b;
      DeltaTextsAppend(a[1..], b);
    }
  }

  lemma {:induction false} DeltaTextsOfDeltas(words: seq<string>)
    ensures DeltaTexts(DeltaFrames(words)) == SpacedChunks(words)
    decreases |words|
  {
    if words != [] {
      var chunks := SpacedChunks(words);
      DeltaTextsOfDeltas(words[1..]);
      assert DeltaFrames(words)[1..] == DeltaFrames(words[1..]) by {
        if |words| > 1 {
          assert SpacedChunks(words)[1..] == SpacedChunks(words[1..]);
        }
      }
    }
  }

  /** Every stream, the error path included, ends with the closing frame and has it nowhere else. */
  lemma StreamEndsWithDone(updates: seq<NodeUpdate>, raised: Option<string>)
    ensures var frames := GenerateSse(updates, raised);
            frames != [] && frames[|frames| - 1] == Done
            && forall i :: 0 <= i < |frames| - 1 ==> frames[i].Delta?
  {
  }

  /** An exception from the graph gives one error delta whatever was streamed before it. */
  lemma ErrorPath(updates: seq<NodeUpdate>, e: string)
    ensures GenerateSse(updates, Some(e)) == [Delta("Error: " + e), Done]
  {
  }

  /** With no qualifying update the stream is the single fallback delta and the closing frame. */
  lemma FallbackWhenNoAnswer(updates: seq<NodeUpdate>)
    requires forall i :: 0 <= i < |updates| ==> !Qualifies(updates[i])
    ensures GenerateSse(updates, None) == [Delta(NoResponse), Done]
  {
    FinalResponseIsLastQualifying(updates);
  }

  /**
   * A text answer is streamed so that the deltas concatenate to its words joined by single
   * spaces, and splitting that text again gives back the same words.
   */
  lemma StreamReconstructsAnswer(updates: seq<NodeUpdate>, answer: string)
    requires FinalResponse(updates) == Str(answer) && answer != ""
    ensures Concat(DeltaTexts(GenerateSse(updates, None))) == Join(Words(answer), " ")
    ensures Words(Concat(DeltaTexts(GenerateSse(updates, None)))) == Words(answer)
  {
    var words := Words(answer);
    DeltaTextsAppend(DeltaFrames(words), [Done]);
    assert DeltaTexts([Done]) == [];
    assert DeltaTexts(DeltaFrames(words) + [Done]) == DeltaTexts(DeltaFrames(words));
    DeltaTextsOfDeltas(words);
    ConcatSpacedChunks(words);
    WordsAreWords(answer);
    WordsOfJoin(words);
  }

  /** An answer made only of blanks is truthy, so no fallback is sent, yet it has no words: only the closing frame goes out. */
  lemma BlankAnswerStreamsNothing(updates: seq<NodeUpdate>, answer: string)
    requires FinalResponse(updates) == Str(answer) && answer != "" && Words(answer) == []
    ensures GenerateSse(updates, None) == [Done]
  {
  }
}
