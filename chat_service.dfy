/**
 * The chat client of `frontend/src/services/chat.ts`: the line-buffered reading of the server's
 * event stream, the canned replies of the offline demo mode, and the service object whose
 * `isOfflineMode` flag chooses between the two.
 *
 * The network is a parameter: what `fetch` delivered, as the decoded text chunks in arrival order,
 * or how it failed. `JSON.parse` is a parameter too, reduced to the two fields the client reads.
 */
module ChatService {
  import opened Wrappers
  import opened Text
  import ChatStore

  // ---------------------------------------------------------------------------------------------
  // Stream lines
  // ---------------------------------------------------------------------------------------------

  /** The fields of a parsed event the client looks at; a field that is absent or not a string is None. */
  datatype Parsed = Parsed(eventType: Option<string>, textDelta: Option<string>)

  /** `JSON.parse`: None when the text is not valid JSON. */
  type JsonParser = string -> Option<Parsed>

  const DataPrefix := "data: "
  const DoneMarker := "[DONE]"
  const TextDeltaType := "text-delta"

  /** What one complete line does to the stream. */
  datatype LineAction = Skip | Emit(fragment: string) | Finish

  function LineActionOf(line: string, parse: JsonParser): (r: LineAction)
    ensures r.Emit? ==> r.fragment != []
  {
    if JsTrim(line) == "" || !StartsWith(line, DataPrefix) then Skip
    else
      var data := line[|DataPrefix|..];
      if data == DoneMarker then Finish
      else
        match parse(data)
        case None => Skip
        case Some(p) =>
          if p.eventType == Some(TextDeltaType) && p.textDelta.Some? && p.textDelta.value != ""
          then Emit(p.textDelta.value) else Skip
  }

  /** How lines are told apart: `LineActionOf` with a given parser, or any other rule. */
  type Classifier = string -> LineAction

  function ClassifyWith(parse: JsonParser): Classifier {
    line => LineActionOf(line, parse)
  }

  /** What each line does, in order. */
  function Actions(lines: seq<string>, classify: Classifier): (r: seq<LineAction>)
    ensures |r| == |lines|
  {
    seq(|lines|, i requires 0 <= i < |lines| => classify(lines[i]))
  }

  /** The fragments a run of line actions yields, in order, and whether a `[DONE]` line ended it. */
  datatype Scanned = Scanned(fragments: seq<string>, finished: bool)

  function ScanActions(actions: seq<LineAction>): Scanned
    decreases |actions|
  {
    if actions == [] then Scanned([], false)
    else
      match actions[0]
      case Finish => Scanned([], true)
      case Skip => ScanActions(actions[1..])
      case Emit(f) =>
        var rest := ScanActions(actions[1..]);
        Scanned([f] + rest.fragments, rest.finished)
  }

  function Scan(lines: seq<string>, classify: Classifier): Scanned {
    ScanActions(Actions(lines, classify))
  }

  function Init<T>(s: seq<T>): seq<T>
    requires s != []
  {
    s[..|s| - 1]
  }

  function Last<T>(s: seq<T>): T
    requires s != []
  {
    s[|s| - 1]
  }

  /** The lines of a text that a newline has closed; what follows the last newline is not one. */
  function CompleteLines(text: string): seq<string> {
    Init(SplitOn(text, '\n'))
  }

  /** What the stream yields for the chunks `fetch` delivered. */
  function StreamFragments(chunks: seq<string>, parse: JsonParser): seq<string> {
    Scan(CompleteLines(Concat(chunks)), ClassifyWith(parse)).fragments
  }

  /** Whether a `[DONE]` line was among the complete lines of the chunks. */
  predicate StreamFinished(chunks: seq<string>, parse: JsonParser) {
    Scan(CompleteLines(Concat(chunks)), ClassifyWith(parse)).finished
  }

  // ---------------------------------------------------------------------------------------------
  // The demo responder
  // ---------------------------------------------------------------------------------------------

  datatype DemoTopic = Tables | Count | Samples | Fallback

  /** The if-chain on the lower-cased question: the first topic whose keywords occur wins. */
  function TopicOf(userQuery: string): DemoTopic {
    if Contains(userQuery, "table") || Contains(userQuery, "schema") then Tables
    else if Contains(userQuery, "count") || Contains(userQuery, "how many") then Count
    else if Contains(userQuery, "sample") || Contains(userQuery, "example") then Samples
    else Fallback
  }

  const DemoNote := "*Note: This is demo mode. Connect to the backend for real database queries.*"

  const TablesReply :=
    "I found information about the available data structures in your database.\n"
    + "Based on your query, I can see several data categories including:\n"
    + "- Company information\n"
    + "- Entity records  \n"
    + "- Transaction data\n"
    + "- Sales records\n"
    + "The database contains structured information across multiple data domains.\n"
    + DemoNote

  const CountReply :=
    "I've analyzed the data for your count request.\n"
    + "**Result:** 1,247 records found.\n"
    + "The count was successfully calculated based on your criteria.\n"
    + DemoNote

  const SamplesReply :=
    "Here are some sample results from your query:\n"
    + "| ID | Name | Category | Value |\n"
    + "|-----|------|----------|--------|\n"
    + "| 1 | Acme Corp | Technology | 50,000,000 |\n"
    + "| 2 | Global Inc | Manufacturing | 75,000,000 |\n"
    + "| 3 | StartupXYZ | Software | 2,500,000 |\n"
    + "This gives you an overview of the data structure and typical values.\n"
    + DemoNote

  const FallbackIntro := "I understand you're asking: \""

  const FallbackOutro :=
    "\"\n"
    + "I'm analyzing your request and will:\n"
    + "1. \U{1F50D} Examine the relevant data sources\n"
    + "2. \U{1F4CA} Process the information to find what you need  \n"
    + "3. \U{1F6E0}\U{FE0F} Generate the appropriate results\n"
    + "4. \U{2705} Present the findings in a clear format\n"
    + "*Note: This is demo mode. Start the backend server to connect to your actual database for real-time queries.*\n"
    + "To get started with live data, ensure your backend server is running on http://localhost:8000"

  function FallbackReply(asked: string): string {
    FallbackIntro + asked + FallbackOutro
  }

  function DemoQuery(topic: DemoTopic): string {
    match topic
    case Tables => "SELECT TABLE_NAME FROM INFORMATION_SCHEMA.TABLES WHERE TABLE_TYPE = 'BASE TABLE'"
    case Count => "SELECT COUNT(*) FROM refined_zone_operational.T_MTR_COMPANY WHERE status = 'active'"
    case Samples => "SELECT TOP 3 id, name, category, value FROM refined_zone_operational.T_MTR_COMPANY ORDER BY value DESC"
    case Fallback => "SELECT * FROM relevant_table WHERE condition = 'user_criteria'"
  }

  const QuerySectionHead := "\n\n---\n**Technical Details (SQL Query Executed):**\n```sql\n"
  const QuerySectionTail := "\n```"

  function QuerySection(query: string): string {
    QuerySectionHead + query + QuerySectionTail
  }

  /** The last message's text as the template prints it: `undefined` when there is no message. */
  function AskedText(messages: seq<ChatStore.ChatMessage>): string {
    if messages == [] then "undefined" else Last(messages).content
  }

  /** The lower-cased last message, or the empty text when there is none. */
  function UserQuery(messages: seq<ChatStore.ChatMessage>): string {
    if messages == [] then "" else Lower(Last(messages).content)
  }

  function TopicReply(topic: DemoTopic, asked: string): string {
    match topic
    case Tables => TablesReply
    case Count => CountReply
    case Samples => SamplesReply
    case Fallback => FallbackReply(asked)
  }

  /** The whole demo reply, with the SQL section when asked for. */
  function DemoReply(messages: seq<ChatStore.ChatMessage>, showQuery: bool): string {
    var topic := TopicOf(UserQuery(messages));
    var reply := TopicReply(topic, AskedText(messages));
    if showQuery then reply + QuerySection(DemoQuery(topic)) else reply
  }

  /** The chunks the demo yields: the reply split on single spaces, a space kept after all but the last. */
  function DemoChunks(messages: seq<ChatStore.ChatMessage>, showQuery: bool): seq<string> {
    SpacedChunks(SplitOn(DemoReply(messages, showQuery), ' '))
  }

  // ---------------------------------------------------------------------------------------------
  // The service
  // ---------------------------------------------------------------------------------------------

  /** How the request to the backend went. */
  datatype Transport =
    | Delivered(chunks: seq<string>)                    // a response body, read to its end
    | Interrupted(chunks: seq<string>, aboutFetch: bool) // the body's reader raised after these chunks;
                                                         // `aboutFetch`: a TypeError whose message mentions fetch
    | Unreachable                                       // fetch raised a TypeError about fetch
    | Failed                                            // any other error: a bad status, no body

  /** The `for` loop over one batch of complete lines: what they yield, and whether `[DONE]` was among them. */
  method HandleLines(lines: seq<string>, parse: JsonParser) returns (fragments: seq<string>, finished: bool)
    ensures Scan(lines, ClassifyWith(parse)) == Scanned(fragments, finished)
  {
    fragments := [];
    var j := 0;
    while j < |lines|
      invariant 0 <= j <= |lines|
      invariant Scan(lines[..j], ClassifyWith(parse)) == Scanned(fragments, false)
    {
      assert lines[..j + 1] == lines[..j] + [lines[j]];
      ScanSnoc(lines[..j], lines[j], ClassifyWith(parse));
      var action := LineActionOf(lines[j], parse);
      if action.Finish? {
        ScanAppend(lines[..j + 1], lines[j + 1..], ClassifyWith(parse));
        assert lines[..j + 1] + lines[j + 1..] == lines;
        return fragments, true;
      }
      if action.Emit? {
        fragments := fragments + [action.fragment];
      }
      j := j + 1;
    }
    assert lines[..j] == lines;
    finished := false;
  }

  /**
   * The body of streamChat's read loop: the buffer keeps the text after the last newline, every
   * complete line is handled in order, and a `[DONE]` line ends the stream.
   */
  method ReadStream(chunks: seq<string>, parse: JsonParser) returns (fragments: seq<string>, finished: bool)
    ensures fragments == StreamFragments(chunks, parse)
    ensures finished == StreamFinished(chunks, parse)
  {
    var buffer := "";
    fragments := [];
    var i := 0;
    while i < |chunks|
      invariant 0 <= i <= |chunks|
      invariant buffer == Last(SplitOn(Concat(chunks[..i]), '\n'))
      invariant Scan(CompleteLines(Concat(chunks[..i])), ClassifyWith(parse)) == Scanned(fragments, false)
    {
      var lines := SplitOn(buffer + chunks[i], '\n');
      var complete := Init(lines);
      buffer := Last(lines);
      BufferedLines(chunks, i, complete);
      var more, done := HandleLines(complete, parse);
      ScanAppend(CompleteLines(Concat(chunks[..i])), complete, ClassifyWith(parse));
      fragments := fragments + more;
      if done {
        FinishedStreamIgnoresRest(chunks, i + 1, parse);
        return fragments, true;
      }
      i := i + 1;
    }
    assert chunks[..i] == chunks;
    finished := false;
  }

  /** One more chunk closes the lines of the buffer followed by the chunk, and leaves the rest buffered. */
  lemma BufferedLines(chunks: seq<string>, i: nat, complete: seq<string>)
    requires i < |chunks|
    requires complete == Init(SplitOn(Last(SplitOn(Concat(chunks[..i]), '\n')) + chunks[i], '\n'))
    ensures CompleteLines(Concat(chunks[..i + 1])) == CompleteLines(Concat(chunks[..i])) + complete
    ensures Last(SplitOn(Concat(chunks[..i + 1]), '\n'))
            == Last(SplitOn(Last(SplitOn(Concat(chunks[..i]), '\n')) + chunks[i], '\n'))
  {
    ConcatPrefix(chunks, i);
    SplitOnAppend(Concat(chunks[..i]), chunks[i], '\n');
  }

  /** getDemoResponse's loop: one chunk per word, each but the last with its space back. */
  method ChunkWords(text: string) returns (chunks: seq<string>)
    ensures chunks == SpacedChunks(SplitOn(text, ' '))
  {
    var words := SplitOn(text, ' ');
    chunks := [];
    var i := 0;
    while i < |words|
      invariant 0 <= i <= |words|
      invariant |chunks| == i
      invariant forall k :: 0 <= k < i ==> chunks[k] == SpacedChunks(words)[k]
    {
      SpacedChunkAt(words, i);
      chunks := chunks + [words[i] + (if i < |words| - 1 then " " else "")];
      i := i + 1;
    }
  }

  /** getDemoResponse: the reply for the conversation, streamed word by word. */
  method DemoStream(messages: seq<ChatStore.ChatMessage>, showQuery: bool) returns (chunks: seq<string>)
    ensures chunks == DemoChunks(messages, showQuery)
  {
    var reply := DemoReply(messages, showQuery);
    chunks := ChunkWords(reply);
  }

  class Service {
    var isOfflineMode: bool

    constructor()
      ensures !isOfflineMode
    {
      isOfflineMode := false;
    }

    method SetOfflineMode(offline: bool)
      modifies this
      ensures isOfflineMode == offline
    {
      isOfflineMode := offline;
    }

    /**
     * streamChat: the demo reply in offline mode; otherwise what the server streams, or, when the
     * backend cannot be reached, offline mode from now on and the demo reply. A failure before the
     * body is read is raised (`raised`) after nothing was yielded. When the reader raises midway,
     * what the lines read so far yielded stays yielded; unless `[DONE]` had already ended the
     * stream, the error is then raised, or, for a TypeError about fetch, offline mode is switched
     * on and the demo reply follows.
     */
    method StreamChat(messages: seq<ChatStore.ChatMessage>, showQuery: bool, transport: Transport, parse: JsonParser)
      returns (fragments: seq<string>, raised: bool)
      modifies this
      ensures old(isOfflineMode) ==> fragments == DemoChunks(messages, showQuery) && !raised && isOfflineMode
      ensures !old(isOfflineMode) && transport.Delivered? ==>
                fragments == StreamFragments(transport.chunks, parse) && !raised && !isOfflineMode
      ensures !old(isOfflineMode) && transport.Unreachable? ==>
                fragments == DemoChunks(messages, showQuery) && !raised && isOfflineMode
      ensures !old(isOfflineMode) && transport.Failed? ==> fragments == [] && raised && !isOfflineMode
      ensures !old(isOfflineMode) && transport.Interrupted? ==>
                var read := StreamFragments(transport.chunks, parse);
                if StreamFinished(transport.chunks, parse) then fragments == read && !raised && !isOfflineMode
                else if transport.aboutFetch then
                  fragments == read + DemoChunks(messages, showQuery) && !raised && isOfflineMode
                else fragments == read && raised && !isOfflineMode
    {
      if isOfflineMode {
        fragments := DemoStream(messages, showQuery);
        return fragments, false;
      }
      match transport
      case Delivered(chunks) =>
        var finished;
        fragments, finished := ReadStream(chunks, parse);
        raised := false;
      case Interrupted(chunks, aboutFetch) =>
        var finished;
        fragments, finished := ReadStream(chunks, parse);
        raised := false;
        if !finished {
          if aboutFetch {
            isOfflineMode := true;
            var demo := DemoStream(messages, showQuery);
            fragments := fragments + demo;
          } else {
            raised := true;
          }
        }
      case Unreachable =>
        isOfflineMode := true;
        fragments := DemoStream(messages, showQuery);
        raised := false;
      case Failed =>
        fragments := [];
        raised := true;
    }
  }

  // ---------------------------------------------------------------------------------------------
  // Lemmas: the stream
  // ---------------------------------------------------------------------------------------------

  lemma ConcatPrefix(chunks: seq<string>, i: nat)
    requires i < |chunks|
    ensures Concat(chunks[..i + 1]) == Concat(chunks[..i]) + chunks[i]
  {
    assert chunks[..i + 1] == chunks[..i] + [chunks[i]];
    ConcatAppend(chunks[..i], chunks[i]);
  }

  /**
   * Splitting text that arrives in two parts: the lines closed in the first part, then the split
   * of its unfinished last line followed by the second part. This is why the buffer is enough.
   */
  lemma {:induction false} SplitOnAppend(a: string, b: string, sep: char)
    ensures SplitsAcross(a, b, sep)
    decreases |a|
  {
    if a == [] {
      assert a + b == b;
    } else {
      SplitOnAppend(a[1..], b, sep);
      if a[0] == sep {
        SplitsAcrossSeparator(a, b, sep);
      } else if |SplitOn(a[1..], sep)| > 1 {
        SplitsAcrossLongLine(a, b, sep);
      } else {
        SplitsAcrossShortLine(a, b, sep);
      }
    }
  }

  ghost predicate SplitsAcross(a: string, b: string, sep: char) {
    SplitOn(a + b, sep) == Init(SplitOn(a, sep)) + SplitOn(Last(SplitOn(a, sep)) + b, sep)
  }

  lemma SplitsAcrossSeparator(a: string, b: string, sep: char)
    requires a != [] && a[0] == sep && SplitsAcross(a[1..], b, sep)
    ensures SplitsAcross(a, b, sep)
  {
    var r := SplitOn(a[1..], sep);
    assert a + b == [sep] + (a[1..] + b);
    assert a == [sep] + a[1..];
    SplitOnSep(a[1..] + b, sep);
    SplitOnSep(a[1..], sep);
    ConsInitLast("", r, SplitOn(a[1..] + b, sep), SplitOn(Last(r) + b, sep));
  }

  /** Putting `x` in front of `r` puts it in front of its front part and keeps its last element. */
  lemma ConsInitLast<T>(x: T, r: seq<T>, joined: seq<T>, tail: seq<T>)
    requires r != [] && joined == Init(r) + tail
    ensures [x] + joined == Init([x] + r) + tail && Last([x] + r) == Last(r)
  {
    assert Init([x] + r) == [x] + Init(r);
  }

  lemma SplitOnSep(s: string, sep: char)
    ensures SplitOn([sep] + s, sep) == [""] + SplitOn(s, sep)
  {
    assert ([sep] + s)[1..] == s;
  }

  lemma SplitsAcrossLongLine(a: string, b: string, sep: char)
    requires a != [] && a[0] != sep && |SplitOn(a[1..], sep)| > 1 && SplitsAcross(a[1..], b, sep)
    ensures SplitsAcross(a, b, sep)
  {
    var c := a[0];
    var r := SplitOn(a[1..], sep);
    var joined := SplitOn(a[1..] + b, sep);
    var tail := SplitOn(Last(r) + b, sep);
    assert a + b == [c] + (a[1..] + b);
    assert a == [c] + a[1..];
    SplitOnCons(c, a[1..] + b, sep);
    SplitOnCons(c, a[1..], sep);
    PrependToFirst([c] + r[0], r, Init(r), tail, joined);
  }

  /**
   * Replacing the first element of `r` by `x` keeps its last element and replaces the first
   * element of its front; a sequence that is that front followed by `tail` changes alike.
   */
  lemma PrependToFirst<T>(x: T, r: seq<T>, front: seq<T>, tail: seq<T>, joined: seq<T>)
    requires |r| > 1 && front == Init(r) && joined == front + tail
    ensures [x] + joined[1..] == Init([x] + r[1..]) + tail
    ensures Last([x] + r[1..]) == Last(r)
  {
    assert joined[1..] == front[1..] + tail;
    assert Init([x] + r[1..]) == [x] + front[1..];
  }

  lemma SplitsAcrossShortLine(a: string, b: string, sep: char)
    requires a != [] && a[0] != sep && |SplitOn(a[1..], sep)| == 1 && SplitsAcross(a[1..], b, sep)
    ensures SplitsAcross(a, b, sep)
  {
    var head := [a[0]] + SplitOn(a[1..], sep)[0];
    ShortLineSplit(a, sep);
    ShortLineAppend(a, b, sep);
    assert Init(SplitOn(a, sep)) == [];
    assert Last(SplitOn(a, sep)) == head;
  }

  lemma ShortLineSplit(a: string, sep: char)
    requires a != [] && a[0] != sep && |SplitOn(a[1..], sep)| == 1
    ensures SplitOn(a, sep) == [[a[0]] + SplitOn(a[1..], sep)[0]]
  {
    assert a == [a[0]] + a[1..];
    SplitOnCons(a[0], a[1..], sep);
  }

  lemma ShortLineAppend(a: string, b: string, sep: char)
    requires a != [] && a[0] != sep && |SplitOn(a[1..], sep)| == 1 && SplitsAcross(a[1..], b, sep)
    ensures SplitOn(a + b, sep) == SplitOn(([a[0]] + SplitOn(a[1..], sep)[0]) + b, sep)
  {
    var c := a[0];
    var line := SplitOn(a[1..], sep)[0];
    assert SplitOn(a[1..] + b, sep) == SplitOn(line + b, sep);
    assert a + b == [c] + (a[1..] + b);
    assert ([c] + line) + b == [c] + (line + b);
    SplitOnCons(c, a[1..] + b, sep);
    SplitOnCons(c, line + b, sep);
  }

  lemma SplitOnCons(c: char, s: string, sep: char)
    requires c != sep
    ensures SplitOn([c] + s, sep) == [[c] + SplitOn(s, sep)[0]] + SplitOn(s, sep)[1..]
  {
    assert ([c] + s)[1..] == s;
  }

  /** The buffer never holds a newline: it is the text after the last one. */
  lemma BufferHasNoNewline(text: string)
    ensures '\n' !in Last(SplitOn(text, '\n'))
    ensures Join(CompleteLines(text) + [Last(SplitOn(text, '\n'))], "\n") == text
  {
    var s := SplitOn(text, '\n');
    SplitOnPieces(text, '\n');
    JoinSplitOn(text, '\n');
    InitLast(s);
    assert "\n" == ['\n'];
  }

  lemma InitLast<T>(s: seq<T>)
    requires s != []
    ensures Init(s) + [Last(s)] == s
  {
  }

  /** Scanning two runs of actions: the second is not looked at once the first has met `[DONE]`. */
  lemma {:induction false} ScanActionsAppend(a: seq<LineAction>, b: seq<LineAction>)
    ensures ScanActions(a + b)
            == if ScanActions(a).finished then ScanActions(a)
               else Scanned(ScanActions(a).fragments + ScanActions(b).fragments, ScanActions(b).finished)
    decreases |a|
  {
    if a == [] {
      assert a + b == b;
    } else {
      assert (a + b)[0] == a[0];
      assert (a + b)[1..] == a[1..] + b;
      ScanActionsAppend(a[1..], b);
    }
  }

  /** One more line after lines that did not finish: it ends, extends or leaves the scan. */
  lemma ScanSnoc(lines: seq<string>, line: string, classify: Classifier)
    requires !Scan(lines, classify).finished
    ensures var r := Scan(lines, classify);
            var action := classify(line);
            Scan(lines + [line], classify)
            == if action.Finish? then Scanned(r.fragments, true)
               else if action.Emit? then Scanned(r.fragments + [action.fragment], false)
               else r
  {
    ScanAppend(lines, [line], classify);
    var x := classify(line);
    assert Actions([line], classify) == [x];
    assert [x][1..] == [];
    assert ScanActions([x]) == (if x.Finish? then Scanned([], true)
                                else if x.Emit? then Scanned([x.fragment], false)
                                else Scanned([], false));
  }

  /** Scanning two runs of lines: the second is not read once the first has met `[DONE]`. */
  lemma ScanAppend(a: seq<string>, b: seq<string>, classify: Classifier)
    ensures Scan(a + b, classify)
            == if Scan(a, classify).finished then Scan(a, classify)
               else Scanned(Scan(a, classify).fragments + Scan(b, classify).fragments, Scan(b, classify).finished)
  {
    assert Actions(a + b, classify) == Actions(a, classify) + Actions(b, classify);
    ScanActionsAppend(Actions(a, classify), Actions(b, classify));
  }

  /** Once a `[DONE]` line has been read, no later chunk changes what was yielded. */
  lemma FinishedStreamIgnoresRest(chunks: seq<string>, i: nat, parse: JsonParser)
    requires i <= |chunks|
    requires Scan(CompleteLines(Concat(chunks[..i])), ClassifyWith(parse)).finished
    ensures StreamFragments(chunks, parse) == Scan(CompleteLines(Concat(chunks[..i])), ClassifyWith(parse)).fragments
    ensures StreamFinished(chunks, parse)
  {
    var a := Concat(chunks[..i]);
    var b := Concat(chunks[i..]);
    ConcatSplit(chunks, i);
    SplitOnAppend(a, b, '\n');
    var rest := SplitOn(Last(SplitOn(a, '\n')) + b, '\n');
    assert CompleteLines(a + b) == CompleteLines(a) + Init(rest);
    ScanAppend(CompleteLines(a), Init(rest), ClassifyWith(parse));
  }

  lemma {:induction false} ConcatSplit(chunks: seq<string>, i: nat)
    requires i <= |chunks|
    ensures Concat(chunks) == Concat(chunks[..i]) + Concat(chunks[i..])
    decreases i
  {
    if i > 0 {
      ConcatSplit(chunks[1..], i - 1);
      assert chunks[1..][..i - 1] == chunks[1..i];
      assert chunks[1..][i - 1..] == chunks[i..];
      assert chunks[..i][1..] == chunks[1..i];
    } else {
      assert chunks[..0] == [];
      assert chunks[0..] == chunks;
    }
  }

  lemma {:induction false} ScannedFragmentsAreEmitted(actions: seq<LineAction>)
    ensures forall f :: f in ScanActions(actions).fragments ==> exists k :: 0 <= k < |actions| && actions[k] == Emit(f)
    decreases |actions|
  {
    if actions != [] {
      ScannedFragmentsAreEmitted(actions[1..]);
      forall f | f in ScanActions(actions[1..]).fragments
        ensures exists k :: 0 <= k < |actions| && actions[k] == Emit(f)
      {
        var k :| 0 <= k < |actions[1..]| && actions[1..][k] == Emit(f);
        assert actions[k + 1] == actions[1..][k];
      }
    }
  }

  /** Every fragment comes from one line that parsed as a text delta with non-empty text. */
  lemma FragmentsComeFromDeltas(lines: seq<string>, parse: JsonParser)
    ensures forall f :: f in Scan(lines, ClassifyWith(parse)).fragments ==>
              f != [] && exists k :: 0 <= k < |lines| && LineActionOf(lines[k], parse) == Emit(f)
  {
    ScannedFragmentsAreEmitted(Actions(lines, ClassifyWith(parse)));
  }

  /** A text-delta line yields its text; what the client yields is the emitted texts in line order. */
  lemma DeltaLineYields(line: string, data: string, delta: string, parse: JsonParser)
    requires line == DataPrefix + data && data != DoneMarker
    requires parse(data) == Some(Parsed(Some(TextDeltaType), Some(delta))) && delta != ""
    ensures LineActionOf(line, parse) == Emit(delta)
  {
    assert line[..|DataPrefix|] == DataPrefix;
    assert line[|DataPrefix|..] == data;
    DataLineNotBlank(line);
  }

  /** A line that starts with `data: ` is never blank. */
  lemma DataLineNotBlank(line: string)
    requires StartsWith(line, DataPrefix)
    ensures JsTrim(line) != ""
  {
    assert line[0] == DataPrefix[0];
    assert TrimStart(line, IsJsSpace) == line;
    TrimEndKeeps(line, IsJsSpace, 0);
  }

  /** A line that is not valid JSON, or not a non-empty text delta, is passed over and reading goes on. */
  lemma SkippedLinesChangeNothing(line: string, rest: seq<string>, parse: JsonParser)
    requires StartsWith(line, DataPrefix) && line[|DataPrefix|..] != DoneMarker
    requires parse(line[|DataPrefix|..]).None?
             || parse(line[|DataPrefix|..]).value.eventType != Some(TextDeltaType)
             || parse(line[|DataPrefix|..]).value.textDelta.None?
             || parse(line[|DataPrefix|..]).value.textDelta == Some("")
    ensures Scan([line] + rest, ClassifyWith(parse)) == Scan(rest, ClassifyWith(parse))
  {
    var actions := Actions([line] + rest, ClassifyWith(parse));
    assert actions[0] == Skip by {
      SkippedLine(line, parse);
    }
    assert actions[1..] == Actions(rest, ClassifyWith(parse));
  }

  lemma SkippedLine(line: string, parse: JsonParser)
    requires StartsWith(line, DataPrefix) && line[|DataPrefix|..] != DoneMarker
    requires parse(line[|DataPrefix|..]).None?
             || parse(line[|DataPrefix|..]).value.eventType != Some(TextDeltaType)
             || parse(line[|DataPrefix|..]).value.textDelta.None?
             || parse(line[|DataPrefix|..]).value.textDelta == Some("")
    ensures LineActionOf(line, parse) == Skip
  {
    DataLineNotBlank(line);
  }

  /** The `[DONE]` line ends the stream: nothing after it is read. */
  lemma DoneEndsStream(before: seq<string>, after: seq<string>, parse: JsonParser)
    ensures Scan(before + [DataPrefix + DoneMarker] + after, ClassifyWith(parse))
            == if Scan(before, ClassifyWith(parse)).finished then Scan(before, ClassifyWith(parse))
               else Scanned(Scan(before, ClassifyWith(parse)).fragments, true)
  {
    var done := DataPrefix + DoneMarker;
    assert done[..|DataPrefix|] == DataPrefix;
    assert done[|DataPrefix|..] == DoneMarker;
    DataLineNotBlank(done);
    assert LineActionOf(done, parse) == Finish;
    assert Scan([done] + after, ClassifyWith(parse)) == Scanned([], true) by {
      assert Actions([done] + after, ClassifyWith(parse))[0] == Finish;
    }
    assert before + [done] + after == before + ([done] + after);
    ScanAppend(before, [done] + after, ClassifyWith(parse));
  }

  /** Text after the last newline is never handled, even when the stream ends there. */
  lemma UnfinishedLineIgnored(chunks: seq<string>, line: string, parse: JsonParser)
    requires '\n' !in line
    ensures StreamFragments(chunks + [line], parse) == StreamFragments(chunks, parse)
  {
    var text := Concat(chunks);
    ConcatAppend(chunks, line);
    SplitOnAppend(text, line, '\n');
    SplitOnPieces(text, '\n');
    var pending := Last(SplitOn(text, '\n'));
    assert '\n' !in pending;
    assert '\n' !in pending + line by {
      forall k | 0 <= k < |pending + line|
        ensures (pending + line)[k] != '\n'
      {
        if k < |pending| {
          assert (pending + line)[k] == pending[k];
        } else {
          assert (pending + line)[k] == line[k - |pending|];
        }
      }
    }
    NoSeparatorOnePiece(pending + line, '\n');
    assert CompleteLines(text + line) == CompleteLines(text);
  }

  lemma {:induction false} NoSeparatorOnePiece(s: string, sep: char)
    requires sep !in s
    ensures SplitOn(s, sep) == [s]
    decreases |s|
  {
    if s != [] {
      NoSeparatorOnePiece(s[1..], sep);
      assert [s[0]] + s[1..] == s;
    }
  }

  // ---------------------------------------------------------------------------------------------
  // Lemmas: the demo responder
  // ---------------------------------------------------------------------------------------------

  /** The topics in priority order: each wins exactly when its keywords occur and no earlier topic's do. */
  lemma TopicPriority(q: string)
    ensures TopicOf(q) == Tables <==> Contains(q, "table") || Contains(q, "schema")
    ensures TopicOf(q) == Count <==>
              !(Contains(q, "table") || Contains(q, "schema")) && (Contains(q, "count") || Contains(q, "how many"))
    ensures TopicOf(q) == Samples <==>
              !(Contains(q, "table") || Contains(q, "schema")) && !(Contains(q, "count") || Contains(q, "how many"))
              && (Contains(q, "sample") || Contains(q, "example"))
    ensures TopicOf(q) == Fallback <==>
              !Contains(q, "table") && !Contains(q, "schema") && !Contains(q, "count")
              && !Contains(q, "how many") && !Contains(q, "sample") && !Contains(q, "example")
  {
  }

  /**
   * The question is matched without regard to case, and only the last message counts: upper- or
   * lower-casing the last message, or replacing everything before it, keeps the topic.
   */
  lemma TopicIgnoresCase(messages: seq<ChatStore.ChatMessage>, earlier: seq<ChatStore.ChatMessage>)
    requires messages != []
    ensures var last := Last(messages);
            var front := messages[..|messages| - 1];
            TopicOf(UserQuery(front + [last.(content := Upper(last.content))])) == TopicOf(UserQuery(messages))
            && TopicOf(UserQuery(front + [last.(content := Lower(last.content))])) == TopicOf(UserQuery(messages))
            && TopicOf(UserQuery(earlier + [last])) == TopicOf(UserQuery(messages))
  {
    var last := Last(messages);
    LowerOfUpper(last.content);
    assert Last(messages[..|messages| - 1] + [last.(content := Upper(last.content))]).content == Upper(last.content);
    assert Last(messages[..|messages| - 1] + [last.(content := Lower(last.content))]).content == Lower(last.content);
    assert Last(earlier + [last]) == last;
  }

  /** With no message at all the question is empty, so the fallback reply is chosen, quoting `undefined`. */
  lemma NoMessagesFallback(messages: seq<ChatStore.ChatMessage>)
    requires messages == []
    ensures UserQuery(messages) == "" && TopicOf(UserQuery(messages)) == Fallback
    ensures AskedText(messages) == "undefined"
  {
  }

  /** The SQL section is added, after the reply, exactly when it is asked for. */
  lemma QuerySectionWhenAsked(messages: seq<ChatStore.ChatMessage>, showQuery: bool)
    ensures var topic := TopicOf(UserQuery(messages));
            var reply := TopicReply(topic, AskedText(messages));
            (showQuery ==> DemoReply(messages, showQuery) == reply + QuerySection(DemoQuery(topic))
                           && Contains(DemoReply(messages, showQuery), DemoQuery(topic)))
            && (!showQuery ==> DemoReply(messages, showQuery) == reply)
  {
    var topic := TopicOf(UserQuery(messages));
    var reply := TopicReply(topic, AskedText(messages));
    if showQuery {
      QuerySectionShowsQuery(reply, DemoQuery(topic));
    }
  }

  lemma QuerySectionShowsQuery(reply: string, q: string)
    ensures Contains(reply + QuerySection(q), q)
  {
    var head := reply + QuerySectionHead;
    assert reply + QuerySection(q) == head + q + QuerySectionTail;
    ContainsMiddle(head, q, QuerySectionTail);
  }

  /** The demo chunks put together give back the whole reply, and none but the last is without its space. */
  lemma DemoChunksRebuildReply(messages: seq<ChatStore.ChatMessage>, showQuery: bool)
    ensures Concat(DemoChunks(messages, showQuery)) == DemoReply(messages, showQuery)
    ensures var words := SplitOn(DemoReply(messages, showQuery), ' ');
            |DemoChunks(messages, showQuery)| == |words|
            && forall i :: 0 <= i < |words| - 1 ==> DemoChunks(messages, showQuery)[i] == words[i] + " "
  {
    var reply := DemoReply(messages, showQuery);
    var words := SplitOn(reply, ' ');
    ConcatSpacedChunks(words);
    JoinSplitOn(reply, ' ');
    forall i | 0 <= i < |words| - 1
      ensures DemoChunks(messages, showQuery)[i] == words[i] + " "
    {
      SpacedChunkAt(words, i);
    }
  }
}
