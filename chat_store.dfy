/**
 * The chat store of `frontend/src/stores/chat.ts`: a list of chats, each with its list of
 * messages, and the id of the current chat. Every operation finds its chat (and message) by id,
 * the first match winning, and changes it in place.
 *
 * Ids are supplied by the caller (the store draws them at random), timestamps and the browser's
 * storage are not modelled; what storage held at start-up is a constructor argument.
 */
module ChatStore {
  import opened Wrappers

  datatype Role = User | Assistant

  datatype ChatMessage = ChatMessage(
    id: string,
    role: Role,
    content: string,
    isEditing: Option<bool>,
    isLoading: Option<bool>)

  /** A message as the caller hands it to `addMessage`: everything but its id. */
  datatype NewMessage = NewMessage(role: Role, content: string, isEditing: Option<bool>, isLoading: Option<bool>)

  datatype Chat = Chat(id: string, title: string, messages: seq<ChatMessage>)

  /** The store's two refs, as one value. */
  datatype Snapshot = Snapshot(chats: seq<Chat>, current: Option<string>)

  /** The three in-place changes to one message. */
  datatype Edit =
    | Updated(content: string)   // updateMessage
    | Editing(on: bool)          // startMessageEditing / cancelMessageEditing
    | Loaded(content: string)    // updateLoadingMessage

  const NewChatTitle := "New Chat"
  const TitleLength := 50

  // ---------------------------------------------------------------------------------------------
  // Lookups
  // ---------------------------------------------------------------------------------------------

  /** `xs.findIndex(x => key(x) === id)`, as an option: the first element whose key is `id`. */
  function FirstWithKey<T>(xs: seq<T>, key: T -> string, id: string): (r: Option<nat>)
    ensures r.Some? ==> r.value < |xs| && key(xs[r.value]) == id
                        && forall j :: 0 <= j < r.value ==> key(xs[j]) != id
    ensures r.None? ==> forall j :: 0 <= j < |xs| ==> key(xs[j]) != id
    decreases |xs|
  {
    if xs == [] then None
    else if key(xs[0]) == id then Some(0)
    else
      match FirstWithKey(xs[1..], key, id)
      case None => None
      case Some(i) => Some(i + 1)
  }

  /** `chats.findIndex(chat => chat.id === id)`. */
  function ChatIndex(chats: seq<Chat>, id: string): (r: Option<nat>)
    ensures r.Some? ==> r.value < |chats| && chats[r.value].id == id
                        && forall j :: 0 <= j < r.value ==> chats[j].id != id
    ensures r.None? ==> forall j :: 0 <= j < |chats| ==> chats[j].id != id
  {
    FirstWithKey(chats, (c: Chat) => c.id, id)
  }

  /** `messages.findIndex(m => m.id === id)`. */
  function MessageIndex(messages: seq<ChatMessage>, id: string): (r: Option<nat>)
    ensures r.Some? ==> r.value < |messages| && messages[r.value].id == id
                        && forall j :: 0 <= j < r.value ==> messages[j].id != id
    ensures r.None? ==> forall j :: 0 <= j < |messages| ==> messages[j].id != id
  {
    FirstWithKey(messages, (m: ChatMessage) => m.id, id)
  }

  function RemoveAt<T>(s: seq<T>, i: nat): seq<T>
    requires i < |s|
  {
    s[..i] + s[i + 1..]
  }

  /** The UTF-16 code units of one character: two outside the Basic Multilingual Plane. */
  function CodeUnits(c: char): nat {
    if c as int > 0xFFFF then 2 else 1
  }

  /** JavaScript's `s.length`, which counts UTF-16 code units. */
  function JsLength(s: string): nat
    decreases |s|
  {
    if s == [] then 0 else CodeUnits(s[0]) + JsLength(s[1..])
  }

  /** JavaScript's `s.slice(0, n)` in whole characters: the characters of `s` while they fit in `n` code units. */
  function JsSlice(s: string, n: nat): string
    decreases |s|
  {
    if s == [] || CodeUnits(s[0]) > n then [] else [s[0]] + JsSlice(s[1..], n - CodeUnits(s[0]))
  }

  /** A chat's title from its first user message: at most 50 code units, then "..." if cut. */
  function TitleFor(content: string): string {
    JsSlice(content, TitleLength) + (if JsLength(content) > TitleLength then "..." else "")
  }

  function ApplyEdit(m: ChatMessage, e: Edit): ChatMessage {
    match e
    case Updated(c) => m.(content := c, isEditing := Some(false))
    case Editing(on) => m.(isEditing := Some(on))
    case Loaded(c) => m.(content := c, isLoading := Some(false))
  }

  /** The current chat id names one of the chats. */
  predicate Valid(s: Snapshot) {
    s.current.Some? && ChatIndex(s.chats, s.current.value).Some?
  }

  // ---------------------------------------------------------------------------------------------
  // The operations on values
  // ---------------------------------------------------------------------------------------------

  /** Start-up: the saved chats and current id (an empty saved id means none), then a first chat if there is none. */
  function Startup(saved: seq<Chat>, savedCurrent: string, freshId: string): Snapshot {
    var s := Snapshot(saved, if savedCurrent != "" then Some(savedCurrent) else None);
    if saved == [] then CreateNewChatSpec(s, freshId) else s
  }

  function CreateNewChatSpec(s: Snapshot, id: string): Snapshot {
    Snapshot([Chat(id, NewChatTitle, [])] + s.chats, Some(id))
  }

  function SelectChatSpec(s: Snapshot, id: string): Snapshot {
    s.(current := Some(id))
  }

  function DeleteChatSpec(s: Snapshot, id: string, freshId: string): Snapshot {
    match ChatIndex(s.chats, id)
    case None => s
    case Some(i) =>
      var rest := RemoveAt(s.chats, i);
      if s.current != Some(id) then Snapshot(rest, s.current)
      else if rest != [] then Snapshot(rest, Some(rest[0].id))
      else CreateNewChatSpec(Snapshot(rest, None), freshId)
  }

  function AddMessageSpec(s: Snapshot, chatId: string, m: NewMessage, messageId: string): Snapshot {
    match ChatIndex(s.chats, chatId)
    case None => s
    case Some(i) =>
      var chat := s.chats[i];
      var messages := chat.messages + [ChatMessage(messageId, m.role, m.content, m.isEditing, m.isLoading)];
      var title := if |messages| == 1 && m.role == User then TitleFor(m.content) else chat.title;
      s.(chats := s.chats[i := Chat(chat.id, title, messages)])
  }

  function EditMessageSpec(s: Snapshot, chatId: string, messageId: string, e: Edit): Snapshot {
    match ChatIndex(s.chats, chatId)
    case None => s
    case Some(i) =>
      var chat := s.chats[i];
      match MessageIndex(chat.messages, messageId)
      case None => s
      case Some(j) =>
        s.(chats := s.chats[i := chat.(messages := chat.messages[j := ApplyEdit(chat.messages[j], e)])])
  }

  function RemoveMessageSpec(s: Snapshot, chatId: string, messageId: string): Snapshot {
    match ChatIndex(s.chats, chatId)
    case None => s
    case Some(i) =>
      var chat := s.chats[i];
      match MessageIndex(chat.messages, messageId)
      case None => s
      case Some(j) => s.(chats := s.chats[i := chat.(messages := RemoveAt(chat.messages, j))])
  }

  function LoadingMessage(id: string): ChatMessage {
    ChatMessage(id, Assistant, "", None, Some(true))
  }

  function AddLoadingSpec(s: Snapshot, chatId: string, messageId: string): Snapshot {
    match ChatIndex(s.chats, chatId)
    case None => s
    case Some(i) =>
      var chat := s.chats[i];
      s.(chats := s.chats[i := chat.(messages := chat.messages + [LoadingMessage(messageId)])])
  }

  // ---------------------------------------------------------------------------------------------
  // The store
  // ---------------------------------------------------------------------------------------------

  class Store {
    var chats: seq<Chat>
    var currentChatId: Option<string>

    function Snap(): Snapshot
      reads this
    {
      Snapshot(chats, currentChatId)
    }

    /** The computed `currentChat`: the first chat with the current id, if any. */
    function CurrentChat(): (r: Option<Chat>)
      reads this
      ensures r.Some? <==> currentChatId.Some? && ChatIndex(chats, currentChatId.value).Some?
      ensures r.Some? ==> r.value.id == currentChatId.value && r.value in chats
    {
      if currentChatId.None? then None
      else
        match ChatIndex(chats, currentChatId.value)
        case None => None
        case Some(i) => Some(chats[i])
    }

    /** Load what storage held; a store with no chat gets a first one. */
    constructor(saved: seq<Chat>, savedCurrent: string, freshId: string)
      ensures Snap() == Startup(saved, savedCurrent, freshId)
      ensures chats != []
    {
      chats := saved;
      currentChatId := if savedCurrent != "" then Some(savedCurrent) else None;
      new;
      if |chats| == 0 {
        var _ := CreateNewChat(freshId);
      }
    }

    method CreateNewChat(id: string) returns (chat: Chat)
      modifies this
      ensures Snap() == CreateNewChatSpec(old(Snap()), id)
      ensures chat == Chat(id, NewChatTitle, [])
    {
      chat := Chat(id, NewChatTitle, []);
      chats := [chat] + chats;
      currentChatId := Some(chat.id);
    }

    method SelectChat(chatId: string)
      modifies this
      ensures Snap() == SelectChatSpec(old(Snap()), chatId)
    {
      currentChatId := Some(chatId);
    }

    method DeleteChat(chatId: string, freshId: string)
      modifies this
      ensures Snap() == DeleteChatSpec(old(Snap()), chatId, freshId)
    {
      var index := ChatIndex(chats, chatId);
      if index.Some? {
        chats := RemoveAt(chats, index.value);
        if currentChatId == Some(chatId) {
          currentChatId := if |chats| > 0 then Some(chats[0].id) else None;
          if |chats| == 0 {
            var _ := CreateNewChat(freshId);
          }
        }
      }
    }

    method AddMessage(chatId: string, message: NewMessage, messageId: string) returns (added: Option<ChatMessage>)
      modifies this
      ensures Snap() == AddMessageSpec(old(Snap()), chatId, message, messageId)
      ensures added.None? <==> ChatIndex(old(chats), chatId).None?
      ensures added.Some? ==>
                added.value == ChatMessage(messageId, message.role, message.content, message.isEditing, message.isLoading)
    {
      var index := ChatIndex(chats, chatId);
      if index.None? {
        return None;
      }
      var chat := chats[index.value];
      var newMessage := ChatMessage(messageId, message.role, message.content, message.isEditing, message.isLoading);
      chat := chat.(messages := chat.messages + [newMessage]);
      if |chat.messages| == 1 && message.role == User {
        chat := chat.(title := TitleFor(message.content));
      }
      chats := chats[index.value := chat];
      added := Some(newMessage);
    }

    /** The shared shape of updateMessage, start/cancelMessageEditing and updateLoadingMessage. */
    method EditMessage(chatId: string, messageId: string, e: Edit)
      modifies this
      ensures Snap() == EditMessageSpec(old(Snap()), chatId, messageId, e)
    {
      var index := ChatIndex(chats, chatId);
      if index.None? {
        return;
      }
      var chat := chats[index.value];
      var position := MessageIndex(chat.messages, messageId);
      if position.Some? {
        var m := chat.messages[position.value];
        chat := chat.(messages := chat.messages[position.value := ApplyEdit(m, e)]);
        chats := chats[index.value := chat];
      }
    }

    method UpdateMessage(chatId: string, messageId: string, content: string)
      modifies this
      ensures Snap() == EditMessageSpec(old(Snap()), chatId, messageId, Updated(content))
    {
      EditMessage(chatId, messageId, Updated(content));
    }

    method StartMessageEditing(chatId: string, messageId: string)
      modifies this
      ensures Snap() == EditMessageSpec(old(Snap()), chatId, messageId, Editing(true))
    {
      EditMessage(chatId, messageId, Editing(true));
    }

    method CancelMessageEditing(chatId: string, messageId: string)
      modifies this
      ensures Snap() == EditMessageSpec(old(Snap()), chatId, messageId, Editing(false))
    {
      EditMessage(chatId, messageId, Editing(false));
    }

    method UpdateLoadingMessage(chatId: string, messageId: string, content: string)
      modifies this
      ensures Snap() == EditMessageSpec(old(Snap()), chatId, messageId, Loaded(content))
    {
      EditMessage(chatId, messageId, Loaded(content));
    }

    /** deleteMessage; removeLoadingMessage is the same code. */
    method DeleteMessage(chatId: string, messageId: string)
      modifies this
      ensures Snap() == RemoveMessageSpec(old(Snap()), chatId, messageId)
    {
      var index := ChatIndex(chats, chatId);
      if index.None? {
        return;
      }
      var chat := chats[index.value];
      var position := MessageIndex(chat.messages, messageId);
      if position.Some? {
        chat := chat.(messages := RemoveAt(chat.messages, position.value));
        chats := chats[index.value := chat];
      }
    }

    method RemoveLoadingMessage(chatId: string, messageId: string)
      modifies this
      ensures Snap() == RemoveMessageSpec(old(Snap()), chatId, messageId)
    {
      DeleteMessage(chatId, messageId);
    }

    method AddLoadingMessage(chatId: string, messageId: string) returns (added: Option<ChatMessage>)
      modifies this
      ensures Snap() == AddLoadingSpec(old(Snap()), chatId, messageId)
      ensures added.None? <==> ChatIndex(old(chats), chatId).None?
      ensures added.Some? ==> added.value == LoadingMessage(messageId)
    {
      var index := ChatIndex(chats, chatId);
      if index.None? {
        return None;
      }
      var chat := chats[index.value];
      var loading := LoadingMessage(messageId);
      chats := chats[index.value := chat.(messages := chat.messages + [loading])];
      added := Some(loading);
    }
  }

  // ---------------------------------------------------------------------------------------------
  // Lemmas: chats
  // ---------------------------------------------------------------------------------------------

  /** Start-up always leaves at least one chat; with none saved, one fresh current chat. */
  lemma LoadedHasAChat(saved: seq<Chat>, savedCurrent: string, freshId: string)
    ensures Startup(saved, savedCurrent, freshId).chats != []
    ensures saved == [] ==> Startup(saved, savedCurrent, freshId) == Snapshot([Chat(freshId, NewChatTitle, [])], Some(freshId))
    ensures saved != [] ==> Startup(saved, savedCurrent, freshId).chats == saved
  {
  }

  /** A new chat goes in front, titled "New Chat" with no messages, and becomes current; the others keep their order. */
  lemma CreateNewChatInFront(s: Snapshot, id: string)
    ensures var t := CreateNewChatSpec(s, id);
            |t.chats| == |s.chats| + 1 && t.chats[0] == Chat(id, NewChatTitle, []) && t.chats[1..] == s.chats
            && t.current == Some(id) && Valid(t)
  {
    var t := CreateNewChatSpec(s, id);
    assert t.chats[1..] == s.chats;
  }

  /** Deleting an unknown chat changes nothing. */
  lemma DeleteUnknownChat(s: Snapshot, id: string, freshId: string)
    requires forall j :: 0 <= j < |s.chats| ==> s.chats[j].id != id
    ensures DeleteChatSpec(s, id, freshId) == s
  {
  }

  /**
   * Deleting a chat that is not current removes exactly the first chat with that id and keeps the
   * current id, even when no chat is left.
   */
  lemma DeleteOtherChat(s: Snapshot, id: string, freshId: string, i: nat)
    requires i < |s.chats| && s.chats[i].id == id && forall j :: 0 <= j < i ==> s.chats[j].id != id
    requires s.current != Some(id)
    ensures DeleteChatSpec(s, id, freshId) == Snapshot(s.chats[..i] + s.chats[i + 1..], s.current)
  {
  }

  /**
   * Deleting the current chat removes it and makes the first remaining chat current, or, when
   * none remains, a fresh chat.
   */
  lemma DeleteCurrentChat(s: Snapshot, id: string, freshId: string, i: nat)
    requires i < |s.chats| && s.chats[i].id == id && forall j :: 0 <= j < i ==> s.chats[j].id != id
    requires s.current == Some(id)
    ensures var t := DeleteChatSpec(s, id, freshId);
            var rest := s.chats[..i] + s.chats[i + 1..];
            (rest != [] ==> t == Snapshot(rest, Some(rest[0].id)))
            && (rest == [] ==> t == Snapshot([Chat(freshId, NewChatTitle, [])], Some(freshId)))
  {
  }

  /** While the current id names a chat, deleting any chat keeps it so, and so never leaves the store empty. */
  lemma DeleteKeepsValid(s: Snapshot, id: string, freshId: string)
    requires Valid(s)
    ensures Valid(DeleteChatSpec(s, id, freshId))
    ensures DeleteChatSpec(s, id, freshId).chats != []
  {
    var c := s.current.value;
    match ChatIndex(s.chats, id)
    case None =>
    case Some(i) =>
      var rest := RemoveAt(s.chats, i);
      if c != id {
        var k := ChatIndex(s.chats, c).value;
        assert k != i;
        var k' := if k < i then k else k - 1;
        assert rest[k'] == s.chats[k];
        assert ChatIndex(rest, c).Some?;
      } else if rest != [] {
        assert ChatIndex(rest, rest[0].id) == Some(0);
      }
  }

  /** The store can still empty itself: deleting its only chat while another id is current. */
  lemma DeleteOnlyChatNotCurrent(c: Chat, current: Option<string>, freshId: string)
    requires current != Some(c.id)
    ensures DeleteChatSpec(Snapshot([c], current), c.id, freshId) == Snapshot([], current)
  {
  }

  /** Selecting a chat that exists keeps the current id valid. */
  lemma SelectExistingChat(s: Snapshot, id: string)
    requires ChatIndex(s.chats, id).Some?
    ensures Valid(SelectChatSpec(s, id)) && SelectChatSpec(s, id).chats == s.chats
  {
  }

  // ---------------------------------------------------------------------------------------------
  // Lemmas: messages
  // ---------------------------------------------------------------------------------------------

  /**
   * A title is the content when it fits in 50 UTF-16 code units. Otherwise it is the longest
   * prefix of the content that fits in 50 code units, followed by "..."; for text inside the
   * Basic Multilingual Plane that is the first 50 characters.
   */
  lemma TitleRule(content: string)
    ensures JsLength(content) <= TitleLength ==> TitleFor(content) == content
    ensures JsLength(content) > TitleLength ==>
              var cut := TitleFor(content)[..|TitleFor(content)| - 3];
              |TitleFor(content)| >= 3
              && TitleFor(content)[|TitleFor(content)| - 3..] == "..."
              && |cut| < |content| && cut == content[..|cut|]
              && JsLength(cut) <= TitleLength < JsLength(cut) + CodeUnits(content[|cut|])
    ensures (forall i :: 0 <= i < |content| ==> CodeUnits(content[i]) == 1) && |content| > TitleLength
            ==> TitleFor(content) == content[..TitleLength] + "..."
  {
    JsSliceFits(content, TitleLength);
    if forall i :: 0 <= i < |content| ==> CodeUnits(content[i]) == 1 {
      BmpLength(content, TitleLength);
    }
    if JsLength(content) > TitleLength {
      var cut := JsSlice(content, TitleLength);
      assert TitleFor(content) == cut + "...";
      assert TitleFor(content)[..|TitleFor(content)| - 3] == cut;
    }
  }

  /**
   * The slice is a prefix that fits in `n` code units and stops only where the next character
   * would not fit; a text that fits is kept whole.
   */
  lemma {:induction false} JsSliceFits(s: string, n: nat)
    ensures var r := JsSlice(s, n);
            |r| <= |s| && r == s[..|r|] && JsLength(r) <= n
            && (|r| < |s| ==> n < JsLength(r) + CodeUnits(s[|r|]))
            && (JsLength(s) <= n ==> r == s)
            && (JsLength(s) > n ==> |r| < |s|)
    decreases |s|
  {
    if s != [] && CodeUnits(s[0]) <= n {
      JsSliceFits(s[1..], n - CodeUnits(s[0]));
      var r := JsSlice(s, n);
      var r' := JsSlice(s[1..], n - CodeUnits(s[0]));
      assert r == [s[0]] + r';
      assert r[1..] == r';
    } else if s != [] {
      assert JsLength(s) >= CodeUnits(s[0]);
    }
  }

  /** Inside the Basic Multilingual Plane, code units are characters. */
  lemma {:induction false} BmpLength(s: string, n: nat)
    requires forall i :: 0 <= i < |s| ==> CodeUnits(s[i]) == 1
    ensures JsLength(s) == |s|
    ensures |s| > n ==> JsSlice(s, n) == s[..n]
    decreases |s|
  {
    if s != [] {
      assert forall i :: 0 <= i < |s[1..]| ==> CodeUnits(s[1..][i]) == 1 by {
        forall i | 0 <= i < |s[1..]| ensures CodeUnits(s[1..][i]) == 1 {
          assert s[1..][i] == s[i + 1];
        }
      }
      if n > 0 {
        BmpLength(s[1..], n - 1);
        if |s| > n {
          assert s[..n] == [s[0]] + s[1..][..n - 1];
        }
      } else {
        BmpLength(s[1..], 0);
      }
    }
  }

  /**
   * Adding to a known chat appends the message at its end and touches no other chat; the title
   * becomes the message's (cut) text exactly when this is the chat's first message and it is the
   * user's. Adding to an unknown chat changes nothing.
   */
  lemma AddMessageAppends(s: Snapshot, chatId: string, m: NewMessage, messageId: string)
    ensures var t := AddMessageSpec(s, chatId, m, messageId);
            match ChatIndex(s.chats, chatId)
            case None => t == s
            case Some(i) =>
              t.current == s.current && |t.chats| == |s.chats|
              && (forall j :: 0 <= j < |s.chats| && j != i ==> t.chats[j] == s.chats[j])
              && t.chats[i].id == chatId
              && t.chats[i].messages
                 == s.chats[i].messages + [ChatMessage(messageId, m.role, m.content, m.isEditing, m.isLoading)]
              && (s.chats[i].messages == [] && m.role == User ==> t.chats[i].title == TitleFor(m.content))
              && (s.chats[i].messages != [] || m.role != User ==> t.chats[i].title == s.chats[i].title)
  {
  }

  /**
   * An edit changes only the first message with the id, in the first chat with the id, and in the
   * way the edit says; an unknown chat or message leaves everything as it was.
   */
  lemma EditChangesOneMessage(s: Snapshot, chatId: string, messageId: string, e: Edit)
    ensures var t := EditMessageSpec(s, chatId, messageId, e);
            t.current == s.current && |t.chats| == |s.chats|
            && (ChatIndex(s.chats, chatId).None? ==> t == s)
            && (ChatIndex(s.chats, chatId).Some? ==>
                  var i := ChatIndex(s.chats, chatId).value;
                  (forall k :: 0 <= k < |s.chats| && k != i ==> t.chats[k] == s.chats[k])
                  && (MessageIndex(s.chats[i].messages, messageId).None? ==> t == s)
                  && (MessageIndex(s.chats[i].messages, messageId).Some? ==>
                        var j := MessageIndex(s.chats[i].messages, messageId).value;
                        t.chats[i].id == s.chats[i].id && t.chats[i].title == s.chats[i].title
                        && |t.chats[i].messages| == |s.chats[i].messages|
                        && t.chats[i].messages[j] == ApplyEdit(s.chats[i].messages[j], e)
                        && forall k :: 0 <= k < |s.chats[i].messages| && k != j ==>
                             t.chats[i].messages[k] == s.chats[i].messages[k]))
  {
  }

  /** What each edit does to the message: only its content and one flag change. */
  lemma EditEffects(m: ChatMessage, e: Edit)
    ensures var n := ApplyEdit(m, e);
            n.id == m.id && n.role == m.role
            && (e.Updated? ==> n.content == e.content && n.isEditing == Some(false) && n.isLoading == m.isLoading)
            && (e.Editing? ==> n.content == m.content && n.isEditing == Some(e.on) && n.isLoading == m.isLoading)
            && (e.Loaded? ==> n.content == e.content && n.isLoading == Some(false) && n.isEditing == m.isEditing)
  {
  }

  /** Removal takes out exactly the first message with the id, and is a no-op when there is none. */
  lemma RemoveMessageExactly(s: Snapshot, chatId: string, messageId: string)
    ensures var t := RemoveMessageSpec(s, chatId, messageId);
            t.current == s.current && |t.chats| == |s.chats|
            && (ChatIndex(s.chats, chatId).None? ==> t == s)
            && (ChatIndex(s.chats, chatId).Some? ==>
                  var i := ChatIndex(s.chats, chatId).value;
                  var ms := s.chats[i].messages;
                  (forall k :: 0 <= k < |s.chats| && k != i ==> t.chats[k] == s.chats[k])
                  && ((forall k :: 0 <= k < |ms| ==> ms[k].id != messageId) ==> t == s))
    ensures ChatIndex(s.chats, chatId).Some? ==>
              var i := ChatIndex(s.chats, chatId).value;
              var ms := s.chats[i].messages;
              forall j :: 0 <= j < |ms| && ms[j].id == messageId && (forall k :: 0 <= k < j ==> ms[k].id != messageId) ==>
                RemoveMessageSpec(s, chatId, messageId).chats[i].messages == ms[..j] + ms[j + 1..]
  {
    if ChatIndex(s.chats, chatId).Some? {
      var i := ChatIndex(s.chats, chatId).value;
      var ms := s.chats[i].messages;
      forall j | 0 <= j < |ms| && ms[j].id == messageId && (forall k :: 0 <= k < j ==> ms[k].id != messageId)
        ensures RemoveMessageSpec(s, chatId, messageId).chats[i].messages == ms[..j] + ms[j + 1..]
      {
        assert MessageIndex(ms, messageId) == Some(j);
      }
    }
  }

  /** A loading placeholder is an empty assistant message appended to a known chat; the title stays. */
  lemma AddLoadingAppends(s: Snapshot, chatId: string, messageId: string)
    ensures var t := AddLoadingSpec(s, chatId, messageId);
            match ChatIndex(s.chats, chatId)
            case None => t == s
            case Some(i) =>
              t.current == s.current && |t.chats| == |s.chats|
              && (forall j :: 0 <= j < |s.chats| && j != i ==> t.chats[j] == s.chats[j])
              && t.chats[i].title == s.chats[i].title
              && t.chats[i].messages == s.chats[i].messages + [LoadingMessage(messageId)]
              && LoadingMessage(messageId).role == Assistant && LoadingMessage(messageId).content == ""
              && LoadingMessage(messageId).isLoading == Some(true)
  {
  }

  /** Chat ids do not move under a message operation. */
  predicate SameChatIds(s: Snapshot, t: Snapshot) {
    t.current == s.current && |t.chats| == |s.chats|
    && forall k :: 0 <= k < |s.chats| ==> t.chats[k].id == s.chats[k].id
  }

  lemma {:induction false} SameIdsSameIndex(a: seq<Chat>, b: seq<Chat>, id: string)
    requires |a| == |b| && forall k :: 0 <= k < |a| ==> a[k].id == b[k].id
    ensures ChatIndex(a, id) == ChatIndex(b, id)
    decreases |a|
  {
    if a != [] {
      SameIdsSameIndex(a[1..], b[1..], id);
    }
  }

  /** Message operations never change which chats there are, so they keep the current id valid. */
  lemma MessageOpsKeepValid(s: Snapshot, chatId: string, messageId: string, m: NewMessage, e: Edit)
    requires Valid(s)
    ensures Valid(AddMessageSpec(s, chatId, m, messageId))
    ensures Valid(EditMessageSpec(s, chatId, messageId, e))
    ensures Valid(RemoveMessageSpec(s, chatId, messageId))
    ensures Valid(AddLoadingSpec(s, chatId, messageId))
  {
    var c := s.current.value;
    var t1 := AddMessageSpec(s, chatId, m, messageId);
    var t2 := EditMessageSpec(s, chatId, messageId, e);
    var t3 := RemoveMessageSpec(s, chatId, messageId);
    var t4 := AddLoadingSpec(s, chatId, messageId);
    SameIdsSameIndex(s.chats, t1.chats, c);
    SameIdsSameIndex(s.chats, t2.chats, c);
    SameIdsSameIndex(s.chats, t3.chats, c);
    SameIdsSameIndex(s.chats, t4.chats, c);
  }
}
