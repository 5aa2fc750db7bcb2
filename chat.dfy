/**
 * The chat session of agent/chat/chat.go: the message record, the
 * `Store` interface the session persists through, and the `Chat` object
 * with its append-only log, its `savedIndex` cursor and its `isNew` flag.
 */
module AgentChat {
  import opened Wrappers
  import opened JsonSchema

  /** `chat.Author`: the three authors the program writes. */
  datatype Author = User | Model | System
  {
    /** The string value of the Go constant, used as the backend role. */
    function Role(): (r: string)
      ensures this == User ==> r == "user"
      ensures this == Model ==> r == "model"
      ensures this == System ==> r == "system"
    {
      match this
      case User => "user"
      case Model => "model"
      case System => "system"
    }
  }

  /** `chat.FunctionCall`: a tool call the model asked for. */
  datatype FunctionCall = FunctionCall(name: string, args: Payload)

  /** `chat.FunctionResponse`: tool results keyed by function name. */
  type FunctionResponse = map<string, Payload>

  /**
   * `chat.Message`. Go distinguishes a nil `FunctionCalls` slice from an
   * empty one (the tool loop tests `!= nil`), so the calls are optional.
   * A nil and an empty `FunctionResponses` map behave alike everywhere in
   * the modelled code (only `len` and `range` read it), so both are `map[]`.
   */
  datatype Message = Message(
    author: Author,
    text: string,
    functionCalls: Option<seq<FunctionCall>>,
    functionResponses: FunctionResponse)

  /** The calls of a message; nil reads as the empty slice. */
  function Calls(m: Message): seq<FunctionCall>
  {
    if m.functionCalls.Some? then m.functionCalls.value else []
  }

  /** The message `AddUserMessage` appends. */
  function UserMessage(text: string): Message
  {
    Message(User, text, None, map[])
  }

  const SystemPromptText: string :=
    "You are a helpful AI assistant with access to various tools. You should actively use the available tools to help users accomplish their tasks. When a user asks for something that could benefit from using a tool, always prefer using the appropriate tool rather than just providing a text response. Be proactive in suggesting and using tools that can provide more accurate, up-to-date, or comprehensive information. Your goal is to leverage your tools effectively to give users the best possible assistance."

  /** A write the session made through the store, in the order made. */
  datatype StoreCall =
    | SaveCall(id: string, title: string)
    | SaveMessagesCall(id: string, messages: seq<Message>)

  /** The rows of `id` in `conversations`; an unknown id has none. */
  function Rows(conversations: map<string, seq<Message>>, id: string): seq<Message>
  {
    if id in conversations then conversations[id] else []
  }

  /** The conversations after the store carried out `calls`, each write failing with `writeError` if set. */
  function Written(conversations: map<string, seq<Message>>, calls: seq<StoreCall>, writeError: Option<string>)
    : map<string, seq<Message>>
  {
    if calls == [] then conversations else
      var before := Written(conversations, calls[..|calls| - 1], writeError);
      var c := calls[|calls| - 1];
      if c.SaveMessagesCall? && writeError.None? then before[c.id := Rows(before, c.id) + c.messages] else before
  }

  /** The titles after the store carried out `calls`, each save failing with `saveError` if set. */
  function Titled(titles: map<string, string>, calls: seq<StoreCall>, saveError: Option<string>): map<string, string>
  {
    if calls == [] then titles else
      var before := Titled(titles, calls[..|calls| - 1], saveError);
      var c := calls[|calls| - 1];
      if c.SaveCall? && saveError.None? then before[c.id := c.title] else before
  }

  /**
   * The `Store` interface as a recording stand-in for the database. It
   * answers `GetMessages` from `conversations` (an unknown id has no rows,
   * so it reads as the empty history), appends on a successful
   * `SaveMessages`, and fails each operation with the fixed error given at
   * construction, if any. `log` records every `Save` and `SaveMessages`
   * call, successful or not.
   */
  class Store {
    var conversations: map<string, seq<Message>>
    var titles: map<string, string>
    const readError: Option<string>
    const saveError: Option<string>
    const writeError: Option<string>
    ghost var log: seq<StoreCall>

    constructor (conversations: map<string, seq<Message>>, readError: Option<string>,
                 saveError: Option<string>, writeError: Option<string>)
      ensures this.conversations == conversations && titles == map[]
      ensures this.readError == readError && this.saveError == saveError && this.writeError == writeError
      ensures log == []
    {
      this.conversations := conversations;
      titles := map[];
      this.readError := readError;
      this.saveError := saveError;
      this.writeError := writeError;
      log := [];
    }

    /** The rows stored for `id`. */
    function Stored(id: string): seq<Message>
      reads this
    {
      Rows(conversations, id)
    }

    /** What `GetMessages(id)` answers in the current state. */
    function Loaded(id: string): (r: Result<seq<Message>, string>)
      reads this
      ensures r.Failure? <==> readError.Some?
      ensures r.Success? ==> r.value == Stored(id)
    {
      if readError.Some? then Failure(readError.value) else Success(Stored(id))
    }

    method GetMessages(id: string) returns (r: Result<seq<Message>, string>)
      ensures r == Loaded(id)
    {
      if readError.Some? {
        r := Failure(readError.value);
      } else if id in conversations {
        r := Success(conversations[id]);
      } else {
        r := Success([]);
      }
    }

    method Save(id: string, title: string) returns (r: Result<string, string>)
      modifies this`titles, this`log
      ensures log == old(log) + [SaveCall(id, title)]
      ensures saveError.Some? ==> r == Failure(saveError.value) && titles == old(titles)
      ensures saveError.None? ==> r == Success(id) && titles == old(titles)[id := title]
    {
      log := log + [SaveCall(id, title)];
      if saveError.Some? {
        r := Failure(saveError.value);
      } else {
        titles := titles[id := title];
        r := Success(id);
      }
    }

    method SaveMessages(id: string, messages: seq<Message>) returns (err: Option<string>)
      modifies this`conversations, this`log
      ensures log == old(log) + [SaveMessagesCall(id, messages)]
      ensures err == writeError
      ensures writeError.Some? ==> conversations == old(conversations)
      ensures writeError.None? ==> conversations == old(conversations)[id := old(Stored(id)) + messages]
    {
      log := log + [SaveMessagesCall(id, messages)];
      err := writeError;
      if writeError.None? {
        conversations := conversations[id := Stored(id) + messages];
      }
    }
  }

  /**
   * `chat.Chat`. Messages before `savedIndex` are the ones the store
   * already holds; `isNew` stays true until the chat has been saved
   * under a title.
   */
  class Chat {
    const id: string
    var name: string
    var messages: seq<Message>
    var isNew: bool
    var savedIndex: nat
    const store: Store

    /** `NewChat`: a fresh chat seeded with the system prompt. */
    constructor New(id: string, store: Store)
      ensures this.id == id && this.store == store && name == ""
      ensures messages == [Message(System, SystemPromptText, None, map[])]
      ensures isNew && savedIndex == 0
      ensures GetNewMessages() == messages
    {
      this.id := id;
      this.store := store;
      name := "";
      messages := [Message(System, SystemPromptText, None, map[])];
      isNew := true;
      savedIndex := 0;
    }

    /** `LoadChat`: a chat over the stored history, or the store's error and no chat. */
    static method Load(id: string, store: Store) returns (r: Result<Chat, string>)
      ensures r.Failure? <==> store.readError.Some?
      ensures r.Failure? ==> r.error == store.readError.value
      ensures r.Success? ==>
        && fresh(r.value)
        && r.value.id == id && r.value.store == store && r.value.name == ""
        && r.value.messages == store.Stored(id)
        && r.value.isNew == (store.Stored(id) == [])
        && r.value.savedIndex == |store.Stored(id)|
        && r.value.GetNewMessages() == []
    {
      var loaded := store.GetMessages(id);
      if loaded.Failure? {
        return Failure(loaded.error);
      }
      var c := new Chat.FromHistory(id, store, loaded.value);
      r := Success(c);
    }

    /** The struct literal `LoadChat` builds. */
    constructor FromHistory(id: string, store: Store, history: seq<Message>)
      ensures this.id == id && this.store == store && name == ""
      ensures messages == history && isNew == (history == []) && savedIndex == |history|
    {
      this.id := id;
      this.store := store;
      name := "";
      messages := history;
      isNew := |history| == 0;
      savedIndex := |history|;
    }

    /** `AddMessage`: appends one message; nothing else changes. */
    method AddMessage(msg: Message)
      modifies this`messages
      ensures messages == old(messages) + [msg]
      ensures savedIndex == old(savedIndex) && isNew == old(isNew) && name == old(name)
    {
      messages := messages + [msg];
    }

    /** `AddUserMessage`: appends a user message with text only. */
    method AddUserMessage(text: string)
      modifies this`messages
      ensures messages == old(messages) + [Message(User, text, None, map[])]
      ensures savedIndex == old(savedIndex) && isNew == old(isNew) && name == old(name)
    {
      AddMessage(UserMessage(text));
    }

    /** `Messages`: the whole log. */
    function Messages(): (r: seq<Message>)
      reads this
      ensures r == messages
    {
      messages
    }

    /** `IsNew`. */
    function IsNew(): (r: bool)
      reads this
      ensures r == isNew
    {
      isNew
    }

    /** `GetNewMessages`: the messages the store does not hold yet. */
    function GetNewMessages(): (r: seq<Message>)
      reads this
      ensures |r| == if savedIndex < |messages| then |messages| - savedIndex else 0
      ensures savedIndex < |messages| ==> messages == messages[..savedIndex] + r
      ensures savedIndex >= |messages| ==> r == []
    {
      if savedIndex >= |messages| then [] else messages[savedIndex..]
    }

    /**
     * `SaveNewMessages`: one `SaveMessages` call with the unsaved suffix,
     * or no call when there is none. The cursor is not advanced, so a
     * second call sends the same messages again.
     */
    method SaveNewMessages() returns (err: Option<string>)
      modifies store`conversations, store`log
      ensures messages == old(messages) && savedIndex == old(savedIndex)
      ensures GetNewMessages() == [] ==>
        err == None && store.log == old(store.log) && store.conversations == old(store.conversations)
      ensures GetNewMessages() != [] ==>
        && store.log == old(store.log) + [SaveMessagesCall(id, GetNewMessages())]
        && err == store.writeError
        && (err.None? ==> store.Stored(id) == old(store.Stored(id)) + GetNewMessages())
      // the rows change only by a successful write of the suffix
      ensures store.conversations ==
        if GetNewMessages() != [] && err.None? then old(store.conversations)[id := old(store.Stored(id)) + GetNewMessages()]
        else old(store.conversations)
    {
      var newMessages := GetNewMessages();
      if |newMessages| == 0 {
        return None;
      }
      err := store.SaveMessages(id, newMessages);
    }

    /**
     * `SaveWithTitle`: always takes the title; a new chat is saved under
     * it and stops being new only when the save succeeds; a chat that is
     * not new causes no store call.
     */
    method SaveWithTitle(title: string) returns (err: Option<string>)
      modifies this`name, this`isNew, store`titles, store`log
      ensures name == title
      ensures old(isNew) ==>
        && store.log == old(store.log) + [SaveCall(id, title)]
        && err == store.saveError
        && isNew == store.saveError.Some?
      ensures !old(isNew) ==>
        err == None && !isNew && store.log == old(store.log) && store.titles == old(store.titles)
      ensures err.None? && old(isNew) ==> store.titles == old(store.titles)[id := title]
      ensures err.Some? ==> store.titles == old(store.titles)
    {
      name := title;
      if isNew {
        var saved := store.Save(id, title);
        if saved.Failure? {
          return Some(saved.error);
        }
        isNew := false;
      }
      err := None;
    }
  }

  /**
   * Calling `SaveNewMessages` twice without appending in between sends
   * the same unsaved suffix twice.
   */
  method SaveNewMessagesTwice(c: Chat) returns (first: Option<string>, second: Option<string>)
    requires c.GetNewMessages() != []
    modifies c.store`conversations, c.store`log
    ensures c.store.log ==
      old(c.store.log) + [SaveMessagesCall(c.id, c.GetNewMessages()), SaveMessagesCall(c.id, c.GetNewMessages())]
    ensures c.messages == old(c.messages) && c.savedIndex == old(c.savedIndex)
  {
    first := c.SaveNewMessages();
    second := c.SaveNewMessages();
  }
}
