# Conversation engine of the `skipery` agent, in Dafny

This project models the conversation engine of a Go tool-using chat
agent and proves properties of it.

- **Chat session** (`agent/chat/chat.go`): a `Chat` object with:
  - an append-only message log;
  - a `savedIndex` cursor at the first message the store does not hold;
  - an `isNew` flag and a `Name`.

  It persists through the `Store` interface. The store is a recording
  stand-in: a ghost log of its `Save` and `SaveMessages` calls, with a
  fixed failure per operation.
- **Orchestrator** (`agent/agent.go`):
  - `SendMessage` loads a chat, appends the user's text and runs the
    recursive tool loop `sendMessage`.
  - It then copies what the loop added into the chat, has the model name
    a new chat (`chatName`) and saves the unsaved suffix.
  - The model is a function from the tool belt and the history to a reply
    or an error. Tools are a function from tool, name and arguments to a
    payload or an error. The agent keeps a ghost trace of every model and
    tool call.
- **Tool registry** (`tool/tool.go`): `NewToolBelt` maps each function ID
  to the last tool that declares it. `ToolBelt.Call` dispatches by ID.
- **Translators**:
  - `llm/gemini.go`: agent schemas, tool belts and conversations into the
    Gemini request types, and a Gemini response back into a message.
  - `mcp/client.go`: MCP schemas into the agent's schema type, plus the
    transport choice and session list of the MCP client.

The foreign types (`genai.*`, `mcpjson.Schema`, the MCP SDK's transports
and sessions) are local datatypes. Each has the fields the code reads or
writes.

Go's `range` over a map visits keys in an order the runtime chooses. The
methods that loop over maps pick each next key with `:|`, so they are
proved for every visiting order:
- `FromJSONSchema`, `FromToolBelt`, `FromConversation`, `ToJSONSchema`;
- the response loop inside `MessageParts`.

Where the order shows in the result, the specification function takes it
as an argument. The method promises that some enumeration of the keys
gives its result.

Behaviour of the code a reader might not expect:
- `sendMessage` has no retry ceiling. It recurses until a reply has nil
  `FunctionCalls` (agent/agent.go:86-115).
- `SaveNewMessages` never advances `savedIndex` (agent/chat/chat.go:112-119).
  Calling it twice resends the same suffix; `SaveNewMessagesTwice` shows
  this.
- A new chat whose `Save` succeeds but whose `SaveMessages` then fails
  keeps its title and gains no rows (agent/agent.go:57-67). The next
  `SendMessage` loads an empty history, treats the chat as new again, and
  names and saves it a second time. `TitledButUnwritten` shows this.
- `SendMessage` uses `LoadChat`, which does not seed the system prompt. An
  unknown chat starts with an empty history, so only `NewChat` ever writes
  the system prompt.

The source does not compile as it stands, and is inconsistent in several
places. The model resolves each with one type:
- agent/agent.go:63 calls `NewMessages`, but the chat defines
  `GetNewMessages` (agent/chat/chat.go:104). The model uses
  `GetNewMessages`.
- llm/gemini.go names the message type `agent.Message`, while agent/agent.go
  uses `chat.Message`. The model uses the `chat.Message` shape everywhere.
- `tool.Function.Parameters` is a `[]Parameter` in tool/tool.go:26. The MCP
  client fills it with a `jsonschema.JSONSchema` (mcp/client.go:107), and
  `fromToolBelt` passes it to `fromJSONSchema` (llm/gemini.go:46). The model
  gives `Function` a `Schema`.
- `Session.Functions` takes a `context.Context` (mcp/client.go:95), but
  `tool.Tool` requires `Functions()` with no argument (tool/tool.go:10).
  So `*Session` is not a `tool.Tool`, yet `Client.Tools` appends sessions
  to a `[]tool.Tool` (mcp/client.go:64). The model gives a `Tool` one fixed
  `functions` list and has `Tools` return the sessions.
- The MCP client (mcp/client.go:108) and the SQL tool (tool/sql.go:34) set
  a `Response` field that `tool.Function` (tool/tool.go:15-27) does not
  have. The model's `Function` has no response schema.

`mcp.Config.url` is unexported, so a configuration decoded from JSON always
has an empty url. The model keeps it as a field so both transports can be
chosen.

Behaviour of the code worth knowing, all proved as stated below:
- `fromJSONSchema` marks every schema `OBJECT`, whatever its type. It
  drops the description, items and examples.
- `fromToolBelt` visits belt entries. A tool registered under several IDs
  is therefore declared once per ID, with all of its functions each time.
- Contents built for tool calls and tool results have the empty role.

## Model

| member | source | states |
|---|---|---|
| AgentChat.Author.Role | agent/chat/chat.go:7-13 | the user is "user", the model "model" and the system "system" |
| AgentChat.Store.Loaded | agent/chat/chat.go:17 | `GetMessages` fails exactly when the store has a read error; otherwise it returns the rows stored for the id, empty for an unknown id |
| AgentChat.Store.GetMessages | agent/chat/chat.go:17 | answers as `Loaded` in the current state |
| AgentChat.Store.Save | agent/chat/chat.go:16 | records one `Save` call; on success the title is stored under the id, on failure nothing changes |
| AgentChat.Store.SaveMessages | agent/chat/chat.go:18 | records one `SaveMessages` call; on success the messages are appended to that conversation's rows, on failure nothing changes |
| AgentChat.Chat.New | agent/chat/chat.go:50-60 | a new chat holds exactly one message, the system prompt, with `isNew`, `savedIndex` 0 and an empty name |
| AgentChat.Chat.Load | agent/chat/chat.go:64-78 | a read error gives that error and no chat; otherwise a fresh chat over the stored history, new iff the history is empty, with the cursor at its end so nothing is unsaved |
| AgentChat.Chat.FromHistory | agent/chat/chat.go:70-77 | the struct `LoadChat` builds: log = history, `isNew` iff it is empty, `savedIndex` = its length |
| AgentChat.Chat.AddMessage | agent/chat/chat.go:81-83 | appends exactly the message at the end; cursor, flag and name unchanged |
| AgentChat.Chat.AddUserMessage | agent/chat/chat.go:86-91 | appends a user message with the text and no calls or responses; nothing else changes |
| AgentChat.Chat.Messages | agent/chat/chat.go:94-96 | returns the whole log |
| AgentChat.Chat.IsNew | agent/chat/chat.go:99-101 | returns the `isNew` flag |
| AgentChat.Chat.GetNewMessages | agent/chat/chat.go:104-109 | the unsaved suffix: the log is the saved prefix followed by the result; empty once the cursor is at or past the end |
| AgentChat.Chat.SaveNewMessages | agent/chat/chat.go:112-119 | no store call when nothing is new; otherwise exactly one `SaveMessages(id, suffix)` call whose error is returned; the rows change only by a successful write of the suffix; log and cursor never change |
| AgentChat.Chat.SaveWithTitle | agent/chat/chat.go:122-132 | always sets the name; a new chat makes one `Save` call and stays new iff it fails; a chat that is not new makes no store call; a failed save leaves the titles as they were |
| AgentChat.SaveNewMessagesTwice | agent/chat/chat.go:112-119 | two calls in a row send the same unsaved suffix twice, because the cursor does not move |
| ToolRegistry.RegisterEffect | tool/tool.go:49-51 | registering a tool's functions adds exactly their IDs, maps each to that tool, and keeps every other entry |
| ToolRegistry.BuildKeys | tool/tool.go:44-54 | the belt's keys are exactly the union of the IDs all tools declare |
| ToolRegistry.BuildLastWins | tool/tool.go:47-52 | an ID that several tools declare maps to the last of them in argument order |
| ToolRegistry.DeclaredHasLastDeclarer | tool/tool.go:47-52 | an ID is declared by some tool iff exactly that ID has a last declaring tool |
| ToolRegistry.NewToolBelt | tool/tool.go:44-54 | the nested loops build the reference belt: keys = declared IDs, last declarer wins, no tools gives the empty belt |
| ToolRegistry.Call | tool/tool.go:37-42 | an unknown name fails with "tool <name> not found" and invokes nothing; a known name invokes its tool once with the same name and arguments and returns that answer unchanged; the belt is a value and is not changed |
| ToolRegistry.CallBuilt | tool/tool.go:37-54 | dispatch through a built belt reaches the last tool declaring the name, and fails for an undeclared name |
| Orchestrator.RespondKeys | agent/agent.go:95-109 | the results map has one key per distinct call name and no other |
| Orchestrator.RespondLastWins | agent/agent.go:99-107 | the entry for a name is the result of its last call, with a failure recorded as `{"error": text}` instead of stopping the loop |
| Orchestrator.RespondInOrder | agent/agent.go:99-108 | tools are invoked one call at a time in the order the model emitted the calls |
| Orchestrator.SendLoop | agent/agent.go:86-115 | a finished loop returns a strictly longer history with the input as prefix, ending in a reply with nil calls |
| Orchestrator.SendLoopSound | agent/agent.go:86-115 | a finished loop's result extends the input by a transcript: the model's answer to everything before it, alternating with the results messages that answer each call-bearing reply |
| Orchestrator.SendLoopComplete | agent/agent.go:86-115 | with enough fuel, every such transcript is what the loop returns, so the transcript is an exact description of the loop |
| Orchestrator.TranscriptResultsFollowCalls | agent/agent.go:94-111 | in a transcript, a reply with calls is immediately followed by the results message built from those calls |
| Orchestrator.ToolResultsFollowCalls | agent/agent.go:94-111 | in the loop's result, every reply with calls is immediately followed by one user message with no calls whose response keys are the call names |
| Orchestrator.FuelIrrelevant | agent/agent.go:86-115 | once the loop ends, more fuel gives the same outcome and the same calls, so the bound does not change behaviour |
| Orchestrator.NoStopWhileCallsRequested | agent/agent.go:94-112 | with a model that always requests tools, no amount of fuel ends the loop: there is no retry ceiling |
| Orchestrator.Persist | agent/agent.go:51-70 | the steps after the loop: a chat with history is never renamed and costs one `SaveMessages`; a new chat costs one tool-less title call; a failed title or `Save` returns before any `SaveMessages`; success returns the written suffix |
| Orchestrator.SendSpec | agent/agent.go:33-71 | a failed load returns its error and makes no model, tool or store call; a model error at any depth is returned as the error and writes nothing; running out of fuel writes nothing; a finished loop adds what persisting costs |
| Orchestrator.SentIsLoopSuffix | agent/agent.go:39-70 | on success, the result is the user's message followed by exactly what the tool loop added, and the last store write saves exactly that list |
| Orchestrator.PersistWrites | agent/agent.go:51-70 | after persisting, the rows change only on success, and then only the chat's own, by the returned messages; a title is stored only for a chat without history whose naming and save succeeded |
| Orchestrator.StoredAfterSend | agent/agent.go:33-71 | after `SendMessage`, a call that does not succeed leaves every conversation as it was; a successful one appends the returned messages to its own conversation and touches no other |
| Orchestrator.TitledAfterSend | agent/agent.go:33-71 | after `SendMessage`, only a chat with no stored history gets a title, when the loop finished, the model named it and the save succeeded; no other title changes |
| Orchestrator.TitledButUnwritten | agent/agent.go:51-67 | a new chat whose title save succeeds and whose message write fails returns that error, keeps its new title and gains no rows |
| Orchestrator.AddAll | agent/agent.go:47-49 | appends the loop's additions to the chat in order; cursor, flag and name unchanged |
| Orchestrator.Agent.constructor | agent/agent.go:23-30 | the agent holds the given belt, store and model, with an empty call trace |
| Orchestrator.Agent.ChatName | agent/agent.go:73-84 | one model call with no tools on the history plus the title request; returns the reply's text or the model's error |
| Orchestrator.Agent.NameNew | agent/agent.go:52-60 | one tool-less title call; a title failure returns its error with no store call; otherwise one `Save` under the title, whose error is returned, and the title is stored iff it succeeds |
| Orchestrator.Agent.SaveSuffix | agent/agent.go:63-70 | one `SaveMessages` of the unsaved suffix; returns that suffix on success, else the write error; the rows change only on success, by that suffix |
| Orchestrator.Agent.NameAndSave | agent/agent.go:51-70 | its result, store writes and model calls are those of `Persist`, and the store's rows and titles are those its writes produce; on success the store holds the old rows followed by the returned messages |
| Orchestrator.Agent.SendMessage | agent/agent.go:33-71 | its result, store writes and model and tool calls are those of `SendSpec` on what the store answered, and the store's rows and titles are those its writes produce; on success the store holds the returned messages after the old rows |
| Orchestrator.Agent.Converse | agent/agent.go:39-70 | on a loaded chat: the same as `SendSpec` on that chat's history, including the store's rows and titles |
| Gemini.SchemaOf | llm/gemini.go:23-35 | the translation is typed object, copies `Required` and `PropertyOrdering`, and has a property map with the source's keys, each translated recursively (an empty map when the source has none) |
| Gemini.FromJSONSchema | llm/gemini.go:23-35 | the loop that fills the map builds `SchemaOf`, whatever order the properties are visited in |
| Gemini.SchemaOfLookup | llm/gemini.go:23-35 | a property path exists after translation iff it existed before, and leads to the translation of the node it led to, typed object with the same required list |
| Gemini.Declare | llm/gemini.go:43-47 | a declaration carries the function's ID as its name, its description, and its translated parameters |
| Gemini.FromToolBelt | llm/gemini.go:37-53 | never fails, and returns the declarations of every belt entry in some visiting order of the belt |
| Gemini.DeclarationsOrderFree | llm/gemini.go:39-51 | any two visiting orders give the same tools, each as often |
| Gemini.DeclarationsCover | llm/gemini.go:39-52 | each tool holds one declaration, and a declaration is emitted iff a visited entry's tool has a function it declares |
| Gemini.DeclarationsOfBelt | llm/gemini.go:37-53 | with every entry visited, exactly the declarations of the belt's tools' functions come out |
| Gemini.MessageContents | llm/gemini.go:58-95 | calls take precedence: one content per call in order, with the message text and the call's name and args; else one content per result; else one content whose role is the author |
| Gemini.MessageParts | llm/gemini.go:58-95 | the loop body builds `MessageContents` for the order in which it visited the results |
| Gemini.FromConversation | llm/gemini.go:55-98 | the result is the concatenation of the messages' contents, in message order, for some visiting order of each message's results |
| Gemini.MessageContentsWidth | llm/gemini.go:58-95 | a message becomes as many contents as it has calls if any, else as many as it has results if any, else one |
| Gemini.ContentsLength | llm/gemini.go:55-98 | the output length is the sum of the messages' widths |
| Gemini.ContentsAppend | llm/gemini.go:56-97 | translation preserves message order: two concatenated conversations translate to the concatenated translations |
| Gemini.ResponsesCovered | llm/gemini.go:72-85 | each result of a results message comes out under its function name with its payload, and nothing else does |
| Gemini.Reply | llm/gemini.go:118-128 | the reply is model-authored with the response text; its calls are nil iff the backend asked for none, otherwise copied in backend order |
| Gemini.ReplyMessage | llm/gemini.go:118-128 | the append loop builds `Reply` |
| Gemini.ReplyRoundTrip | llm/gemini.go:118-128 | a reply sent back in the history gives the backend its calls in the same order, or one content in the model's role |
| McpClient.Converted | mcp/client.go:114-141 | nil becomes the zero schema; type, description, required and examples are copied; properties are present iff they were, with the same keys, each converted; items are present iff they were, converted |
| McpClient.ToJSONSchema | mcp/client.go:114-141 | the recursive conversion with its property loop builds `Converted`, whatever order the properties are visited in |
| McpClient.ConvertProperties | mcp/client.go:127-132 | the property loop maps every key to the conversion of its schema, and nothing else |
| McpClient.ConvertedAt | mcp/client.go:114-141 | a path through properties and items exists after conversion iff it existed before, and leads to the conversion of the node it led to |
| McpClient.SelectTransport | mcp/client.go:39-47 | a command wins over a url; a url alone selects SSE; there is no transport iff neither is set, and the error names the server |
| McpClient.Client.constructor | mcp/client.go:27-36 | a new client has no sessions |
| McpClient.Client.Connect | mcp/client.go:38-54 | with no transport, the error and nothing dialled or added; otherwise the transport is dialled once, and exactly one session is appended iff the connection succeeds, whose error is returned otherwise |
| McpClient.Tools | mcp/client.go:56-67 | nil for a nil client; otherwise one entry per session, in session order |

## Left out

- The database (`db/chat.go`, `db/conversation.go`): SQL, JSON encoding,
  UUIDs and timestamps. The `Store` is a recording stand-in. Each of its
  operations either fails with a fixed error or does what the interface
  promises.
- AgentChat.Store.SaveMessages: a failed write is all-or-nothing here; it
  leaves the rows as they were. The database inserts the messages one
  statement at a time without a transaction (db/chat.go:87-112), so a
  failure can leave a prefix of them written; the `Store` interface
  promises nothing about failure. The failure clauses that rely on this
  are the `conversations` ensures of `Chat.SaveNewMessages`,
  `Agent.SaveSuffix`, `Agent.NameAndSave`, `Agent.SendMessage` and
  `Agent.Converse` (through `Written`), and the lemmas `PersistWrites`,
  `StoredAfterSend` and `TitledButUnwritten`.
- The backend round trip `GenerateContent` and the rest of
  `Gemini.SendMessage` (llm/gemini.go:100-116), because they are network
  calls. The agent's model is a function argument.
- `Session.Call` and `Session.Functions` (mcp/client.go:74-112), because
  they call into the MCP SDK over a subprocess or the network. The SDK's
  connect call is a function argument of `Connect`. `Session` is an opaque
  handle.
- The math, SQL, username and name tools. Tools are opaque handles whose
  behaviour is the invoker function.
- `ToolBelt.Describe` (JSON encoding), `agent/config.go` (file reading),
  the terminal front end and the TypeScript server: none is part of this
  model.
- Context cancellation and logging, which do not affect results.
- Orchestrator.SendLoop: the source's recursion has no bound. The model
  bounds the number of model calls with `fuel` and reports `OutOfFuel`
  when it is spent. `FuelIrrelevant` and `SendLoopComplete` show that the
  bound changes nothing for a loop that ends. `NoStopWhileCallsRequested`
  shows that a model which keeps requesting tools is cut off only by the
  bound.
- Orchestrator.Agent.SendMessage: the model is a deterministic function of
  the belt and the history. Within one call every history it sees is
  different, so this loses nothing. A model that answers the same history
  differently on different calls is not modelled.
- Orchestrator.SendLoop: tools are a fixed function of the tool, the
  function name and the arguments. A stateful tool, such as one whose
  queries write to a database, can answer the same call differently later
  on. This is not modelled, and `SendLoopComplete`'s exact description of
  the loop relies on it.
- Gemini.FromToolBelt: Go's map iteration order is not fixed. The
  contract says that some enumeration of the belt's keys gives the result,
  not which one. `DeclarationsOrderFree` shows that the multiset of tools
  is the same for every order.
- Gemini.FromConversation: the order of a results message's contents is
  the runtime's map order. The contract therefore states it for some
  enumeration of the results.
- JSON numbers are exact reals, not float64, and `map[string]any` values
  are a JSON datatype. Rounding is not modelled.
- Pointer identity and aliasing of messages: messages are values. The
  source shares `*Message` pointers between the chat and the loop's
  result, but never mutates a message after it is built.
- McpClient.Tools returns the sessions themselves. The source appends
  them to a `[]tool.Tool`, but a `*Session` does not implement `tool.Tool`
  (its `Functions` takes a context), so there is no interface value to
  model.
