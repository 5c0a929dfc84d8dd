# Chat board servers, modelled in Dafny

The repository holds three small Python chat servers. They share one idea.
Each keeps `board_messages`, an append-only list of message records
(username, text or image, timestamp), and a registry of who is connected.
In server_web.py and app.py each well-formed frame or mutating event leads
to at most one append. It is then followed by a save of the board to
`chat_log.json` and by a broadcast of the whole board to every client. Three
cases are different. app.py's connect saves nothing and sends the board to
the connecting client alone. In server_web.py a frame that is not a JSON
object, or a SendImage payload without a comma, raises and ends the session
with no append, save or broadcast. server.py saves nothing. Its
broadcast can append more: when a send fails, the failing socket is removed,
and if it owns a name its departure notice is appended and broadcast too.

- `server.py` is a thread-per-connection TCP server. It speaks the
  colon-delimited text protocol `Command:payload`. It keeps a `clients` list
  and a name-to-socket dict `client_info`.
- `server_web.py` is an asyncio WebSocket server. Its inbound frames are
  JSON objects `{"command", "payload"}`, and it keeps a set of connected
  sockets.
- `app.py` is a Flask-SocketIO server with one handler per event. It keeps a
  session-id-to-name dict.

`app.py` and `server_web.py` share `call_gemini_api`, the AI assistant
gateway, and `load_chat_log`.

The project has six modules, one file each:

| module | models |
|---|---|
| `Board` | the message record, Python's string-or-None values and their f-string rendering, the fixed join and departure notices, `str.find` |
| `Gateway` | `call_gemini_api`: the prompt-history scan (a loop proved against a filter/take/reverse specification), the template, the fallback replies |
| `ChatLog` | `load_chat_log` and its fallbacks |
| `TcpServer` | `server.py`: parsing, `broadcast`, `remove_client`, the `handle_client` loop, accept |
| `WebServer` | `server_web.py`: `broadcast_board_info`, `handle_client` dispatch and teardown |
| `SocketIoServer` | `app.py`: the six Socket.IO event handlers |

Each server module first gives the state after each routine as a function
of the state before it (`AfterRemoveClient`, `AfterStep`, `AfterSession`, …).
A `class Server` then holds the module globals as fields, and its methods
update them in place. Each method is proved to produce the state that its
function gives. The lemmas state what the code promises about those
functions.

What goes out of the process is recorded in the state as a list of effects:
- deliveries of frames to sockets;
- saves of the board;
- broadcasts of the board.

This makes the order append, then save, then broadcast something the
contracts can state.

Python's semantics are modelled where they change the outcome:
- **Dict order.** Dicts keep insertion order. `remove_client` takes the
  first name registered for the socket.
- **Truthiness.** `""` is a false name, so no departure is posted for it.
- **`dict.get` and `pop`.** Their defaults are modelled, and `f"{None}"`
  renders as `"None"`.
- **`split`.** `data.split(':', 1)` and `payload.split(',')[1]` are
  modelled, including the `IndexError`/`AttributeError` the second can raise.
- **Removal during iteration.** `broadcast` iterates over the list that its
  failure path removes from, so the client after a failed one is skipped.
- **`asyncio.gather`.** It re-raises the `ConnectionClosed` of any one
  recipient, which ends the session of the client whose frame was being
  handled.

## Model

| member | source | states |
|---|---|---|
| Board.IndexOf | server.py:51 | the index found is the first occurrence of the character, and None exactly when it does not occur |
| Board.Shown | app.py:102 | Python's f"{v}" of a string-or-None value: the string itself, or "None" |
| Board.GetOr | app.py:111 | dict.get(key, default) on a field that may be absent: the field's value, or the default |
| Board.Truthy | server_web.py:36 | Python truthiness of a string-or-None value: None and "" are false; the TextOnly row carries its use |
| Board.DepartureNotice | server.py:35-39 | a departure notice is a "Server" entry whose text ends in the departure suffix |
| Board.DepartureIsNotice | server.py:35-39 | conversely, every "Server" entry whose text ends in the suffix is the departure notice of the name before the suffix |
| Board.NoticeTextsDistinct | server.py:59-63 | a join text never equals a departure text, and each names exactly one user |
| TcpServer.Parse | server.py:51-53 | the command has no colon; with a colon, command + ":" + payload is the data; without one, the command is the data and the payload is "" |
| TcpServer.ParseRoundTrip | server.py:51-53 | "Name:payload" parses back to (Name, payload) whatever colons the payload holds |
| TcpServer.FirstIndex | server.py:24-25 | the position of the first occurrence of the socket in the list |
| TcpServer.RemoveFirst | server.py:24-25 | the first occurrence of the socket is cut out and the others keep their order; the list is unchanged when the socket is absent |
| TcpServer.Assign | server.py:56 | the name now maps to this socket and every other name keeps its socket; no entry appears from nowhere; names stay distinct |
| TcpServer.Lookup | server.py:56 | client_info.get(name) on the registry in insertion order; its properties are stated by the Assign row |
| TcpServer.AssignNewName | server.py:56 | a name not yet registered goes last: the registry is the old one plus the new entry |
| TcpServer.AssignExistingName | server.py:56 | a registered name keeps its place and only its socket changes; every other entry stays where it was |
| TcpServer.OwnerIndex | server.py:27-31 | the index of the first registry entry, in insertion order, owned by the socket; None exactly when there is none |
| TcpServer.AfterBroadcastFrom | server.py:15-21 | a broadcast never grows the client list or the registry, and only appends to the board and to the frames sent |
| TcpServer.AfterBroadcast | server.py:15-21 | broadcast(board_messages) as called at server.py lines 40, 64 and 73: the loop from the first client with the board as snapshot; the AfterBroadcastFrom and Broadcast lemma rows carry its properties |
| TcpServer.AfterRemoveClient | server.py:23-40 | remove_client never grows the client list or the registry, and only appends to the board and to the frames sent |
| TcpServer.AfterStep | server.py:51-76 | one command only appends to the board and to the frames sent |
| TcpServer.AfterServe | server.py:47-82 | the rest of a session, finally clause included, only appends to the board and to the frames sent |
| TcpServer.AfterSession | server.py:42-82 | a whole session only appends to the board and to the frames sent |
| TcpServer.BroadcastFootprint | server.py:15-21 | after a broadcast only clients and registry entries present before remain, and every one of a live socket still does |
| TcpServer.RemoveClientFootprint | server.py:23-33 | the same for remove_client, except that the removed socket may go; the remaining clients lie within clients.remove(sock) |
| TcpServer.BroadcastAdds | server.py:15-21 | everything a broadcast appends to the board is a departure notice, and every frame it sends is BoardInfo to a live socket |
| TcpServer.RemoveClientAdds | server.py:27-40 | everything remove_client appends is a departure notice and every frame BoardInfo to a live socket; when the first name the socket owns is truthy, that name's departure notice is appended right after the old board |
| TcpServer.BroadcastShrinks | server.py:15-21 | no socket occurs in the client list more often after a broadcast than before |
| TcpServer.RemoveClientShrinks | server.py:23-40 | no socket occurs in the client list more often after remove_client than after clients.remove(sock) |
| TcpServer.DistinctNamesPairwise | server.py:12 | a dict's keys are distinct: no two registry positions share a name |
| TcpServer.DeleteDistinct | server.py:33 | del client_info[name] keeps the names distinct |
| TcpServer.BroadcastDistinct | server.py:15-21 | a broadcast keeps the names distinct |
| TcpServer.RemoveClientDistinct | server.py:23-40 | remove_client keeps the names distinct |
| TcpServer.BroadcastAllAlive | server.py:15-21 | with no failing send, the snapshot goes to each client in list order and nothing else changes |
| TcpServer.BroadcastSkipsNextClient | server.py:17-21 | with clients [1, 2] and socket 1 failing, socket 2 is alive yet receives nothing |
| TcpServer.RemoveClientNoop | server.py:23-33 | a socket that owns no truthy name is only taken out of the client list: nothing is appended, deleted or sent; if it is no longer a client nothing changes |
| TcpServer.RemoveClientIdempotent | server.py:21-33 | a second remove_client of the same socket changes nothing, so the finally clause after a broadcast-triggered removal posts no second departure |
| TcpServer.RemoveClientTwiceWithTwoNames | server.py:27-33 | a socket that registered two names gets a departure notice from each of two removals |
| TcpServer.ClaimedNameNoDeparture | server.py:28-33 | a socket whose only name was claimed by another session's UserName gets no departure notice when removed; only the client list changes |
| TcpServer.RemoveClientDeparts | server.py:23-40 | with a truthy first name and no failing send: the entry is deleted, exactly one departure notice is appended, and the new board goes to every remaining client |
| TcpServer.StepUserName | server.py:54-64 | when the session's own socket accepts NameRecieved: UserName takes the payload as the session name, maps it to this socket, and appends exactly one join notice; with no failing send, nothing else goes on the board and the frames sent are the NameRecieved reply to this socket, then the new board to every client in list order |
| TcpServer.StepUserNameRefused | server.py:54-58 | when the NameRecieved send fails, the name is still mapped to the socket, no join notice is posted and nothing is sent, and the session ends |
| TcpServer.StepSend | server.py:65-73 | Send appends exactly one entry under the current session name ("" before any UserName) carrying the payload; with no failing send the new board is sent to every client in list order and nothing else changes |
| TcpServer.StepOtherCommands | server.py:74-76 | End stops the loop and any other command continues it; neither changes anything |
| TcpServer.StepShrinks | server.py:51-76 | no socket occurs in the client list more often after one command than before |
| TcpServer.StepDistinct | server.py:51-76 | one command keeps the names distinct, so AssignExistingName and ClaimedNameNoDeparture apply along a session |
| TcpServer.FinallyRemovesSocket | server.py:81-82 | the finally clause leaves the socket out of the client list when it was there at most once |
| TcpServer.ServeRemovesSocket | server.py:47-82 | after the recv loop and the finally clause the socket is no longer a client |
| TcpServer.SessionRemovesSocket | server.py:42-82 | however handle_client ends, its socket is no longer a client |
| TcpServer.Server.constructor | server.py:11-13 | the globals start empty |
| TcpServer.Server.Accept | server.py:97 | the accepted socket is appended to clients |
| TcpServer.Server.Broadcast | server.py:15-21 | the index loop over the live client list gives the state AfterBroadcastFrom describes |
| TcpServer.Server.RemoveClient | server.py:23-40 | gives the state AfterRemoveClient describes |
| TcpServer.Server.FindOwner | server.py:27-31 | the registry scan finds the first entry owned by the socket |
| TcpServer.Server.Receive | server.py:51-76 | one pass of the recv loop gives the state, name and stop flag AfterStep describes |
| TcpServer.Server.HandleClient | server.py:42-83 | the whole session gives the state AfterSession describes |
| Gateway.Recent | server_web.py:36 | history[-20:] is the last min(20, n) entries |
| Gateway.TextOnly | server_web.py:36 | the filter keeps only entries with a truthy message, each taken from the input |
| Gateway.Selected | server_web.py:36-38 | min(10, number of text entries in the last 20) entries, each with a truthy message and from the last 20 |
| Gateway.TextOnlyAt | server_web.py:36 | a text entry's place in the filtered list is the number of text entries before it |
| Gateway.SelectedEntry | server_web.py:36-38 | an entry of the window is selected exactly when it has text and fewer than 10 text entries precede it, and then it takes that place |
| Gateway.OlderHistoryIgnored | server_web.py:36 | entries older than the last 20 never influence the prompt |
| Gateway.HistoryNewestFirst | server_web.py:39 | line k of the history is that of the k-th newest selected entry |
| Gateway.Line | server_web.py:38 | the f-string f"{username}: {message}" with "Unknown" for a missing username; the HistoryNewestFirst row carries its use |
| Gateway.Lines | server_web.py:36-38 | the list of f-string lines built by the loop: one line per entry, in the same order |
| Gateway.Reverse | server_web.py:39 | reversed(...): the same length, with position i holding element n-1-i |
| Gateway.JoinLines | server_web.py:39 | "\n".join of the lines; the HistoryNewestFirst and BuildPromptHistory rows carry its properties |
| Gateway.PromptHistory | server_web.py:35-39 | the joined, reversed lines of the selected entries; the Selected, SelectedEntry, HistoryNewestFirst and OlderHistoryIgnored rows carry its properties |
| Gateway.FinalPrompt | server_web.py:40-51 | the fixed template filled with the history and the instruction; the TemplateEmbeds row carries its properties |
| Gateway.TemplateEmbeds | server_web.py:40-51 | the prompt carries the history and the instruction verbatim, at fixed offsets |
| Gateway.BuildPromptHistory | server_web.py:35-39 | the breaking loop gives the filter/take/reverse/join specification |
| Gateway.Suggest | server_web.py:33-57 | without a key, the fixed unavailable reply; otherwise the model's text, or the fixed error reply when the call raises |
| Gateway.CallGemini | app.py:40-66 | gives the reply Suggest describes |
| ChatLog.LoadChatLog | server_web.py:59-65 | [] for a missing file, an I/O error, empty content or undecodable JSON; the decoded list for non-empty content that decodes; no result (start-up fails) exactly for bytes that are not UTF-8 |
| ChatLog.SavedFile | server_web.py:67-71 | what a successful save_chat_log leaves in the file: json.dump of the board; the LoadAfterSave row carries its property |
| ChatLog.LoadAfterSave | app.py:68-81 | a board that save_chat_log wrote is what the next start-up loads |
| WebServer.AfterBroadcast | server_web.py:74-80 | nothing happens when no client is connected; otherwise exactly one send of the whole board to the open connected clients is recorded; it raises exactly when some connected client is closed; the board and the connected set do not change |
| WebServer.ImageField | server_web.py:109 | payload.split(',')[1] is None (Python raises) exactly for null or a payload without a comma; the field has no comma |
| WebServer.ImageFieldOfDataUrl | server_web.py:109 | for a "header,base64" data URL the field is the base64 part |
| WebServer.AfterStep | server_web.py:91-120 | one frame keeps the connected set, appends at most one entry and only appends effects |
| WebServer.Dispatched | server_web.py:96-117 | the if/elif chain: the entry appended for each command, none for another, or the exception of SendImage; the StepEntries and ImageWithoutCommaRaises rows carry its properties |
| WebServer.AfterSave | server_web.py:67-71 | save_chat_log records a save of the current board; the StepSavesThenBroadcasts and AfterTeardown rows carry its place in the order |
| WebServer.MalformedEndsSession | server_web.py:92-93 | a frame that is not a JSON object ends the session before anything is appended, saved or sent |
| WebServer.AfterTeardown | server_web.py:124-131 | the connection leaves the set, exactly one departure notice with the current name is appended, and the new board is saved and then sent to the remaining open connections (nothing is sent when none remain) |
| WebServer.AfterServe | server_web.py:91-131 | the rest of a session removes the connection from the set and strictly grows the board |
| WebServer.AfterSession | server_web.py:83-131 | join the set as "Anonymous", the opening broadcast, the loop and the teardown; the SessionEndsWithDeparture and AnonymousDeparture rows carry its properties |
| WebServer.StepSavesThenBroadcasts | server_web.py:96-120 | exactly one entry for the four commands and none for any other; then one save and one broadcast of the new board, in that order; the session ends exactly when a connected client is closed |
| WebServer.StepEntries | server_web.py:96-117 | the entry for each command, and the session name after it |
| WebServer.ImageWithoutCommaRaises | server_web.py:107-111 | a SendImage without a comma ends the session before anything is appended, saved or sent |
| WebServer.DeadPeerEndsSender | server_web.py:80-122 | a closed peer connection ends the session of the client whose Send is broadcast |
| WebServer.ServeKeepsConnection | server_web.py:124-131 | a served session ends with the connection gone and a departure notice as the newest entry |
| WebServer.SessionEndsWithDeparture | server_web.py:83-131 | a whole session leaves the connected set as it found it, only appends, and ends with a departure notice |
| WebServer.ServeWithoutRename | server_web.py:96-128 | without UserName frames the departure notice names the starting name |
| WebServer.AnonymousDeparture | server_web.py:85-128 | a client that never sends UserName leaves as "Anonymous" |
| WebServer.StepKeepsSnapshots | server_web.py:119-120 | every saved or sent board stays a prefix of the board across one frame |
| WebServer.ServeKeepsSnapshots | server_web.py:91-131 | and across a whole session |
| WebServer.Server.constructor | server_web.py:135-136 | the board is the loaded log and no client is connected |
| WebServer.Server.SaveChatLog | server_web.py:67-71 | records a save of the current board |
| WebServer.Server.BroadcastBoardInfo | server_web.py:74-80 | gives the state and exception flag AfterBroadcast describes |
| WebServer.Server.Receive | server_web.py:92-120 | one pass of the loop body gives what AfterStep describes |
| WebServer.Server.Teardown | server_web.py:124-131 | gives the state AfterTeardown describes |
| WebServer.Server.HandleClient | server_web.py:83-131 | the whole session gives the state AfterSession describes |
| SocketIoServer.StoredName | app.py:100 | connected_users.pop(sid, "Anonymous") yields the stored name, or "Anonymous" |
| SocketIoServer.Posted | app.py:116-118 | the shared tail: one entry appended, then the new board saved, then broadcast |
| SocketIoServer.AfterConnect | app.py:90-95 | handle_connect; the ConnectOnlyEmits row carries its properties |
| SocketIoServer.AfterDisconnect | app.py:97-106 | handle_disconnect; the DisconnectNames and MutatingHandlers rows carry its properties |
| SocketIoServer.AfterMessage | app.py:108-118 | handle_message; the EntryShapes and MutatingHandlers rows carry its properties |
| SocketIoServer.AfterImage | app.py:120-130 | handle_image; the EntryShapes and MutatingHandlers rows carry its properties |
| SocketIoServer.AfterSetUsername | app.py:132-142 | handle_set_username; the SetUsernameMaps and SetThenDisconnect rows carry its properties |
| SocketIoServer.AfterRequestAI | app.py:144-155 | handle_ai_request; the AiReply row carries its properties |
| SocketIoServer.Handle | app.py:90-155 | the dispatch of one event to its handler; the HandleKeepsSnapshots row carries its properties |
| SocketIoServer.Run | app.py:90-155 | a run of events handled one after another; the RunAppendOnly and RunKeepsSnapshots rows carry its properties |
| SocketIoServer.ConnectOnlyEmits | app.py:90-95 | connect sends the board to the connecting client alone and changes neither the board nor the names |
| SocketIoServer.MutatingHandlers | app.py:97-155 | every other event appends exactly one entry, then saves and broadcasts the new board, in that order |
| SocketIoServer.DisconnectNames | app.py:97-106 | disconnect forgets the session and keeps exactly the others (no session is added), and names the stored user or "Anonymous" in the departure notice |
| SocketIoServer.SetUsernameMaps | app.py:132-142 | SetUsername maps the session to the name, overwriting an earlier one, keeps the others, and posts one join notice |
| SocketIoServer.SetThenDisconnect | app.py:97-142 | a departure after SetUsername names what was stored ("None" for a missing field) |
| SocketIoServer.EntryShapes | app.py:108-130 | the appended entry is exactly the event's username (default "Anonymous") with its "message" as text, or its "image_data" as image, null when absent |
| SocketIoServer.AiReply | app.py:144-155 | RequestAI appends one "AI Assistant" entry carrying the gateway's reply over the board as it was |
| SocketIoServer.RunAppendOnly | app.py:90-155 | any run of handlers keeps the old board as a prefix and adds one entry per event other than connect |
| SocketIoServer.HandleKeepsSnapshots | app.py:90-155 | every emitted, saved or broadcast board stays a prefix of the board across one event |
| SocketIoServer.RunKeepsSnapshots | app.py:90-155 | and across any run of events |
| SocketIoServer.Server.constructor | app.py:158-159 | the board is the loaded log and no session has a name |
| SocketIoServer.Server.SaveChatLog | app.py:76-81 | records a save of the current board |
| SocketIoServer.Server.BroadcastBoard | app.py:106 | records a broadcast of the current board |
| SocketIoServer.Server.Post | app.py:116-118 | append, save, broadcast, as Posted describes |
| SocketIoServer.Server.HandleConnect | app.py:90-95 | gives the state AfterConnect describes |
| SocketIoServer.Server.HandleDisconnect | app.py:97-106 | gives the state AfterDisconnect describes |
| SocketIoServer.Server.HandleMessage | app.py:108-118 | gives the state AfterMessage describes |
| SocketIoServer.Server.HandleImage | app.py:120-130 | gives the state AfterImage describes |
| SocketIoServer.Server.HandleSetUsername | app.py:132-142 | gives the state AfterSetUsername describes |
| SocketIoServer.Server.HandleAiRequest | app.py:144-155 | gives the state AfterRequestAI describes, calling the gateway on the board before the reply is appended |

## Left out

- **Transports and concurrency.** Sockets, `websockets`, Socket.IO and `asyncio` are not modelled. Nor are the threads of server.py, which share unsynchronised lists. Each handler invocation is one atomic step, and interleavings are not modelled.
- **TCP message boundaries.** `recv(1024)` can merge or split commands; the model takes each recv as exactly one command.
- **`socket.close()` and the servers' main functions.** The calls are not modelled. Neither are the bind/listen/serve set-up and the thread start. Two parts of the main functions are modelled: server.py's `clients.append` at accept, and `board_messages = load_chat_log()` in server_web.py and app.py, which the `Server` constructors of `WebServer` and `SocketIoServer` take as their starting board.
- **Length-prefixed framing.** The code contains no length-prefixed framing, only the colon protocol and JSON frames, so no codec is modelled.
- **Clock, model and files as inputs.** Timestamps are parameters. Whether `GEMINI_API_KEY` is set and the model's `generate_content` are one parameter: a function from prompt to text or failure, so the same prompt always gets the same reply.
- **File I/O.** The outcome of reading `chat_log.json` is an input. Saves are recorded as effects, and the I/O errors they swallow are not modelled.
- **JSON.** `json.dumps` and `json.loads` are not modelled. The JSON decoder is a parameter of `LoadChatLog`. Field values other than strings and null are not modelled: numbers, lists and objects where a string is expected.
- **`data.get` on non-object data.** In server_web.py such a frame raises and ends the session; that is modelled. In app.py such event data is not modelled.
- **Output not modelled.** The `print` logging, the `index` route of app.py, and the UI clients (client.py, script.js) are not modelled.
- **History order in `call_gemini_api`.** The code keeps the first 10 text entries, oldest first, of the last 20. It joins them newest first. The model follows the code.
- **`load_chat_log` and invalid UTF-8.** It catches only `JSONDecodeError` and `IOError`. A file that is not valid UTF-8 raises `UnicodeDecodeError`, and start-up fails; the model gives no board for it.
- TcpServer.RemoveClientIdempotent: requires that the socket appears at most once in `clients` and owns at most one name. server.py does not guarantee the second condition: a session that sends UserName twice owns two names. `TcpServer.RemoveClientTwiceWithTwoNames` shows that two removals then post two departure notices.
- TcpServer.AfterBroadcastFrom: its own contract states only sizes and prefixes. What a broadcast keeps and adds is stated in `BroadcastFootprint`, `BroadcastAdds` and `BroadcastAllAlive`. The number of clients that receive a frame when sends fail is not stated, because the skipped client depends on list positions.
- WebServer.AfterBroadcast: a broadcast is recorded as one send of the board to the open connections. The order of the individual sends inside `asyncio.gather` is not modelled.
- TcpServer.SessionRemovesSocket: requires that the socket occurs at most once in `clients`. Accept appends each socket once, so this holds for a socket while its own session runs; the model does not state it for the threads together.
