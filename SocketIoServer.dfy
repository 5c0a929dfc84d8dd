/** app.py: the Flask-SocketIO server. Each event handler runs as one step
    over the module globals board_messages and connected_users (session id to
    the name it set); every handler except connect appends exactly one entry,
    saves the board and broadcasts all of it.

    The After* functions give the state after each handler; class Server's
    methods are proved against them. */
module SocketIoServer {
  import opened Board
  import Gateway

  type Sid = nat

  /** What the server writes: the board to one client (emit without
      broadcast), to chat_log.json, or to every client (broadcast=True). */
  datatype Effect = Emitted(to: Sid, board: seq<Message>) | Saved(board: seq<Message>) | Broadcast(board: seq<Message>)

  datatype IoState = IoState(board: seq<Message>, users: map<Sid, JsonStr>, effects: seq<Effect>)

  /** connected_users.pop(sid, "Anonymous"): the name the session set (which
      may be null), or "Anonymous". */
  function StoredName(users: map<Sid, JsonStr>, sid: Sid): (r: JsonStr)
    ensures sid in users ==> r == users[sid]
    ensures sid !in users ==> r == Str(Anonymous)
  {
    if sid in users then users[sid] else Str(Anonymous)
  }

  /** The tail every mutating handler shares: append, save_chat_log, then
      emit of the whole board with broadcast=True. */
  function Posted(st: IoState, entry: Message): (r: IoState)
    ensures r.users == st.users
    ensures r.board == st.board + [entry]
    ensures r.effects == st.effects + [Saved(r.board), Broadcast(r.board)]
  {
    var board := st.board + [entry];
    st.(board := board, effects := st.effects + [Saved(board), Broadcast(board)])
  }

  /** handle_connect */
  function AfterConnect(st: IoState, sid: Sid): IoState {
    st.(effects := st.effects + [Emitted(sid, st.board)])
  }

  /** handle_disconnect */
  function AfterDisconnect(st: IoState, sid: Sid, at: string): IoState {
    Posted(st.(users := st.users - {sid}), Notice(LeaveText(Shown(StoredName(st.users, sid))), at))
  }

  /** handle_message: the "username" and "message" fields of the event data
      (None when absent). */
  function AfterMessage(st: IoState, username: Option<JsonStr>, message: Option<JsonStr>, at: string): IoState {
    Posted(st, Message(Some(GetOr(username, Str(Anonymous))), Text(GetOr(message, Null)), at))
  }

  /** handle_image: the "username" and "image_data" fields. */
  function AfterImage(st: IoState, username: Option<JsonStr>, imageData: Option<JsonStr>, at: string): IoState {
    Posted(st, Message(Some(GetOr(username, Str(Anonymous))), Image(GetOr(imageData, Null)), at))
  }

  /** handle_set_username: the "username" field, null when absent. */
  function AfterSetUsername(st: IoState, sid: Sid, username: Option<JsonStr>, at: string): IoState {
    var name := GetOr(username, Null);
    Posted(st.(users := st.users[sid := name]), Notice(JoinText(Shown(name)), at))
  }

  /** handle_ai_request: the "prompt" field; the gateway sees the board
      before the reply is appended. The "username" field is only logged. */
  function AfterRequestAI(ai: Gateway.AiConfig, st: IoState, prompt: Option<JsonStr>, at: string): IoState {
    Posted(st, TextFrom(Str(AiName), Str(Gateway.Suggest(ai, st.board, GetOr(prompt, Null))), at))
  }

  /** The events a client can raise, with the fields their handlers read. */
  datatype Event =
    | Connect(sid: Sid)
    | Disconnect(sid: Sid, at: string)
    | SendMessage(username: Option<JsonStr>, message: Option<JsonStr>, at: string)
    | SendImage(username: Option<JsonStr>, imageData: Option<JsonStr>, at: string)
    | SetUsername(sid: Sid, name: Option<JsonStr>, at: string)
    | RequestAI(prompt: Option<JsonStr>, at: string)

  /** The handler an event is routed to. */
  function Handle(ai: Gateway.AiConfig, st: IoState, e: Event): IoState {
    match e
    case Connect(sid) => AfterConnect(st, sid)
    case Disconnect(sid, at) => AfterDisconnect(st, sid, at)
    case SendMessage(username, message, at) => AfterMessage(st, username, message, at)
    case SendImage(username, imageData, at) => AfterImage(st, username, imageData, at)
    case SetUsername(sid, name, at) => AfterSetUsername(st, sid, name, at)
    case RequestAI(prompt, at) => AfterRequestAI(ai, st, prompt, at)
  }

  /** The handlers run one at a time, in the order of `events`. */
  function Run(ai: Gateway.AiConfig, st: IoState, events: seq<Event>): IoState
    decreases |events|
  {
    if events == [] then st else Run(ai, Handle(ai, st, events[0]), events[1..])
  }

  /** How many of `events` append: all but the connects. */
  function Appending(events: seq<Event>): (n: nat)
    ensures n <= |events|
    decreases |events|
  {
    if events == [] then 0 else (if events[0].Connect? then 0 else 1) + Appending(events[1..])
  }

  // ------------------------------------------------------------------ lemmas

  /** connect sends the current board to the connecting client alone and
      changes neither the board nor the names. */
  lemma ConnectOnlyEmits(st: IoState, sid: Sid)
    ensures var r := AfterConnect(st, sid);
      r.board == st.board && r.users == st.users && r.effects == st.effects + [Emitted(sid, st.board)]
  {
  }

  /** Every other event appends exactly one entry, saves the new board and
      then broadcasts it, in that order. */
  lemma MutatingHandlers(ai: Gateway.AiConfig, st: IoState, e: Event)
    requires !e.Connect?
    ensures var r := Handle(ai, st, e);
      && |r.board| == |st.board| + 1 && r.board[..|st.board|] == st.board
      && r.effects == st.effects + [Saved(r.board), Broadcast(r.board)]
  {
    var r := Handle(ai, st, e);
    assert r.board[..|st.board|] == st.board;
  }

  /** disconnect forgets the session (and adds none) and names in its departure notice the
      name it set, or "Anonymous"; the other sessions keep their names. */
  lemma DisconnectNames(st: IoState, sid: Sid, at: string)
    ensures var r := AfterDisconnect(st, sid, at);
      && r.users == st.users - {sid}
      && sid !in r.users
      && (forall s :: s in st.users && s != sid ==> s in r.users && r.users[s] == st.users[s])
      && (sid in st.users ==> r.board[|st.board|] == Notice(LeaveText(Shown(st.users[sid])), at))
      && (sid !in st.users ==> r.board[|st.board|] == Notice(LeaveText(Anonymous), at))
  {
  }

  /** SetUsername maps the session to the name, replacing an earlier one,
      and posts one join notice; the other sessions keep theirs. */
  lemma SetUsernameMaps(st: IoState, sid: Sid, username: Option<JsonStr>, at: string)
    ensures var r := AfterSetUsername(st, sid, username, at);
      && sid in r.users && r.users[sid] == GetOr(username, Null)
      && (forall s :: s in st.users && s != sid ==> s in r.users && r.users[s] == st.users[s])
      && r.users.Keys == st.users.Keys + {sid}
      && r.board[|st.board|] == Notice(JoinText(Shown(GetOr(username, Null))), at)
  {
  }

  /** A name set and then a disconnect: the departure notice names what
      SetUsername stored (so an event without a username field leaves as
      "None"), and the session is gone from the dict. */
  lemma SetThenDisconnect(st: IoState, sid: Sid, username: Option<JsonStr>, at: string, at': string)
    ensures var r := AfterDisconnect(AfterSetUsername(st, sid, username, at), sid, at');
      && r.users == st.users - {sid}
      && r.board == st.board + [Notice(JoinText(Shown(GetOr(username, Null))), at),
                                Notice(LeaveText(Shown(GetOr(username, Null))), at')]
  {
    var mid := AfterSetUsername(st, sid, username, at);
    assert mid.users - {sid} == st.users - {sid};
  }

  /** A message entry carries "message" and an image entry "image_data",
      never both, each with the value the event data gave (null when
      absent), and both default the username to "Anonymous". */
  lemma EntryShapes(st: IoState, username: Option<JsonStr>, body: Option<JsonStr>, at: string)
    ensures var m := AfterMessage(st, username, body, at).board[|st.board|];
      m.body.Text? && m.username == Some(GetOr(username, Str(Anonymous)))
    ensures var m := AfterImage(st, username, body, at).board[|st.board|];
      m.body.Image? && m.username == Some(GetOr(username, Str(Anonymous)))
    ensures username.None? ==> AfterMessage(st, username, body, at).board[|st.board|].username == Some(Str(Anonymous))
    ensures AfterMessage(st, username, body, at).board[|st.board|]
         == Message(Some(GetOr(username, Str(Anonymous))), Text(GetOr(body, Null)), at)
    ensures AfterImage(st, username, body, at).board[|st.board|]
         == Message(Some(GetOr(username, Str(Anonymous))), Image(GetOr(body, Null)), at)
  {
  }

  /** The AI entry is posted under "AI Assistant" with the gateway's reply
      to the prompt over the board as it was. */
  lemma AiReply(ai: Gateway.AiConfig, st: IoState, prompt: Option<JsonStr>, at: string)
    ensures var m := AfterRequestAI(ai, st, prompt, at).board[|st.board|];
      m == Message(Some(Str(AiName)), Text(Str(Gateway.Suggest(ai, st.board, GetOr(prompt, Null)))), at)
  {
  }

  /** The board is append-only: any run of handlers keeps the old board as a
      prefix and adds one entry per non-connect event. */
  lemma {:induction false} RunAppendOnly(ai: Gateway.AiConfig, st: IoState, events: seq<Event>)
    ensures var r := Run(ai, st, events);
      st.board <= r.board && |r.board| == |st.board| + Appending(events)
    decreases |events|
  {
    if events != [] {
      var mid := Handle(ai, st, events[0]);
      if !events[0].Connect? {
        MutatingHandlers(ai, st, events[0]);
        assert st.board <= mid.board;
      }
      RunAppendOnly(ai, mid, events[1..]);
    }
  }

  /** Every snapshot emitted, saved or broadcast is a prefix of the board. */
  ghost predicate SnapshotsArePrefixes(st: IoState) {
    forall i :: 0 <= i < |st.effects| ==> st.effects[i].board <= st.board
  }

  lemma HandleKeepsSnapshots(ai: Gateway.AiConfig, st: IoState, e: Event)
    requires SnapshotsArePrefixes(st)
    ensures SnapshotsArePrefixes(Handle(ai, st, e))
  {
    var r := Handle(ai, st, e);
    if !e.Connect? {
      MutatingHandlers(ai, st, e);
      forall i | 0 <= i < |r.effects| ensures r.effects[i].board <= r.board {
        if i < |st.effects| {
          assert r.effects[i] == st.effects[i];
        }
      }
    }
  }

  /** So any run keeps every snapshot emitted, saved or broadcast a prefix
      of the board: what goes out is always the whole current board. */
  lemma {:induction false} RunKeepsSnapshots(ai: Gateway.AiConfig, st: IoState, events: seq<Event>)
    requires SnapshotsArePrefixes(st)
    ensures SnapshotsArePrefixes(Run(ai, st, events))
    decreases |events|
  {
    if events != [] {
      var mid := Handle(ai, st, events[0]);
      HandleKeepsSnapshots(ai, st, events[0]);
      RunKeepsSnapshots(ai, mid, events[1..]);
    }
  }

  // ------------------------------------------------------------------- class

  /** The server process: the module globals, the Gemini configuration fixed
      at import, and what has been sent and saved. */
  class Server {
    const ai: Gateway.AiConfig
    var board: seq<Message>
    var users: map<Sid, JsonStr>
    var effects: seq<Effect>

    function State(): IoState
      reads this
    {
      IoState(board, users, effects)
    }

    /** The __main__ block: board_messages = load_chat_log(). */
    constructor (ai: Gateway.AiConfig, log: seq<Message>)
      ensures this.ai == ai && State() == IoState(log, map[], [])
    {
      this.ai := ai;
      board, users, effects := log, map[], [];
    }

    method SaveChatLog()
      modifies this
      ensures State() == old(State()).(effects := old(effects) + [Saved(old(board))])
    {
      effects := effects + [Saved(board)];
    }

    /** emit('BoardInfo', {'payload': board_messages}, broadcast=True) */
    method BroadcastBoard()
      modifies this
      ensures State() == old(State()).(effects := old(effects) + [Broadcast(old(board))])
    {
      effects := effects + [Broadcast(board)];
    }

    /** The tail every mutating handler shares: append the entry, save the
        log, broadcast the board. */
    method Post(entry: Message)
      modifies this
      ensures State() == Posted(old(State()), entry)
    {
      board := board + [entry];
      SaveChatLog();
      BroadcastBoard();
    }

    method HandleConnect(sid: Sid)
      modifies this
      ensures State() == AfterConnect(old(State()), sid)
    {
      effects := effects + [Emitted(sid, board)];
    }

    method HandleDisconnect(sid: Sid, at: string)
      modifies this
      ensures State() == AfterDisconnect(old(State()), sid, at)
    {
      var username := Str(Anonymous);
      if sid in users {
        username := users[sid];
        users := users - {sid};
      } else {
        assert users - {sid} == users;
      }
      Post(Notice(LeaveText(Shown(username)), at));
    }

    method HandleMessage(username: Option<JsonStr>, message: Option<JsonStr>, at: string)
      modifies this
      ensures State() == AfterMessage(old(State()), username, message, at)
    {
      Post(Message(Some(GetOr(username, Str(Anonymous))), Text(GetOr(message, Null)), at));
    }

    method HandleImage(username: Option<JsonStr>, imageData: Option<JsonStr>, at: string)
      modifies this
      ensures State() == AfterImage(old(State()), username, imageData, at)
    {
      Post(Message(Some(GetOr(username, Str(Anonymous))), Image(GetOr(imageData, Null)), at));
    }

    method HandleSetUsername(sid: Sid, username: Option<JsonStr>, at: string)
      modifies this
      ensures State() == AfterSetUsername(old(State()), sid, username, at)
    {
      var name := GetOr(username, Null);
      users := users[sid := name];
      Post(Notice(JoinText(Shown(name)), at));
    }

    method HandleAiRequest(prompt: Option<JsonStr>, at: string)
      modifies this
      ensures State() == AfterRequestAI(ai, old(State()), prompt, at)
    {
      var reply := Gateway.CallGemini(ai, board, GetOr(prompt, Null));
      Post(TextFrom(Str(AiName), Str(reply), at));
    }
  }
}
