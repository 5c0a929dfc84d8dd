/** server_web.py: the asyncio WebSocket server. Clients send JSON objects
    {"command": ..., "payload": ...}; every inbound message is dispatched to at
    most one append to the board, then the board is saved and the whole board
    is broadcast to every connected client as one BoardInfo frame.

    AfterBroadcast, AfterStep, AfterTeardown, AfterServe and AfterSession give
    the state after each part of a session as a function of the state before
    it; the methods of class Server are proved against them. */
module WebServer {
  import opened Board
  import Gateway

  type Conn = nat

  /** One inbound frame: json.loads gave an object, whose "command" and
      "payload" keys read as given (null when absent), or the frame raised
      before dispatch (not JSON, or not an object). */
  datatype Inbound = Malformed | Envelope(command: JsonStr, payload: JsonStr)

  /** The environment while one frame is handled: the connections whose send
      raises ConnectionClosed, and the clock. */
  datatype Env = Env(dead: set<Conn>, at: string)

  datatype Arrival = Arrival(msg: Inbound, env: Env)

  /** What the server writes: the board to chat_log.json, or the board to a
      set of connections. A write error of save_chat_log is swallowed, so a
      save is recorded whatever the file system does. */
  datatype Effect = Saved(board: seq<Message>) | Sent(to: set<Conn>, board: seq<Message>)

  /** The module globals CONNECTED_CLIENTS and board_messages, plus every
      save and send in order. */
  datatype WebState = WebState(connected: set<Conn>, board: seq<Message>, effects: seq<Effect>)

  /** A state with whether the broadcast raised. */
  datatype Outcome = Outcome(st: WebState, raised: bool)

  /** broadcast_board_info with the connections in `dead` closed: nothing
      when no client is connected, otherwise one frame with the whole current
      board, not a delta, to every connected client whose connection is open;
      asyncio.gather re-raises ConnectionClosed when any one send fails,
      after the others have been sent. */
  function AfterBroadcast(st: WebState, dead: set<Conn>): (r: Outcome)
    ensures r.st.connected == st.connected && r.st.board == st.board
    ensures st.effects <= r.st.effects && |r.st.effects| <= |st.effects| + 1
    ensures r.raised <==> st.connected * dead != {}
    ensures st.connected == {} ==> r == Outcome(st, false)
    ensures st.connected != {} ==> r.st.effects == st.effects + [Sent(st.connected - dead, st.board)]
  {
    if st.connected == {} then Outcome(st, false)
    else Outcome(st.(effects := st.effects + [Sent(st.connected - dead, st.board)]), st.connected * dead != {})
  }

  /** save_chat_log */
  function AfterSave(st: WebState): WebState {
    st.(effects := st.effects + [Saved(st.board)])
  }

  /** payload.split(',')[1]: the text between the first comma and the next
      one (or the end). None where Python raises: IndexError for a payload
      without a comma, AttributeError for null. */
  function ImageField(payload: JsonStr): (r: Option<string>)
    ensures r.None? <==> payload.Null? || ',' !in payload.s
    ensures r.Some? ==> ',' !in r.value
  {
    match payload
    case Null => None
    case Str(s) =>
      match IndexOf(s, ',')
      case None => None
      case Some(k) =>
        var rest := s[k + 1..];
        match IndexOf(rest, ',')
        case None => Some(rest)
        case Some(j) => Some(rest[..j])
  }

  /** For a data URL "header,base64" (with or without further fields after
      another comma), the field is the base64 part. */
  lemma ImageFieldOfDataUrl(header: string, b64: string, tail: string)
    requires ',' !in header && ',' !in b64
    requires tail == [] || tail[0] == ','
    ensures ImageField(Str(header + "," + b64 + tail)) == Some(b64)
  {
    var s := header + "," + b64 + tail;
    assert s == header + [','] + (b64 + tail);
    IndexOfJoined(header, ',', b64 + tail);
    assert s[|header| + 1..] == b64 + tail;
    if tail != [] {
      assert b64 + tail == b64 + [','] + tail[1..];
      IndexOfJoined(b64, ',', tail[1..]);
      assert (b64 + tail)[..|b64|] == b64;
    } else {
      assert b64 + tail == b64;
    }
  }

  /** What one well-formed frame does to the board. */
  datatype Dispatch = Append(entry: Message) | NoEntry | Raises

  /** The if/elif chain of handle_client: the entry appended, nothing for an
      unknown command, or an exception from SendImage. */
  function Dispatched(ai: Gateway.AiConfig, board: seq<Message>, username: JsonStr,
                      command: JsonStr, payload: JsonStr, at: string): Dispatch
  {
    if command == Str("UserName") then Append(Notice(JoinText(Shown(payload)), at))
    else if command == Str("Send") then Append(TextFrom(username, payload, at))
    else if command == Str("SendImage") then
      match ImageField(payload)
      case None => Raises
      case Some(b64) => Append(Message(Some(username), Image(Str(b64)), at))
    else if command == Str("AI_HELP") then
      Append(TextFrom(Str(AiName), Str(Gateway.Suggest(ai, board, payload)), at))
    else NoEntry
  }

  /** A pass of the session loop: the new state, the session name, and
      whether an exception ends the loop. */
  datatype StepResult = StepResult(st: WebState, username: JsonStr, ended: bool)

  /** One pass of `async for message in websocket`: dispatch, then save,
      then broadcast. */
  function AfterStep(ai: Gateway.AiConfig, st: WebState, username: JsonStr, a: Arrival): (r: StepResult)
    ensures r.st.connected == st.connected
    ensures st.board <= r.st.board && |r.st.board| <= |st.board| + 1
    ensures st.effects <= r.st.effects
  {
    match a.msg
    case Malformed => StepResult(st, username, true)
    case Envelope(command, payload) =>
      var name := if command == Str("UserName") then payload else username;
      match Dispatched(ai, st.board, username, command, payload, a.env.at)
      case Raises => StepResult(st, name, true)
      case NoEntry =>
        var b := AfterBroadcast(AfterSave(st), a.env.dead);
        StepResult(b.st, name, b.raised)
      case Append(entry) =>
        var b := AfterBroadcast(AfterSave(st.(board := st.board + [entry])), a.env.dead);
        StepResult(b.st, name, b.raised)
  }

  /** The finally clause: discard the connection, append the departure
      notice under the current name, save and broadcast; an exception of
      that broadcast leaves handle_client without changing anything more. */
  function AfterTeardown(st: WebState, ws: Conn, username: JsonStr, last: Env): (r: WebState)
    ensures r.connected == st.connected - {ws}
    ensures r.board == st.board + [Notice(LeaveText(Shown(username)), last.at)]
    ensures st.effects + [Saved(r.board)] <= r.effects
    ensures r.effects == st.effects + [Saved(r.board)]
                         + (if r.connected == {} then [] else [Sent(r.connected - last.dead, r.board)])
  {
    var st1 := WebState(st.connected - {ws}, st.board + [Notice(LeaveText(Shown(username)), last.at)], st.effects);
    AfterBroadcast(AfterSave(st1), last.dead).st
  }

  /** The loop from the next frame on, then the finally clause. Running out
      of frames is the connection closing. */
  function AfterServe(ai: Gateway.AiConfig, st: WebState, ws: Conn, username: JsonStr,
                      inputs: seq<Arrival>, last: Env): (r: WebState)
    ensures r.connected == st.connected - {ws}
    ensures st.board < r.board
    decreases |inputs|
  {
    if inputs == [] then AfterTeardown(st, ws, username, last)
    else
      var r := AfterStep(ai, st, username, inputs[0]);
      if r.ended then AfterTeardown(r.st, ws, r.username, last)
      else AfterServe(ai, r.st, ws, r.username, inputs[1..], last)
  }

  /** handle_client for connection `ws`: join CONNECTED_CLIENTS under the
      name "Anonymous", broadcast once (with `opening` the connections
      closed then), serve, tear down. */
  function AfterSession(ai: Gateway.AiConfig, st: WebState, ws: Conn, opening: set<Conn>,
                        inputs: seq<Arrival>, last: Env): WebState
  {
    var b := AfterBroadcast(st.(connected := st.connected + {ws}), opening);
    if b.raised then AfterTeardown(b.st, ws, Str(Anonymous), last)
    else AfterServe(ai, b.st, ws, Str(Anonymous), inputs, last)
  }

  // ------------------------------------------------------------------ lemmas

  /** A well-formed frame with a known command (other than a SendImage
      payload without a comma) appends exactly one entry; any other command
      appends none. Either way the board is then saved and broadcast, in that
      order, to the connections of the session's state. */
  lemma {:induction false} StepSavesThenBroadcasts(ai: Gateway.AiConfig, st: WebState, ws: Conn, username: JsonStr,
                                                   command: JsonStr, payload: JsonStr, env: Env)
    requires ws in st.connected
    requires Dispatched(ai, st.board, username, command, payload, env.at) != Raises
    ensures var r := AfterStep(ai, st, username, Arrival(Envelope(command, payload), env));
      && (command in {Str("UserName"), Str("Send"), Str("SendImage"), Str("AI_HELP")} <==> |r.st.board| == |st.board| + 1)
      && r.st.effects == st.effects + [Saved(r.st.board), Sent(st.connected - env.dead, r.st.board)]
      && (r.ended <==> st.connected * env.dead != {})
  {
  }

  /** The entries of the four commands, and the session name after each. */
  lemma StepEntries(ai: Gateway.AiConfig, st: WebState, username: JsonStr, payload: JsonStr, env: Env)
    ensures var r := AfterStep(ai, st, username, Arrival(Envelope(Str("UserName"), payload), env));
      r.username == payload && r.st.board == st.board + [Notice(JoinText(Shown(payload)), env.at)]
    ensures var r := AfterStep(ai, st, username, Arrival(Envelope(Str("Send"), payload), env));
      r.username == username && r.st.board == st.board + [Message(Some(username), Text(payload), env.at)]
    ensures var r := AfterStep(ai, st, username, Arrival(Envelope(Str("SendImage"), payload), env));
      && r.username == username
      && (ImageField(payload).Some? ==>
            r.st.board == st.board + [Message(Some(username), Image(Str(ImageField(payload).value)), env.at)])
    ensures var r := AfterStep(ai, st, username, Arrival(Envelope(Str("AI_HELP"), payload), env));
      r.username == username
      && r.st.board == st.board + [Message(Some(Str(AiName)), Text(Str(Gateway.Suggest(ai, st.board, payload))), env.at)]
  {
  }

  /** A SendImage payload with no comma (or null) raises before anything is
      appended, saved or sent, and ends the session. */
  lemma ImageWithoutCommaRaises(ai: Gateway.AiConfig, st: WebState, username: JsonStr, payload: JsonStr, env: Env)
    requires payload.Null? || ',' !in payload.s
    ensures AfterStep(ai, st, username, Arrival(Envelope(Str("SendImage"), payload), env)) == StepResult(st, username, true)
  {
  }

  /** A frame that is not a JSON object (data.get raises) ends the session
      before anything is appended, saved or sent. */
  lemma MalformedEndsSession(ai: Gateway.AiConfig, st: WebState, username: JsonStr, env: Env)
    ensures AfterStep(ai, st, username, Arrival(Malformed, env)) == StepResult(st, username, true)
  {
  }

  /** A frame sent by one client ends that client's session when the
      broadcast fails on another client's closed connection. */
  lemma DeadPeerEndsSender(ai: Gateway.AiConfig, st: WebState, username: JsonStr, payload: JsonStr, at: string, peer: Conn)
    requires peer in st.connected
    ensures AfterStep(ai, st, username, Arrival(Envelope(Str("Send"), payload), Env({peer}, at))).ended
  {
    assert peer in st.connected * {peer};
  }

  /** However the rest of a session goes, it ends with the connection out of
      the set, the board strictly longer, and a departure notice as the
      newest entry. */
  lemma {:induction false} ServeKeepsConnection(ai: Gateway.AiConfig, st: WebState, ws: Conn, username: JsonStr,
                                                inputs: seq<Arrival>, last: Env)
    ensures var r := AfterServe(ai, st, ws, username, inputs, last);
      r.connected == st.connected - {ws} && st.board < r.board && IsDeparture(r.board[|r.board| - 1])
    decreases |inputs|
  {
    if inputs == [] {
      DepartureNotice(Shown(username), last.at);
    } else {
      var r := AfterStep(ai, st, username, inputs[0]);
      if r.ended {
        DepartureNotice(Shown(r.username), last.at);
      } else {
        ServeKeepsConnection(ai, r.st, ws, r.username, inputs[1..], last);
      }
    }
  }

  /** A session leaves CONNECTED_CLIENTS as it found it, only ever appends,
      and ends with one departure notice as the newest entry. */
  lemma SessionEndsWithDeparture(ai: Gateway.AiConfig, st: WebState, ws: Conn, opening: set<Conn>,
                                 inputs: seq<Arrival>, last: Env)
    requires ws !in st.connected
    ensures var r := AfterSession(ai, st, ws, opening, inputs, last);
      r.connected == st.connected && st.board < r.board && IsDeparture(r.board[|r.board| - 1])
  {
    var b := AfterBroadcast(st.(connected := st.connected + {ws}), opening);
    assert st.connected + {ws} - {ws} == st.connected;
    if b.raised {
      DepartureNotice(Anonymous, last.at);
    } else {
      ServeKeepsConnection(ai, b.st, ws, Str(Anonymous), inputs, last);
    }
  }

  /** Whether a frame is a UserName command. */
  predicate Renames(a: Arrival) {
    a.msg.Envelope? && a.msg.command == Str("UserName")
  }

  /** Without a UserName frame the departure notice names the name the loop
      started with. */
  lemma {:induction false} ServeWithoutRename(ai: Gateway.AiConfig, st: WebState, ws: Conn, username: JsonStr,
                                              inputs: seq<Arrival>, last: Env)
    requires forall i :: 0 <= i < |inputs| ==> !Renames(inputs[i])
    ensures var r := AfterServe(ai, st, ws, username, inputs, last);
      r.board[|r.board| - 1] == Notice(LeaveText(Shown(username)), last.at)
    decreases |inputs|
  {
    if inputs != [] {
      var r := AfterStep(ai, st, username, inputs[0]);
      assert !Renames(inputs[0]);
      if !r.ended {
        ServeWithoutRename(ai, r.st, ws, r.username, inputs[1..], last);
      }
    }
  }

  /** So a client that never sends UserName leaves as "Anonymous". */
  lemma AnonymousDeparture(ai: Gateway.AiConfig, st: WebState, ws: Conn, opening: set<Conn>,
                           inputs: seq<Arrival>, last: Env)
    requires forall i :: 0 <= i < |inputs| ==> !Renames(inputs[i])
    ensures var r := AfterSession(ai, st, ws, opening, inputs, last);
      r.board[|r.board| - 1] == Notice(LeaveText(Anonymous), last.at)
  {
    var b := AfterBroadcast(st.(connected := st.connected + {ws}), opening);
    if !b.raised {
      ServeWithoutRename(ai, b.st, ws, Str(Anonymous), inputs, last);
    }
  }

  /** Every snapshot saved or sent is a prefix of the board. */
  ghost predicate SnapshotsArePrefixes(st: WebState) {
    forall i :: 0 <= i < |st.effects| ==> st.effects[i].board <= st.board
  }

  lemma StepKeepsSnapshots(ai: Gateway.AiConfig, st: WebState, username: JsonStr, a: Arrival)
    requires SnapshotsArePrefixes(st)
    ensures SnapshotsArePrefixes(AfterStep(ai, st, username, a).st)
  {
  }

  /** A whole session keeps every saved and sent board a prefix of the
      current one: the board only grows, and what goes out is all of it. */
  lemma {:induction false} ServeKeepsSnapshots(ai: Gateway.AiConfig, st: WebState, ws: Conn, username: JsonStr,
                                               inputs: seq<Arrival>, last: Env)
    requires SnapshotsArePrefixes(st)
    ensures SnapshotsArePrefixes(AfterServe(ai, st, ws, username, inputs, last))
    decreases |inputs|
  {
    if inputs != [] {
      var r := AfterStep(ai, st, username, inputs[0]);
      StepKeepsSnapshots(ai, st, username, inputs[0]);
      if !r.ended {
        ServeKeepsSnapshots(ai, r.st, ws, r.username, inputs[1..], last);
      }
    }
  }

  // ------------------------------------------------------------------- class

  /** The server process: the module globals, the Gemini configuration fixed
      at import, and what has been saved and sent. */
  class Server {
    const ai: Gateway.AiConfig
    var connected: set<Conn>
    var board: seq<Message>
    var effects: seq<Effect>

    function State(): WebState
      reads this
    {
      WebState(connected, board, effects)
    }

    /** main: board_messages = load_chat_log(), no client connected. */
    constructor (ai: Gateway.AiConfig, log: seq<Message>)
      ensures this.ai == ai && State() == WebState({}, log, [])
    {
      this.ai := ai;
      connected, board, effects := {}, log, [];
    }

    method SaveChatLog()
      modifies this
      ensures State() == AfterSave(old(State()))
    {
      effects := effects + [Saved(board)];
    }

    method BroadcastBoardInfo(dead: set<Conn>) returns (raised: bool)
      modifies this
      ensures Outcome(State(), raised) == AfterBroadcast(old(State()), dead)
    {
      raised := false;
      if connected != {} {
        effects := effects + [Sent(connected - dead, board)];
        raised := connected * dead != {};
      }
    }

    /** One pass of the loop body. */
    method Receive(username: JsonStr, a: Arrival) returns (name: JsonStr, ended: bool)
      modifies this
      ensures StepResult(State(), name, ended) == AfterStep(ai, old(State()), username, a)
    {
      name := username;
      if a.msg.Malformed? {
        return name, true;
      }
      var command, payload := a.msg.command, a.msg.payload;
      if command == Str("UserName") {
        name := payload;
        board := board + [Notice(JoinText(Shown(name)), a.env.at)];
      } else if command == Str("Send") {
        board := board + [TextFrom(username, payload, a.env.at)];
      } else if command == Str("SendImage") {
        var b64 := ImageField(payload);
        if b64.None? {
          return name, true;
        }
        board := board + [Message(Some(username), Image(Str(b64.value)), a.env.at)];
      } else if command == Str("AI_HELP") {
        var reply := Gateway.CallGemini(ai, board, payload);
        board := board + [TextFrom(Str(AiName), Str(reply), a.env.at)];
      }
      SaveChatLog();
      ended := BroadcastBoardInfo(a.env.dead);
    }

    /** The finally clause. */
    method Teardown(ws: Conn, username: JsonStr, last: Env)
      modifies this
      ensures State() == AfterTeardown(old(State()), ws, username, last)
    {
      if ws in connected {
        connected := connected - {ws};
      } else {
        assert connected - {ws} == connected;
      }
      board := board + [Notice(LeaveText(Shown(username)), last.at)];
      SaveChatLog();
      var _ := BroadcastBoardInfo(last.dead);
    }

    /** handle_client for connection `ws`. */
    method HandleClient(ws: Conn, opening: set<Conn>, inputs: seq<Arrival>, last: Env)
      modifies this
      ensures State() == AfterSession(ai, old(State()), ws, opening, inputs, last)
    {
      connected := connected + {ws};
      var username := Str(Anonymous);
      var ended := BroadcastBoardInfo(opening);
      var i := 0;
      while !ended && i < |inputs|
        invariant 0 <= i <= |inputs|
        invariant !ended ==> AfterServe(ai, State(), ws, username, inputs[i..], last)
                             == AfterSession(ai, old(State()), ws, opening, inputs, last)
        invariant ended ==> AfterTeardown(State(), ws, username, last)
                            == AfterSession(ai, old(State()), ws, opening, inputs, last)
      {
        assert inputs[i..][1..] == inputs[i + 1..];
        username, ended := Receive(username, inputs[i]);
        i := i + 1;
      }
      Teardown(ws, username, last);
    }
  }
}
