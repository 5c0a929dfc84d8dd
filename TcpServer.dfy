/** server.py: the thread-per-connection TCP server speaking the colon-delimited
    text protocol "Command:payload". It keeps the accepted sockets (`clients`),
    the name-to-socket registry (`client_info`) and the board, and sends the
    whole board as "BoardInfo:<json>" after every change.

    The spec functions below (AfterBroadcastFrom, AfterRemoveClient, AfterStep,
    AfterServe, AfterSession) give the state after each routine as a function of
    the state before it; the methods of class Server are proved against them. */
module TcpServer {
  import opened Board

  type Socket = nat

  /** One entry of client_info, which is a dict: a list of name/socket pairs
      in insertion order, since remove_client scans it in that order. */
  datatype Binding = Binding(name: string, sock: Socket)

  /** What the server sends on a socket. */
  datatype Frame = ConnectionStart | NameReceived(name: string) | BoardInfo(board: seq<Message>)

  datatype Delivery = Delivery(to: Socket, frame: Frame)

  /** The module globals, plus the record of every frame delivered. */
  datatype TcpState = TcpState(clients: seq<Socket>, info: seq<Binding>, board: seq<Message>, outbox: seq<Delivery>)

  /** The environment while one message is handled: the sockets on which
      sendall raises socket.error, and the clock. */
  datatype Env = Env(dead: set<Socket>, at: string)

  /** One recv: the decoded data (an empty string when the peer closed), or
      an exception raised by recv. */
  datatype Recv = Data(text: string, env: Env) | Failed

  datatype Command = Command(name: string, payload: string)

  // ---------------------------------------------------------------- parsing

  /** data.split(':', 1): the command before the first colon, the payload after it. */
  function Parse(data: string): (c: Command)
    ensures ':' !in c.name
    ensures ':' in data ==> c.name + ":" + c.payload == data
    ensures ':' !in data ==> c.name == data && c.payload == ""
  {
    match IndexOf(data, ':')
    case None => Command(data, "")
    case Some(k) =>
      assert data == data[..k] + [data[k]] + data[k + 1..];
      Command(data[..k], data[k + 1..])
  }

  /** A command sent as "Command:payload" parses back to itself, whatever
      colons the payload holds. */
  lemma ParseRoundTrip(name: string, payload: string)
    requires ':' !in name
    ensures Parse(name + ":" + payload) == Command(name, payload)
  {
    var d := name + ":" + payload;
    assert d == name + [':'] + payload;
    IndexOfJoined(name, ':', payload);
    assert d[..|name|] == name;
    assert d[|name| + 1..] == payload;
  }

  // --------------------------------------------------------------- registry

  /** The index of the first occurrence of x in xs. */
  function FirstIndex(xs: seq<Socket>, x: Socket): (j: nat)
    requires x in xs
    ensures j < |xs| && xs[j] == x && x !in xs[..j]
    decreases |xs|
  {
    if xs[0] == x then 0
    else
      var k := FirstIndex(xs[1..], x);
      assert xs[..k + 1] == [xs[0]] + xs[1..][..k];
      k + 1
  }

  /** clients.remove(x) when x is in the list: the first occurrence goes and
      the rest keep their order. */
  function RemoveFirst(xs: seq<Socket>, x: Socket): (r: seq<Socket>)
    ensures multiset(r) == multiset(xs) - multiset{x}
    ensures x !in xs ==> r == xs
    ensures x in xs ==> r == xs[..FirstIndex(xs, x)] + xs[FirstIndex(xs, x) + 1..]
    ensures |r| <= |xs|
    ensures forall y :: y in r ==> y in xs
    ensures forall y :: y in xs && y != x ==> y in r
  {
    if x !in xs then xs
    else
      var j := FirstIndex(xs, x);
      assert xs == xs[..j] + [x] + xs[j + 1..];
      xs[..j] + xs[j + 1..]
  }

  /** client_info.get(name) */
  function Lookup(info: seq<Binding>, name: string): Option<Socket>
    decreases |info|
  {
    if info == [] then None
    else if info[0].name == name then Some(info[0].sock)
    else Lookup(info[1..], name)
  }

  /** No name occurs twice, as in a dict. */
  predicate DistinctNames(info: seq<Binding>)
    decreases |info|
  {
    info == [] || ((forall b | b in info[1..] :: b.name != info[0].name) && DistinctNames(info[1..]))
  }

  /** client_info[name] = sock: an existing name keeps its place and gets the
      new socket; a new name goes last. */
  function Assign(info: seq<Binding>, name: string, sock: Socket): (r: seq<Binding>)
    ensures Lookup(r, name) == Some(sock)
    ensures forall n :: n != name ==> Lookup(r, n) == Lookup(info, n)
    ensures Binding(name, sock) in r
    ensures forall b | b in r :: b == Binding(name, sock) || b in info
    ensures forall b | b in info && b.name != name :: b in r
    ensures DistinctNames(info) ==> DistinctNames(r)
    ensures DistinctNames(info) ==> forall b | b in r :: b == Binding(name, sock) || (b in info && b.name != name)
    decreases |info|
  {
    if info == [] then [Binding(name, sock)]
    else if info[0].name == name then [Binding(name, sock)] + info[1..]
    else [info[0]] + Assign(info[1..], name, sock)
  }

  /** A new name goes last: the registry is the old one plus the new entry. */
  lemma {:induction false} AssignNewName(info: seq<Binding>, name: string, sock: Socket)
    requires Lookup(info, name).None?
    ensures Assign(info, name, sock) == info + [Binding(name, sock)]
    decreases |info|
  {
    if info != [] {
      assert info[0].name != name;
      var rest := Assign(info[1..], name, sock);
      assert Assign(info, name, sock) == [info[0]] + rest;
      AssignNewName(info[1..], name, sock);
      assert [info[0]] + (info[1..] + [Binding(name, sock)]) == info + [Binding(name, sock)];
    }
  }

  /** An existing name keeps its place and only its socket changes; every
      other entry stays where it was. */
  lemma {:induction false} AssignExistingName(info: seq<Binding>, name: string, sock: Socket)
    requires DistinctNames(info) && Lookup(info, name).Some?
    ensures var r := Assign(info, name, sock);
      |r| == |info| && forall j :: 0 <= j < |r| ==> r[j] == (if info[j].name == name then Binding(name, sock) else info[j])
    decreases |info|
  {
    var r := Assign(info, name, sock);
    if info[0].name == name {
      forall j | 1 <= j < |info| ensures info[j].name != name {
        assert info[j] in info[1..];
      }
    } else {
      AssignExistingName(info[1..], name, sock);
      var r' := Assign(info[1..], name, sock);
      assert r == [info[0]] + r';
      forall j | 1 <= j < |r| ensures r[j] == (if info[j].name == name then Binding(name, sock) else info[j]) {
        assert r[j] == r'[j - 1] && info[j] == info[1..][j - 1];
      }
    }
  }

  /** The for loop of remove_client: the index of the first entry, in
      insertion order, whose socket is `sock`. */
  function OwnerIndex(info: seq<Binding>, sock: Socket): (r: Option<nat>)
    ensures r.None? <==> forall j :: 0 <= j < |info| ==> info[j].sock != sock
    ensures r.Some? ==> r.value < |info| && info[r.value].sock == sock
    ensures r.Some? ==> forall j :: 0 <= j < r.value ==> info[j].sock != sock
    decreases |info|
  {
    if info == [] then None
    else if info[0].sock == sock then Some(0)
    else match OwnerIndex(info[1..], sock)
      case None => None
      case Some(k) => Some(k + 1)
  }

  /** `sock` owns at most one entry of client_info. */
  predicate AtMostOneName(info: seq<Binding>, sock: Socket) {
    forall i, j :: 0 <= i < |info| && 0 <= j < |info| && info[i].sock == sock && info[j].sock == sock ==> i == j
  }

  /** The BoardInfo frames one broadcast sends, in the order of `to`. */
  function Deliveries(to: seq<Socket>, snapshot: seq<Message>): (r: seq<Delivery>)
    ensures |r| == |to|
    decreases |to|
  {
    if to == [] then [] else [Delivery(to[0], BoardInfo(snapshot))] + Deliveries(to[1..], snapshot)
  }

  // ------------------------------------------------- broadcast, remove_client

  /** broadcast from the client at index i of the live list on. A client
      whose send fails is removed with remove_client, which shifts the list
      under the running iteration, so the client after it is skipped; the
      JSON of `snapshot` was taken on entry. Only clients and registry
      entries present before can remain, and the board and the frames sent
      only grow. */
  function AfterBroadcastFrom(st: TcpState, snapshot: seq<Message>, i: nat, dead: set<Socket>, at: string): (r: TcpState)
    ensures |r.info| <= |st.info| && |r.clients| <= |st.clients|
    ensures st.board <= r.board && st.outbox <= r.outbox
    decreases |st.info|, 1, |st.clients| - i
  {
    if i >= |st.clients| then st
    else
      var c := st.clients[i];
      if c in dead then
        AfterBroadcastFrom(AfterRemoveClient(st, c, dead, at), snapshot, i + 1, dead, at)
      else
        AfterBroadcastFrom(st.(outbox := st.outbox + [Delivery(c, BoardInfo(snapshot))]), snapshot, i + 1, dead, at)
  }

  /** One step of the loop over a client whose send fails. */
  lemma BroadcastDeadStep(st: TcpState, snapshot: seq<Message>, i: nat, dead: set<Socket>, at: string)
    requires i < |st.clients| && st.clients[i] in dead
    ensures AfterBroadcastFrom(st, snapshot, i, dead, at)
         == AfterBroadcastFrom(AfterRemoveClient(st, st.clients[i], dead, at), snapshot, i + 1, dead, at)
  {
  }

  /** broadcast(board_messages) */
  function AfterBroadcast(st: TcpState, dead: set<Socket>, at: string): TcpState {
    AfterBroadcastFrom(st, st.board, 0, dead, at)
  }

  /** remove_client(sock): drop the socket from `clients`; if the first name
      it owns is truthy (not ""), delete that entry, post the departure
      notice and broadcast. */
  function AfterRemoveClient(st: TcpState, sock: Socket, dead: set<Socket>, at: string): (r: TcpState)
    ensures |r.info| <= |st.info| && |r.clients| <= |st.clients|
    ensures st.board <= r.board && st.outbox <= r.outbox
    decreases |st.info|, 0, 0
  {
    var st1 := st.(clients := RemoveFirst(st.clients, sock));
    match OwnerIndex(st1.info, sock)
    case None => st1
    case Some(k) =>
      var name := st1.info[k].name;
      if name == "" then st1
      else
        var st2 := st1.(info := st1.info[..k] + st1.info[k + 1..],
                        board := st1.board + [Notice(LeaveText(name), at)]);
        AfterBroadcastFrom(st2, st2.board, 0, dead, at)
  }

  /** Deleting entry k keeps every other entry and adds none. */
  lemma DeleteKeeps(s: seq<Binding>, k: nat)
    requires k < |s|
    ensures forall b :: b in s[..k] + s[k + 1..] ==> b in s
    ensures forall b :: b in s && b != s[k] ==> b in s[..k] + s[k + 1..]
  {
    assert s == s[..k] + [s[k]] + s[k + 1..];
  }

  /** Between two states only clients and registry entries present before
      remain, and every one of a socket outside `dead` and `gone` does. */
  predicate Keeps(before: TcpState, after: TcpState, dead: set<Socket>, gone: set<Socket>) {
    && (forall c :: c in after.clients ==> c in before.clients)
    && (forall b :: b in after.info ==> b in before.info)
    && (forall c :: c in before.clients && c !in dead && c !in gone ==> c in after.clients)
    && (forall b :: b in before.info && b.sock !in dead && b.sock !in gone ==> b in after.info)
  }

  /** Between two states the board gains only departure notices, and the
      frames sent are BoardInfo frames to sockets outside `dead`. */
  predicate AddsNotices(before: TcpState, after: TcpState, dead: set<Socket>) {
    && (forall k :: |before.board| <= k < |after.board| ==> IsDeparture(after.board[k]))
    && (forall k :: |before.outbox| <= k < |after.outbox| ==> after.outbox[k].to !in dead && after.outbox[k].frame.BoardInfo?)
  }

  /** What a broadcast keeps. */
  lemma {:induction false} BroadcastFootprint(st: TcpState, snapshot: seq<Message>, i: nat, dead: set<Socket>, at: string)
    ensures Keeps(st, AfterBroadcastFrom(st, snapshot, i, dead, at), dead, {})
    decreases |st.info|, 1, |st.clients| - i
  {
    if i < |st.clients| {
      var c := st.clients[i];
      var mid := if c in dead then AfterRemoveClient(st, c, dead, at)
                 else st.(outbox := st.outbox + [Delivery(c, BoardInfo(snapshot))]);
      assert AfterBroadcastFrom(st, snapshot, i, dead, at) == AfterBroadcastFrom(mid, snapshot, i + 1, dead, at);
      if c in dead {
        RemoveClientFootprint(st, c, dead, at);
      }
      BroadcastFootprint(mid, snapshot, i + 1, dead, at);
    }
  }

  /** What remove_client keeps: the same, except that `sock` may go. */
  lemma {:induction false} RemoveClientFootprint(st: TcpState, sock: Socket, dead: set<Socket>, at: string)
    ensures Keeps(st, AfterRemoveClient(st, sock, dead, at), dead, {sock})
    ensures forall c :: c in AfterRemoveClient(st, sock, dead, at).clients ==> c in RemoveFirst(st.clients, sock)
    decreases |st.info|, 0, 0
  {
    var st1 := st.(clients := RemoveFirst(st.clients, sock));
    match OwnerIndex(st1.info, sock)
    case None =>
    case Some(k) =>
      var name := st1.info[k].name;
      if name != "" {
        var st2 := st1.(info := st1.info[..k] + st1.info[k + 1..],
                        board := st1.board + [Notice(LeaveText(name), at)]);
        assert AfterRemoveClient(st, sock, dead, at) == AfterBroadcastFrom(st2, st2.board, 0, dead, at);
        DeleteKeeps(st1.info, k);
        BroadcastFootprint(st2, st2.board, 0, dead, at);
      }
  }

  /** What a broadcast adds: the departure notices of the removals it
      triggers, and BoardInfo frames to live sockets. */
  lemma {:induction false} BroadcastAdds(st: TcpState, snapshot: seq<Message>, i: nat, dead: set<Socket>, at: string)
    ensures AddsNotices(st, AfterBroadcastFrom(st, snapshot, i, dead, at), dead)
    decreases |st.info|, 1, |st.clients| - i
  {
    if i < |st.clients| {
      var c := st.clients[i];
      var mid := if c in dead then AfterRemoveClient(st, c, dead, at)
                 else st.(outbox := st.outbox + [Delivery(c, BoardInfo(snapshot))]);
      var r := AfterBroadcastFrom(mid, snapshot, i + 1, dead, at);
      assert AfterBroadcastFrom(st, snapshot, i, dead, at) == r;
      if c in dead {
        RemoveClientAdds(st, c, dead, at);
      }
      BroadcastAdds(mid, snapshot, i + 1, dead, at);
      forall k | |st.board| <= k < |r.board| ensures IsDeparture(r.board[k]) {
        if k < |mid.board| {
          assert r.board[k] == mid.board[k];
        }
      }
      forall k | |st.outbox| <= k < |r.outbox| ensures r.outbox[k].to !in dead && r.outbox[k].frame.BoardInfo? {
        if k < |mid.outbox| {
          assert r.outbox[k] == mid.outbox[k];
        }
      }
    }
  }

  /** What remove_client adds: its own departure notice, when the first name
      the socket owns is truthy, and then what its broadcast adds. */
  lemma {:induction false} RemoveClientAdds(st: TcpState, sock: Socket, dead: set<Socket>, at: string)
    ensures AddsNotices(st, AfterRemoveClient(st, sock, dead, at), dead)
    ensures OwnerIndex(st.info, sock).Some? && st.info[OwnerIndex(st.info, sock).value].name != "" ==>
              st.board + [Notice(LeaveText(st.info[OwnerIndex(st.info, sock).value].name), at)]
                <= AfterRemoveClient(st, sock, dead, at).board
    decreases |st.info|, 0, 0
  {
    var st1 := st.(clients := RemoveFirst(st.clients, sock));
    match OwnerIndex(st1.info, sock)
    case None =>
    case Some(k) =>
      var name := st1.info[k].name;
      if name != "" {
        var st2 := st1.(info := st1.info[..k] + st1.info[k + 1..],
                        board := st1.board + [Notice(LeaveText(name), at)]);
        var r := AfterBroadcastFrom(st2, st2.board, 0, dead, at);
        assert AfterRemoveClient(st, sock, dead, at) == r;
        BroadcastAdds(st2, st2.board, 0, dead, at);
        forall j | |st.board| <= j < |r.board| ensures IsDeparture(r.board[j]) {
          if j == |st.board| {
            assert r.board[j] == st2.board[j] == Notice(LeaveText(name), at);
            DepartureNotice(name, at);
          }
        }
      }
  }

  /** A broadcast only ever takes sockets out of the client list: no socket
      occurs in it more often than before. */
  lemma {:induction false} BroadcastShrinks(st: TcpState, snapshot: seq<Message>, i: nat, dead: set<Socket>, at: string, s: Socket)
    ensures multiset(AfterBroadcastFrom(st, snapshot, i, dead, at).clients)[s] <= multiset(st.clients)[s]
    decreases |st.info|, 1, |st.clients| - i
  {
    if i < |st.clients| {
      var c := st.clients[i];
      if c in dead {
        BroadcastDeadStep(st, snapshot, i, dead, at);
        RemoveClientShrinks(st, c, dead, at, s);
        BroadcastShrinks(AfterRemoveClient(st, c, dead, at), snapshot, i + 1, dead, at, s);
      } else {
        BroadcastLiveStep(st, snapshot, i, dead, at);
        BroadcastShrinks(st.(outbox := st.outbox + [Delivery(c, BoardInfo(snapshot))]), snapshot, i + 1, dead, at, s);
      }
    }
  }

  /** remove_client leaves no socket more often than clients.remove(sock) does. */
  lemma {:induction false} RemoveClientShrinks(st: TcpState, sock: Socket, dead: set<Socket>, at: string, s: Socket)
    ensures multiset(AfterRemoveClient(st, sock, dead, at).clients)[s] <= multiset(RemoveFirst(st.clients, sock))[s]
    ensures multiset(AfterRemoveClient(st, sock, dead, at).clients)[s] <= multiset(st.clients)[s]
    decreases |st.info|, 0, 0
  {
    var st1 := st.(clients := RemoveFirst(st.clients, sock));
    assert multiset(st1.clients)[s] <= multiset(st.clients)[s];
    match OwnerIndex(st1.info, sock)
    case None =>
    case Some(k) =>
      var name := st1.info[k].name;
      if name != "" {
        var st2 := st1.(info := st1.info[..k] + st1.info[k + 1..],
                        board := st1.board + [Notice(LeaveText(name), at)]);
        assert AfterRemoveClient(st, sock, dead, at) == AfterBroadcastFrom(st2, st2.board, 0, dead, at);
        BroadcastShrinks(st2, st2.board, 0, dead, at, s);
      }
  }

  /** DistinctNames says no two positions of the registry share a name. */
  lemma {:induction false} DistinctNamesPairwise(info: seq<Binding>)
    ensures DistinctNames(info) <==> forall i, j :: 0 <= i < j < |info| ==> info[i].name != info[j].name
    decreases |info|
  {
    if info != [] {
      DistinctNamesPairwise(info[1..]);
      if forall i, j :: 0 <= i < j < |info| ==> info[i].name != info[j].name {
        forall b | b in info[1..] ensures b.name != info[0].name {
          var j :| 0 <= j < |info[1..]| && info[1..][j] == b;
          assert info[j + 1] == b;
        }
      }
    }
  }

  /** del client_info[name] keeps the names distinct. */
  lemma DeleteDistinct(info: seq<Binding>, k: nat)
    requires k < |info| && DistinctNames(info)
    ensures DistinctNames(info[..k] + info[k + 1..])
  {
    var d := info[..k] + info[k + 1..];
    DistinctNamesPairwise(info);
    DistinctNamesPairwise(d);
    forall i, j | 0 <= i < j < |d| ensures d[i].name != d[j].name {
      var i' := if i < k then i else i + 1;
      var j' := if j < k then j else j + 1;
      assert d[i] == info[i'] && d[j] == info[j'];
    }
  }

  /** A broadcast keeps the registry's names distinct. */
  lemma {:induction false} BroadcastDistinct(st: TcpState, snapshot: seq<Message>, i: nat, dead: set<Socket>, at: string)
    requires DistinctNames(st.info)
    ensures DistinctNames(AfterBroadcastFrom(st, snapshot, i, dead, at).info)
    decreases |st.info|, 1, |st.clients| - i
  {
    if i < |st.clients| {
      var c := st.clients[i];
      if c in dead {
        BroadcastDeadStep(st, snapshot, i, dead, at);
        RemoveClientDistinct(st, c, dead, at);
        BroadcastDistinct(AfterRemoveClient(st, c, dead, at), snapshot, i + 1, dead, at);
      } else {
        BroadcastLiveStep(st, snapshot, i, dead, at);
        BroadcastDistinct(st.(outbox := st.outbox + [Delivery(c, BoardInfo(snapshot))]), snapshot, i + 1, dead, at);
      }
    }
  }

  /** remove_client keeps the registry's names distinct. */
  lemma {:induction false} RemoveClientDistinct(st: TcpState, sock: Socket, dead: set<Socket>, at: string)
    requires DistinctNames(st.info)
    ensures DistinctNames(AfterRemoveClient(st, sock, dead, at).info)
    decreases |st.info|, 0, 0
  {
    var st1 := st.(clients := RemoveFirst(st.clients, sock));
    match OwnerIndex(st1.info, sock)
    case None =>
    case Some(k) =>
      var name := st1.info[k].name;
      if name != "" {
        var st2 := st1.(info := st1.info[..k] + st1.info[k + 1..],
                        board := st1.board + [Notice(LeaveText(name), at)]);
        assert AfterRemoveClient(st, sock, dead, at) == AfterBroadcastFrom(st2, st2.board, 0, dead, at);
        DeleteDistinct(st1.info, k);
        BroadcastDistinct(st2, st2.board, 0, dead, at);
      }
  }

  // ------------------------------------------------------------ handle_client

  datatype StepResult = StepResult(st: TcpState, username: string, stop: bool)

  /** One pass of the recv loop on non-empty data: dispatch on the command.
      `stop` is set by End and by an exception (sendall of NameRecieved). */
  function AfterStep(st: TcpState, sock: Socket, username: string, data: string, env: Env): (r: StepResult)
    ensures st.board <= r.st.board && st.outbox <= r.st.outbox
  {
    var c := Parse(data);
    if c.name == "UserName" then
      var st1 := st.(info := Assign(st.info, c.payload, sock));
      if sock in env.dead then StepResult(st1, c.payload, true)
      else
        var st2 := st1.(outbox := st1.outbox + [Delivery(sock, NameReceived(c.payload))],
                        board := st1.board + [Notice(JoinText(c.payload), env.at)]);
        StepResult(AfterBroadcast(st2, env.dead, env.at), c.payload, false)
    else if c.name == "Send" then
      var st1 := st.(board := st.board + [TextFrom(Str(username), Str(c.payload), env.at)]);
      StepResult(AfterBroadcast(st1, env.dead, env.at), username, false)
    else if c.name == "End" then StepResult(st, username, true)
    else StepResult(st, username, false)
  }

  /** The recv loop from the next input on, then the finally clause. Running
      out of inputs reads as the peer closing. */
  function AfterServe(st: TcpState, sock: Socket, username: string, inputs: seq<Recv>, last: Env): (r: TcpState)
    ensures st.board <= r.board && st.outbox <= r.outbox
    decreases |inputs|
  {
    if inputs == [] || inputs[0].Failed? || inputs[0].text == "" then
      AfterRemoveClient(st, sock, last.dead, last.at)
    else
      var r := AfterStep(st, sock, username, inputs[0].text, inputs[0].env);
      if r.stop then AfterRemoveClient(r.st, sock, last.dead, last.at)
      else AfterServe(r.st, sock, r.username, inputs[1..], last)
  }

  /** handle_client: send "Connection Start:", run the loop with the name
      "", and always end in remove_client. `last` is the environment of the
      finally clause. */
  function AfterSession(st: TcpState, sock: Socket, startFails: bool, inputs: seq<Recv>, last: Env): (r: TcpState)
    ensures st.board <= r.board && st.outbox <= r.outbox
  {
    if startFails then AfterRemoveClient(st, sock, last.dead, last.at)
    else AfterServe(st.(outbox := st.outbox + [Delivery(sock, ConnectionStart)]), sock, "", inputs, last)
  }

  // ------------------------------------------------------------------ lemmas

  /** One pass of broadcast's loop over a live client. */
  lemma BroadcastLiveStep(st: TcpState, snapshot: seq<Message>, i: nat, dead: set<Socket>, at: string)
    requires i < |st.clients| && st.clients[i] !in dead
    ensures AfterBroadcastFrom(st, snapshot, i, dead, at)
         == AfterBroadcastFrom(st.(outbox := st.outbox + [Delivery(st.clients[i], BoardInfo(snapshot))]), snapshot, i + 1, dead, at)
  {
  }

  /** With no failing send, a broadcast delivers the snapshot to each
      remaining client in list order and changes nothing else. */
  lemma {:induction false} BroadcastAllAlive(st: TcpState, snapshot: seq<Message>, i: nat, dead: set<Socket>, at: string)
    requires i <= |st.clients|
    requires forall j :: i <= j < |st.clients| ==> st.clients[j] !in dead
    ensures AfterBroadcastFrom(st, snapshot, i, dead, at)
         == st.(outbox := st.outbox + Deliveries(st.clients[i..], snapshot))
    decreases |st.clients| - i
  {
    if i == |st.clients| {
      assert st.clients[i..] == [];
      assert st.outbox + [] == st.outbox;
    } else {
      var c := st.clients[i];
      var d := Delivery(c, BoardInfo(snapshot));
      var st1 := st.(outbox := st.outbox + [d]);
      var rest := st.clients[i + 1..];
      BroadcastLiveStep(st, snapshot, i, dead, at);
      BroadcastAllAlive(st1, snapshot, i + 1, dead, at);
      assert st.clients[i..] == [c] + rest;
      assert Deliveries([c] + rest, snapshot) == [d] + Deliveries(rest, snapshot);
      assert st1.outbox + Deliveries(rest, snapshot) == st.outbox + ([d] + Deliveries(rest, snapshot));
    }
  }

  /** A failed send makes the next client miss the broadcast: with clients
      [1, 2] and a failing socket 1, socket 2 (alive) receives nothing. */
  lemma BroadcastSkipsNextClient(at: string)
    ensures var r := AfterBroadcast(TcpState([1, 2], [], [], []), {1}, at);
      r.clients == [2] && r.outbox == []
  {
    var st := TcpState([1, 2], [], [], []);
    var st1 := AfterRemoveClient(st, 1, {1}, at);
    assert RemoveFirst([1, 2], 1) == [2];
    assert st1 == TcpState([2], [], [], []);
  }

  /** remove_client on a socket that owns no truthy name only takes it out
      of the client list: nothing is appended, deleted or sent. If it is no
      longer a client, nothing changes at all. */
  lemma RemoveClientNoop(st: TcpState, sock: Socket, dead: set<Socket>, at: string)
    requires OwnerIndex(st.info, sock).None? || st.info[OwnerIndex(st.info, sock).value].name == ""
    ensures AfterRemoveClient(st, sock, dead, at) == st.(clients := RemoveFirst(st.clients, sock))
    ensures sock !in st.clients ==> AfterRemoveClient(st, sock, dead, at) == st
  {
  }

  /** remove_client a second time on the same socket changes nothing, when
      the socket was accepted once and owns at most one name. So the finally
      clause after a removal triggered by a failed broadcast posts no second
      departure notice. */
  lemma RemoveClientIdempotent(st: TcpState, sock: Socket, dead: set<Socket>, at: string, at': string)
    requires multiset(st.clients)[sock] <= 1
    requires AtMostOneName(st.info, sock)
    ensures var r := AfterRemoveClient(st, sock, dead, at);
      AfterRemoveClient(r, sock, dead, at') == r
  {
    var r := AfterRemoveClient(st, sock, dead, at);
    var st1 := st.(clients := RemoveFirst(st.clients, sock));
    assert sock !in st1.clients by {
      assert multiset(st1.clients)[sock] == 0;
    }
    match OwnerIndex(st1.info, sock)
    case None =>
      assert r == st1;
      RemoveClientNoop(r, sock, dead, at');
    case Some(k) =>
      var name := st1.info[k].name;
      if name == "" {
        assert r == st1;
        RemoveClientNoop(r, sock, dead, at');
      } else {
        var st2 := st1.(info := st1.info[..k] + st1.info[k + 1..],
                        board := st1.board + [Notice(LeaveText(name), at)]);
        assert r == AfterBroadcastFrom(st2, st2.board, 0, dead, at);
        forall j | 0 <= j < |st2.info| ensures st2.info[j].sock != sock {
          if j < k {
            assert st2.info[j] == st1.info[j];
          } else {
            assert st2.info[j] == st1.info[j + 1];
          }
        }
        BroadcastFootprint(st2, st2.board, 0, dead, at);
        forall j | 0 <= j < |r.info| ensures r.info[j].sock != sock {
          assert r.info[j] in st2.info;
        }
        RemoveClientNoop(r, sock, dead, at');
      }
  }

  /** Without the at-most-one-name condition it fails: a session that sent
      UserName twice (A, then B) owns two names, and each of two removals
      posts a departure notice. */
  lemma RemoveClientTwiceWithTwoNames(at: string)
    ensures var st := TcpState([], [Binding("A", 1), Binding("B", 1)], [], []);
      var r1 := AfterRemoveClient(st, 1, {}, at);
      var r2 := AfterRemoveClient(r1, 1, {}, at);
      r1.board == [Notice(LeaveText("A"), at)]
      && r2.board == [Notice(LeaveText("A"), at), Notice(LeaveText("B"), at)]
  {
    var st := TcpState([], [Binding("A", 1), Binding("B", 1)], [], []);
    assert OwnerIndex(st.info, 1) == Some(0);
    var r1 := AfterRemoveClient(st, 1, {}, at);
    assert st.info[..0] + st.info[1..] == [Binding("B", 1)];
    assert r1 == TcpState([], [Binding("B", 1)], [Notice(LeaveText("A"), at)], []);
    assert OwnerIndex(r1.info, 1) == Some(0);
    assert r1.info[..0] + r1.info[1..] == [];
  }

  /** A socket whose only name was claimed by another session's UserName
      gets no departure notice when it is removed. */
  lemma ClaimedNameNoDeparture(st: TcpState, name: string, old_: Socket, new_: Socket, dead: set<Socket>, at: string)
    requires DistinctNames(st.info)
    requires old_ != new_
    requires forall b | b in st.info && b.sock == old_ :: b.name == name
    ensures var claimed := st.(info := Assign(st.info, name, new_));
      AfterRemoveClient(claimed, old_, dead, at)
        == claimed.(clients := RemoveFirst(st.clients, old_))
  {
    var info := Assign(st.info, name, new_);
    forall j | 0 <= j < |info| ensures info[j].sock != old_ {
      assert info[j] in info;
    }
  }

  /** remove_client on a socket whose first name is `name` (truthy), with no
      failing sends: exactly one departure notice, the entry deleted, and the
      new board sent to every remaining client. */
  lemma RemoveClientDeparts(st: TcpState, sock: Socket, dead: set<Socket>, at: string)
    requires OwnerIndex(st.info, sock).Some?
    requires st.info[OwnerIndex(st.info, sock).value].name != ""
    requires forall c :: c in st.clients ==> c !in dead
    ensures var k := OwnerIndex(st.info, sock).value;
      var board' := st.board + [Notice(LeaveText(st.info[k].name), at)];
      var clients' := RemoveFirst(st.clients, sock);
      AfterRemoveClient(st, sock, dead, at)
        == TcpState(clients', st.info[..k] + st.info[k + 1..], board', st.outbox + Deliveries(clients', board'))
  {
    var k := OwnerIndex(st.info, sock).value;
    var clients' := RemoveFirst(st.clients, sock);
    var st2 := TcpState(clients', st.info[..k] + st.info[k + 1..],
                        st.board + [Notice(LeaveText(st.info[k].name), at)], st.outbox);
    forall j | 0 <= j < |clients'| ensures clients'[j] !in dead {
      assert clients'[j] in multiset(clients');
    }
    BroadcastAllAlive(st2, st2.board, 0, dead, at);
    assert clients'[0..] == clients';
  }

  /** UserName: the session takes the payload as its name, the name maps to
      this socket (a previous socket under it is overwritten), and exactly
      one join notice is appended before the broadcast; with no failing send
      the broadcast adds nothing more to the board. */
  lemma StepUserName(st: TcpState, sock: Socket, username: string, payload: string, env: Env)
    requires sock !in env.dead
    ensures var r := AfterStep(st, sock, username, "UserName:" + payload, env);
      && r.username == payload && !r.stop
      && Binding(payload, sock) in r.st.info
      && st.board + [Notice(JoinText(payload), env.at)] <= r.st.board
      && ((forall c :: c in st.clients ==> c !in env.dead) ==>
            r.st.board == st.board + [Notice(JoinText(payload), env.at)]
            && r.st.info == Assign(st.info, payload, sock)
            && r.st.clients == st.clients
            && r.st.outbox == st.outbox + [Delivery(sock, NameReceived(payload))] + Deliveries(st.clients, r.st.board))
  {
    assert "UserName:" + payload == "UserName" + ":" + payload;
    ParseRoundTrip("UserName", payload);
    var c := Parse("UserName:" + payload);
    assert c == Command("UserName", payload);
    var st2 := st.(info := Assign(st.info, payload, sock),
                   outbox := st.outbox + [Delivery(sock, NameReceived(payload))],
                   board := st.board + [Notice(JoinText(payload), env.at)]);
    var r := AfterStep(st, sock, username, "UserName:" + payload, env);
    assert r == StepResult(AfterBroadcast(st2, env.dead, env.at), payload, false);
    assert Binding(payload, sock) in st2.info;
    BroadcastFootprint(st2, st2.board, 0, env.dead, env.at);
    if forall c :: c in st.clients ==> c !in env.dead {
      BroadcastAllAlive(st2, st2.board, 0, env.dead, env.at);
    }
  }

  /** Send: exactly one entry under the session's current name ("" before
      any UserName) carrying the payload; with no failing send nothing else
      changes but the outbox. */
  lemma StepSend(st: TcpState, sock: Socket, username: string, payload: string, env: Env)
    ensures var r := AfterStep(st, sock, username, "Send:" + payload, env);
      var entry := Message(Some(Str(username)), Text(Str(payload)), env.at);
      && r.username == username && !r.stop
      && st.board + [entry] <= r.st.board
      && ((forall c :: c in st.clients ==> c !in env.dead) ==>
            r.st.board == st.board + [entry] && r.st.info == st.info && r.st.clients == st.clients
            && r.st.outbox == st.outbox + Deliveries(st.clients, r.st.board))
  {
    assert "Send:" + payload == "Send" + ":" + payload;
    ParseRoundTrip("Send", payload);
    var c := Parse("Send:" + payload);
    assert c == Command("Send", payload);
    var st1 := st.(board := st.board + [Message(Some(Str(username)), Text(Str(payload)), env.at)]);
    var r := AfterStep(st, sock, username, "Send:" + payload, env);
    assert r == StepResult(AfterBroadcast(st1, env.dead, env.at), username, false);
    if forall c :: c in st.clients ==> c !in env.dead {
      BroadcastAllAlive(st1, st1.board, 0, env.dead, env.at);
    }
  }

  /** End stops the loop and changes nothing; any other command changes
      nothing, sends nothing and lets the loop go on. */
  lemma StepOtherCommands(st: TcpState, sock: Socket, username: string, data: string, env: Env)
    requires Parse(data).name !in {"UserName", "Send"}
    ensures AfterStep(st, sock, username, data, env) == StepResult(st, username, Parse(data).name == "End")
  {
  }

  /** One command only ever takes sockets out of the client list. */
  lemma StepShrinks(st: TcpState, sock: Socket, username: string, data: string, env: Env, s: Socket)
    ensures multiset(AfterStep(st, sock, username, data, env).st.clients)[s] <= multiset(st.clients)[s]
  {
    var c := Parse(data);
    if c.name == "UserName" && sock !in env.dead {
      var st2 := st.(info := Assign(st.info, c.payload, sock),
                     outbox := st.outbox + [Delivery(sock, NameReceived(c.payload))],
                     board := st.board + [Notice(JoinText(c.payload), env.at)]);
      BroadcastShrinks(st2, st2.board, 0, env.dead, env.at, s);
    } else if c.name == "Send" {
      var st1 := st.(board := st.board + [TextFrom(Str(username), Str(c.payload), env.at)]);
      BroadcastShrinks(st1, st1.board, 0, env.dead, env.at, s);
    }
  }

  /** One command keeps the registry's names distinct. */
  lemma StepDistinct(st: TcpState, sock: Socket, username: string, data: string, env: Env)
    requires DistinctNames(st.info)
    ensures DistinctNames(AfterStep(st, sock, username, data, env).st.info)
  {
    var c := Parse(data);
    if c.name == "UserName" && sock !in env.dead {
      var st2 := st.(info := Assign(st.info, c.payload, sock),
                     outbox := st.outbox + [Delivery(sock, NameReceived(c.payload))],
                     board := st.board + [Notice(JoinText(c.payload), env.at)]);
      BroadcastDistinct(st2, st2.board, 0, env.dead, env.at);
    } else if c.name == "Send" {
      var st1 := st.(board := st.board + [TextFrom(Str(username), Str(c.payload), env.at)]);
      BroadcastDistinct(st1, st1.board, 0, env.dead, env.at);
    }
  }

  /** The finally clause's remove_client leaves the socket out of the
      client list, when it was there at most once. */
  lemma FinallyRemovesSocket(st: TcpState, sock: Socket, dead: set<Socket>, at: string)
    requires multiset(st.clients)[sock] <= 1
    ensures sock !in AfterRemoveClient(st, sock, dead, at).clients
  {
    RemoveClientShrinks(st, sock, dead, at, sock);
    assert multiset(RemoveFirst(st.clients, sock))[sock] == 0;
  }

  /** After the rest of a session the socket is no longer a client. */
  lemma {:induction false} ServeRemovesSocket(st: TcpState, sock: Socket, username: string, inputs: seq<Recv>, last: Env)
    requires multiset(st.clients)[sock] <= 1
    ensures sock !in AfterServe(st, sock, username, inputs, last).clients
    decreases |inputs|
  {
    if inputs == [] || inputs[0].Failed? || inputs[0].text == "" {
      FinallyRemovesSocket(st, sock, last.dead, last.at);
    } else {
      var r := AfterStep(st, sock, username, inputs[0].text, inputs[0].env);
      StepShrinks(st, sock, username, inputs[0].text, inputs[0].env, sock);
      if r.stop {
        FinallyRemovesSocket(r.st, sock, last.dead, last.at);
      } else {
        ServeRemovesSocket(r.st, sock, r.username, inputs[1..], last);
      }
    }
  }

  /** handle_client ends with its socket out of the client list, however
      the session ended, for a socket accepted once. */
  lemma SessionRemovesSocket(st: TcpState, sock: Socket, startFails: bool, inputs: seq<Recv>, last: Env)
    requires multiset(st.clients)[sock] <= 1
    ensures sock !in AfterSession(st, sock, startFails, inputs, last).clients
  {
    if startFails {
      FinallyRemovesSocket(st, sock, last.dead, last.at);
    } else {
      ServeRemovesSocket(st.(outbox := st.outbox + [Delivery(sock, ConnectionStart)]), sock, "", inputs, last);
    }
  }

  /** A UserName whose NameRecieved send fails maps the name, posts no join
      notice, and ends the session. */
  lemma StepUserNameRefused(st: TcpState, sock: Socket, username: string, payload: string, env: Env)
    requires sock in env.dead
    ensures AfterStep(st, sock, username, "UserName:" + payload, env)
         == StepResult(st.(info := Assign(st.info, payload, sock)), payload, true)
  {
    assert "UserName:" + payload == "UserName" + ":" + payload;
    ParseRoundTrip("UserName", payload);
  }

  // ------------------------------------------------------------------- class

  /** The server process: the three module globals and the frames sent. */
  class Server {
    var clients: seq<Socket>
    var info: seq<Binding>
    var board: seq<Message>
    var outbox: seq<Delivery>

    function State(): TcpState
      reads this
    {
      TcpState(clients, info, board, outbox)
    }

    constructor ()
      ensures State() == TcpState([], [], [], [])
    {
      clients, info, board, outbox := [], [], [], [];
    }

    /** The accept loop's clients.append. */
    method Accept(sock: Socket)
      modifies this
      ensures State() == old(State()).(clients := old(clients) + [sock])
    {
      clients := clients + [sock];
    }

    method Broadcast(snapshot: seq<Message>, dead: set<Socket>, at: string)
      modifies this
      ensures State() == AfterBroadcastFrom(old(State()), snapshot, 0, dead, at)
      decreases |info|, 1
    {
      var i := 0;
      while i < |clients|
        invariant AfterBroadcastFrom(State(), snapshot, i, dead, at)
               == AfterBroadcastFrom(old(State()), snapshot, 0, dead, at)
        invariant |info| <= old(|info|)
        decreases |clients| - i
      {
        var c := clients[i];
        if c in dead {
          RemoveClient(c, dead, at);
        } else {
          outbox := outbox + [Delivery(c, BoardInfo(snapshot))];
        }
        i := i + 1;
      }
    }

    method RemoveClient(sock: Socket, dead: set<Socket>, at: string)
      modifies this
      ensures State() == AfterRemoveClient(old(State()), sock, dead, at)
      decreases |info|, 0
    {
      clients := RemoveFirst(clients, sock);
      var found := FindOwner(sock);
      if found.Some? && info[found.value].name != "" {
        var name := info[found.value].name;
        info := info[..found.value] + info[found.value + 1..];
        board := board + [Notice(LeaveText(name), at)];
        Broadcast(board, dead, at);
      }
    }

    /** The scan of remove_client over the registry for the socket's entry. */
    method FindOwner(sock: Socket) returns (found: Option<nat>)
      ensures found == OwnerIndex(info, sock)
    {
      found := None;
      var k := 0;
      while k < |info|
        invariant 0 <= k <= |info|
        invariant forall j :: 0 <= j < k ==> info[j].sock != sock
      {
        if info[k].sock == sock {
          return Some(k);
        }
        k := k + 1;
      }
    }

    /** One pass of the recv loop on non-empty data. */
    method Receive(sock: Socket, username: string, data: string, env: Env) returns (name: string, stop: bool)
      modifies this
      ensures StepResult(State(), name, stop) == AfterStep(old(State()), sock, username, data, env)
    {
      name, stop := username, false;
      var command := Parse(data);
      if command.name == "UserName" {
        name := command.payload;
        info := Assign(info, name, sock);
        if sock in env.dead {
          return name, true;
        }
        outbox := outbox + [Delivery(sock, NameReceived(name))];
        board := board + [Notice(JoinText(name), env.at)];
        Broadcast(board, env.dead, env.at);
      } else if command.name == "Send" {
        board := board + [TextFrom(Str(username), Str(command.payload), env.at)];
        Broadcast(board, env.dead, env.at);
      } else if command.name == "End" {
        stop := true;
      }
    }

    /** handle_client for one accepted socket. */
    method HandleClient(sock: Socket, startFails: bool, inputs: seq<Recv>, last: Env)
      modifies this
      ensures State() == AfterSession(old(State()), sock, startFails, inputs, last)
    {
      var username := "";
      if !startFails {
        outbox := outbox + [Delivery(sock, ConnectionStart)];
        var i := 0;
        var stop := false;
        while !stop && i < |inputs| && inputs[i].Data? && inputs[i].text != ""
          invariant 0 <= i <= |inputs|
          invariant !stop ==> AfterServe(State(), sock, username, inputs[i..], last)
                              == AfterSession(old(State()), sock, startFails, inputs, last)
          invariant stop ==> AfterRemoveClient(State(), sock, last.dead, last.at)
                             == AfterSession(old(State()), sock, startFails, inputs, last)
        {
          assert inputs[i..][1..] == inputs[i + 1..];
          username, stop := Receive(sock, username, inputs[i].text, inputs[i].env);
          i := i + 1;
        }
      }
      RemoveClient(sock, last.dead, last.at);
    }
  }
}
