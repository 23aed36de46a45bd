/** The collaboration service's room coordinator (`WebSocketConnection`): the
    handshake middleware, the five per-socket event handlers, the presence
    check and the in-memory room-to-language map. Each handler is one atomic
    step; what an `await` returns is a parameter. Everything the handlers
    emit or call outside the process is appended to `log`. */
module CollabSocket {
  import opened Wrappers
  import opened Rooms

  /** The `auth` object of a connection attempt. */
  datatype Handshake = Handshake(token: Option<string>, name: string, roomId: RoomId)

  /** A `user` object with a `username`, as `isUserInRoom` expects to find
      in `socket.data`. */
  datatype UserClaim = UserClaim(username: string)

  /** `socket.data`. The middleware fills `name` and `roomId` and never `user`. */
  datatype SocketData = SocketData(name: string, roomId: RoomId, user: Option<UserClaim>)

  /** `ChatModel`; `createdAt` is an abstract time value. */
  datatype ChatMessage = ChatMessage(senderId: string, message: string, createdAt: int, roomId: RoomId)

  /** The submission forwarded to the judge and its response data, both opaque. */
  datatype Submission = Submission(body: string)
  datatype ExecutionData = ExecutionData(body: string)

  /** How the awaited judge call ended. */
  datatype JudgeOutcome = JudgeSucceeded(data: ExecutionData) | JudgeFailed

  datatype Payload =
    | NoPayload
    | Text(text: string)
    | Chat(chat: ChatMessage)
    | Executed(data: ExecutionData)
    | ExecutionError(error: string)

  /** An observable effect: an event sent to a room (with the sockets it
      reached) or to one socket, or a call to an external collaborator. */
  datatype Effect =
    | Broadcast(room: RoomId, recipients: set<SocketId>, event: string, payload: Payload)
    | Unicast(target: SocketId, event: string, payload: Payload)
    | AppendChatHistory(room: RoomId, chat: ChatMessage)
    | PersistLanguage(room: RoomId, language: string)
    | SubmitToJudge(submission: Submission)
    | CompleteSession(room: RoomId)

  const AuthenticationError := "Authentication error"
  const ExecutionFailure := "Failed to execute code"

  /** JavaScript falsiness of the handshake token: absent or empty. */
  predicate Falsy(token: Option<string>) {
    token.None? || token.value == ""
  }

  /** The middleware's decision for one connection attempt. */
  function Authenticate(auth: Handshake): (r: Result<SocketData, string>)
    ensures r.Failure? <==> Falsy(auth.token)
    ensures r.Failure? ==> r.error == AuthenticationError
    ensures r.Success? ==> r.value.name == auth.name && r.value.roomId == auth.roomId
    ensures r.Success? ==> r.value.user.None?
  {
    if Falsy(auth.token) then Failure(AuthenticationError)
    else Success(SocketData(auth.name, auth.roomId, None))
  }

  /** What `run-code` sends as `code-executed`. */
  function ExecutionPayload(outcome: JudgeOutcome): (p: Payload)
    ensures outcome.JudgeSucceeded? ==> p == Executed(outcome.data)
    ensures outcome.JudgeFailed? ==> p == ExecutionError(ExecutionFailure)
  {
    match outcome
    case JudgeSucceeded(data) => Executed(data)
    case JudgeFailed => ExecutionError(ExecutionFailure)
  }

  /** The event name of an emitted effect; external calls have none. */
  function EventOf(e: Effect): Option<string> {
    match e
    case Broadcast(_, _, event, _) => Some(event)
    case Unicast(_, event, _) => Some(event)
    case _ => None
  }

  /** How many times `event` was emitted in `log`. */
  function EmitCount(log: seq<Effect>, event: string): nat {
    if log == [] then 0
    else (if EventOf(log[0]) == Some(event) then 1 else 0) + EmitCount(log[1..], event)
  }

  /** Counting emits distributes over concatenation of logs. */
  lemma {:induction false} EmitCountAppend(a: seq<Effect>, b: seq<Effect>, event: string)
    ensures EmitCount(a + b, event) == EmitCount(a, event) + EmitCount(b, event)
  {
    if a == [] {
      assert a + b == b;
    } else {
      assert (a + b)[0] == a[0];
      assert (a + b)[1..] == a[1..] + b;
      EmitCountAppend(a[1..], b, event);
    }
  }

  /** Appending one effect adds one to the count of its own event and leaves
      every other count alone. */
  lemma EmitCountSnoc(log: seq<Effect>, e: Effect)
    ensures forall event :: EmitCount(log + [e], event)
                            == EmitCount(log, event) + (if EventOf(e) == Some(event) then 1 else 0)
  {
    forall event
      ensures EmitCount(log + [e], event) == EmitCount(log, event) + (if EventOf(e) == Some(event) then 1 else 0)
    {
      EmitCountAppend(log, [e], event);
      assert [e][1..] == [];
    }
  }

  /** Whether socket `sid` carries a `user` claim with this username. */
  predicate ClaimsUser(sockets: map<SocketId, SocketData>, sid: SocketId, username: string) {
    sid in sockets && sockets[sid].user.Some? && sockets[sid].user.value.username == username
  }

  /** What `isUserInRoom` decides: some socket of the room claims the user. */
  ghost predicate UserPresent(rooms: RoomTable, sockets: map<SocketId, SocketData>, r: RoomId, username: string) {
    exists sid :: sid in Members(rooms, r) && ClaimsUser(sockets, sid, username)
  }

  /** No socket admitted by the middleware carries a `user` claim, so the
      presence check finds nobody, whatever the room and the name. */
  lemma AdmittedSocketsNeverPresent(rooms: RoomTable, sockets: map<SocketId, SocketData>, r: RoomId, username: string)
    requires forall sid :: sid in sockets ==> sockets[sid].user.None?
    ensures !UserPresent(rooms, sockets, r, username)
  {
  }

  class WebSocketConnection {
    /** The transport's room table. */
    var rooms: RoomTable
    /** The transport's socket table, with each socket's `socket.data`. */
    var sockets: map<SocketId, SocketData>
    /** `languages`: the language last chosen in each room. */
    var languages: map<RoomId, string>
    /** Every event emitted and every external call made, in order. */
    var log: seq<Effect>

    ghost predicate Valid()
      reads this
    {
      && NoEmptyRoom(rooms)
      && (forall r, sid :: r in rooms && sid in rooms[r] ==> sid in sockets)
      && (forall sid :: sid in sockets ==> sockets[sid].user.None?)
    }

    constructor ()
      ensures Valid()
      ensures rooms == map[] && sockets == map[] && languages == map[] && log == []
    {
      rooms, sockets, languages, log := map[], map[], map[], [];
    }

    /** Append one effect to the log. */
    method Record(e: Effect)
      modifies this`log
      ensures log == old(log) + [e]
      ensures forall event :: EmitCount(log, event)
                              == EmitCount(old(log), event) + (if EventOf(e) == Some(event) then 1 else 0)
    {
      EmitCountSnoc(log, e);
      log := log + [e];
    }

    /** `middleware`: admit the socket when the token is truthy, storing
        exactly the handshake's name and room id as its data. */
    method Connect(sid: SocketId, auth: Handshake) returns (r: Result<SocketData, string>)
      requires Valid()
      modifies this
      ensures Valid()
      ensures r == Authenticate(auth)
      ensures r.Failure? ==> sockets == old(sockets)
      ensures r.Success? ==> sockets == old(sockets)[sid := SocketData(auth.name, auth.roomId, None)]
      ensures rooms == old(rooms) && languages == old(languages) && log == old(log)
    {
      r := Authenticate(auth);
      if r.Success? {
        sockets := sockets[sid := r.value];
      }
    }

    /** `joinRoom`: join the room named in the payload (not the handshake's),
        announce the user there, and send the stored language to this socket
        alone if the room has one. */
    method JoinRoom(sid: SocketId, roomId: RoomId)
      requires Valid() && sid in sockets
      modifies this
      ensures Valid()
      ensures rooms == Join(old(rooms), roomId, sid)
      ensures sockets == old(sockets) && languages == old(languages)
      ensures log == old(log)
        + [Broadcast(roomId, Members(rooms, roomId), "user-connected", Text(sockets[sid].name))]
        + (if roomId in languages then [Unicast(sid, "update-language", Text(languages[roomId]))] else [])
      ensures sid in Members(rooms, roomId)
      ensures EmitCount(log, "user-connected") == EmitCount(old(log), "user-connected") + 1
      ensures EmitCount(log, "update-language")
           == EmitCount(old(log), "update-language") + (if roomId in languages then 1 else 0)
    {
      var name := sockets[sid].name;
      rooms := Join(rooms, roomId, sid);
      Record(Broadcast(roomId, Members(rooms, roomId), "user-connected", Text(name)));
      if roomId in languages {
        Record(Unicast(sid, "update-language", Text(languages[roomId])));
      }
    }

    /** `send_message`: relay the message unchanged to the room it names and
        append it to that room's chat history. */
    method SendMessage(sid: SocketId, data: ChatMessage)
      requires Valid() && sid in sockets
      modifies this
      ensures Valid()
      ensures rooms == old(rooms) && sockets == old(sockets) && languages == old(languages)
      ensures log == old(log)
        + [ Broadcast(data.roomId, Members(rooms, data.roomId), "receive_message", Chat(data)),
            AppendChatHistory(data.roomId, data) ]
      ensures EmitCount(log, "receive_message") == EmitCount(old(log), "receive_message") + 1
    {
      Record(Broadcast(data.roomId, Members(rooms, data.roomId), "receive_message", Chat(data)));
      Record(AppendChatHistory(data.roomId, data));
    }

    /** `change-language`: broadcast the new language to the handshake room,
        store it under that room (no check against the supported modes), then
        persist it. */
    method ChangeLanguage(sid: SocketId, language: string)
      requires Valid() && sid in sockets
      modifies this
      ensures Valid()
      ensures rooms == old(rooms) && sockets == old(sockets)
      ensures languages == old(languages)[sockets[sid].roomId := language]
      ensures forall r :: r != sockets[sid].roomId ==>
        (r in languages <==> r in old(languages)) && (r in languages ==> languages[r] == old(languages)[r])
      ensures log == old(log)
        + [ Broadcast(sockets[sid].roomId, Members(rooms, sockets[sid].roomId), "update-language", Text(language)),
            PersistLanguage(sockets[sid].roomId, language) ]
      ensures EmitCount(log, "update-language") == EmitCount(old(log), "update-language") + 1
    {
      var roomId := sockets[sid].roomId;
      Record(Broadcast(roomId, Members(rooms, roomId), "update-language", Text(language)));
      languages := languages[roomId := language];
      Record(PersistLanguage(roomId, language));
    }

    /** `run-code`: signal the handshake room that code is running, submit to
        the judge, then report the judge's data or the generic failure. */
    method RunCode(sid: SocketId, dto: Submission, outcome: JudgeOutcome)
      requires Valid() && sid in sockets
      modifies this
      ensures Valid()
      ensures rooms == old(rooms) && sockets == old(sockets) && languages == old(languages)
      ensures log == old(log)
        + [ Broadcast(sockets[sid].roomId, Members(rooms, sockets[sid].roomId), "executing-code", NoPayload),
            SubmitToJudge(dto),
            Broadcast(sockets[sid].roomId, Members(rooms, sockets[sid].roomId), "code-executed", ExecutionPayload(outcome)) ]
      ensures EmitCount(log, "executing-code") == EmitCount(old(log), "executing-code") + 1
      ensures EmitCount(log, "code-executed") == EmitCount(old(log), "code-executed") + 1
    {
      var roomId := sockets[sid].roomId;
      var members := Members(rooms, roomId);
      Record(Broadcast(roomId, members, "executing-code", NoPayload));
      Record(SubmitToJudge(dto));
      Record(Broadcast(roomId, members, "code-executed", ExecutionPayload(outcome)));
    }

    /** `isUserInRoom`: scan the room's sockets for one whose data carries a
        `user` with this username. */
    method IsUserInRoom(roomId: RoomId, username: string) returns (found: bool)
      ensures found <==> UserPresent(rooms, sockets, roomId, username)
    {
      if roomId !in rooms {
        return false;
      }
      var room := rooms[roomId];
      var unseen := room;
      while unseen != {}
        invariant unseen <= room
        invariant forall sid :: sid in room - unseen ==> !ClaimsUser(sockets, sid, username)
        decreases unseen
      {
        var sid :| sid in unseen;
        if sid in sockets && sockets[sid].user.Some? && sockets[sid].user.value.username == username {
          assert ClaimsUser(sockets, sid, username);
          return true;
        }
        unseen := unseen - {sid};
      }
      assert room - unseen == Members(rooms, roomId);
      return false;
    }

    /** `disconnect`. Modelling assumption: before the handler runs, the
        transport has already taken the socket out of every room and out of
        its socket table. The handler then looks up its handshake room, leaves
        it, announces the departure (the presence check never finds an
        admitted socket), and, when the lookup found no room, completes the
        session and forgets the room's language. */
    method Disconnect(sid: SocketId, now: int)
      requires Valid() && sid in sockets
      modifies this
      ensures Valid()
      ensures sockets == old(sockets) - {sid}
      ensures rooms == LeaveAll(old(rooms), sid)
      ensures var data := old(sockets)[sid];
        log == old(log)
          + [Broadcast(data.roomId, Members(rooms, data.roomId), "user-disconnected",
                       Chat(ChatMessage("", data.name, now, data.roomId)))]
          + (if data.roomId in rooms then [] else [CompleteSession(data.roomId)])
      ensures var r := old(sockets)[sid].roomId;
        languages == if r in rooms then old(languages) else old(languages) - {r}
      ensures EmitCount(log, "user-disconnected") == EmitCount(old(log), "user-disconnected") + 1
      // the session is completed iff the departing socket was the handshake
      // room's only member, or that room had no socket at all
      ensures var r := old(sockets)[sid].roomId;
        CompleteSession(r) in log[|old(log)|..] <==> Members(old(rooms), r) <= {sid}
    {
      var data := sockets[sid];
      var roomId, name := data.roomId, data.name;
      // the transport's own bookkeeping, done before the event fires
      rooms := LeaveAll(rooms, sid);
      sockets := sockets - {sid};
      // the handler proper
      var roomFound := roomId in rooms;
      LeaveAfterLeaveAll(old(rooms), sid, roomId);
      rooms := Leave(rooms, roomId, sid);
      var present := IsUserInRoom(roomId, name);
      AdmittedSocketsNeverPresent(rooms, sockets, roomId, name);
      if !present {
        Record(Broadcast(roomId, Members(rooms, roomId), "user-disconnected",
                         Chat(ChatMessage("", name, now, roomId))));
      }
      if !roomFound {
        Record(CompleteSession(roomId));
        languages := languages - {roomId};
      }
      assert log[|old(log)|..] == [Broadcast(roomId, Members(rooms, roomId), "user-disconnected",
                                             Chat(ChatMessage("", name, now, roomId)))]
                                  + (if roomFound then [] else [CompleteSession(roomId)]);
    }
  }

  /** A client of the coordinator: the room's chosen language reaches a
      socket that joins later, and the second of two changes is the one kept. */
  method CatchUpOnJoin()
  {
    var io := new WebSocketConnection();
    var a := io.Connect("A", Handshake(Some("t1"), "alice", "r1"));
    var rejected := io.Connect("C", Handshake(Some(""), "carol", "r1"));
    assert rejected == Failure(AuthenticationError) && "C" !in io.sockets;
    io.JoinRoom("A", "r1");
    assert Members(io.rooms, "r1") == {"A"};
    io.ChangeLanguage("A", "python");
    io.ChangeLanguage("A", "cpp");
    assert io.languages == map["r1" := "cpp"];
    var b := io.Connect("B", Handshake(Some("t2"), "bob", "r1"));
    var before := io.log;
    assert io.sockets["B"].name == "bob";
    io.JoinRoom("B", "r1");
    assert Members(io.rooms, "r1") == {"A", "B"};
    assert io.log == before + [ Broadcast("r1", {"A", "B"}, "user-connected", Text("bob")),
                                Unicast("B", "update-language", Text("cpp")) ];
  }

  /** A client of the coordinator: the first of two sockets to leave a room
      is announced, and the room keeps its session and its language. */
  method FirstDepartureKeepsSession()
  {
    var io := new WebSocketConnection();
    var a := io.Connect("A", Handshake(Some("t1"), "alice", "r1"));
    var b := io.Connect("B", Handshake(Some("t2"), "bob", "r1"));
    io.JoinRoom("A", "r1");
    io.JoinRoom("B", "r1");
    assert Members(io.rooms, "r1") == {"A", "B"};
    io.ChangeLanguage("A", "go");
    assert io.languages == map["r1" := "go"];
    assert Members(io.rooms, "r1") == {"A", "B"};
    assert io.sockets["A"] == SocketData("alice", "r1", None);
    var before := io.log;
    io.Disconnect("A", 7);
    assert Members(io.rooms, "r1") == {"B"};
    assert io.log == before + [Broadcast("r1", {"B"}, "user-disconnected", Chat(ChatMessage("", "alice", 7, "r1")))];
    assert io.languages == map["r1" := "go"];
  }

  /** A client of the coordinator: the session of a room is completed, and
      its language forgotten, when its last socket leaves. */
  method LastDepartureCompletesSession()
  {
    var io := new WebSocketConnection();
    var b := io.Connect("B", Handshake(Some("t2"), "bob", "r1"));
    io.JoinRoom("B", "r1");
    assert Members(io.rooms, "r1") == {"B"};
    io.ChangeLanguage("B", "go");
    assert io.languages == map["r1" := "go"];
    assert io.sockets["B"] == SocketData("bob", "r1", None);
    var before := io.log;
    io.Disconnect("B", 8);
    assert Members(io.rooms, "r1") == {};
    assert io.log == before + [ Broadcast("r1", {}, "user-disconnected", Chat(ChatMessage("", "bob", 8, "r1"))),
                                CompleteSession("r1") ];
    assert io.languages == map[];
  }
}
