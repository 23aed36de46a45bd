/** The transport's room table, read by the collaboration service: a room id
    maps to the set of socket ids joined to it. The adapter never keeps an
    empty room, so a room with no sockets is absent from the table. */
module Rooms {

  type SocketId = string
  type RoomId = string
  type RoomTable = map<RoomId, set<SocketId>>

  /** The adapter's invariant: every stored room has at least one socket. */
  ghost predicate NoEmptyRoom(rooms: RoomTable) {
    forall r :: r in rooms ==> rooms[r] != {}
  }

  /** The sockets a broadcast to room `r` reaches (none when the room is absent). */
  function Members(rooms: RoomTable, r: RoomId): set<SocketId> {
    if r in rooms then rooms[r] else {}
  }

  /** `socket.join(r)`. */
  function Join(rooms: RoomTable, r: RoomId, sid: SocketId): (after: RoomTable)
    ensures NoEmptyRoom(rooms) ==> NoEmptyRoom(after)
    ensures r in after && sid in Members(after, r)
    ensures Members(after, r) == Members(rooms, r) + {sid}
    ensures forall q :: q != r ==> Members(after, q) == Members(rooms, q)
    ensures forall q :: q != r ==> (q in after <==> q in rooms)
  {
    rooms[r := Members(rooms, r) + {sid}]
  }

  /** `socket.leave(r)`: the room is dropped when its last socket leaves. */
  function Leave(rooms: RoomTable, r: RoomId, sid: SocketId): (after: RoomTable)
    ensures NoEmptyRoom(rooms) ==> NoEmptyRoom(after)
    ensures Members(after, r) == Members(rooms, r) - {sid}
    ensures r !in after <==> Members(rooms, r) <= {sid}
    ensures forall q :: q != r ==> Members(after, q) == Members(rooms, q)
    ensures forall q :: q != r ==> (q in after <==> q in rooms)
  {
    var rest := Members(rooms, r) - {sid};
    if rest == {} then rooms - {r} else rooms[r := rest]
  }

  /** What the transport does to the room table when a socket closes: the
      socket leaves every room it was in. */
  function LeaveAll(rooms: RoomTable, sid: SocketId): (after: RoomTable)
    ensures NoEmptyRoom(after)
    ensures forall r :: Members(after, r) == Members(rooms, r) - {sid}
    ensures forall r :: r !in after <==> Members(rooms, r) <= {sid}
  {
    map r | r in rooms && rooms[r] - {sid} != {} :: rooms[r] - {sid}
  }

  /** Two room tables with the same members everywhere and no empty room are equal. */
  lemma SameMembersSameTable(a: RoomTable, b: RoomTable)
    requires NoEmptyRoom(a) && NoEmptyRoom(b)
    requires forall r :: Members(a, r) == Members(b, r)
    ensures a == b
  {
    forall r | r in a ensures r in b && a[r] == b[r] {
      assert Members(a, r) == a[r];
    }
    forall r | r in b ensures r in a {
      assert Members(b, r) == b[r];
    }
  }

  /** Once the transport has removed a socket from every room, a further
      `leave` of that socket changes nothing. */
  lemma LeaveAfterLeaveAll(rooms: RoomTable, sid: SocketId, r: RoomId)
    ensures Leave(LeaveAll(rooms, sid), r, sid) == LeaveAll(rooms, sid)
  {
    var gone := LeaveAll(rooms, sid);
    var again := Leave(gone, r, sid);
    forall q ensures Members(again, q) == Members(gone, q) {
      if q == r {
        assert sid !in Members(gone, r);
      }
    }
    SameMembersSameTable(again, gone);
  }
}
