/**
 The global invariant of the event loop.  `Core` ties the four structures and the
 counters together and is kept by every elementary change, also in the middle of
 a failing event.  `RoomInv` is the shape of one room between two events.
 */
module Invariant {
  import opened Types
  import opened RoomModel

  // ---- Counting over rooms ----

  ghost function Members(rooms: map<RoomId, Room>): nat {
    if rooms == map[] then 0
    else
      var r :| r in rooms;
      |rooms[r].users| + Members(rooms - {r})
  }

  ghost function LiveSessions(rooms: map<RoomId, Room>): nat {
    if rooms == map[] then 0
    else
      var r :| r in rooms;
      |rooms[r].sessions| + LiveSessions(rooms - {r})
  }

  /** Everything sent so far, without the order. */
  ghost function Sent(log: seq<multiset<Delivery>>): multiset<Delivery> {
    if log == [] then multiset{} else Sent(log[..|log| - 1]) + log[|log| - 1]
  }

  // ---- The parts of Core ----

  /** Rooms and members are stored under their own identifiers. */
  ghost predicate IdsOk(s: State) {
    && (forall r :: r in s.rooms ==> s.rooms[r].id == r)
    && (forall r, c :: r in s.rooms && c in s.rooms[r].users ==> s.rooms[r].users[c].id == c)
  }

  ghost predicate ConnectedOk(connected: map<Xid, RoomId>, rooms: map<RoomId, Room>) {
    forall c :: c in connected && connected[c] != UNNAMED ==> connected[c] in rooms && c in rooms[connected[c]].users
  }

  ghost predicate MembersOk(connected: map<Xid, RoomId>, rooms: map<RoomId, Room>) {
    forall r, c :: r in rooms && r != UNNAMED && c in rooms[r].users ==> c in connected && connected[c] == r
  }

  /** `connected` and the member tables of the named rooms say the same. */
  ghost predicate MembershipOk(s: State) {
    && s.connected.Keys <= s.seen
    && ConnectedOk(s.connected, s.rooms)
    && MembersOk(s.connected, s.rooms)
  }

  /** Every session was issued for its room and joins two members; the unnamed room has none. */
  ghost predicate SessionsOk(s: State) {
    && (forall r, id :: r in s.rooms && id in s.rooms[r].sessions ==> SessionOk(s, r, id))
    && (UNNAMED in s.rooms ==> s.rooms[UNNAMED].sessions == map[])
  }

  ghost predicate SessionOk(s: State, r: RoomId, id: Xid)
    requires r in s.rooms && id in s.rooms[r].sessions
  {
    var room := s.rooms[r];
    var session := room.sessions[id];
    && id in s.issued
    && s.issued[id].room == r && s.issued[id].mode == room.mode
    && s.issued[id].grant.host == session.host && s.issued[id].grant.client == session.client
    && session.host != session.client
    && session.host in room.users && session.client in room.users
  }

  ghost predicate Live(s: State, id: Xid) {
    exists r :: r in s.rooms && id in s.rooms[r].sessions
  }

  /** `Live`, knowing where to look. */
  predicate LiveAt(s: State, id: Xid) {
    id in s.issued && s.issued[id].room in s.rooms && id in s.rooms[s.issued[id].room].sessions
  }

  /** The entry the TURN table must hold for a live session of a room in TURN mode. */
  ghost predicate EntriesOk(s: State, r: RoomId, id: Xid)
    requires r in s.rooms && id in s.rooms[r].sessions && id in s.issued
  {
    var users := s.rooms[r].users;
    var g := s.issued[id].grant;
    && g.host in users && g.client in users
    && HostName(id) in s.turn && s.turn[HostName(id)] == MakeEntry(HostName(id), users[g.host].addr, g.hostPassword)
    && ClientName(id) in s.turn
    && s.turn[ClientName(id)] == MakeEntry(ClientName(id), users[g.client].addr, g.clientPassword)
  }

  /** The TURN table holds the two names of every live TURN session ... */
  ghost predicate TurnEntriesOk(s: State) {
    forall r, id :: r in s.rooms && id in s.rooms[r].sessions && s.rooms[r].mode == CONNECTION_TURN ==>
      id in s.issued && EntriesOk(s, r, id)
  }

  /** ... and nothing else. */
  ghost predicate TurnNamesOk(s: State) {
    forall name :: name in s.turn ==> TurnNameOk(s, name)
  }

  predicate TurnNameOk(s: State, name: string) {
    var id := NameId(name);
    && (name == HostName(id) || name == ClientName(id))
    && LiveAt(s, id) && s.issued[id].mode == CONNECTION_TURN
  }

  ghost predicate TurnOk(s: State) { TurnEntriesOk(s) && TurnNamesOk(s) }

  /** Each issued session was announced once to either end, and no other session ever was. */
  ghost predicate LogOk(s: State) {
    && (forall id :: id in s.issued ==>
          && s.issued[id].grant.id == id
          && Sent(s.log)[HostNotice(s.issued[id].mode, s.issued[id].grant)] == 1
          && Sent(s.log)[ClientNotice(s.issued[id].mode, s.issued[id].grant)] == 1)
    && (forall d :: d in Sent(s.log) ==> AnnouncementOk(s.issued, d))
  }

  ghost predicate AnnouncementOk(issued: map<Xid, Issue>, d: Delivery) {
    match d.message
    case HostSession(id, _, _) => id in issued && d == HostNotice(issued[id].mode, issued[id].grant)
    case ClientSession(id, _, _) => id in issued && d == ClientNotice(issued[id].mode, issued[id].grant)
    case _ => true
  }

  /** Created minus closed is what is there; a client that joins a room which lists it already is counted once more. */
  ghost predicate MetricsOk(s: State) {
    && s.metrics.roomsCreated - s.metrics.roomsClosed == |s.rooms|
    && s.metrics.sessionsCreated - s.metrics.sessionsClosed == LiveSessions(s.rooms)
    && s.metrics.usersJoined - s.metrics.usersLeft == Members(s.rooms) + s.rejoined
  }

  ghost predicate Core(s: State) {
    IdsOk(s) && MembershipOk(s) && SessionsOk(s) && TurnOk(s) && LogOk(s) && MetricsOk(s)
  }

  // ---- One room ----

  ghost predicate OneOwner(users: map<Xid, User>) {
    exists o :: o in users && users[o].owner && forall c :: c in users && users[c].owner ==> c == o
  }

  /** At most one member streams, and that member has the permission to. */
  ghost predicate StreamersOk(users: map<Xid, User>) {
    && (forall a, b :: a in users && b in users && users[a].streaming && users[b].streaming ==> a == b)
    && (forall a :: a in users && users[a].streaming ==> users[a].canShare)
  }

  /** Sessions lead from the streaming member to every other member, and nowhere else. */
  ghost predicate Star(users: map<Xid, User>, sessions: map<Xid, Session>) {
    && (forall id :: id in sessions ==> StarEdge(users, sessions[id]))
    && (forall h, c :: h in users && c in users && users[h].streaming && c != h ==> Linked(sessions, h, c))
  }

  ghost predicate StarEdge(users: map<Xid, User>, session: Session) {
    && session.host in users && users[session.host].streaming
    && session.client in users && session.client != session.host
  }

  ghost predicate Linked(sessions: map<Xid, Session>, h: Xid, c: Xid) {
    exists id :: id in sessions && sessions[id] == Session(h, c)
  }

  ghost predicate RoomInv(room: Room) {
    OneOwner(room.users) && StreamersOk(room.users) && Star(room.users, room.sessions)
  }

  /** Nobody in the unnamed room can act in it or leave it, so nobody there streams. */
  ghost predicate UnnamedInv(room: Room) {
    && room.users != map[]
    && (forall c :: c in room.users ==> !room.users[c].streaming && room.users[c].canShare)
  }

  ghost predicate RoomsInv(rooms: map<RoomId, Room>) {
    forall r :: r in rooms ==> if r == UNNAMED then UnnamedInv(rooms[r]) else RoomInv(rooms[r])
  }

  ghost predicate Inv(s: State) { Core(s) && RoomsInv(s.rooms) }
}
