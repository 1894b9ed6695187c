/**
 What each event does to the server, as functions on `State`.  The methods in
 Server.dfy are proved to compute these functions; the properties are proved about
 them in the files after this one.
 */
module RoomModel {
  import opened Types

  // ---- TURN usernames ----

  function HostName(id: Xid): string { id.text + "host" }

  function ClientName(id: Xid): string { id.text + "client" }

  function HostNames(ids: set<Xid>): set<string> { set id | id in ids :: HostName(id) }

  function ClientNames(ids: set<Xid>): set<string> { set id | id in ids :: ClientName(id) }

  /** The session a username was made for. */
  function NameId(name: string): Xid {
    if |name| >= 6 && name[|name| - 6..] == "client" then Xid(name[..|name| - 6])
    else if |name| >= 4 then Xid(name[..|name| - 4])
    else Xid(name)
  }

  function MakeEntry(name: string, addr: string, password: string): Entry {
    Entry(addr, AuthKey(name, REALM, password))
  }

  // ---- What is sent ----

  function Info(user: User): UserInfo {
    UserInfo(user.id, user.name, user.streaming, user.owner, user.canShare)
  }

  function Infos(users: map<Xid, User>): set<UserInfo> { set c | c in users :: Info(users[c]) }

  function RosterFor(room: Room, c: Xid): Delivery { Delivery(c, Roster(room.id, c, Infos(room.users))) }

  function RosterPhase(room: Room): multiset<Delivery> {
    multiset(set c | c in room.users :: RosterFor(room, c))
  }

  function CloseNotice(c: Xid, code: int, reason: string): Delivery { Delivery(c, CloseWriter(code, reason)) }

  function Peer(session: Session, c: Xid): Xid { if session.client == c then session.host else session.client }

  /** One `EndShare` per session in `ids`, to the end that is not `c`, if still in `users`. */
  function EndShares(users: map<Xid, User>, sessions: map<Xid, Session>, ids: set<Xid>, c: Xid): multiset<Delivery> {
    multiset(set id | id in ids && id in sessions && Peer(sessions[id], c) in users
                    :: Delivery(Peer(sessions[id], c), EndShare(id)))
  }

  function HostIceServers(mode: string, g: Grant): IceServers {
    if mode == CONNECTION_STUN then Stun
    else if mode == CONNECTION_TURN then Turn(HostName(g.id), g.hostPassword)
    else NoServers
  }

  function ClientIceServers(mode: string, g: Grant): IceServers {
    if mode == CONNECTION_STUN then Stun
    else if mode == CONNECTION_TURN then Turn(ClientName(g.id), g.clientPassword)
    else NoServers
  }

  function HostNotice(mode: string, g: Grant): Delivery {
    Delivery(g.host, HostSession(g.id, g.client, HostIceServers(mode, g)))
  }

  function ClientNotice(mode: string, g: Grant): Delivery {
    Delivery(g.client, ClientSession(g.id, g.host, ClientIceServers(mode, g)))
  }

  function Say(s: State, phase: multiset<Delivery>): State { s.(log := s.log + [phase]) }

  // ---- Elementary changes ----

  function SetUsers(s: State, r: RoomId, users: map<Xid, User>): State
    requires r in s.rooms
  {
    s.(rooms := s.rooms[r := s.rooms[r].(users := users)])
  }

  function CloseSessions(s: State, r: RoomId, ids: set<Xid>): State
    requires r in s.rooms
  {
    var room := s.rooms[r];
    s.(rooms := s.rooms[r := room.(sessions := room.sessions - ids)],
       turn := if room.mode == CONNECTION_TURN then s.turn - HostNames(ids) - ClientNames(ids) else s.turn,
       metrics := s.metrics.(sessionsClosed := s.metrics.sessionsClosed + |ids|))
  }

  function AddrOf(users: map<Xid, User>, c: Xid): string { if c in users then users[c].addr else "" }

  /** In TURN mode the two names of a new session are allowed, with the addresses of its ends. */
  function Allowed(turn: map<string, Entry>, mode: string, users: map<Xid, User>, g: Grant): map<string, Entry> {
    if mode == CONNECTION_TURN then
      turn[HostName(g.id) := MakeEntry(HostName(g.id), AddrOf(users, g.host), g.hostPassword)]
          [ClientName(g.id) := MakeEntry(ClientName(g.id), AddrOf(users, g.client), g.clientPassword)]
    else turn
  }

  /** One new session: recorded, allowed in the TURN table, announced to either end. */
  function OpenSession(s: State, r: RoomId, g: Grant): State
    requires r in s.rooms
  {
    var room := s.rooms[r];
    s.(rooms := s.rooms[r := room.(sessions := room.sessions[g.id := Session(g.host, g.client)])],
       turn := Allowed(s.turn, room.mode, room.users, g),
       metrics := s.metrics.(sessionsCreated := s.metrics.sessionsCreated + 1),
       issued := s.issued[g.id := Issue(room.id, room.mode, g)],
       log := s.log + [multiset{HostNotice(room.mode, g)}] + [multiset{ClientNotice(room.mode, g)}])
  }

  function OpenSessions(s: State, r: RoomId, grants: seq<Grant>): (t: State)
    requires r in s.rooms
    ensures t.rooms.Keys == s.rooms.Keys
  {
    if grants == [] then s
    else OpenSession(OpenSessions(s, r, grants[..|grants| - 1]), r, grants[|grants| - 1])
  }

  function Hosted(sessions: map<Xid, Session>, c: Xid): set<Xid> {
    set id | id in sessions && sessions[id].host == c
  }

  function Involving(sessions: map<Xid, Session>, c: Xid): set<Xid> {
    set id | id in sessions && (sessions[id].host == c || sessions[id].client == c)
  }

  /** `c` is gone from `connected` and from the room, but not yet from its sessions. */
  function Dropped(s: State, r: RoomId, c: Xid): State
    requires r in s.rooms
  {
    SetUsers(s, r, s.rooms[r].users - {c})
    .(connected := s.connected - {c}, metrics := s.metrics.(usersLeft := s.metrics.usersLeft + 1))
  }

  /** `c` is gone, and its sessions with it. */
  function Remove(s: State, r: RoomId, c: Xid): State
    requires r in s.rooms
  {
    CloseSessions(Dropped(s, r, c), r, Involving(s.rooms[r].sessions, c))
  }

  function CloseRoom(s: State, r: RoomId): State
    requires r in s.rooms
  {
    var room := s.rooms[r];
    var closed := CloseSessions(s, r, room.sessions.Keys);
    closed.(rooms := closed.rooms - {r},
            metrics := closed.metrics.(usersLeft := closed.metrics.usersLeft + |room.users|,
                                       roomsClosed := closed.metrics.roomsClosed + 1))
  }

  function Notify(s: State, r: RoomId): State
    requires r in s.rooms
  {
    Say(s, RosterPhase(s.rooms[r]))
  }

  // ---- Disconnecting ----

  function Lookup(s: State, c: Xid): RoomId { if c in s.connected then s.connected[c] else UNNAMED }

  function Crown(users: map<Xid, User>, heir: Xid): map<Xid, User> {
    if heir in users then users[heir := users[heir].(owner := true)] else users
  }

  /** After the leaver is gone from room `r`: close it, or hand it over, and tell the others. */
  function Settle(s: State, r: RoomId, wasOwner: bool, heir: Xid): State
    requires r in s.rooms
  {
    var users := s.rooms[r].users;
    if users == map[] then CloseRoom(s, r)
    else if wasOwner then Notify(SetUsers(s, r, Crown(users, heir)), r)
    else Notify(s, r)
  }

  predicate InRoom(s: State, c: Xid) {
    var r := Lookup(s, c);
    r != UNNAMED && r in s.rooms && c in s.rooms[r].users
  }

  function Disconnect(s: State, c: Xid, code: int, reason: string, heir: Xid): State {
    var r := Lookup(s, c);
    var told := Say(s, multiset{CloseNotice(c, code, reason)});
    if !InRoom(s, c) then told.(connected := s.connected - {c})
    else
      var room := s.rooms[r];
      var gone := Remove(told, r, c);
      var ended := Say(gone, EndShares(room.users - {c}, room.sessions, Involving(room.sessions, c), c));
      Settle(ended, r, room.users[c].owner, heir)
  }

  // ---- Events ----

  /** How executing an event ends; `Panicked` is a nil dereference, which would stop the server. */
  datatype Verdict = Done | Failed(reason: string) | Panicked

  datatype Outcome = Outcome(state: State, verdict: Verdict)

  function Fine(s: State): Outcome { Outcome(s, Done) }

  function Fail(s: State, reason: string): Outcome { Outcome(s, Failed(reason)) }

  /** Why the sender has no current room, or None if it has one. */
  function CurrentRoomError(s: State, c: Xid): Option<string> {
    if c !in s.connected then Some("not connected")
    else if s.connected[c] == UNNAMED then Some("not in a room")
    else if s.connected[c] !in s.rooms then Some("room with id " + s.connected[c].text + " does not exist")
    else None
  }

  function DisplayName(info: ClientInfo, userName: string, randomName: string): string {
    var name := if info.authenticated then info.authenticatedUser else userName;
    if name == "" then randomName else name
  }

  function NewUser(info: ClientInfo, name: string, owner: bool): User {
    User(info.id, info.addr, name, false, owner, true)
  }

  function JoinError(s: State, info: ClientInfo, id: RoomId): Option<string> {
    if Lookup(s, info.id) != UNNAMED then Some("cannot join room, you are already in one")
    else if id !in s.rooms then Some("room with id " + id.text + " does not exist")
    else if info.addr in s.rooms[id].banned then Some("bannedFromRoom")
    else None
  }

  function AddMember(s: State, r: RoomId, user: User): State
    requires r in s.rooms
  {
    SetUsers(s, r, s.rooms[r].users[user.id := user])
    .(connected := s.connected[user.id := s.rooms[r].id],
      metrics := s.metrics.(usersJoined := s.metrics.usersJoined + 1),
      rejoined := s.rejoined + if user.id in s.rooms[r].users then 1 else 0)
  }

  function JoinRoom(s: State, info: ClientInfo, id: RoomId, userName: string, ch: Choice): Outcome {
    var error := JoinError(s, info, id);
    if error.Some? then Fail(s, error.value)
    else
      var user := NewUser(info, DisplayName(info, userName, ch.randomName), false);
      var joined := Notify(AddMember(s, id, user), id);
      if !ch.ipOk then Fail(joined, PROVIDER_ERROR)
      else Fine(OpenSessions(joined, id, ch.grants))
  }

  /** The text of an IP provider failure; what it says plays no part. */
  const PROVIDER_ERROR := "ip provider"

  function AuthError(s: State, info: ClientInfo, mode: string): Option<string> {
    if s.authMode == AUTH_MODE_NONE then None
    else if s.authMode == AUTH_MODE_ALL then
      if !info.authenticated then Some("you need to login") else None
    else if s.authMode == AUTH_MODE_TURN then
      if mode != CONNECTION_STUN && mode != CONNECTION_LOCAL && !info.authenticated
      then Some("you need to login") else None
    else Some("invalid authmode:" + s.authMode)
  }

  function NewRoom(info: ClientInfo, e: Event, ch: Choice): Room
    requires e.Create?
  {
    Room(e.id, e.closeOnOwnerLeave, e.mode,
         map[info.id := NewUser(info, DisplayName(info, e.userName, ch.randomName), true)], map[], {})
  }

  function OpenRoom(s: State, room: Room, c: Xid): State {
    s.(rooms := s.rooms[room.id := room],
       connected := s.connected[c := room.id],
       metrics := s.metrics.(usersJoined := s.metrics.usersJoined + 1,
                             roomsCreated := s.metrics.roomsCreated + 1))
  }

  function CreateRoom(s: State, info: ClientInfo, e: Event, ch: Choice): Outcome
    requires e.Create?
  {
    if Lookup(s, info.id) != UNNAMED then Fail(s, "cannot join room, you are already in one")
    else if e.id in s.rooms then
      if e.joinIfExist then JoinRoom(s, info, e.id, e.userName, ch)
      else Fail(s, "room with id " + e.id.text + " does already exist")
    else
      var error := AuthError(s, info, e.mode);
      if error.Some? then Fail(s, error.value)
      else Fine(Notify(OpenRoom(s, NewRoom(info, e, ch), info.id), e.id))
  }

  function SetName(s: State, c: Xid, name: string): Outcome {
    var error := CurrentRoomError(s, c);
    if error.Some? then Fail(s, error.value)
    else
      var r := s.connected[c];
      var users := s.rooms[r].users;
      if c !in users then Outcome(s, Panicked)
      else Fine(Notify(SetUsers(s, r, users[c := users[c].(name := name)]), r))
  }

  function ShareError(s: State, c: Xid): Option<string> {
    var error := CurrentRoomError(s, c);
    if error.Some? then error
    else
      var users := s.rooms[s.connected[c]].users;
      if c in users && !users[c].canShare then Some("you do not have permission to share screen")
      else if exists u :: u in users && users[u].streaming && u != c
      then Some("another user is already sharing screen")
      else None
  }

  function StartShare(s: State, c: Xid, ch: Choice): Outcome {
    var error := ShareError(s, c);
    if error.Some? then Fail(s, error.value)
    else
      var r := s.connected[c];
      var users := s.rooms[r].users;
      if c !in users then Outcome(s, Panicked)
      else
        var on := SetUsers(s, r, users[c := users[c].(streaming := true)]);
        if !ch.ipOk then Fail(on, PROVIDER_ERROR)
        else Fine(Notify(OpenSessions(on, r, ch.grants), r))
  }

  function EndSharing(s: State, c: Xid): Outcome {
    var error := CurrentRoomError(s, c);
    if error.Some? then Fail(s, error.value)
    else
      var r := s.connected[c];
      var room := s.rooms[r];
      if c !in room.users then Outcome(s, Panicked)
      else
        var off := SetUsers(s, r, room.users[c := room.users[c].(streaming := false)]);
        var ids := Hosted(room.sessions, c);
        var closed := Say(CloseSessions(off, r, ids), EndShares(room.users, room.sessions, ids, c));
        Fine(Notify(closed, r))
  }

  /** A signalling message travels from one end of a session to the other. */
  function Forward(s: State, c: Xid, kind: RelayKind, sid: Xid, value: string): Outcome {
    var error := CurrentRoomError(s, c);
    if error.Some? then Fail(s, error.value)
    else
      var room := s.rooms[s.connected[c]];
      if sid !in room.sessions then Fine(s)
      else
        var fromHost := kind.OfferFromHost? || kind.IceFromHost?;
        var session := room.sessions[sid];
        var sender := if fromHost then session.host else session.client;
        var receiver := if fromHost then session.client else session.host;
        if sender != c then Fail(s, "permission denied for session " + sid.text)
        else if receiver !in room.users then Outcome(s, Panicked)
        else Fine(Say(s, multiset{Delivery(receiver, Relay(kind, sid, value))}))
  }

  function Permitted(user: User, on: bool): User {
    if on then user.(canShare := true) else user.(canShare := false, streaming := false)
  }

  /** The members in `todo` gain or lose the permission, in whatever order. */
  ghost function Permit(users: map<Xid, User>, todo: set<Xid>, on: bool): (permitted: map<Xid, User>)
    requires todo <= users.Keys
    ensures permitted.Keys == users.Keys
    ensures forall u :: u in users ==> permitted[u] == if u in todo then Permitted(users[u], on) else users[u]
    decreases todo
  {
    if todo == {} then users
    else
      var u :| u in todo;
      Permit(users[u := Permitted(users[u], on)], todo - {u}, on)
  }

  /** The sessions hosted by a streaming member other than `c`. */
  function HostedByOthers(room: Room, c: Xid): set<Xid> {
    set id | id in room.sessions && room.sessions[id].host in room.users
             && room.sessions[id].host != c && room.users[room.sessions[id].host].streaming
  }

  ghost function DisableAll(s: State, r: RoomId, c: Xid): State
    requires r in s.rooms
  {
    var room := s.rooms[r];
    Notify(CloseSessions(SetUsers(s, r, Permit(room.users, room.users.Keys - {c}, false)), r, HostedByOthers(room, c)), r)
  }

  function StopTarget(s: State, r: RoomId, t: Xid): State
    requires r in s.rooms && t in s.rooms[r].users
  {
    var room := s.rooms[r];
    if !room.users[t].streaming then s
    else
      Notify(CloseSessions(SetUsers(s, r, room.users[t := room.users[t].(streaming := false)]), r,
                           Hosted(room.sessions, t)), r)
  }

  function TogglePermission(s: State, r: RoomId, t: Xid): State
    requires r in s.rooms && t in s.rooms[r].users
  {
    var room := s.rooms[r];
    var user := room.users[t].(canShare := !room.users[t].canShare);
    if !user.canShare && user.streaming then
      Notify(CloseSessions(SetUsers(s, r, room.users[t := user.(streaming := false)]), r,
                           Hosted(room.sessions, t)), r)
    else Notify(SetUsers(s, r, room.users[t := user]), r)
  }

  function Expel(s: State, r: RoomId, t: Xid, reason: string): State
    requires r in s.rooms
  {
    Notify(Say(Remove(s, r, t), multiset{CloseNotice(t, CLOSE_NORMAL_CLOSURE, reason)}), r)
  }

  function Ban(s: State, r: RoomId, addr: string): State
    requires r in s.rooms
  {
    s.(rooms := s.rooms[r := s.rooms[r].(banned := s.rooms[r].banned + {addr})])
  }

  function ActOn(s: State, r: RoomId, c: Xid, action: string, t: Xid): Outcome
    requires r in s.rooms
  {
    var users := s.rooms[r].users;
    if t !in users then Fail(s, "user not found")
    else if t == c then Fail(s, "cannot perform action on yourself")
    else if action == "stop_share" then Fine(StopTarget(s, r, t))
    else if action == "toggle_share_permission" then Fine(TogglePermission(s, r, t))
    else if action == "kick" then Fine(Expel(s, r, t, "kickedByOwner"))
    else if action == "ban" then Fine(Expel(Ban(s, r, users[t].addr), r, t, "bannedByOwner"))
    else Fail(s, "unknown action: " + action)
  }

  ghost function Govern(s: State, c: Xid, action: string, target: Target): Outcome {
    var error := CurrentRoomError(s, c);
    if error.Some? then Fail(s, error.value)
    else
      var r := s.connected[c];
      var users := s.rooms[r].users;
      if c !in users || !users[c].owner then Fail(s, "only owner can perform this action")
      else if action == "enable_all" then Fine(Notify(SetUsers(s, r, Permit(users, users.Keys - {c}, true)), r))
      else if action == "disable_all" then Fine(DisableAll(s, r, c))
      else match target
        case NoTarget => Fail(s, "targetUserId is required for individual actions")
        case Unparsable => Fail(s, "invalid user ID")
        case Target(t) => ActOn(s, r, c, action, t)
  }

  function DissolvePhase(users: map<Xid, User>): multiset<Delivery> {
    multiset(set c | c in users :: CloseNotice(c, CLOSE_NORMAL_CLOSURE, "Room Dissolved"))
  }

  function DissolveRoom(s: State, c: Xid): Outcome {
    var r := Lookup(s, c);
    if r == UNNAMED then Fail(s, "you are not in a room")
    else if r !in s.rooms then Fail(s, "room does not exist")
    else
      var users := s.rooms[r].users;
      if c !in users then Fail(s, "you are not in this room")
      else if !users[c].owner then Fail(s, "only the room owner can dissolve the room")
      else Fine(CloseRoom(Say(s.(connected := s.connected - users.Keys), DissolvePhase(users)), r))
  }

  function Connect(s: State, c: Xid): State {
    s.(connected := s.connected[c := UNNAMED], seen := s.seen + {c})
  }

  ghost function Execute(s: State, info: ClientInfo, e: Event, ch: Choice): Outcome {
    match e
    case Connected => Fine(Connect(s, info.id))
    case Disconnected(code, reason) => Fine(Disconnect(s, info.id, code, reason, ch.heir))
    case Create(_, _, _, _, _) => CreateRoom(s, info, e, ch)
    case Join(id, userName) => JoinRoom(s, info, id, userName, ch)
    case Name(userName) => SetName(s, info.id, userName)
    case Share => StartShare(s, info.id, ch)
    case StopShare => EndSharing(s, info.id)
    case HostOffer(sid, value) => Forward(s, info.id, OfferFromHost, sid, value)
    case HostIce(sid, value) => Forward(s, info.id, IceFromHost, sid, value)
    case ClientAnswer(sid, value) => Forward(s, info.id, AnswerFromClient, sid, value)
    case ClientIce(sid, value) => Forward(s, info.id, IceFromClient, sid, value)
    case OwnerAction(action, target) => Govern(s, info.id, action, target)
    case Exit => Fine(Disconnect(s, info.id, CLOSE_NORMAL_CLOSURE, "User Left", ch.heir))
    case Dissolve => DissolveRoom(s, info.id)
  }

  /** The loop ignores messages of clients it does not know. */
  predicate Accepted(s: State, m: ClientMessage) { m.skipConnectedCheck || m.info.id in s.connected }

  /** One iteration of the event loop. */
  ghost function Apply(s: State, m: ClientMessage, ch: Choice): State {
    if !Accepted(s, m) then s
    else
      var outcome := Execute(s, m.info, m.incoming, ch);
      match outcome.verdict
      case Done => outcome.state
      case Panicked => outcome.state
      case Failed(reason) => Disconnect(outcome.state, m.info.id, CLOSE_NORMAL_CLOSURE, reason, ch.heir)
  }

  // ---- Which choices the program can make ----

  /** The grants open exactly one session per pair, under identifiers never used before. */
  ghost predicate Covers(grants: seq<Grant>, pairs: set<Session>, issued: map<Xid, Issue>) {
    && FreshGrants(grants, issued)
    && (forall i :: 0 <= i < |grants| ==> PairOf(grants[i]) in pairs)
    && (forall p :: p in pairs ==> exists i :: 0 <= i < |grants| && PairOf(grants[i]) == p)
    && (forall i, j :: 0 <= i < j < |grants| ==> PairOf(grants[i]) != PairOf(grants[j]))
  }

  function PairOf(g: Grant): Session { Session(g.host, g.client) }

  ghost predicate FreshGrants(grants: seq<Grant>, issued: map<Xid, Issue>) {
    && (forall i :: 0 <= i < |grants| ==> grants[i].id !in issued)
    && (forall i, j :: 0 <= i < j < |grants| ==> grants[i].id != grants[j].id)
  }

  function SharePairs(users: map<Xid, User>, c: Xid): set<Session> {
    set u | u in users && u != c :: Session(c, u)
  }

  function JoinPairs(users: map<Xid, User>, c: Xid): set<Session> {
    set u | u in users && u != c && users[u].streaming :: Session(u, c)
  }

  /** The pairs for which executing `e` opens a session. */
  function PairsToOpen(s: State, info: ClientInfo, e: Event, ch: Choice): set<Session> {
    if !ch.ipOk then {}
    else if e.Share? && ShareError(s, info.id).None? then SharePairs(s.rooms[s.connected[info.id]].users, info.id)
    else if (e.Join? || (e.Create? && e.id in s.rooms && e.joinIfExist)) && JoinError(s, info, e.id).None?
    then JoinPairs(s.rooms[e.id].users, info.id)
    else {}
  }

  /** The members who could inherit the sender's room. */
  function Heirs(s: State, c: Xid): set<Xid> {
    if InRoom(s, c) then s.rooms[Lookup(s, c)].users.Keys - {c} else {}
  }

  /**
   The messages and choices that can occur: `Connected` is the one message that
   skips the check and comes once per client; the choice opens the sessions the
   event opens; an heir is a remaining member.
   */
  ghost predicate Enabled(s: State, m: ClientMessage, ch: Choice) {
    && (m.skipConnectedCheck <==> m.incoming.Connected?)
    && (m.incoming.Connected? ==> m.info.id !in s.seen)
    && Covers(ch.grants, PairsToOpen(s, m.info, m.incoming, ch), s.issued)
    && (Heirs(s, m.info.id) != {} ==> ch.heir in Heirs(s, m.info.id))
  }

  function Initial(authMode: string): State {
    State(map[], map[], map[], Metrics(0, 0, 0, 0, 0, 0), authMode, {}, map[], 0, [])
  }
}
