/**
 The rules of the server, said of its data and messages alone: who is where, who may do
 what and why not, who has to go, and what has to be sent to whom.  Nothing here refers to
 how an event is carried out; the files after this one prove that every event keeps the rules.
 */
module Rules {
  import opened Types

  // ---- Where a client is ----

  /** `c` is in room `r`; the empty name is no room. */
  predicate LivesIn(s: State, c: Xid, r: RoomId) {
    c in s.connected && s.connected[c] == r && r != RoomId("") && r in s.rooms && c in s.rooms[r].users
  }

  predicate Owns(s: State, c: Xid, r: RoomId) { LivesIn(s, c, r) && s.rooms[r].users[c].owner }

  /** `c` is connected and in no room. */
  predicate Outside(s: State, c: Xid) { c in s.connected && s.connected[c] == RoomId("") }

  // ---- Founding and entering rooms ----

  predicate MayFound(authMode: string, loggedIn: bool, mode: string) {
    || authMode == "none"
    || (authMode == "all" && loggedIn)
    || (authMode == "turn" && (loggedIn || mode == "stun" || mode == "local"))
  }

  /** The message opens a new room. */
  predicate Founds(s: State, m: ClientMessage) {
    && Outside(s, m.info.id) && m.incoming.Create? && m.incoming.id !in s.rooms
    && MayFound(s.authMode, m.info.authenticated, m.incoming.mode)
  }

  /** The message adds its sender to an existing room. */
  predicate Enters(s: State, m: ClientMessage) {
    && Outside(s, m.info.id) && (m.incoming.Join? || (m.incoming.Create? && m.incoming.joinIfExist))
    && m.incoming.id in s.rooms && m.info.addr !in s.rooms[m.incoming.id].banned
  }

  /** The message makes its sender a member of a room. */
  predicate Joins(s: State, m: ClientMessage) { Founds(s, m) || Enters(s, m) }

  /** The sender joins the unnamed room. */
  predicate EntersUnnamed(s: State, m: ClientMessage) { Enters(s, m) && m.incoming.id == RoomId("") }

  /** It is listed there already. */
  predicate Rejoins(s: State, m: ClientMessage) {
    EntersUnnamed(s, m) && m.info.id in s.rooms[RoomId("")].users
  }

  predicate OwnerRejoins(s: State, m: ClientMessage) {
    Rejoins(s, m) && s.rooms[RoomId("")].users[m.info.id].owner
  }

  /** The name of the login, else the name asked for, else a random one. */
  predicate IsNameFor(name: string, info: ClientInfo, userName: string, randomName: string) {
    var wanted := if info.authenticated then info.authenticatedUser else userName;
    if wanted != "" then name == wanted else name == randomName
  }

  predicate IsNewMember(user: User, info: ClientInfo, userName: string, randomName: string, owner: bool) {
    && user.id == info.id && user.addr == info.addr && IsNameFor(user.name, info, userName, randomName)
    && user.owner == owner && !user.streaming && user.canShare
  }

  // ---- Refusals ----

  /** Why the event of a connected client is refused, if it is; `ipOk` says whether the IP provider answers. */
  function Refusal(s: State, m: ClientMessage, ipOk: bool): Option<string>
    requires m.info.id in s.connected
  {
    var c, e := m.info.id, m.incoming;
    var r := s.connected[c];
    if e.Connected? || e.Disconnected? || e.Exit? then None
    else if e.Join? || e.Create? then
      if r != RoomId("") then Some("cannot join room, you are already in one")
      else AdmissionRefusal(s, m.info, e, ipOk)
    else if !LivesIn(s, c, r) then Some(if e.Dissolve? then "you are not in a room" else "not in a room")
    else MemberRefusal(s.rooms[r], c, e, ipOk)
  }

  function AdmissionRefusal(s: State, info: ClientInfo, e: Event, ipOk: bool): Option<string>
    requires e.Join? || e.Create?
  {
    if e.id in s.rooms then
      if e.Create? && !e.joinIfExist then Some("room with id " + e.id.text + " does already exist")
      else if info.addr in s.rooms[e.id].banned then Some("bannedFromRoom")
      else if !ipOk then Some("ip provider")
      else None
    else if e.Join? then Some("room with id " + e.id.text + " does not exist")
    else if MayFound(s.authMode, info.authenticated, e.mode) then None
    else if s.authMode == "all" || s.authMode == "turn" then Some("you need to login")
    else Some("invalid authmode:" + s.authMode)
  }

  predicate AnotherStreams(room: Room, c: Xid) { exists u :: u in room.users && u != c && room.users[u].streaming }

  function MemberRefusal(room: Room, c: Xid, e: Event, ipOk: bool): Option<string>
    requires c in room.users
  {
    match e
    case Share =>
      if !room.users[c].canShare then Some("you do not have permission to share screen")
      else if AnotherStreams(room, c) then Some("another user is already sharing screen")
      else if !ipOk then Some("ip provider")
      else None
    case HostOffer(sid, _) => SignalRefusal(sid, sid in room.sessions && room.sessions[sid].host != c)
    case HostIce(sid, _) => SignalRefusal(sid, sid in room.sessions && room.sessions[sid].host != c)
    case ClientAnswer(sid, _) => SignalRefusal(sid, sid in room.sessions && room.sessions[sid].client != c)
    case ClientIce(sid, _) => SignalRefusal(sid, sid in room.sessions && room.sessions[sid].client != c)
    case OwnerAction(action, target) =>
      if !room.users[c].owner then Some("only owner can perform this action")
      else ActionRefusal(room.users.Keys, c, action, target)
    case Dissolve => if !room.users[c].owner then Some("only the room owner can dissolve the room") else None
    case _ => None
  }

  /** A session that is not there is no reason: the message is just ignored. */
  function SignalRefusal(sid: Xid, foreign: bool): Option<string> {
    if foreign then Some("permission denied for session " + sid.text) else None
  }

  function ActionRefusal(members: set<Xid>, c: Xid, action: string, target: Target): Option<string> {
    if action == "enable_all" || action == "disable_all" then None
    else if target == NoTarget then Some("targetUserId is required for individual actions")
    else if target == Unparsable then Some("invalid user ID")
    else if target.id !in members then Some("user not found")
    else if target.id == c then Some("cannot perform action on yourself")
    else if action == "stop_share" || action == "toggle_share_permission" || action == "kick" || action == "ban" then None
    else Some("unknown action: " + action)
  }

  // ---- Who has to go ----

  /** The clients that a message makes leave. */
  function Departing(s: State, m: ClientMessage, ipOk: bool): set<Xid> {
    var c, e := m.info.id, m.incoming;
    if c !in s.connected then {}
    else if Refusal(s, m, ipOk).Some? || e.Disconnected? || e.Exit? then {c}
    else if e.Dissolve? && LivesIn(s, c, s.connected[c]) then s.rooms[s.connected[c]].users.Keys
    else if e.OwnerAction? && (e.action == "kick" || e.action == "ban") && e.target.Target? then {e.target.id}
    else {}
  }

  /** What they are told. */
  function Word(s: State, m: ClientMessage, ipOk: bool): Message
    requires m.info.id in s.connected
  {
    var refusal := Refusal(s, m, ipOk);
    if refusal.Some? then CloseWriter(1000, refusal.value)
    else match m.incoming
      case Disconnected(code, reason) => CloseWriter(code, reason)
      case Dissolve => CloseWriter(1000, "Room Dissolved")
      case OwnerAction(action, _) => CloseWriter(1000, if action == "kick" then "kickedByOwner" else "bannedByOwner")
      case _ => CloseWriter(1000, "User Left")
  }

  /** The owner of room `r` bans member `u`. */
  predicate Bans(s: State, m: ClientMessage, r: RoomId, u: Xid) {
    && Owns(s, m.info.id, r) && m.incoming.OwnerAction? && m.incoming.action == "ban" && m.incoming.target == Target(u)
    && u in s.rooms[r].users && u != m.info.id
  }

  /** The addresses a message adds to the bans of room `r`. */
  function NewBans(s: State, m: ClientMessage, r: RoomId): set<string> {
    if m.incoming.OwnerAction? && m.incoming.target.Target? && Bans(s, m, r, m.incoming.target.id)
    then {s.rooms[r].users[m.incoming.target.id].addr}
    else {}
  }

  // ---- What has to be sent ----

  /** `d` passes the signalling message on: from the right end of a session in the sender's room to the other. */
  predicate RelayDue(s: State, m: ClientMessage, d: Delivery) {
    var c, e := m.info.id, m.incoming;
    && (e.HostOffer? || e.HostIce? || e.ClientAnswer? || e.ClientIce?)
    && c in s.connected && LivesIn(s, c, s.connected[c])
    && e.sid in s.rooms[s.connected[c]].sessions
    && var session := s.rooms[s.connected[c]].sessions[e.sid];
       if e.HostOffer? || e.HostIce? then
         && c == session.host && d.to == session.client
         && d.message == Relay(if e.HostOffer? then OfferFromHost else IceFromHost, e.sid, e.value)
       else
         && c == session.client && d.to == session.host
         && d.message == Relay(if e.ClientAnswer? then AnswerFromClient else IceFromClient, e.sid, e.value)
  }

  /** `d` tells the other end of a session that it is over, because the sender leaves or stops sharing. */
  predicate EndShareDue(s: State, m: ClientMessage, ipOk: bool, d: Delivery) {
    var c, e := m.info.id, m.incoming;
    && c in s.connected && LivesIn(s, c, s.connected[c]) && d.message.EndShare?
    && d.message.id in s.rooms[s.connected[c]].sessions
    && var session := s.rooms[s.connected[c]].sessions[d.message.id];
       if Refusal(s, m, ipOk).Some? || e.Disconnected? || e.Exit? then
         (c == session.host && d.to == session.client) || (c == session.client && d.to == session.host)
       else e.StopShare? && c == session.host && d.to == session.client
  }

  predicate Describes(entry: UserInfo, user: User) {
    && entry.id == user.id && entry.name == user.name
    && entry.streaming == user.streaming && entry.owner == user.owner && entry.canShare == user.canShare
  }

  /** One entry for each member, which says of it what is so. */
  ghost predicate Lists(members: set<UserInfo>, users: map<Xid, User>) {
    && (forall entry :: entry in members ==> entry.id in users && Describes(entry, users[entry.id]))
    && (forall u :: u in users ==> exists entry :: entry in members && entry.id == u)
    && (forall a, b :: a in members && b in members && a.id == b.id ==> a == b)
  }

  /** Each member, and nobody else, is sent the list of room `r`, once, marked as its own. */
  ghost predicate Shown(phase: multiset<Delivery>, r: RoomId, users: map<Xid, User>) {
    && (forall d :: d in phase ==>
          && d.to in users && phase[d] == 1
          && d.message.Roster? && d.message.room == r && d.message.you == d.to
          && Lists(d.message.members, users))
    && (forall u :: u in users ==> exists d :: d in phase && d.to == u)
    && (forall a, b :: a in phase && b in phase && a.to == b.to ==> a == b)
  }

  /** How often a message has the list of room `r` sent round. */
  function ListsDue(s: State, m: ClientMessage, ipOk: bool, r: RoomId): nat {
    var c, e := m.info.id, m.incoming;
    if c !in s.connected then 0
    else if Founds(s, m) then if e.id == r then 1 else 0
    else if Enters(s, m) then if e.id != r then 0 else if ipOk || r == RoomId("") then 1 else 2
    else if !LivesIn(s, c, r) then 0
    else if Refusal(s, m, ipOk).Some? || e.Exit? || e.Disconnected? then if s.rooms[r].users.Keys == {c} then 0 else 1
    else if e.OwnerAction? then if StopsNothing(s.rooms[r], e.action, e.target) then 0 else 1
    else if e.Name? || e.Share? || e.StopShare? then 1
    else 0
  }

  /** The stream of a member that does not stream is to be stopped. */
  predicate StopsNothing(room: Room, action: string, target: Target) {
    action == "stop_share" && target.Target? && target.id in room.users && !room.users[target.id].streaming
  }

  // ---- Sessions ----

  /** A session is due in room `r`: from who starts to share to each other member, or from who streams to a newcomer. */
  predicate SessionDue(s: State, m: ClientMessage, ipOk: bool, r: RoomId, session: Session) {
    var c, e := m.info.id, m.incoming;
    && c in s.connected && Refusal(s, m, ipOk).None? && r in s.rooms && session.host != session.client
    && if e.Share? then LivesIn(s, c, r) && session.host == c && session.client in s.rooms[r].users
       else
         && Enters(s, m) && e.id == r && session.client == c
         && session.host in s.rooms[r].users && s.rooms[r].users[session.host].streaming
  }

  /** What was there before and is there after is the same; what is new is due; and what is due is there, once. */
  ghost predicate OpensRightly(before: map<Xid, Session>, after: map<Xid, Session>, due: Session -> bool) {
    && (forall id :: id in before && id in after ==> after[id] == before[id])
    && (forall id :: id in after && id !in before ==> due(after[id]))
    && (forall session :: due(session) ==> exists id :: id in after && id !in before && after[id] == session)
    && (forall a, b :: a in after && b in after && a !in before && b !in before && after[a] == after[b] ==> a == b)
  }

  /** One of its ends is gone, or its host does not stream. */
  predicate IsOver(session: Session, users: map<Xid, User>) {
    session.host !in users || session.client !in users || !users[session.host].streaming
  }

  predicate Announces(d: Delivery, id: Xid) {
    (d.message.HostSession? || d.message.ClientSession?) && d.message.id == id
  }

  /** The servers to use, by the mode of the room; in TURN mode under the username of that end. */
  predicate RightServers(d: Delivery, mode: string)
    requires d.message.HostSession? || d.message.ClientSession?
  {
    var ice := d.message.ice;
    && (ice.Stun? <==> mode == "stun")
    && (ice.Turn? <==> mode == "turn")
    && (ice.Turn? ==> ice.username == d.message.id.text + if d.message.HostSession? then "host" else "client")
  }

  /** Session `id` was announced by `toHost` and `toClient` and nothing else, once each, with the right servers. */
  ghost predicate AnnouncedBy(sent: multiset<Delivery>, id: Xid, mode: string, toHost: Delivery, toClient: Delivery) {
    && toHost.message.HostSession? && toClient.message.ClientSession?
    && toHost.message.id == id && toClient.message.id == id
    && toHost.message.peer == toClient.to && toClient.message.peer == toHost.to
    && sent[toHost] == 1 && sent[toClient] == 1
    && RightServers(toHost, mode) && RightServers(toClient, mode)
    && (forall d :: d in sent && Announces(d, id) ==> d == toHost || d == toClient)
  }

  /** The TURN server accepts what `d` handed out, for the address of the member it was sent to. */
  predicate Works(turn: map<string, Entry>, users: map<Xid, User>, d: Delivery) {
    && (d.message.HostSession? || d.message.ClientSession?) && d.message.ice.Turn?
    && var ice := d.message.ice;
       && d.to in users && ice.username in turn
       && turn[ice.username] == Entry(users[d.to].addr, AuthKey(ice.username, "screego", ice.credential))
  }

  /** The live session `id` of `room` has reached its two ends. */
  predicate Reached(turn: map<string, Entry>, room: Room, id: Xid, toHost: Delivery, toClient: Delivery)
    requires id in room.sessions
  {
    && room.sessions[id] == Session(toHost.to, toClient.to)
    && (room.mode == "turn" ==> Works(turn, room.users, toHost) && Works(turn, room.users, toClient))
  }
}
