/**
 The values the room server works on: clients, users, sessions, rooms, the TURN
 credential table, incoming events and outgoing messages, and the whole server
 state as one value.  The classes in Server.dfy hold the same data in mutable
 fields; `State` is what they are abstracted to.
 */
module Types {

  datatype Option<+T> = None | Some(value: T)

  /** A globally unique identifier, represented by its string form. */
  datatype Xid = Xid(text: string)

  /** The name of a room, chosen by whoever creates it. */
  datatype RoomId = RoomId(text: string)

  /** The empty name, which in `connected` also means "in no room". */
  const UNNAMED := RoomId("")

  const CONNECTION_LOCAL := "local"
  const CONNECTION_STUN := "stun"
  const CONNECTION_TURN := "turn"

  const AUTH_MODE_TURN := "turn"
  const AUTH_MODE_ALL := "all"
  const AUTH_MODE_NONE := "none"

  /** Close code 1000, section 7.4.1 of RFC 6455. */
  const CLOSE_NORMAL_CLOSURE := 1000

  const REALM := "screego"

  // ---- Rooms ----

  datatype Session = Session(host: Xid, client: Xid)

  /** `addr` is the printed form of the address, which is also the key of the ban list. */
  datatype User = User(id: Xid, addr: string, name: string, streaming: bool, owner: bool, canShare: bool)

  datatype Room = Room(
    id: RoomId,
    closeOnOwnerLeave: bool,
    mode: string,
    users: map<Xid, User>,
    sessions: map<Xid, Session>,
    banned: set<string>)

  // ---- TURN credentials ----

  /** The long-term key of section 15.4 of RFC 5389, kept symbolic instead of hashed. */
  datatype AuthKey = AuthKey(username: string, realm: string, password: string)

  datatype Entry = Entry(addr: string, password: AuthKey)

  // ---- Incoming ----

  datatype ClientInfo = ClientInfo(id: Xid, authenticated: bool, authenticatedUser: string, addr: string)

  /** The `targetUserId` string of an owner action after parsing. */
  datatype Target = NoTarget | Unparsable | Target(id: Xid)

  datatype Event =
    | Connected
    | Disconnected(code: int, reason: string)
    | Create(id: RoomId, mode: string, closeOnOwnerLeave: bool, userName: string, joinIfExist: bool)
    | Join(id: RoomId, userName: string)
    | Name(userName: string)
    | Share
    | StopShare
    | HostOffer(sid: Xid, value: string)
    | HostIce(sid: Xid, value: string)
    | ClientAnswer(sid: Xid, value: string)
    | ClientIce(sid: Xid, value: string)
    | OwnerAction(action: string, target: Target)
    | Exit
    | Dissolve

  datatype ClientMessage = ClientMessage(info: ClientInfo, skipConnectedCheck: bool, incoming: Event)

  // ---- Outgoing ----

  datatype IceServers = NoServers | Stun | Turn(username: string, credential: string)

  datatype RelayKind = OfferFromHost | IceFromHost | AnswerFromClient | IceFromClient

  /** What a member learns about another member: everything but the address. */
  datatype UserInfo = UserInfo(id: Xid, name: string, streaming: bool, owner: bool, canShare: bool)

  datatype Message =
    | Roster(room: RoomId, you: Xid, members: set<UserInfo>)
    | HostSession(id: Xid, peer: Xid, ice: IceServers)
    | ClientSession(id: Xid, peer: Xid, ice: IceServers)
    | Relay(kind: RelayKind, sid: Xid, value: string)
    | EndShare(id: Xid)
    | CloseWriter(code: int, reason: string)

  datatype Delivery = Delivery(to: Xid, message: Message)

  // ---- The server ----

  datatype Metrics = Metrics(
    roomsCreated: int, roomsClosed: int,
    usersJoined: int, usersLeft: int,
    sessionsCreated: int, sessionsClosed: int)

  /** A session the server opens, with the passwords it hands out for it. */
  datatype Grant = Grant(id: Xid, host: Xid, client: Xid, hostPassword: string, clientPassword: string)

  datatype Issue = Issue(room: RoomId, mode: string, grant: Grant)

  /**
   `connected`, `rooms`, `turn` and `metrics` are the server's own data.  `seen`
   (every client that ever connected), `issued` (every session ever opened), `rejoined`
   (how often a client joined a room that lists it already) and `log` (every message
   sent) are history.  One element of `log` is what one
   source loop, or one single send, wrote: inside it the order is the unspecified
   iteration order of a Go map.
   */
  datatype State = State(
    connected: map<Xid, RoomId>,
    rooms: map<RoomId, Room>,
    turn: map<string, Entry>,
    metrics: Metrics,
    authMode: string,
    seen: set<Xid>,
    issued: map<Xid, Issue>,
    rejoined: nat,
    log: seq<multiset<Delivery>>)

  /**
   What the program does not determine during one step: whether the IP provider
   answers, who inherits a room (map iteration order), a random user name, and
   the sessions that are opened, in the order of the loop that opens them.
   */
  datatype Choice = Choice(ipOk: bool, heir: Xid, randomName: string, grants: seq<Grant>)
}
