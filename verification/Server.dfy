/**
 The program: the TURN credential table, a room, and the event loop with its events,
 as objects whose methods change fields in place.  Each method is proved to compute the
 function of the same purpose in RoomModel, for every iteration order of its loops.
 */
module Server {
  import M = RoomModel
  import R = Runs
  import opened Types
  import opened RoomModel
  import opened Invariant
  import opened Events
  import opened Safety
  import opened Refinement

  /** The table behind the long-term credential lookup of the TURN server. */
  class InternalServer {
    var lookup: map<string, Entry>

    constructor ()
      ensures lookup == map[]
    {
      lookup := map[];
    }

    method Allow(username: string, password: string, addr: string)
      modifies this
      ensures lookup == old(lookup)[username := Entry(addr, AuthKey(username, "screego", password))]
    {
      lookup := lookup[username := Entry(addr, AuthKey(username, REALM, password))];
    }

    method Disallow(username: string)
      modifies this
      ensures lookup == old(lookup) - {username}
    {
      lookup := lookup - {username};
    }

    /** Both names of a session. */
    method DisallowSession(id: Xid)
      modifies this
      ensures lookup == old(lookup) - HostNames({id}) - ClientNames({id})
    {
      Disallow(id.text + "host");
      Disallow(id.text + "client");
      OneName(id);
    }

    method Authenticate(username: string) returns (key: Option<AuthKey>)
      ensures key.Some? <==> username in lookup
      ensures key.Some? ==> key.value == lookup[username].password
    {
      if username !in lookup {
        return None;
      }
      return Some(lookup[username].password);
    }

    /** The password is random: any string. */
    method Credentials(id: string, addr: string) returns (username: string, password: string)
      modifies this
      ensures username == id
      ensures lookup == old(lookup)[id := Entry(addr, AuthKey(id, "screego", password))]
    {
      password := *;
      Allow(id, password, addr);
      username := id;
    }
  }

  class Room {
    const id: RoomId
    const closeOnOwnerLeave: bool
    const mode: string
    var users: map<Xid, User>
    var sessions: map<Xid, Session>
    var banned: set<string>

    ghost function Value(): Types.Room
      reads this
    {
      Types.Room(id, closeOnOwnerLeave, mode, users, sessions, banned)
    }

    constructor (id: RoomId, closeOnOwnerLeave: bool, mode: string, owner: User)
      ensures Value() == Types.Room(id, closeOnOwnerLeave, mode, map[owner.id := owner], map[], {})
    {
      this.id, this.closeOnOwnerLeave, this.mode := id, closeOnOwnerLeave, mode;
      users, sessions, banned := map[owner.id := owner], map[], {};
    }

    method Ban(addr: string)
      modifies this
      ensures Value() == old(Value()).(banned := old(banned) + {addr})
    {
      banned := banned + {addr};
    }

    /** What every member is sent after a change: the members, marked from its own point of view. */
    method Rosters() returns (phase: multiset<Delivery>)
      ensures phase == RosterPhase(Value())
    {
      phase := multiset{};
      var todo := users.Keys;
      while todo != {}
        invariant todo <= users.Keys
        invariant phase == multiset(set c | c in users && c !in todo :: RosterFor(Value(), c))
        decreases todo
      {
        var current :| current in todo;
        var infos: set<UserInfo> := {};
        var rest := users.Keys;
        while rest != {}
          invariant rest <= users.Keys
          invariant infos == set c | c in users && c !in rest :: Info(users[c])
          decreases rest
        {
          var u :| u in rest;
          infos := infos + {Info(users[u])};
          rest := rest - {u};
        }
        assert infos == Infos(users);
        OneMoreRoster(Value(), todo, current);
        phase := phase + multiset{Delivery(current, Roster(id, current, infos))};
        todo := todo - {current};
      }
      assert (set c | c in users && c !in todo :: RosterFor(Value(), c)) == (set c | c in users :: RosterFor(Value(), c));
    }
  }

  predicate NoLoops(sessions: map<Xid, Session>) {
    forall id :: id in sessions ==> sessions[id].host != sessions[id].client
  }

  /** How a method that returns an error ended, in the terms of RoomModel. */
  function Ended(s: State, error: Option<string>): Outcome {
    Outcome(s, if error.Some? then Failed(error.value) else Done)
  }

  class Rooms {
    const turnServer: InternalServer
    const authMode: string
    var connected: map<Xid, RoomId>
    var rooms: map<RoomId, Room>
    var metrics: Metrics
    var outbox: seq<multiset<Delivery>>
    /** Every identifier generated so far; generated identifiers are unique. */
    var generated: set<Xid>
    ghost var model: map<RoomId, Types.Room>
    ghost var seen: set<Xid>
    ghost var issued: map<Xid, Issue>
    ghost var rejoined: nat

    ghost predicate Valid()
      reads this, rooms.Values
    {
      Synced() && issued.Keys <= generated
    }

    /** Room objects are stored under their own names, and `model` holds their values. */
    ghost predicate Synced()
      reads this`rooms, this`model, rooms.Values
    {
      model.Keys == rooms.Keys && forall r :: r in rooms ==> rooms[r].id == r && model[r] == rooms[r].Value()
    }

    /** What the concrete fields say about a room is what `View` says about it. */
    lemma At(r: RoomId)
      requires Valid()
      ensures r in model <==> r in rooms
      ensures r in rooms ==> model[r] == rooms[r].Value()
    {}

    lemma SameSessionsHere(r: RoomId)
      requires r in rooms && r in model && model[r] == rooms[r].Value()
      ensures model[r].sessions == rooms[r].sessions && model[r].users == rooms[r].users
    {}

    ghost function View(): State
      reads this, turnServer
    {
      State(connected, model, turnServer.lookup, metrics, authMode, seen, issued, rejoined, outbox)
    }

    constructor (authMode: string, turnServer: InternalServer)
      requires turnServer.lookup == map[]
      ensures Valid() && this.turnServer == turnServer
      ensures View() == Initial(authMode)
      ensures rooms == map[]
    {
      this.turnServer, this.authMode := turnServer, authMode;
      connected, rooms, metrics, outbox := map[], map[], Metrics(0, 0, 0, 0, 0, 0), [];
      generated, model, seen, issued, rejoined := {}, map[], {}, map[], 0;
    }

    // ---- Elementary changes ----

    method Send(phase: multiset<Delivery>)
      requires Valid()
      modifies this`outbox
      ensures Valid() && View() == Say(old(View()), phase)
    {
      outbox := outbox + [phase];
    }

    method NotifyInfoChanged(r: RoomId)
      requires Valid() && r in rooms
      modifies this`outbox
      ensures Valid() && View() == Notify(old(View()), r)
    {
      var phase := rooms[r].Rosters();
      Send(phase);
    }

    method Forget(c: Xid)
      requires Valid()
      modifies this`connected
      ensures Valid() && View() == old(View()).(connected := old(connected) - {c})
    {
      connected := connected - {c};
    }

    method PutUsers(r: RoomId, users: map<Xid, User>)
      requires Valid() && r in rooms
      modifies this`model, rooms[r]
      ensures Valid() && View() == SetUsers(old(View()), r, users)
      ensures rooms[r].users == users && rooms[r].sessions == old(rooms[r].sessions)
    {
      var room := rooms[r];
      room.users := users;
      model := model[r := room.Value()];
    }

    method PutSessions(r: RoomId, sessions: map<Xid, Session>)
      requires Valid() && r in rooms
      modifies this`model, rooms[r]
      ensures Valid() && rooms[r].users == old(rooms[r].users) && rooms[r].sessions == sessions
      ensures r in old(model) && model[r] == rooms[r].Value()
      ensures View() == old(View()).(rooms := old(model)[r := old(model)[r].(sessions := sessions)])
    {
      var room := rooms[r];
      room.sessions := sessions;
      model := model[r := room.Value()];
    }

    method NewXid() returns (id: Xid)
      requires Valid()
      modifies this`generated
      ensures Valid() && id !in old(generated) && generated == old(generated) + {id}
    {
      FreshXid(generated);
      id :| id !in generated;
      generated := generated + {id};
    }

    method CloseSession(r: RoomId, id: Xid)
      requires Valid() && r in rooms
      modifies this`model, this`metrics, rooms[r], turnServer
      ensures Valid() && View() == CloseSessions(old(View()), r, {id})
      ensures rooms[r].users == old(rooms[r].users) && rooms[r].sessions == old(rooms[r].sessions) - {id}
    {
      hide Synced;
      At(r);
      var room := rooms[r];
      if room.mode == CONNECTION_TURN {
        turnServer.DisallowSession(id);
      }
      PutSessions(r, room.sessions - {id});
      metrics := metrics.(sessionsClosed := metrics.sessionsClosed + 1);
    }

    method NewSession(r: RoomId, host: Xid, client: Xid) returns (ghost g: Grant)
      requires Valid() && r in rooms
      requires host in rooms[r].users && client in rooms[r].users
      modifies this`model, this`metrics, this`issued, this`generated, this`outbox, rooms[r], turnServer
      ensures Valid() && View() == OpenSession(old(View()), r, g)
      ensures g.host == host && g.client == client && g.id !in old(generated) && g.id in generated
      ensures old(generated) <= generated && rooms[r].users == old(rooms[r].users)
    {
      hide Synced, Room.Value;
      var id := NewXid();
      AddSession(r, id, host, client);
      g := AnnounceSession(r, id, host, client);
    }

    /** Credentials and announcements for a session just added. */
    method AnnounceSession(r: RoomId, id: Xid, host: Xid, client: Xid) returns (ghost g: Grant)
      requires r in rooms && r in model && model[r] == rooms[r].Value()
      requires host in rooms[r].users && client in rooms[r].users
      modifies this`issued, this`outbox, turnServer
      ensures g.id == id && g.host == host && g.client == client
      ensures View() == old(View()).(
                turn := Allowed(old(turnServer.lookup), model[r].mode, model[r].users, g),
                issued := old(issued)[id := Issue(model[r].id, model[r].mode, g)],
                log := old(outbox) + [multiset{HostNotice(model[r].mode, g)}] + [multiset{ClientNotice(model[r].mode, g)}])
    {
      var room := rooms[r];
      var iceHost, iceClient;
      iceHost, iceClient, g :=
        IceServersFor(room.mode, id, host, client, room.users[host].addr, room.users[client].addr);
      outbox := outbox + [multiset{Delivery(host, HostSession(id, client, iceHost))}];
      outbox := outbox + [multiset{Delivery(client, ClientSession(id, host, iceClient))}];
      issued := issued[id := Issue(room.id, room.mode, g)];
    }

    method AddSession(r: RoomId, id: Xid, host: Xid, client: Xid)
      requires Valid() && r in rooms
      modifies this`model, this`metrics, rooms[r]
      ensures Valid() && rooms[r].users == old(rooms[r].users) && model[r] == rooms[r].Value()
      ensures View() == old(View()).(
                rooms := old(model)[r := old(model)[r].(sessions := old(model)[r].sessions[id := Session(host, client)])],
                metrics := old(metrics).(sessionsCreated := old(metrics).sessionsCreated + 1))
    {
      hide Synced, Room.Value;
      At(r);
      SameSessionsHere(r);
      PutSessions(r, rooms[r].sessions[id := Session(host, client)]);
      metrics := metrics.(sessionsCreated := metrics.sessionsCreated + 1);
    }

    /** The servers either end is told to use; in TURN mode with credentials the TURN server now knows. */
    method IceServersFor(mode: string, id: Xid, host: Xid, client: Xid, hostAddr: string, clientAddr: string)
      returns (iceHost: IceServers, iceClient: IceServers, ghost g: Grant)
      modifies turnServer
      ensures g.id == id && g.host == host && g.client == client
      ensures iceHost == HostIceServers(mode, g) && iceClient == ClientIceServers(mode, g)
      ensures turnServer.lookup ==
              if mode == CONNECTION_TURN
              then old(turnServer.lookup)[HostName(id) := MakeEntry(HostName(id), hostAddr, g.hostPassword)]
                   [ClientName(id) := MakeEntry(ClientName(id), clientAddr, g.clientPassword)]
              else old(turnServer.lookup)
    {
      var hostPassword, clientPassword := "", "";
      iceHost, iceClient := NoServers, NoServers;
      if mode == CONNECTION_LOCAL {
      } else if mode == CONNECTION_STUN {
        iceHost, iceClient := Stun, Stun;
      } else if mode == CONNECTION_TURN {
        var hostName, clientName;
        hostName, hostPassword := turnServer.Credentials(id.text + "host", hostAddr);
        clientName, clientPassword := turnServer.Credentials(id.text + "client", clientAddr);
        iceHost, iceClient := Turn(hostName, hostPassword), Turn(clientName, clientPassword);
      }
      g := Grant(id, host, client, hostPassword, clientPassword);
    }

    // ---- Closing loops ----

    /** The sessions `t` hosts, without notice. */
    method CloseHosted(r: RoomId, t: Xid)
      requires Valid() && r in rooms
      modifies this`model, this`metrics, rooms[r], turnServer
      ensures Valid() && View() == CloseSessions(old(View()), r, Hosted(old(rooms[r].sessions), t))
      ensures rooms[r].users == old(rooms[r].users)
      ensures rooms[r].sessions == old(rooms[r].sessions) - Hosted(old(rooms[r].sessions), t)
    {
      hide Synced, CloseSessions;
      At(r);
      ghost var s, sessions, done := View(), rooms[r].sessions, {};
      CloseNone(s, r);
      var todo := rooms[r].sessions.Keys;
      while todo != {}
        invariant Valid() && rooms[r].users == old(rooms[r].users)
        invariant todo <= sessions.Keys && done == Hosted(sessions, t) - todo
        invariant rooms[r].sessions == sessions - done
        invariant r in s.rooms && View() == CloseSessions(s, r, done)
        decreases todo
      {
        var id :| id in todo;
        if rooms[r].sessions[id].host == t {
          CloseSession(r, id);
          CloseMore(s, r, done, {id});
          done := done + {id};
        }
        todo := todo - {id};
      }
      assert done == Hosted(sessions, t);
    }

    /** The sessions that lead from or to `t`, without notice. */
    method CloseInvolving(r: RoomId, t: Xid)
      requires Valid() && r in rooms
      modifies this`model, this`metrics, rooms[r], turnServer
      ensures Valid() && View() == CloseSessions(old(View()), r, Involving(old(rooms[r].sessions), t))
      ensures rooms[r].users == old(rooms[r].users)
    {
      hide Synced, CloseSessions;
      At(r);
      ghost var s, sessions, done := View(), rooms[r].sessions, {};
      CloseNone(s, r);
      var todo := rooms[r].sessions.Keys;
      while todo != {}
        invariant Valid() && rooms[r].users == old(rooms[r].users)
        invariant todo <= sessions.Keys && done == Involving(sessions, t) - todo
        invariant rooms[r].sessions == sessions - done
        invariant r in s.rooms && View() == CloseSessions(s, r, done)
        decreases todo
      {
        var id :| id in todo;
        if rooms[r].sessions[id].host == t || rooms[r].sessions[id].client == t {
          CloseSession(r, id);
          CloseMore(s, r, done, {id});
          done := done + {id};
        }
        todo := todo - {id};
      }
      assert done == Involving(sessions, t);
    }

    /** The sessions `c` hosts; each other end that is still there is told. */
    method EndHosted(r: RoomId, c: Xid)
      requires Valid() && r in rooms
      modifies this`model, this`metrics, this`outbox, rooms[r], turnServer
      ensures Valid()
      ensures var users, sessions := old(rooms[r].users), old(rooms[r].sessions);
              var ids := Hosted(sessions, c);
              r in old(View()).rooms && View() == Say(CloseSessions(old(View()), r, ids), EndShares(users, sessions, ids, c))
    {
      hide Synced, CloseSessions, EndShares;
      At(r);
      ghost var s, sessions, done := View(), rooms[r].sessions, {};
      CloseNone(s, r);
      EndNone(rooms[r].users, sessions, c);
      var phase := multiset{};
      var todo := rooms[r].sessions.Keys;
      while todo != {}
        invariant Valid() && rooms[r].users == old(rooms[r].users) && outbox == old(outbox)
        invariant todo <= sessions.Keys && done == Hosted(sessions, c) - todo
        invariant rooms[r].sessions == sessions - done
        invariant r in s.rooms && View() == CloseSessions(s, r, done)
        invariant phase == EndShares(rooms[r].users, sessions, done, c)
        decreases todo
      {
        var id :| id in todo;
        var session := rooms[r].sessions[id];
        if session.host == c {
          EndOneMore(rooms[r].users, sessions, done, c, id);
          if session.client in rooms[r].users {
            phase := phase + multiset{Delivery(session.client, EndShare(id))};
          }
          CloseSession(r, id);
          CloseMore(s, r, done, {id});
          done := done + {id};
        }
        todo := todo - {id};
      }
      assert done == Hosted(sessions, c);
      Send(phase);
    }

    /** The sessions of a leaver that is no longer listed; each other end that is still there is told. */
    method EndInvolving(r: RoomId, c: Xid)
      requires Valid() && r in rooms && NoLoops(rooms[r].sessions)
      modifies this`model, this`metrics, this`outbox, rooms[r], turnServer
      ensures Valid()
      ensures var users, sessions := old(rooms[r].users), old(rooms[r].sessions);
              var ids := Involving(sessions, c);
              r in old(View()).rooms && View() == Say(CloseSessions(old(View()), r, ids), EndShares(users, sessions, ids, c))
      ensures rooms[r].users == old(rooms[r].users)
    {
      hide Synced, CloseSessions, EndShares;
      At(r);
      ghost var s, sessions, done := View(), rooms[r].sessions, {};
      CloseNone(s, r);
      EndNone(rooms[r].users, sessions, c);
      var phase := multiset{};
      var todo := rooms[r].sessions.Keys;
      while todo != {}
        invariant Valid() && rooms[r].users == old(rooms[r].users) && outbox == old(outbox)
        invariant todo <= sessions.Keys && done == Involving(sessions, c) - todo
        invariant rooms[r].sessions == sessions - done
        invariant r in s.rooms && View() == CloseSessions(s, r, done)
        invariant phase == EndShares(rooms[r].users, sessions, done, c)
        decreases todo
      {
        var id :| id in todo;
        var session := rooms[r].sessions[id];
        EndOneMore(rooms[r].users, sessions, done, c, id);
        if session.client == c {
          if session.host in rooms[r].users {
            phase := phase + multiset{Delivery(session.host, EndShare(id))};
          }
          CloseSession(r, id);
          CloseMore(s, r, done, {id});
          done := done + {id};
        }
        if session.host == c {
          if session.client in rooms[r].users {
            phase := phase + multiset{Delivery(session.client, EndShare(id))};
          }
          CloseSession(r, id);
          CloseMore(s, r, done, {id});
          done := done + {id};
        }
        todo := todo - {id};
      }
      assert done == Involving(sessions, c);
      Send(phase);
    }

    method CloseAll(r: RoomId)
      requires Valid() && r in rooms
      modifies this`model, this`metrics, rooms[r], turnServer
      ensures Valid() && View() == CloseSessions(old(View()), r, old(rooms[r].sessions).Keys)
    {
      hide Synced, CloseSessions;
      At(r);
      ghost var s, sessions, done := View(), rooms[r].sessions, {};
      CloseNone(s, r);
      var todo := rooms[r].sessions.Keys;
      while todo != {}
        invariant Valid()
        invariant todo <= sessions.Keys && done == sessions.Keys - todo
        invariant rooms[r].sessions == sessions - done
        invariant r in s.rooms && View() == CloseSessions(s, r, done)
        decreases todo
      {
        var id :| id in todo;
        CloseSession(r, id);
        CloseMore(s, r, done, {id});
        done := done + {id};
        todo := todo - {id};
      }
      assert done == sessions.Keys;
    }

    method CloseRoom(r: RoomId)
      requires Valid() && r in rooms
      modifies this`model, this`metrics, this`rooms, rooms[r], turnServer
      ensures Valid() && View() == M.CloseRoom(old(View()), r)
      ensures rooms == old(rooms) - {r}
    {
      hide Synced, CloseSessions, M.CloseRoom;
      At(r);
      CloseRoomInSteps(View(), r);
      metrics := metrics.(usersLeft := metrics.usersLeft + |rooms[r].users|);
      CloseAll(r);
      DeleteRoom(r);
      metrics := metrics.(roomsClosed := metrics.roomsClosed + 1);
    }

    method DeleteRoom(r: RoomId)
      requires Valid()
      modifies this`model, this`rooms
      ensures Valid() && rooms == old(rooms) - {r} && model == old(model) - {r}
    {
      rooms, model := rooms - {r}, model - {r};
    }

    // ---- Disconnecting ----

    /** After a leaver is gone: the room is closed, or one of the others becomes owner, and all of them are told. */
    method HandOver(r: RoomId, wasOwner: bool) returns (ghost heir: Xid)
      requires Valid() && r in rooms
      modifies this`model, this`metrics, this`rooms, this`outbox, rooms[r], turnServer
      ensures Valid() && View() == Settle(old(View()), r, wasOwner, heir)
      ensures old(rooms[r].users) != map[] ==> heir in old(rooms[r].users)
      ensures rooms.Values <= old(rooms.Values)
    {
      hide Synced, M.CloseRoom;
      At(r);
      ghost var s := View();
      var users := rooms[r].users;
      if users == map[] {
        CloseRoom(r);
        heir := *;
      } else {
        var next :| next in users;
        heir := next;
        if wasOwner {
          PutUsers(r, users[next := users[next].(owner := true)]);
        }
        NotifyInfoChanged(r);
      }
    }

    method Disconnected(c: Xid, code: int, reason: string) returns (ghost heir: Xid)
      requires Valid() && forall r :: r in rooms ==> NoLoops(rooms[r].sessions)
      modifies this, rooms.Values, turnServer
      ensures Valid() && View() == Disconnect(old(View()), c, code, reason, heir)
      ensures Heirs(old(View()), c) != {} ==> heir in Heirs(old(View()), c)
      ensures rooms.Values <= old(rooms.Values)
    {
      hide Synced, Settle, CloseSessions, EndShares;
      var r := if c in connected then connected[c] else UNNAMED;
      Forget(c);
      Send(multiset{CloseNotice(c, code, reason)});
      heir := *;
      if r == UNNAMED {
        return;
      }
      At(r);
      if r !in rooms {
        return;
      }
      if c !in rooms[r].users {
        return;
      }
      var user := rooms[r].users[c];
      PutUsers(r, rooms[r].users - {c});
      metrics := metrics.(usersLeft := metrics.usersLeft + 1);
      EndInvolving(r, c);
      heir := HandOver(r, user.owner);
    }

    method Connected(c: Xid)
      requires Valid()
      modifies this`connected, this`seen
      ensures Valid() && View() == Connect(old(View()), c)
    {
      hide Synced;
      connected := connected[c := UNNAMED];
      seen := seen + {c};
    }

    // ---- Joining and creating ----

    method PickName(info: ClientInfo, userName: string) returns (name: string, ghost randomName: string)
      ensures name == DisplayName(info, userName, randomName)
    {
      name, randomName := userName, "";
      if info.authenticated {
        name := info.authenticatedUser;
      }
      if name == "" {
        name := *;
        randomName := name;
      }
    }

    ghost predicate Generated(grants: seq<Grant>)
      reads this`generated
    {
      forall i :: 0 <= i < |grants| ==> grants[i].id in generated
    }

    /** A session from every other member that streams to `c`. */
    method OpenFromStreamers(r: RoomId, c: Xid) returns (ghost grants: seq<Grant>)
      requires Valid() && r in rooms && c in rooms[r].users
      modifies this`model, this`metrics, this`issued, this`generated, this`outbox, rooms[r], turnServer
      ensures Valid() && r in old(View()).rooms && View() == OpenSessions(old(View()), r, grants)
      ensures Covers(grants, JoinPairs(old(rooms[r].users), c), old(issued))
    {
      hide Synced, OpenSessions, Covers;
      At(r);
      ghost var s, pairs := View(), {};
      var users := rooms[r].users;
      grants := [];
      OpenNone(s, r);
      CoverNone(s.issued);
      var todo := users.Keys;
      while todo != {}
        invariant Valid() && rooms[r].users == users
        invariant todo <= users.Keys && r in s.rooms && View() == OpenSessions(s, r, grants)
        invariant pairs == set u | u in users && u !in todo && u != c && users[u].streaming :: Session(u, c)
        invariant Covers(grants, pairs, s.issued)
        invariant s.issued.Keys <= generated && Generated(grants)
        decreases todo
      {
        var u :| u in todo;
        if u != c && users[u].streaming {
          ghost var g := NewSession(r, u, c);
          OpenOneMore(s, r, grants, g);
          CoverOneMore(grants, pairs, s.issued, g);
          grants, pairs := grants + [g], pairs + {Session(u, c)};
        }
        todo := todo - {u};
      }
      assert pairs == JoinPairs(users, c);
    }

    method Join(info: ClientInfo, id: RoomId, userName: string) returns (error: Option<string>, ghost ch: Choice)
      requires Valid()
      modifies this, rooms.Values, turnServer
      ensures Valid() && Ended(View(), error) == JoinRoom(old(View()), info, id, userName, ch)
      ensures Covers(ch.grants, JoinGrantPairs(old(View()), info, id, ch), old(issued))
      ensures rooms == old(rooms)
    {
      hide Synced, OpenSessions, Covers, AddMember;
      ch := Choice(false, info.id, "", []);
      CoverNone(issued);
      At(id);
      if info.id in connected && connected[info.id] != UNNAMED {
        return Some("cannot join room, you are already in one"), ch;
      }
      if id !in rooms {
        return Some("room with id " + id.text + " does not exist"), ch;
      }
      if info.addr in rooms[id].banned {
        return Some("bannedFromRoom"), ch;
      }
      var name;
      ghost var randomName;
      name, randomName := PickName(info, userName);
      AddUser(id, NewUser(info, name, false));
      NotifyInfoChanged(id);
      var ok: bool := *;
      if !ok {
        return Some(PROVIDER_ERROR), Choice(false, info.id, randomName, []);
      }
      ghost var grants := OpenFromStreamers(id, info.id);
      JoinPairsOfNew(old(rooms[id].users), info.id, NewUser(info, name, false));
      return None, Choice(true, info.id, randomName, grants);
    }

    method AddUser(r: RoomId, user: User)
      requires Valid() && r in rooms
      modifies this`model, this`metrics, this`connected, this`rejoined, rooms[r]
      ensures Valid() && r in old(View()).rooms && View() == AddMember(old(View()), r, user)
      ensures rooms[r].users == old(rooms[r].users)[user.id := user]
    {
      hide Synced;
      At(r);
      rejoined := rejoined + if user.id in rooms[r].users then 1 else 0;
      PutUsers(r, rooms[r].users[user.id := user]);
      connected := connected[user.id := rooms[r].id];
      metrics := metrics.(usersJoined := metrics.usersJoined + 1);
    }

    method Create(info: ClientInfo, e: Event) returns (error: Option<string>, ghost ch: Choice)
      requires Valid() && e.Create?
      modifies this, rooms.Values, turnServer
      ensures Valid() && Ended(View(), error) == CreateRoom(old(View()), info, e, ch)
      ensures Covers(ch.grants, CreateGrantPairs(old(View()), info, e, ch), old(issued))
      ensures fresh(rooms.Values - old(rooms.Values))
    {
      hide Synced, JoinRoom, Covers, OpenRoom, AuthError, Notify;
      ch := Choice(false, info.id, "", []);
      CoverNone(issued);
      At(e.id);
      if info.id in connected && connected[info.id] != UNNAMED {
        return Some("cannot join room, you are already in one"), ch;
      }
      if e.id in rooms {
        if e.joinIfExist {
          error, ch := Join(info, e.id, e.userName);
          return;
        }
        return Some("room with id " + e.id.text + " does already exist"), ch;
      }
      var name;
      ghost var randomName;
      name, randomName := PickName(info, e.userName);
      error := CheckAuth(info, e.mode);
      if error.Some? {
        return;
      }
      Found(e, NewUser(info, name, true));
      return None, Choice(false, info.id, randomName, []);
    }

    method CheckAuth(info: ClientInfo, mode: string) returns (error: Option<string>)
      ensures error == AuthError(View(), info, mode)
    {
      if authMode == AUTH_MODE_NONE {
        return None;
      } else if authMode == AUTH_MODE_ALL {
        if !info.authenticated {
          return Some("you need to login");
        }
        return None;
      } else if authMode == AUTH_MODE_TURN {
        if mode != CONNECTION_STUN && mode != CONNECTION_LOCAL && !info.authenticated {
          return Some("you need to login");
        }
        return None;
      }
      return Some("invalid authmode:" + authMode);
    }

    method Found(e: Event, owner: User)
      requires Valid() && e.Create? && e.id !in rooms
      modifies this`model, this`rooms, this`connected, this`metrics, this`outbox
      ensures Valid() && e.id in model
      ensures model[e.id] == Types.Room(e.id, e.closeOnOwnerLeave, e.mode, map[owner.id := owner], map[], {})
      ensures View() == Notify(OpenRoom(old(View()), model[e.id], owner.id), e.id)
      ensures fresh(rooms.Values - old(rooms.Values))
    {
      hide Synced, OpenRoom;
      var room := new Room(e.id, e.closeOnOwnerLeave, e.mode, owner);
      AddRoom(room, owner.id);
      At(e.id);
      NotifyInfoChanged(e.id);
    }

    method AddRoom(room: Room, c: Xid)
      requires Valid() && room !in rooms.Values && room.id !in rooms
      modifies this`model, this`rooms, this`connected, this`metrics
      ensures Valid() && View() == OpenRoom(old(View()), room.Value(), c)
      ensures rooms == old(rooms)[room.id := room]
    {
      connected := connected[c := room.id];
      rooms, model := rooms[room.id := room], model[room.id := room.Value()];
      metrics := metrics.(usersJoined := metrics.usersJoined + 1, roomsCreated := metrics.roomsCreated + 1);
    }

    // ---- Inside a room ----

    /** The name of the sender's room, or why it has none. */
    method CurrentRoom(c: Xid) returns (r: RoomId, error: Option<string>)
      requires Valid()
      ensures error == CurrentRoomError(View(), c)
      ensures error.None? ==> c in connected && r == connected[c] && r in rooms && model[r] == rooms[r].Value()
    {
      hide Synced;
      r := UNNAMED;
      if c !in connected {
        return r, Some("not connected");
      }
      if connected[c] == UNNAMED {
        return r, Some("not in a room");
      }
      At(connected[c]);
      if connected[c] !in rooms {
        return r, Some("room with id " + connected[c].text + " does not exist");
      }
      return connected[c], None;
    }

    method Name(c: Xid, name: string) returns (error: Option<string>)
      requires Valid() && !SetName(View(), c, name).verdict.Panicked?
      modifies this`model, this`outbox, rooms.Values
      ensures Valid() && Ended(View(), error) == SetName(old(View()), c, name)
    {
      hide Synced;
      var r;
      r, error := CurrentRoom(c);
      if error.Some? {
        return;
      }
      var users := rooms[r].users;
      PutUsers(r, users[c := users[c].(name := name)]);
      NotifyInfoChanged(r);
    }

    method AnotherStreams(r: RoomId, c: Xid) returns (found: bool)
      requires r in rooms
      ensures found <==> exists u :: u in rooms[r].users && rooms[r].users[u].streaming && u != c
    {
      var users := rooms[r].users;
      var todo := users.Keys;
      while todo != {}
        invariant todo <= users.Keys
        invariant forall u :: u in users && users[u].streaming && u != c ==> u in todo
        decreases todo
      {
        var u :| u in todo;
        if users[u].streaming && u != c {
          return true;
        }
        todo := todo - {u};
      }
      return false;
    }

    /** A session from `c` to every other member. */
    method OpenToOthers(r: RoomId, c: Xid) returns (ghost grants: seq<Grant>)
      requires Valid() && r in rooms && c in rooms[r].users
      modifies this`model, this`metrics, this`issued, this`generated, this`outbox, rooms[r], turnServer
      ensures Valid() && r in old(View()).rooms && View() == OpenSessions(old(View()), r, grants)
      ensures Covers(grants, SharePairs(old(rooms[r].users), c), old(issued))
    {
      hide Synced, OpenSessions, Covers;
      At(r);
      ghost var s, pairs := View(), {};
      var users := rooms[r].users;
      grants := [];
      OpenNone(s, r);
      CoverNone(s.issued);
      var todo := users.Keys;
      while todo != {}
        invariant Valid() && rooms[r].users == users
        invariant todo <= users.Keys && r in s.rooms && View() == OpenSessions(s, r, grants)
        invariant pairs == set u | u in users && u !in todo && u != c :: Session(c, u)
        invariant Covers(grants, pairs, s.issued)
        invariant s.issued.Keys <= generated && Generated(grants)
        decreases todo
      {
        var u :| u in todo;
        if u != c {
          ghost var g := NewSession(r, c, u);
          OpenOneMore(s, r, grants, g);
          CoverOneMore(grants, pairs, s.issued, g);
          grants, pairs := grants + [g], pairs + {Session(c, u)};
        }
        todo := todo - {u};
      }
      assert pairs == SharePairs(users, c);
    }

    method Share(c: Xid) returns (error: Option<string>, ghost ch: Choice)
      requires Valid() && (CurrentRoomError(View(), c).None? ==> InRoom(View(), c))
      modifies this, rooms.Values, turnServer
      ensures Valid() && Ended(View(), error) == StartShare(old(View()), c, ch)
      ensures Covers(ch.grants, ShareGrantPairs(old(View()), c, ch), old(issued))
      ensures rooms == old(rooms)
    {
      hide Synced, OpenSessions, Covers;
      ch := Choice(false, c, "", []);
      CoverNone(issued);
      var r;
      r, error := CurrentRoom(c);
      if error.Some? {
        return;
      }
      var users := rooms[r].users;
      if c in users && !users[c].canShare {
        return Some("you do not have permission to share screen"), ch;
      }
      var another := AnotherStreams(r, c);
      if another {
        return Some("another user is already sharing screen"), ch;
      }
      PutUsers(r, users[c := users[c].(streaming := true)]);
      var ok: bool := *;
      if !ok {
        return Some(PROVIDER_ERROR), ch;
      }
      ghost var grants := OpenToOthers(r, c);
      SharePairsOfMembers(users, users[c := users[c].(streaming := true)], c);
      NotifyInfoChanged(r);
      return None, Choice(true, c, "", grants);
    }

    method StopShare(c: Xid) returns (error: Option<string>)
      requires Valid() && !EndSharing(View(), c).verdict.Panicked?
      modifies this`model, this`metrics, this`outbox, rooms.Values, turnServer
      ensures Valid() && Ended(View(), error) == EndSharing(old(View()), c)
    {
      hide Synced, CloseSessions, EndShares;
      var r;
      r, error := CurrentRoom(c);
      if error.Some? {
        return;
      }
      var users := rooms[r].users;
      ghost var sessions := rooms[r].sessions;
      PutUsers(r, users[c := users[c].(streaming := false)]);
      EndHosted(r, c);
      EndSharesOfMembers(users, users[c := users[c].(streaming := false)], sessions, Hosted(sessions, c), c);
      CloseKeeps(SetUsers(old(View()), r, users[c := users[c].(streaming := false)]), r, Hosted(sessions, c));
      NotifyInfoChanged(r);
    }

    // ---- Signalling ----

    /** One message to a member; asking for one that is not there is the nil dereference of the source. */
    method Write(r: RoomId, to: Xid, message: Message)
      requires Valid() && r in rooms && to in rooms[r].users
      modifies this`outbox
      ensures Valid() && View() == Say(old(View()), multiset{Delivery(to, message)})
    {
      Send(multiset{Delivery(to, message)});
    }

    method HostOffer(c: Xid, sid: Xid, value: string) returns (error: Option<string>)
      requires Valid() && !Forward(View(), c, OfferFromHost, sid, value).verdict.Panicked?
      modifies this`outbox
      ensures Valid() && Ended(View(), error) == Forward(old(View()), c, OfferFromHost, sid, value)
    {
      hide Synced;
      var r;
      r, error := CurrentRoom(c);
      if error.Some? || sid !in rooms[r].sessions {
        return;
      }
      var session := rooms[r].sessions[sid];
      if session.host != c {
        return Some("permission denied for session " + sid.text);
      }
      Write(r, session.client, Relay(OfferFromHost, sid, value));
    }

    method HostIce(c: Xid, sid: Xid, value: string) returns (error: Option<string>)
      requires Valid() && !Forward(View(), c, IceFromHost, sid, value).verdict.Panicked?
      modifies this`outbox
      ensures Valid() && Ended(View(), error) == Forward(old(View()), c, IceFromHost, sid, value)
    {
      hide Synced;
      var r;
      r, error := CurrentRoom(c);
      if error.Some? || sid !in rooms[r].sessions {
        return;
      }
      var session := rooms[r].sessions[sid];
      if session.host != c {
        return Some("permission denied for session " + sid.text);
      }
      Write(r, session.client, Relay(IceFromHost, sid, value));
    }

    method ClientAnswer(c: Xid, sid: Xid, value: string) returns (error: Option<string>)
      requires Valid() && !Forward(View(), c, AnswerFromClient, sid, value).verdict.Panicked?
      modifies this`outbox
      ensures Valid() && Ended(View(), error) == Forward(old(View()), c, AnswerFromClient, sid, value)
    {
      hide Synced;
      var r;
      r, error := CurrentRoom(c);
      if error.Some? || sid !in rooms[r].sessions {
        return;
      }
      var session := rooms[r].sessions[sid];
      if session.client != c {
        return Some("permission denied for session " + sid.text);
      }
      Write(r, session.host, Relay(AnswerFromClient, sid, value));
    }

    method ClientIce(c: Xid, sid: Xid, value: string) returns (error: Option<string>)
      requires Valid() && !Forward(View(), c, IceFromClient, sid, value).verdict.Panicked?
      modifies this`outbox
      ensures Valid() && Ended(View(), error) == Forward(old(View()), c, IceFromClient, sid, value)
    {
      hide Synced;
      var r;
      r, error := CurrentRoom(c);
      if error.Some? || sid !in rooms[r].sessions {
        return;
      }
      var session := rooms[r].sessions[sid];
      if session.client != c {
        return Some("permission denied for session " + sid.text);
      }
      Write(r, session.host, Relay(IceFromClient, sid, value));
    }

    // ---- Owner actions ----

    method EnableAll(r: RoomId, c: Xid)
      requires Valid() && r in rooms
      modifies this`model, this`outbox, rooms[r]
      ensures Valid() && r in old(View()).rooms
      ensures var users := old(rooms[r].users);
              View() == Notify(SetUsers(old(View()), r, Permit(users, users.Keys - {c}, true)), r)
    {
      hide Synced, Permit;
      At(r);
      ghost var s, users, done := View(), rooms[r].users, {};
      PermitNone(users, true);
      SetSame(s, r);
      var todo := rooms[r].users.Keys;
      while todo != {}
        invariant Valid() && outbox == old(outbox)
        invariant todo <= users.Keys && done == users.Keys - {c} - todo
        invariant rooms[r].users == Permit(users, done, true)
        invariant r in s.rooms && View() == SetUsers(s, r, Permit(users, done, true))
        decreases todo
      {
        var u :| u in todo;
        if u != c {
          PermitOneMore(users, done, u, true);
          PermitKeeps(users, done, u, true);
          SetTwice(s, r, rooms[r].users, Permit(users, done + {u}, true));
          PutUsers(r, rooms[r].users[u := rooms[r].users[u].(canShare := true)]);
          done := done + {u};
        }
        todo := todo - {u};
      }
      assert done == users.Keys - {c};
      NotifyInfoChanged(r);
    }

    /** The nested loop: whoever loses the permission while streaming has its sessions closed on the spot. */
    method DisableEach(r: RoomId, c: Xid)
      requires Valid() && r in rooms
      modifies this`model, this`metrics, rooms[r], turnServer
      ensures Valid() && r in old(View()).rooms
      ensures var users, sessions := old(rooms[r].users), old(rooms[r].sessions);
              var others := users.Keys - {c};
              View() == CloseSessions(SetUsers(old(View()), r, Permit(users, others, false)), r,
                                      Silenced(users, sessions, others))
    {
      hide Synced, Permit, CloseSessions, SetUsers, Silenced;
      At(r);
      ghost var s, users, sessions, done := View(), rooms[r].users, rooms[r].sessions, {};
      DisabledNone(s, r);
      var todo := rooms[r].users.Keys;
      while todo != {}
        invariant Valid()
        invariant todo <= users.Keys && done == users.Keys - {c} - todo
        invariant rooms[r].users == Permit(users, done, false)
        invariant rooms[r].sessions == sessions - Silenced(users, sessions, done)
        invariant r in s.rooms && View() == Disabled(s, r, done)
        decreases todo
      {
        var u :| u in todo;
        if u != c {
          DisableOne(r, u, s, done);
          done := done + {u};
        }
        todo := todo - {u};
      }
      assert done == users.Keys - {c};
    }

    /** One round of that loop. */
    method DisableOne(r: RoomId, u: Xid, ghost s: State, ghost done: set<Xid>)
      requires Valid() && r in rooms && r in s.rooms && u in s.rooms[r].users && u !in done && done <= s.rooms[r].users.Keys
      requires rooms[r].users == Permit(s.rooms[r].users, done, false)
      requires rooms[r].sessions == s.rooms[r].sessions - Silenced(s.rooms[r].users, s.rooms[r].sessions, done)
      requires View() == Disabled(s, r, done)
      modifies this`model, this`metrics, rooms[r], turnServer
      ensures Valid() && View() == Disabled(s, r, done + {u})
      ensures rooms[r].users == Permit(s.rooms[r].users, done + {u}, false)
      ensures rooms[r].sessions == s.rooms[r].sessions - Silenced(s.rooms[r].users, s.rooms[r].sessions, done + {u})
    {
      hide Valid, Synced, Permit, CloseSessions, SetUsers, Silenced, Disabled;
      ghost var users, sessions := s.rooms[r].users, s.rooms[r].sessions;
      DisableFlags(users, done, u);
      SilenceOneMore(users, sessions, done, u);
      DisabledOneMore(s, r, done, u);
      var user := rooms[r].users[u].(canShare := false);
      ghost var flagged := rooms[r].users[u := user];
      At(r);
      PutUsers(r, rooms[r].users[u := user]);
      if user.streaming {
        SetTwice(Disabled(s, r, done), r, flagged, Permit(users, done + {u}, false));
        PutUsers(r, rooms[r].users[u := user.(streaming := false)]);
        CloseHosted(r, u);
      }
    }

    method DisableAll(r: RoomId, c: Xid)
      requires Valid() && r in rooms
      modifies this`model, this`metrics, this`outbox, rooms[r], turnServer
      ensures Valid() && r in old(View()).rooms && View() == M.DisableAll(old(View()), r, c)
    {
      hide Synced, Permit, CloseSessions;
      At(r);
      SilencedOthers(model[r], c);
      DisableEach(r, c);
      CloseKeeps(SetUsers(old(View()), r, Permit(old(rooms[r].users), old(rooms[r].users).Keys - {c}, false)), r,
                 HostedByOthers(old(model[r]), c));
      NotifyInfoChanged(r);
    }

    method StopTarget(r: RoomId, t: Xid)
      requires Valid() && r in rooms && t in rooms[r].users
      modifies this`model, this`metrics, this`outbox, rooms[r], turnServer
      ensures Valid() && r in old(View()).rooms && View() == M.StopTarget(old(View()), r, t)
    {
      hide Synced, CloseSessions;
      At(r);
      var users := rooms[r].users;
      if users[t].streaming {
        PutUsers(r, users[t := users[t].(streaming := false)]);
        CloseKeeps(View(), r, Hosted(rooms[r].sessions, t));
        CloseHosted(r, t);
        NotifyInfoChanged(r);
      }
    }

    method TogglePermission(r: RoomId, t: Xid)
      requires Valid() && r in rooms && t in rooms[r].users
      modifies this`model, this`metrics, this`outbox, rooms[r], turnServer
      ensures Valid() && r in old(View()).rooms && View() == M.TogglePermission(old(View()), r, t)
    {
      hide Synced, CloseSessions;
      At(r);
      var users := rooms[r].users;
      var user := users[t].(canShare := !users[t].canShare);
      PutUsers(r, users[t := user]);
      if !user.canShare && user.streaming {
        SetTwice(old(View()), r, users[t := user], users[t := user.(streaming := false)]);
        PutUsers(r, users[t := user][t := user.(streaming := false)]);
        assert users[t := user][t := user.(streaming := false)] == users[t := user.(streaming := false)];
        CloseKeeps(View(), r, Hosted(rooms[r].sessions, t));
        CloseHosted(r, t);
      }
      NotifyInfoChanged(r);
    }

    /** What kick and ban have in common. */
    method Expel(r: RoomId, t: Xid, reason: string)
      requires Valid() && r in rooms
      modifies this`model, this`metrics, this`outbox, this`connected, rooms[r], turnServer
      ensures Valid() && r in old(View()).rooms && View() == M.Expel(old(View()), r, t, reason)
    {
      hide Synced, CloseSessions, M.Expel;
      At(r);
      ExpelInSteps(View(), r, t, reason);
      Forget(t);
      PutUsers(r, rooms[r].users - {t});
      CloseKeeps(View(), r, Involving(rooms[r].sessions, t));
      CloseInvolving(r, t);
      Send(multiset{CloseNotice(t, CLOSE_NORMAL_CLOSURE, reason)});
      NotifyInfoChanged(r);
      metrics := metrics.(usersLeft := metrics.usersLeft + 1);
    }

    method AddBan(r: RoomId, addr: string)
      requires Valid() && r in rooms
      modifies this`model, rooms[r]
      ensures Valid() && r in old(View()).rooms && View() == Ban(old(View()), r, addr)
    {
      rooms[r].Ban(addr);
      model := model[r := rooms[r].Value()];
    }

    method OwnerAction(c: Xid, action: string, target: Target) returns (error: Option<string>)
      requires Valid()
      modifies this`model, this`metrics, this`outbox, this`connected, rooms.Values, turnServer
      ensures Valid() && Ended(View(), error) == Govern(old(View()), c, action, target)
    {
      hide Synced, Permit, ActOn, M.DisableAll;
      var r;
      r, error := CurrentRoom(c);
      if error.Some? {
        return;
      }
      if c !in rooms[r].users || !rooms[r].users[c].owner {
        return Some("only owner can perform this action");
      }
      if action == "enable_all" {
        EnableAll(r, c);
        return;
      }
      if action == "disable_all" {
        DisableAll(r, c);
        return;
      }
      match target
      case NoTarget => error := Some("targetUserId is required for individual actions");
      case Unparsable => error := Some("invalid user ID");
      case Target(t) => error := ActOnMember(r, c, action, t);
    }

    method ActOnMember(r: RoomId, c: Xid, action: string, t: Xid) returns (error: Option<string>)
      requires Valid() && r in rooms
      modifies this`model, this`metrics, this`outbox, this`connected, rooms[r], turnServer
      ensures Valid() && r in old(View()).rooms && Ended(View(), error) == ActOn(old(View()), r, c, action, t)
    {
      hide Synced, M.StopTarget, M.TogglePermission, M.Expel;
      At(r);
      error := None;
      if t !in rooms[r].users {
        return Some("user not found");
      }
      if t == c {
        return Some("cannot perform action on yourself");
      }
      if action == "stop_share" {
        StopTarget(r, t);
      } else if action == "toggle_share_permission" {
        TogglePermission(r, t);
      } else if action == "kick" {
        Expel(r, t, "kickedByOwner");
      } else if action == "ban" {
        AddBan(r, rooms[r].users[t].addr);
        Expel(r, t, "bannedByOwner");
      } else {
        error := Some("unknown action: " + action);
      }
    }

    // ---- Leaving for good ----

    method Dissolve(c: Xid) returns (error: Option<string>)
      requires Valid()
      modifies this, rooms.Values, turnServer
      ensures Valid() && Ended(View(), error) == DissolveRoom(old(View()), c)
      ensures rooms.Values <= old(rooms.Values)
    {
      hide Synced, M.CloseRoom;
      error := None;
      var r := if c in connected then connected[c] else UNNAMED;
      At(r);
      if r == UNNAMED {
        return Some("you are not in a room");
      }
      if r !in rooms {
        return Some("room does not exist");
      }
      if c !in rooms[r].users {
        return Some("you are not in this room");
      }
      if !rooms[r].users[c].owner {
        return Some("only the room owner can dissolve the room");
      }
      SayGoodbye(rooms[r].users);
      CloseRoom(r);
    }

    /** Every member is forgotten and told. */
    method SayGoodbye(users: map<Xid, User>)
      requires Valid()
      modifies this`connected, this`outbox
      ensures Valid()
      ensures View() == Say(old(View()).(connected := old(connected) - users.Keys), DissolvePhase(users))
    {
      hide Synced;
      var phase := multiset{};
      var todo := users.Keys;
      while todo != {}
        invariant Valid() && outbox == old(outbox)
        invariant todo <= users.Keys && connected == old(connected) - (users.Keys - todo)
        invariant phase == GoodbyesBefore(users, todo)
        decreases todo
      {
        var member :| member in todo;
        connected := connected - {member};
        OneMoreGoodbye(users, todo, member);
        phase := phase + multiset{CloseNotice(member, CLOSE_NORMAL_CLOSURE, "Room Dissolved")};
        todo := todo - {member};
      }
      assert users.Keys - todo == users.Keys;
      AllGoodbyes(users);
      Send(phase);
    }

    method Exit(c: Xid) returns (ghost heir: Xid)
      requires Valid() && forall r :: r in rooms ==> NoLoops(rooms[r].sessions)
      modifies this, rooms.Values, turnServer
      ensures Valid() && View() == Disconnect(old(View()), c, CLOSE_NORMAL_CLOSURE, "User Left", heir)
      ensures Heirs(old(View()), c) != {} ==> heir in Heirs(old(View()), c)
      ensures rooms.Values <= old(rooms.Values)
    {
      heir := Disconnected(c, CLOSE_NORMAL_CLOSURE, "User Left");
    }

    // ---- The event loop ----

    lemma SessionsJoinTwo()
      requires Valid() && Core(View())
      ensures forall r :: r in rooms ==> NoLoops(rooms[r].sessions)
    {
      forall r, id | r in rooms && id in rooms[r].sessions
        ensures rooms[r].sessions[id].host != rooms[r].sessions[id].client
      {
        assert model[r] == rooms[r].Value();
        assert SessionOk(View(), r, id);
      }
    }

    /** Events whose effect needs no choice. */
    method ExecutePlain(info: ClientInfo, e: Event) returns (error: Option<string>)
      requires Valid() && Core(View()) && IsPlain(e)
      modifies this, rooms.Values, turnServer
      ensures Valid() && forall ch :: Ended(View(), error) == M.Execute(old(View()), info, e, ch)
      ensures rooms.Values <= old(rooms.Values)
    {
      hide Synced, Core, Forward, Govern, DissolveRoom, SetName, EndSharing, Connect;
      var c := info.id;
      PlainNeverPanics(View(), info, e);
      error := None;
      match e
      case Connected => Connected(c);
      case Name(userName) => error := Name(c, userName);
      case StopShare => error := StopShare(c);
      case HostOffer(sid, value) => error := HostOffer(c, sid, value);
      case HostIce(sid, value) => error := HostIce(c, sid, value);
      case ClientAnswer(sid, value) => error := ClientAnswer(c, sid, value);
      case ClientIce(sid, value) => error := ClientIce(c, sid, value);
      case OwnerAction(action, target) => error := OwnerAction(c, action, target);
      case Dissolve => error := Dissolve(c);
    }

    /** Events that may open sessions; `heir` is any heir. */
    method ExecuteOpening(info: ClientInfo, e: Event, ghost heir: Xid) returns (error: Option<string>, ghost ch: Choice)
      requires Valid() && Core(View()) && (e.Join? || e.Create? || e.Share?)
      modifies this, rooms.Values, turnServer
      ensures Valid() && Ended(View(), error) == M.Execute(old(View()), info, e, ch) && ch.heir == heir
      ensures Covers(ch.grants, PairsToOpen(old(View()), info, e, ch), old(issued))
      ensures fresh(rooms.Values - old(rooms.Values))
    {
      hide Synced, Core, Covers, JoinRoom, CreateRoom, StartShare, PairsToOpen;
      hide JoinGrantPairs, CreateGrantPairs, ShareGrantPairs;
      ghost var s := View();
      match e {
        case Join(id, userName) => error, ch := Join(info, id, userName);
        case Create(_, _, _, _, _) => error, ch := Create(info, e);
        case Share =>
          CoreMembers(s, info.id);
          error, ch := Share(info.id);
      }
      PairsByEvent(s, info, e, ch);
      HeirPlaysNoPart(s, info, e, ch, heir);
      ch := ch.(heir := heir);
    }

    /** Any event; `ch` is what happened to be chosen on the way. */
    method Execute(info: ClientInfo, e: Event) returns (error: Option<string>, ghost ch: Choice)
      requires Valid() && Core(View())
      modifies this, rooms.Values, turnServer
      ensures Valid() && Ended(View(), error) == M.Execute(old(View()), info, e, ch)
      ensures Covers(ch.grants, PairsToOpen(old(View()), info, e, ch), old(issued))
      ensures Heirs(old(View()), info.id) != {} ==> ch.heir in Heirs(old(View()), info.id)
      ensures fresh(rooms.Values - old(rooms.Values))
    {
      hide Synced, Core, Covers, Disconnect, JoinRoom, CreateRoom, StartShare, PairsToOpen, Heirs;
      ghost var s := View();
      ghost var heir: Xid := AnyHeir(s, info.id);
      error, ch := None, Choice(false, heir, "", []);
      CoverNone(issued);
      if e.Join? || e.Create? || e.Share? {
        error, ch := ExecuteOpening(info, e, heir);
        return;
      }
      SessionsJoinTwo();
      if e.Disconnected? {
        heir := Disconnected(info.id, e.code, e.reason);
        ch := ch.(heir := heir);
      } else if e.Exit? {
        heir := Exit(info.id);
        ch := ch.(heir := heir);
      } else {
        error := ExecutePlain(info, e);
      }
      PairsByEvent(s, info, e, ch);
    }

    /**
     One iteration of the loop: it performs one enabled step of RoomModel and keeps the
     invariant, so everything proved about runs is true of this program.
     */
    method Step(m: ClientMessage) returns (ghost ch: Choice)
      requires Valid() && Inv(View())
      requires m.skipConnectedCheck <==> m.incoming.Connected?
      requires m.incoming.Connected? ==> m.info.id !in seen
      modifies this, rooms.Values, turnServer
      ensures Valid() && Inv(View())
      ensures Enabled(old(View()), m, ch) && View() == Apply(old(View()), m, ch)
      ensures fresh(rooms.Values - old(rooms.Values))
    {
      hide Synced, Core, RoomsInv, Covers, M.Execute, Disconnect, Heirs;
      ghost var s := View();
      if !m.skipConnectedCheck && m.info.id !in connected {
        ch := Choice(false, AnyHeir(s, m.info.id), "", []);
        CoverNone(issued);
        return;
      }
      var error;
      error, ch := Execute(m.info, m.incoming);
      if error.Some? {
        ExecuteKeepsCore(s, m, ch);
        FailureKeepsHeirs(s, m, ch);
        SessionsJoinTwo();
        ghost var t := View();
        ghost var heir := Disconnected(m.info.id, CLOSE_NORMAL_CLOSURE, error.value);
        HeirPlaysNoPart(s, m.info, m.incoming, ch, heir);
        ch := ch.(heir := heir);
      }
      StepKeepsInv(s, m, ch);
    }

    /**
     The loop over all incoming messages.  Whatever they are, as long as each client's
     `Connected` comes once and is the only message that skips the check, the program
     performs a run of RoomModel and never dereferences nil.
     */
    method Start(incoming: seq<ClientMessage>) returns (ghost states: seq<State>, ghost steps: seq<R.Step>)
      requires Valid() && View() == Initial(authMode) && WellSent(incoming)
      modifies this, rooms.Values, turnServer
      ensures Valid() && R.IsRun(states, steps) && View() == states[|states| - 1]
      ensures |steps| == |incoming| && forall k :: 0 <= k < |incoming| ==> steps[k].message == incoming[k]
    {
      hide Synced, Inv, R.Follows, Apply, Initial;
      InitialInv(authMode);
      NobodySeen(authMode);
      states, steps := [View()], [];
      for i := 0 to |incoming|
        invariant Valid() && Inv(View()) && fresh(rooms.Values - old(rooms.Values))
        invariant seen <= ConnectedBefore(incoming, i)
        invariant R.IsRun(states, steps) && View() == states[|states| - 1] && states[0] == old(View())
        invariant |steps| == i && forall k :: 0 <= k < i ==> steps[k].message == incoming[k]
      {
        ghost var s := View();
        ghost var ch := Step(incoming[i]);
        SeenByStep(s, incoming[i], ch);
        R.RunExtends(states, steps, R.Step(incoming[i], ch), View());
        states, steps := states + [View()], steps + [R.Step(incoming[i], ch)];
      }
    }
  }
}
