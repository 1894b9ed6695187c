/** Every successful event, and every disconnect, leaves each room in shape. */
module Shape {
  import opened Types
  import opened RoomModel
  import opened Invariant
  import opened Elementary
  import opened Events

  // ---- One room, as a value ----

  /** A member leaves; if it was the owner and others stay, `heir` inherits. */
  lemma LeavingKeepsShape(room: Room, c: Xid, heir: Xid)
    requires RoomInv(room) && c in room.users
    requires room.users[c].owner ==> heir in room.users - {c}
    ensures var rest := room.users - {c};
            RoomInv(room.(users := if room.users[c].owner then Crown(rest, heir) else rest,
                          sessions := room.sessions - Involving(room.sessions, c)))
  {
    var rest := room.users - {c};
    var users := if room.users[c].owner then Crown(rest, heir) else rest;
    var sessions := room.sessions - Involving(room.sessions, c);
    LeavingKeepsStar(room, c, users);
    LeavingKeepsOwner(room, c, heir);
  }

  lemma LeavingKeepsOwner(room: Room, c: Xid, heir: Xid)
    requires OneOwner(room.users) && c in room.users
    requires room.users[c].owner ==> heir in room.users - {c}
    ensures var rest := room.users - {c}; OneOwner(if room.users[c].owner then Crown(rest, heir) else rest)
  {
    var rest := room.users - {c};
    var o :| o in room.users && room.users[o].owner && forall d :: d in room.users && room.users[d].owner ==> d == o;
    if room.users[c].owner {
      assert Crown(rest, heir)[heir].owner;
    } else {
      assert rest[o].owner;
    }
  }

  lemma LeavingKeepsStar(room: Room, c: Xid, users: map<Xid, User>)
    requires Star(room.users, room.sessions)
    requires users.Keys == room.users.Keys - {c}
    requires forall d :: d in users ==> users[d].streaming == room.users[d].streaming
    ensures Star(users, room.sessions - Involving(room.sessions, c))
  {
    var sessions := room.sessions - Involving(room.sessions, c);
    forall id | id in sessions
      ensures StarEdge(users, sessions[id])
    {
      assert StarEdge(room.users, room.sessions[id]);
      assert id !in Involving(room.sessions, c);
    }
    forall h, d | h in users && d in users && users[h].streaming && d != h
      ensures Linked(sessions, h, d)
    {
      assert Linked(room.sessions, h, d);
      var id :| id in room.sessions && room.sessions[id] == Session(h, d);
      assert sessions[id] == Session(h, d);
    }
  }

  /** The pairs of the granted sessions, which are new, are exactly `pairs`. */
  ghost predicate Links(grants: seq<Grant>, pairs: set<Session>, sessions: map<Xid, Session>) {
    && (forall i :: 0 <= i < |grants| ==> grants[i].id !in sessions && PairOf(grants[i]) in pairs)
    && (forall i, j :: 0 <= i < j < |grants| ==> grants[i].id != grants[j].id)
    && (forall p :: p in pairs ==> exists i :: 0 <= i < |grants| && PairOf(grants[i]) == p)
  }

  lemma CoversLinks(s: State, r: RoomId, grants: seq<Grant>, pairs: set<Session>)
    requires SessionsOk(s) && r in s.rooms && Covers(grants, pairs, s.issued)
    ensures Links(grants, pairs, s.rooms[r].sessions)
  {
    forall id | id in s.rooms[r].sessions
      ensures id in s.issued
    {
      assert SessionOk(s, r, id);
    }
  }

  /** A link is either old or granted. */
  lemma ExtendedLinks(sessions: map<Xid, Session>, grants: seq<Grant>, pairs: set<Session>)
    requires Links(grants, pairs, sessions)
    ensures forall id :: id in Extended(sessions, grants) ==>
              || Extended(sessions, grants)[id] in pairs
              || (id in sessions && Extended(sessions, grants)[id] == sessions[id])
    ensures forall h, c :: Session(h, c) in pairs || Linked(sessions, h, c) ==> Linked(Extended(sessions, grants), h, c)
  {
    var extended := Extended(sessions, grants);
    ExtendedBy(sessions, grants);
    forall h, c | Session(h, c) in pairs || Linked(sessions, h, c)
      ensures Linked(extended, h, c)
    {
      if Linked(sessions, h, c) {
        var id :| id in sessions && sessions[id] == Session(h, c);
        assert extended[id] == Session(h, c);
      } else {
        var i :| 0 <= i < |grants| && PairOf(grants[i]) == Session(h, c);
        assert extended[grants[i].id] == Session(h, c);
      }
    }
  }

  /** A new member joins and is linked to whoever streams. */
  lemma JoiningKeepsShape(room: Room, user: User, grants: seq<Grant>)
    requires RoomInv(room) && user.id !in room.users && !user.streaming && !user.owner
    requires Links(grants, JoinPairs(room.users, user.id), room.sessions)
    ensures RoomInv(room.(users := room.users[user.id := user], sessions := Extended(room.sessions, grants)))
  {
    var users := room.users[user.id := user];
    var sessions := Extended(room.sessions, grants);
    JoiningKeepsOwner(room.users, user);
    ExtendedLinks(room.sessions, grants, JoinPairs(room.users, user.id));
    forall id | id in sessions
      ensures StarEdge(users, sessions[id])
    {
      if sessions[id] !in JoinPairs(room.users, user.id) {
        assert StarEdge(room.users, room.sessions[id]);
      }
    }
    forall h, c | h in users && c in users && users[h].streaming && c != h
      ensures Linked(sessions, h, c)
    {
      assert c != user.id ==> Linked(room.sessions, h, c);
      assert c == user.id ==> Session(h, c) in JoinPairs(room.users, user.id);
    }
  }

  lemma JoiningKeepsOwner(users: map<Xid, User>, user: User)
    requires OneOwner(users) && user.id !in users && !user.owner
    ensures OneOwner(users[user.id := user])
  {
    var o :| o in users && users[o].owner && forall c :: c in users && users[c].owner ==> c == o;
    assert users[user.id := user][o].owner;
  }

  lemma SharingKeepsShape(room: Room, c: Xid, grants: seq<Grant>)
    requires RoomInv(room) && c in room.users && room.users[c].canShare
    requires forall u :: u in room.users && room.users[u].streaming ==> u == c
    requires Links(grants, SharePairs(room.users, c), room.sessions)
    ensures RoomInv(room.(users := room.users[c := room.users[c].(streaming := true)],
                          sessions := Extended(room.sessions, grants)))
  {
    var users := room.users[c := room.users[c].(streaming := true)];
    SameOwner(room.users, users);
    SharingMakesStar(room, c, users, grants);
  }

  lemma SharingMakesStar(room: Room, c: Xid, users: map<Xid, User>, grants: seq<Grant>)
    requires Star(room.users, room.sessions) && c in room.users && users.Keys == room.users.Keys
    requires forall u :: u in users ==> (users[u].streaming <==> u == c)
    requires forall u :: u in users && room.users[u].streaming ==> u == c
    requires Links(grants, SharePairs(room.users, c), room.sessions)
    ensures Star(users, Extended(room.sessions, grants))
  {
    var sessions := Extended(room.sessions, grants);
    ExtendedLinks(room.sessions, grants, SharePairs(room.users, c));
    forall id | id in sessions
      ensures StarEdge(users, sessions[id])
    {
      if sessions[id] !in SharePairs(room.users, c) {
        assert StarEdge(room.users, room.sessions[id]);
      }
    }
    forall h, d | h in users && d in users && users[h].streaming && d != h
      ensures Linked(sessions, h, d)
    {
      assert h == c && Session(h, d) in SharePairs(room.users, c);
    }
  }

  lemma SameOwner(users: map<Xid, User>, changed: map<Xid, User>)
    requires OneOwner(users) && users.Keys == changed.Keys
    requires forall c :: c in users ==> users[c].owner == changed[c].owner
    ensures OneOwner(changed)
  {
    var o :| o in users && users[o].owner && forall c :: c in users && users[c].owner ==> c == o;
    assert changed[o].owner;
  }

  /** Some members stop streaming and their sessions close; permissions may change with it. */
  lemma StoppingKeepsShape(room: Room, users: map<Xid, User>, ids: set<Xid>)
    requires RoomInv(room) && users.Keys == room.users.Keys
    requires forall c :: c in users ==> users[c].owner == room.users[c].owner
    requires forall c :: c in users && users[c].streaming ==> room.users[c].streaming && users[c].canShare
    requires forall id :: id in room.sessions ==>
               (id in ids <==> room.sessions[id].host in users && !users[room.sessions[id].host].streaming)
    ensures RoomInv(room.(users := users, sessions := room.sessions - ids))
  {
    var sessions := room.sessions - ids;
    SameOwner(room.users, users);
    forall id | id in sessions
      ensures StarEdge(users, sessions[id])
    {
      assert StarEdge(room.users, room.sessions[id]);
    }
    forall h, d | h in users && d in users && users[h].streaming && d != h
      ensures Linked(sessions, h, d)
    {
      assert Linked(room.sessions, h, d);
      var id :| id in room.sessions && room.sessions[id] == Session(h, d);
      assert sessions[id] == Session(h, d);
    }
  }

  // ---- The other rooms ----

  /** Outside room `r` nothing differs. */
  ghost predicate OnlyRoom(a: map<RoomId, Room>, b: map<RoomId, Room>, r: RoomId) {
    forall q :: q != r ==> (q in a <==> q in b) && (q in a ==> a[q] == b[q])
  }

  lemma ShapeLifts(a: map<RoomId, Room>, b: map<RoomId, Room>, r: RoomId)
    requires RoomsInv(a) && OnlyRoom(a, b, r)
    requires r in b ==> if r == UNNAMED then UnnamedInv(b[r]) else RoomInv(b[r])
    ensures RoomsInv(b)
  {}

  /** What is left of a room its member `c` disconnects from. */
  function RoomAfter(room: Room, c: Xid, heir: Xid): Room
    requires c in room.users
  {
    var rest := room.users - {c};
    room.(users := if room.users[c].owner then Crown(rest, heir) else rest,
          sessions := room.sessions - Involving(room.sessions, c))
  }

  function TurnWithout(turn: map<string, Entry>, mode: string, ids: set<Xid>): map<string, Entry> {
    if mode == CONNECTION_TURN then turn - HostNames(ids) - ClientNames(ids) else turn
  }

  lemma SettleEffect(s: State, r: RoomId, wasOwner: bool, heir: Xid)
    requires r in s.rooms
    ensures var t := Settle(s, r, wasOwner, heir);
            var room := s.rooms[r];
            && t.connected == s.connected
            && (room.users == map[] ==>
                  t.rooms == s.rooms - {r} && t.turn == TurnWithout(s.turn, room.mode, room.sessions.Keys))
            && (room.users != map[] ==>
                  && t.rooms == s.rooms[r := if wasOwner then room.(users := Crown(room.users, heir)) else room]
                  && t.turn == s.turn)
  {
    var room := s.rooms[r];
    if room.users == map[] {
      var closed := CloseSessions(s, r, room.sessions.Keys);
      assert closed.rooms - {r} == s.rooms - {r};
    } else {
      assert s.rooms[r := room] == s.rooms;
    }
  }

  lemma RemoveEffect(s: State, r: RoomId, c: Xid)
    requires r in s.rooms
    ensures var t := Remove(s, r, c);
            var room := s.rooms[r];
            && t.connected == s.connected - {c}
            && t.rooms == s.rooms[r := room.(users := room.users - {c},
                                             sessions := room.sessions - Involving(room.sessions, c))]
            && t.turn == TurnWithout(s.turn, room.mode, Involving(room.sessions, c))
  {}

  /** What a disconnect does to rooms, connections and the TURN table. */
  lemma DisconnectEffect(s: State, c: Xid, code: int, reason: string, heir: Xid)
    requires InRoom(s, c)
    ensures var r := Lookup(s, c);
            var room := s.rooms[r];
            var ids := Involving(room.sessions, c);
            var t := Disconnect(s, c, code, reason, heir);
            && t.connected == s.connected - {c}
            && (room.users - {c} == map[] ==>
                  && t.rooms == s.rooms - {r}
                  && t.turn == TurnWithout(TurnWithout(s.turn, room.mode, ids), room.mode, (room.sessions - ids).Keys))
            && (room.users - {c} != map[] ==>
                  && t.rooms == s.rooms[r := RoomAfter(room, c, heir)]
                  && t.turn == TurnWithout(s.turn, room.mode, ids))
  {
    var r := Lookup(s, c);
    var room := s.rooms[r];
    var told := Say(s, multiset{CloseNotice(c, code, reason)});
    var ended := Say(Remove(told, r, c), EndShares(room.users - {c}, room.sessions, Involving(room.sessions, c), c));
    RemoveEffect(told, r, c);
    SettleEffect(ended, r, room.users[c].owner, heir);
    RemovedThenReplaced(s.rooms, r, ended.rooms[r], RoomAfter(room, c, heir));
  }

  lemma RemovedThenReplaced(rooms: map<RoomId, Room>, r: RoomId, room: Room, room': Room)
    ensures rooms[r := room] - {r} == rooms - {r}
    ensures rooms[r := room][r := room'] == rooms[r := room']
  {}

  lemma DisconnectKeepsShape(s: State, c: Xid, code: int, reason: string, heir: Xid)
    requires RoomsInv(s.rooms)
    requires Heirs(s, c) != {} ==> heir in Heirs(s, c)
    ensures RoomsInv(Disconnect(s, c, code, reason, heir).rooms)
  {
    if InRoom(s, c) {
      var r := Lookup(s, c);
      DisconnectEffect(s, c, code, reason, heir);
      if s.rooms[r].users - {c} != map[] {
        assert Heirs(s, c) == (s.rooms[r].users - {c}).Keys;
        LeavingKeepsShape(s.rooms[r], c, heir);
      }
      ShapeLifts(s.rooms, Disconnect(s, c, code, reason, heir).rooms, r);
    }
  }

  // ---- Successful events ----

  lemma JoinShape(s: State, info: ClientInfo, id: RoomId, userName: string, ch: Choice)
    requires Inv(s) && JoinError(s, info, id).None? && info.id in s.connected && ch.ipOk
    requires Covers(ch.grants, JoinPairs(s.rooms[id].users, info.id), s.issued)
    ensures RoomsInv(JoinRoom(s, info, id, userName, ch).state.rooms)
  {
    var t := JoinRoom(s, info, id, userName, ch).state;
    var user := NewUser(info, DisplayName(info, userName, ch.randomName), false);
    JoinTouches(s, info, id, userName, ch);
    if id != UNNAMED {
      NotAMemberYet(s, info.id, id);
      CoversLinks(s, id, ch.grants, JoinPairs(s.rooms[id].users, info.id));
      JoiningKeepsShape(s.rooms[id], user, ch.grants);
    }
    ShapeLifts(s.rooms, t.rooms, id);
  }

  lemma JoinTouches(s: State, info: ClientInfo, id: RoomId, userName: string, ch: Choice)
    requires JoinError(s, info, id).None?
    ensures var t := JoinRoom(s, info, id, userName, ch).state;
            && OnlyRoom(s.rooms, t.rooms, id)
            && id in t.rooms
            && var room := s.rooms[id];
               var user := NewUser(info, DisplayName(info, userName, ch.randomName), false);
               t.rooms[id] == room.(users := room.users[info.id := user],
                                    sessions := if ch.ipOk then Extended(room.sessions, ch.grants) else room.sessions)
  {
    var user := NewUser(info, DisplayName(info, userName, ch.randomName), false);
    Opened(Notify(AddMember(s, id, user), id), id, ch.grants);
  }

  lemma NotAMemberYet(s: State, c: Xid, r: RoomId)
    requires MembershipOk(s) && Lookup(s, c) == UNNAMED && r in s.rooms && r != UNNAMED
    ensures c !in s.rooms[r].users
  {}

  lemma NewRoomShape(info: ClientInfo, e: Event, ch: Choice)
    requires e.Create?
    ensures RoomInv(NewRoom(info, e, ch)) && UnnamedInv(NewRoom(info, e, ch))
  {
    LoneOwnerShape(NewRoom(info, e, ch), info.id);
  }

  lemma LoneOwnerShape(room: Room, c: Xid)
    requires room.users.Keys == {c} && room.sessions == map[]
    requires room.users[c].owner && !room.users[c].streaming && room.users[c].canShare
    ensures RoomInv(room) && UnnamedInv(room)
  {
    LoneOwner(room.users, c);
    assert Star(room.users, room.sessions);
  }

  lemma LoneOwner(users: map<Xid, User>, c: Xid)
    requires users.Keys == {c} && users[c].owner && !users[c].streaming && users[c].canShare
    ensures OneOwner(users) && StreamersOk(users)
  {
    assert forall d :: d in users ==> d == c;
  }

  lemma CreateTouches(s: State, info: ClientInfo, e: Event, ch: Choice)
    requires e.Create? && Lookup(s, info.id) == UNNAMED && e.id !in s.rooms && AuthError(s, info, e.mode).None?
    ensures CreateRoom(s, info, e, ch).state.rooms == s.rooms[e.id := NewRoom(info, e, ch)]
  {}

  lemma CreateShape(s: State, info: ClientInfo, e: Event, ch: Choice)
    requires e.Create? && RoomsInv(s.rooms) && Lookup(s, info.id) == UNNAMED && e.id !in s.rooms
    requires AuthError(s, info, e.mode).None?
    ensures RoomsInv(CreateRoom(s, info, e, ch).state.rooms)
  {
    var t := CreateRoom(s, info, e, ch).state;
    NewRoomShape(info, e, ch);
    CreateTouches(s, info, e, ch);
    ShapeLifts(s.rooms, t.rooms, e.id);
  }

  lemma NameShape(s: State, c: Xid, name: string)
    requires Inv(s)
    ensures RoomsInv(SetName(s, c, name).state.rooms)
  {
    MemberOfOwnRoom(s, c);
    if InRoom(s, c) {
      var r := s.connected[c];
      FlagShape(s.rooms[r], c, s.rooms[r].users[c].(name := name));
      ShapeLifts(s.rooms, SetName(s, c, name).state.rooms, r);
    }
  }

  /** In a star every host streams. */
  lemma StarHosts(room: Room)
    requires Star(room.users, room.sessions)
    ensures forall id :: id in room.sessions ==>
              room.sessions[id].host in room.users && room.users[room.sessions[id].host].streaming
  {
    forall id | id in room.sessions
      ensures room.sessions[id].host in room.users && room.users[room.sessions[id].host].streaming
    {
      assert StarEdge(room.users, room.sessions[id]);
    }
  }

  lemma ShareShape(s: State, c: Xid, ch: Choice)
    requires Inv(s) && ShareError(s, c).None? && ch.ipOk
    requires Covers(ch.grants, SharePairs(s.rooms[s.connected[c]].users, c), s.issued)
    ensures RoomsInv(StartShare(s, c, ch).state.rooms)
  {
    MemberOfOwnRoom(s, c);
    var r := s.connected[c];
    ShareTouches(s, c, ch);
    CoversLinks(s, r, ch.grants, SharePairs(s.rooms[r].users, c));
    SharingKeepsShape(s.rooms[r], c, ch.grants);
    ShapeLifts(s.rooms, StartShare(s, c, ch).state.rooms, r);
  }

  lemma ShareTouches(s: State, c: Xid, ch: Choice)
    requires ShareError(s, c).None? && InRoom(s, c)
    ensures var r := s.connected[c];
            var t := StartShare(s, c, ch).state;
            && OnlyRoom(s.rooms, t.rooms, r)
            && r in t.rooms
            && var room := s.rooms[r];
               t.rooms[r] == room.(users := room.users[c := room.users[c].(streaming := true)],
                                   sessions := if ch.ipOk then Extended(room.sessions, ch.grants) else room.sessions)
  {
    var r := s.connected[c];
    Opened(SetUsers(s, r, s.rooms[r].users[c := s.rooms[r].users[c].(streaming := true)]), r, ch.grants);
  }

  lemma StopShareShape(s: State, c: Xid)
    requires Inv(s)
    ensures RoomsInv(EndSharing(s, c).state.rooms)
  {
    hide SessionsOk, TurnOk, LogOk, MetricsOk, RoomInv, UnnamedInv, RosterPhase, EndShares;
    MemberOfOwnRoom(s, c);
    if InRoom(s, c) {
      var r := s.connected[c];
      StopShape(s.rooms[r], c, s.rooms[r].users[c].(streaming := false));
      ShapeLifts(s.rooms, EndSharing(s, c).state.rooms, r);
    }
  }

  /** Member `c` no longer streams: its sessions, and no others, close. */
  lemma StopShape(room: Room, c: Xid, user: User)
    requires RoomInv(room) && c in room.users && !user.streaming && user.owner == room.users[c].owner
    ensures RoomInv(room.(users := room.users[c := user], sessions := room.sessions - Hosted(room.sessions, c)))
  {
    StarHosts(room);
    StoppingKeepsShape(room, room.users[c := user], Hosted(room.sessions, c));
  }

  // ---- Owner actions ----

  lemma EnableAllShape(s: State, r: RoomId, c: Xid)
    requires RoomsInv(s.rooms) && r in s.rooms && r != UNNAMED
    ensures RoomsInv(Notify(SetUsers(s, r, Permit(s.rooms[r].users, s.rooms[r].users.Keys - {c}, true)), r).rooms)
  {
    hide OneOwner, UnnamedInv;
    var room := s.rooms[r];
    StarHosts(room);
    StoppingKeepsShape(room, Permit(room.users, room.users.Keys - {c}, true), {});
    assert room.sessions - {} == room.sessions;
    ShapeLifts(s.rooms, SetUsers(s, r, Permit(room.users, room.users.Keys - {c}, true)).rooms, r);
  }

  lemma DisableAllShape(s: State, r: RoomId, c: Xid)
    requires RoomsInv(s.rooms) && r in s.rooms && r != UNNAMED
    ensures RoomsInv(DisableAll(s, r, c).rooms)
  {
    hide OneOwner, UnnamedInv;
    var room := s.rooms[r];
    StarHosts(room);
    StoppingKeepsShape(room, Permit(room.users, room.users.Keys - {c}, false), HostedByOthers(room, c));
    ShapeLifts(s.rooms, DisableAll(s, r, c).rooms, r);
  }

  lemma StopTargetShape(s: State, r: RoomId, t: Xid)
    requires RoomsInv(s.rooms) && r in s.rooms && r != UNNAMED && t in s.rooms[r].users
    ensures RoomsInv(StopTarget(s, r, t).rooms)
  {
    StopShape(s.rooms[r], t, s.rooms[r].users[t].(streaming := false));
    ShapeLifts(s.rooms, StopTarget(s, r, t).rooms, r);
  }

  lemma ToggleShape(s: State, r: RoomId, t: Xid)
    requires RoomsInv(s.rooms) && r in s.rooms && r != UNNAMED && t in s.rooms[r].users
    ensures RoomsInv(TogglePermission(s, r, t).rooms)
  {
    var room := s.rooms[r];
    var user := room.users[t].(canShare := !room.users[t].canShare);
    if !user.canShare && user.streaming {
      StopShape(room, t, user.(streaming := false));
    } else {
      FlagShape(room, t, user);
    }
    ShapeLifts(s.rooms, TogglePermission(s, r, t).rooms, r);
  }

  /** A change that stops nobody's stream. */
  lemma FlagShape(room: Room, t: Xid, user: User)
    requires RoomInv(room) && t in room.users
    requires user.owner == room.users[t].owner && user.streaming == room.users[t].streaming
    requires user.streaming ==> user.canShare
    ensures RoomInv(room.(users := room.users[t := user]))
  {
    StarHosts(room);
    StoppingKeepsShape(room, room.users[t := user], {});
    assert room.sessions - {} == room.sessions;
  }

  lemma ExpelShape(s: State, r: RoomId, t: Xid, reason: string)
    requires RoomsInv(s.rooms) && r in s.rooms && r != UNNAMED && t in s.rooms[r].users && !s.rooms[r].users[t].owner
    ensures RoomsInv(Expel(s, r, t, reason).rooms)
  {
    LeavingKeepsShape(s.rooms[r], t, t);
    ShapeLifts(s.rooms, Expel(s, r, t, reason).rooms, r);
  }

  lemma BanShape(s: State, r: RoomId, addr: string)
    requires RoomsInv(s.rooms) && r in s.rooms && r != UNNAMED
    ensures RoomsInv(Ban(s, r, addr).rooms)
  {
    ShapeLifts(s.rooms, Ban(s, r, addr).rooms, r);
  }

  lemma ActOnShape(s: State, r: RoomId, c: Xid, action: string, t: Xid)
    requires RoomsInv(s.rooms) && r in s.rooms && r != UNNAMED && c in s.rooms[r].users && s.rooms[r].users[c].owner
    ensures RoomsInv(ActOn(s, r, c, action, t).state.rooms)
  {
    var users := s.rooms[r].users;
    if t in users && t != c {
      OtherIsNotOwner(s.rooms[r], c, t);
      if action == "stop_share" {
        StopTargetShape(s, r, t);
      } else if action == "toggle_share_permission" {
        ToggleShape(s, r, t);
      } else if action == "kick" {
        ExpelShape(s, r, t, "kickedByOwner");
      } else if action == "ban" {
        BanShape(s, r, users[t].addr);
        ExpelShape(Ban(s, r, users[t].addr), r, t, "bannedByOwner");
      }
    }
  }

  lemma OtherIsNotOwner(room: Room, c: Xid, t: Xid)
    requires RoomInv(room) && c in room.users && room.users[c].owner && t in room.users && t != c
    ensures !room.users[t].owner
  {}

  lemma GovernShape(s: State, c: Xid, action: string, target: Target)
    requires Inv(s)
    ensures RoomsInv(Govern(s, c, action, target).state.rooms)
  {
    hide SessionsOk, TurnOk, LogOk, MetricsOk, ActOn;
    MemberOfOwnRoom(s, c);
    if InRoom(s, c) && s.rooms[s.connected[c]].users[c].owner {
      var r := s.connected[c];
      if action == "enable_all" {
        EnableAllShape(s, r, c);
      } else if action == "disable_all" {
        DisableAllShape(s, r, c);
      } else if target.Target? {
        ActOnShape(s, r, c, action, target.id);
      }
    }
  }

  lemma DissolveShape(s: State, c: Xid)
    requires RoomsInv(s.rooms)
    ensures RoomsInv(DissolveRoom(s, c).state.rooms)
  {
    hide RoomInv, UnnamedInv, DissolveRoom;
    DissolvedRooms(s, c);
  }

  lemma DissolvedRooms(s: State, c: Xid)
    ensures var t := DissolveRoom(s, c).state;
            t.rooms == s.rooms || t.rooms == s.rooms - {Lookup(s, c)}
  {
    hide CloseSessions;
    var r := Lookup(s, c);
    if DissolveRoom(s, c).verdict.Done? {
      var told := Say(s.(connected := s.connected - s.rooms[r].users.Keys), DissolvePhase(s.rooms[r].users));
      ClosedRooms(told, r, s.rooms[r].sessions.Keys);
    }
  }

  lemma ClosedRooms(s: State, r: RoomId, ids: set<Xid>)
    requires r in s.rooms
    ensures CloseSessions(s, r, ids).rooms - {r} == s.rooms - {r}
  {}

  lemma PlainShape(s: State, info: ClientInfo, e: Event, ch: Choice)
    requires Inv(s) && Plain(e)
    requires Heirs(s, info.id) != {} ==> ch.heir in Heirs(s, info.id)
    ensures RoomsInv(Execute(s, info, e, ch).state.rooms)
  {
    hide Core, RoomsInv;
    var c := info.id;
    if IsForward(e) {
      ForwardShape(s, info, e, ch);
    } else {
      match e
      case Disconnected(code, reason) => DisconnectKeepsShape(s, c, code, reason, ch.heir);
      case Name(userName) => NameShape(s, c, userName);
      case StopShare => StopShareShape(s, c);
      case OwnerAction(action, target) => GovernShape(s, c, action, target);
      case Exit => DisconnectKeepsShape(s, c, CLOSE_NORMAL_CLOSURE, "User Left", ch.heir);
      case Dissolve => DissolveShape(s, c);
    }
  }

  predicate IsForward(e: Event) { e.HostOffer? || e.HostIce? || e.ClientAnswer? || e.ClientIce? }

  lemma ForwardShape(s: State, info: ClientInfo, e: Event, ch: Choice)
    requires IsForward(e)
    ensures Execute(s, info, e, ch).state.rooms == s.rooms
  {}

  lemma SuccessKeepsShape(s: State, m: ClientMessage, ch: Choice)
    requires Inv(s) && Enabled(s, m, ch) && Accepted(s, m)
    requires Execute(s, m.info, m.incoming, ch).verdict.Done?
    ensures RoomsInv(Execute(s, m.info, m.incoming, ch).state.rooms)
  {
    hide Core, RoomInv, UnnamedInv;
    if Plain(m.incoming) {
      PlainShape(s, m.info, m.incoming, ch);
    } else {
      match m.incoming
      case Connected =>
      case Create(id, _, _, userName, _) =>
        if id in s.rooms {
          JoinShape(s, m.info, id, userName, ch);
        } else {
          CreateShape(s, m.info, m.incoming, ch);
        }
      case Join(id, userName) => JoinShape(s, m.info, id, userName, ch);
      case Share => ShareShape(s, m.info.id, ch);
    }
  }
}
