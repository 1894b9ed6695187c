/** Executing any event, successfully or not, keeps `Core`; so does the disconnect that follows a failure. */
module Events {
  import opened Types
  import opened RoomModel
  import opened Invariant
  import opened Elementary

  // ---- Phases that announce nothing ----

  lemma RosterIsQuiet(room: Room)
    ensures Quiet(RosterPhase(room))
  {}

  lemma EndSharesAreQuiet(users: map<Xid, User>, sessions: map<Xid, Session>, ids: set<Xid>, c: Xid)
    ensures Quiet(EndShares(users, sessions, ids, c))
  {}

  lemma DissolvePhaseIsQuiet(users: map<Xid, User>)
    ensures Quiet(DissolvePhase(users))
  {}

  lemma NotifyKeeps(s: State, r: RoomId)
    requires Core(s) && r in s.rooms
    ensures Core(Notify(s, r))
  {
    RosterIsQuiet(s.rooms[r]);
    SayKeeps(s, RosterPhase(s.rooms[r]));
  }

  // ---- Consequences of Core ----

  /** A client with a room is a member of it: "room may already be removed" never happens. */
  lemma MemberOfOwnRoom(s: State, c: Xid)
    requires IdsOk(s) && MembershipOk(s)
    ensures Lookup(s, c) != UNNAMED <==> InRoom(s, c)
    ensures InRoom(s, c) ==> CurrentRoomError(s, c).None? && s.connected[c] == Lookup(s, c)
    ensures CurrentRoomError(s, c).None? ==> InRoom(s, c)
  {}

  lemma SessionEnds(s: State, r: RoomId, id: Xid)
    requires SessionsOk(s) && r in s.rooms && id in s.rooms[r].sessions
    ensures var session := s.rooms[r].sessions[id];
            && session.host in s.rooms[r].users && session.client in s.rooms[r].users
            && session.host != session.client
  {
    assert SessionOk(s, r, id);
  }

  lemma KeepsIds(s: State, r: RoomId, c: Xid)
    requires IdsOk(s) && r in s.rooms && c in s.rooms[r].users
    ensures s.rooms[r].users[c].id == c && s.rooms[r].id == r
  {}

  // ---- Disconnecting ----

  lemma SettleKeeps(s: State, r: RoomId, wasOwner: bool, heir: Xid)
    requires Core(s) && r in s.rooms && r != UNNAMED
    ensures Core(Settle(s, r, wasOwner, heir))
  {
    hide MembershipOk, SessionsOk, TurnOk, LogOk, MetricsOk, CloseRoom, RosterPhase;
    var users := s.rooms[r].users;
    if users == map[] {
      assert s.(connected := s.connected - users.Keys) == s by {
        assert s.connected - users.Keys == s.connected;
      }
      CloseRoomKeeps(s, r);
    } else if wasOwner {
      CrownKeepsMembers(s, r, heir);
      SetUsersKeeps(s, r, Crown(users, heir));
      NotifyKeeps(SetUsers(s, r, Crown(users, heir)), r);
    } else {
      NotifyKeeps(s, r);
    }
  }

  lemma CrownKeepsMembers(s: State, r: RoomId, heir: Xid)
    requires IdsOk(s) && r in s.rooms
    ensures SameMembers(s.rooms[r].users, Crown(s.rooms[r].users, heir))
  {}

  lemma DisconnectKeepsCore(s: State, c: Xid, code: int, reason: string, heir: Xid)
    requires Core(s)
    ensures Core(Disconnect(s, c, code, reason, heir))
  {
    var r := Lookup(s, c);
    var told := Say(s, multiset{CloseNotice(c, code, reason)});
    SayKeeps(s, multiset{CloseNotice(c, code, reason)});
    MemberOfOwnRoom(s, c);
    if !InRoom(s, c) {
      ForgetKeeps(told, c);
    } else {
      var room := s.rooms[r];
      RemoveKeeps(told, r, c);
      var phase := EndShares(room.users - {c}, room.sessions, Involving(room.sessions, c), c);
      EndSharesAreQuiet(room.users - {c}, room.sessions, Involving(room.sessions, c), c);
      SayKeeps(Remove(told, r, c), phase);
      SettleKeeps(Say(Remove(told, r, c), phase), r, room.users[c].owner, heir);
    }
  }

  // ---- Joining and creating ----

  /** Granted sessions join members of the room the event is about. */
  lemma JoinGrants(s: State, id: RoomId, info: ClientInfo, user: User, grants: seq<Grant>)
    requires RoomsInv(s.rooms) && id in s.rooms && user.id == info.id
    requires Covers(grants, JoinPairs(s.rooms[id].users, info.id), s.issued)
    ensures AllOpenable(Notify(AddMember(s, id, user), id), id, grants)
  {
    var t := Notify(AddMember(s, id, user), id);
    forall i | 0 <= i < |grants|
      ensures Openable(t, id, grants[i])
    {
      assert PairOf(grants[i]) in JoinPairs(s.rooms[id].users, info.id);
    }
  }

  lemma JoinKeepsCore(s: State, info: ClientInfo, id: RoomId, userName: string, ch: Choice)
    requires Core(s) && RoomsInv(s.rooms) && info.id in s.connected
    requires ch.ipOk && JoinError(s, info, id).None? ==>
               Covers(ch.grants, JoinPairs(s.rooms[id].users, info.id), s.issued)
    ensures Core(JoinRoom(s, info, id, userName, ch).state)
  {
    if JoinError(s, info, id).None? {
      var user := NewUser(info, DisplayName(info, userName, ch.randomName), false);
      AddMemberKeeps(s, id, user);
      NotifyKeeps(AddMember(s, id, user), id);
      if ch.ipOk {
        JoinGrants(s, id, info, user, ch.grants);
        OpenSessionsKeeps(Notify(AddMember(s, id, user), id), id, ch.grants);
      }
    }
  }

  lemma CreateKeepsCore(s: State, info: ClientInfo, e: Event, ch: Choice)
    requires e.Create? && Core(s) && RoomsInv(s.rooms) && info.id in s.connected
    requires ch.ipOk && e.joinIfExist && e.id in s.rooms && JoinError(s, info, e.id).None? ==>
               Covers(ch.grants, JoinPairs(s.rooms[e.id].users, info.id), s.issued)
    ensures Core(CreateRoom(s, info, e, ch).state)
  {
    hide SessionsOk, TurnOk, LogOk, MetricsOk, MembershipOk, RoomsInv, Covers, JoinRoom, RosterPhase;
    if Lookup(s, info.id) == UNNAMED {
      if e.id in s.rooms {
        if e.joinIfExist {
          JoinKeepsCore(s, info, e.id, e.userName, ch);
        }
      } else if AuthError(s, info, e.mode).None? {
        var room := NewRoom(info, e, ch);
        OpenRoomKeeps(s, room, info.id);
        NotifyKeeps(OpenRoom(s, room, info.id), e.id);
      }
    }
  }

  // ---- Inside a room ----

  lemma NameKeepsCore(s: State, c: Xid, name: string)
    requires Core(s)
    ensures Core(SetName(s, c, name).state)
  {
    hide SessionsOk, TurnOk, LogOk, MetricsOk, MembershipOk, RosterPhase;
    if InRoom(s, c) && CurrentRoomError(s, c).None? {
      var r := s.connected[c];
      var users := s.rooms[r].users[c := s.rooms[r].users[c].(name := name)];
      KeepsMembers(s, r, users);
      SetUsersKeeps(s, r, users);
      NotifyKeeps(SetUsers(s, r, users), r);
    }
  }

  /** Changing flags and names keeps the members. */
  lemma KeepsMembers(s: State, r: RoomId, users: map<Xid, User>)
    requires IdsOk(s) && r in s.rooms && users.Keys == s.rooms[r].users.Keys
    requires forall c :: c in users ==> users[c].id == s.rooms[r].users[c].id && users[c].addr == s.rooms[r].users[c].addr
    ensures SameMembers(s.rooms[r].users, users)
  {}

  lemma ShareGrants(s: State, r: RoomId, c: Xid, users: map<Xid, User>, grants: seq<Grant>)
    requires r in s.rooms && r != UNNAMED && c in s.rooms[r].users && users.Keys == s.rooms[r].users.Keys
    requires Covers(grants, SharePairs(s.rooms[r].users, c), s.issued)
    ensures AllOpenable(SetUsers(s, r, users), r, grants)
  {
    var t := SetUsers(s, r, users);
    forall i | 0 <= i < |grants|
      ensures Openable(t, r, grants[i])
    {
      assert PairOf(grants[i]) in SharePairs(s.rooms[r].users, c);
    }
  }

  lemma ShareKeepsCore(s: State, c: Xid, ch: Choice)
    requires Core(s)
    requires ch.ipOk && ShareError(s, c).None? ==>
               Covers(ch.grants, SharePairs(s.rooms[s.connected[c]].users, c), s.issued)
    ensures Core(StartShare(s, c, ch).state)
  {
    MemberOfOwnRoom(s, c);
    if ShareError(s, c).None? {
      var r := s.connected[c];
      var users := s.rooms[r].users[c := s.rooms[r].users[c].(streaming := true)];
      var on := SetUsers(s, r, users);
      KeepsMembers(s, r, users);
      SetUsersKeeps(s, r, users);
      if ch.ipOk {
        ShareGrants(s, r, c, users, ch.grants);
        OpenSessionsKeeps(on, r, ch.grants);
        NotifyKeeps(OpenSessions(on, r, ch.grants), r);
      }
    }
  }

  /** Set flags, close sessions: what stopping a stream does, whoever asks for it. */
  lemma StopKeepsCore(s: State, r: RoomId, users: map<Xid, User>, ids: set<Xid>)
    requires Core(s) && r in s.rooms && SameMembers(s.rooms[r].users, users) && ids <= s.rooms[r].sessions.Keys
    ensures Core(CloseSessions(SetUsers(s, r, users), r, ids))
  {
    SetUsersKeeps(s, r, users);
    CloseSessionsKeeps(SetUsers(s, r, users), r, ids);
  }

  lemma StopShareKeepsCore(s: State, c: Xid)
    requires Core(s)
    ensures Core(EndSharing(s, c).state)
  {
    hide SessionsOk, TurnOk, LogOk, MetricsOk, RosterPhase, EndShares;
    MemberOfOwnRoom(s, c);
    if CurrentRoomError(s, c).None? {
      var r := s.connected[c];
      var room := s.rooms[r];
      var users := room.users[c := room.users[c].(streaming := false)];
      var ids := Hosted(room.sessions, c);
      KeepsMembers(s, r, users);
      StopKeepsCore(s, r, users, ids);
      var closed := CloseSessions(SetUsers(s, r, users), r, ids);
      EndSharesAreQuiet(room.users, room.sessions, ids, c);
      SayKeeps(closed, EndShares(room.users, room.sessions, ids, c));
      NotifyKeeps(Say(closed, EndShares(room.users, room.sessions, ids, c)), r);
    }
  }

  lemma ForwardKeepsCore(s: State, c: Xid, kind: RelayKind, sid: Xid, value: string)
    requires Core(s)
    ensures Core(Forward(s, c, kind, sid, value).state)
  {
    var t := Forward(s, c, kind, sid, value).state;
    if t != s {
      var session := s.rooms[s.connected[c]].sessions[sid];
      var receiver := if kind.OfferFromHost? || kind.IceFromHost? then session.client else session.host;
      SayKeeps(s, multiset{Delivery(receiver, Relay(kind, sid, value))});
    }
  }

  // ---- Owner actions ----

  lemma EnableAllKeepsCore(s: State, r: RoomId, c: Xid)
    requires Core(s) && r in s.rooms
    ensures Core(Notify(SetUsers(s, r, Permit(s.rooms[r].users, s.rooms[r].users.Keys - {c}, true)), r))
  {
    var users := Permit(s.rooms[r].users, s.rooms[r].users.Keys - {c}, true);
    KeepsMembers(s, r, users);
    SetUsersKeeps(s, r, users);
    NotifyKeeps(SetUsers(s, r, users), r);
  }

  lemma DisableAllKeepsCore(s: State, r: RoomId, c: Xid)
    requires Core(s) && r in s.rooms
    ensures Core(DisableAll(s, r, c))
  {
    var room := s.rooms[r];
    var users := Permit(room.users, room.users.Keys - {c}, false);
    KeepsMembers(s, r, users);
    StopKeepsCore(s, r, users, HostedByOthers(room, c));
    NotifyKeeps(CloseSessions(SetUsers(s, r, users), r, HostedByOthers(room, c)), r);
  }

  lemma StopTargetKeepsCore(s: State, r: RoomId, t: Xid)
    requires Core(s) && r in s.rooms && t in s.rooms[r].users
    ensures Core(StopTarget(s, r, t))
  {
    var room := s.rooms[r];
    if room.users[t].streaming {
      var users := room.users[t := room.users[t].(streaming := false)];
      KeepsMembers(s, r, users);
      StopKeepsCore(s, r, users, Hosted(room.sessions, t));
      NotifyKeeps(CloseSessions(SetUsers(s, r, users), r, Hosted(room.sessions, t)), r);
    }
  }

  lemma ToggleKeepsCore(s: State, r: RoomId, t: Xid)
    requires Core(s) && r in s.rooms && t in s.rooms[r].users
    ensures Core(TogglePermission(s, r, t))
  {
    var room := s.rooms[r];
    var user := room.users[t].(canShare := !room.users[t].canShare);
    if !user.canShare && user.streaming {
      var users := room.users[t := user.(streaming := false)];
      KeepsMembers(s, r, users);
      StopKeepsCore(s, r, users, Hosted(room.sessions, t));
      NotifyKeeps(CloseSessions(SetUsers(s, r, users), r, Hosted(room.sessions, t)), r);
    } else {
      var users := room.users[t := user];
      KeepsMembers(s, r, users);
      SetUsersKeeps(s, r, users);
      NotifyKeeps(SetUsers(s, r, users), r);
    }
  }

  lemma ExpelKeepsCore(s: State, r: RoomId, t: Xid, reason: string)
    requires Core(s) && r in s.rooms && r != UNNAMED && t in s.rooms[r].users
    ensures Core(Expel(s, r, t, reason))
  {
    RemoveKeeps(s, r, t);
    var notice := multiset{CloseNotice(t, CLOSE_NORMAL_CLOSURE, reason)};
    SayKeeps(Remove(s, r, t), notice);
    NotifyKeeps(Say(Remove(s, r, t), notice), r);
  }

  lemma ActOnKeepsCore(s: State, r: RoomId, c: Xid, action: string, t: Xid)
    requires Core(s) && r in s.rooms && r != UNNAMED
    ensures Core(ActOn(s, r, c, action, t).state)
  {
    var users := s.rooms[r].users;
    if t in users && t != c {
      if action == "stop_share" {
        StopTargetKeepsCore(s, r, t);
      } else if action == "toggle_share_permission" {
        ToggleKeepsCore(s, r, t);
      } else if action == "kick" {
        ExpelKeepsCore(s, r, t, "kickedByOwner");
      } else if action == "ban" {
        BanKeeps(s, r, users[t].addr);
        ExpelKeepsCore(Ban(s, r, users[t].addr), r, t, "bannedByOwner");
      }
    }
  }

  lemma GovernKeepsCore(s: State, c: Xid, action: string, target: Target)
    requires Core(s)
    ensures Core(Govern(s, c, action, target).state)
  {
    hide MembersOk, SessionsOk, TurnOk, LogOk, MetricsOk, ActOn;
    if CurrentRoomError(s, c).None? {
      var r := s.connected[c];
      if action == "enable_all" {
        EnableAllKeepsCore(s, r, c);
      } else if action == "disable_all" {
        DisableAllKeepsCore(s, r, c);
      } else if target.Target? {
        ActOnKeepsCore(s, r, c, action, target.id);
      }
    }
  }

  lemma DissolveKeepsCore(s: State, c: Xid)
    requires Core(s)
    ensures Core(DissolveRoom(s, c).state)
  {
    var r := Lookup(s, c);
    if DissolveRoom(s, c).verdict.Done? {
      var users := s.rooms[r].users;
      DissolvePhaseIsQuiet(users);
      SayKeeps(s, DissolvePhase(users));
      CloseRoomKeeps(Say(s, DissolvePhase(users)), r);
    }
  }

  // ---- All events ----

  /** Events that open no session. */
  predicate Plain(e: Event) { !e.Connected? && !e.Create? && !e.Join? && !e.Share? }

  lemma PlainKeepsCore(s: State, info: ClientInfo, e: Event, ch: Choice)
    requires Core(s) && Plain(e)
    ensures Core(Execute(s, info, e, ch).state)
  {
    hide Core;
    var c := info.id;
    match e
    case Disconnected(code, reason) => DisconnectKeepsCore(s, c, code, reason, ch.heir);
    case Name(userName) => NameKeepsCore(s, c, userName);
    case StopShare => StopShareKeepsCore(s, c);
    case HostOffer(sid, value) => ForwardKeepsCore(s, c, OfferFromHost, sid, value);
    case HostIce(sid, value) => ForwardKeepsCore(s, c, IceFromHost, sid, value);
    case ClientAnswer(sid, value) => ForwardKeepsCore(s, c, AnswerFromClient, sid, value);
    case ClientIce(sid, value) => ForwardKeepsCore(s, c, IceFromClient, sid, value);
    case OwnerAction(action, target) => GovernKeepsCore(s, c, action, target);
    case Exit => DisconnectKeepsCore(s, c, CLOSE_NORMAL_CLOSURE, "User Left", ch.heir);
    case Dissolve => DissolveKeepsCore(s, c);
  }

  lemma ExecuteKeepsCore(s: State, m: ClientMessage, ch: Choice)
    requires Core(s) && RoomsInv(s.rooms) && Enabled(s, m, ch) && Accepted(s, m)
    ensures Core(Execute(s, m.info, m.incoming, ch).state)
  {
    hide Core, RoomsInv;
    if Plain(m.incoming) {
      PlainKeepsCore(s, m.info, m.incoming, ch);
    } else {
      match m.incoming
      case Connected => ConnectKeeps(s, m.info.id);
      case Create(_, _, _, _, _) => CreateKeepsCore(s, m.info, m.incoming, ch);
      case Join(id, userName) => JoinKeepsCore(s, m.info, id, userName, ch);
      case Share => ShareKeepsCore(s, m.info.id, ch);
    }
  }

  lemma ApplyKeepsCore(s: State, m: ClientMessage, ch: Choice)
    requires Inv(s) && Enabled(s, m, ch)
    ensures Core(Apply(s, m, ch))
  {
    if Accepted(s, m) {
      ExecuteKeepsCore(s, m, ch);
      var outcome := Execute(s, m.info, m.incoming, ch);
      if outcome.verdict.Failed? {
        DisconnectKeepsCore(outcome.state, m.info.id, CLOSE_NORMAL_CLOSURE, outcome.verdict.reason, ch.heir);
      }
    }
  }
}
