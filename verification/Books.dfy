/** What each event does to the counters that only go up, and to what rooms are founded with. */
module Books {
  import M = RoomModel
  import opened Types
  import opened Rules
  import opened RoomModel
  import opened Invariant
  import opened Counting
  import opened Elementary
  import opened Shape

  /** Nobody joined, nothing was founded or opened. */
  predicate SameBooks(s: State, t: State) {
    && t.rejoined == s.rejoined && t.authMode == s.authMode && t.issued == s.issued
    && t.metrics.roomsCreated == s.metrics.roomsCreated
    && t.metrics.usersJoined == s.metrics.usersJoined
    && t.metrics.sessionsCreated == s.metrics.sessionsCreated
  }

  predicate SameCharter(a: Room, b: Room) {
    a.id == b.id && a.mode == b.mode && a.closeOnOwnerLeave == b.closeOnOwnerLeave && a.banned == b.banned
  }

  /** The rooms there are were there before, with the same name, mode and bans. */
  ghost predicate SameCharters(s: State, t: State) {
    forall r :: r in t.rooms ==> r in s.rooms && SameCharter(s.rooms[r], t.rooms[r])
  }

  // ---- Leaving ----

  lemma RemovingKeepsBooks(s: State, r: RoomId, c: Xid)
    requires r in s.rooms
    ensures SameBooks(s, Remove(s, r, c))
  {
    hide Involving, HostNames, ClientNames;
  }

  lemma SettlingKeepsBooks(s: State, r: RoomId, wasOwner: bool, heir: Xid)
    requires r in s.rooms
    ensures SameBooks(s, Settle(s, r, wasOwner, heir))
  {
    hide RosterPhase, HostNames, ClientNames, Crown;
  }

  lemma DisconnectKeepsBooks(s: State, c: Xid, code: int, reason: string, heir: Xid)
    ensures SameBooks(s, Disconnect(s, c, code, reason, heir))
  {
    hide EndShares, Involving, Remove, Settle;
    if InRoom(s, c) {
      var r := Lookup(s, c);
      var room := s.rooms[r];
      var told := Say(s, multiset{CloseNotice(c, code, reason)});
      var phase := EndShares(room.users - {c}, room.sessions, Involving(room.sessions, c), c);
      StillThere(told, r, c);
      RemovingKeepsBooks(told, r, c);
      SettlingKeepsBooks(Say(Remove(told, r, c), phase), r, room.users[c].owner, heir);
    }
  }

  lemma StillThere(s: State, r: RoomId, c: Xid)
    requires r in s.rooms
    ensures r in Remove(s, r, c).rooms
  {
    hide Involving, HostNames, ClientNames;
  }

  lemma DisconnectKeepsCharters(s: State, c: Xid, code: int, reason: string, heir: Xid)
    ensures SameCharters(s, Disconnect(s, c, code, reason, heir))
  {
    hide Disconnect, Involving, Crown;
    if InRoom(s, c) {
      DisconnectEffect(s, c, code, reason, heir);
    } else {
      NobodyLeft(s, c, code, reason, heir);
    }
  }

  lemma NobodyLeft(s: State, c: Xid, code: int, reason: string, heir: Xid)
    requires !InRoom(s, c)
    ensures Disconnect(s, c, code, reason, heir).rooms == s.rooms
  {}

  // ---- Opening sessions ----

  lemma {:induction false} OpeningBooks(s: State, r: RoomId, grants: seq<Grant>)
    requires r in s.rooms && FreshGrants(grants, s.issued)
    ensures var t := OpenSessions(s, r, grants);
            && t.rejoined == s.rejoined && t.authMode == s.authMode
            && t.metrics.roomsCreated == s.metrics.roomsCreated && t.metrics.usersJoined == s.metrics.usersJoined
            && t.metrics.sessionsCreated == s.metrics.sessionsCreated + |grants|
            && |t.issued| == |s.issued| + |grants|
  {
    hide Allowed, HostNotice, ClientNotice;
    if grants != [] {
      var before, last := grants[..|grants| - 1], grants[|grants| - 1];
      var t := OpenSessions(s, r, before);
      OpeningBooks(s, r, before);
      OpenedIssues(s, r, before);
      assert last.id !in t.issued;
      UpdateThenRemove(t.issued, last.id, Issue(t.rooms[r].id, t.rooms[r].mode, last));
    }
  }

  lemma OpeningKeepsCharters(s: State, r: RoomId, grants: seq<Grant>)
    requires r in s.rooms
    ensures SameCharters(s, OpenSessions(s, r, grants))
  {
    Opened(s, r, grants);
  }

  // ---- Joining, founding, sharing ----

  /** One more joined, again or not; late or in time. */
  lemma JoiningBooks(s: State, info: ClientInfo, id: RoomId, userName: string, ch: Choice)
    requires JoinError(s, info, id).None? && (ch.ipOk ==> FreshGrants(ch.grants, s.issued))
    ensures var t := JoinRoom(s, info, id, userName, ch).state;
            && t.rejoined == s.rejoined + (if info.id in s.rooms[id].users then 1 else 0)
            && t.authMode == s.authMode
            && t.metrics.roomsCreated == s.metrics.roomsCreated && t.metrics.usersJoined == s.metrics.usersJoined + 1
            && t.metrics.sessionsCreated - |t.issued| == s.metrics.sessionsCreated - |s.issued|
  {
    hide RosterPhase, OpenSessions;
    if ch.ipOk {
      var user := NewUser(info, DisplayName(info, userName, ch.randomName), false);
      OpeningBooks(Notify(AddMember(s, id, user), id), id, ch.grants);
    }
  }

  lemma JoiningKeepsCharters(s: State, info: ClientInfo, id: RoomId, userName: string, ch: Choice)
    ensures SameCharters(s, JoinRoom(s, info, id, userName, ch).state)
  {
    hide RosterPhase, OpenSessions;
    if JoinError(s, info, id).None? {
      var user := NewUser(info, DisplayName(info, userName, ch.randomName), false);
      OpeningKeepsCharters(Notify(AddMember(s, id, user), id), id, ch.grants);
    }
  }

  lemma SharingBooks(s: State, c: Xid, ch: Choice)
    requires ch.ipOk && ShareError(s, c).None? ==> FreshGrants(ch.grants, s.issued)
    ensures var t := StartShare(s, c, ch).state;
            && t.rejoined == s.rejoined && t.authMode == s.authMode
            && t.metrics.roomsCreated == s.metrics.roomsCreated && t.metrics.usersJoined == s.metrics.usersJoined
            && t.metrics.sessionsCreated - |t.issued| == s.metrics.sessionsCreated - |s.issued|
  {
    hide RosterPhase, OpenSessions, FreshGrants;
    if ch.ipOk && ShareError(s, c).None? && c in s.rooms[s.connected[c]].users {
      var r := s.connected[c];
      OpeningBooks(SetUsers(s, r, s.rooms[r].users[c := s.rooms[r].users[c].(streaming := true)]), r, ch.grants);
    }
  }

  lemma SharingKeepsCharters(s: State, c: Xid, ch: Choice)
    ensures SameCharters(s, StartShare(s, c, ch).state)
  {
    hide RosterPhase, OpenSessions;
    if ShareError(s, c).None? && c in s.rooms[s.connected[c]].users {
      var r := s.connected[c];
      OpeningKeepsCharters(SetUsers(s, r, s.rooms[r].users[c := s.rooms[r].users[c].(streaming := true)]), r, ch.grants);
    }
  }

  // ---- Everything else ----

  lemma ChangeKeepsBooks(s: State, r: RoomId, users: map<Xid, User>, ids: set<Xid>)
    requires r in s.rooms
    ensures SameBooks(s, Notify(SetUsers(s, r, users), r)) && SameCharters(s, Notify(SetUsers(s, r, users), r))
    ensures var t := Notify(CloseSessions(SetUsers(s, r, users), r, ids), r); SameBooks(s, t) && SameCharters(s, t)
  {
    hide RosterPhase, HostNames, ClientNames;
  }

  lemma FlagsKeepBooks(s: State, r: RoomId, t: Xid)
    requires r in s.rooms && t in s.rooms[r].users
    ensures SameBooks(s, StopTarget(s, r, t)) && SameCharters(s, StopTarget(s, r, t))
    ensures SameBooks(s, TogglePermission(s, r, t)) && SameCharters(s, TogglePermission(s, r, t))
  {
    hide RosterPhase, Hosted, CloseSessions, SameCharter;
    var room := s.rooms[r];
    var user := room.users[t].(canShare := !room.users[t].canShare);
    SameItself(s);
    ChangeKeepsBooks(s, r, room.users[t := room.users[t].(streaming := false)], Hosted(room.sessions, t));
    ChangeKeepsBooks(s, r, room.users[t := user.(streaming := false)], Hosted(room.sessions, t));
    ChangeKeepsBooks(s, r, room.users[t := user], {});
  }

  lemma ExpelKeepsBooks(s: State, r: RoomId, t: Xid, reason: string)
    requires r in s.rooms
    ensures SameBooks(s, Expel(s, r, t, reason)) && SameCharters(s, Expel(s, r, t, reason))
  {
    hide RosterPhase, Involving, HostNames, ClientNames;
  }

  lemma ActOnKeepsBooks(s: State, r: RoomId, c: Xid, action: string, t: Xid)
    requires r in s.rooms
    ensures SameBooks(s, ActOn(s, r, c, action, t).state)
    ensures action != "ban" ==> SameCharters(s, ActOn(s, r, c, action, t).state)
    ensures action == "ban" && t in s.rooms[r].users && t != c ==>
              SameCharters(Ban(s, r, s.rooms[r].users[t].addr), ActOn(s, r, c, action, t).state)
    ensures action == "ban" && !(t in s.rooms[r].users && t != c) ==> ActOn(s, r, c, action, t).state == s
  {
    hide StopTarget, TogglePermission, Expel, SameCharter;
    assert SameCharters(s, s) by { SameItself(s); }
    if t in s.rooms[r].users {
      FlagsKeepBooks(s, r, t);
      ExpelKeepsBooks(s, r, t, "kickedByOwner");
      ExpelKeepsBooks(Ban(s, r, s.rooms[r].users[t].addr), r, t, "bannedByOwner");
    }
  }

  lemma SameItself(s: State)
    ensures SameCharters(s, s)
  {}

  lemma AllKeepBooks(s: State, r: RoomId, c: Xid)
    requires r in s.rooms
    ensures var users := s.rooms[r].users;
            var on := SetUsers(s, r, Permit(users, users.Keys - {c}, true));
            r in on.rooms && SameBooks(s, Notify(on, r)) && SameCharters(s, Notify(on, r))
    ensures SameBooks(s, M.DisableAll(s, r, c)) && SameCharters(s, M.DisableAll(s, r, c))
  {
    hide RosterPhase, Permit, HostedByOthers, CloseSessions, SameCharter;
    var room := s.rooms[r];
    ChangeKeepsBooks(s, r, Permit(room.users, room.users.Keys - {c}, true), {});
    ChangeKeepsBooks(s, r, Permit(room.users, room.users.Keys - {c}, false), HostedByOthers(room, c));
  }

  lemma GovernKeepsBooks(s: State, c: Xid, action: string, target: Target)
    ensures SameBooks(s, Govern(s, c, action, target).state)
    ensures action != "ban" ==> SameCharters(s, Govern(s, c, action, target).state)
  {
    hide Permit, ActOn, M.DisableAll, SetUsers, Notify, SameCharters;
    SameItself(s);
    if CurrentRoomError(s, c).None? {
      AllKeepBooks(s, s.connected[c], c);
      if target.Target? {
        ActOnKeepsBooks(s, s.connected[c], c, action, target.id);
      }
    }
  }

  /** Events that are neither about entering nor about sharing nor about leaving. */
  lemma PlainKeepsBooks(s: State, info: ClientInfo, e: Event, ch: Choice)
    requires !e.Join? && !e.Create? && !e.Share? && !e.Disconnected? && !e.Exit?
    ensures SameBooks(s, Execute(s, info, e, ch).state)
    ensures !(e.OwnerAction? && e.action == "ban") ==> SameCharters(s, Execute(s, info, e, ch).state)
  {
    hide Govern, DissolveRoom, EndSharing, SameCharters;
    SameItself(s);
    if e.OwnerAction? {
      GovernKeepsBooks(s, info.id, e.action, e.target);
    } else if e.Dissolve? {
      DissolveKeepsBooks(s, info.id);
    } else if e.StopShare? {
      StoppingKeepsBooks(s, info.id);
    } else {
      NamingKeepsBooks(s, info, e, ch);
    }
  }

  lemma DissolveKeepsBooks(s: State, c: Xid)
    ensures SameBooks(s, DissolveRoom(s, c).state) && SameCharters(s, DissolveRoom(s, c).state)
  {
    hide DissolvePhase, CloseRoom, SameCharter;
    SameItself(s);
    if DissolveRoom(s, c).verdict.Done? {
      var r := Lookup(s, c);
      var users := s.rooms[r].users;
      ClosingKeepsBooks(Say(s.(connected := s.connected - users.Keys), DissolvePhase(users)), r);
    }
  }

  lemma ClosingKeepsBooks(s: State, r: RoomId)
    requires r in s.rooms
    ensures SameBooks(s, CloseRoom(s, r)) && SameCharters(s, CloseRoom(s, r))
  {
    hide HostNames, ClientNames;
  }

  lemma StoppingKeepsBooks(s: State, c: Xid)
    ensures SameBooks(s, EndSharing(s, c).state) && SameCharters(s, EndSharing(s, c).state)
  {
    hide RosterPhase, EndShares, Hosted, HostNames, ClientNames;
  }

  lemma NamingKeepsBooks(s: State, info: ClientInfo, e: Event, ch: Choice)
    requires e.Connected? || e.Name? || e.HostOffer? || e.HostIce? || e.ClientAnswer? || e.ClientIce?
    ensures SameBooks(s, Execute(s, info, e, ch).state) && SameCharters(s, Execute(s, info, e, ch).state)
  {
    hide Forward, SameCharter, RosterPhase;
    SameItself(s);
    match e
    case HostOffer(sid, value) => SignalKeepsBooks(s, info.id, OfferFromHost, sid, value);
    case HostIce(sid, value) => SignalKeepsBooks(s, info.id, IceFromHost, sid, value);
    case ClientAnswer(sid, value) => SignalKeepsBooks(s, info.id, AnswerFromClient, sid, value);
    case ClientIce(sid, value) => SignalKeepsBooks(s, info.id, IceFromClient, sid, value);
    case Connected =>
    case Name(name) =>
      if CurrentRoomError(s, info.id).None? && info.id in s.rooms[s.connected[info.id]].users {
        var r := s.connected[info.id];
        ChangeKeepsBooks(s, r, s.rooms[r].users[info.id := s.rooms[r].users[info.id].(name := name)], {});
      }
  }

  lemma SignalKeepsBooks(s: State, c: Xid, kind: RelayKind, sid: Xid, value: string)
    ensures SameBooks(s, Forward(s, c, kind, sid, value).state) && SameCharters(s, Forward(s, c, kind, sid, value).state)
  {
    hide CurrentRoomError, SameCharter;
    SameItself(s);
  }

  // ---- One step ----

  /** What a step adds to the books: founders and entrants, rejoining or not; sessions as they are issued. */
  predicate BookedBy(s: State, m: ClientMessage, t: State) {
    && t.authMode == s.authMode
    && t.rejoined == s.rejoined + (if Rejoins(s, m) then 1 else 0)
    && t.metrics.roomsCreated == s.metrics.roomsCreated + (if Founds(s, m) then 1 else 0)
    && t.metrics.usersJoined == s.metrics.usersJoined + (if Founds(s, m) || Enters(s, m) then 1 else 0)
    && t.metrics.sessionsCreated - |t.issued| == s.metrics.sessionsCreated - |s.issued|
  }

  lemma EntersByRule(s: State, info: ClientInfo, e: Event)
    requires info.id in s.connected && (e.Join? || e.Create?)
    ensures JoinError(s, info, e.id).None?
            <==> Outside(s, info.id) && e.id in s.rooms && info.addr !in s.rooms[e.id].banned
  {}

  lemma AuthByRule(s: State, info: ClientInfo, mode: string)
    ensures AuthError(s, info, mode).None? <==> MayFound(s.authMode, info.authenticated, mode)
  {}

  lemma NotListedYet(s: State, c: Xid, r: RoomId)
    requires MembersOk(s.connected, s.rooms) && Outside(s, c) && r in s.rooms
    ensures c in s.rooms[r].users ==> r == UNNAMED
  {}

  lemma GrantsOfJoin(s: State, m: ClientMessage, ch: Choice)
    requires Enabled(s, m, ch)
    ensures FreshGrants(ch.grants, s.issued)
  {}

  lemma AdmissionBooks(s: State, m: ClientMessage, ch: Choice)
    requires MembersOk(s.connected, s.rooms) && Enabled(s, m, ch) && m.info.id in s.connected
    requires m.incoming.Join? || m.incoming.Create?
    ensures BookedBy(s, m, Execute(s, m.info, m.incoming, ch).state)
  {
    hide Enabled, JoinRoom, CreateRoom, JoinError, MembersOk, MayFound, BookedBy;
    var info, e := m.info, m.incoming;
    EntersByRule(s, info, e);
    if e.Join? || (e.id in s.rooms && e.joinIfExist) {
      EntranceBooks(s, m, ch);
      if e.Create? {
        CreatingJoins(s, info, e, ch);
      }
    } else {
      FoundationBooks(s, m, ch);
    }
  }

  lemma CreatingJoins(s: State, info: ClientInfo, e: Event, ch: Choice)
    requires e.Create? && e.id in s.rooms && e.joinIfExist
    ensures CreateRoom(s, info, e, ch).state == JoinRoom(s, info, e.id, e.userName, ch).state
  {
    hide AddMember, OpenSessions, Notify;
  }

  /** Joining, or creating what is there already. */
  lemma EntranceBooks(s: State, m: ClientMessage, ch: Choice)
    requires MembersOk(s.connected, s.rooms) && Enabled(s, m, ch) && m.info.id in s.connected
    requires m.incoming.Join? || (m.incoming.Create? && m.incoming.id in s.rooms && m.incoming.joinIfExist)
    ensures BookedBy(s, m, JoinRoom(s, m.info, m.incoming.id, m.incoming.userName, ch).state)
  {
    hide Enabled, JoinRoom, JoinError, MembersOk, MayFound, FreshGrants;
    var info, e := m.info, m.incoming;
    GrantsOfJoin(s, m, ch);
    EntersByRule(s, info, e);
    if JoinError(s, info, e.id).None? {
      NotListedYet(s, info.id, e.id);
      JoiningBooks(s, info, e.id, e.userName, ch);
    } else {
      RefusedJoin(s, info, e.id, e.userName, ch);
    }
  }

  /** Creating what is not there, or must not be. */
  lemma FoundationBooks(s: State, m: ClientMessage, ch: Choice)
    requires m.info.id in s.connected && m.incoming.Create? && !(m.incoming.id in s.rooms && m.incoming.joinIfExist)
    ensures BookedBy(s, m, CreateRoom(s, m.info, m.incoming, ch).state)
  {
    hide AuthError, MayFound, JoinRoom, RosterPhase;
    AuthByRule(s, m.info, m.incoming.mode);
  }

  lemma RefusedJoin(s: State, info: ClientInfo, id: RoomId, userName: string, ch: Choice)
    requires JoinError(s, info, id).Some?
    ensures JoinRoom(s, info, id, userName, ch).state == s
  {}

  lemma ExecuteBooks(s: State, m: ClientMessage, ch: Choice)
    requires MembersOk(s.connected, s.rooms) && Enabled(s, m, ch) && Accepted(s, m)
    ensures BookedBy(s, m, Execute(s, m.info, m.incoming, ch).state)
  {
    hide MembersOk, StartShare, Disconnect, JoinRoom, CreateRoom, Covers, Heirs, SameCharters;
    var c, e := m.info.id, m.incoming;
    if e.Join? || e.Create? {
      AdmissionBooks(s, m, ch);
    } else if e.Share? {
      GrantsOfJoin(s, m, ch);
      SharingBooks(s, c, ch);
    } else if e.Disconnected? {
      DisconnectKeepsBooks(s, c, e.code, e.reason, ch.heir);
    } else if e.Exit? {
      DisconnectKeepsBooks(s, c, CLOSE_NORMAL_CLOSURE, "User Left", ch.heir);
    } else {
      hide Execute;
      PlainKeepsBooks(s, m.info, e, ch);
    }
  }

  lemma StepBooks(s: State, m: ClientMessage, ch: Choice)
    requires Inv(s) && Enabled(s, m, ch)
    ensures BookedBy(s, m, Apply(s, m, ch))
  {
    hide IdsOk, ConnectedOk, MembersOk, SessionsOk, TurnOk, LogOk, MetricsOk, RoomsInv, Covers, Execute, Disconnect, Heirs;
    if Accepted(s, m) {
      ExecuteBooks(s, m, ch);
      var outcome := Execute(s, m.info, m.incoming, ch);
      if outcome.verdict.Failed? {
        DisconnectKeepsBooks(outcome.state, m.info.id, CLOSE_NORMAL_CLOSURE, outcome.verdict.reason, ch.heir);
      }
    }
  }

  // ---- What a room is founded with, and its bans ----

  lemma ChartersCompose(s: State, t: State, u: State)
    requires SameCharters(s, t) && SameCharters(t, u)
    ensures SameCharters(s, u)
  {
    forall r | r in u.rooms
      ensures r in s.rooms && SameCharter(s.rooms[r], u.rooms[r])
    {
      assert r in t.rooms && SameCharter(s.rooms[r], t.rooms[r]);
    }
  }

  lemma ExecuteKeepsCharters(s: State, m: ClientMessage, ch: Choice)
    requires Accepted(s, m) && (m.skipConnectedCheck <==> m.incoming.Connected?) && !Founds(s, m)
    requires !(m.incoming.OwnerAction? && m.incoming.action == "ban")
    ensures SameCharters(s, Execute(s, m.info, m.incoming, ch).state)
  {
    hide StartShare, Disconnect, JoinRoom, AuthError, MayFound, SameCharters;
    var c, e := m.info.id, m.incoming;
    SameItself(s);
    if e.Join? {
      JoiningKeepsCharters(s, m.info, e.id, e.userName, ch);
    } else if e.Create? {
      AuthByRule(s, m.info, e.mode);
      JoiningKeepsCharters(s, m.info, e.id, e.userName, ch);
    } else if e.Share? {
      SharingKeepsCharters(s, c, ch);
    } else if e.Disconnected? {
      DisconnectKeepsCharters(s, c, e.code, e.reason, ch.heir);
    } else if e.Exit? {
      DisconnectKeepsCharters(s, c, CLOSE_NORMAL_CLOSURE, "User Left", ch.heir);
    } else {
      hide Execute;
      PlainKeepsBooks(s, m.info, e, ch);
    }
  }

  lemma StepKeepsCharters(s: State, m: ClientMessage, ch: Choice)
    requires (m.skipConnectedCheck <==> m.incoming.Connected?) && !Founds(s, m)
    requires !(m.incoming.OwnerAction? && m.incoming.action == "ban")
    ensures SameCharters(s, Apply(s, m, ch))
  {
    hide Execute, Disconnect, SameCharters, Founds;
    SameItself(s);
    if Accepted(s, m) {
      ExecuteKeepsCharters(s, m, ch);
      var outcome := Execute(s, m.info, m.incoming, ch);
      if outcome.verdict.Failed? {
        DisconnectKeepsCharters(outcome.state, m.info.id, CLOSE_NORMAL_CLOSURE, outcome.verdict.reason, ch.heir);
        ChartersCompose(s, outcome.state, Apply(s, m, ch));
      }
    }
  }

  /** A ban that is refused changes no charter; one that is not adds the address of its target, in the owner's room. */
  lemma BanningStep(s: State, m: ClientMessage, ch: Choice)
    requires MembershipOk(s) && m.info.id in s.connected && m.incoming.OwnerAction? && m.incoming.action == "ban"
    ensures var t := Apply(s, m, ch);
            var r := s.connected[m.info.id];
            if m.incoming.target.Target? && Bans(s, m, r, m.incoming.target.id)
            then SameCharters(Ban(s, r, s.rooms[r].users[m.incoming.target.id].addr), t)
            else SameCharters(s, t)
  {
    hide Disconnect, SameCharters, ActOn, ConnectedOk, MembersOk;
    SameItself(s);
    var c, target := m.info.id, m.incoming.target;
    var outcome := Govern(s, c, "ban", target);
    if CurrentRoomError(s, c).None? && target.Target? {
      ActOnKeepsBooks(s, s.connected[c], c, "ban", target.id);
      BanVerdict(s, s.connected[c], c, target.id);
    }
    if outcome.verdict.Failed? {
      DisconnectKeepsCharters(s, c, CLOSE_NORMAL_CLOSURE, outcome.verdict.reason, ch.heir);
    }
  }

  lemma BanVerdict(s: State, r: RoomId, c: Xid, t: Xid)
    requires r in s.rooms
    ensures ActOn(s, r, c, "ban", t).verdict.Done? <==> t in s.rooms[r].users && t != c
    ensures ActOn(s, r, c, "ban", t).verdict.Done? || ActOn(s, r, c, "ban", t).verdict.Failed?
  {
    hide Expel, Ban;
  }
}
