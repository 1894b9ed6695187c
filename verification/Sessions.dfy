/** Which sessions a step opens, and which it ends. */
module Sessions {
  import M = RoomModel
  import opened Types
  import opened Rules
  import opened RoomModel
  import opened Invariant
  import opened Elementary
  import opened Events
  import opened Shape
  import opened Safety
  import opened Frame
  import opened Authority
  import opened Unnamed
  import opened Runs
  import opened Conduct

  // ---- Opened ----

  /** Sessions granted one for each of `pairs`, under new identifiers. */
  lemma GrantsOpenRightly(sessions: map<Xid, Session>, grants: seq<Grant>, pairs: set<Session>, due: Session -> bool)
    requires Links(grants, pairs, sessions)
    requires forall i, j :: 0 <= i < j < |grants| ==> PairOf(grants[i]) != PairOf(grants[j])
    requires forall x :: due(x) <==> x in pairs
    ensures OpensRightly(sessions, Extended(sessions, grants), due)
    ensures forall id :: id in sessions ==> id in Extended(sessions, grants)
  {
    var extended := Extended(sessions, grants);
    ExtendedBy(sessions, grants);
    forall x | due(x)
      ensures exists id :: id in extended && id !in sessions && extended[id] == x
    {
      var i :| 0 <= i < |grants| && PairOf(grants[i]) == x;
      assert extended[grants[i].id] == x;
    }
    forall a, b | a in extended && b in extended && a !in sessions && b !in sessions && extended[a] == extended[b]
      ensures a == b
    {
      var i :| 0 <= i < |grants| && grants[i].id == a;
      var j :| 0 <= j < |grants| && grants[j].id == b;
      assert PairOf(grants[i]) == PairOf(grants[j]);
    }
  }

  ghost function DueIn(s: State, m: ClientMessage, ipOk: bool, r: RoomId): Session -> bool {
    (x: Session) => SessionDue(s, m, ipOk, r, x)
  }

  lemma DueByShare(s: State, m: ClientMessage, ch: Choice, x: Session)
    requires MembershipOk(s) && m.info.id in s.connected && m.incoming.Share? && Refusal(s, m, ch.ipOk).None?
    ensures var r := s.connected[m.info.id];
            && LivesIn(s, m.info.id, r) && ch.ipOk && ShareError(s, m.info.id).None?
            && (SessionDue(s, m, ch.ipOk, r, x) <==> x in SharePairs(s.rooms[r].users, m.info.id))
            && forall q :: q != r ==> !SessionDue(s, m, ch.ipOk, q, x)
  {}

  lemma DueByEntering(s: State, m: ClientMessage, ch: Choice, x: Session)
    requires Enters(s, m) && ch.ipOk
    ensures SessionDue(s, m, ch.ipOk, m.incoming.id, x) <==> x in JoinPairs(s.rooms[m.incoming.id].users, m.info.id)
    ensures forall q :: q != m.incoming.id ==> !SessionDue(s, m, ch.ipOk, q, x)
  {}

  lemma NothingDue(s: State, m: ClientMessage, ch: Choice, r: RoomId, x: Session)
    requires m.info.id in s.connected ==> !(m.incoming.Share? && Refusal(s, m, ch.ipOk).None?) && !(Enters(s, m) && ch.ipOk)
    ensures !SessionDue(s, m, ch.ipOk, r, x)
  {}

  lemma ShareGranted(s: State, m: ClientMessage, ch: Choice)
    requires MembershipOk(s) && m.info.id in s.connected && m.incoming.Share?
    ensures Refusal(s, m, ch.ipOk).None? <==> ShareError(s, m.info.id).None? && ch.ipOk
  {}

  lemma NothingGranted(s: State, m: ClientMessage, ch: Choice)
    requires Enabled(s, m, ch) && m.info.id in s.connected
    requires !(m.incoming.Share? && ShareError(s, m.info.id).None? && ch.ipOk) && !(Enters(s, m) && ch.ipOk)
    ensures Ids(ch.grants) == {}
  {
    hide SharePairs, JoinPairs;
    assert PairsToOpen(s, m.info, m.incoming, ch) == {};
    if ch.grants != [] {
      FirstPair(ch.grants, {}, s.issued);
    }
  }

  lemma SharingOpens(s: State, m: ClientMessage, ch: Choice, r: RoomId)
    requires Inv(s) && Enabled(s, m, ch) && m.info.id in s.connected && m.incoming.Share? && Refusal(s, m, ch.ipOk).None?
    requires r in s.rooms && r in Apply(s, m, ch).rooms
    ensures OpensRightly(s.rooms[r].sessions, Apply(s, m, ch).rooms[r].sessions, DueIn(s, m, ch.ipOk, r))
    ensures s.rooms[r].sessions.Keys <= Apply(s, m, ch).rooms[r].sessions.Keys
  {
    hide TurnOk, LogOk, MetricsOk, RoomsInv, Covers, Apply, SharePairs, StartShare, ShareError, Refusal;
    var c := m.info.id;
    var q := s.connected[c];
    ShareGranted(s, m, ch);
    ShareStarts(s, c);
    EnabledGrants(s, m, ch);
    SharedState(s, m, ch);
    ShareTouches(s, c, ch);
    forall x
      ensures SessionDue(s, m, ch.ipOk, q, x) <==> x in SharePairs(s.rooms[q].users, c)
      ensures q != r ==> !SessionDue(s, m, ch.ipOk, r, x)
    {
      DueByShare(s, m, ch, x);
    }
    if q == r {
      CoversOpens(s, r, ch.grants, SharePairs(s.rooms[r].users, c), DueIn(s, m, ch.ipOk, r));
    }
  }

  lemma CoversOpens(s: State, r: RoomId, grants: seq<Grant>, pairs: set<Session>, due: Session -> bool)
    requires SessionsOk(s) && r in s.rooms && Covers(grants, pairs, s.issued)
    requires forall x :: due(x) <==> x in pairs
    ensures OpensRightly(s.rooms[r].sessions, Extended(s.rooms[r].sessions, grants), due)
    ensures s.rooms[r].sessions.Keys <= Extended(s.rooms[r].sessions, grants).Keys
  {
    CoversLinks(s, r, grants, pairs);
    GrantsOpenRightly(s.rooms[r].sessions, grants, pairs, due);
  }

  lemma EnteringOpens(s: State, m: ClientMessage, ch: Choice, r: RoomId)
    requires Inv(s) && Enabled(s, m, ch) && Enters(s, m) && ch.ipOk
    requires r in s.rooms && r in Apply(s, m, ch).rooms
    ensures OpensRightly(s.rooms[r].sessions, Apply(s, m, ch).rooms[r].sessions, DueIn(s, m, ch.ipOk, r))
    ensures s.rooms[r].sessions.Keys <= Apply(s, m, ch).rooms[r].sessions.Keys
  {
    hide IdsOk, MembershipOk, TurnOk, LogOk, MetricsOk, RoomsInv, Covers, Apply, JoinPairs, JoinRoom;
    var c, q := m.info.id, m.incoming.id;
    EnabledGrants(s, m, ch);
    JoinedState(s, m, ch);
    JoinTouches(s, m.info, q, m.incoming.userName, ch);
    forall x
      ensures SessionDue(s, m, ch.ipOk, q, x) <==> x in JoinPairs(s.rooms[q].users, c)
      ensures q != r ==> !SessionDue(s, m, ch.ipOk, r, x)
    {
      DueByEntering(s, m, ch, x);
    }
    if q == r {
      CoversOpens(s, r, ch.grants, JoinPairs(s.rooms[r].users, c), DueIn(s, m, ch.ipOk, r));
    }
  }

  lemma OthersOpenNothing(s: State, m: ClientMessage, ch: Choice, r: RoomId)
    requires Inv(s) && Enabled(s, m, ch) && r in s.rooms && r in Apply(s, m, ch).rooms
    requires m.info.id in s.connected ==> !(m.incoming.Share? && Refusal(s, m, ch.ipOk).None?) && !(Enters(s, m) && ch.ipOk)
    ensures Apply(s, m, ch).rooms[r].sessions.Keys <= s.rooms[r].sessions.Keys
  {
    hide IdsOk, MembershipOk, SessionsOk, TurnOk, LogOk, MetricsOk, RoomsInv, Covers, Refusal, Apply, ShareError;
    if !Accepted(s, m) || m.incoming.Connected? {
      NothingTouched(s, m, ch);
    } else if Founds(s, m) {
      FoundingStep(s, m, ch);
    } else {
      if m.incoming.Share? {
        ShareGranted(s, m, ch);
      }
      NothingGranted(s, m, ch);
      StepWithin(s, m, ch);
    }
  }

  /** In a room that is there before and after a step. */
  lemma SessionsOpenByRule(s: State, m: ClientMessage, ch: Choice, r: RoomId)
    requires Inv(s) && Enabled(s, m, ch) && r in s.rooms && r in Apply(s, m, ch).rooms
    ensures OpensRightly(s.rooms[r].sessions, Apply(s, m, ch).rooms[r].sessions, DueIn(s, m, ch.ipOk, r))
  {
    hide Core, RoomsInv, Enabled, Apply, Refusal;
    if m.info.id in s.connected && m.incoming.Share? && Refusal(s, m, ch.ipOk).None? {
      SharingOpens(s, m, ch, r);
    } else if m.info.id in s.connected && Enters(s, m) && ch.ipOk {
      EnteringOpens(s, m, ch, r);
    } else {
      OthersOpenNothing(s, m, ch, r);
      SameSessions(s, m, ch, r);
      forall x
        ensures !SessionDue(s, m, ch.ipOk, r, x)
      {
        NothingDue(s, m, ch, r, x);
      }
    }
  }

  /** A session keeps its two ends. */
  lemma SameSessions(s: State, m: ClientMessage, ch: Choice, r: RoomId)
    requires Inv(s) && Enabled(s, m, ch) && r in s.rooms && r in Apply(s, m, ch).rooms
    ensures var a, b := s.rooms[r].sessions, Apply(s, m, ch).rooms[r].sessions;
            forall id :: id in a && id in b ==> b[id] == a[id]
  {
    hide IdsOk, MembershipOk, TurnOk, LogOk, MetricsOk, RoomsInv, Enabled, Apply;
    StepKeepsInv(s, m, ch);
    var a, b := s.rooms[r].sessions, Apply(s, m, ch).rooms[r].sessions;
    forall id | id in a && id in b
      ensures b[id] == a[id]
    {
      assert SessionOk(s, r, id);
      assert SessionOk(Apply(s, m, ch), r, id);
      StepKeepsClosed(s, m, ch, id);
    }
  }

  // ---- Ended ----

  /** In rooms that are there before and after, only sessions that are over end. */
  ghost predicate EndRightly(a: map<RoomId, Room>, b: map<RoomId, Room>) {
    forall r, id :: r in a && r in b && id in a[r].sessions && id !in b[r].sessions ==> IsOver(a[r].sessions[id], b[r].users)
  }

  /** One room is changed so that only sessions that are over end. */
  lemma EndInRoom(a: map<RoomId, Room>, b: map<RoomId, Room>, r: RoomId)
    requires OnlyRoom(a, b, r)
    requires r in a && r in b ==>
               forall id :: id in a[r].sessions && id !in b[r].sessions ==> IsOver(a[r].sessions[id], b[r].users)
    ensures EndRightly(a, b)
  {}

  lemma LeavingEnds(s: State, c: Xid, code: int, reason: string, heir: Xid)
    ensures EndRightly(s.rooms, Disconnect(s, c, code, reason, heir).rooms)
  {
    if InRoom(s, c) {
      hide Disconnect;
      DisconnectEffect(s, c, code, reason, heir);
    } else {
      OutsiderLeaves(s, c, code, reason, heir);
    }
  }

  lemma StoppingEnds(s: State, r: RoomId, users: map<Xid, User>, ids: set<Xid>)
    requires r in s.rooms && forall id :: id in ids && id in s.rooms[r].sessions ==> IsOver(s.rooms[r].sessions[id], users)
    ensures EndRightly(s.rooms, Notify(CloseSessions(SetUsers(s, r, users), r, ids), r).rooms)
    ensures EndRightly(s.rooms, Notify(SetUsers(s, r, users), r).rooms)
  {
    hide RosterPhase, HostNames, ClientNames;
  }

  lemma FlagsEnd(s: State, r: RoomId, t: Xid)
    requires r in s.rooms && t in s.rooms[r].users
    ensures EndRightly(s.rooms, StopTarget(s, r, t).rooms) && EndRightly(s.rooms, TogglePermission(s, r, t).rooms)
  {
    hide RosterPhase, CloseSessions, EndRightly;
    var room := s.rooms[r];
    var user := room.users[t].(canShare := !room.users[t].canShare);
    assert EndRightly(s.rooms, s.rooms) by { NothingEnds(s.rooms); }
    StoppingEnds(s, r, room.users[t := room.users[t].(streaming := false)], Hosted(room.sessions, t));
    StoppingEnds(s, r, room.users[t := user.(streaming := false)], Hosted(room.sessions, t));
    StoppingEnds(s, r, room.users[t := user], {});
  }

  lemma NothingEnds(rooms: map<RoomId, Room>)
    ensures EndRightly(rooms, rooms)
  {}

  lemma ExpellingEnds(s: State, r: RoomId, t: Xid, reason: string)
    requires r in s.rooms
    ensures EndRightly(s.rooms, Expel(s, r, t, reason).rooms)
  {
    hide RosterPhase, HostNames, ClientNames;
  }

  lemma BanningEnds(s: State, r: RoomId, t: Xid, addr: string)
    requires r in s.rooms
    ensures EndRightly(s.rooms, Expel(Ban(s, r, addr), r, t, "bannedByOwner").rooms)
  {
    hide Expel;
    ExpellingEnds(Ban(s, r, addr), r, t, "bannedByOwner");
  }

  lemma ActOnEnds(s: State, r: RoomId, c: Xid, action: string, t: Xid)
    requires r in s.rooms
    ensures EndRightly(s.rooms, ActOn(s, r, c, action, t).state.rooms)
  {
    hide StopTarget, TogglePermission, Expel, EndRightly;
    NothingEnds(s.rooms);
    if t in s.rooms[r].users {
      FlagsEnd(s, r, t);
      ExpellingEnds(s, r, t, "kickedByOwner");
      BanningEnds(s, r, t, s.rooms[r].users[t].addr);
    }
  }

  lemma AllEnd(s: State, r: RoomId, c: Xid)
    requires r in s.rooms
    ensures var users := s.rooms[r].users;
            EndRightly(s.rooms, Notify(SetUsers(s, r, Permit(users, users.Keys - {c}, true)), r).rooms)
    ensures EndRightly(s.rooms, M.DisableAll(s, r, c).rooms)
  {
    hide RosterPhase, Permit, CloseSessions, EndRightly;
    var room := s.rooms[r];
    StoppingEnds(s, r, Permit(room.users, room.users.Keys - {c}, true), {});
    StoppingEnds(s, r, Permit(room.users, room.users.Keys - {c}, false), HostedByOthers(room, c));
  }

  lemma GovernEnds(s: State, c: Xid, action: string, target: Target)
    ensures EndRightly(s.rooms, Govern(s, c, action, target).state.rooms)
  {
    hide Permit, ActOn, M.DisableAll, SetUsers, Notify, EndRightly;
    NothingEnds(s.rooms);
    if CurrentRoomError(s, c).None? {
      AllEnd(s, s.connected[c], c);
      if target.Target? {
        ActOnEnds(s, s.connected[c], c, action, target.id);
      }
    }
  }

  lemma StopShareEnds(s: State, c: Xid)
    ensures EndRightly(s.rooms, EndSharing(s, c).state.rooms)
  {
    hide RosterPhase, EndShares, HostNames, ClientNames;
  }

  lemma NameEnds(s: State, c: Xid, name: string)
    ensures EndRightly(s.rooms, SetName(s, c, name).state.rooms)
  {
    hide RosterPhase;
  }

  /** A successful event that is not about entering or sharing. */
  lemma SuccessEnds(s: State, m: ClientMessage, ch: Choice)
    requires Plain(m.incoming) || m.incoming.Connected?
    ensures EndRightly(s.rooms, Execute(s, m.info, m.incoming, ch).state.rooms)
  {
    hide EndRightly, Disconnect, Govern, EndSharing, SetName, DissolveRoom, Forward;
    var c := m.info.id;
    NothingEnds(s.rooms);
    match m.incoming
    case Connected =>
    case Disconnected(code, reason) => LeavingEnds(s, c, code, reason, ch.heir);
    case Exit => LeavingEnds(s, c, CLOSE_NORMAL_CLOSURE, "User Left", ch.heir);
    case OwnerAction(action, target) => GovernEnds(s, c, action, target);
    case StopShare => StopShareEnds(s, c);
    case Name(name) => NameEnds(s, c, name);
    case Dissolve => DissolvingEnds(s, c);
    case _ => ForwardShape(s, m.info, m.incoming, ch);
  }

  lemma DissolvingEnds(s: State, c: Xid)
    ensures EndRightly(s.rooms, DissolveRoom(s, c).state.rooms)
  {
    hide DissolveRoom;
    DissolvedRooms(s, c);
  }

  lemma FailureEnds(s: State, m: ClientMessage, ch: Choice)
    requires Inv(s) && Enabled(s, m, ch) && Accepted(s, m) && Execute(s, m.info, m.incoming, ch).verdict.Failed?
    ensures EndRightly(s.rooms, Apply(s, m, ch).rooms)
  {
    hide RoomsInv, Covers, SessionsOk, TurnOk, LogOk, MetricsOk, Disconnect, Execute, Apply, EndRightly;
    FailureIsDisconnect(s, m, ch, CLOSE_NORMAL_CLOSURE, "");
    if LeavesMemberBehind(s, m.info, m.incoming, ch) {
      LateJoinState(s, m, ch);
      LateJoinOfUnnamed(s, Newcomer(m.info, m.incoming, ch), CLOSE_NORMAL_CLOSURE, PROVIDER_ERROR, ch.heir);
      EndInRoom(s.rooms, Apply(s, m, ch).rooms, UNNAMED);
    } else {
      LeavingEnds(s, m.info.id, CLOSE_NORMAL_CLOSURE, "", ch.heir);
    }
  }

  lemma StepEnds(s: State, m: ClientMessage, ch: Choice, r: RoomId)
    requires Inv(s) && Enabled(s, m, ch) && r in s.rooms && r in Apply(s, m, ch).rooms
    ensures var a, b := s.rooms[r], Apply(s, m, ch).rooms[r];
            forall id :: id in a.sessions && id !in b.sessions ==> IsOver(a.sessions[id], b.users)
  {
    hide Core, RoomsInv, Covers, Execute, Disconnect, Refusal, IsOver;
    NothingEnds(s.rooms);
    if Accepted(s, m) {
      NeverPanics(s, m, ch);
      if Execute(s, m.info, m.incoming, ch).verdict.Failed? {
        FailureEnds(s, m, ch);
      } else if Plain(m.incoming) || m.incoming.Connected? {
        SuccessEnds(s, m, ch);
      } else {
        OpeningEndsNothing(s, m, ch, r);
      }
    }
  }

  lemma OpeningEndsNothing(s: State, m: ClientMessage, ch: Choice, r: RoomId)
    requires Inv(s) && Enabled(s, m, ch) && r in s.rooms && r in Apply(s, m, ch).rooms && m.info.id in s.connected
    requires !Plain(m.incoming) && !m.incoming.Connected? && Execute(s, m.info, m.incoming, ch).verdict.Done?
    ensures s.rooms[r].sessions.Keys <= Apply(s, m, ch).rooms[r].sessions.Keys
  {
    hide IdsOk, MembershipOk, SessionsOk, TurnOk, LogOk, MetricsOk, RoomsInv, Covers, Execute, Apply;
    RefusalsExact(s, m, ch);
    if m.incoming.Share? {
      SharingOpens(s, m, ch, r);
    } else if Founds(s, m) {
      FoundingStep(s, m, ch);
    } else {
      EnteringOpens(s, m, ch, r);
    }
  }

  /** In a room that is there before and after a step, a session ends exactly if it is over then. */
  lemma SessionsEndByRule(s: State, m: ClientMessage, ch: Choice, r: RoomId, id: Xid)
    requires Inv(s) && Enabled(s, m, ch) && r in s.rooms && r in Apply(s, m, ch).rooms && id in s.rooms[r].sessions
    ensures var t := Apply(s, m, ch);
            id !in t.rooms[r].sessions <==> IsOver(s.rooms[r].sessions[id], t.rooms[r].users)
  {
    hide Enabled, Apply, IdsOk, MembershipOk, TurnOk, LogOk, MetricsOk;
    StepKeepsInv(s, m, ch);
    StepEnds(s, m, ch, r);
    SameSessions(s, m, ch, r);
    var room := Apply(s, m, ch).rooms[r];
    if id in room.sessions {
      assert StarEdge(room.users, room.sessions[id]);
    }
  }
}
