/**
 One iteration of the event loop: it never dereferences a missing member, it keeps
 the invariant whatever the message and the outcome, and a failing event amounts to
 a disconnect of its sender.
 */
module Safety {
  import opened Types
  import opened RoomModel
  import opened Invariant
  import opened Events
  import opened Shape

  // ---- No nil dereference ----

  lemma NeverPanics(s: State, m: ClientMessage, ch: Choice)
    requires Core(s)
    ensures !Execute(s, m.info, m.incoming, ch).verdict.Panicked?
  {
    hide TurnOk, LogOk, MetricsOk;
    MemberOfOwnRoom(s, m.info.id);
    if IsForward(m.incoming) {
      ForwardNeverPanics(s, m.info.id, m.incoming.sid);
    } else if m.incoming.OwnerAction? {
      GovernNeverPanics(s, m.info.id, m.incoming.action, m.incoming.target);
    }
  }

  lemma ForwardNeverPanics(s: State, c: Xid, sid: Xid)
    requires SessionsOk(s)
    ensures forall kind, value :: !Forward(s, c, kind, sid, value).verdict.Panicked?
  {
    if CurrentRoomError(s, c).None? && sid in s.rooms[s.connected[c]].sessions {
      SessionEnds(s, s.connected[c], sid);
    }
  }

  lemma GovernNeverPanics(s: State, c: Xid, action: string, target: Target)
    ensures !Govern(s, c, action, target).verdict.Panicked?
  {}

  // ---- A failing event is a disconnect ----

  /** Same rooms, same connections, same TURN table. */
  predicate Alike(a: State, b: State) { a.rooms == b.rooms && a.connected == b.connected && a.turn == b.turn }

  lemma DisconnectOfAlike(a: State, b: State, c: Xid, code: int, reason: string, code': int, reason': string, heir: Xid)
    requires Alike(a, b)
    ensures Alike(Disconnect(a, c, code, reason, heir), Disconnect(b, c, code', reason', heir))
  {
    if InRoom(a, c) {
      DisconnectEffect(a, c, code, reason, heir);
      DisconnectEffect(b, c, code', reason', heir);
    }
  }

  /** The provider fails after the sender was added to room `id`. */
  predicate LateJoinFailure(s: State, info: ClientInfo, e: Event, ch: Choice) {
    && (e.Join? || (e.Create? && e.id in s.rooms && e.joinIfExist))
    && JoinError(s, info, e.id).None? && !ch.ipOk
  }

  /** The provider fails after the sender was marked as streaming. */
  predicate LateShareFailure(s: State, info: ClientInfo, e: Event, ch: Choice) {
    e.Share? && ShareError(s, info.id).None? && !ch.ipOk && InRoom(s, info.id)
  }

  function Newcomer(info: ClientInfo, e: Event, ch: Choice): User
    requires e.Join? || e.Create?
  {
    NewUser(info, DisplayName(info, e.userName, ch.randomName), false)
  }

  lemma OtherFailuresChangeNothing(s: State, m: ClientMessage, ch: Choice)
    requires Core(s) && Execute(s, m.info, m.incoming, ch).verdict.Failed?
    requires !LateJoinFailure(s, m.info, m.incoming, ch) && !LateShareFailure(s, m.info, m.incoming, ch)
    ensures Execute(s, m.info, m.incoming, ch).state == s
  {
    hide SessionsOk, TurnOk, LogOk, MetricsOk, Govern;
    match m.incoming
    case OwnerAction(action, target) => GovernFailsUnchanged(s, m.info.id, action, target);
    case Share => MemberOfOwnRoom(s, m.info.id);
    case Create(_, _, _, _, _) =>
    case _ => PlainFailsUnchanged(s, m.info, m.incoming, ch);
  }

  lemma PlainFailsUnchanged(s: State, info: ClientInfo, e: Event, ch: Choice)
    requires Execute(s, info, e, ch).verdict.Failed?
    requires !e.OwnerAction? && !e.Share? && !e.Create?
    requires e.Join? ==> JoinError(s, info, e.id).Some? || ch.ipOk
    ensures Execute(s, info, e, ch).state == s
  {}

  lemma GovernFailsUnchanged(s: State, c: Xid, action: string, target: Target)
    requires Govern(s, c, action, target).verdict.Failed?
    ensures Govern(s, c, action, target).state == s
  {}

  lemma LateShareIsDisconnect(s: State, c: Xid, code: int, reason: string, heir: Xid)
    requires InRoom(s, c)
    ensures var r := Lookup(s, c);
            var on := SetUsers(s, r, s.rooms[r].users[c := s.rooms[r].users[c].(streaming := true)]);
            Alike(Disconnect(on, c, code, reason, heir), Disconnect(s, c, code, reason, heir))
  {
    var r := Lookup(s, c);
    var users := s.rooms[r].users;
    var on := SetUsers(s, r, users[c := users[c].(streaming := true)]);
    assert users[c := users[c].(streaming := true)] - {c} == users - {c};
    DisconnectEffect(s, c, code, reason, heir);
    DisconnectEffect(on, c, code, reason, heir);
    RemovedThenReplaced(s.rooms, r, on.rooms[r], RoomAfter(s.rooms[r], c, heir));
  }

  lemma LateJoinIsDisconnect(s: State, r: RoomId, user: User, code: int, reason: string, heir: Xid)
    requires Inv(s) && r in s.rooms && r != UNNAMED
    requires user.id in s.connected && s.connected[user.id] == UNNAMED && !user.owner
    ensures Alike(Disconnect(Notify(AddMember(s, r, user), r), user.id, code, reason, heir),
                  Disconnect(s, user.id, code, reason, heir))
  {
    hide ConnectedOk, MembersOk, SessionsOk, OneOwner, StreamersOk, Star, UnnamedInv;
    hide Disconnect, TurnOk, LogOk, MetricsOk, RosterPhase, RoomAfter, TurnWithout, Involving;
    var c := user.id;
    var joined := Notify(AddMember(s, r, user), r);
    NotAMemberYet(s, c, r);
    NoSessionsYet(s, r, c);
    NonEmpty(s.rooms[r]);
    LeavingUndoesJoining(s.rooms[r], user, heir);
    NothingWithdrawn(s.turn, s.rooms[r].mode);
    assert InRoom(joined, c) && Lookup(joined, c) == r;
    DisconnectEffect(joined, c, code, reason, heir);
    ForgottenOnly(s, c, code, reason, heir);
    assert joined.rooms[r := s.rooms[r]] == s.rooms;
    assert joined.connected - {c} == s.connected - {c};
  }

  lemma LeavingUndoesJoining(room: Room, user: User, heir: Xid)
    requires user.id !in room.users && !user.owner && Involving(room.sessions, user.id) == {}
    ensures room.users[user.id := user] - {user.id} == room.users
    ensures RoomAfter(room.(users := room.users[user.id := user]), user.id, heir) == room
  {
    assert room.users[user.id := user] - {user.id} == room.users;
    assert room.sessions - {} == room.sessions;
  }

  lemma NothingWithdrawn(turn: map<string, Entry>, mode: string)
    ensures TurnWithout(turn, mode, {}) == turn
  {}

  lemma NonEmpty(room: Room)
    requires RoomInv(room)
    ensures room.users != map[]
  {}

  lemma NoSessionsYet(s: State, r: RoomId, c: Xid)
    requires SessionsOk(s) && r in s.rooms && c !in s.rooms[r].users
    ensures Involving(s.rooms[r].sessions, c) == {}
  {
    forall id | id in s.rooms[r].sessions
      ensures s.rooms[r].sessions[id].host != c && s.rooms[r].sessions[id].client != c
    {
      assert SessionOk(s, r, id);
    }
  }

  /** A late failure left a member behind in the unnamed room. */
  predicate LeavesMemberBehind(s: State, info: ClientInfo, e: Event, ch: Choice) {
    && LateJoinFailure(s, info, e, ch) && e.id == UNNAMED
    && (info.id !in s.rooms[UNNAMED].users || s.rooms[UNNAMED].users[info.id] != Newcomer(info, e, ch))
  }

  /** Joining the unnamed room late, then failing, changes that room's member table and nothing else. */
  lemma LateJoinOfUnnamed(s: State, user: User, code: int, reason: string, heir: Xid)
    requires IdsOk(s) && UNNAMED in s.rooms && user.id in s.connected && s.connected[user.id] == UNNAMED
    ensures var t := Disconnect(Notify(AddMember(s, UNNAMED, user), UNNAMED), user.id, code, reason, heir);
            && t.rooms == s.rooms[UNNAMED := s.rooms[UNNAMED].(users := s.rooms[UNNAMED].users[user.id := user])]
            && t.connected == s.connected - {user.id} && t.turn == s.turn
  {}

  /**
   A failing event, followed by the disconnect of the loop, leaves rooms, connections
   and TURN table as a plain disconnect of the sender would with the same heir --- except
   exactly when a late failure leaves a member behind in the unnamed room.
   */
  lemma FailureIsDisconnect(s: State, m: ClientMessage, ch: Choice, code: int, reason: string)
    requires Inv(s) && Enabled(s, m, ch) && Accepted(s, m)
    requires Execute(s, m.info, m.incoming, ch).verdict.Failed?
    ensures Alike(Apply(s, m, ch), Disconnect(s, m.info.id, code, reason, ch.heir))
            <==> !LeavesMemberBehind(s, m.info, m.incoming, ch)
  {
    var c, e := m.info.id, m.incoming;
    if LateJoinFailure(s, m.info, e, ch) {
      LateJoinCase(s, m, ch, code, reason);
    } else if LateShareFailure(s, m.info, e, ch) {
      LateShareCase(s, m, ch, code, reason);
    } else {
      OtherFailuresChangeNothing(s, m, ch);
      DisconnectOfAlike(s, s, c, CLOSE_NORMAL_CLOSURE, Execute(s, m.info, e, ch).verdict.reason, code, reason, ch.heir);
    }
  }

  lemma LateShareCase(s: State, m: ClientMessage, ch: Choice, code: int, reason: string)
    requires Accepted(s, m) && LateShareFailure(s, m.info, m.incoming, ch)
    ensures Alike(Apply(s, m, ch), Disconnect(s, m.info.id, code, reason, ch.heir))
  {
    var c := m.info.id;
    LateShareState(s, m, ch);
    LateShareIsDisconnect(s, c, CLOSE_NORMAL_CLOSURE, PROVIDER_ERROR, ch.heir);
    DisconnectOfAlike(s, s, c, CLOSE_NORMAL_CLOSURE, PROVIDER_ERROR, code, reason, ch.heir);
  }

  lemma LateShareState(s: State, m: ClientMessage, ch: Choice)
    requires Accepted(s, m) && LateShareFailure(s, m.info, m.incoming, ch)
    ensures var c, r := m.info.id, Lookup(s, m.info.id);
            var on := SetUsers(s, r, s.rooms[r].users[c := s.rooms[r].users[c].(streaming := true)]);
            Apply(s, m, ch) == Disconnect(on, c, CLOSE_NORMAL_CLOSURE, PROVIDER_ERROR, ch.heir)
  {
    hide Disconnect, InRoom;
    LateShareOutcome(s, m.info.id, ch);
  }

  lemma LateShareOutcome(s: State, c: Xid, ch: Choice)
    requires ShareError(s, c).None? && !ch.ipOk && InRoom(s, c)
    ensures var r := Lookup(s, c);
            var on := SetUsers(s, r, s.rooms[r].users[c := s.rooms[r].users[c].(streaming := true)]);
            StartShare(s, c, ch) == Fail(on, PROVIDER_ERROR)
  {}

  lemma LateJoinCase(s: State, m: ClientMessage, ch: Choice, code: int, reason: string)
    requires Inv(s) && m.info.id in s.connected && LateJoinFailure(s, m.info, m.incoming, ch)
    ensures Alike(Apply(s, m, ch), Disconnect(s, m.info.id, code, reason, ch.heir))
            <==> !LeavesMemberBehind(s, m.info, m.incoming, ch)
  {
    var e, user := m.incoming, Newcomer(m.info, m.incoming, ch);
    LateJoinState(s, m, ch);
    DisconnectOfAlike(s, s, m.info.id, CLOSE_NORMAL_CLOSURE, PROVIDER_ERROR, code, reason, ch.heir);
    if e.id != UNNAMED {
      LateJoinIsDisconnect(s, e.id, user, CLOSE_NORMAL_CLOSURE, PROVIDER_ERROR, ch.heir);
    } else {
      LateJoinOfUnnamed(s, user, CLOSE_NORMAL_CLOSURE, PROVIDER_ERROR, ch.heir);
      ForgottenOnly(s, m.info.id, code, reason, ch.heir);
      SameMemberAgain(s.rooms, user);
    }
  }

  lemma ForgottenOnly(s: State, c: Xid, code: int, reason: string, heir: Xid)
    requires Lookup(s, c) == UNNAMED
    ensures Alike(Disconnect(s, c, code, reason, heir), s.(connected := s.connected - {c}))
  {}

  lemma LateJoinState(s: State, m: ClientMessage, ch: Choice)
    requires m.info.id in s.connected && LateJoinFailure(s, m.info, m.incoming, ch)
    ensures var joined := Notify(AddMember(s, m.incoming.id, Newcomer(m.info, m.incoming, ch)), m.incoming.id);
            Apply(s, m, ch) == Disconnect(joined, m.info.id, CLOSE_NORMAL_CLOSURE, PROVIDER_ERROR, ch.heir)
  {
    hide Disconnect, AddMember, Notify, DisplayName;
  }

  lemma SameMemberAgain(rooms: map<RoomId, Room>, user: User)
    requires UNNAMED in rooms
    ensures rooms[UNNAMED := rooms[UNNAMED].(users := rooms[UNNAMED].users[user.id := user])] == rooms
            <==> user.id in rooms[UNNAMED].users && rooms[UNNAMED].users[user.id] == user
  {
    var changed := rooms[UNNAMED := rooms[UNNAMED].(users := rooms[UNNAMED].users[user.id := user])];
    if changed == rooms {
      assert changed[UNNAMED].users[user.id] == user;
    }
    if user.id in rooms[UNNAMED].users && rooms[UNNAMED].users[user.id] == user {
      assert rooms[UNNAMED].users[user.id := user] == rooms[UNNAMED].users;
    }
  }

  // ---- The invariant of the loop ----

  /** Every accepted or ignored message, every outcome, every choice. */
  lemma StepKeepsInv(s: State, m: ClientMessage, ch: Choice)
    requires Inv(s) && Enabled(s, m, ch)
    ensures Inv(Apply(s, m, ch))
  {
    ApplyKeepsCore(s, m, ch);
    if Accepted(s, m) {
      var outcome := Execute(s, m.info, m.incoming, ch);
      NeverPanics(s, m, ch);
      if outcome.verdict.Done? {
        SuccessKeepsShape(s, m, ch);
      } else {
        FailureKeepsShape(s, m, ch);
      }
    }
  }

  lemma FailureKeepsShape(s: State, m: ClientMessage, ch: Choice)
    requires Inv(s) && Enabled(s, m, ch) && Accepted(s, m)
    requires Execute(s, m.info, m.incoming, ch).verdict.Failed?
    ensures RoomsInv(Apply(s, m, ch).rooms)
  {
    if LeavesMemberBehind(s, m.info, m.incoming, ch) {
      LeftBehindKeepsShape(s, m, ch);
    } else {
      FailureIsDisconnect(s, m, ch, CLOSE_NORMAL_CLOSURE, "");
      DisconnectKeepsShape(s, m.info.id, CLOSE_NORMAL_CLOSURE, "", ch.heir);
    }
  }

  lemma LeftBehindKeepsShape(s: State, m: ClientMessage, ch: Choice)
    requires Inv(s) && m.info.id in s.connected && LeavesMemberBehind(s, m.info, m.incoming, ch)
    ensures RoomsInv(Apply(s, m, ch).rooms)
  {
    LateJoinState(s, m, ch);
    LateJoinOfUnnamed(s, Newcomer(m.info, m.incoming, ch), CLOSE_NORMAL_CLOSURE, PROVIDER_ERROR, ch.heir);
    ShapeLifts(s.rooms, Apply(s, m, ch).rooms, UNNAMED);
  }

  lemma InitialInv(authMode: string)
    ensures Inv(Initial(authMode))
  {
    var s := Initial(authMode);
    assert Core(s);
  }
}
