/**
 What the members of a room last saw of it is what it is now: after every step, the
 last phase that showed a room to anybody showed it, as it is, to each of its members.
 */
module Rosters {
  import opened Types
  import opened Rules
  import opened RoomModel
  import opened Invariant
  import opened Elementary
  import opened Events
  import opened Shape
  import opened Safety
  import opened Runs

  predicate Shows(d: Delivery, r: RoomId) { d.message.Roster? && d.message.room == r }

  ghost predicate ShowsRoom(phase: multiset<Delivery>, r: RoomId) { exists d :: d in phase && Shows(d, r) }

  /** The last phase that showed room `r` to anybody. */
  ghost function Latest(log: seq<multiset<Delivery>>, r: RoomId): multiset<Delivery> {
    if log == [] then multiset{}
    else if ShowsRoom(log[|log| - 1], r) then log[|log| - 1]
    else Latest(log[..|log| - 1], r)
  }

  ghost predicate Fresh(s: State, r: RoomId)
    requires r in s.rooms
  {
    Latest(s.log, r) == RosterPhase(s.rooms[r])
  }

  /** Every room, except perhaps `r`, was last shown as it is. */
  ghost predicate FreshBut(s: State, r: RoomId) { forall q :: q in s.rooms && q != r ==> Fresh(s, q) }

  ghost predicate AllFresh(s: State) { forall q :: q in s.rooms ==> Fresh(s, q) }

  // ---- Phases that show no room ----

  ghost predicate SameRosters(s: State, t: State) { forall r :: Latest(t.log, r) == Latest(s.log, r) }

  lemma LatestOfMore(log: seq<multiset<Delivery>>, phase: multiset<Delivery>, r: RoomId)
    ensures Latest(log + [phase], r) == if ShowsRoom(phase, r) then phase else Latest(log, r)
  {
    assert (log + [phase])[..|log|] == log;
  }

  lemma SayNoRoster(s: State, phase: multiset<Delivery>)
    requires forall d :: d in phase ==> !d.message.Roster?
    ensures SameRosters(s, Say(s, phase))
  {
    forall r
      ensures Latest(Say(s, phase).log, r) == Latest(s.log, r)
    {
      LatestOfMore(s.log, phase, r);
    }
  }

  lemma {:induction false} OpenNoRoster(s: State, r: RoomId, grants: seq<Grant>)
    requires r in s.rooms
    ensures SameRosters(s, OpenSessions(s, r, grants))
  {
    if grants != [] {
      var before, g := grants[..|grants| - 1], grants[|grants| - 1];
      var t := OpenSessions(s, r, before);
      OpenNoRoster(s, r, before);
      var host, client := multiset{HostNotice(t.rooms[r].mode, g)}, multiset{ClientNotice(t.rooms[r].mode, g)};
      SayNoRoster(t, host);
      SayNoRoster(Say(t, host), client);
      assert OpenSessions(s, r, grants).log == Say(Say(t, host), client).log;
    }
  }

  // ---- Showing a room ----

  lemma RosterShows(room: Room, r: RoomId, c: Xid)
    requires c in room.users
    ensures ShowsRoom(RosterPhase(room), r) <==> r == room.id
  {
    assert RosterFor(room, c) in RosterPhase(room);
  }

  /** Room `r` is changed and then shown; no other room is touched. */
  lemma ChangedThenShown(s: State, t: State, r: RoomId, c: Xid)
    requires FreshBut(s, r) && SameRosters(s, t) && OnlyRoom(s.rooms, t.rooms, r)
    requires r in t.rooms && t.rooms[r].id == r && c in t.rooms[r].users
    ensures AllFresh(Notify(t, r))
  {
    hide RosterPhase, ShowsRoom;
    var shown := Notify(t, r);
    forall q | q in shown.rooms
      ensures Fresh(shown, q)
    {
      RosterShows(t.rooms[r], q, c);
      LatestOfMore(t.log, RosterPhase(t.rooms[r]), q);
      assert q != r ==> Fresh(s, q);
    }
  }

  /** The members of no room are touched. */
  lemma StillFresh(s: State, t: State, r: RoomId)
    requires AllFresh(s) && SameRosters(s, t) && OnlyRoom(s.rooms, t.rooms, r)
    requires r in t.rooms ==> r in s.rooms && t.rooms[r].id == s.rooms[r].id && t.rooms[r].users == s.rooms[r].users
    ensures AllFresh(t)
  {
    forall q | q in t.rooms
      ensures Fresh(t, q)
    {
      assert Fresh(s, q);
      assert RosterPhase(t.rooms[q]) == RosterPhase(s.rooms[q]);
    }
  }

  // ---- Events ----

  lemma SettleFresh(s: State, t: State, r: RoomId, wasOwner: bool, heir: Xid)
    requires FreshBut(s, r) && SameRosters(s, t) && OnlyRoom(s.rooms, t.rooms, r)
    requires r in t.rooms && t.rooms[r].id == r
    ensures AllFresh(Settle(t, r, wasOwner, heir))
  {
    hide Fresh, RosterPhase, CloseRoom;
    var users := t.rooms[r].users;
    if users == map[] {
      CloseFresh(s, t, r);
    } else {
      var c :| c in users;
      ChangedThenShown(s, t, r, c);
      ChangedThenShown(s, SetUsers(t, r, Crown(users, heir)), r, c);
    }
  }

  lemma CloseFresh(s: State, t: State, r: RoomId)
    requires FreshBut(s, r) && SameRosters(s, t) && OnlyRoom(s.rooms, t.rooms, r) && r in t.rooms
    ensures AllFresh(CloseRoom(t, r))
  {
    hide RosterPhase;
    var closed := CloseRoom(t, r);
    forall q | q in closed.rooms
      ensures Fresh(closed, q)
    {
      assert Fresh(s, q);
    }
  }

  /** The room of the leaver may have been changed without being shown. */
  lemma DisconnectFresh(s: State, c: Xid, code: int, reason: string, heir: Xid)
    requires IdsOk(s) && if InRoom(s, c) then FreshBut(s, Lookup(s, c)) else AllFresh(s)
    ensures AllFresh(Disconnect(s, c, code, reason, heir))
  {
    hide Settle, RosterPhase, Latest;
    var told := Say(s, multiset{CloseNotice(c, code, reason)});
    SayNoRoster(s, multiset{CloseNotice(c, code, reason)});
    if !InRoom(s, c) {
      StillFresh(s, told.(connected := s.connected - {c}), UNNAMED);
    } else {
      var r := Lookup(s, c);
      var room := s.rooms[r];
      var gone := Remove(told, r, c);
      var phase := EndShares(room.users - {c}, room.sessions, Involving(room.sessions, c), c);
      SayNoRoster(gone, phase);
      SettleFresh(s, Say(gone, phase), r, room.users[c].owner, heir);
    }
  }

  lemma JoinFresh(s: State, info: ClientInfo, id: RoomId, userName: string, ch: Choice)
    requires IdsOk(s) && AllFresh(s)
    ensures AllFresh(JoinRoom(s, info, id, userName, ch).state)
  {
    hide Fresh;
    if JoinError(s, info, id).None? {
      var user := NewUser(info, DisplayName(info, userName, ch.randomName), false);
      var joined := Notify(AddMember(s, id, user), id);
      ChangedThenShown(s, AddMember(s, id, user), id, info.id);
      OpenNoRoster(joined, id, ch.grants);
      Opened(joined, id, ch.grants);
      StillFresh(joined, OpenSessions(joined, id, ch.grants), id);
    }
  }

  lemma CreateFresh(s: State, info: ClientInfo, e: Event, ch: Choice)
    requires e.Create? && IdsOk(s) && AllFresh(s)
    ensures AllFresh(CreateRoom(s, info, e, ch).state)
  {
    hide Fresh, JoinRoom, RosterPhase;
    if e.id in s.rooms {
      JoinFresh(s, info, e.id, e.userName, ch);
    } else {
      ChangedThenShown(s, OpenRoom(s, NewRoom(info, e, ch), info.id), e.id, info.id);
    }
  }

  /** A late failure leaves the sender's room changed but not shown. */
  lemma ShareFresh(s: State, c: Xid, ch: Choice)
    requires IdsOk(s) && AllFresh(s)
    ensures FreshBut(StartShare(s, c, ch).state, Lookup(s, c))
    ensures ShareError(s, c).Some? || ch.ipOk ==> AllFresh(StartShare(s, c, ch).state)
  {
    hide RosterPhase, Latest;
    if ShareError(s, c).None? && c in s.rooms[s.connected[c]].users {
      var r := s.connected[c];
      var on := SetUsers(s, r, s.rooms[r].users[c := s.rooms[r].users[c].(streaming := true)]);
      OpenNoRoster(on, r, ch.grants);
      Opened(on, r, ch.grants);
      ChangedThenShown(s, OpenSessions(on, r, ch.grants), r, c);
    }
  }

  lemma StopShareFresh(s: State, c: Xid)
    requires IdsOk(s) && AllFresh(s)
    ensures AllFresh(EndSharing(s, c).state)
  {
    hide Fresh, RosterPhase, EndShares;
    if CurrentRoomError(s, c).None? && c in s.rooms[s.connected[c]].users {
      var r := s.connected[c];
      var room := s.rooms[r];
      var off := SetUsers(s, r, room.users[c := room.users[c].(streaming := false)]);
      var ids := Hosted(room.sessions, c);
      var phase := EndShares(room.users, room.sessions, ids, c);
      NoRosterAmongEnds(room, ids, c);
      SayNoRoster(CloseSessions(off, r, ids), phase);
      ChangedThenShown(s, Say(CloseSessions(off, r, ids), phase), r, c);
    }
  }

  lemma NoRosterAmongEnds(room: Room, ids: set<Xid>, c: Xid)
    ensures forall d :: d in EndShares(room.users, room.sessions, ids, c) ==> !d.message.Roster?
  {}

  lemma NameFresh(s: State, c: Xid, name: string)
    requires IdsOk(s) && AllFresh(s)
    ensures AllFresh(SetName(s, c, name).state)
  {
    hide Fresh, RosterPhase;
    if CurrentRoomError(s, c).None? && c in s.rooms[s.connected[c]].users {
      var r := s.connected[c];
      var users := s.rooms[r].users;
      ChangedThenShown(s, SetUsers(s, r, users[c := users[c].(name := name)]), r, c);
    }
  }

  lemma ForwardFresh(s: State, c: Xid, kind: RelayKind, sid: Xid, value: string)
    requires AllFresh(s)
    ensures AllFresh(Forward(s, c, kind, sid, value).state)
  {
    hide Fresh, RosterPhase;
    var t := Forward(s, c, kind, sid, value).state;
    if t != s {
      var session := s.rooms[s.connected[c]].sessions[sid];
      var receiver := if kind.OfferFromHost? || kind.IceFromHost? then session.client else session.host;
      SayNoRoster(s, multiset{Delivery(receiver, Relay(kind, sid, value))});
      StillFresh(s, t, UNNAMED);
    }
  }

  lemma DissolveFresh(s: State, c: Xid)
    requires AllFresh(s)
    ensures AllFresh(DissolveRoom(s, c).state)
  {
    hide Fresh, RosterPhase;
    if DissolveRoom(s, c).verdict.Done? {
      SayNoRoster(s, DissolvePhase(s.rooms[Lookup(s, c)].users));
      StillFresh(s, DissolveRoom(s, c).state, Lookup(s, c));
    }
  }

  // ---- Owner actions ----

  lemma ExpelFresh(s: State, b: State, r: RoomId, c: Xid, t: Xid, reason: string)
    requires FreshBut(s, r) && OnlyRoom(s.rooms, b.rooms, r) && b.log == s.log
    requires r in b.rooms && b.rooms[r].id == r && c in b.rooms[r].users && c != t
    ensures AllFresh(Expel(b, r, t, reason))
  {
    hide Fresh, RosterPhase;
    var gone := Remove(b, r, t);
    SayNoRoster(gone, multiset{CloseNotice(t, CLOSE_NORMAL_CLOSURE, reason)});
    assert c in gone.rooms[r].users;
    ChangedThenShown(s, Say(gone, multiset{CloseNotice(t, CLOSE_NORMAL_CLOSURE, reason)}), r, c);
  }

  lemma StoppedFresh(s: State, r: RoomId, c: Xid, users: map<Xid, User>, ids: set<Xid>)
    requires IdsOk(s) && AllFresh(s) && r in s.rooms && c in users
    ensures AllFresh(Notify(CloseSessions(SetUsers(s, r, users), r, ids), r))
  {
    hide Fresh, RosterPhase;
    ChangedThenShown(s, CloseSessions(SetUsers(s, r, users), r, ids), r, c);
  }

  lemma StopTargetFresh(s: State, r: RoomId, c: Xid, t: Xid)
    requires IdsOk(s) && AllFresh(s) && r in s.rooms && c in s.rooms[r].users && t in s.rooms[r].users
    ensures AllFresh(StopTarget(s, r, t))
  {
    hide AllFresh, RosterPhase, CloseSessions;
    var room := s.rooms[r];
    StoppedFresh(s, r, c, room.users[t := room.users[t].(streaming := false)], Hosted(room.sessions, t));
  }

  lemma ToggleFresh(s: State, r: RoomId, c: Xid, t: Xid)
    requires IdsOk(s) && AllFresh(s) && r in s.rooms && c in s.rooms[r].users && t in s.rooms[r].users
    ensures AllFresh(TogglePermission(s, r, t))
  {
    hide Fresh, RosterPhase, CloseSessions;
    var room := s.rooms[r];
    var user := room.users[t].(canShare := !room.users[t].canShare);
    StoppedFresh(s, r, c, room.users[t := user.(streaming := false)], Hosted(room.sessions, t));
    ChangedThenShown(s, SetUsers(s, r, room.users[t := user]), r, c);
  }

  lemma ActOnFresh(s: State, r: RoomId, c: Xid, action: string, t: Xid)
    requires IdsOk(s) && AllFresh(s) && r in s.rooms && c in s.rooms[r].users
    ensures AllFresh(ActOn(s, r, c, action, t).state)
  {
    hide Fresh, StopTarget, TogglePermission, Expel;
    if t in s.rooms[r].users && t != c {
      if action == "stop_share" {
        StopTargetFresh(s, r, c, t);
      } else if action == "toggle_share_permission" {
        ToggleFresh(s, r, c, t);
      } else if action == "kick" {
        ExpelFresh(s, s, r, c, t, "kickedByOwner");
      } else if action == "ban" {
        ExpelFresh(s, Ban(s, r, s.rooms[r].users[t].addr), r, c, t, "bannedByOwner");
      }
    }
  }

  lemma GovernFresh(s: State, c: Xid, action: string, target: Target)
    requires IdsOk(s) && AllFresh(s)
    ensures AllFresh(Govern(s, c, action, target).state)
  {
    hide Fresh, RosterPhase, ActOn, CloseSessions, Permit;
    if CurrentRoomError(s, c).None? && c in s.rooms[s.connected[c]].users {
      var r := s.connected[c];
      var room := s.rooms[r];
      var others := room.users.Keys - {c};
      if action == "enable_all" {
        ChangedThenShown(s, SetUsers(s, r, Permit(room.users, others, true)), r, c);
      } else if action == "disable_all" {
        StoppedFresh(s, r, c, Permit(room.users, others, false), HostedByOthers(room, c));
      } else if target.Target? {
        ActOnFresh(s, r, c, action, target.id);
      }
    }
  }

  // ---- All events ----

  /** What a successful event leaves behind is fresh; a failing one may owe its sender's room a roster. */
  lemma ExecuteFresh(s: State, info: ClientInfo, e: Event, ch: Choice)
    requires IdsOk(s) && AllFresh(s)
    ensures var outcome := Execute(s, info, e, ch);
            if outcome.verdict.Failed? && e.Share? then
              && FreshBut(outcome.state, Lookup(s, info.id))
              && (ShareError(s, info.id).Some? ==> AllFresh(outcome.state))
            else AllFresh(outcome.state)
  {
    hide IdsOk, AllFresh, FreshBut, Disconnect, CreateRoom, JoinRoom, SetName, EndSharing, Forward, Govern, DissolveRoom;
    var c := info.id;
    match e
    case Connected => ConnectFresh(s, c);
    case Disconnected(code, reason) => LeaveFresh(s, c, code, reason, ch.heir);
    case Create(_, _, _, _, _) => CreateFresh(s, info, e, ch);
    case Join(id, userName) => JoinFresh(s, info, id, userName, ch);
    case Name(userName) => NameFresh(s, c, userName);
    case Share => ShareFresh(s, c, ch);
    case StopShare => StopShareFresh(s, c);
    case HostOffer(sid, value) => ForwardFresh(s, c, OfferFromHost, sid, value);
    case HostIce(sid, value) => ForwardFresh(s, c, IceFromHost, sid, value);
    case ClientAnswer(sid, value) => ForwardFresh(s, c, AnswerFromClient, sid, value);
    case ClientIce(sid, value) => ForwardFresh(s, c, IceFromClient, sid, value);
    case OwnerAction(action, target) => GovernFresh(s, c, action, target);
    case Exit => LeaveFresh(s, c, CLOSE_NORMAL_CLOSURE, "User Left", ch.heir);
    case Dissolve => DissolveFresh(s, c);
  }

  lemma ConnectFresh(s: State, c: Xid)
    requires AllFresh(s)
    ensures AllFresh(Connect(s, c))
  {
    StillFresh(s, Connect(s, c), UNNAMED);
  }

  lemma LeaveFresh(s: State, c: Xid, code: int, reason: string, heir: Xid)
    requires IdsOk(s) && AllFresh(s)
    ensures AllFresh(Disconnect(s, c, code, reason, heir))
  {
    DisconnectFresh(s, c, code, reason, heir);
  }

  /** Every step leaves every room shown to its members as it is. */
  lemma StepFresh(s: State, m: ClientMessage, ch: Choice)
    requires Inv(s) && Enabled(s, m, ch) && AllFresh(s)
    ensures AllFresh(Apply(s, m, ch))
  {
    hide RoomsInv, Covers, AllFresh, FreshBut, Disconnect, TurnOk, LogOk, MetricsOk, SessionsOk;
    if Accepted(s, m) {
      var outcome := Execute(s, m.info, m.incoming, ch);
      NeverPanics(s, m, ch);
      ExecuteFresh(s, m.info, m.incoming, ch);
      if outcome.verdict.Failed? {
        ExecuteKeepsCore(s, m, ch);
        if LateShareFailure(s, m.info, m.incoming, ch) {
          LateShareOutcome(s, m.info.id, ch);
          DisconnectFresh(outcome.state, m.info.id, CLOSE_NORMAL_CLOSURE, outcome.verdict.reason, ch.heir);
        } else {
          MemberOfOwnRoom(s, m.info.id);
          LeaveFresh(outcome.state, m.info.id, CLOSE_NORMAL_CLOSURE, outcome.verdict.reason, ch.heir);
        }
      }
    }
  }

  lemma FreshPreserved()
    ensures Preserves(Follows, (s: State) => Inv(s) && AllFresh(s))
  {
    forall s: State, x: Step, t: State | Inv(s) && AllFresh(s) && Follows(s, x, t)
      ensures Inv(t) && AllFresh(t)
    {
      StepKeepsInv(s, x.message, x.choice);
      StepFresh(s, x.message, x.choice);
    }
  }

  // ---- What members are shown ----

  lemma ListsByRule(users: map<Xid, User>)
    requires forall u :: u in users ==> users[u].id == u
    ensures Lists(Infos(users), users)
  {
    forall u | u in users
      ensures exists entry :: entry in Infos(users) && entry.id == u
    {
      assert Info(users[u]) in Infos(users);
    }
  }

  lemma RostersByRule(room: Room)
    requires forall u :: u in room.users ==> room.users[u].id == u
    ensures Shown(RosterPhase(room), room.id, room.users)
  {
    hide Lists, Infos;
    ListsByRule(room.users);
    forall u | u in room.users
      ensures exists d :: d in RosterPhase(room) && d.to == u
    {
      assert RosterFor(room, u) in RosterPhase(room);
    }
  }

  /**
   In every state of every run, each member of a room, and nobody else, was sent one list in the
   last phase that showed the room to anybody, and the list says of each member what is so now.
   */
  lemma MembersSeeTheirRoom(states: seq<State>, steps: seq<Step>, i: nat, r: RoomId)
    requires IsRun(states, steps) && i < |states| && r in states[i].rooms
    ensures Shown(Latest(states[i].log, r), r, states[i].rooms[r].users)
  {
    hide Inv, Follows, Shown;
    InitialInv(states[0].authMode);
    FreshPreserved();
    Always(states, steps, Follows, (s: State) => Inv(s) && AllFresh(s), 0, i);
    assert Fresh(states[i], r);
    OwnIds(states[i]);
    RostersByRule(states[i].rooms[r]);
  }

  lemma OwnIds(s: State)
    requires Inv(s)
    ensures forall r :: r in s.rooms ==> s.rooms[r].id == r
    ensures forall r, u :: r in s.rooms && u in s.rooms[r].users ==> s.rooms[r].users[u].id == u
  {}
}
