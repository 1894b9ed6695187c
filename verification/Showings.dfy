/** How often each event sends the list of a room round. */
module Showings {
  import M = RoomModel
  import opened Types
  import opened Rules
  import opened RoomModel
  import opened Invariant
  import opened Elementary
  import opened Shape
  import opened Safety
  import opened Frame
  import opened Rosters
  import opened Conduct
  import opened Unnamed
  import opened Authority

  /** In how many phases room `r` was shown to anybody. */
  ghost function TimesShown(log: seq<multiset<Delivery>>, r: RoomId): nat {
    if log == [] then 0 else TimesShown(log[..|log| - 1], r) + if ShowsRoom(log[|log| - 1], r) then 1 else 0
  }

  /** From `s` to `t` room `r` was shown `n` more times. */
  ghost predicate ShownMore(s: State, t: State, r: RoomId, n: nat) { TimesShown(t.log, r) == TimesShown(s.log, r) + n }

  lemma SayShows(s: State, phase: multiset<Delivery>, q: RoomId)
    ensures ShownMore(s, Say(s, phase), q, if ShowsRoom(phase, q) then 1 else 0)
  {
    assert (s.log + [phase])[..|s.log|] == s.log;
  }

  lemma NotifyShows(s: State, r: RoomId, q: RoomId)
    requires r in s.rooms && s.rooms[r].id == r
    ensures ShownMore(s, Notify(s, r), q, if q == r && s.rooms[r].users != map[] then 1 else 0)
  {
    hide ShownMore, ShowsRoom, RosterPhase;
    SayShows(s, RosterPhase(s.rooms[r]), q);
    if s.rooms[r].users == map[] {
      EmptyShowsNothing(s.rooms[r], q);
    } else {
      var c :| c in s.rooms[r].users;
      RosterShows(s.rooms[r], q, c);
    }
  }

  lemma EmptyShowsNothing(room: Room, q: RoomId)
    requires room.users == map[]
    ensures !ShowsRoom(RosterPhase(room), q)
  {}

  /** A change that says nothing, then a list; `c` is there to get it. */
  lemma ChangeShows(s: State, t: State, r: RoomId, c: Xid, q: RoomId)
    requires t.log == s.log && r in t.rooms && t.rooms[r].id == r && c in t.rooms[r].users
    ensures ShownMore(s, Notify(t, r), q, if q == r then 1 else 0)
  {
    hide RosterPhase, TimesShown, Notify;
    NotifyShows(t, r, q);
  }

  lemma {:induction false} OpeningShows(s: State, r: RoomId, grants: seq<Grant>, q: RoomId)
    requires r in s.rooms
    ensures ShownMore(s, OpenSessions(s, r, grants), q, 0)
  {
    if grants != [] {
      var before, g := grants[..|grants| - 1], grants[|grants| - 1];
      var t := OpenSessions(s, r, before);
      OpeningShows(s, r, before, q);
      var host, client := multiset{HostNotice(t.rooms[r].mode, g)}, multiset{ClientNotice(t.rooms[r].mode, g)};
      SayShows(t, host, q);
      SayShows(Say(t, host), client, q);
      assert OpenSessions(s, r, grants).log == Say(Say(t, host), client).log;
    }
  }

  // ---- Leaving ----

  lemma SettlingShows(s: State, r: RoomId, wasOwner: bool, heir: Xid, q: RoomId)
    requires r in s.rooms && s.rooms[r].id == r
    ensures ShownMore(s, Settle(s, r, wasOwner, heir), q, if q == r && s.rooms[r].users != map[] then 1 else 0)
  {
    hide RosterPhase, TimesShown, Notify;
    var users := s.rooms[r].users;
    if users != map[] {
      var c :| c in users;
      ChangeShows(s, SetUsers(s, r, Crown(users, heir)), r, c, q);
      ChangeShows(s, s, r, c, q);
    }
  }

  lemma LeavingShows(s: State, c: Xid, code: int, reason: string, heir: Xid, q: RoomId)
    requires IdsOk(s)
    ensures ShownMore(s, Disconnect(s, c, code, reason, heir), q,
                      if LivesIn(s, c, q) && s.rooms[q].users.Keys != {c} then 1 else 0)
  {
    hide RosterPhase, TimesShown, Settle, EndShares;
    var told := Say(s, multiset{CloseNotice(c, code, reason)});
    SayShows(s, multiset{CloseNotice(c, code, reason)}, q);
    if InRoom(s, c) {
      var r := Lookup(s, c);
      var room := s.rooms[r];
      var gone := Remove(told, r, c);
      var phase := EndShares(room.users - {c}, room.sessions, Involving(room.sessions, c), c);
      EndsShowNothing(room.users - {c}, room.sessions, Involving(room.sessions, c), c, q);
      SayShows(gone, phase, q);
      SettlingShows(Say(gone, phase), r, room.users[c].owner, heir, q);
      LastMember(s, c);
    }
  }

  lemma EndsShowNothing(users: map<Xid, User>, sessions: map<Xid, Session>, ids: set<Xid>, c: Xid, q: RoomId)
    ensures !ShowsRoom(EndShares(users, sessions, ids, c), q)
  {}

  // ---- Entering ----

  lemma JoiningShows(s: State, info: ClientInfo, id: RoomId, userName: string, ch: Choice, q: RoomId)
    requires IdsOk(s)
    ensures ShownMore(s, JoinRoom(s, info, id, userName, ch).state, q,
                      if JoinError(s, info, id).None? && q == id then 1 else 0)
  {
    hide RosterPhase, TimesShown, OpenSessions, DisplayName;
    if JoinError(s, info, id).None? {
      var added := AddMember(s, id, NewUser(info, DisplayName(info, userName, ch.randomName), false));
      ChangeShows(s, added, id, info.id, q);
      OpeningShows(Notify(added, id), id, ch.grants, q);
    }
  }

  lemma FoundingShows(s: State, m: ClientMessage, ch: Choice, q: RoomId)
    requires Founds(s, m)
    ensures ShownMore(s, Apply(s, m, ch), q, if q == m.incoming.id then 1 else 0)
  {
    hide Apply, TimesShown;
    var phase := multiset{RosterFor(NewRoom(m.info, m.incoming, ch), m.info.id)};
    FoundingStep(s, m, ch);
    SayShows(s, phase, q);
    assert RosterFor(NewRoom(m.info, m.incoming, ch), m.info.id) in phase;
  }

  lemma EnteringShows(s: State, m: ClientMessage, ch: Choice, q: RoomId)
    requires Inv(s) && Enters(s, m)
    ensures ShownMore(s, Apply(s, m, ch), q,
                      if q != m.incoming.id then 0 else if ch.ipOk || q == UNNAMED then 1 else 2)
  {
    hide ConnectedOk, MembersOk, SessionsOk, TurnOk, LogOk, MetricsOk, RoomsInv, Apply, Disconnect, Notify, TimesShown, AddMember;
    var r := m.incoming.id;
    if ch.ipOk {
      JoinsByRule(s, m);
      JoinedState(s, m, ch);
      JoiningShows(s, m.info, r, m.incoming.userName, ch, q);
    } else {
      LateJoinState(s, m, ch);
      LateShows(s, r, Newcomer(m.info, m.incoming, ch), ch.heir, q);
    }
  }

  lemma JoinsByRule(s: State, m: ClientMessage)
    requires Enters(s, m)
    ensures JoinError(s, m.info, m.incoming.id).None?
  {}

  lemma LateShows(s: State, r: RoomId, user: User, heir: Xid, q: RoomId)
    requires Inv(s) && r in s.rooms && user.id in s.connected && s.connected[user.id] == UNNAMED
    ensures var t := Disconnect(Notify(AddMember(s, r, user), r), user.id, CLOSE_NORMAL_CLOSURE, PROVIDER_ERROR, heir);
            ShownMore(s, t, q, if q != r then 0 else if r == UNNAMED then 1 else 2)
  {
    hide ConnectedOk, MembersOk, SessionsOk, TurnOk, LogOk, MetricsOk, RoomInv, UnnamedInv, Disconnect, RosterPhase, TimesShown;
    var joined := Notify(AddMember(s, r, user), r);
    ChangeShows(s, AddMember(s, r, user), r, user.id, q);
    LeavingShows(joined, user.id, CLOSE_NORMAL_CLOSURE, PROVIDER_ERROR, heir, q);
    if r != UNNAMED {
      NotAMemberYet(s, user.id, r);
      NonEmpty(s.rooms[r]);
      assert LivesIn(joined, user.id, r);
      OthersStayIn(s.rooms[r].users, user);
    }
  }

  lemma OthersStayIn(users: map<Xid, User>, user: User)
    requires users != map[] && user.id !in users
    ensures users[user.id := user].Keys != {user.id}
  {
    var u :| u in users;
    assert u in users[user.id := user].Keys;
  }

  // ---- In a room ----

  lemma NamingShows(s: State, c: Xid, name: string, q: RoomId)
    requires IdsOk(s)
    ensures SetName(s, c, name).verdict.Done? ==>
              InRoom(s, c) && ShownMore(s, SetName(s, c, name).state, q, if q == Lookup(s, c) then 1 else 0)
  {
    hide RosterPhase, TimesShown;
    if SetName(s, c, name).verdict.Done? {
      var r := s.connected[c];
      var users := s.rooms[r].users;
      ChangeShows(s, SetUsers(s, r, users[c := users[c].(name := name)]), r, c, q);
    }
  }

  lemma SharingShows(s: State, c: Xid, ch: Choice, q: RoomId)
    requires IdsOk(s)
    ensures StartShare(s, c, ch).verdict.Done? ==>
              InRoom(s, c) && ShownMore(s, StartShare(s, c, ch).state, q, if q == Lookup(s, c) then 1 else 0)
  {
    hide RosterPhase, TimesShown, OpenSessions;
    if StartShare(s, c, ch).verdict.Done? {
      var r := s.connected[c];
      var on := SetUsers(s, r, s.rooms[r].users[c := s.rooms[r].users[c].(streaming := true)]);
      Opened(on, r, ch.grants);
      OpeningShows(on, r, ch.grants, q);
      NotifyShows(OpenSessions(on, r, ch.grants), r, q);
      assert c in on.rooms[r].users;
    }
  }

  lemma StoppingShows(s: State, c: Xid, q: RoomId)
    requires IdsOk(s)
    ensures EndSharing(s, c).verdict.Done? ==>
              InRoom(s, c) && ShownMore(s, EndSharing(s, c).state, q, if q == Lookup(s, c) then 1 else 0)
  {
    hide RosterPhase, TimesShown, EndShares;
    if EndSharing(s, c).verdict.Done? {
      var r := s.connected[c];
      var room := s.rooms[r];
      var off := SetUsers(s, r, room.users[c := room.users[c].(streaming := false)]);
      var ids := Hosted(room.sessions, c);
      var phase := EndShares(room.users, room.sessions, ids, c);
      EndsShowNothing(room.users, room.sessions, ids, c, q);
      SayShows(CloseSessions(off, r, ids), phase, q);
      NotifyShows(Say(CloseSessions(off, r, ids), phase), r, q);
      assert c in off.rooms[r].users;
    }
  }

  lemma FlagsShow(s: State, r: RoomId, t: Xid, q: RoomId)
    requires IdsOk(s) && r in s.rooms && t in s.rooms[r].users
    ensures ShownMore(s, StopTarget(s, r, t), q, if q == r && s.rooms[r].users[t].streaming then 1 else 0)
    ensures ShownMore(s, TogglePermission(s, r, t), q, if q == r then 1 else 0)
  {
    hide RosterPhase, TimesShown, Notify, Hosted;
    var room := s.rooms[r];
    var user := room.users[t].(canShare := !room.users[t].canShare);
    ChangeShows(s, CloseSessions(SetUsers(s, r, room.users[t := room.users[t].(streaming := false)]), r,
                                 Hosted(room.sessions, t)), r, t, q);
    ChangeShows(s, CloseSessions(SetUsers(s, r, room.users[t := user.(streaming := false)]), r,
                                 Hosted(room.sessions, t)), r, t, q);
    ChangeShows(s, SetUsers(s, r, room.users[t := user]), r, t, q);
  }

  lemma ExpellingShows(s: State, b: State, r: RoomId, c: Xid, t: Xid, reason: string, q: RoomId)
    requires b.log == s.log && r in b.rooms && b.rooms[r].id == r && c in b.rooms[r].users && c != t
    ensures ShownMore(s, Expel(b, r, t, reason), q, if q == r then 1 else 0)
  {
    hide RosterPhase, TimesShown, Notify;
    var gone := Remove(b, r, t);
    var told := Say(gone, multiset{CloseNotice(t, CLOSE_NORMAL_CLOSURE, reason)});
    SayShows(gone, multiset{CloseNotice(t, CLOSE_NORMAL_CLOSURE, reason)}, q);
    assert c in told.rooms[r].users;
    NotifyShows(told, r, q);
  }

  lemma ActOnShows(s: State, r: RoomId, c: Xid, action: string, t: Xid, q: RoomId)
    requires IdsOk(s) && r in s.rooms && c in s.rooms[r].users
    ensures ActOn(s, r, c, action, t).verdict.Done? ==>
              ShownMore(s, ActOn(s, r, c, action, t).state, q,
                        if q == r && !StopsNothing(s.rooms[r], action, Target(t)) then 1 else 0)
  {
    hide StopTarget, TogglePermission, Expel, ShownMore;
    if t in s.rooms[r].users && t != c {
      FlagsShow(s, r, t, q);
      ExpellingShows(s, s, r, c, t, "kickedByOwner", q);
      ExpellingShows(s, Ban(s, r, s.rooms[r].users[t].addr), r, c, t, "bannedByOwner", q);
    }
  }

  lemma AllShow(s: State, r: RoomId, c: Xid, q: RoomId)
    requires IdsOk(s) && r in s.rooms && c in s.rooms[r].users
    ensures var users := s.rooms[r].users;
            var on := SetUsers(s, r, Permit(users, users.Keys - {c}, true));
            r in on.rooms && ShownMore(s, Notify(on, r), q, if q == r then 1 else 0)
    ensures ShownMore(s, M.DisableAll(s, r, c), q, if q == r then 1 else 0)
  {
    hide RosterPhase, TimesShown, Notify, Permit, HostedByOthers;
    var room := s.rooms[r];
    ChangeShows(s, SetUsers(s, r, Permit(room.users, room.users.Keys - {c}, true)), r, c, q);
    ChangeShows(s, CloseSessions(SetUsers(s, r, Permit(room.users, room.users.Keys - {c}, false)), r,
                                 HostedByOthers(room, c)), r, c, q);
  }

  lemma GoverningShows(s: State, c: Xid, action: string, target: Target, q: RoomId)
    requires IdsOk(s)
    ensures Govern(s, c, action, target).verdict.Done? ==>
              && InRoom(s, c)
              && ShownMore(s, Govern(s, c, action, target).state, q,
                           if q == Lookup(s, c) && !StopsNothing(s.rooms[q], action, target) then 1 else 0)
  {
    hide Permit, ActOn, M.DisableAll, SetUsers, Notify, ShownMore;
    if Govern(s, c, action, target).verdict.Done? {
      AllShow(s, s.connected[c], c, q);
      if target.Target? {
        ActOnShows(s, s.connected[c], c, action, target.id, q);
      }
    }
  }

  lemma DissolvingShows(s: State, c: Xid, q: RoomId)
    ensures ShownMore(s, DissolveRoom(s, c).state, q, 0)
  {
    hide TimesShown, HostNames, ClientNames;
    if DissolveRoom(s, c).verdict.Done? {
      var r := Lookup(s, c);
      var users := s.rooms[r].users;
      SayShows(s, DissolvePhase(users), q);
      GoodbyesShowNothing(users, q);
    }
  }

  lemma GoodbyesShowNothing(users: map<Xid, User>, q: RoomId)
    ensures !ShowsRoom(DissolvePhase(users), q)
  {}

  lemma SignallingShows(s: State, c: Xid, kind: RelayKind, sid: Xid, value: string, q: RoomId)
    ensures ShownMore(s, Forward(s, c, kind, sid, value).state, q, 0)
  {
    hide TimesShown;
    var t := Forward(s, c, kind, sid, value).state;
    if t != s {
      var session := s.rooms[s.connected[c]].sessions[sid];
      var receiver := if kind.OfferFromHost? || kind.IceFromHost? then session.client else session.host;
      SayShows(s, multiset{Delivery(receiver, Relay(kind, sid, value))}, q);
    }
  }

  // ---- All events ----

  /** A member's event that succeeds. */
  lemma SuccessShows(s: State, m: ClientMessage, ch: Choice, q: RoomId)
    requires Core(s) && m.info.id in s.connected && Execute(s, m.info, m.incoming, ch).verdict.Done?
    requires !m.incoming.Join? && !m.incoming.Create? && !m.incoming.Connected?
    ensures ShownMore(s, Execute(s, m.info, m.incoming, ch).state, q, ListsDue(s, m, ch.ipOk, q))
  {
    hide IdsOk, SessionsOk, TurnOk, LogOk, MetricsOk, ConnectedOk, MembersOk, ShownMore, Refusal;
    hide Disconnect, SetName, EndSharing, StartShare, Govern, Forward, DissolveRoom, StopsNothing;
    var c := m.info.id;
    RefusalsExact(s, m, ch);
    Home(s, c);
    match m.incoming
    case Disconnected(code, reason) => LeavingShows(s, c, code, reason, ch.heir, q);
    case Exit => LeavingShows(s, c, CLOSE_NORMAL_CLOSURE, "User Left", ch.heir, q);
    case Share => SharingShows(s, c, ch, q);
    case OwnerAction(action, target) => GoverningShows(s, c, action, target, q);
    case Name(name) => NamingShows(s, c, name, q);
    case StopShare => StoppingShows(s, c, q);
    case Dissolve => DissolvingShows(s, c, q);
    case HostOffer(sid, value) => SignallingShows(s, c, OfferFromHost, sid, value, q);
    case HostIce(sid, value) => SignallingShows(s, c, IceFromHost, sid, value, q);
    case ClientAnswer(sid, value) => SignallingShows(s, c, AnswerFromClient, sid, value, q);
    case ClientIce(sid, value) => SignallingShows(s, c, IceFromClient, sid, value, q);
  }

  lemma FailureShows(s: State, m: ClientMessage, ch: Choice, q: RoomId)
    requires Core(s) && m.info.id in s.connected && Execute(s, m.info, m.incoming, ch).verdict.Failed? && !Enters(s, m)
    ensures ShownMore(s, Apply(s, m, ch), q,
                      if LivesIn(s, m.info.id, q) && s.rooms[q].users.Keys != {m.info.id} then 1 else 0)
  {
    hide MembershipOk, SessionsOk, TurnOk, LogOk, MetricsOk, Disconnect, TimesShown, Execute;
    var c, outcome := m.info.id, Execute(s, m.info, m.incoming, ch);
    if LateShareFailure(s, m.info, m.incoming, ch) {
      var on := SetUsers(s, Lookup(s, c), s.rooms[Lookup(s, c)].users[c := s.rooms[Lookup(s, c)].users[c].(streaming := true)]);
      LateShareState(s, m, ch);
      SameMembersLive(s, c, q);
      LeavingShows(on, c, CLOSE_NORMAL_CLOSURE, PROVIDER_ERROR, ch.heir, q);
    } else {
      OtherFailuresChangeNothing(s, m, ch);
      LeavingShows(s, c, CLOSE_NORMAL_CLOSURE, outcome.verdict.reason, ch.heir, q);
    }
  }

  lemma SameMembersLive(s: State, c: Xid, q: RoomId)
    requires InRoom(s, c)
    ensures var users := s.rooms[Lookup(s, c)].users;
            var on := SetUsers(s, Lookup(s, c), users[c := users[c].(streaming := true)]);
            && (LivesIn(on, c, q) <==> LivesIn(s, c, q))
            && (LivesIn(s, c, q) ==> on.rooms[q].users.Keys == s.rooms[q].users.Keys)
  {}

  /** Whoever is let in founds or enters a room. */
  lemma LetIn(s: State, m: ClientMessage, ch: Choice)
    requires m.info.id in s.connected && (m.incoming.Join? || m.incoming.Create?) && Refusal(s, m, ch.ipOk).None?
    ensures Founds(s, m) || Enters(s, m)
  {}

  /** Every step shows each room as often as is due. */
  lemma ShowingsByRule(s: State, m: ClientMessage, ch: Choice, q: RoomId)
    requires Inv(s) && Enabled(s, m, ch)
    ensures ShownMore(s, Apply(s, m, ch), q, ListsDue(s, m, ch.ipOk, q))
  {
    hide ConnectedOk, MembersOk, RoomsInv, IdsOk, SessionsOk, TurnOk, LogOk, MetricsOk, Covers, Execute, Refusal;
    hide Disconnect, Enters, Founds, TimesShown;
    var c := m.info.id;
    if !Accepted(s, m) || m.incoming.Connected? {
      NothingTouched(s, m, ch);
    } else if Founds(s, m) {
      FoundingShows(s, m, ch, q);
      FoundersAskForIt(s, m);
    } else if Enters(s, m) {
      EnteringShows(s, m, ch, q);
    } else {
      NeverPanics(s, m, ch);
      RefusalsExact(s, m, ch);
      if Execute(s, m.info, m.incoming, ch).verdict.Failed? {
        FailureShows(s, m, ch, q);
      } else {
        if m.incoming.Join? || m.incoming.Create? {
          LetIn(s, m, ch);
        }
        SuccessShows(s, m, ch, q);
      }
    }
  }
}
