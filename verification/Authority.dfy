/**
 Who can change what about whom: for a member of a room that is still one after a step,
 exactly when its permission, its streaming, its ownership and its name have changed.
 */
module Authority {
  import M = RoomModel
  import opened Types
  import opened Rules
  import opened RoomModel
  import opened Invariant
  import opened Elementary
  import opened Events
  import opened Shape
  import opened Safety
  import opened Properties
  import opened Goodbyes

  /** What an owner action makes of another member that stays. */
  function Governed(user: User, action: string, target: Target): User {
    if action == "enable_all" then user.(canShare := true)
    else if action == "disable_all" then user.(canShare := false, streaming := false)
    else if target != Target(user.id) then user
    else if action == "stop_share" then user.(streaming := false)
    else if action == "toggle_share_permission" then
      user.(canShare := !user.canShare, streaming := user.streaming && !user.canShare)
    else user
  }

  /** What a leaver makes of a member that stays. */
  function Bereaved(s: State, c: Xid, heir: Xid, r: RoomId, user: User): User {
    if Owns(s, c, r) && user.id == heir then user.(owner := true) else user
  }

  /** What a successful event of `c` makes of member `user` of room `r`. */
  function Affected(s: State, c: Xid, e: Event, heir: Xid, r: RoomId, user: User): User {
    match e
    case Disconnected(_, _) => Bereaved(s, c, heir, r, user)
    case Exit => Bereaved(s, c, heir, r, user)
    case OwnerAction(action, target) => if Owns(s, c, r) && user.id != c then Governed(user, action, target) else user
    case Name(name) => if user.id == c && LivesIn(s, c, r) then user.(name := name) else user
    case Share => if user.id == c && LivesIn(s, c, r) then user.(streaming := true) else user
    case StopShare => if user.id == c && LivesIn(s, c, r) then user.(streaming := false) else user
    case _ => user
  }

  lemma LeavingAffects(s: State, c: Xid, code: int, reason: string, heir: Xid, r: RoomId, u: Xid)
    requires IdsOk(s) && IsMember(s, u, r)
    requires var t := Disconnect(s, c, code, reason, heir); IsMember(t, u, r)
    ensures Disconnect(s, c, code, reason, heir).rooms[r].users[u] == Bereaved(s, c, heir, r, s.rooms[r].users[u])
  {
    if InRoom(s, c) {
      hide Disconnect;
      DisconnectEffect(s, c, code, reason, heir);
    }
  }

  lemma GovernAffects(s: State, c: Xid, action: string, target: Target, r: RoomId, u: Xid)
    requires IdsOk(s) && MembershipOk(s) && IsMember(s, u, r)
    requires var t := Govern(s, c, action, target).state; IsMember(t, u, r)
    requires Govern(s, c, action, target).verdict.Done?
    ensures Govern(s, c, action, target).state.rooms[r].users[u]
            == Affected(s, c, OwnerAction(action, target), c, r, s.rooms[r].users[u])
  {
    hide Govern, ActOn, Permit, M.DisableAll, SetUsers, Notify, Governed, IdsOk, MembershipOk;
    KeepsIds(s, r, u);
    GovernCases(s, c, action, target);
    if action == "enable_all" || action == "disable_all" {
      AllAffects(s, s.connected[c], c, target, r, u);
    } else {
      ActOnAffects(s, s.connected[c], c, action, target.id, r, u);
    }
  }

  /** Who acts is the owner of its room, and what is done is one of three things. */
  lemma GovernCases(s: State, c: Xid, action: string, target: Target)
    requires MembershipOk(s) && Govern(s, c, action, target).verdict.Done?
    ensures c in s.connected && s.connected[c] in s.rooms && Owns(s, c, s.connected[c])
    ensures var r, t := s.connected[c], Govern(s, c, action, target).state;
            var users := s.rooms[r].users;
            if action == "enable_all" then t == Notify(SetUsers(s, r, Permit(users, users.Keys - {c}, true)), r)
            else if action == "disable_all" then t == M.DisableAll(s, r, c)
            else target.Target? && ActOn(s, r, c, action, target.id) == Fine(t)
  {
    hide ActOn, Permit, M.DisableAll, Notify;
  }

  lemma AllAffects(s: State, q: RoomId, c: Xid, target: Target, r: RoomId, u: Xid)
    requires IdsOk(s) && q in s.rooms && IsMember(s, u, r)
    ensures var users := s.rooms[q].users;
            var on := SetUsers(s, q, Permit(users, users.Keys - {c}, true));
            && q in on.rooms && IsMember(Notify(on, q), u, r)
            && Notify(on, q).rooms[r].users[u]
               == if r == q && u != c then Governed(s.rooms[r].users[u], "enable_all", target) else s.rooms[r].users[u]
    ensures var off := M.DisableAll(s, q, c);
            && IsMember(off, u, r)
            && off.rooms[r].users[u]
               == if r == q && u != c then Governed(s.rooms[r].users[u], "disable_all", target) else s.rooms[r].users[u]
  {
    hide RosterPhase, Permit, SetUsers, CloseSessions;
    var room := s.rooms[q];
    var on, off := Permit(room.users, room.users.Keys - {c}, true), Permit(room.users, room.users.Keys - {c}, false);
    UsersSet(s, q, on, {}, r);
    UsersSet(s, q, off, HostedByOthers(room, c), r);
  }

  lemma UsersSet(s: State, q: RoomId, users: map<Xid, User>, ids: set<Xid>, r: RoomId)
    requires q in s.rooms && r in s.rooms
    ensures var changed := SetUsers(s, q, users);
            && q in changed.rooms && r in changed.rooms
            && changed.rooms[r].users == (if r == q then users else s.rooms[r].users)
            && r in CloseSessions(changed, q, ids).rooms
            && CloseSessions(changed, q, ids).rooms[r].users == changed.rooms[r].users
  {}

  lemma ActOnAffects(s: State, q: RoomId, c: Xid, action: string, t: Xid, r: RoomId, u: Xid)
    requires IdsOk(s) && q in s.rooms && IsMember(s, u, r)
    requires ActOn(s, q, c, action, t).verdict.Done? && IsMember(ActOn(s, q, c, action, t).state, u, r)
    requires action != "enable_all" && action != "disable_all"
    ensures t != c
    ensures ActOn(s, q, c, action, t).state.rooms[r].users[u]
            == if r == q && u != c then Governed(s.rooms[r].users[u], action, Target(t)) else s.rooms[r].users[u]
  {
    hide RosterPhase, StopTarget, TogglePermission, Expel;
    StopAffects(s, q, t, r, u);
    ToggleAffects(s, q, t, r, u);
    ExpelSpares(s, q, t, "kickedByOwner", r, u);
    ExpelSpares(Ban(s, q, s.rooms[q].users[t].addr), q, t, "bannedByOwner", r, u);
  }

  lemma StopAffects(s: State, q: RoomId, t: Xid, r: RoomId, u: Xid)
    requires IdsOk(s) && IsMember(s, t, q) && IsMember(s, u, r)
    ensures var after := StopTarget(s, q, t);
            && IsMember(after, u, r)
            && after.rooms[r].users[u]
               == if r == q then Governed(s.rooms[r].users[u], "stop_share", Target(t)) else s.rooms[r].users[u]
  {
    hide RosterPhase;
  }

  lemma ToggleAffects(s: State, q: RoomId, t: Xid, r: RoomId, u: Xid)
    requires IdsOk(s) && IsMember(s, t, q) && IsMember(s, u, r)
    ensures var after := TogglePermission(s, q, t);
            && IsMember(after, u, r)
            && after.rooms[r].users[u]
               == if r == q then Governed(s.rooms[r].users[u], "toggle_share_permission", Target(t)) else s.rooms[r].users[u]
  {
    hide RosterPhase;
  }

  lemma ExpelSpares(s: State, q: RoomId, t: Xid, reason: string, r: RoomId, u: Xid)
    requires q in s.rooms && IsMember(s, u, r)
    ensures var after := Expel(s, q, t, reason);
            && (IsMember(after, u, r) <==> r != q || u != t)
            && (IsMember(after, u, r) ==> after.rooms[r].users[u] == s.rooms[r].users[u])
  {
    hide RosterPhase;
  }

  lemma ShareAffects(s: State, c: Xid, ch: Choice, r: RoomId, u: Xid)
    requires IdsOk(s) && MembershipOk(s) && IsMember(s, u, r) && StartShare(s, c, ch).verdict.Done?
    requires IsMember(StartShare(s, c, ch).state, u, r)
    ensures StartShare(s, c, ch).state.rooms[r].users[u] == Affected(s, c, Share, c, r, s.rooms[r].users[u])
  {
    hide RosterPhase;
    var q := s.connected[c];
    Opened(SetUsers(s, q, s.rooms[q].users[c := s.rooms[q].users[c].(streaming := true)]), q, ch.grants);
  }

  lemma JoinAffects(s: State, info: ClientInfo, id: RoomId, userName: string, ch: Choice, r: RoomId, u: Xid)
    requires IsMember(s, u, r) && JoinRoom(s, info, id, userName, ch).verdict.Done? && (r == id ==> u != info.id)
    ensures var t := JoinRoom(s, info, id, userName, ch).state;
            IsMember(t, u, r) && t.rooms[r].users[u] == s.rooms[r].users[u]
  {
    hide RosterPhase;
    var joined := Notify(AddMember(s, id, NewUser(info, DisplayName(info, userName, ch.randomName), false)), id);
    Opened(joined, id, ch.grants);
  }

  lemma JoinSucceeds(s: State, info: ClientInfo, id: RoomId, userName: string, ch: Choice)
    requires JoinRoom(s, info, id, userName, ch).verdict.Done?
    ensures JoinError(s, info, id).None?
  {}

  lemma OwnEventAffects(s: State, c: Xid, e: Event, ch: Choice, r: RoomId, u: Xid)
    requires IdsOk(s) && MembershipOk(s) && IsMember(s, u, r) && (e.Name? || e.StopShare?)
    requires var name := if e.Name? then e.userName else "";
             var outcome := if e.Name? then SetName(s, c, name) else EndSharing(s, c);
             outcome.verdict.Done?
    ensures var name := if e.Name? then e.userName else "";
            var t := (if e.Name? then SetName(s, c, name) else EndSharing(s, c)).state;
            IsMember(t, u, r) && t.rooms[r].users[u] == Affected(s, c, e, c, r, s.rooms[r].users[u])
  {
    hide RosterPhase, EndShares;
  }

  // ---- All events ----

  /** The sender enters a room it is listed in already, which only the unnamed room allows. */
  predicate Reenters(s: State, m: ClientMessage, r: RoomId, u: Xid) {
    Enters(s, m) && m.incoming.id == r && m.info.id == u
  }

  lemma SuccessAffects(s: State, m: ClientMessage, ch: Choice, r: RoomId, u: Xid)
    requires Core(s) && Accepted(s, m) && Execute(s, m.info, m.incoming, ch).verdict.Done?
    requires IsMember(s, u, r) && !Reenters(s, m, r, u)
    requires IsMember(Execute(s, m.info, m.incoming, ch).state, u, r)
    requires m.skipConnectedCheck <==> m.incoming.Connected?
    ensures Execute(s, m.info, m.incoming, ch).state.rooms[r].users[u]
            == Affected(s, m.info.id, m.incoming, ch.heir, r, s.rooms[r].users[u])
  {
    hide SessionsOk, TurnOk, LogOk, MetricsOk, ConnectedOk, MembersOk;
    hide Disconnect, JoinRoom, SetName, EndSharing, StartShare, Govern, Forward, DissolveRoom, Bereaved, Governed, Owns;
    var c := m.info.id;
    match m.incoming
    case Connected =>
    case Disconnected(code, reason) => LeavingAffects(s, c, code, reason, ch.heir, r, u);
    case Exit => LeavingAffects(s, c, CLOSE_NORMAL_CLOSURE, "User Left", ch.heir, r, u);
    case Create(id, _, _, userName, _) =>
      if id in s.rooms {
        JoinSucceeds(s, m.info, id, userName, ch);
        JoinAffects(s, m.info, id, userName, ch, r, u);
      }
    case Join(id, userName) =>
      JoinSucceeds(s, m.info, id, userName, ch);
      JoinAffects(s, m.info, id, userName, ch, r, u);
    case Share => ShareAffects(s, c, ch, r, u);
    case OwnerAction(action, target) => GovernAffects(s, c, action, target, r, u);
    case Name(_) => OwnEventAffects(s, c, m.incoming, ch, r, u);
    case StopShare => OwnEventAffects(s, c, m.incoming, ch, r, u);
    case Dissolve => DissolveSpares(s, c, r);
    case _ => ForwardShape(s, m.info, m.incoming, ch);
  }

  lemma DissolveSpares(s: State, c: Xid, r: RoomId)
    requires r in s.rooms && r in DissolveRoom(s, c).state.rooms
    ensures DissolveRoom(s, c).state.rooms[r] == s.rooms[r]
  {
    DissolvedRooms(s, c);
  }

  /** What a step makes of member `user` of room `r`, failing events included. */
  ghost function AffectedByStep(s: State, m: ClientMessage, ch: Choice, r: RoomId, user: User): User {
    if !Accepted(s, m) then user
    else if Execute(s, m.info, m.incoming, ch).verdict.Failed? then Bereaved(s, m.info.id, ch.heir, r, user)
    else Affected(s, m.info.id, m.incoming, ch.heir, r, user)
  }

  lemma StepAffects(s: State, m: ClientMessage, ch: Choice, r: RoomId, u: Xid)
    requires Inv(s) && Enabled(s, m, ch)
    requires IsMember(s, u, r) && !Reenters(s, m, r, u) && IsMember(Apply(s, m, ch), u, r)
    ensures Apply(s, m, ch).rooms[r].users[u] == AffectedByStep(s, m, ch, r, s.rooms[r].users[u])
  {
    hide RoomsInv, Covers, SessionsOk, TurnOk, LogOk, MetricsOk, Execute, Disconnect, Affected, Bereaved, Reenters;
    if Accepted(s, m) {
      NeverPanics(s, m, ch);
      if Execute(s, m.info, m.incoming, ch).verdict.Failed? {
        FailureAffects(s, m, ch, r, u);
      } else {
        SuccessAffects(s, m, ch, r, u);
      }
    }
  }

  lemma FailureAffects(s: State, m: ClientMessage, ch: Choice, r: RoomId, u: Xid)
    requires Inv(s) && Enabled(s, m, ch) && Accepted(s, m) && Execute(s, m.info, m.incoming, ch).verdict.Failed?
    requires IsMember(s, u, r) && !Reenters(s, m, r, u) && IsMember(Apply(s, m, ch), u, r)
    ensures Apply(s, m, ch).rooms[r].users[u] == Bereaved(s, m.info.id, ch.heir, r, s.rooms[r].users[u])
  {
    hide RoomsInv, Covers, SessionsOk, TurnOk, LogOk, MetricsOk, Disconnect, Execute, Apply;
    FailureIsDisconnect(s, m, ch, CLOSE_NORMAL_CLOSURE, "");
    if LeavesMemberBehind(s, m.info, m.incoming, ch) {
      LateJoinState(s, m, ch);
      LateJoinOfUnnamed(s, Newcomer(m.info, m.incoming, ch), CLOSE_NORMAL_CLOSURE, PROVIDER_ERROR, ch.heir);
    } else {
      LeavingAffects(s, m.info.id, CLOSE_NORMAL_CLOSURE, "", ch.heir, r, u);
    }
  }

  // ---- Who can change what ----

  predicate Acts(s: State, m: ClientMessage, r: RoomId) { LivesIn(s, m.info.id, r) }

  /** The sender owns room `r` and governs member `u`, another one. */
  predicate Governs(s: State, m: ClientMessage, r: RoomId, u: Xid) {
    Acts(s, m, r) && Owns(s, m.info.id, r) && u != m.info.id && m.incoming.OwnerAction?
  }

  /** The sender leaves exactly by failing, leaving or dissolving its room. */
  lemma SenderLeaves(s: State, m: ClientMessage, ch: Choice)
    requires Inv(s) && Enabled(s, m, ch)
    ensures m.info.id in s.connected ==>
              (m.info.id !in Apply(s, m, ch).connected <==>
                || Execute(s, m.info, m.incoming, ch).verdict.Failed?
                || m.incoming.Exit? || m.incoming.Disconnected? || m.incoming.Dissolve?)
  {
    hide Apply, Execute, Covers, TurnOk, SessionsOk, LogOk, MetricsOk, RoomsInv;
    if m.info.id in s.connected {
      GoodbyesExact(s, m, ch);
      NeverPanics(s, m, ch);
      MemberOfOwnRoom(s, m.info.id);
      LeaversWhenDone(s, m, ch);
    }
  }

  lemma LeaversWhenDone(s: State, m: ClientMessage, ch: Choice)
    ensures Execute(s, m.info, m.incoming, ch).verdict.Done? ==>
              && (m.incoming.Dissolve? ==> InRoom(s, m.info.id))
              && (m.incoming.OwnerAction? ==> m.info.id !in Expelled(m.incoming.action, m.incoming.target))
  {
    hide Permit, M.DisableAll, StopTarget, TogglePermission, Expel;
  }

  /** The member is there, stays, and does not enter again. */
  ghost predicate Stays(s: State, m: ClientMessage, ch: Choice, r: RoomId, u: Xid) {
    Inv(s) && Enabled(s, m, ch) && IsMember(s, u, r) && !Reenters(s, m, r, u) && IsMember(Apply(s, m, ch), u, r)
  }

  lemma SenderStays(s: State, m: ClientMessage, ch: Choice, r: RoomId)
    requires Inv(s) && Enabled(s, m, ch)
    ensures Acts(s, m, r) && IsMember(Apply(s, m, ch), m.info.id, r) ==>
              && Execute(s, m.info, m.incoming, ch).verdict.Done?
              && !m.incoming.Exit? && !m.incoming.Disconnected?
              && (m.incoming.Share? ==> ShareError(s, m.info.id).None? && ch.ipOk)
  {
    hide Apply, Execute, Covers, TurnOk, SessionsOk, LogOk, MetricsOk, RoomsInv;
    if Acts(s, m, r) {
      StepKeepsInv(s, m, ch);
      SenderLeaves(s, m, ch);
      NeverPanics(s, m, ch);
      ShareSucceeds(s, m, ch);
    }
  }

  lemma ShareSucceeds(s: State, m: ClientMessage, ch: Choice)
    ensures Execute(s, m.info, m.incoming, ch).verdict.Done? && m.incoming.Share? ==>
              ShareError(s, m.info.id).None? && ch.ipOk
  {}

  /** What an owner asks for all, or for a member that is there, is done. */
  lemma ActionsThatSucceed(s: State, m: ClientMessage, ch: Choice, r: RoomId, u: Xid)
    requires IsMember(s, u, r)
    ensures Governs(s, m, r, u) && Named(m.incoming.action, m.incoming.target, u) ==>
              Execute(s, m.info, m.incoming, ch).verdict.Done?
  {
    hide Permit, M.DisableAll, StopTarget, TogglePermission, Expel;
  }

  lemma StreamerMayShare(s: State, r: RoomId, u: Xid)
    requires RoomsInv(s.rooms) && IsMember(s, u, r) && s.rooms[r].users[u].streaming
    ensures s.rooms[r].users[u].canShare
  {}

  predicate Switches(action: string, target: Target, u: Xid, on: bool) {
    action == (if on then "disable_all" else "enable_all") || (action == "toggle_share_permission" && target == Target(u))
  }

  predicate Stops(action: string, target: Target, u: Xid) {
    action == "disable_all" || (target == Target(u) && (action == "stop_share" || action == "toggle_share_permission"))
  }

  lemma GovernedFlags(user: User, action: string, target: Target)
    ensures var after := Governed(user, action, target);
            && (after.canShare != user.canShare <==> Switches(action, target, user.id, user.canShare))
            && (user.streaming && user.canShare ==> (!after.streaming <==> Stops(action, target, user.id)))
            && (!user.streaming ==> !after.streaming)
            && after.name == user.name && after.owner == user.owner && after.addr == user.addr && after.id == user.id
    ensures Switches(action, target, user.id, user.canShare) || Stops(action, target, user.id) ==>
              Named(action, target, user.id)
  {}

  /** An action for all, or a change of flags of member `u`. */
  predicate Named(action: string, target: Target, u: Xid) {
    || action == "enable_all" || action == "disable_all"
    || (target == Target(u) && (action == "stop_share" || action == "toggle_share_permission"))
  }

  lemma Flags(s: State, m: ClientMessage, r: RoomId, u: Xid)
    requires IdsOk(s) && IsMember(s, u, r)
    ensures s.rooms[r].users[u].id == u
    ensures m.incoming.OwnerAction? ==>
              var user, action, target := s.rooms[r].users[u], m.incoming.action, m.incoming.target;
              var after := Governed(user, action, target);
              && (after.canShare != user.canShare <==> Switches(action, target, u, user.canShare))
              && (user.streaming && user.canShare ==> (!after.streaming <==> Stops(action, target, u)))
              && (!user.streaming ==> !after.streaming)
              && after.name == user.name && after.owner == user.owner && after.addr == user.addr && after.id == u
              && (Switches(action, target, u, user.canShare) || Stops(action, target, u) ==> Named(action, target, u))
  {
    hide Governed, Switches, Stops, Named;
    if m.incoming.OwnerAction? {
      GovernedFlags(s.rooms[r].users[u], m.incoming.action, m.incoming.target);
    }
  }

  /** A member's permission changes only by the owner's hand: granted to all, withdrawn from all, or toggled. */
  predicate PermissionIsTheOwners(s: State, m: ClientMessage, t: State, r: RoomId, u: Xid)
    requires IsMember(s, u, r) && IsMember(t, u, r)
  {
    var before, after := s.rooms[r].users[u].canShare, t.rooms[r].users[u].canShare;
    after != before <==> Governs(s, m, r, u) && Switches(m.incoming.action, m.incoming.target, u, before)
  }

  lemma PermissionKept(s: State, m: ClientMessage, ch: Choice, r: RoomId, u: Xid)
    requires Stays(s, m, ch, r, u)
    ensures PermissionIsTheOwners(s, m, Apply(s, m, ch), r, u)
  {
    hide Apply, Execute, Covers, TurnOk, SessionsOk, LogOk, MetricsOk, RoomsInv, Governed, Switches, Stops, Named;
    StepAffects(s, m, ch, r, u);
    Flags(s, m, r, u);
    ActionsThatSucceed(s, m, ch, r, u);
  }

  /**
   A member starts to stream exactly by its own `share`, which needs the permission and that
   nobody else streams; it stops exactly by its own `stopshare` or by the owner's hand.
   */
  predicate StreamIsTheMembers(s: State, m: ClientMessage, t: State, r: RoomId, u: Xid)
    requires IsMember(s, u, r) && IsMember(t, u, r)
  {
    var before, after := s.rooms[r].users[u].streaming, t.rooms[r].users[u].streaming;
    var own := Acts(s, m, r) && m.info.id == u;
    && (!before ==> (after <==> own && m.incoming.Share?))
    && (own && m.incoming.Share? ==> s.rooms[r].users[u].canShare && !AnotherStreams(s.rooms[r], u))
    && (before ==> (!after <==>
          (own && m.incoming.StopShare?) ||
          (Governs(s, m, r, u) && Stops(m.incoming.action, m.incoming.target, u))))
  }

  lemma StreamKept(s: State, m: ClientMessage, ch: Choice, r: RoomId, u: Xid)
    requires Stays(s, m, ch, r, u)
    ensures StreamIsTheMembers(s, m, Apply(s, m, ch), r, u)
  {
    hide Apply, Execute, TurnOk, SessionsOk, LogOk, MetricsOk, RoomsInv, Governs, Stops, Covers, LivesIn;
    if s.rooms[r].users[u].streaming {
      StreamEnds(s, m, ch, r, u);
      SenderStays(s, m, ch, r);
      SharesByRule(s, r, u);
    } else {
      StreamStarts(s, m, ch, r, u);
    }
  }

  lemma SharesByRule(s: State, r: RoomId, c: Xid)
    ensures LivesIn(s, c, r) && ShareError(s, c).None? ==>
              s.rooms[r].users[c].canShare && !AnotherStreams(s.rooms[r], c)
  {}

  lemma StreamStarts(s: State, m: ClientMessage, ch: Choice, r: RoomId, u: Xid)
    requires Stays(s, m, ch, r, u) && !s.rooms[r].users[u].streaming
    ensures Apply(s, m, ch).rooms[r].users[u].streaming <==> Acts(s, m, r) && m.info.id == u && m.incoming.Share?
    ensures Acts(s, m, r) && m.info.id == u && m.incoming.Share? ==>
              s.rooms[r].users[u].canShare && !AnotherStreams(s.rooms[r], u)
  {
    hide Apply, Execute, Covers, TurnOk, SessionsOk, LogOk, MetricsOk, RoomsInv, Governed, Switches, Stops, Named;
    StepAffects(s, m, ch, r, u);
    Flags(s, m, r, u);
    SenderStays(s, m, ch, r);
  }

  lemma StreamEnds(s: State, m: ClientMessage, ch: Choice, r: RoomId, u: Xid)
    requires Stays(s, m, ch, r, u) && s.rooms[r].users[u].streaming
    ensures !Apply(s, m, ch).rooms[r].users[u].streaming <==>
              || (Acts(s, m, r) && m.info.id == u && m.incoming.StopShare?)
              || (Governs(s, m, r, u) && Stops(m.incoming.action, m.incoming.target, u))
  {
    hide Apply, Execute, Covers, TurnOk, SessionsOk, LogOk, MetricsOk, RoomsInv, Governed, Switches, Stops, Named;
    hide IdsOk, MembershipOk, Reenters;
    StepAffects(s, m, ch, r, u);
    Flags(s, m, r, u);
    ActionsThatSucceed(s, m, ch, r, u);
    SenderStays(s, m, ch, r);
    StreamerMayShare(s, r, u);
  }

  /** Ownership is never lost by a member that stays, and is gained exactly from an owner that leaves. */
  predicate OwnershipPasses(s: State, m: ClientMessage, ch: Choice, t: State, r: RoomId, u: Xid)
    requires IsMember(s, u, r) && IsMember(t, u, r)
  {
    t.rooms[r].users[u].owner <==>
      || s.rooms[r].users[u].owner
      || (Acts(s, m, r) && Owns(s, m.info.id, r) && u == ch.heir && m.info.id !in t.connected)
  }

  lemma OwnershipKept(s: State, m: ClientMessage, ch: Choice, r: RoomId, u: Xid)
    requires Stays(s, m, ch, r, u)
    ensures OwnershipPasses(s, m, ch, Apply(s, m, ch), r, u)
  {
    hide Apply, Execute, Covers, TurnOk, SessionsOk, LogOk, MetricsOk, RoomsInv, Governed, Switches, Stops, Named;
    StepAffects(s, m, ch, r, u);
    Flags(s, m, r, u);
    SenderLeaves(s, m, ch);
    NeverPanics(s, m, ch);
    NoRoomAfterDissolve(s, m, ch, r);
  }

  lemma NoRoomAfterDissolve(s: State, m: ClientMessage, ch: Choice, r: RoomId)
    ensures Acts(s, m, r) && m.incoming.Dissolve? && Execute(s, m.info, m.incoming, ch).verdict.Done? ==>
              r !in Apply(s, m, ch).rooms
  {}

  /** Names are changed only by those who bear them; identity and address stay. */
  predicate NamesAreOnesOwn(s: State, m: ClientMessage, t: State, r: RoomId, u: Xid)
    requires IsMember(s, u, r) && IsMember(t, u, r)
  {
    var before, after := s.rooms[r].users[u], t.rooms[r].users[u];
    && after.id == u && after.addr == before.addr
    && after.name == if Acts(s, m, r) && m.info.id == u && m.incoming.Name? then m.incoming.userName else before.name
  }

  lemma NamesKept(s: State, m: ClientMessage, ch: Choice, r: RoomId, u: Xid)
    requires Stays(s, m, ch, r, u)
    ensures NamesAreOnesOwn(s, m, Apply(s, m, ch), r, u)
  {
    hide Apply, Execute, Covers, TurnOk, SessionsOk, LogOk, MetricsOk, RoomsInv, Governed, Switches, Stops, Named;
    StepAffects(s, m, ch, r, u);
    Flags(s, m, r, u);
    SenderStays(s, m, ch, r);
  }

  // ---- Which rooms close ----

  /** Whoever leaves takes the room along exactly if nobody else is in it. */
  lemma LeavingCloses(s: State, c: Xid, code: int, reason: string, heir: Xid, r: RoomId)
    requires r in s.rooms
    ensures r !in Disconnect(s, c, code, reason, heir).rooms <==> LivesIn(s, c, r) && s.rooms[r].users.Keys == {c}
  {
    hide Disconnect, RoomAfter, TurnWithout;
    if InRoom(s, c) {
      DisconnectEffect(s, c, code, reason, heir);
      LastMember(s, c);
    } else {
      OutsiderLeaves(s, c, code, reason, heir);
    }
  }

  lemma LastMember(s: State, c: Xid)
    requires InRoom(s, c)
    ensures var users := s.rooms[Lookup(s, c)].users; users - {c} == map[] <==> users.Keys == {c}
  {
    var users := s.rooms[Lookup(s, c)].users;
    assert (users - {c}).Keys == users.Keys - {c};
    assert users - {c} == map[] <==> users.Keys - {c} == {};
  }

  lemma OutsiderLeaves(s: State, c: Xid, code: int, reason: string, heir: Xid)
    requires !InRoom(s, c)
    ensures Disconnect(s, c, code, reason, heir).rooms == s.rooms
  {}

  lemma OthersKeepRooms(s: State, info: ClientInfo, e: Event, ch: Choice)
    requires !e.Dissolve? && !e.Exit? && !e.Disconnected?
    ensures s.rooms.Keys <= Execute(s, info, e, ch).state.rooms.Keys
  {
    hide RosterPhase, EndShares, OpenSessions, Govern;
    if e.OwnerAction? {
      GovernKeepsRooms(s, info.id, e.action, e.target);
    }
  }

  lemma GovernKeepsRooms(s: State, c: Xid, action: string, target: Target)
    ensures s.rooms.Keys <= Govern(s, c, action, target).state.rooms.Keys
  {
    hide RosterPhase, Permit, ActOn, SetUsers, M.DisableAll;
    if CurrentRoomError(s, c).None? {
      AllKeepRooms(s, s.connected[c], c);
      if target.Target? {
        ActOnKeepsRooms(s, s.connected[c], c, action, target.id);
      }
    }
  }

  lemma AllKeepRooms(s: State, r: RoomId, c: Xid)
    requires r in s.rooms
    ensures var users := s.rooms[r].users; s.rooms.Keys <= SetUsers(s, r, Permit(users, users.Keys - {c}, true)).rooms.Keys
    ensures s.rooms.Keys <= M.DisableAll(s, r, c).rooms.Keys
  {
    hide RosterPhase, Permit, HostedByOthers;
  }

  lemma ActOnKeepsRooms(s: State, r: RoomId, c: Xid, action: string, t: Xid)
    requires r in s.rooms
    ensures s.rooms.Keys <= ActOn(s, r, c, action, t).state.rooms.Keys
  {
    hide StopTarget, TogglePermission, Expel;
    if t in s.rooms[r].users {
      FlagsKeepRooms(s, r, t);
      ExpelKeepsRooms(s, r, t, "kickedByOwner");
      ExpelKeepsRooms(Ban(s, r, s.rooms[r].users[t].addr), r, t, "bannedByOwner");
    }
  }

  lemma FlagsKeepRooms(s: State, r: RoomId, t: Xid)
    requires r in s.rooms && t in s.rooms[r].users
    ensures s.rooms.Keys <= StopTarget(s, r, t).rooms.Keys && s.rooms.Keys <= TogglePermission(s, r, t).rooms.Keys
  {
    hide RosterPhase, Hosted;
  }

  lemma ExpelKeepsRooms(s: State, r: RoomId, t: Xid, reason: string)
    requires r in s.rooms
    ensures s.rooms.Keys <= Expel(s, r, t, reason).rooms.Keys
  {
    hide RosterPhase, Involving;
  }

  lemma DissolvingCloses(s: State, c: Xid, r: RoomId)
    requires r in s.rooms && DissolveRoom(s, c).verdict.Done?
    ensures Owns(s, c, Lookup(s, c))
    ensures r !in DissolveRoom(s, c).state.rooms <==> r == Lookup(s, c)
  {
    hide CloseSessions;
    ClosedRooms(Say(s.(connected := s.connected - s.rooms[Lookup(s, c)].users.Keys),
                    DissolvePhase(s.rooms[Lookup(s, c)].users)), Lookup(s, c), s.rooms[Lookup(s, c)].sessions.Keys);
  }

  /**
   A room closes exactly when its owner dissolves it or its last member leaves; whether it
   was created to close with its owner plays no part.
   */
  predicate ClosesRightly(s: State, m: ClientMessage, t: State, r: RoomId)
    requires r in s.rooms
  {
    r !in t.rooms <==>
      Acts(s, m, r) &&
      ((m.incoming.Dissolve? && Owns(s, m.info.id, r)) ||
       (m.info.id !in t.connected && s.rooms[r].users.Keys == {m.info.id}))
  }

  lemma RoomsCloseExactly(s: State, m: ClientMessage, ch: Choice, r: RoomId)
    requires Inv(s) && Enabled(s, m, ch) && r in s.rooms
    ensures ClosesRightly(s, m, Apply(s, m, ch), r)
  {
    hide Execute, Disconnect, DissolveRoom, Covers, TurnOk, SessionsOk, LogOk, MetricsOk, RoomsInv;
    if Accepted(s, m) {
      NeverPanics(s, m, ch);
      SenderLeaves(s, m, ch);
      if Execute(s, m.info, m.incoming, ch).verdict.Failed? {
        FailureCloses(s, m, ch, r);
      } else {
        SuccessCloses(s, m, ch, r);
      }
    }
  }

  lemma FailureCloses(s: State, m: ClientMessage, ch: Choice, r: RoomId)
    requires Inv(s) && Enabled(s, m, ch) && Accepted(s, m) && r in s.rooms
    requires Execute(s, m.info, m.incoming, ch).verdict.Failed?
    ensures r !in Apply(s, m, ch).rooms <==> LivesIn(s, m.info.id, r) && s.rooms[r].users.Keys == {m.info.id}
    ensures LivesIn(s, m.info.id, r) && m.incoming.Dissolve? ==> !Owns(s, m.info.id, r)
  {
    hide Disconnect, Covers, TurnOk, SessionsOk, LogOk, MetricsOk, RoomsInv, Apply;
    DissolveFails(s, m, ch, r);
    FailureIsDisconnect(s, m, ch, CLOSE_NORMAL_CLOSURE, "");
    if LeavesMemberBehind(s, m.info, m.incoming, ch) {
      LateJoinState(s, m, ch);
      LateJoinOfUnnamed(s, Newcomer(m.info, m.incoming, ch), CLOSE_NORMAL_CLOSURE, PROVIDER_ERROR, ch.heir);
    } else {
      LeavingCloses(s, m.info.id, CLOSE_NORMAL_CLOSURE, "", ch.heir, r);
    }
  }

  lemma DissolveFails(s: State, m: ClientMessage, ch: Choice, r: RoomId)
    requires Execute(s, m.info, m.incoming, ch).verdict.Failed?
    ensures LivesIn(s, m.info.id, r) && m.incoming.Dissolve? ==> !Owns(s, m.info.id, r)
  {}

  lemma SuccessCloses(s: State, m: ClientMessage, ch: Choice, r: RoomId)
    requires Accepted(s, m) && r in s.rooms && Execute(s, m.info, m.incoming, ch).verdict.Done?
    ensures r !in Execute(s, m.info, m.incoming, ch).state.rooms <==>
              LivesIn(s, m.info.id, r) &&
              ((m.incoming.Dissolve? && Owns(s, m.info.id, r)) ||
               ((m.incoming.Exit? || m.incoming.Disconnected?) && s.rooms[r].users.Keys == {m.info.id}))
    ensures m.incoming.Dissolve? && LivesIn(s, m.info.id, r) ==> Owns(s, m.info.id, r)
  {
    hide Disconnect, DissolveRoom;
    match m.incoming
    case Dissolve => DissolvingCloses(s, m.info.id, r);
    case Exit => LeavingCloses(s, m.info.id, CLOSE_NORMAL_CLOSURE, "User Left", ch.heir, r);
    case Disconnected(code, reason) => LeavingCloses(s, m.info.id, code, reason, ch.heir, r);
    case _ => OthersKeepRooms(s, m.info, m.incoming, ch);
  }
}
