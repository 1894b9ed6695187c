/** Every step keeps the rules: what is refused, who leaves, what is sent, what appears. */
module Conduct {
  import N = Notices
  import opened Types
  import opened Rules
  import opened RoomModel
  import opened Invariant
  import opened Elementary
  import opened Events
  import opened Safety
  import opened Frame
  import opened Books
  import opened Properties
  import opened Goodbyes
  import opened Authority
  import opened Unnamed

  // ---- Refusals ----

  function AsVerdict(refusal: Option<string>): Verdict {
    if refusal.Some? then Failed(refusal.value) else Done
  }

  /** A connected client is in no room or lives in its own. */
  lemma Home(s: State, c: Xid)
    requires MembershipOk(s) && c in s.connected
    ensures s.connected[c] != UNNAMED <==> LivesIn(s, c, s.connected[c])
    ensures InRoom(s, c) <==> LivesIn(s, c, s.connected[c])
    ensures CurrentRoomError(s, c) == if LivesIn(s, c, s.connected[c]) then None else Some("not in a room")
  {}

  lemma JoinVerdict(s: State, info: ClientInfo, e: Event, ch: Choice)
    requires info.id in s.connected && s.connected[info.id] == UNNAMED
    requires (e.Join? || e.Create?) && (e.Create? ==> e.id in s.rooms && e.joinIfExist)
    ensures JoinRoom(s, info, e.id, e.userName, ch).verdict == AsVerdict(AdmissionRefusal(s, info, e, ch.ipOk))
  {
    hide Notify, AddMember;
  }

  lemma AdmissionVerdict(s: State, m: ClientMessage, ch: Choice)
    requires m.info.id in s.connected && (m.incoming.Join? || m.incoming.Create?)
    ensures Execute(s, m.info, m.incoming, ch).verdict == AsVerdict(Refusal(s, m, ch.ipOk))
  {
    hide AdmissionRefusal, JoinRoom, OpenRoom, Notify;
    var e := m.incoming;
    if s.connected[m.info.id] != UNNAMED {
      AlreadyInOne(s, m, ch);
    } else if e.Join? || (e.id in s.rooms && e.joinIfExist) {
      JoinVerdict(s, m.info, e, ch);
    } else {
      FoundingVerdict(s, m.info, e, ch);
    }
  }

  lemma AlreadyInOne(s: State, m: ClientMessage, ch: Choice)
    requires m.info.id in s.connected && s.connected[m.info.id] != UNNAMED && (m.incoming.Join? || m.incoming.Create?)
    ensures Execute(s, m.info, m.incoming, ch).verdict == Failed("cannot join room, you are already in one")
  {}

  lemma FoundingVerdict(s: State, info: ClientInfo, e: Event, ch: Choice)
    requires info.id in s.connected && s.connected[info.id] == UNNAMED
    requires e.Create? && (e.id in s.rooms ==> !e.joinIfExist)
    ensures CreateRoom(s, info, e, ch).verdict == AsVerdict(AdmissionRefusal(s, info, e, ch.ipOk))
  {
    hide OpenRoom, Notify, JoinRoom;
    LoginRule(s, info, e.mode);
  }

  lemma LoginRule(s: State, info: ClientInfo, mode: string)
    ensures AuthError(s, info, mode)
            == if MayFound(s.authMode, info.authenticated, mode) then None
               else if s.authMode == "all" || s.authMode == "turn" then Some("you need to login")
               else Some("invalid authmode:" + s.authMode)
  {}

  lemma ShareVerdict(s: State, c: Xid, ch: Choice)
    requires MembershipOk(s) && c in s.connected && LivesIn(s, c, s.connected[c])
    ensures StartShare(s, c, ch).verdict == AsVerdict(MemberRefusal(s.rooms[s.connected[c]], c, Share, ch.ipOk))
  {
    hide OpenSessions, Notify, ConnectedOk, MembersOk;
    Home(s, c);
  }

  lemma SignalVerdict(s: State, c: Xid, kind: RelayKind, sid: Xid, value: string)
    requires MembershipOk(s) && SessionsOk(s) && c in s.connected && LivesIn(s, c, s.connected[c])
    ensures var sessions := s.rooms[s.connected[c]].sessions;
            var fromHost := kind.OfferFromHost? || kind.IceFromHost?;
            Forward(s, c, kind, sid, value).verdict
            == AsVerdict(SignalRefusal(sid,
                 sid in sessions && (if fromHost then sessions[sid].host else sessions[sid].client) != c))
  {
    hide ConnectedOk, MembersOk, SessionOk;
    Home(s, c);
    if sid in s.rooms[s.connected[c]].sessions {
      SessionEnds(s, s.connected[c], sid);
    }
  }

  lemma ActionVerdict(s: State, r: RoomId, c: Xid, action: string, t: Xid)
    requires r in s.rooms && action != "enable_all" && action != "disable_all"
    ensures ActOn(s, r, c, action, t).verdict == AsVerdict(ActionRefusal(s.rooms[r].users.Keys, c, action, Target(t)))
  {
    hide StopTarget, TogglePermission, Expel, Ban;
  }

  lemma GovernVerdict(s: State, c: Xid, action: string, target: Target)
    requires MembershipOk(s) && c in s.connected && LivesIn(s, c, s.connected[c])
    ensures Govern(s, c, action, target).verdict
            == AsVerdict(MemberRefusal(s.rooms[s.connected[c]], c, OwnerAction(action, target), true))
  {
    hide ConnectedOk, MembersOk, ActOn, Permit, M.DisableAll, Notify;
    Home(s, c);
    if target.Target? && action != "enable_all" && action != "disable_all" {
      ActionVerdict(s, s.connected[c], c, action, target.id);
    }
  }

  lemma PlainVerdict(s: State, m: ClientMessage, ch: Choice)
    requires MembershipOk(s) && m.info.id in s.connected && LivesIn(s, m.info.id, s.connected[m.info.id])
    requires m.incoming.Name? || m.incoming.StopShare? || m.incoming.Dissolve?
    ensures Execute(s, m.info, m.incoming, ch).verdict == AsVerdict(Refusal(s, m, ch.ipOk))
  {
    hide ConnectedOk, MembersOk, Notify, CloseRoom, CloseSessions, EndShares;
    Home(s, m.info.id);
  }

  lemma HomelessVerdict(s: State, m: ClientMessage, ch: Choice)
    requires MembershipOk(s) && m.info.id in s.connected && !LivesIn(s, m.info.id, s.connected[m.info.id])
    requires !m.incoming.Join? && !m.incoming.Create?
    ensures Execute(s, m.info, m.incoming, ch).verdict == AsVerdict(Refusal(s, m, ch.ipOk))
  {
    hide ConnectedOk, MembersOk, Notify, CloseRoom, CloseSessions, EndShares, Disconnect;
    Home(s, m.info.id);
  }

  /** An event of a connected client is refused exactly by the rules, and for the reason they give. */
  lemma RefusalsExact(s: State, m: ClientMessage, ch: Choice)
    requires Core(s) && m.info.id in s.connected
    ensures Execute(s, m.info, m.incoming, ch).verdict == AsVerdict(Refusal(s, m, ch.ipOk))
  {
    hide IdsOk, MembershipOk, SessionsOk, TurnOk, LogOk, MetricsOk;
    hide StartShare, Forward, Govern, AdmissionRefusal, SignalRefusal, ActionRefusal, Disconnect;
    var c, e := m.info.id, m.incoming;
    if e.Join? || e.Create? {
      AdmissionVerdict(s, m, ch);
    } else if !LivesIn(s, c, s.connected[c]) {
      HomelessVerdict(s, m, ch);
    } else {
      LivingVerdict(s, m, ch);
    }
  }

  lemma LivingVerdict(s: State, m: ClientMessage, ch: Choice)
    requires Core(s) && m.info.id in s.connected && LivesIn(s, m.info.id, s.connected[m.info.id])
    requires !m.incoming.Join? && !m.incoming.Create?
    ensures Execute(s, m.info, m.incoming, ch).verdict == AsVerdict(Refusal(s, m, ch.ipOk))
  {
    hide IdsOk, MembershipOk, SessionsOk, TurnOk, LogOk, MetricsOk;
    hide StartShare, Forward, Govern, SignalRefusal, ActionRefusal, Disconnect, SetName, EndSharing, DissolveRoom;
    var c, e := m.info.id, m.incoming;
    match e
    case Connected =>
    case Disconnected(_, _) =>
    case Exit =>
    case Share => ShareVerdict(s, c, ch);
    case HostOffer(sid, value) => SignalVerdict(s, c, OfferFromHost, sid, value);
    case HostIce(sid, value) => SignalVerdict(s, c, IceFromHost, sid, value);
    case ClientAnswer(sid, value) => SignalVerdict(s, c, AnswerFromClient, sid, value);
    case ClientIce(sid, value) => SignalVerdict(s, c, IceFromClient, sid, value);
    case OwnerAction(action, target) => GovernVerdict(s, c, action, target);
    case Name(_) => PlainVerdict(s, m, ch);
    case StopShare => PlainVerdict(s, m, ch);
    case Dissolve => PlainVerdict(s, m, ch);
  }

  // ---- Leaving ----

  /** Exactly those whom the rules make leave do, each told to once, and with the right word. */
  lemma GoodbyesByRule(s: State, m: ClientMessage, ch: Choice)
    requires Inv(s) && Enabled(s, m, ch) && m.info.id in s.connected
    ensures PartWith(s, Apply(s, m, ch), Departing(s, m, ch.ipOk), Word(s, m, ch.ipOk))
  {
    hide SessionsOk, TurnOk, LogOk, MetricsOk, IdsOk, ConnectedOk, MembersOk, RoomsInv, Covers, Apply, PartWith, Execute, Refusal;
    GoodbyesExact(s, m, ch);
    RefusalsExact(s, m, ch);
    DissolversLive(s, m, ch);
  }

  lemma DissolversLive(s: State, m: ClientMessage, ch: Choice)
    requires MembershipOk(s) && m.info.id in s.connected
    ensures m.incoming.Dissolve? && Refusal(s, m, ch.ipOk).None? ==>
              && LivesIn(s, m.info.id, s.connected[m.info.id])
              && MembersOf(s, Lookup(s, m.info.id)) == s.rooms[s.connected[m.info.id]].users.Keys
  {}

  /** The sender leaves exactly if its event is refused, or is an exit, a disconnect or a dissolve. */
  lemma SenderLeavesByRule(s: State, m: ClientMessage, ch: Choice)
    requires Inv(s) && Enabled(s, m, ch) && m.info.id in s.connected
    ensures m.info.id !in Apply(s, m, ch).connected <==>
              || Refusal(s, m, ch.ipOk).Some?
              || m.incoming.Exit? || m.incoming.Disconnected? || m.incoming.Dissolve?
  {
    hide Core, RoomsInv, Enabled, Apply, Execute, Refusal;
    SenderLeaves(s, m, ch);
    RefusalsExact(s, m, ch);
  }

  predicate Signals(e: Event) { e.HostOffer? || e.HostIce? || e.ClientAnswer? || e.ClientIce? }

  /** A signalling message for a session that is not in the sender's room changes nothing at all. */
  lemma UnknownSessionIgnored(s: State, m: ClientMessage, ch: Choice)
    requires Inv(s) && Enabled(s, m, ch) && Signals(m.incoming)
    requires m.info.id in s.connected && LivesIn(s, m.info.id, s.connected[m.info.id])
    requires m.incoming.sid !in s.rooms[s.connected[m.info.id]].sessions
    ensures Apply(s, m, ch) == s
  {
    hide SessionsOk, TurnOk, LogOk, MetricsOk, IdsOk, ConnectedOk, MembersOk, RoomsInv, Covers;
    Home(s, m.info.id);
  }

  /** Nor does any message of a client that is not connected. */
  lemma StrangersIgnored(s: State, m: ClientMessage, ch: Choice)
    requires Enabled(s, m, ch) && m.info.id !in s.connected && !m.incoming.Connected?
    ensures Apply(s, m, ch) == s
  {}

  // ---- Relays and end-share notices ----

  lemma RelaysByRule(s: State, m: ClientMessage, ch: Choice, d: Delivery)
    requires Core(s) && m.info.id in s.connected && N.IsNotice(d)
    ensures N.RelayDue(s, m.info.id, m.incoming, d) <==> RelayDue(s, m, d)
  {
    hide IdsOk, SessionsOk, TurnOk, LogOk, MetricsOk;
    Home(s, m.info.id);
  }

  lemma EndsByRule(s: State, c: Xid, d: Delivery)
    requires Core(s) && c in s.connected && LivesIn(s, c, s.connected[c]) && d.message.EndShare?
    ensures var sessions := s.rooms[s.connected[c]].sessions;
            && (N.EndedByLeaving(s, c, d) <==>
                  && d.message.id in sessions
                  && var session := sessions[d.message.id];
                     (c == session.host && d.to == session.client) || (c == session.client && d.to == session.host))
            && (N.EndedByStopping(s, c, d) <==>
                  && d.message.id in sessions
                  && var session := sessions[d.message.id]; c == session.host && d.to == session.client)
  {
    hide IdsOk, TurnOk, LogOk, MetricsOk, ConnectedOk, MembersOk, SessionOk;
    Home(s, c);
    if d.message.id in s.rooms[s.connected[c]].sessions {
      SessionEnds(s, s.connected[c], d.message.id);
    }
  }

  /** A refused signalling message is passed to nobody. */
  lemma RefusedIsNotRelayed(s: State, m: ClientMessage, ipOk: bool, d: Delivery)
    requires m.info.id in s.connected && Refusal(s, m, ipOk).Some?
    ensures !RelayDue(s, m, d)
  {}

  lemma NoticeDueByRule(s: State, m: ClientMessage, ch: Choice, d: Delivery)
    requires Core(s) && Enabled(s, m, ch) && m.info.id in s.connected && N.IsNotice(d)
    ensures N.Due(s, m, ch, d) <==> RelayDue(s, m, d) || EndShareDue(s, m, ch.ipOk, d)
  {
    hide IdsOk, SessionsOk, TurnOk, LogOk, MetricsOk, ConnectedOk, MembersOk, Covers, Execute, Refusal;
    hide RelayDue, N.RelayDue, N.EndedByLeaving, N.EndedByStopping;
    var c := m.info.id;
    RefusalsExact(s, m, ch);
    RelaysByRule(s, m, ch, d);
    NoticeKinds(s, m, d);
    Home(s, c);
    if Refusal(s, m, ch.ipOk).Some? {
      RefusedIsNotRelayed(s, m, ch.ipOk, d);
    }
    if LivesIn(s, c, s.connected[c]) && d.message.EndShare? {
      EndsByRule(s, c, d);
    }
  }

  /** Relays are of signalling messages; what is ended by leaving or stopping is reported by an `EndShare`. */
  lemma NoticeKinds(s: State, m: ClientMessage, d: Delivery)
    ensures RelayDue(s, m, d) ==> d.message.Relay? && Signals(m.incoming)
    ensures N.RelayDue(s, m.info.id, m.incoming, d) ==> Signals(m.incoming)
    ensures N.EndedByLeaving(s, m.info.id, d) ==> InRoom(s, m.info.id) && d.message.EndShare?
    ensures N.EndedByStopping(s, m.info.id, d) ==> InRoom(s, m.info.id) && d.message.EndShare?
  {}

  lemma NoticesByRule(s: State, m: ClientMessage, ch: Choice, d: Delivery)
    requires Inv(s) && Enabled(s, m, ch) && N.IsNotice(d) && m.info.id in s.connected
    ensures Sent(Apply(s, m, ch).log)[d]
            == Sent(s.log)[d] + if RelayDue(s, m, d) || EndShareDue(s, m, ch.ipOk, d) then 1 else 0
  {
    hide Core, RoomsInv, Enabled, Apply, Sent, N.Due, RelayDue, EndShareDue;
    N.NoticesExact(s, m, ch, d);
    NoticeDueByRule(s, m, ch, d);
  }

  // ---- Bans, and what else a room is founded with ----

  /** Name, mode and setting of a room stay; its bans grow by exactly the addresses its owner bans. */
  lemma BansByRule(s: State, m: ClientMessage, ch: Choice, r: RoomId)
    requires Inv(s) && Enabled(s, m, ch) && r in s.rooms && r in Apply(s, m, ch).rooms
    ensures var a, b := s.rooms[r], Apply(s, m, ch).rooms[r];
            && b.id == a.id && b.mode == a.mode && b.closeOnOwnerLeave == a.closeOnOwnerLeave
            && b.banned == a.banned + NewBans(s, m, r)
  {
    hide IdsOk, SessionsOk, TurnOk, LogOk, MetricsOk, ConnectedOk, MembersOk, RoomsInv, Covers, Apply;
    if Founds(s, m) {
      FoundingStep(s, m, ch);
    } else if m.info.id in s.connected && m.incoming.OwnerAction? && m.incoming.action == "ban" {
      BanningStep(s, m, ch);
      BannedHere(s, m, r);
    } else {
      StrangersCannotBan(s, m, r);
      if m.info.id in s.connected || m.incoming.Connected? {
        StepKeepsCharters(s, m, ch);
      } else {
        StrangersIgnored(s, m, ch);
      }
    }
  }

  lemma BannedHere(s: State, m: ClientMessage, r: RoomId)
    requires MembershipOk(s) && m.info.id in s.connected && m.incoming.OwnerAction? && r in s.rooms
    ensures NewBans(s, m, r) != {} ==>
              && r == s.connected[m.info.id] && m.incoming.target.Target? && Bans(s, m, r, m.incoming.target.id)
              && NewBans(s, m, r) == {s.rooms[r].users[m.incoming.target.id].addr}
    ensures r == s.connected[m.info.id] && m.incoming.target.Target? && Bans(s, m, r, m.incoming.target.id) ==>
              NewBans(s, m, r) == {s.rooms[r].users[m.incoming.target.id].addr}
    ensures m.incoming.target.Target? && Bans(s, m, s.connected[m.info.id], m.incoming.target.id) ==>
              s.connected[m.info.id] in s.rooms
  {}

  lemma StrangersCannotBan(s: State, m: ClientMessage, r: RoomId)
    requires m.info.id !in s.connected || !m.incoming.OwnerAction? || m.incoming.action != "ban"
    ensures NewBans(s, m, r) == {}
  {}

  /** Who is banned goes; who bans stays. */
  lemma BannedGo(s: State, m: ClientMessage, ch: Choice, r: RoomId, u: Xid)
    requires Inv(s) && Enabled(s, m, ch) && Bans(s, m, r, u)
    ensures var t := Apply(s, m, ch);
            && u !in t.connected && m.info.id in t.connected
            && r in t.rooms && u !in t.rooms[r].users
  {
    hide IdsOk, SessionsOk, TurnOk, LogOk, MetricsOk, ConnectedOk, Covers, Apply, Execute, RoomsInv;
    BanIsAllowed(s, m, ch, r, u);
    GoodbyesByRule(s, m, ch);
    StepKeepsInv(s, m, ch);
    RoomsCloseExactly(s, m, ch, r);
    NotListedWhenGone(Apply(s, m, ch), r, u);
  }

  lemma BanIsAllowed(s: State, m: ClientMessage, ch: Choice, r: RoomId, u: Xid)
    requires Bans(s, m, r, u)
    ensures m.info.id in s.connected && Refusal(s, m, ch.ipOk).None? && Departing(s, m, ch.ipOk) == {u}
  {}

  lemma NotListedWhenGone(s: State, r: RoomId, u: Xid)
    requires MembersOk(s.connected, s.rooms) && r in s.rooms && r != UNNAMED && u !in s.connected
    ensures u !in s.rooms[r].users
  {}

  // ---- Rooms and members that appear ----

  lemma NewcomerByRule(info: ClientInfo, userName: string, randomName: string, owner: bool)
    ensures IsNewMember(NewUser(info, DisplayName(info, userName, randomName), owner), info, userName, randomName, owner)
  {}

  /** A room appears exactly if the rules let the sender found it, and then as the sender asked, with the sender as its owner. */
  lemma RoomsAppearByRule(s: State, m: ClientMessage, ch: Choice, r: RoomId)
    requires Inv(s) && Enabled(s, m, ch) && r !in s.rooms
    ensures var t := Apply(s, m, ch);
            && (r in t.rooms <==> Founds(s, m) && m.incoming.id == r)
            && (r in t.rooms ==>
                  var room := t.rooms[r];
                  && room.id == r && room.mode == m.incoming.mode && room.closeOnOwnerLeave == m.incoming.closeOnOwnerLeave
                  && room.sessions == map[] && room.banned == {} && room.users.Keys == {m.info.id}
                  && IsNewMember(room.users[m.info.id], m.info, m.incoming.userName, ch.randomName, true))
  {
    hide IdsOk, MembershipOk, SessionsOk, TurnOk, LogOk, MetricsOk, RoomsInv, Covers, Apply, IsNewMember, NewUser;
    if Founds(s, m) {
      NewcomerByRule(m.info, m.incoming.userName, ch.randomName, true);
      FoundingStep(s, m, ch);
      FoundersAskForIt(s, m);
    } else if m.incoming.Connected? {
      NothingTouched(s, m, ch);
    } else {
      StepWithin(s, m, ch);
    }
  }

  lemma FoundersAskForIt(s: State, m: ClientMessage)
    requires Founds(s, m)
    ensures m.incoming.Create? && m.incoming.id !in s.rooms
  {}

  /** Somebody is listed anew in a room that is there exactly if it enters by the rules and does not fail late. */
  lemma MembersAppearByRule(s: State, m: ClientMessage, ch: Choice, r: RoomId, u: Xid)
    requires Inv(s) && Enabled(s, m, ch) && r in s.rooms && u !in s.rooms[r].users
    ensures var t := Apply(s, m, ch);
            && (IsMember(t, u, r) <==> Enters(s, m) && m.incoming.id == r && m.info.id == u && (ch.ipOk || r == UNNAMED))
            && (IsMember(t, u, r) ==> IsNewMember(t.rooms[r].users[u], m.info, m.incoming.userName, ch.randomName, false))
  {
    hide IdsOk, MembershipOk, SessionsOk, TurnOk, LogOk, MetricsOk, RoomsInv, Covers, Apply, IsNewMember, NewUser, DisplayName;
    if Enters(s, m) && m.incoming.id == r && m.info.id == u {
      NewcomerByRule(m.info, m.incoming.userName, ch.randomName, false);
      if r == UNNAMED {
        UnnamedStep(s, m, ch);
      } else if ch.ipOk {
        EntersInTime(s, m, ch);
      } else {
        EntersTooLate(s, m, ch);
      }
    } else if Founds(s, m) {
      FoundingStep(s, m, ch);
    } else if m.incoming.Connected? {
      NothingTouched(s, m, ch);
    } else {
      StepWithin(s, m, ch);
    }
  }

  lemma EntersInTime(s: State, m: ClientMessage, ch: Choice)
    requires Enters(s, m) && ch.ipOk
    ensures var t := Apply(s, m, ch);
            && IsMember(t, m.info.id, m.incoming.id)
            && t.rooms[m.incoming.id].users[m.info.id] == Newcomer(m.info, m.incoming, ch)
  {
    hide Disconnect, RosterPhase, OpenSessions;
    var id, user := m.incoming.id, Newcomer(m.info, m.incoming, ch);
    Opened(Notify(AddMember(s, id, user), id), id, ch.grants);
  }

  lemma JoinedState(s: State, m: ClientMessage, ch: Choice)
    requires Enters(s, m) && ch.ipOk
    ensures Apply(s, m, ch) == JoinRoom(s, m.info, m.incoming.id, m.incoming.userName, ch).state
  {
    hide Disconnect, OpenSessions, AddMember, Notify, DisplayName;
  }

  lemma EntersTooLate(s: State, m: ClientMessage, ch: Choice)
    requires Inv(s) && Enabled(s, m, ch) && Enters(s, m) && !ch.ipOk && m.incoming.id != UNNAMED
    ensures Apply(s, m, ch).rooms == s.rooms
  {
    hide IdsOk, MembershipOk, SessionsOk, TurnOk, LogOk, MetricsOk, RoomsInv, Covers, Apply, Disconnect, Execute;
    RefusalsExact(s, m, ch);
    FailureIsDisconnect(s, m, ch, CLOSE_NORMAL_CLOSURE, "");
    ForgottenOnly(s, m.info.id, CLOSE_NORMAL_CLOSURE, "", ch.heir);
  }
}
