/**
 Which relayed messages and which `EndShare` notices one step sends: exactly the ones
 due, each once, to the right end of a session in the sender's own room.
 */
module Notices {
  import opened Types
  import opened RoomModel
  import opened Invariant
  import opened Counting
  import opened Events
  import opened Shape
  import opened Safety

  predicate IsNotice(d: Delivery) { d.message.EndShare? || d.message.Relay? }

  /** A phase without relays and end-share notices. */
  ghost predicate Silent(phase: multiset<Delivery>) { forall d :: IsNotice(d) ==> d !in phase }

  /** The same notices were sent. */
  ghost predicate SameNotices(a: State, b: State) {
    forall d :: IsNotice(d) ==> Sent(a.log)[d] == Sent(b.log)[d]
  }

  lemma SaySilently(a: State, s: State, phase: multiset<Delivery>)
    requires SameNotices(a, s) && Silent(phase)
    ensures SameNotices(a, Say(s, phase))
  {
    SaidOnce(s.log, phase);
  }

  lemma NotifySilently(a: State, s: State, r: RoomId)
    requires SameNotices(a, s) && r in s.rooms
    ensures SameNotices(a, Notify(s, r))
  {
    SaySilently(a, s, RosterPhase(s.rooms[r]));
  }

  lemma {:induction false} OpenSilently(a: State, s: State, r: RoomId, grants: seq<Grant>)
    requires SameNotices(a, s) && r in s.rooms
    ensures SameNotices(a, OpenSessions(s, r, grants))
  {
    if grants != [] {
      var before, g := grants[..|grants| - 1], grants[|grants| - 1];
      var t := OpenSessions(s, r, before);
      OpenSilently(a, s, r, before);
      OpenOneSilently(a, t, r, g);
    }
  }

  lemma OpenOneSilently(a: State, s: State, r: RoomId, g: Grant)
    requires SameNotices(a, s) && r in s.rooms
    ensures SameNotices(a, OpenSession(s, r, g))
  {
    var host, client := multiset{HostNotice(s.rooms[r].mode, g)}, multiset{ClientNotice(s.rooms[r].mode, g)};
    SaySilently(a, s, host);
    SaySilently(a, Say(s, host), client);
    assert OpenSession(s, r, g).log == Say(Say(s, host), client).log;
  }

  // ---- End-share notices of a disconnect ----

  /** `d` tells the other end of one of the sessions `ids` that it is over. */
  predicate EndsOneOf(sessions: map<Xid, Session>, ids: set<Xid>, c: Xid, d: Delivery) {
    && d.message.EndShare? && d.message.id in ids && d.message.id in sessions
    && d.to == Peer(sessions[d.message.id], c)
  }

  lemma EndSharesCount(users: map<Xid, User>, sessions: map<Xid, Session>, ids: set<Xid>, c: Xid, d: Delivery)
    requires IsNotice(d)
    requires forall id :: id in ids && id in sessions ==> Peer(sessions[id], c) in users
    ensures EndShares(users, sessions, ids, c)[d] == if EndsOneOf(sessions, ids, c, d) then 1 else 0
  {}

  lemma SayCounts(s: State, phase: multiset<Delivery>, d: Delivery)
    ensures Sent(Say(s, phase).log)[d] == Sent(s.log)[d] + phase[d]
  {
    SaidOnce(s.log, phase);
  }

  lemma SettleSilently(s: State, r: RoomId, wasOwner: bool, heir: Xid)
    requires r in s.rooms
    ensures SameNotices(s, Settle(s, r, wasOwner, heir))
  {
    var users := s.rooms[r].users;
    if users != map[] {
      NotifySilently(s, s, r);
      var crowned := SetUsers(s, r, Crown(users, heir));
      assert crowned.log == s.log;
      NotifySilently(s, crowned, r);
    }
  }

  /** The session a disconnect of `c` would end and `d` would report. */
  predicate EndedByLeaving(s: State, c: Xid, d: Delivery) {
    InRoom(s, c)
    && var sessions := s.rooms[Lookup(s, c)].sessions;
       EndsOneOf(sessions, Involving(sessions, c), c, d)
  }

  lemma PeersStay(s: State, r: RoomId, c: Xid)
    requires SessionsOk(s) && r in s.rooms
    ensures forall id :: id in Involving(s.rooms[r].sessions, c) ==>
              Peer(s.rooms[r].sessions[id], c) in s.rooms[r].users - {c}
  {
    forall id | id in Involving(s.rooms[r].sessions, c)
      ensures Peer(s.rooms[r].sessions[id], c) in s.rooms[r].users - {c}
    {
      assert SessionOk(s, r, id);
    }
  }

  /** A disconnect sends one `EndShare` per session it ends, to the surviving end, and no other. */
  lemma DisconnectNotices(s: State, c: Xid, code: int, reason: string, heir: Xid, d: Delivery)
    requires SessionsOk(s) && IsNotice(d)
    ensures Sent(Disconnect(s, c, code, reason, heir).log)[d]
            == Sent(s.log)[d] + if EndedByLeaving(s, c, d) then 1 else 0
  {
    var r := Lookup(s, c);
    var notice := multiset{CloseNotice(c, code, reason)};
    SayCounts(s, notice, d);
    if InRoom(s, c) {
      var room := s.rooms[r];
      var ids := Involving(room.sessions, c);
      var gone := Remove(Say(s, notice), r, c);
      PeersStay(s, r, c);
      EndSharesCount(room.users - {c}, room.sessions, ids, c, d);
      SayCounts(gone, EndShares(room.users - {c}, room.sessions, ids, c), d);
      SettleSilently(Say(gone, EndShares(room.users - {c}, room.sessions, ids, c)), r, room.users[c].owner, heir);
    }
  }

  // ---- End-share notices of a stop ----

  predicate EndedByStopping(s: State, c: Xid, d: Delivery) {
    InRoom(s, c)
    && var sessions := s.rooms[Lookup(s, c)].sessions;
       EndsOneOf(sessions, Hosted(sessions, c), c, d)
  }

  lemma StopShareNotices(s: State, c: Xid, d: Delivery)
    requires IdsOk(s) && MembershipOk(s) && SessionsOk(s) && IsNotice(d)
    ensures Sent(EndSharing(s, c).state.log)[d]
            == Sent(s.log)[d] + if EndedByStopping(s, c, d) then 1 else 0
  {
    MemberOfOwnRoom(s, c);
    if InRoom(s, c) {
      var r := Lookup(s, c);
      var room := s.rooms[r];
      var ids := Hosted(room.sessions, c);
      var phase := EndShares(room.users, room.sessions, ids, c);
      PeersStay(s, r, c);
      assert ids <= Involving(room.sessions, c);
      EndSharesCount(room.users, room.sessions, ids, c, d);
      StopShareLog(s, c);
      SaidOnce(s.log, phase);
      SayCounts(Say(s, phase), RosterPhase(EndSharing(s, c).state.rooms[r]), d);
    }
  }

  lemma StopShareLog(s: State, c: Xid)
    requires InRoom(s, c)
    ensures var r := Lookup(s, c);
            var room := s.rooms[r];
            var t := EndSharing(s, c).state;
            && r in t.rooms
            && t.log == s.log + [EndShares(room.users, room.sessions, Hosted(room.sessions, c), c)] + [RosterPhase(t.rooms[r])]
  {}

  // ---- Relayed messages ----

  function RelayKindOf(e: Event): RelayKind
    requires IsForward(e)
  {
    match e
    case HostOffer(_, _) => OfferFromHost
    case HostIce(_, _) => IceFromHost
    case ClientAnswer(_, _) => AnswerFromClient
    case ClientIce(_, _) => IceFromClient
  }

  /** The delivery the signalling message `e` of `c` asks for. */
  predicate RelayDue(s: State, c: Xid, e: Event, d: Delivery) {
    && InRoom(s, c) && IsForward(e)
    && d.message == Relay(RelayKindOf(e), e.sid, e.value)
    && var sessions := s.rooms[Lookup(s, c)].sessions;
       && e.sid in sessions
       && if e.HostOffer? || e.HostIce? then sessions[e.sid].host == c && d.to == sessions[e.sid].client
          else sessions[e.sid].client == c && d.to == sessions[e.sid].host
  }

  lemma ForwardNotices(s: State, info: ClientInfo, e: Event, ch: Choice, d: Delivery)
    requires IdsOk(s) && MembershipOk(s) && SessionsOk(s) && IsForward(e) && IsNotice(d)
    ensures Sent(Execute(s, info, e, ch).state.log)[d]
            == Sent(s.log)[d] + if RelayDue(s, info.id, e, d) then 1 else 0
  {
    hide MembershipOk, IdsOk, SessionsOk, Sent;
    ForwardSends(s, info.id, RelayKindOf(e), e.sid, e.value);
    if Forward(s, info.id, RelayKindOf(e), e.sid, e.value).state != s {
      var session := s.rooms[Lookup(s, info.id)].sessions[e.sid];
      var receiver := if e.HostOffer? || e.HostIce? then session.client else session.host;
      SayCounts(s, multiset{Delivery(receiver, Relay(RelayKindOf(e), e.sid, e.value))}, d);
    }
  }

  /** Exactly when the sender is the right end of a session of its room, the other end is sent the message. */
  lemma ForwardSends(s: State, c: Xid, kind: RelayKind, sid: Xid, value: string)
    requires IdsOk(s) && MembershipOk(s) && SessionsOk(s)
    ensures var t := Forward(s, c, kind, sid, value).state;
            if InRoom(s, c) && sid in s.rooms[Lookup(s, c)].sessions
            then
              var session := s.rooms[Lookup(s, c)].sessions[sid];
              var fromHost := kind.OfferFromHost? || kind.IceFromHost?;
              var receiver := if fromHost then session.client else session.host;
              t == if (if fromHost then session.host else session.client) == c
                   then Say(s, multiset{Delivery(receiver, Relay(kind, sid, value))}) else s
            else t == s
  {
    MemberOfOwnRoom(s, c);
    if InRoom(s, c) && sid in s.rooms[Lookup(s, c)].sessions {
      SessionEnds(s, Lookup(s, c), sid);
    }
  }

  // ---- Events that send no notice ----

  lemma ExpelSilently(a: State, s: State, r: RoomId, t: Xid, reason: string)
    requires r in s.rooms && a.log == s.log
    ensures SameNotices(a, Expel(s, r, t, reason))
  {
    var gone := Remove(s, r, t);
    SaySilently(a, gone, multiset{CloseNotice(t, CLOSE_NORMAL_CLOSURE, reason)});
    NotifySilently(a, Say(gone, multiset{CloseNotice(t, CLOSE_NORMAL_CLOSURE, reason)}), r);
  }

  lemma SameLogThenNotify(s: State, t: State, r: RoomId)
    requires t.log == s.log && r in t.rooms
    ensures SameNotices(s, Notify(t, r))
  {
    NotifySilently(s, t, r);
  }

  lemma ActOnSilently(s: State, r: RoomId, c: Xid, action: string, t: Xid)
    requires r in s.rooms
    ensures SameNotices(s, ActOn(s, r, c, action, t).state)
  {
    var room := s.rooms[r];
    if t in room.users && t != c {
      if action == "stop_share" {
        var off := SetUsers(s, r, room.users[t := room.users[t].(streaming := false)]);
        SameLogThenNotify(s, CloseSessions(off, r, Hosted(room.sessions, t)), r);
      } else if action == "toggle_share_permission" {
        ToggleSilently(s, r, t);
      } else if action == "kick" {
        ExpelSilently(s, s, r, t, "kickedByOwner");
      } else if action == "ban" {
        ExpelSilently(s, Ban(s, r, room.users[t].addr), r, t, "bannedByOwner");
      }
    }
  }

  lemma ToggleSilently(s: State, r: RoomId, t: Xid)
    requires r in s.rooms && t in s.rooms[r].users
    ensures SameNotices(s, TogglePermission(s, r, t))
  {
    var room := s.rooms[r];
    var user := room.users[t].(canShare := !room.users[t].canShare);
    var off := SetUsers(s, r, room.users[t := user.(streaming := false)]);
    SameLogThenNotify(s, CloseSessions(off, r, Hosted(room.sessions, t)), r);
    SameLogThenNotify(s, SetUsers(s, r, room.users[t := user]), r);
  }

  lemma GovernSilently(s: State, c: Xid, action: string, target: Target)
    ensures SameNotices(s, Govern(s, c, action, target).state)
  {
    if CurrentRoomError(s, c).None? {
      var r := s.connected[c];
      var room := s.rooms[r];
      var others := room.users.Keys - {c};
      if action == "enable_all" {
        SameLogThenNotify(s, SetUsers(s, r, Permit(room.users, others, true)), r);
      } else if action == "disable_all" {
        var off := SetUsers(s, r, Permit(room.users, others, false));
        SameLogThenNotify(s, CloseSessions(off, r, HostedByOthers(room, c)), r);
      } else if target.Target? {
        ActOnSilently(s, r, c, action, target.id);
      }
    }
  }

  lemma DissolveSilently(s: State, c: Xid)
    ensures SameNotices(s, DissolveRoom(s, c).state)
  {
    if DissolveRoom(s, c).verdict.Done? {
      var users := s.rooms[Lookup(s, c)].users;
      SaySilently(s, s, DissolvePhase(users));
    }
  }

  lemma JoinSilently(s: State, info: ClientInfo, r: RoomId, userName: string, ch: Choice)
    ensures SameNotices(s, JoinRoom(s, info, r, userName, ch).state)
  {
    if JoinError(s, info, r).None? {
      var added := AddMember(s, r, NewUser(info, DisplayName(info, userName, ch.randomName), false));
      SameLogThenNotify(s, added, r);
      OpenSilently(s, Notify(added, r), r, ch.grants);
    }
  }

  lemma CreateSilently(s: State, info: ClientInfo, e: Event, ch: Choice)
    requires e.Create?
    ensures SameNotices(s, CreateRoom(s, info, e, ch).state)
  {
    JoinSilently(s, info, e.id, e.userName, ch);
    if Lookup(s, info.id) == UNNAMED && e.id !in s.rooms {
      SameLogThenNotify(s, OpenRoom(s, NewRoom(info, e, ch), info.id), e.id);
    }
  }

  lemma ShareSilently(s: State, c: Xid, ch: Choice)
    ensures SameNotices(s, StartShare(s, c, ch).state)
  {
    if ShareError(s, c).None? && c in s.rooms[s.connected[c]].users {
      var r := s.connected[c];
      var on := SetUsers(s, r, s.rooms[r].users[c := s.rooms[r].users[c].(streaming := true)]);
      OpenSilently(s, on, r, ch.grants);
      NotifySilently(s, OpenSessions(on, r, ch.grants), r);
    }
  }

  lemma NameSilently(s: State, c: Xid, name: string)
    ensures SameNotices(s, SetName(s, c, name).state)
  {
    if CurrentRoomError(s, c).None? && c in s.rooms[s.connected[c]].users {
      var r := s.connected[c];
      SameLogThenNotify(s, SetUsers(s, r, s.rooms[r].users[c := s.rooms[r].users[c].(name := name)]), r);
    }
  }

  predicate SendsNoNotice(e: Event) {
    !IsForward(e) && !e.StopShare? && !e.Exit? && !e.Disconnected?
  }

  lemma OthersSilently(s: State, info: ClientInfo, e: Event, ch: Choice)
    requires SendsNoNotice(e)
    ensures SameNotices(s, Execute(s, info, e, ch).state)
  {
    match e
    case Connected =>
    case Create(_, _, _, _, _) => CreateSilently(s, info, e, ch);
    case Join(id, userName) => JoinSilently(s, info, id, userName, ch);
    case Name(userName) => NameSilently(s, info.id, userName);
    case Share => ShareSilently(s, info.id, ch);
    case OwnerAction(action, target) => GovernSilently(s, info.id, action, target);
    case Dissolve => DissolveSilently(s, info.id);
  }

  // ---- All events ----

  predicate DueByEvent(s: State, c: Xid, e: Event, d: Delivery) {
    if e.Exit? || e.Disconnected? then EndedByLeaving(s, c, d)
    else if e.StopShare? then EndedByStopping(s, c, d)
    else RelayDue(s, c, e, d)
  }

  /** A failing event makes its sender leave. */
  ghost predicate Due(s: State, m: ClientMessage, ch: Choice, d: Delivery) {
    && Accepted(s, m)
    && if Execute(s, m.info, m.incoming, ch).verdict.Failed? then EndedByLeaving(s, m.info.id, d)
       else DueByEvent(s, m.info.id, m.incoming, d)
  }

  /**
   Whatever the message, every relay and every `EndShare` is sent once if it is due and not at all
   otherwise.  In particular kicks, bans, forced stops and dissolving a room send no `EndShare`.
   */
  lemma NoticesExact(s: State, m: ClientMessage, ch: Choice, d: Delivery)
    requires Inv(s) && Enabled(s, m, ch) && IsNotice(d)
    ensures Sent(Apply(s, m, ch).log)[d] == Sent(s.log)[d] + if Due(s, m, ch, d) then 1 else 0
  {
    if Accepted(s, m) {
      NeverPanics(s, m, ch);
      if Execute(s, m.info, m.incoming, ch).verdict.Failed? {
        ExecuteKeepsCore(s, m, ch);
        FailureNotices(s, m, ch, d);
      } else {
        SuccessNotices(s, m.info, m.incoming, ch, d);
      }
    }
  }

  lemma SuccessNotices(s: State, info: ClientInfo, e: Event, ch: Choice, d: Delivery)
    requires Core(s) && IsNotice(d)
    ensures Sent(Execute(s, info, e, ch).state.log)[d] == Sent(s.log)[d] + if DueByEvent(s, info.id, e, d) then 1 else 0
  {
    hide TurnOk, LogOk, MetricsOk, Sent, EndedByLeaving, EndedByStopping, EndSharing, Forward, Disconnect;
    if SendsNoNotice(e) {
      OthersSilently(s, info, e, ch);
    } else if IsForward(e) {
      ForwardNotices(s, info, e, ch, d);
    } else if e.StopShare? {
      StopShareNotices(s, info.id, d);
    } else {
      LeavingNotices(s, info, e, ch, d);
    }
  }

  lemma LeavingNotices(s: State, info: ClientInfo, e: Event, ch: Choice, d: Delivery)
    requires Core(s) && IsNotice(d) && (e.Exit? || e.Disconnected?)
    ensures Sent(Execute(s, info, e, ch).state.log)[d] == Sent(s.log)[d] + if EndedByLeaving(s, info.id, d) then 1 else 0
  {
    hide EndedByLeaving, TurnOk, LogOk, MetricsOk;
    match e
    case Exit => DisconnectNotices(s, info.id, CLOSE_NORMAL_CLOSURE, "User Left", ch.heir, d);
    case Disconnected(code, reason) => DisconnectNotices(s, info.id, code, reason, ch.heir, d);
  }

  lemma FailureNotices(s: State, m: ClientMessage, ch: Choice, d: Delivery)
    requires Core(s) && IsNotice(d) && Accepted(s, m)
    requires Execute(s, m.info, m.incoming, ch).verdict.Failed?
    requires Core(Execute(s, m.info, m.incoming, ch).state)
    ensures Sent(Apply(s, m, ch).log)[d] == Sent(s.log)[d] + if EndedByLeaving(s, m.info.id, d) then 1 else 0
  {
    var t, why := Execute(s, m.info, m.incoming, ch).state, Execute(s, m.info, m.incoming, ch).verdict.reason;
    DisconnectNotices(t, m.info.id, CLOSE_NORMAL_CLOSURE, why, ch.heir, d);
    FailedStateNotices(s, m, ch, d);
  }

  /** Up to the disconnect, a failing event sends no notice and ends nothing. */
  lemma FailedStateNotices(s: State, m: ClientMessage, ch: Choice, d: Delivery)
    requires Core(s) && IsNotice(d)
    requires Execute(s, m.info, m.incoming, ch).verdict.Failed?
    ensures var t := Execute(s, m.info, m.incoming, ch).state;
            && (EndedByLeaving(t, m.info.id, d) <==> EndedByLeaving(s, m.info.id, d))
            && Sent(t.log)[d] == Sent(s.log)[d]
  {
    hide Core, EndedByLeaving, StartShare, Sent;
    if LateJoinFailure(s, m.info, m.incoming, ch) {
      LateJoinEndsNothing(s, m, ch, d);
    } else if LateShareFailure(s, m.info, m.incoming, ch) {
      LateShareEndsTheSame(s, m.info.id, ch, d);
    } else {
      OtherFailuresChangeNothing(s, m, ch);
    }
  }

  lemma LateShareEndsTheSame(s: State, c: Xid, ch: Choice, d: Delivery)
    requires IsNotice(d) && ShareError(s, c).None? && !ch.ipOk && InRoom(s, c)
    ensures var t := StartShare(s, c, ch).state;
            && (EndedByLeaving(t, c, d) <==> EndedByLeaving(s, c, d))
            && Sent(t.log)[d] == Sent(s.log)[d]
  {
    ShareSilently(s, c, ch);
    LateShareOutcome(s, c, ch);
  }

  lemma LateJoinEndsNothing(s: State, m: ClientMessage, ch: Choice, d: Delivery)
    requires Core(s) && IsNotice(d) && LateJoinFailure(s, m.info, m.incoming, ch)
    ensures var t := Execute(s, m.info, m.incoming, ch).state;
            && !EndedByLeaving(s, m.info.id, d) && !EndedByLeaving(t, m.info.id, d)
            && Sent(t.log)[d] == Sent(s.log)[d]
  {
    hide TurnOk, LogOk, MetricsOk, Sent, RosterPhase;
    var c, r := m.info.id, m.incoming.id;
    JoinSilently(s, m.info, r, m.incoming.userName, ch);
    if r != UNNAMED {
      NotAMemberYet(s, c, r);
      NoSessionsYet(s, r, c);
    }
  }
}
