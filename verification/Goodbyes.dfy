/**
 Who is told to close its connection: exactly the clients that leave `connected` in a
 step, each once and for the right reason; over a run, each client once at most.
 */
module Goodbyes {
  import opened Types
  import opened Rules
  import opened RoomModel
  import opened Invariant
  import opened Counting
  import opened Safety
  import opened Frame
  import opened Runs

  predicate IsGoodbye(d: Delivery) { d.message.CloseWriter? }

  /** From `s` to `t` the clients in `who` left, and each of them was sent `word` once; nobody else was told to close. */
  ghost predicate PartWith(s: State, t: State, who: set<Xid>, word: Message) {
    && who <= s.connected.Keys && t.connected.Keys == s.connected.Keys - who
    && forall d :: IsGoodbye(d) ==>
         Sent(t.log)[d] == Sent(s.log)[d] + if d.to in who && d.message == word then 1 else 0
  }

  /** Nobody left, nobody was told to. */
  ghost predicate Stay(s: State, t: State) {
    && t.connected.Keys == s.connected.Keys
    && forall d :: IsGoodbye(d) ==> Sent(t.log)[d] == Sent(s.log)[d]
  }

  lemma SayStays(s: State, t: State, phase: multiset<Delivery>)
    requires Stay(s, t) && forall d :: IsGoodbye(d) ==> d !in phase
    ensures Stay(s, Say(t, phase))
  {
    SaidOnce(t.log, phase);
  }

  lemma NotifyStays(s: State, t: State, r: RoomId)
    requires Stay(s, t) && r in t.rooms
    ensures Stay(s, Notify(t, r))
  {
    SayStays(s, t, RosterPhase(t.rooms[r]));
  }

  lemma {:induction false} OpenStays(s: State, t: State, r: RoomId, grants: seq<Grant>)
    requires Stay(s, t) && r in t.rooms
    ensures Stay(s, OpenSessions(t, r, grants))
  {
    if grants != [] {
      var before, g := grants[..|grants| - 1], grants[|grants| - 1];
      var u := OpenSessions(t, r, before);
      OpenStays(s, t, r, before);
      var host, client := multiset{HostNotice(u.rooms[r].mode, g)}, multiset{ClientNotice(u.rooms[r].mode, g)};
      SayStays(s, u, host);
      SayStays(s, Say(u, host), client);
      assert OpenSessions(t, r, grants).log == Say(Say(u, host), client).log;
    }
  }

  // ---- Leaving ----

  /** What comes after the leavers are gone sends no goodbyes. */
  lemma ThenStay(s: State, t: State, u: State, who: set<Xid>, word: Message)
    requires PartWith(s, t, who, word) && Stay(t, u)
    ensures PartWith(s, u, who, word)
  {}

  lemma SettleStays(s: State, r: RoomId, wasOwner: bool, heir: Xid)
    requires r in s.rooms
    ensures Stay(s, Settle(s, r, wasOwner, heir))
  {
    hide RosterPhase, Sent;
    if s.rooms[r].users != map[] {
      NotifyStays(s, s, r);
      NotifyStays(s, SetUsers(s, r, Crown(s.rooms[r].users, heir)), r);
    }
  }

  lemma DisconnectParts(s: State, c: Xid, code: int, reason: string, heir: Xid)
    requires c in s.connected
    ensures PartWith(s, Disconnect(s, c, code, reason, heir), {c}, CloseWriter(code, reason))
  {
    hide Settle, Sent, Stay;
    var told := Say(s, multiset{CloseNotice(c, code, reason)});
    SaidOnce(s.log, multiset{CloseNotice(c, code, reason)});
    if InRoom(s, c) {
      var r := Lookup(s, c);
      var room := s.rooms[r];
      var gone := Remove(told, r, c);
      var phase := EndShares(room.users - {c}, room.sessions, Involving(room.sessions, c), c);
      var ended := Say(gone, phase);
      assert Stay(gone, gone) by { Reflexive(gone); }
      SayStays(gone, gone, phase);
      SettleStays(ended, r, room.users[c].owner, heir);
      ThenStay(s, gone, ended, {c}, CloseWriter(code, reason));
      ThenStay(s, ended, Settle(ended, r, room.users[c].owner, heir), {c}, CloseWriter(code, reason));
    }
  }

  lemma Reflexive(s: State)
    ensures Stay(s, s)
  {}

  lemma ExpelParts(s: State, r: RoomId, t: Xid, reason: string)
    requires r in s.rooms && t in s.connected
    ensures PartWith(s, Expel(s, r, t, reason), {t}, CloseWriter(CLOSE_NORMAL_CLOSURE, reason))
  {
    hide Sent, RosterPhase;
    var told := Say(Remove(s, r, t), multiset{CloseNotice(t, CLOSE_NORMAL_CLOSURE, reason)});
    SaidOnce(s.log, multiset{CloseNotice(t, CLOSE_NORMAL_CLOSURE, reason)});
    NotifyStays(told, told, r);
    ThenStay(s, told, Notify(told, r), {t}, CloseWriter(CLOSE_NORMAL_CLOSURE, reason));
  }

  lemma DissolveParts(s: State, c: Xid)
    requires MembershipOk(s) && DissolveRoom(s, c).verdict.Done?
    ensures PartWith(s, DissolveRoom(s, c).state, MembersOf(s, Lookup(s, c)),
                     CloseWriter(CLOSE_NORMAL_CLOSURE, "Room Dissolved"))
  {
    hide Sent, CloseSessions, DissolvePhase;
    var r := Lookup(s, c);
    var users := s.rooms[r].users;
    DissolvePhaseCounts(users);
    SaidOnce(s.log, DissolvePhase(users));
    CloseSaysNothing(Say(s.(connected := s.connected - users.Keys), DissolvePhase(users)), r, s.rooms[r].sessions.Keys);
  }

  lemma CloseSaysNothing(s: State, r: RoomId, ids: set<Xid>)
    requires r in s.rooms
    ensures CloseSessions(s, r, ids).connected == s.connected && CloseSessions(s, r, ids).log == s.log
  {}

  lemma DissolvePhaseCounts(users: map<Xid, User>)
    ensures forall d :: DissolvePhase(users)[d]
              == if d.to in users && d.message == CloseWriter(CLOSE_NORMAL_CLOSURE, "Room Dissolved") then 1 else 0
  {}

  // ---- Staying ----

  lemma JoinStays(s: State, info: ClientInfo, id: RoomId, userName: string, ch: Choice)
    requires info.id in s.connected
    ensures Stay(s, JoinRoom(s, info, id, userName, ch).state)
  {
    hide RosterPhase, Sent;
    if JoinError(s, info, id).None? {
      var added := AddMember(s, id, NewUser(info, DisplayName(info, userName, ch.randomName), false));
      NotifyStays(s, added, id);
      OpenStays(s, Notify(added, id), id, ch.grants);
    }
  }

  lemma CreateStays(s: State, info: ClientInfo, e: Event, ch: Choice)
    requires e.Create? && info.id in s.connected
    ensures Stay(s, CreateRoom(s, info, e, ch).state)
  {
    hide RosterPhase, Sent, JoinRoom;
    if e.id in s.rooms {
      JoinStays(s, info, e.id, e.userName, ch);
    } else {
      NotifyStays(s, OpenRoom(s, NewRoom(info, e, ch), info.id), e.id);
    }
  }

  lemma ShareStays(s: State, c: Xid, ch: Choice)
    ensures Stay(s, StartShare(s, c, ch).state)
  {
    hide RosterPhase, Sent;
    if ShareError(s, c).None? && c in s.rooms[s.connected[c]].users {
      var r := s.connected[c];
      var on := SetUsers(s, r, s.rooms[r].users[c := s.rooms[r].users[c].(streaming := true)]);
      OpenStays(s, on, r, ch.grants);
      NotifyStays(s, OpenSessions(on, r, ch.grants), r);
    }
  }

  lemma StopShareStays(s: State, c: Xid)
    ensures Stay(s, EndSharing(s, c).state)
  {
    hide RosterPhase, Sent;
    if CurrentRoomError(s, c).None? && c in s.rooms[s.connected[c]].users {
      var r := s.connected[c];
      var room := s.rooms[r];
      var off := SetUsers(s, r, room.users[c := room.users[c].(streaming := false)]);
      var ids := Hosted(room.sessions, c);
      var phase := EndShares(room.users, room.sessions, ids, c);
      SayStays(s, CloseSessions(off, r, ids), phase);
      NotifyStays(s, Say(CloseSessions(off, r, ids), phase), r);
    }
  }

  lemma NameStays(s: State, c: Xid, name: string)
    ensures Stay(s, SetName(s, c, name).state)
  {
    hide RosterPhase, Sent;
    if CurrentRoomError(s, c).None? && c in s.rooms[s.connected[c]].users {
      var r := s.connected[c];
      var users := s.rooms[r].users;
      NotifyStays(s, SetUsers(s, r, users[c := users[c].(name := name)]), r);
    }
  }

  lemma ForwardStays(s: State, c: Xid, kind: RelayKind, sid: Xid, value: string)
    ensures Stay(s, Forward(s, c, kind, sid, value).state)
  {
    hide Sent;
    if Forward(s, c, kind, sid, value).state != s {
      var session := s.rooms[s.connected[c]].sessions[sid];
      var receiver := if kind.OfferFromHost? || kind.IceFromHost? then session.client else session.host;
      SayStays(s, s, multiset{Delivery(receiver, Relay(kind, sid, value))});
    }
  }

  // ---- Owner actions ----

  lemma FlagsStay(s: State, r: RoomId, users: map<Xid, User>, ids: set<Xid>)
    requires r in s.rooms
    ensures Stay(s, Notify(SetUsers(s, r, users), r))
    ensures Stay(s, Notify(CloseSessions(SetUsers(s, r, users), r, ids), r))
  {
    hide RosterPhase, Sent;
    NotifyStays(s, SetUsers(s, r, users), r);
    NotifyStays(s, CloseSessions(SetUsers(s, r, users), r, ids), r);
  }

  lemma StopTargetStays(s: State, r: RoomId, t: Xid)
    requires r in s.rooms && t in s.rooms[r].users
    ensures Stay(s, StopTarget(s, r, t))
  {
    hide RosterPhase, Sent, CloseSessions;
    var room := s.rooms[r];
    FlagsStay(s, r, room.users[t := room.users[t].(streaming := false)], Hosted(room.sessions, t));
  }

  lemma ToggleStays(s: State, r: RoomId, t: Xid)
    requires r in s.rooms && t in s.rooms[r].users
    ensures Stay(s, TogglePermission(s, r, t))
  {
    hide RosterPhase, Sent, CloseSessions;
    var room := s.rooms[r];
    var user := room.users[t].(canShare := !room.users[t].canShare);
    FlagsStay(s, r, room.users[t := user], {});
    FlagsStay(s, r, room.users[t := user.(streaming := false)], Hosted(room.sessions, t));
  }

  /** Whom an owner action throws out, if it succeeds. */
  function Expelled(action: string, target: Target): set<Xid> {
    if (action == "kick" || action == "ban") && target.Target? then {target.id} else {}
  }

  function ExpelledWord(action: string): Message {
    CloseWriter(CLOSE_NORMAL_CLOSURE, if action == "kick" then "kickedByOwner" else "bannedByOwner")
  }

  lemma ActOnParts(s: State, r: RoomId, c: Xid, action: string, t: Xid)
    requires MembershipOk(s) && r in s.rooms && r != UNNAMED
    ensures var outcome := ActOn(s, r, c, action, t);
            if outcome.verdict.Done? then PartWith(s, outcome.state, Expelled(action, Target(t)), ExpelledWord(action))
            else outcome.state == s
  {
    hide Sent, Stay, StopTarget, TogglePermission, Expel;
    if t in s.rooms[r].users && t != c {
      if action == "stop_share" {
        StopTargetStays(s, r, t);
        StayParts(s, StopTarget(s, r, t), ExpelledWord(action));
      } else if action == "toggle_share_permission" {
        ToggleStays(s, r, t);
        StayParts(s, TogglePermission(s, r, t), ExpelledWord(action));
      } else if action == "kick" {
        ExpelParts(s, r, t, "kickedByOwner");
      } else if action == "ban" {
        ExpelParts(Ban(s, r, s.rooms[r].users[t].addr), r, t, "bannedByOwner");
      }
    }
  }

  lemma StayParts(s: State, t: State, word: Message)
    requires Stay(s, t)
    ensures PartWith(s, t, {}, word)
  {}

  lemma GovernParts(s: State, c: Xid, action: string, target: Target)
    requires MembershipOk(s)
    ensures var outcome := Govern(s, c, action, target);
            if outcome.verdict.Done? then PartWith(s, outcome.state, Expelled(action, target), ExpelledWord(action))
            else outcome.state == s
  {
    hide PartWith, ActOn, Permit, CloseSessions;
    if Govern(s, c, action, target).verdict.Done? {
      var r := s.connected[c];
      var room := s.rooms[r];
      var others := room.users.Keys - {c};
      if action == "enable_all" {
        FlagsStay(s, r, Permit(room.users, others, true), {});
        StayParts(s, Govern(s, c, action, target).state, ExpelledWord(action));
      } else if action == "disable_all" {
        FlagsStay(s, r, Permit(room.users, others, false), HostedByOthers(room, c));
        StayParts(s, Govern(s, c, action, target).state, ExpelledWord(action));
      } else if target.Target? {
        ActOnParts(s, r, c, action, target.id);
      }
    } else if CurrentRoomError(s, c).None? && target.Target? {
      ActOnParts(s, s.connected[c], c, action, target.id);
    }
  }

  // ---- All events ----

  /** The clients an event makes leave when it succeeds, and the word they get. */
  function Parting(s: State, info: ClientInfo, e: Event): set<Xid> {
    match e
    case Disconnected(_, _) => {info.id}
    case Exit => {info.id}
    case Dissolve => MembersOf(s, Lookup(s, info.id))
    case OwnerAction(action, target) => Expelled(action, target)
    case _ => {}
  }

  function PartingWord(e: Event): Message {
    match e
    case Disconnected(code, reason) => CloseWriter(code, reason)
    case Dissolve => CloseWriter(CLOSE_NORMAL_CLOSURE, "Room Dissolved")
    case OwnerAction(action, _) => ExpelledWord(action)
    case _ => CloseWriter(CLOSE_NORMAL_CLOSURE, "User Left")
  }

  /** The reason a leaver is given: why the sender's event failed, or what the event says. */
  ghost function Farewell(s: State, m: ClientMessage, ch: Choice): Message {
    var verdict := Execute(s, m.info, m.incoming, ch).verdict;
    if verdict.Failed? then CloseWriter(CLOSE_NORMAL_CLOSURE, verdict.reason) else PartingWord(m.incoming)
  }

  /** Who leaves in a step. */
  ghost function Leavers(s: State, m: ClientMessage, ch: Choice): set<Xid> {
    if !Accepted(s, m) then {}
    else if Execute(s, m.info, m.incoming, ch).verdict.Failed? then {m.info.id}
    else Parting(s, m.info, m.incoming)
  }

  lemma PlainParts(s: State, info: ClientInfo, e: Event, ch: Choice)
    requires MembershipOk(s) && info.id in s.connected && !e.Connected?
    ensures var outcome := Execute(s, info, e, ch);
            if outcome.verdict.Done? then PartWith(s, outcome.state, Parting(s, info, e), PartingWord(e))
            else Stay(s, outcome.state)
  {
    hide MembershipOk, PartWith, Stay, Govern, Disconnect, CreateRoom, JoinRoom, StartShare, EndSharing, SetName, Forward;
    var c := info.id;
    var t := Execute(s, info, e, ch).state;
    Reflexive(s);
    match e
    case Disconnected(code, reason) => DisconnectParts(s, c, code, reason, ch.heir);
    case Exit => DisconnectParts(s, c, CLOSE_NORMAL_CLOSURE, "User Left", ch.heir);
    case OwnerAction(action, target) => GovernParts(s, c, action, target);
    case Dissolve =>
      if DissolveRoom(s, c).verdict.Done? {
        DissolveParts(s, c);
      }
    case _ =>
      OthersStay(s, info, e, ch);
      StayParts(s, t, PartingWord(e));
  }

  lemma OthersStay(s: State, info: ClientInfo, e: Event, ch: Choice)
    requires info.id in s.connected && !e.Connected?
    requires !e.Disconnected? && !e.Exit? && !e.OwnerAction? && !e.Dissolve?
    ensures Stay(s, Execute(s, info, e, ch).state)
  {
    hide Stay, CreateRoom, JoinRoom, StartShare, EndSharing, SetName, Forward;
    var c := info.id;
    match e
    case Create(_, _, _, _, _) => CreateStays(s, info, e, ch);
    case Join(id, userName) => JoinStays(s, info, id, userName, ch);
    case Name(userName) => NameStays(s, c, userName);
    case Share => ShareStays(s, c, ch);
    case StopShare => StopShareStays(s, c);
    case HostOffer(sid, value) => ForwardStays(s, c, OfferFromHost, sid, value);
    case HostIce(sid, value) => ForwardStays(s, c, IceFromHost, sid, value);
    case ClientAnswer(sid, value) => ForwardStays(s, c, AnswerFromClient, sid, value);
    case ClientIce(sid, value) => ForwardStays(s, c, IceFromClient, sid, value);
  }

  /**
   In every step, other than a client's `Connected`, exactly the leavers leave, and each of
   them is told to close, once, with the reason it left for; nobody else is told to close.
   */
  lemma GoodbyesExact(s: State, m: ClientMessage, ch: Choice)
    requires Inv(s) && Enabled(s, m, ch) && !m.incoming.Connected?
    ensures PartWith(s, Apply(s, m, ch), Leavers(s, m, ch), Farewell(s, m, ch))
  {
    hide IdsOk, SessionsOk, TurnOk, LogOk, MetricsOk, ConnectedOk, MembersOk, RoomsInv;
    hide PartWith, Stay, Execute, Disconnect, Parting, Covers;
    Reflexive(s);
    if Accepted(s, m) {
      var outcome := Execute(s, m.info, m.incoming, ch);
      NeverPanics(s, m, ch);
      PlainParts(s, m.info, m.incoming, ch);
      if outcome.verdict.Failed? {
        StayKeepsConnected(s, outcome.state, m.info.id);
        DisconnectParts(outcome.state, m.info.id, CLOSE_NORMAL_CLOSURE, outcome.verdict.reason, ch.heir);
        StayThenPart(s, outcome.state, Apply(s, m, ch), {m.info.id}, Farewell(s, m, ch));
      }
    } else {
      StayParts(s, s, Farewell(s, m, ch));
    }
  }

  lemma StayKeepsConnected(s: State, t: State, c: Xid)
    requires Stay(s, t) && c in s.connected
    ensures c in t.connected
  {}

  lemma StayThenPart(s: State, t: State, u: State, who: set<Xid>, word: Message)
    requires Stay(s, t) && PartWith(t, u, who, word)
    ensures PartWith(s, u, who, word)
  {}

  // ---- Runs ----

  /** The one goodbye to `c`, sent once, was `word`. */
  ghost predicate ToldJust(log: seq<multiset<Delivery>>, c: Xid, word: Message) {
    forall d :: IsGoodbye(d) && d.to == c ==> Sent(log)[d] == if d.message == word then 1 else 0
  }

  /** A client was told to close, once, if it has been connected and is gone, and never otherwise. */
  ghost predicate ToldOnce(s: State, c: Xid) {
    if Gone(s, c) then exists word :: ToldJust(s.log, c, word)
    else
      forall d :: IsGoodbye(d) && d.to == c ==> Sent(s.log)[d] == 0
  }

  lemma StepKeepsToldOnce(s: State, m: ClientMessage, ch: Choice, c: Xid)
    requires Inv(s) && Enabled(s, m, ch) && ToldOnce(s, c)
    ensures ToldOnce(Apply(s, m, ch), c)
  {
    hide Inv, Execute, Covers;
    if m.incoming.Connected? {
      ConnectedSays(s, m, ch);
    } else {
      GoodbyesExact(s, m, ch);
      SeenStays(s, m, ch);
      PartKeepsToldOnce(s, Apply(s, m, ch), Leavers(s, m, ch), Farewell(s, m, ch), c);
    }
  }

  lemma PartKeepsToldOnce(s: State, t: State, who: set<Xid>, word: Message, c: Xid)
    requires PartWith(s, t, who, word) && t.seen == s.seen && s.connected.Keys <= s.seen && ToldOnce(s, c)
    ensures ToldOnce(t, c)
  {
    if Gone(s, c) {
      var w :| ToldJust(s.log, c, w);
      assert ToldJust(t.log, c, w);
    } else if c in who {
      assert ToldJust(t.log, c, word);
    }
  }

  lemma ConnectedSays(s: State, m: ClientMessage, ch: Choice)
    requires m.incoming.Connected? && m.skipConnectedCheck
    ensures var t := Apply(s, m, ch);
            t.log == s.log && t.seen == s.seen + {m.info.id} && t.connected.Keys == s.connected.Keys + {m.info.id}
  {}

  lemma SeenStays(s: State, m: ClientMessage, ch: Choice)
    requires Inv(s) && Enabled(s, m, ch) && !m.incoming.Connected?
    ensures Apply(s, m, ch).seen == s.seen && s.connected.Keys <= s.seen
  {
    hide SessionsOk, TurnOk, LogOk, MetricsOk, RoomsInv, IdsOk, ConnectedOk, MembersOk, Apply;
    if Founds(s, m) {
      FoundingStep(s, m, ch);
    } else {
      StepWithin(s, m, ch);
    }
  }

  lemma ToldOncePreserved(c: Xid)
    ensures Preserves(Follows, (s: State) => Inv(s) && ToldOnce(s, c))
  {
    hide Inv, Enabled, Apply, ToldOnce;
    forall s: State, x: Step, t: State | Inv(s) && ToldOnce(s, c) && Follows(s, x, t)
      ensures Inv(t) && ToldOnce(t, c)
    {
      StepKeepsInv(s, x.message, x.choice);
      StepKeepsToldOnce(s, x.message, x.choice, c);
    }
  }

  /** In every state of every run, a client was told to close exactly once if it is gone, and never if it is not. */
  lemma ToldToCloseOnce(states: seq<State>, steps: seq<Step>, i: nat, c: Xid)
    requires IsRun(states, steps) && i < |states|
    ensures ToldOnce(states[i], c)
  {
    hide Inv, Follows;
    InitialInv(states[0].authMode);
    ToldOncePreserved(c);
    Always(states, steps, Follows, (s: State) => Inv(s) && ToldOnce(s, c), 0, i);
  }
}
