/**
 What the server promises, over every state and every step of every run: any messages,
 any choices, any length.
 */
module Guarantees {
  import N = Notices
  import opened Types
  import opened Rules
  import opened RoomModel
  import opened Invariant
  import opened Elementary
  import opened Safety
  import opened Frame
  import opened Properties
  import opened Goodbyes
  import opened Authority
  import opened Conduct
  import opened Runs
  import opened Sessions
  import opened Showings
  import opened Unnamed

  // ---- Every state ----

  lemma SessionsFormAStar(states: seq<State>, steps: seq<Step>, i: nat, r: RoomId)
    requires IsRun(states, steps) && i < |states| && r in states[i].rooms
    ensures StarShaped(states[i].rooms[r])
  {
    hide Inv, StarShaped;
    RunInv(states, steps, i);
    StarTopology(states[i], r);
  }

  /** Every room has members and one owner --- the unnamed one until its owner joins it again, and from then on none. */
  lemma OneOwnerEach(states: seq<State>, steps: seq<Step>, i: nat, r: RoomId)
    requires IsRun(states, steps) && i < |states| && r in states[i].rooms
    ensures var users := states[i].rooms[r].users;
            var disowned := r == UNNAMED && exists k :: 0 <= k < i && OwnerRejoins(states[k], steps[k].message);
            users != map[] && |Owners(users)| == if disowned then 0 else 1
  {
    hide Core, RoomInv, Owners, OwnerRejoins, Follows;
    RunInv(states, steps, i);
    if r == UNNAMED {
      UnnamedOwnership(states, steps, i);
    } else {
      ExactlyOneOwner(states[i], r);
    }
  }

  lemma OnePermittedStreamer(states: seq<State>, steps: seq<Step>, i: nat, r: RoomId)
    requires IsRun(states, steps) && i < |states| && r in states[i].rooms
    ensures var users := states[i].rooms[r].users;
            |Streamers(users)| <= 1 && forall c :: c in Streamers(users) ==> users[c].canShare
  {
    hide Inv, Follows;
    RunInv(states, steps, i);
    SinglePermittedStreamer(states[i], r);
  }

  lemma MembershipIsOneToOne(states: seq<State>, steps: seq<Step>, i: nat)
    requires IsRun(states, steps) && i < |states|
    ensures Bijection(states[i]) <==> UNNAMED !in states[i].rooms
  {
    hide Inv, Bijection;
    RunInv(states, steps, i);
    MembershipBijection(states[i]);
  }

  lemma TurnServerKnowsLiveSessions(states: seq<State>, steps: seq<Step>, i: nat, name: string)
    requires IsRun(states, steps) && i < |states|
    ensures KnownExactly(states[i], name)
  {
    hide Inv, KnownExactly;
    RunInv(states, steps, i);
    TurnTableExact(states[i], name);
  }

  lemma CredentialsLiveAsLong(states: seq<State>, steps: seq<Step>, i: nat, d: Delivery)
    requires IsRun(states, steps) && i < |states| && d in Sent(states[i].log) && HandsOutCredentials(d)
    ensures CredentialsWork(states[i], d)
  {
    hide Inv, CredentialsWork;
    RunInv(states, steps, i);
    CredentialsWorkWhileLive(states[i], d);
  }

  /** Every session that was opened was announced once to either end, with the right servers; nothing else was announced. */
  lemma SessionsAreAnnouncedOnce(states: seq<State>, steps: seq<Step>, i: nat, id: Xid)
    requires IsRun(states, steps) && i < |states|
    ensures id in states[i].issued ==>
              exists toHost, toClient :: AnnouncedBy(Sent(states[i].log), id, states[i].issued[id].mode, toHost, toClient)
    ensures id !in states[i].issued ==> forall d :: d in Sent(states[i].log) ==> !Announces(d, id)
  {
    hide IdsOk, MembershipOk, SessionsOk, TurnOk, LogOk, MetricsOk, RoomsInv, AnnouncedBy, Sent, Follows;
    RunInv(states, steps, i);
    if id in states[i].issued {
      AnnouncedToBoth(states[i], id);
    } else {
      forall d | d in Sent(states[i].log)
        ensures !Announces(d, id)
      {
        if Announces(d, id) {
          OnlyIssuedAreAnnounced(states[i], d);
        }
      }
    }
  }

  /** Both ends of a live session were told of it, of each other and, in TURN mode, of credentials that work. */
  lemma LiveSessionsCanConnect(states: seq<State>, steps: seq<Step>, i: nat, r: RoomId, id: Xid)
    requires IsRun(states, steps) && i < |states| && r in states[i].rooms && id in states[i].rooms[r].sessions
    ensures exists toHost, toClient ::
              && AnnouncedBy(Sent(states[i].log), id, states[i].rooms[r].mode, toHost, toClient)
              && Reached(states[i].turn, states[i].rooms[r], id, toHost, toClient)
  {
    hide Inv, AnnouncedBy, Reached, Sent, Follows;
    RunInv(states, steps, i);
    ReachedBoth(states[i], r, id);
  }

  /**
   Each counter that only grows counts what happened, and with those it is compared to so do the
   others: rooms and sessions created and not closed are those there are.  Users joined and not
   left are the members there are, and one more for each time a client joined the unnamed room
   that listed it already; so the two are equal exactly if that never happened.
   */
  lemma CountersAreExact(states: seq<State>, steps: seq<Step>, i: nat)
    requires IsRun(states, steps) && i < |states|
    ensures var s, n := states[i], states[i].metrics;
            && n.roomsCreated == Times(states, steps, i, Founds)
            && n.usersJoined == Times(states, steps, i, Joins)
            && n.sessionsCreated == |s.issued|
            && n.roomsCreated - n.roomsClosed == |s.rooms|
            && n.sessionsCreated - n.sessionsClosed == LiveSessions(s.rooms)
            && n.usersJoined - n.usersLeft == Members(s.rooms) + Times(states, steps, i, Rejoins)
            && (n.usersJoined - n.usersLeft == Members(s.rooms)
                <==> forall k :: 0 <= k < i ==> !Rejoins(states[k], steps[k].message))
  {
    hide IdsOk, MembershipOk, SessionsOk, TurnOk, LogOk, RoomsInv, Rejoins, Founds, Enters, Follows;
    RunInv(states, steps, i);
    BooksOfRun(states, steps, i);
    NeverHappened(states, steps, i, Rejoins);
  }

  // ---- Every step ----

  /**
   A refused event leaves rooms, connections and TURN table as a disconnect message of its sender
   would, unless it leaves a member behind in the unnamed room.
   */
  lemma FailuresAreDisconnects(states: seq<State>, steps: seq<Step>, i: nat, code: int, reason: string)
    requires IsRun(states, steps) && i < |steps| && steps[i].message.info.id in states[i].connected
    requires Refusal(states[i], steps[i].message, steps[i].choice.ipOk).Some?
    ensures var s, m, ch := states[i], steps[i].message, steps[i].choice;
            Alike(states[i + 1], Apply(s, m.(incoming := Disconnected(code, reason)), ch))
            <==> !(EntersUnnamed(s, m) && !ch.ipOk && !ListedAsNew(s, m, ch.randomName))
  {
    hide Core, RoomsInv, Enabled, Apply, Execute, Refusal, Disconnect, Enters, LeavesMemberBehind;
    StepOfRun(states, steps, i);
    var s, m, ch := states[i], steps[i].message, steps[i].choice;
    RefusalsExact(s, m, ch);
    FailureIsDisconnect(s, m, ch, code, reason);
    BehindByRule(s, m, ch);
    DisconnectMessage(s, m, ch, code, reason);
  }

  /** The sender is listed in the unnamed room exactly as it would be on joining it. */
  predicate ListedAsNew(s: State, m: ClientMessage, randomName: string)
    requires EntersUnnamed(s, m)
  {
    var users := s.rooms[RoomId("")].users;
    m.info.id in users && IsNewMember(users[m.info.id], m.info, m.incoming.userName, randomName, false)
  }

  lemma BehindByRule(s: State, m: ClientMessage, ch: Choice)
    requires m.info.id in s.connected
    ensures LeavesMemberBehind(s, m.info, m.incoming, ch)
            <==> EntersUnnamed(s, m) && !ch.ipOk && !ListedAsNew(s, m, ch.randomName)
  {}

  lemma DisconnectMessage(s: State, m: ClientMessage, ch: Choice, code: int, reason: string)
    requires m.info.id in s.connected
    ensures Apply(s, m.(incoming := Disconnected(code, reason)), ch) == Disconnect(s, m.info.id, code, reason, ch.heir)
  {}

  /** A client that is not connected can only connect, once, and is in no room then. */
  lemma StrangersOnlyConnect(states: seq<State>, steps: seq<Step>, i: nat)
    requires IsRun(states, steps) && i < |steps|
    ensures var s, m := states[i], steps[i].message;
            var c := m.info.id;
            && (m.incoming.Connected? ==>
                  && c !in s.seen
                  && states[i + 1] == s.(connected := s.connected[c := RoomId("")], seen := s.seen + {c}))
            && (!m.incoming.Connected? && c !in s.connected ==> states[i + 1] == s)
  {
    hide Inv, Execute, Covers;
    StepOfRun(states, steps, i);
    var s, m, ch := states[i], steps[i].message, steps[i].choice;
    if m.incoming.Connected? {
      ConnectingStep(s, m, ch);
    }
  }

  lemma ConnectingStep(s: State, m: ClientMessage, ch: Choice)
    requires m.skipConnectedCheck && m.incoming.Connected?
    ensures Apply(s, m, ch) == s.(connected := s.connected[m.info.id := RoomId("")], seen := s.seen + {m.info.id})
  {}

  /** A connected sender is gone after a step exactly if the rules refuse its event or it leaves by it. */
  lemma SendersLeaveByRule(states: seq<State>, steps: seq<Step>, i: nat)
    requires IsRun(states, steps) && i < |steps| && steps[i].message.info.id in states[i].connected
    ensures var s, m, ch := states[i], steps[i].message, steps[i].choice;
            m.info.id !in states[i + 1].connected
            <==> Refusal(s, m, ch.ipOk).Some? || m.incoming.Exit? || m.incoming.Disconnected? || m.incoming.Dissolve?
  {
    hide Inv, Enabled, Apply, Refusal;
    StepOfRun(states, steps, i);
    SenderLeavesByRule(states[i], steps[i].message, steps[i].choice);
  }

  /**
   A signalling message makes its sender leave exactly if it is in no room or at the wrong end of
   a session of its room; for a session that is not there the message changes nothing at all.
   */
  lemma SignalsAreJudged(states: seq<State>, steps: seq<Step>, i: nat)
    requires IsRun(states, steps) && i < |steps| && Signals(steps[i].message.incoming)
    requires steps[i].message.info.id in states[i].connected
    ensures var s, c, e := states[i], steps[i].message.info.id, steps[i].message.incoming;
            if s.connected[c] == RoomId("") then c !in states[i + 1].connected
            else
              && s.connected[c] in s.rooms
              && var sessions := s.rooms[s.connected[c]].sessions;
                 if e.sid !in sessions then states[i + 1] == s
                 else
                   c !in states[i + 1].connected
                   <==> c != if e.HostOffer? || e.HostIce? then sessions[e.sid].host else sessions[e.sid].client
  {
    hide IdsOk, ConnectedOk, MembersOk, SessionsOk, TurnOk, LogOk, MetricsOk, RoomsInv, Enabled, Apply;
    StepOfRun(states, steps, i);
    var s, m, ch := states[i], steps[i].message, steps[i].choice;
    SenderLeavesByRule(s, m, ch);
    Home(s, m.info.id);
    if LivesIn(s, m.info.id, s.connected[m.info.id]) && m.incoming.sid !in s.rooms[s.connected[m.info.id]].sessions {
      UnknownSessionIgnored(s, m, ch);
    }
  }

  /**
   A room appears exactly if a client outside of rooms asks for it and the setting lets it: it is
   then as the client asked, open to everybody, and the client is its one member and its owner.
   */
  lemma RoomsAppearRightly(states: seq<State>, steps: seq<Step>, i: nat, r: RoomId)
    requires IsRun(states, steps) && i < |steps| && r !in states[i].rooms
    ensures var s, m, ch, t := states[i], steps[i].message, steps[i].choice, states[i + 1];
            var authMode, loggedIn := states[0].authMode, m.info.authenticated;
            && (r in t.rooms <==>
                  && m.info.id in s.connected && s.connected[m.info.id] == RoomId("")
                  && m.incoming.Create? && m.incoming.id == r
                  && (authMode == "none" || (authMode == "all" && loggedIn) ||
                      (authMode == "turn" && (loggedIn || m.incoming.mode == "stun" || m.incoming.mode == "local"))))
            && (r in t.rooms ==>
                  var room := t.rooms[r];
                  && room.id == r && room.mode == m.incoming.mode && room.closeOnOwnerLeave == m.incoming.closeOnOwnerLeave
                  && room.sessions == map[] && room.banned == {} && room.users.Keys == {m.info.id}
                  && t.connected == s.connected[m.info.id := r]
                  && IsNewMember(room.users[m.info.id], m.info, m.incoming.userName, ch.randomName, true))
  {
    hide Inv, Enabled, Apply, Follows, IsNewMember;
    StepOfRun(states, steps, i);
    BooksOfRun(states, steps, i);
    RoomsAppearByRule(states[i], steps[i].message, steps[i].choice, r);
    FoundersConnection(states[i], steps[i].message, steps[i].choice);
  }

  lemma FoundersConnection(s: State, m: ClientMessage, ch: Choice)
    ensures Founds(s, m) ==> Apply(s, m, ch).connected == s.connected[m.info.id := m.incoming.id]
  {
    if Founds(s, m) {
      FoundingStep(s, m, ch);
    }
  }

  /**
   A room that is there gains a member exactly if a client outside of rooms asks to join it, is not
   banned from it and the provider answers (late failures do leave members behind in the unnamed room).
   */
  lemma MembersAppearRightly(states: seq<State>, steps: seq<Step>, i: nat, r: RoomId, u: Xid)
    requires IsRun(states, steps) && i < |steps| && r in states[i].rooms && u !in states[i].rooms[r].users
    ensures var s, m, ch, t := states[i], steps[i].message, steps[i].choice, states[i + 1];
            && (IsMember(t, u, r) <==>
                  && m.info.id == u && u in s.connected && s.connected[u] == RoomId("")
                  && (m.incoming.Join? || (m.incoming.Create? && m.incoming.joinIfExist)) && m.incoming.id == r
                  && m.info.addr !in s.rooms[r].banned && (ch.ipOk || r == RoomId("")))
            && (IsMember(t, u, r) ==> IsNewMember(t.rooms[r].users[u], m.info, m.incoming.userName, ch.randomName, false))
  {
    hide Inv, Enabled, Apply, IsNewMember, IsMember;
    StepOfRun(states, steps, i);
    MembersAppearByRule(states[i], steps[i].message, steps[i].choice, r, u);
  }

  /** What a room is founded with stays, and its bans grow by the address of whom its owner bans, and by nothing else. */
  lemma BansAreExact(states: seq<State>, steps: seq<Step>, i: nat, r: RoomId)
    requires IsRun(states, steps) && i < |steps| && r in states[i].rooms && r in states[i + 1].rooms
    ensures var s, m, a, b := states[i], steps[i].message, states[i].rooms[r], states[i + 1].rooms[r];
            && b.id == a.id && b.mode == a.mode && b.closeOnOwnerLeave == a.closeOnOwnerLeave
            && (forall u :: Bans(s, m, r, u) ==> b.banned == a.banned + {a.users[u].addr})
            && ((forall u :: !Bans(s, m, r, u)) ==> b.banned == a.banned)
  {
    hide Inv, Enabled, Apply;
    StepOfRun(states, steps, i);
    BansByRule(states[i], steps[i].message, steps[i].choice, r);
  }

  /**
   Whoever is banned is gone at once and never comes back, who banned it stays, and as long as the
   room lives nobody joins it from that address.
   */
  lemma BannedStayOut(states: seq<State>, steps: seq<Step>, i: nat, j: nat, r: RoomId, u: Xid)
    requires IsRun(states, steps) && i < j < |states| && Bans(states[i], steps[i].message, r, u)
    requires forall k :: i <= k <= j ==> r in states[k].rooms
    ensures steps[i].message.info.id in states[i + 1].connected && u !in states[j].connected
    ensures var addr := states[i].rooms[r].users[u].addr;
            && addr in states[j].rooms[r].banned
            && MembersAt(states[j].rooms[r], addr) <= MembersAt(states[i].rooms[r], addr) - {u}
  {
    hide IdsOk, ConnectedOk, MembersOk, SessionsOk, TurnOk, LogOk, MetricsOk, RoomsInv, Enabled, Apply, Follows;
    StepOfRun(states, steps, i);
    var s, m, ch := states[i], steps[i].message, steps[i].choice;
    BannedGo(s, m, ch, r, u);
    BansAreExact(states, steps, i, r);
    StepWithin(s, m, ch);
    BansPersist(states, steps, i + 1, j, r, s.rooms[r].users[u].addr);
    BannedWereThere(s, m, r, u);
    DepartureIsFinal(states, steps, i + 1, j, u);
  }

  lemma BannedWereThere(s: State, m: ClientMessage, r: RoomId, u: Xid)
    requires MembershipOk(s) && Bans(s, m, r, u)
    ensures u in s.connected && u in s.seen
  {}

  /** A step opens exactly the sessions that are due, one each; a session keeps its ends. */
  lemma SessionsOpenRightly(states: seq<State>, steps: seq<Step>, i: nat, r: RoomId)
    requires IsRun(states, steps) && i < |steps| && r in states[i].rooms && r in states[i + 1].rooms
    ensures var s, m, ch := states[i], steps[i].message, steps[i].choice;
            OpensRightly(s.rooms[r].sessions, states[i + 1].rooms[r].sessions,
                         (session: Session) => SessionDue(s, m, ch.ipOk, r, session))
  {
    hide Inv, Enabled, Apply, OpensRightly, SessionDue;
    StepOfRun(states, steps, i);
    SessionsOpenByRule(states[i], steps[i].message, steps[i].choice, r);
  }

  /** In a room that lives on, a session ends exactly if one of its ends leaves or its host stops streaming. */
  lemma SessionsEndRightly(states: seq<State>, steps: seq<Step>, i: nat, r: RoomId, id: Xid)
    requires IsRun(states, steps) && i < |steps| && r in states[i].rooms && r in states[i + 1].rooms
    requires id in states[i].rooms[r].sessions
    ensures var session, users := states[i].rooms[r].sessions[id], states[i + 1].rooms[r].users;
            id in states[i + 1].rooms[r].sessions <==>
              session.host in users && session.client in users && users[session.host].streaming
  {
    hide Inv, Enabled, Apply;
    StepOfRun(states, steps, i);
    SessionsEndByRule(states[i], steps[i].message, steps[i].choice, r, id);
  }

  /** A step touches one room; the sessions it opens are new. */
  lemma StepsAreIsolated(states: seq<State>, steps: seq<Step>, i: nat)
    requires IsRun(states, steps) && i < |steps|
    ensures var s, m, ids := states[i], steps[i].message, Ids(steps[i].choice.grants);
            Isolated(s, states[i + 1], TargetRoom(s, m), m.info.id, ids) && ids !! s.issued.Keys
  {
    hide Inv, Enabled, Apply, Isolated;
    StepOfRun(states, steps, i);
    RoomIsolation(states[i], steps[i].message, steps[i].choice);
  }

  /** Each relay and each end-share notice is sent once if it is due, and otherwise not at all. */
  lemma NoticesAreExact(states: seq<State>, steps: seq<Step>, i: nat, d: Delivery)
    requires IsRun(states, steps) && i < |steps| && N.IsNotice(d) && steps[i].message.info.id in states[i].connected
    ensures var s, m, ch := states[i], steps[i].message, steps[i].choice;
            Sent(states[i + 1].log)[d]
            == Sent(s.log)[d] + if RelayDue(s, m, d) || EndShareDue(s, m, ch.ipOk, d) then 1 else 0
  {
    hide Inv, Enabled, Apply, RelayDue, EndShareDue, Sent;
    StepOfRun(states, steps, i);
    NoticesByRule(states[i], steps[i].message, steps[i].choice, d);
  }

  /** Every step has the list of each room sent round exactly as often as is due. */
  lemma ListsAreSentWhenDue(states: seq<State>, steps: seq<Step>, i: nat, r: RoomId)
    requires IsRun(states, steps) && i < |steps|
    ensures TimesShown(states[i + 1].log, r)
            == TimesShown(states[i].log, r) + ListsDue(states[i], steps[i].message, steps[i].choice.ipOk, r)
  {
    hide Inv, Enabled, Apply, TimesShown, ListsDue;
    StepOfRun(states, steps, i);
    ShowingsByRule(states[i], steps[i].message, steps[i].choice, r);
  }

  /** Exactly those leave whom the rules make leave, and each is told to close once, with the reason it left for. */
  lemma GoodbyesAreExact(states: seq<State>, steps: seq<Step>, i: nat)
    requires IsRun(states, steps) && i < |steps| && steps[i].message.info.id in states[i].connected
    ensures var s, m, ch := states[i], steps[i].message, steps[i].choice;
            PartWith(s, states[i + 1], Departing(s, m, ch.ipOk), Word(s, m, ch.ipOk))
  {
    hide Inv, Enabled, Apply, PartWith, Departing, Word;
    StepOfRun(states, steps, i);
    GoodbyesByRule(states[i], steps[i].message, steps[i].choice);
  }

  /**
   A member's permission, stream, ownership and name change by those entitled to it, and by
   nobody else; only who joins the unnamed room again is listed anew.
   */
  lemma OnlyTheEntitledDecide(states: seq<State>, steps: seq<Step>, i: nat, r: RoomId, u: Xid)
    requires IsRun(states, steps) && i < |steps|
    requires IsMember(states[i], u, r) && IsMember(states[i + 1], u, r)
    ensures var s, m, ch, t := states[i], steps[i].message, steps[i].choice, states[i + 1];
            if r == RoomId("") && EntersUnnamed(s, m) && m.info.id == u
            then IsNewMember(t.rooms[r].users[u], m.info, m.incoming.userName, ch.randomName, false)
            else
              && PermissionIsTheOwners(s, m, t, r, u)
              && StreamIsTheMembers(s, m, t, r, u)
              && OwnershipPasses(s, m, ch, t, r, u)
              && NamesAreOnesOwn(s, m, t, r, u)
  {
    hide Inv, Enabled, Apply;
    hide PermissionIsTheOwners, StreamIsTheMembers, OwnershipPasses, NamesAreOnesOwn;
    StepOfRun(states, steps, i);
    var s, m, ch := states[i], steps[i].message, steps[i].choice;
    if Reenters(s, m, r, u) {
      OnlyUnnamedIsReentered(s, m, r, u);
      UnnamedStep(s, m, ch);
      NewcomerByRule(m.info, m.incoming.userName, ch.randomName, false);
    } else {
      PermissionKept(s, m, ch, r, u);
      StreamKept(s, m, ch, r, u);
      OwnershipKept(s, m, ch, r, u);
      NamesKept(s, m, ch, r, u);
    }
  }

  lemma OnlyUnnamedIsReentered(s: State, m: ClientMessage, r: RoomId, u: Xid)
    requires Inv(s) && Reenters(s, m, r, u) && IsMember(s, u, r)
    ensures r == UNNAMED
  {
    hide IdsOk, ConnectedOk, SessionsOk, TurnOk, LogOk, MetricsOk, RoomsInv;
  }

  /** A room closes exactly when its owner dissolves it or its last member leaves. */
  lemma RoomsCloseRightly(states: seq<State>, steps: seq<Step>, i: nat, r: RoomId)
    requires IsRun(states, steps) && i < |steps| && r in states[i].rooms
    ensures ClosesRightly(states[i], steps[i].message, states[i + 1], r)
  {
    hide Inv, Enabled, Apply, ClosesRightly;
    StepOfRun(states, steps, i);
    RoomsCloseExactly(states[i], steps[i].message, steps[i].choice, r);
  }

  /**
   A named room that somebody else than its owner leaves has another member, and lives on: the
   branch that closes a room after a leaver that does not own it is never taken.
   */
  lemma OnlyOwnersLeaveRoomsEmpty(states: seq<State>, steps: seq<Step>, i: nat, r: RoomId)
    requires IsRun(states, steps) && i < |steps|
    requires var c := steps[i].message.info.id;
             LivesIn(states[i], c, r) && !Owns(states[i], c, r) && c !in states[i + 1].connected
    ensures states[i].rooms[r].users - {steps[i].message.info.id} != map[]
    ensures r in states[i + 1].rooms && states[i + 1].rooms[r].users != map[]
  {
    hide Core, Enabled, Apply, Follows, ClosesRightly, OneOwner, StreamersOk, Star;
    StepOfRun(states, steps, i);
    var s, m, ch := states[i], steps[i].message, steps[i].choice;
    OthersThanTheOwner(s.rooms[r], m.info.id);
    RoomsCloseExactly(s, m, ch, r);
    LivesOn(s, m, states[i + 1], r);
    OneOwnerEach(states, steps, i + 1, r);
  }

  lemma OthersThanTheOwner(room: Room, c: Xid)
    requires RoomInv(room) && c in room.users && !room.users[c].owner
    ensures room.users - {c} != map[] && room.users.Keys != {c}
  {
    var o :| o in room.users && room.users[o].owner;
    assert o in room.users - {c};
  }

  lemma LivesOn(s: State, m: ClientMessage, t: State, r: RoomId)
    requires r in s.rooms && ClosesRightly(s, m, t, r)
    requires !Owns(s, m.info.id, r) && s.rooms[r].users.Keys != {m.info.id}
    ensures r in t.rooms
  {}
}
