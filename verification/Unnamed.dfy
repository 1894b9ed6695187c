/**
 The room with the empty name, which `connected` cannot tell from no room: what any step
 makes of it.  Clients enter it, also again, and nobody ever leaves it.
 */
module Unnamed {
  import opened Types
  import opened Rules
  import opened RoomModel
  import opened Invariant
  import opened Safety
  import opened Frame
  import opened Books
  import opened Properties

  // ---- Clients outside of every named room ----

  /** What becomes of a client that is in no room and is disconnected. */
  function Dismissed(s: State, c: Xid, word: Message): State {
    Say(s, multiset{Delivery(c, word)}).(connected := s.connected - {c})
  }

  lemma DisconnectDismisses(s: State, c: Xid, code: int, reason: string, heir: Xid)
    requires Lookup(s, c) == UNNAMED
    ensures Disconnect(s, c, code, reason, heir) == Dismissed(s, c, CloseWriter(code, reason))
  {}

  /** Unless it connects, joins or founds a room, a client in no room can only go. */
  lemma OutsiderStep(s: State, m: ClientMessage, ch: Choice) returns (word: Message)
    requires Core(s) && Accepted(s, m) && (m.skipConnectedCheck <==> m.incoming.Connected?)
    requires Lookup(s, m.info.id) == UNNAMED && !Enters(s, m) && !Founds(s, m) && !m.incoming.Connected?
    ensures Apply(s, m, ch) == Dismissed(s, m.info.id, word)
  {
    hide Disconnect, Core;
    var c, e := m.info.id, m.incoming;
    if e.Disconnected? {
      DisconnectDismisses(s, c, e.code, e.reason, ch.heir);
      word := CloseWriter(e.code, e.reason);
    } else if e.Exit? {
      DisconnectDismisses(s, c, CLOSE_NORMAL_CLOSURE, "User Left", ch.heir);
      word := CloseWriter(CLOSE_NORMAL_CLOSURE, "User Left");
    } else {
      OutsiderFails(s, m, ch);
      var why := Execute(s, m.info, e, ch).verdict.reason;
      DisconnectDismisses(s, c, CLOSE_NORMAL_CLOSURE, why, ch.heir);
      word := CloseWriter(CLOSE_NORMAL_CLOSURE, why);
    }
  }

  lemma OutsiderFails(s: State, m: ClientMessage, ch: Choice)
    requires m.info.id in s.connected && s.connected[m.info.id] == UNNAMED && !Enters(s, m) && !Founds(s, m)
    requires !m.incoming.Connected? && !m.incoming.Disconnected? && !m.incoming.Exit?
    ensures var outcome := Execute(s, m.info, m.incoming, ch); outcome.verdict.Failed? && outcome.state == s
  {}

  // ---- Joining the unnamed room ----

  function Joined(s: State, m: ClientMessage, ch: Choice): State
    requires EntersUnnamed(s, m)
  {
    Notify(AddMember(s, UNNAMED, Newcomer(m.info, m.incoming, ch)), UNNAMED)
  }

  /** No session is opened, because nobody there streams; a late failure only takes the connection. */
  lemma EnteringStep(s: State, m: ClientMessage, ch: Choice) returns (word: Message)
    requires Inv(s) && Enabled(s, m, ch) && EntersUnnamed(s, m)
    ensures Apply(s, m, ch) == if ch.ipOk then Joined(s, m, ch) else Dismissed(Joined(s, m, ch), m.info.id, word)
  {
    hide MembershipOk, SessionsOk, TurnOk, LogOk, MetricsOk, RoomsInv, Covers, JoinPairs, AddMember, Notify, Disconnect;
    word := CloseWriter(CLOSE_NORMAL_CLOSURE, PROVIDER_ERROR);
    if ch.ipOk {
      EnabledGrants(s, m, ch);
      NothingToOpen(s, m.info.id, ch.grants);
      JoinedInTime(s, m, ch);
    } else {
      LateJoinState(s, m, ch);
      JoinedNowhere(s, m, ch);
      DisconnectDismisses(Joined(s, m, ch), m.info.id, CLOSE_NORMAL_CLOSURE, PROVIDER_ERROR, ch.heir);
    }
  }

  lemma NothingToOpen(s: State, c: Xid, grants: seq<Grant>)
    requires RoomsInv(s.rooms) && UNNAMED in s.rooms
    requires Covers(grants, JoinPairs(s.rooms[UNNAMED].users, c), s.issued)
    ensures grants == []
  {
    hide Covers;
    assert JoinPairs(s.rooms[UNNAMED].users, c) == {};
    if grants != [] {
      FirstPair(grants, {}, s.issued);
      assert false;
    }
  }

  lemma FirstPair(grants: seq<Grant>, pairs: set<Session>, issued: map<Xid, Issue>)
    requires Covers(grants, pairs, issued) && grants != []
    ensures pairs != {}
  {
    assert PairOf(grants[0]) in pairs;
  }

  lemma JoinedInTime(s: State, m: ClientMessage, ch: Choice)
    requires EntersUnnamed(s, m) && ch.ipOk && ch.grants == []
    ensures Apply(s, m, ch) == Joined(s, m, ch)
  {}

  lemma JoinedNowhere(s: State, m: ClientMessage, ch: Choice)
    requires IdsOk(s) && EntersUnnamed(s, m)
    ensures Lookup(Joined(s, m, ch), m.info.id) == UNNAMED
  {}

  // ---- The unnamed room after a step ----

  lemma NothingTouched(s: State, m: ClientMessage, ch: Choice)
    requires !Accepted(s, m) || m.incoming.Connected?
    ensures Apply(s, m, ch).log == s.log && Apply(s, m, ch).rooms == s.rooms
  {}

  lemma ElsewhereStep(s: State, m: ClientMessage, ch: Choice)
    requires Inv(s) && Enabled(s, m, ch) && UNNAMED in s.rooms
    requires !Accepted(s, m) || m.incoming.Connected? || Founds(s, m) || TargetRoom(s, m) != UNNAMED
    ensures UNNAMED in Apply(s, m, ch).rooms && Apply(s, m, ch).rooms[UNNAMED] == s.rooms[UNNAMED]
  {
    hide IdsOk, MembershipOk, SessionsOk, TurnOk, LogOk, MetricsOk, RoomsInv, Covers, Apply;
    if !Accepted(s, m) || m.incoming.Connected? {
      NothingTouched(s, m, ch);
    } else if Founds(s, m) {
      FoundingStep(s, m, ch);
    } else {
      StepWithin(s, m, ch);
    }
  }

  /** Whoever joins the unnamed room is listed as a newcomer; nothing else ever changes in it. */
  lemma UnnamedStep(s: State, m: ClientMessage, ch: Choice)
    requires Inv(s) && Enabled(s, m, ch) && UNNAMED in s.rooms
    ensures var t := Apply(s, m, ch);
            && UNNAMED in t.rooms
            && t.rooms[UNNAMED].users ==
               if EntersUnnamed(s, m) then s.rooms[UNNAMED].users[m.info.id := Newcomer(m.info, m.incoming, ch)]
               else s.rooms[UNNAMED].users
  {
    hide RoomsInv, Covers, Apply, SessionsOk, TurnOk, LogOk, MetricsOk;
    if EntersUnnamed(s, m) {
      var _ := EnteringStep(s, m, ch);
    } else if Accepted(s, m) && !m.incoming.Connected? && !Founds(s, m) && TargetRoom(s, m) == UNNAMED {
      var _ := OutsiderStep(s, m, ch);
    } else {
      ElsewhereStep(s, m, ch);
    }
  }

  /** It loses its owner exactly when the owner joins it again. */
  lemma UnnamedOwners(s: State, m: ClientMessage, ch: Choice)
    requires Inv(s) && Enabled(s, m, ch) && UNNAMED in s.rooms
    ensures var t := Apply(s, m, ch);
            && UNNAMED in t.rooms
            && Owners(t.rooms[UNNAMED].users)
               == Owners(s.rooms[UNNAMED].users) - if OwnerRejoins(s, m) then {m.info.id} else {}
  {
    hide Inv, Enabled, Apply;
    UnnamedStep(s, m, ch);
  }

  lemma UnnamedFounded(s: State, m: ClientMessage, ch: Choice)
    requires Inv(s) && Enabled(s, m, ch) && UNNAMED !in s.rooms && UNNAMED in Apply(s, m, ch).rooms
    ensures Owners(Apply(s, m, ch).rooms[UNNAMED].users) == {m.info.id}
  {
    hide Inv, Enabled, Apply;
    UnnamedRoomAppears(s, m, ch);
    FoundingStep(s, m, ch);
  }

  // ---- Joining where one is listed ----

  /** The user counters against the members there are. */
  ghost function Surplus(s: State): int { s.metrics.usersJoined - s.metrics.usersLeft - Members(s.rooms) }

  /** A step counts exactly as many members as it adds, but for a client that joins where it is listed. */
  lemma StepSurplus(s: State, m: ClientMessage, ch: Choice)
    requires Inv(s) && Enabled(s, m, ch)
    ensures Surplus(Apply(s, m, ch)) == Surplus(s) + if Rejoins(s, m) then 1 else 0
  {
    hide IdsOk, MembershipOk, SessionsOk, TurnOk, LogOk, RoomsInv, Enabled, Apply, Rejoins;
    StepKeepsInv(s, m, ch);
    StepBooks(s, m, ch);
  }

  // ---- What clients that are gone are sent ----

  ghost predicate NotTo(phase: multiset<Delivery>, c: Xid) { forall d :: d in phase ==> d.to != c }

  /** Whether the step from `s` to `t` wrote to `c`. */
  ghost predicate WrittenTo(s: State, t: State, c: Xid) {
    exists k :: |s.log| <= k < |t.log| && !NotTo(t.log[k], c)
  }

  /** A client that is gone is written to exactly when somebody joins the unnamed room and it is listed there. */
  lemma StepWritesToGone(s: State, m: ClientMessage, ch: Choice, c: Xid)
    requires Inv(s) && Enabled(s, m, ch) && c in s.seen && c !in s.connected
    ensures WrittenTo(s, Apply(s, m, ch), c) <==> EntersUnnamed(s, m) && c in MembersOf(s, UNNAMED)
  {
    hide RoomsInv, Covers, Apply, IdsOk, SessionsOk, TurnOk, LogOk, MetricsOk, RosterPhase;
    if EntersUnnamed(s, m) {
      var word := EnteringStep(s, m, ch);
      var room := AddMember(s, UNNAMED, Newcomer(m.info, m.incoming, ch)).rooms[UNNAMED];
      RosterReaches(room, c);
      assert Joined(s, m, ch).log[|s.log|] == RosterPhase(room);
      assert Apply(s, m, ch).log[|s.log|] == RosterPhase(room);
      assert !ch.ipOk ==> NotTo(multiset{Delivery(m.info.id, word)}, c);
    } else if Accepted(s, m) && !m.incoming.Connected? && !Founds(s, m) && TargetRoom(s, m) == UNNAMED {
      var word := OutsiderStep(s, m, ch);
      assert NotTo(multiset{Delivery(m.info.id, word)}, c);
    } else {
      GoneElsewhere(s, m, ch, c);
    }
  }

  lemma RosterReaches(room: Room, c: Xid)
    ensures NotTo(RosterPhase(room), c) <==> c !in room.users
  {
    if c in room.users {
      assert RosterFor(room, c) in RosterPhase(room);
    }
  }

  lemma GoneElsewhere(s: State, m: ClientMessage, ch: Choice, c: Xid)
    requires Inv(s) && Enabled(s, m, ch) && c in s.seen && c !in s.connected
    requires !Accepted(s, m) || m.incoming.Connected? || Founds(s, m) || TargetRoom(s, m) != UNNAMED
    ensures !WrittenTo(s, Apply(s, m, ch), c)
  {
    hide RoomsInv, Covers, IdsOk, SessionsOk, TurnOk, LogOk, MetricsOk, Apply;
    var t := Apply(s, m, ch);
    if !Accepted(s, m) || m.incoming.Connected? {
      NothingTouched(s, m, ch);
    } else {
      RoomIsolation(s, m, ch);
      forall k | |s.log| <= k < |t.log|
        ensures NotTo(t.log[k], c)
      {
        assert AddressedTo(t.log[k], MembersOf(s, TargetRoom(s, m)) + {m.info.id});
      }
    }
  }
}
