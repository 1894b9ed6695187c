/** What the invariant says about every reachable state, in the terms of the program's users. */
module Properties {
  import opened Types
  import opened Rules
  import opened RoomModel
  import opened Invariant
  import opened Counting
  import opened Elementary
  import opened Shape
  import opened Safety
  import opened Frame

  // ---- Star topology ----

  function Edges(room: Room): set<Session> { set id | id in room.sessions :: room.sessions[id] }

  /** The sessions of a room lead from its streaming member to every other member; with no streamer there are none. */
  ghost predicate StarShaped(room: Room) {
    && (forall h :: h in room.users && room.users[h].streaming ==>
          Edges(room) == set u | u in room.users && u != h :: Session(h, u))
    && ((forall h :: h in room.users ==> !room.users[h].streaming) ==> room.sessions == map[])
  }

  lemma StarTopology(s: State, r: RoomId)
    requires Inv(s) && r in s.rooms
    ensures StarShaped(s.rooms[r])
  {
    var room := s.rooms[r];
    if r != UNNAMED {
      forall h | h in room.users && room.users[h].streaming
        ensures Edges(room) == SharePairs(room.users, h)
      {
        EdgesOfStreamer(room, h);
      }
      StarHosts(room);
    }
  }

  lemma EdgesOfStreamer(room: Room, h: Xid)
    requires RoomInv(room) && h in room.users && room.users[h].streaming
    ensures Edges(room) == SharePairs(room.users, h)
  {
    forall p | p in Edges(room)
      ensures p in SharePairs(room.users, h)
    {
      var id :| id in room.sessions && room.sessions[id] == p;
      assert StarEdge(room.users, p);
    }
    forall p | p in SharePairs(room.users, h)
      ensures p in Edges(room)
    {
      assert Linked(room.sessions, h, p.client);
      var id :| id in room.sessions && room.sessions[id] == Session(h, p.client);
      assert room.sessions[id] in Edges(room);
    }
  }

  // ---- Owner and streamer ----

  function Owners(users: map<Xid, User>): set<Xid> { set c | c in users && users[c].owner }

  function Streamers(users: map<Xid, User>): set<Xid> { set c | c in users && users[c].streaming }

  lemma ExactlyOneOwner(s: State, r: RoomId)
    requires Inv(s) && r in s.rooms && r != UNNAMED
    ensures s.rooms[r].users != map[] && |Owners(s.rooms[r].users)| == 1
  {
    var users := s.rooms[r].users;
    var o :| o in users && users[o].owner && forall c :: c in users && users[c].owner ==> c == o;
    assert Owners(users) == {o};
  }

  lemma SinglePermittedStreamer(s: State, r: RoomId)
    requires Inv(s) && r in s.rooms
    ensures var users := s.rooms[r].users;
            |Streamers(users)| <= 1 && forall c :: c in Streamers(users) ==> users[c].canShare
  {
    var users := s.rooms[r].users;
    var streamers := Streamers(users);
    if streamers != {} {
      var a :| a in streamers;
      assert streamers == {a};
    }
  }

  // ---- Membership ----

  /** `connected` names the room of exactly its members. */
  ghost predicate Bijection(s: State) {
    forall c, r :: IsMember(s, c, r) <==> c in s.connected && s.connected[c] == r && r != UNNAMED
  }

  predicate IsMember(s: State, c: Xid, r: RoomId) { r in s.rooms && c in s.rooms[r].users }

  lemma MembershipBijection(s: State)
    requires Inv(s)
    ensures Bijection(s) <==> UNNAMED !in s.rooms
  {
    if UNNAMED in s.rooms {
      assert s.rooms[UNNAMED].users != map[];
      var c :| c in s.rooms[UNNAMED].users;
      assert IsMember(s, c, UNNAMED);
    } else {
      TiedMembers(s);
    }
  }

  lemma TiedMembers(s: State)
    requires MembershipOk(s) && UNNAMED !in s.rooms
    ensures Bijection(s)
  {}

  /** From such a state the next is such a state unless a room with the empty name is founded. */
  lemma BijectionKept(s: State, m: ClientMessage, ch: Choice)
    requires Inv(s) && Enabled(s, m, ch) && Bijection(s)
    ensures Bijection(Apply(s, m, ch)) <==> !(Founds(s, m) && m.incoming.id == UNNAMED)
  {
    StepKeepsInv(s, m, ch);
    MembershipBijection(s);
    MembershipBijection(Apply(s, m, ch));
    UnnamedRoomAppears(s, m, ch);
  }

  lemma UnnamedRoomAppears(s: State, m: ClientMessage, ch: Choice)
    requires Inv(s) && Enabled(s, m, ch) && UNNAMED !in s.rooms
    ensures UNNAMED in Apply(s, m, ch).rooms <==> Founds(s, m) && m.incoming.id == UNNAMED
  {
    if Founds(s, m) {
      FoundingStep(s, m, ch);
    } else if !m.incoming.Connected? {
      StepWithin(s, m, ch);
    }
  }

  /** A room with the empty name: its founder is a member, and `connected` says it is in no room. */
  lemma UnnamedRoomBreaksBijection(c: Xid, ch: Choice)
    requires ch.grants == []
    ensures var s := Connect(Initial(AUTH_MODE_NONE), c);
            var m := ClientMessage(ClientInfo(c, false, "", "addr"), false, Create(UNNAMED, CONNECTION_LOCAL, true, "A", false));
            var t := Apply(s, m, ch);
            && Enabled(s, m, ch) && Bijection(s)
            && c in t.rooms[UNNAMED].users && t.connected[c] == UNNAMED && !Bijection(t)
  {
    var s := Connect(Initial(AUTH_MODE_NONE), c);
    var m := ClientMessage(ClientInfo(c, false, "", "addr"), false, Create(UNNAMED, CONNECTION_LOCAL, true, "A", false));
    assert Founds(s, m);
    FoundingStep(s, m, ch);
    assert IsMember(Apply(s, m, ch), c, UNNAMED);
  }

  // ---- The TURN table ----

  ghost predicate NamesLiveSession(s: State, name: string, r: RoomId, id: Xid) {
    && r in s.rooms && id in s.rooms[r].sessions && s.rooms[r].mode == "turn"
    && (name == id.text + "host" || name == id.text + "client")
  }

  /** A username is known to the TURN server exactly when it belongs to a live session of a room in TURN mode. */
  ghost predicate KnownExactly(s: State, name: string) {
    name in s.turn <==> exists r, id :: NamesLiveSession(s, name, r, id)
  }

  lemma TurnTableExact(s: State, name: string)
    requires Inv(s)
    ensures KnownExactly(s, name)
  {
    if name in s.turn {
      KnownNameIsLive(s, name);
    }
    if r, id :| NamesLiveSession(s, name, r, id) {
      LiveNameIsKnown(s, name, r, id);
    }
  }

  lemma KnownNameIsLive(s: State, name: string)
    requires SessionsOk(s) && TurnNamesOk(s) && name in s.turn
    ensures NameId(name) in s.issued
    ensures NamesLiveSession(s, name, s.issued[NameId(name)].room, NameId(name))
  {
    assert TurnNameOk(s, name);
    assert SessionOk(s, s.issued[NameId(name)].room, NameId(name));
  }

  lemma LiveNameIsKnown(s: State, name: string, r: RoomId, id: Xid)
    requires TurnEntriesOk(s) && NamesLiveSession(s, name, r, id)
    ensures name in s.turn
  {
    assert EntriesOk(s, r, id);
  }

  lemma LiveIsLiveAt(s: State, id: Xid)
    requires SessionsOk(s)
    ensures Live(s, id) <==> LiveAt(s, id)
  {
    if r :| r in s.rooms && id in s.rooms[r].sessions {
      assert SessionOk(s, r, id);
    }
  }

  /**
   Credentials work, with the announced password and for the address of whom they were sent
   to, as long as the session they were sent for lives.
   */
  ghost predicate CredentialsWork(s: State, d: Delivery)
    requires HandsOutCredentials(d)
  {
    var id, ice := d.message.id, d.message.ice;
    && (ice.username in s.turn <==> Live(s, id))
    && (forall r :: r in s.rooms && id in s.rooms[r].sessions ==> Works(s.turn, s.rooms[r].users, d))
  }

  predicate HandsOutCredentials(d: Delivery) {
    (d.message.HostSession? || d.message.ClientSession?) && d.message.ice.Turn?
  }

  lemma CredentialsWorkWhileLive(s: State, d: Delivery)
    requires Inv(s) && d in Sent(s.log) && HandsOutCredentials(d)
    ensures CredentialsWork(s, d)
  {
    hide IdsOk, MembershipOk, MetricsOk, RoomsInv, Sent, Live, TurnOk, SessionsOk, Works;
    var id := d.message.id;
    assert AnnouncementOk(s.issued, d);
    assert s.issued[id].grant.id == id;
    NamesWhileLive(s, id);
    forall r | r in s.rooms && id in s.rooms[r].sessions
      ensures Works(s.turn, s.rooms[r].users, d)
    {
      LiveNamesWork(s, r, id);
    }
  }

  /** The TURN server accepts what is announced for a live session. */
  lemma LiveNamesWork(s: State, r: RoomId, id: Xid)
    requires SessionsOk(s) && TurnOk(s) && r in s.rooms && id in s.rooms[r].sessions
    ensures id in s.issued && s.issued[id].mode == s.rooms[r].mode
    ensures var issue := s.issued[id];
            issue.grant.id == id && issue.mode == CONNECTION_TURN ==>
              && Works(s.turn, s.rooms[r].users, HostNotice(issue.mode, issue.grant))
              && Works(s.turn, s.rooms[r].users, ClientNotice(issue.mode, issue.grant))
  {
    assert SessionOk(s, r, id);
    assert s.rooms[r].mode == CONNECTION_TURN ==> EntriesOk(s, r, id);
  }

  lemma NamesWhileLive(s: State, id: Xid)
    requires SessionsOk(s) && TurnOk(s) && id in s.issued && s.issued[id].mode == CONNECTION_TURN
    ensures HostName(id) in s.turn <==> Live(s, id)
    ensures ClientName(id) in s.turn <==> Live(s, id)
  {
    hide Live, HostName, ClientName, NameId;
    NamesAreDistinct(id, id);
    LiveIsLiveAt(s, id);
    assert HostName(id) in s.turn ==> TurnNameOk(s, HostName(id));
    assert ClientName(id) in s.turn ==> TurnNameOk(s, ClientName(id));
    if LiveAt(s, id) {
      assert SessionOk(s, s.issued[id].room, id);
      assert EntriesOk(s, s.issued[id].room, id);
    }
  }

  // ---- Announcements ----

  lemma ServersByRule(mode: string, g: Grant)
    ensures RightServers(HostNotice(mode, g), mode) && RightServers(ClientNotice(mode, g), mode)
  {}

  /** Every session ever opened was announced exactly once to its host and once to its client. */
  lemma AnnouncedToBoth(s: State, id: Xid)
    requires LogOk(s) && id in s.issued
    ensures var issue := s.issued[id];
            AnnouncedBy(Sent(s.log), id, issue.mode, HostNotice(issue.mode, issue.grant), ClientNotice(issue.mode, issue.grant))
  {
    hide Sent, RightServers;
    var issue := s.issued[id];
    ServersByRule(issue.mode, issue.grant);
    forall d | d in Sent(s.log) && Announces(d, id)
      ensures d == HostNotice(issue.mode, issue.grant) || d == ClientNotice(issue.mode, issue.grant)
    {
      assert AnnouncementOk(s.issued, d);
    }
  }

  /** A live session was announced to its two ends, with what they need to connect. */
  lemma ReachedBoth(s: State, r: RoomId, id: Xid)
    requires Inv(s) && r in s.rooms && id in s.rooms[r].sessions
    ensures id in s.issued
    ensures var issue := s.issued[id];
            var toHost, toClient := HostNotice(issue.mode, issue.grant), ClientNotice(issue.mode, issue.grant);
            && AnnouncedBy(Sent(s.log), id, s.rooms[r].mode, toHost, toClient)
            && Reached(s.turn, s.rooms[r], id, toHost, toClient)
  {
    hide IdsOk, MembershipOk, MetricsOk, RoomsInv, Sent, TurnOk, Works, AnnouncedBy;
    assert SessionOk(s, r, id);
    AnnouncedToBoth(s, id);
    assert s.issued[id].grant.id == id;
    LiveNamesWork(s, r, id);
  }

  lemma OnlyIssuedAreAnnounced(s: State, d: Delivery)
    requires LogOk(s) && d in Sent(s.log) && (d.message.HostSession? || d.message.ClientSession?)
    ensures d.message.id in s.issued
  {
    assert AnnouncementOk(s.issued, d);
  }

  // ---- Isolation ----

  /** A step leaves every other room, connection, TURN name and client alone. */
  ghost predicate Isolated(s: State, t: State, r: RoomId, c: Xid, added: set<Xid>) {
    && OnlyRoom(s.rooms, t.rooms, r)
    && (forall d :: d != c && d !in MembersOf(s, r) ==>
          (d in s.connected <==> d in t.connected) && (d in s.connected ==> s.connected[d] == t.connected[d]))
    && TurnWithin(s.turn, t.turn, SessionIds(s, r) + added)
    && LogWithin(s.log, t.log, MembersOf(s, r) + {c})
  }

  lemma RoomIsolation(s: State, m: ClientMessage, ch: Choice)
    requires Inv(s) && Enabled(s, m, ch)
    ensures Isolated(s, Apply(s, m, ch), TargetRoom(s, m), m.info.id, Ids(ch.grants))
    ensures Ids(ch.grants) !! s.issued.Keys
  {
    GrantsAreFresh(s, m, ch);
    if Founds(s, m) {
      FoundingIsolated(s, m, ch);
    } else if m.incoming.Connected? {
      ConnectingIsolated(s, m, ch);
    } else {
      StepWithin(s, m, ch);
      WithinIsIsolated(s, Apply(s, m, ch), TargetRoom(s, m), m.info.id, Entrant(s, m), Ids(ch.grants));
    }
  }

  lemma GrantsAreFresh(s: State, m: ClientMessage, ch: Choice)
    requires Enabled(s, m, ch)
    ensures Ids(ch.grants) !! s.issued.Keys
  {}

  lemma ConnectingIsolated(s: State, m: ClientMessage, ch: Choice)
    requires m.incoming.Connected?
    ensures Isolated(s, Apply(s, m, ch), TargetRoom(s, m), m.info.id, Ids(ch.grants))
  {}

  lemma FoundingIsolated(s: State, m: ClientMessage, ch: Choice)
    requires Founds(s, m)
    ensures Isolated(s, Apply(s, m, ch), m.incoming.id, m.info.id, Ids(ch.grants))
  {
    FoundingStep(s, m, ch);
    FoundingIsIsolated(s, Apply(s, m, ch), m.incoming.id, m.info.id, Ids(ch.grants),
                       multiset{RosterFor(NewRoom(m.info, m.incoming, ch), m.info.id)});
  }

  lemma WithinIsIsolated(s: State, t: State, r: RoomId, c: Xid, added: set<Xid>, ids: set<Xid>)
    requires Within(s, t, r, c, added, ids) && added <= {c}
    ensures Isolated(s, t, r, c, ids)
  {
    assert MembersOf(s, r) + added + {c} == MembersOf(s, r) + {c};
  }

  lemma FoundingIsIsolated(s: State, t: State, r: RoomId, c: Xid, ids: set<Xid>, phase: multiset<Delivery>)
    requires t.connected == s.connected[c := r] && t.turn == s.turn
    requires OnlyRoom(s.rooms, t.rooms, r)
    requires t.log == s.log + [phase] && AddressedTo(phase, {c})
    ensures Isolated(s, t, r, c, ids)
  {
    LogGrowsBy(s.log, phase, MembersOf(s, r) + {c});
  }
}
