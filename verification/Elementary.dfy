/** Every elementary change keeps `Core`. */
module Elementary {
  import opened Types
  import opened RoomModel
  import opened Invariant
  import opened Counting

  ghost predicate Quiet(phase: multiset<Delivery>) {
    forall d :: d in phase ==> !d.message.HostSession? && !d.message.ClientSession?
  }

  lemma SayKeeps(s: State, phase: multiset<Delivery>)
    requires Core(s) && Quiet(phase)
    ensures Core(Say(s, phase))
  {
    SayKeepsLog(s, phase);
    BooksFrame(s, Say(s, phase));
    RoomsFrame(s, Say(s, phase));
  }

  lemma BooksFrame(s: State, t: State)
    requires IdsOk(s) && MembershipOk(s) && MetricsOk(s)
    requires s.rooms == t.rooms && s.connected == t.connected && s.seen == t.seen
    requires s.metrics == t.metrics && s.rejoined == t.rejoined
    ensures IdsOk(t) && MembershipOk(t) && MetricsOk(t)
  {}

  lemma LogFrame(s: State, t: State)
    requires LogOk(s) && s.issued == t.issued && s.log == t.log
    ensures LogOk(t)
  {}

  lemma SayKeepsLog(s: State, phase: multiset<Delivery>)
    requires LogOk(s) && Quiet(phase)
    ensures LogOk(Say(s, phase))
  {
    SaidOnce(s.log, phase);
    var t := Say(s, phase);
    forall id | id in t.issued
      ensures Sent(t.log)[HostNotice(t.issued[id].mode, t.issued[id].grant)] == 1
      ensures Sent(t.log)[ClientNotice(t.issued[id].mode, t.issued[id].grant)] == 1
    {
      assert HostNotice(t.issued[id].mode, t.issued[id].grant) !in phase;
      assert ClientNotice(t.issued[id].mode, t.issued[id].grant) !in phase;
    }
  }

  /** Sessions and the TURN table depend only on rooms, issues and the table. */
  lemma RoomsFrame(s: State, t: State)
    requires SessionsOk(s) && TurnOk(s)
    requires s.rooms == t.rooms && s.issued == t.issued && s.turn == t.turn
    ensures SessionsOk(t) && TurnOk(t)
  {
    SessionsFrame(s, t);
    TurnFrame(s, t);
  }

  /** Rooms may change as long as sessions, modes, addresses and membership of session ends stay. */
  ghost predicate SameSessions(s: State, t: State) {
    && s.issued == t.issued && s.turn == t.turn && s.rooms.Keys == t.rooms.Keys
    && (forall r :: r in s.rooms ==> s.rooms[r].sessions == t.rooms[r].sessions && s.rooms[r].mode == t.rooms[r].mode)
    && (forall r, id :: r in s.rooms && id in s.rooms[r].sessions ==> SameEnds(s.rooms[r], t.rooms[r], id))
  }

  ghost predicate SameEnds(a: Room, b: Room, id: Xid) {
    id in a.sessions ==> SameUser(a, b, a.sessions[id].host) && SameUser(a, b, a.sessions[id].client)
  }

  ghost predicate SameUser(a: Room, b: Room, c: Xid) {
    c in a.users ==> c in b.users && a.users[c].addr == b.users[c].addr
  }

  lemma SessionsFrame(s: State, t: State)
    requires SessionsOk(s) && SameSessions(s, t)
    ensures SessionsOk(t)
  {
    forall q, id | q in t.rooms && id in t.rooms[q].sessions
      ensures SessionOk(t, q, id)
    {
      assert SessionOk(s, q, id) && SameEnds(s.rooms[q], t.rooms[q], id);
    }
  }

  lemma TurnFrame(s: State, t: State)
    requires SessionsOk(s) && TurnOk(s) && SameSessions(s, t)
    ensures TurnOk(t)
  {
    forall q, id | q in t.rooms && id in t.rooms[q].sessions && t.rooms[q].mode == CONNECTION_TURN
      ensures id in t.issued && EntriesOk(t, q, id)
    {
      assert SessionOk(s, q, id) && EntriesOk(s, q, id) && SameEnds(s.rooms[q], t.rooms[q], id);
    }
    forall name | name in t.turn
      ensures var id := NameId(name);
              && (name == HostName(id) || name == ClientName(id))
              && LiveAt(t, id) && t.issued[id].mode == CONNECTION_TURN
    {
      assert LiveAt(s, NameId(name));
    }
  }

  ghost predicate SameMembers(before: map<Xid, User>, after: map<Xid, User>) {
    && before.Keys == after.Keys
    && (forall c :: c in after ==> after[c].id == c && after[c].addr == before[c].addr)
  }

  lemma SetUsersKeeps(s: State, r: RoomId, users: map<Xid, User>)
    requires Core(s) && r in s.rooms && SameMembers(s.rooms[r].users, users)
    ensures Core(SetUsers(s, r, users))
  {
    var t := SetUsers(s, r, users);
    LogFrame(s, SetUsers(s, r, users));
    SetUsersKeepsRest(s, r, users);
    SetUsersKeepsMetrics(s, r, users);
    SetUsersSameSessions(s, r, users);
    SessionsFrame(s, t);
    TurnFrame(s, t);
  }

  lemma SetUsersKeepsRest(s: State, r: RoomId, users: map<Xid, User>)
    requires IdsOk(s) && MembershipOk(s) && r in s.rooms && SameMembers(s.rooms[r].users, users)
    ensures IdsOk(SetUsers(s, r, users)) && MembershipOk(SetUsers(s, r, users))
  {}

  lemma SetUsersKeepsMetrics(s: State, r: RoomId, users: map<Xid, User>)
    requires MetricsOk(s) && r in s.rooms && SameMembers(s.rooms[r].users, users)
    ensures MetricsOk(SetUsers(s, r, users))
  {
    RoomReplaced(s.rooms, s.rooms[r].(users := users), r);
    assert |users| == |users.Keys| && |s.rooms[r].users| == |s.rooms[r].users.Keys|;
  }

  lemma SetUsersSameSessions(s: State, r: RoomId, users: map<Xid, User>)
    requires r in s.rooms && SameMembers(s.rooms[r].users, users)
    ensures SameSessions(s, SetUsers(s, r, users))
  {}

  lemma BanKeeps(s: State, r: RoomId, addr: string)
    requires Core(s) && r in s.rooms
    ensures Core(Ban(s, r, addr))
  {
    var t := Ban(s, r, addr);
    BanSameSessions(s, r, addr);
    BanKeepsMetrics(s, r, addr);
    BanKeepsMembership(s, r, addr);
    LogFrame(s, t);
    SessionsFrame(s, t);
    TurnFrame(s, t);
  }

  lemma BanKeepsMembership(s: State, r: RoomId, addr: string)
    requires IdsOk(s) && MembershipOk(s) && r in s.rooms
    ensures var t := Ban(s, r, addr); IdsOk(t) && MembershipOk(t)
  {}

  lemma BanSameSessions(s: State, r: RoomId, addr: string)
    requires r in s.rooms
    ensures SameSessions(s, Ban(s, r, addr))
  {}

  lemma BanKeepsMetrics(s: State, r: RoomId, addr: string)
    requires MetricsOk(s) && r in s.rooms
    ensures MetricsOk(Ban(s, r, addr))
  {
    RoomReplaced(s.rooms, Ban(s, r, addr).rooms[r], r);
  }

  // ---- Closing sessions ----

  lemma CloseSessionsKeeps(s: State, r: RoomId, ids: set<Xid>)
    requires Core(s) && r in s.rooms && ids <= s.rooms[r].sessions.Keys
    ensures Core(CloseSessions(s, r, ids))
  {
    CloseSessionsKeepsRest(s, r, ids);
    CloseSessionsKeepsMetrics(s, r, ids);
    LogFrame(s, CloseSessions(s, r, ids));
    CloseSessionsKeepsSessions(s, r, ids);
    CloseSessionsKeepsTurn(s, r, ids);
  }

  lemma CloseSessionsKeepsRest(s: State, r: RoomId, ids: set<Xid>)
    requires IdsOk(s) && MembershipOk(s) && r in s.rooms
    ensures var t := CloseSessions(s, r, ids); IdsOk(t) && MembershipOk(t)
  {}

  lemma CloseSessionsKeepsMetrics(s: State, r: RoomId, ids: set<Xid>)
    requires MetricsOk(s) && r in s.rooms && ids <= s.rooms[r].sessions.Keys
    ensures MetricsOk(CloseSessions(s, r, ids))
  {
    RoomReplaced(s.rooms, CloseSessions(s, r, ids).rooms[r], r);
    MapRemoveSize(s.rooms[r].sessions, ids);
  }

  lemma CloseSessionsKeepsTurn(s: State, r: RoomId, ids: set<Xid>)
    requires SessionsOk(s) && TurnOk(s) && r in s.rooms && ids <= s.rooms[r].sessions.Keys
    ensures TurnOk(CloseSessions(s, r, ids))
  {
    CloseSessionsKeepsEntries(s, r, ids);
    CloseSessionsKeepsNames(s, r, ids);
  }

  lemma CloseSessionsKeepsSessions(s: State, r: RoomId, ids: set<Xid>)
    requires SessionsOk(s) && r in s.rooms
    ensures SessionsOk(CloseSessions(s, r, ids))
  {
    var t := CloseSessions(s, r, ids);
    forall q, id | q in t.rooms && id in t.rooms[q].sessions
      ensures SessionOk(t, q, id)
    {
      assert SessionOk(s, q, id);
    }
  }

  lemma CloseSessionsKeepsEntries(s: State, r: RoomId, ids: set<Xid>)
    requires SessionsOk(s) && TurnOk(s) && r in s.rooms && ids <= s.rooms[r].sessions.Keys
    ensures var t := CloseSessions(s, r, ids);
            forall q, id :: q in t.rooms && id in t.rooms[q].sessions && t.rooms[q].mode == CONNECTION_TURN ==>
              id in t.issued && EntriesOk(t, q, id)
  {
    var t := CloseSessions(s, r, ids);
    forall q, id | q in t.rooms && id in t.rooms[q].sessions && t.rooms[q].mode == CONNECTION_TURN
      ensures id in t.issued && EntriesOk(t, q, id)
    {
      EntryStays(s, r, ids, q, id);
    }
  }

  lemma EntryStays(s: State, r: RoomId, ids: set<Xid>, q: RoomId, id: Xid)
    requires SessionsOk(s) && TurnEntriesOk(s) && r in s.rooms && ids <= s.rooms[r].sessions.Keys
    requires q in s.rooms && id in s.rooms[q].sessions && s.rooms[q].mode == CONNECTION_TURN && (q == r ==> id !in ids)
    ensures id in s.issued && EntriesOk(CloseSessions(s, r, ids), q, id)
  {
    hide HostName, ClientName, HostNames, ClientNames;
    assert SessionOk(s, q, id) && EntriesOk(s, q, id);
    OtherNamesStay(s, r, ids, q, id);
  }

  /** A session stays, so its names are not among those of the sessions that go. */
  lemma OtherNamesStay(s: State, r: RoomId, ids: set<Xid>, q: RoomId, id: Xid)
    requires SessionsOk(s) && r in s.rooms && ids <= s.rooms[r].sessions.Keys
    requires q in s.rooms && id in s.rooms[q].sessions && (q == r ==> id !in ids)
    ensures HostName(id) !in HostNames(ids) + ClientNames(ids) && ClientName(id) !in HostNames(ids) + ClientNames(ids)
  {
    assert SessionOk(s, q, id);
    forall k | k in ids
      ensures k != id && HostName(k) != HostName(id) && ClientName(k) != HostName(id)
      ensures HostName(k) != ClientName(id) && ClientName(k) != ClientName(id)
    {
      assert SessionOk(s, r, k);
      NamesAreDistinct(k, id);
      NamesAreDistinct(id, k);
    }
  }

  lemma CloseSessionsKeepsNames(s: State, r: RoomId, ids: set<Xid>)
    requires SessionsOk(s) && TurnOk(s) && r in s.rooms && ids <= s.rooms[r].sessions.Keys
    ensures var t := CloseSessions(s, r, ids);
            forall name :: name in t.turn ==>
              var id := NameId(name);
              && (name == HostName(id) || name == ClientName(id))
              && LiveAt(t, id) && t.issued[id].mode == CONNECTION_TURN
  {
    var t := CloseSessions(s, r, ids);
    forall name | name in t.turn
      ensures LiveAt(t, NameId(name))
    {
      var id := NameId(name);
      assert LiveAt(s, id) && s.issued[id].mode == CONNECTION_TURN;
      if id in ids {
        assert false;
      }
    }
  }

  // ---- Opening sessions ----

  /** A new session is fresh and joins two different members of a named room. */
  ghost predicate Openable(s: State, r: RoomId, g: Grant)
    requires r in s.rooms
  {
    && g.id !in s.issued && r != UNNAMED
    && g.host in s.rooms[r].users && g.client in s.rooms[r].users && g.host != g.client
  }

  lemma OpenSessionKeeps(s: State, r: RoomId, g: Grant)
    requires Core(s) && r in s.rooms && Openable(s, r, g)
    ensures Core(OpenSession(s, r, g))
  {
    OpenSessionKeepsRest(s, r, g);
    OpenSessionKeepsMetrics(s, r, g);
    OpenSessionKeepsSessions(s, r, g);
    OpenSessionKeepsEntries(s, r, g);
    OpenSessionKeepsNames(s, r, g);
    OpenSessionKeepsLog(s, r, g);
  }

  lemma OpenSessionKeepsRest(s: State, r: RoomId, g: Grant)
    requires IdsOk(s) && MembershipOk(s) && r in s.rooms
    ensures IdsOk(OpenSession(s, r, g)) && MembershipOk(OpenSession(s, r, g))
  {}

  lemma OpenSessionKeepsMetrics(s: State, r: RoomId, g: Grant)
    requires SessionsOk(s) && MetricsOk(s) && r in s.rooms && Openable(s, r, g)
    ensures MetricsOk(OpenSession(s, r, g))
  {
    RoomReplaced(s.rooms, OpenSession(s, r, g).rooms[r], r);
    assert g.id !in s.rooms[r].sessions;
    UpdateThenRemove(s.rooms[r].sessions, g.id, PairOf(g));
  }

  lemma OpenSessionKeepsSessions(s: State, r: RoomId, g: Grant)
    requires IdsOk(s) && SessionsOk(s) && r in s.rooms && Openable(s, r, g)
    ensures SessionsOk(OpenSession(s, r, g))
  {
    var t := OpenSession(s, r, g);
    forall q, id | q in t.rooms && id in t.rooms[q].sessions
      ensures SessionOk(t, q, id)
    {
      if q != r || id != g.id {
        assert SessionOk(s, q, id);
      }
    }
  }

  lemma OpenSessionKeepsEntries(s: State, r: RoomId, g: Grant)
    requires IdsOk(s) && SessionsOk(s) && TurnEntriesOk(s) && r in s.rooms && Openable(s, r, g)
    ensures TurnEntriesOk(OpenSession(s, r, g))
  {
    var t := OpenSession(s, r, g);
    forall q, id | q in t.rooms && id in t.rooms[q].sessions && t.rooms[q].mode == CONNECTION_TURN
      ensures id in t.issued && EntriesOk(t, q, id)
    {
      if q == r && id == g.id {
        NamesAreDistinct(id, id);
      } else {
        OtherEntriesStay(s, r, g, q, id);
      }
    }
  }

  lemma OtherEntriesStay(s: State, r: RoomId, g: Grant, q: RoomId, id: Xid)
    requires SessionsOk(s) && TurnEntriesOk(s) && r in s.rooms && Openable(s, r, g)
    requires q in s.rooms && id in s.rooms[q].sessions && s.rooms[q].mode == CONNECTION_TURN
    ensures var t := OpenSession(s, r, g); id in t.issued && EntriesOk(t, q, id)
  {
    assert SessionOk(s, q, id) && EntriesOk(s, q, id);
    NamesAreDistinct(g.id, id);
    NamesAreDistinct(id, g.id);
  }

  lemma OpenSessionKeepsNames(s: State, r: RoomId, g: Grant)
    requires IdsOk(s) && TurnNamesOk(s) && r in s.rooms && Openable(s, r, g)
    ensures TurnNamesOk(OpenSession(s, r, g))
  {
    var t := OpenSession(s, r, g);
    NamesAreDistinct(g.id, g.id);
    forall name | name in t.turn
      ensures TurnNameOk(t, name)
    {
      if name in s.turn {
        assert TurnNameOk(s, name);
      }
    }
  }

  lemma OpenSessionKeepsLog(s: State, r: RoomId, g: Grant)
    requires LogOk(s) && r in s.rooms && g.id !in s.issued
    ensures LogOk(OpenSession(s, r, g))
  {
    var t := OpenSession(s, r, g);
    var host, client := HostNotice(s.rooms[r].mode, g), ClientNotice(s.rooms[r].mode, g);
    SaidOnce(s.log, multiset{host});
    SaidOnce(s.log + [multiset{host}], multiset{client});
    NotAnnouncedBefore(s, s.rooms[r].mode, g);
    forall d | d in Sent(t.log)
      ensures AnnouncementOk(t.issued, d)
    {
      if d in Sent(s.log) {
        assert AnnouncementOk(s.issued, d);
      }
    }
  }

  lemma NotAnnouncedBefore(s: State, mode: string, g: Grant)
    requires LogOk(s) && g.id !in s.issued
    ensures Sent(s.log)[HostNotice(mode, g)] == 0
    ensures Sent(s.log)[ClientNotice(mode, g)] == 0
  {
    assert !AnnouncementOk(s.issued, HostNotice(mode, g));
    assert !AnnouncementOk(s.issued, ClientNotice(mode, g));
  }

  ghost predicate AllOpenable(s: State, r: RoomId, grants: seq<Grant>)
    requires r in s.rooms
  {
    FreshGrants(grants, s.issued) && forall i :: 0 <= i < |grants| ==> Openable(s, r, grants[i])
  }

  lemma {:induction false} OpenSessionsKeeps(s: State, r: RoomId, grants: seq<Grant>)
    requires Core(s) && r in s.rooms && AllOpenable(s, r, grants)
    ensures Core(OpenSessions(s, r, grants))
  {
    if grants != [] {
      var before, last := grants[..|grants| - 1], grants[|grants| - 1];
      FirstOpenable(s, r, grants);
      OpenSessionsKeeps(s, r, before);
      StillOpenable(s, r, before, last);
      OpenSessionKeeps(OpenSessions(s, r, before), r, last);
    }
  }

  lemma FirstOpenable(s: State, r: RoomId, grants: seq<Grant>)
    requires r in s.rooms && AllOpenable(s, r, grants) && grants != []
    ensures var n := |grants| - 1;
            AllOpenable(s, r, grants[..n]) && Openable(s, r, grants[n]) && grants[n].id !in Ids(grants[..n])
  {}

  lemma StillOpenable(s: State, r: RoomId, before: seq<Grant>, g: Grant)
    requires r in s.rooms && Openable(s, r, g) && g.id !in Ids(before)
    ensures Openable(OpenSessions(s, r, before), r, g)
  {
    Opened(s, r, before);
    OpenedIssues(s, r, before);
  }

  /** Opening sessions changes, among the rooms, only the sessions of the one room. */
  lemma {:induction false} Opened(s: State, r: RoomId, grants: seq<Grant>)
    requires r in s.rooms
    ensures var t := OpenSessions(s, r, grants);
            && t.rooms == s.rooms[r := s.rooms[r].(sessions := Extended(s.rooms[r].sessions, grants))]
            && t.connected == s.connected && t.seen == s.seen
  {
    hide Allowed, HostNotice, ClientNotice;
    if grants != [] {
      Opened(s, r, grants[..|grants| - 1]);
      var t := OpenSessions(s, r, grants);
      assert t.rooms[r] == s.rooms[r].(sessions := Extended(s.rooms[r].sessions, grants));
      assert t.rooms == s.rooms[r := t.rooms[r]];
    } else {
      assert s.rooms == s.rooms[r := s.rooms[r]];
    }
  }

  /** It issues the granted identifiers and keeps the earlier issues. */
  lemma {:induction false} OpenedIssues(s: State, r: RoomId, grants: seq<Grant>)
    requires r in s.rooms
    ensures var t := OpenSessions(s, r, grants);
            && t.issued.Keys == s.issued.Keys + Ids(grants)
            && (forall id :: id in s.issued && id !in Ids(grants) ==> t.issued[id] == s.issued[id])
  {
    if grants != [] {
      var before := grants[..|grants| - 1];
      OpenedIssues(s, r, before);
      assert Ids(grants) == Ids(before) + {grants[|grants| - 1].id};
    }
  }

  function Ids(grants: seq<Grant>): set<Xid> { set i | 0 <= i < |grants| :: grants[i].id }

  function Extended(sessions: map<Xid, Session>, grants: seq<Grant>): map<Xid, Session> {
    if grants == [] then sessions
    else
      var g := grants[|grants| - 1];
      Extended(sessions, grants[..|grants| - 1])[g.id := PairOf(g)]
  }

  lemma {:induction false} ExtendedBy(sessions: map<Xid, Session>, grants: seq<Grant>)
    requires forall i :: 0 <= i < |grants| ==> grants[i].id !in sessions
    requires forall i, j :: 0 <= i < j < |grants| ==> grants[i].id != grants[j].id
    ensures var extended := Extended(sessions, grants);
            && (forall id :: id in sessions ==> id in extended && extended[id] == sessions[id])
            && (forall i :: 0 <= i < |grants| ==>
                  grants[i].id in extended && extended[grants[i].id] == PairOf(grants[i]))
            && (forall id :: id in extended ==>
                  id in sessions || exists i :: 0 <= i < |grants| && grants[i].id == id)
  {
    if grants != [] {
      var before := grants[..|grants| - 1];
      ExtendedBy(sessions, before);
      assert forall i :: 0 <= i < |before| ==> before[i] == grants[i];
      var extended := Extended(sessions, grants);
      forall id | id in extended && id !in sessions
        ensures exists i :: 0 <= i < |grants| && grants[i].id == id
      {
        if id == grants[|grants| - 1].id {
          assert 0 <= |grants| - 1 < |grants|;
        } else {
          var i :| 0 <= i < |before| && before[i].id == id;
          assert grants[i].id == id;
        }
      }
    }
  }

  // ---- Members come and go ----

  lemma AddMemberKeeps(s: State, r: RoomId, user: User)
    requires Core(s) && r in s.rooms
    requires user.id in s.connected && s.connected[user.id] == UNNAMED
    ensures Core(AddMember(s, r, user))
  {
    var t := AddMember(s, r, user);
    LogFrame(s, AddMember(s, r, user));
    AddMemberKeepsRest(s, r, user);
    AddMemberKeepsMetrics(s, r, user);
    AddMemberSameSessions(s, r, user);
    SessionsFrame(s, t);
    TurnFrame(s, t);
  }

  lemma AddMemberKeepsRest(s: State, r: RoomId, user: User)
    requires IdsOk(s) && MembershipOk(s) && r in s.rooms
    requires user.id in s.connected && s.connected[user.id] == UNNAMED
    ensures var t := AddMember(s, r, user); IdsOk(t) && MembershipOk(t)
  {}

  lemma AddMemberKeepsMetrics(s: State, r: RoomId, user: User)
    requires MembershipOk(s) && MetricsOk(s) && r in s.rooms
    requires user.id in s.connected && s.connected[user.id] == UNNAMED
    ensures MetricsOk(AddMember(s, r, user))
  {
    RoomReplaced(s.rooms, AddMember(s, r, user).rooms[r], r);
    UpdateThenRemove(s.rooms[r].users, user.id, user);
  }

  lemma AddMemberSameSessions(s: State, r: RoomId, user: User)
    requires MembershipOk(s) && SessionsOk(s) && r in s.rooms
    requires user.id in s.connected && s.connected[user.id] == UNNAMED
    ensures SameSessions(s, AddMember(s, r, user))
  {
    hide ConnectedOk, SessionOk;
    assert user.id in s.rooms[r].users ==> r == UNNAMED;
    var t := AddMember(s, r, user);
    forall q, id | q in s.rooms && id in s.rooms[q].sessions
      ensures SameEnds(s.rooms[q], t.rooms[q], id)
    {
      assert q == r ==> t.rooms[q].users == s.rooms[q].users[user.id := user];
    }
  }

  // `c` leaves a room in which no session involves it.

  lemma DropMemberKeeps(s: State, r: RoomId, c: Xid)
    requires Core(s) && r in s.rooms && r != UNNAMED && c in s.rooms[r].users
    requires Involving(s.rooms[r].sessions, c) == {}
    ensures Core(Dropped(s, r, c))
  {
    var t := Dropped(s, r, c);
    LogFrame(s, Dropped(s, r, c));
    DropMemberKeepsRest(s, r, c);
    DropMemberKeepsMetrics(s, r, c);
    DropMemberSameSessions(s, r, c);
    SessionsFrame(s, t);
    TurnFrame(s, t);
  }

  lemma DropMemberKeepsRest(s: State, r: RoomId, c: Xid)
    requires IdsOk(s) && MembershipOk(s) && r in s.rooms && r != UNNAMED && c in s.rooms[r].users
    ensures var t := Dropped(s, r, c); IdsOk(t) && MembershipOk(t)
  {
    var t := Dropped(s, r, c);
    forall q, d | q in t.rooms && q != UNNAMED && d in t.rooms[q].users
      ensures d in t.connected && t.connected[d] == q
    {
      assert q in s.rooms && d in s.rooms[q].users;
      assert s.connected[d] == q;
    }
  }

  lemma DropMemberKeepsMetrics(s: State, r: RoomId, c: Xid)
    requires MetricsOk(s) && r in s.rooms && c in s.rooms[r].users
    ensures MetricsOk(Dropped(s, r, c))
  {
    RoomReplaced(s.rooms, Dropped(s, r, c).rooms[r], r);
    MapRemoveSize(s.rooms[r].users, {c});
  }

  lemma DropMemberSameSessions(s: State, r: RoomId, c: Xid)
    requires r in s.rooms && Involving(s.rooms[r].sessions, c) == {}
    ensures SameSessions(s, Dropped(s, r, c))
  {
    var t := Dropped(s, r, c);
    forall id | id in s.rooms[r].sessions
      ensures SameEnds(s.rooms[r], t.rooms[r], id)
    {
      assert id !in Involving(s.rooms[r].sessions, c);
    }
  }

  lemma RemoveKeeps(s: State, r: RoomId, c: Xid)
    requires Core(s) && r in s.rooms && r != UNNAMED && c in s.rooms[r].users
    ensures Core(Remove(s, r, c))
  {
    var ids := Involving(s.rooms[r].sessions, c);
    var closed := CloseSessions(s, r, ids);
    CloseSessionsKeeps(s, r, ids);
    assert Involving(closed.rooms[r].sessions, c) == {};
    DropMemberKeeps(closed, r, c);
    RemoveInTwo(s, r, c);
  }

  lemma RemoveInTwo(s: State, r: RoomId, c: Xid)
    requires r in s.rooms
    ensures Remove(s, r, c) == Dropped(CloseSessions(s, r, Involving(s.rooms[r].sessions, c)), r, c)
  {
    var one := Remove(s, r, c);
    var two := Dropped(CloseSessions(s, r, Involving(s.rooms[r].sessions, c)), r, c);
    assert one.rooms == two.rooms;
  }

  // ---- Rooms come and go ----

  lemma OpenRoomKeeps(s: State, room: Room, c: Xid)
    requires Core(s) && room.id !in s.rooms
    requires c in s.connected && s.connected[c] == UNNAMED
    requires room.users.Keys == {c} && room.users[c].id == c && room.sessions == map[]
    ensures Core(OpenRoom(s, room, c))
  {
    LogFrame(s, OpenRoom(s, room, c));
    OpenRoomKeepsRest(s, room, c);
    OpenRoomKeepsMetrics(s, room, c);
    OpenRoomKeepsBusyRooms(s, room, c);
    SameRoomsWithSessions(s, OpenRoom(s, room, c));
  }

  lemma OpenRoomKeepsRest(s: State, room: Room, c: Xid)
    requires IdsOk(s) && MembershipOk(s) && room.id !in s.rooms
    requires c in s.connected && s.connected[c] == UNNAMED
    requires room.users.Keys == {c} && room.users[c].id == c
    ensures var t := OpenRoom(s, room, c); IdsOk(t) && MembershipOk(t)
  {}

  lemma OpenRoomKeepsMetrics(s: State, room: Room, c: Xid)
    requires MetricsOk(s) && room.id !in s.rooms && room.users.Keys == {c} && room.sessions == map[]
    ensures MetricsOk(OpenRoom(s, room, c))
  {
    RoomAdded(s.rooms, room, room.id);
    assert |room.users| == |room.users.Keys|;
  }

  ghost predicate BusyRoomsIn(a: map<RoomId, Room>, b: map<RoomId, Room>) {
    forall r :: r in a && a[r].sessions != map[] ==> r in b && a[r] == b[r]
  }

  lemma OpenRoomKeepsBusyRooms(s: State, room: Room, c: Xid)
    requires room.id !in s.rooms && room.sessions == map[]
    ensures BusyRoomsIn(s.rooms, OpenRoom(s, room, c).rooms) && BusyRoomsIn(OpenRoom(s, room, c).rooms, s.rooms)
  {}

  /** Rooms without sessions may appear and disappear. */
  lemma SameRoomsWithSessions(s: State, t: State)
    requires SessionsOk(s) && TurnOk(s)
    requires s.issued == t.issued && s.turn == t.turn
    requires BusyRoomsIn(s.rooms, t.rooms) && BusyRoomsIn(t.rooms, s.rooms)
    ensures SessionsOk(t) && TurnOk(t)
  {
    forall q, id | q in t.rooms && id in t.rooms[q].sessions
      ensures SessionOk(t, q, id)
    {
      assert SessionOk(s, q, id);
    }
    forall q, id | q in t.rooms && id in t.rooms[q].sessions && t.rooms[q].mode == CONNECTION_TURN
      ensures id in t.issued && EntriesOk(t, q, id)
    {
      assert EntriesOk(s, q, id);
    }
    forall name | name in t.turn
      ensures LiveAt(t, NameId(name))
    {
      assert LiveAt(s, NameId(name));
    }
  }

  /** The members of `r` are forgotten and the room, which has no sessions left, disappears. */
  function DeleteRoom(s: State, r: RoomId): State
    requires r in s.rooms
  {
    s.(connected := s.connected - s.rooms[r].users.Keys,
       rooms := s.rooms - {r},
       metrics := s.metrics.(usersLeft := s.metrics.usersLeft + |s.rooms[r].users|,
                             roomsClosed := s.metrics.roomsClosed + 1))
  }

  lemma DeleteRoomKeeps(s: State, r: RoomId)
    requires Core(s) && r in s.rooms && r != UNNAMED && s.rooms[r].sessions == map[]
    ensures Core(DeleteRoom(s, r))
  {
    LogFrame(s, DeleteRoom(s, r));
    DeleteRoomKeepsIds(s, r);
    DeleteRoomKeepsRest(s, r);
    DeleteRoomKeepsMetrics(s, r);
    SameRoomsWithSessions(s, DeleteRoom(s, r));
  }

  lemma DeleteRoomKeepsIds(s: State, r: RoomId)
    requires IdsOk(s) && r in s.rooms
    ensures IdsOk(DeleteRoom(s, r))
  {}

  lemma DeleteRoomKeepsRest(s: State, r: RoomId)
    requires MembershipOk(s) && r in s.rooms && r != UNNAMED
    ensures MembershipOk(DeleteRoom(s, r))
  {
    DeleteRoomKeepsMembers(s.connected, s.rooms, r);
    DeleteRoomKeepsConnected(s.connected, s.rooms, r);
  }

  lemma DeleteRoomKeepsMembers(connected: map<Xid, RoomId>, rooms: map<RoomId, Room>, r: RoomId)
    requires MembersOk(connected, rooms) && r in rooms && r != UNNAMED
    ensures MembersOk(connected - rooms[r].users.Keys, rooms - {r})
  {}

  lemma DeleteRoomKeepsConnected(connected: map<Xid, RoomId>, rooms: map<RoomId, Room>, r: RoomId)
    requires ConnectedOk(connected, rooms) && r in rooms
    ensures ConnectedOk(connected - rooms[r].users.Keys, rooms - {r})
  {}

  lemma DeleteRoomKeepsMetrics(s: State, r: RoomId)
    requires MetricsOk(s) && r in s.rooms && r != UNNAMED && s.rooms[r].sessions == map[]
    ensures MetricsOk(DeleteRoom(s, r))
  {
    RoomRemoved(s.rooms, r);
  }

  /** Dissolving a room, or closing an empty one. */
  lemma CloseRoomKeeps(s: State, r: RoomId)
    requires Core(s) && r in s.rooms && r != UNNAMED
    ensures Core(CloseRoom(s.(connected := s.connected - s.rooms[r].users.Keys), r))
  {
    var ids := s.rooms[r].sessions.Keys;
    CloseSessionsKeeps(s, r, ids);
    CloseRoomInTwo(s, r);
    DeleteRoomKeeps(CloseSessions(s, r, ids), r);
  }

  lemma CloseRoomInTwo(s: State, r: RoomId)
    requires r in s.rooms
    ensures var closed := CloseSessions(s, r, s.rooms[r].sessions.Keys);
            && CloseRoom(s.(connected := s.connected - s.rooms[r].users.Keys), r) == DeleteRoom(closed, r)
            && closed.rooms[r].sessions == map[]
  {
    var closed := CloseSessions(s, r, s.rooms[r].sessions.Keys);
    var one := CloseRoom(s.(connected := s.connected - s.rooms[r].users.Keys), r);
    assert one.rooms == closed.rooms - {r};
  }

  // ---- Connections come and go ----

  lemma ConnectKeeps(s: State, c: Xid)
    requires Core(s) && c !in s.seen
    ensures Core(Connect(s, c))
  {
    LogFrame(s, Connect(s, c));
    ConnectKeepsRest(s, c);
    RoomsFrame(s, Connect(s, c));
  }

  lemma ConnectKeepsRest(s: State, c: Xid)
    requires IdsOk(s) && MembershipOk(s) && MetricsOk(s) && c !in s.seen
    ensures var t := Connect(s, c); IdsOk(t) && MembershipOk(t) && MetricsOk(t)
  {}

  lemma ForgetKeeps(s: State, c: Xid)
    requires Core(s) && Lookup(s, c) == UNNAMED
    ensures Core(s.(connected := s.connected - {c}))
  {
    var t := s.(connected := s.connected - {c});
    LogFrame(s, t);
    ForgetKeepsMembership(s, c);
    RoomsFrame(s, t);
    MetricsFrame(s, t);
  }

  lemma ForgetKeepsMembership(s: State, c: Xid)
    requires IdsOk(s) && MembershipOk(s) && Lookup(s, c) == UNNAMED
    ensures var t := s.(connected := s.connected - {c}); IdsOk(t) && MembershipOk(t)
  {}

  lemma MetricsFrame(s: State, t: State)
    requires MetricsOk(s) && s.rooms == t.rooms && s.metrics == t.metrics && s.rejoined == t.rejoined
    ensures MetricsOk(t)
  {}
}
