/**
 What a step can reach: one room, the connections of its members and of the sender,
 the TURN names of its sessions, and messages to these clients.
 */
module Frame {
  import opened Types
  import opened Rules
  import opened RoomModel
  import opened Invariant
  import opened Counting
  import opened Elementary
  import opened Events
  import opened Shape
  import opened Safety

  function MembersOf(s: State, r: RoomId): set<Xid> { if r in s.rooms then s.rooms[r].users.Keys else {} }

  function SessionIds(s: State, r: RoomId): set<Xid> { if r in s.rooms then s.rooms[r].sessions.Keys else {} }

  /** Identity and mode stay, bans stay, members and sessions come only from `added` and `ids`. */
  ghost predicate RoomWithin(a: Room, b: Room, added: set<Xid>, ids: set<Xid>) {
    && b.id == a.id && b.mode == a.mode && a.banned <= b.banned
    && b.users.Keys <= a.users.Keys + added
    && b.sessions.Keys <= a.sessions.Keys + ids
    && (forall u :: u in a.users && u in b.users && u !in added ==> b.users[u].addr == a.users[u].addr)
  }

  ghost predicate ConnectionsWithin(a: map<Xid, RoomId>, b: map<Xid, RoomId>, c: Xid, members: set<Xid>, added: set<Xid>) {
    && (forall d :: d != c && d !in members ==> (d in a <==> d in b) && (d in a ==> a[d] == b[d]))
    && b.Keys <= a.Keys + added
  }

  ghost predicate TurnWithin(a: map<string, Entry>, b: map<string, Entry>, ids: set<Xid>) {
    forall name :: NameId(name) !in ids ==> (name in a <==> name in b) && (name in a ==> a[name] == b[name])
  }

  ghost predicate IssuesWithin(a: map<Xid, Issue>, b: map<Xid, Issue>, ids: set<Xid>) {
    && a.Keys <= b.Keys <= a.Keys + ids
    && (forall id :: id in a && id !in ids ==> b[id] == a[id])
  }

  ghost predicate AddressedTo(phase: multiset<Delivery>, who: set<Xid>) {
    forall d :: d in phase ==> d.to in who
  }

  ghost predicate LogWithin(a: seq<multiset<Delivery>>, b: seq<multiset<Delivery>>, who: set<Xid>) {
    a <= b && forall i :: |a| <= i < |b| ==> AddressedTo(b[i], who)
  }

  ghost predicate Within(s: State, t: State, r: RoomId, c: Xid, added: set<Xid>, ids: set<Xid>) {
    && OnlyRoom(s.rooms, t.rooms, r)
    && (r in t.rooms ==> r in s.rooms && RoomWithin(s.rooms[r], t.rooms[r], added, ids))
    && ConnectionsWithin(s.connected, t.connected, c, MembersOf(s, r), added)
    && TurnWithin(s.turn, t.turn, SessionIds(s, r) + ids)
    && IssuesWithin(s.issued, t.issued, ids)
    && LogWithin(s.log, t.log, MembersOf(s, r) + added + {c})
    && t.seen == s.seen && t.authMode == s.authMode
  }

  // ---- Within composes ----

  lemma LogWithinComposes(a: seq<multiset<Delivery>>, b: seq<multiset<Delivery>>, d: seq<multiset<Delivery>>,
                          who: set<Xid>, who': set<Xid>)
    requires LogWithin(a, b, who) && LogWithin(b, d, who') && who' <= who
    ensures LogWithin(a, d, who)
  {
    forall i | |a| <= i < |d|
      ensures AddressedTo(d[i], who)
    {
      if i < |b| {
        assert d[i] == b[i];
      } else {
        assert AddressedTo(d[i], who');
      }
    }
  }

  lemma Composes(s: State, t: State, u: State, r: RoomId, c: Xid, added: set<Xid>, ids: set<Xid>)
    requires Within(s, t, r, c, added, ids) && Within(t, u, r, c, added, ids) && added <= {c}
    ensures Within(s, u, r, c, added, ids)
  {
    LogWithinComposes(s.log, t.log, u.log, MembersOf(s, r) + added + {c}, MembersOf(t, r) + added + {c});
    ConnectionsCompose(s.connected, t.connected, u.connected, c, MembersOf(s, r), MembersOf(t, r), added);
    TurnComposes(s.turn, t.turn, u.turn, SessionIds(s, r) + ids, SessionIds(t, r) + ids);
  }

  lemma ConnectionsCompose(a: map<Xid, RoomId>, b: map<Xid, RoomId>, d: map<Xid, RoomId>, c: Xid,
                           members: set<Xid>, members': set<Xid>, added: set<Xid>)
    requires ConnectionsWithin(a, b, c, members, added) && ConnectionsWithin(b, d, c, members', added)
    requires members' <= members + {c}
    ensures ConnectionsWithin(a, d, c, members, added)
  {}

  lemma TurnComposes(a: map<string, Entry>, b: map<string, Entry>, d: map<string, Entry>, ids: set<Xid>, ids': set<Xid>)
    requires TurnWithin(a, b, ids) && TurnWithin(b, d, ids') && ids' <= ids
    ensures TurnWithin(a, d, ids)
  {}

  /** More may be allowed. */
  lemma Weaken(s: State, t: State, r: RoomId, c: Xid, added: set<Xid>, ids: set<Xid>, added': set<Xid>, ids': set<Xid>)
    requires Within(s, t, r, c, added, ids) && added <= added' <= {c} && ids <= ids'
    ensures Within(s, t, r, c, added', ids')
  {
    LogWithinComposes(s.log, s.log, t.log, MembersOf(s, r) + added' + {c}, MembersOf(s, r) + added + {c});
  }

  // ---- Elementary changes ----

  lemma NothingWithin(s: State, r: RoomId, c: Xid)
    ensures Within(s, s, r, c, {}, {})
  {}

  lemma SayWithin(s: State, r: RoomId, c: Xid, phase: multiset<Delivery>)
    requires AddressedTo(phase, MembersOf(s, r) + {c})
    ensures Within(s, Say(s, phase), r, c, {}, {})
  {
    LogGrowsBy(s.log, phase, MembersOf(s, r) + {} + {c});
  }

  lemma LogGrowsBy(log: seq<multiset<Delivery>>, phase: multiset<Delivery>, who: set<Xid>)
    requires AddressedTo(phase, who)
    ensures LogWithin(log, log + [phase], who)
  {}

  lemma SetUsersWithin(s: State, r: RoomId, c: Xid, users: map<Xid, User>)
    requires r in s.rooms && users.Keys <= s.rooms[r].users.Keys
    requires forall u :: u in users ==> users[u].addr == s.rooms[r].users[u].addr
    ensures Within(s, SetUsers(s, r, users), r, c, {}, {})
  {}

  lemma BanWithin(s: State, r: RoomId, c: Xid, addr: string)
    requires r in s.rooms
    ensures Within(s, Ban(s, r, addr), r, c, {}, {})
  {}

  lemma NamesOf(ids: set<Xid>)
    ensures forall name :: name in HostNames(ids) + ClientNames(ids) ==> NameId(name) in ids
  {
    forall name | name in HostNames(ids) + ClientNames(ids)
      ensures NameId(name) in ids
    {
      var id :| id in ids && (name == HostName(id) || name == ClientName(id));
      NameIdInverts(id);
    }
  }

  lemma CloseSessionsWithin(s: State, r: RoomId, c: Xid, ids: set<Xid>)
    requires r in s.rooms && ids <= s.rooms[r].sessions.Keys
    ensures Within(s, CloseSessions(s, r, ids), r, c, {}, {})
  {
    NamesOf(ids);
    assert TurnWithin(s.turn, CloseSessions(s, r, ids).turn, s.rooms[r].sessions.Keys);
  }

  lemma RemoveWithin(s: State, r: RoomId, c: Xid, x: Xid)
    requires r in s.rooms && x in s.rooms[r].users
    ensures Within(s, Remove(s, r, x), r, c, {}, {})
  {
    var closed := CloseSessions(s, r, Involving(s.rooms[r].sessions, x));
    CloseSessionsWithin(s, r, c, Involving(s.rooms[r].sessions, x));
    DropMemberWithin(closed, r, c, x);
    Composes(s, closed, Dropped(closed, r, x), r, c, {}, {});
    RemoveInTwo(s, r, x);
  }

  lemma DropMemberWithin(s: State, r: RoomId, c: Xid, x: Xid)
    requires r in s.rooms && x in s.rooms[r].users
    ensures Within(s, Dropped(s, r, x), r, c, {}, {})
  {}

  lemma CloseRoomWithin(s: State, r: RoomId, c: Xid)
    requires r in s.rooms
    ensures Within(s, CloseRoom(s, r), r, c, {}, {})
  {
    var closed := CloseSessions(s, r, s.rooms[r].sessions.Keys);
    CloseSessionsWithin(s, r, c, s.rooms[r].sessions.Keys);
    DropRoomWithin(closed, CloseRoom(s, r), r, c);
    Composes(s, closed, CloseRoom(s, r), r, c, {}, {});
  }

  lemma DropRoomWithin(s: State, t: State, r: RoomId, c: Xid)
    requires t.rooms == s.rooms - {r} && t.connected == s.connected && t.turn == s.turn && t.authMode == s.authMode
    requires t.seen == s.seen && t.issued == s.issued && t.log == s.log
    ensures Within(s, t, r, c, {}, {})
  {}

  lemma ForgetWithin(s: State, r: RoomId, c: Xid, who: set<Xid>)
    requires who <= MembersOf(s, r) + {c}
    ensures Within(s, s.(connected := s.connected - who), r, c, {}, {})
  {}

  lemma NotifyWithin(s: State, r: RoomId, c: Xid)
    requires r in s.rooms
    ensures Within(s, Notify(s, r), r, c, {}, {})
  {
    SayWithin(s, r, c, RosterPhase(s.rooms[r]));
  }

  lemma AddMemberWithin(s: State, r: RoomId, user: User)
    requires r in s.rooms
    ensures Within(s, AddMember(s, r, user), r, user.id, {user.id}, {})
  {}

  lemma OpenSessionWithin(s: State, r: RoomId, c: Xid, g: Grant)
    requires IdsOk(s) && r in s.rooms && g.host in s.rooms[r].users && g.client in s.rooms[r].users
    ensures Within(s, OpenSession(s, r, g), r, c, {}, {g.id})
  {
    NameIdInverts(g.id);
    var room := s.rooms[r];
    var who := MembersOf(s, r) + {} + {c};
    LogGrowsBy(s.log, multiset{HostNotice(room.mode, g)}, who);
    LogGrowsBy(s.log + [multiset{HostNotice(room.mode, g)}], multiset{ClientNotice(room.mode, g)}, who);
    LogWithinComposes(s.log, s.log + [multiset{HostNotice(room.mode, g)}], OpenSession(s, r, g).log, who, who);
    assert TurnWithin(s.turn, OpenSession(s, r, g).turn, s.rooms[r].sessions.Keys + {g.id});
  }

  lemma {:induction false} OpenSessionsWithin(s: State, r: RoomId, c: Xid, grants: seq<Grant>)
    requires IdsOk(s) && r in s.rooms
    requires forall i :: 0 <= i < |grants| ==> grants[i].host in s.rooms[r].users && grants[i].client in s.rooms[r].users
    ensures Within(s, OpenSessions(s, r, grants), r, c, {}, Ids(grants))
  {
    hide Within;
    if grants == [] {
      NothingWithin(s, r, c);
      assert Ids(grants) == {};
    } else {
      var before, last := grants[..|grants| - 1], grants[|grants| - 1];
      var t := OpenSessions(s, r, before);
      assert Ids(grants) == Ids(before) + {last.id};
      OpenSessionsWithin(s, r, c, before);
      Opened(s, r, before);
      OpenSessionWithin(t, r, c, last);
      Weaken(s, t, r, c, {}, Ids(before), {}, Ids(grants));
      Weaken(t, OpenSession(t, r, last), r, c, {}, {last.id}, {}, Ids(grants));
      Composes(s, t, OpenSession(t, r, last), r, c, {}, Ids(grants));
    }
  }

  // ---- Disconnecting ----

  lemma SettleWithin(s: State, r: RoomId, c: Xid, wasOwner: bool, heir: Xid)
    requires r in s.rooms
    ensures Within(s, Settle(s, r, wasOwner, heir), r, c, {}, {})
  {
    var users := s.rooms[r].users;
    if users == map[] {
      CloseRoomWithin(s, r, c);
    } else if wasOwner {
      var crowned := SetUsers(s, r, Crown(users, heir));
      SetUsersWithin(s, r, c, Crown(users, heir));
      NotifyWithin(crowned, r, c);
      Composes(s, crowned, Notify(crowned, r), r, c, {}, {});
    } else {
      NotifyWithin(s, r, c);
    }
  }

  lemma DisconnectWithin(s: State, c: Xid, code: int, reason: string, heir: Xid)
    ensures Within(s, Disconnect(s, c, code, reason, heir), Lookup(s, c), c, {}, {})
  {
    var r := Lookup(s, c);
    var told := Say(s, multiset{CloseNotice(c, code, reason)});
    SayWithin(s, r, c, multiset{CloseNotice(c, code, reason)});
    if !InRoom(s, c) {
      ForgetWithin(told, r, c, {c});
      Composes(s, told, told.(connected := s.connected - {c}), r, c, {}, {});
    } else {
      var room := s.rooms[r];
      var phase := EndShares(room.users - {c}, room.sessions, Involving(room.sessions, c), c);
      var gone := Remove(told, r, c);
      RemoveWithin(told, r, c, c);
      Composes(s, told, gone, r, c, {}, {});
      SayWithin(gone, r, c, phase);
      Composes(s, gone, Say(gone, phase), r, c, {}, {});
      SettleWithin(Say(gone, phase), r, c, room.users[c].owner, heir);
      Composes(s, Say(gone, phase), Disconnect(s, c, code, reason, heir), r, c, {}, {});
    }
  }

  // ---- Events inside a room ----

  lemma FlagsWithin(s: State, r: RoomId, c: Xid, users: map<Xid, User>, ids: set<Xid>)
    requires r in s.rooms && users.Keys <= s.rooms[r].users.Keys && ids <= s.rooms[r].sessions.Keys
    requires forall u :: u in users ==> users[u].addr == s.rooms[r].users[u].addr
    ensures Within(s, CloseSessions(SetUsers(s, r, users), r, ids), r, c, {}, {})
  {
    var changed := SetUsers(s, r, users);
    SetUsersWithin(s, r, c, users);
    CloseSessionsWithin(changed, r, c, ids);
    Composes(s, changed, CloseSessions(changed, r, ids), r, c, {}, {});
  }

  lemma ThenNotify(s: State, t: State, r: RoomId, c: Xid, added: set<Xid>, ids: set<Xid>)
    requires Within(s, t, r, c, added, ids) && added <= {c} && r in t.rooms
    ensures Within(s, Notify(t, r), r, c, added, ids)
  {
    NotifyWithin(t, r, c);
    Weaken(t, Notify(t, r), r, c, {}, {}, added, ids);
    Composes(s, t, Notify(t, r), r, c, added, ids);
  }

  lemma NameWithin(s: State, c: Xid, name: string)
    ensures Within(s, SetName(s, c, name).state, Lookup(s, c), c, {}, {})
  {
    NothingWithin(s, Lookup(s, c), c);
    if CurrentRoomError(s, c).None? && c in s.rooms[s.connected[c]].users {
      var r := s.connected[c];
      var users := s.rooms[r].users[c := s.rooms[r].users[c].(name := name)];
      SetUsersWithin(s, r, c, users);
      ThenNotify(s, SetUsers(s, r, users), r, c, {}, {});
    }
  }

  lemma StopShareWithin(s: State, c: Xid)
    ensures Within(s, EndSharing(s, c).state, Lookup(s, c), c, {}, {})
  {
    hide Within;
    NothingWithin(s, Lookup(s, c), c);
    if CurrentRoomError(s, c).None? && c in s.rooms[s.connected[c]].users {
      var r := s.connected[c];
      var room := s.rooms[r];
      var users := room.users[c := room.users[c].(streaming := false)];
      var ids := Hosted(room.sessions, c);
      var closed := CloseSessions(SetUsers(s, r, users), r, ids);
      var phase := EndShares(room.users, room.sessions, ids, c);
      FlagsWithin(s, r, c, users, ids);
      SayWithin(closed, r, c, phase);
      Composes(s, closed, Say(closed, phase), r, c, {}, {});
      ThenNotify(s, Say(closed, phase), r, c, {}, {});
    }
  }

  lemma ForwardWithin(s: State, c: Xid, kind: RelayKind, sid: Xid, value: string)
    ensures Within(s, Forward(s, c, kind, sid, value).state, Lookup(s, c), c, {}, {})
  {
    NothingWithin(s, Lookup(s, c), c);
    var t := Forward(s, c, kind, sid, value).state;
    if t != s {
      var session := s.rooms[s.connected[c]].sessions[sid];
      var receiver := if kind.OfferFromHost? || kind.IceFromHost? then session.client else session.host;
      SayWithin(s, Lookup(s, c), c, multiset{Delivery(receiver, Relay(kind, sid, value))});
    }
  }

  lemma PermitWithin(s: State, r: RoomId, c: Xid, todo: set<Xid>, on: bool, ids: set<Xid>)
    requires r in s.rooms && todo <= s.rooms[r].users.Keys && ids <= s.rooms[r].sessions.Keys
    ensures Within(s, Notify(CloseSessions(SetUsers(s, r, Permit(s.rooms[r].users, todo, on)), r, ids), r), r, c, {}, {})
  {
    var users := Permit(s.rooms[r].users, todo, on);
    FlagsWithin(s, r, c, users, ids);
    ThenNotify(s, CloseSessions(SetUsers(s, r, users), r, ids), r, c, {}, {});
  }

  lemma StopTargetWithin(s: State, r: RoomId, c: Xid, t: Xid)
    requires r in s.rooms && t in s.rooms[r].users
    ensures Within(s, StopTarget(s, r, t), r, c, {}, {})
  {
    var room := s.rooms[r];
    NothingWithin(s, r, c);
    if room.users[t].streaming {
      var users := room.users[t := room.users[t].(streaming := false)];
      FlagsWithin(s, r, c, users, Hosted(room.sessions, t));
      ThenNotify(s, CloseSessions(SetUsers(s, r, users), r, Hosted(room.sessions, t)), r, c, {}, {});
    }
  }

  lemma ToggleWithin(s: State, r: RoomId, c: Xid, t: Xid)
    requires r in s.rooms && t in s.rooms[r].users
    ensures Within(s, TogglePermission(s, r, t), r, c, {}, {})
  {
    var room := s.rooms[r];
    var user := room.users[t].(canShare := !room.users[t].canShare);
    if !user.canShare && user.streaming {
      var users := room.users[t := user.(streaming := false)];
      FlagsWithin(s, r, c, users, Hosted(room.sessions, t));
      ThenNotify(s, CloseSessions(SetUsers(s, r, users), r, Hosted(room.sessions, t)), r, c, {}, {});
    } else {
      SetUsersWithin(s, r, c, room.users[t := user]);
      ThenNotify(s, SetUsers(s, r, room.users[t := user]), r, c, {}, {});
    }
  }

  lemma ExpelWithin(s: State, r: RoomId, c: Xid, t: Xid, reason: string)
    requires r in s.rooms && t in s.rooms[r].users
    ensures Within(s, Expel(s, r, t, reason), r, c, {}, {})
  {
    var gone := Remove(s, r, t);
    var told := Say(gone, multiset{CloseNotice(t, CLOSE_NORMAL_CLOSURE, reason)});
    RemoveWithin(s, r, c, t);
    SayAfterWithin(s, gone, r, c, multiset{CloseNotice(t, CLOSE_NORMAL_CLOSURE, reason)});
    ThenNotify(s, told, r, c, {}, {});
  }

  /** A message to who was a member before. */
  lemma SayAfterWithin(s: State, t: State, r: RoomId, c: Xid, phase: multiset<Delivery>)
    requires Within(s, t, r, c, {}, {}) && AddressedTo(phase, MembersOf(s, r) + {c})
    ensures Within(s, Say(t, phase), r, c, {}, {})
  {
    LogGrowsBy(t.log, phase, MembersOf(s, r) + {} + {c});
    LogWithinComposes(s.log, t.log, t.log + [phase], MembersOf(s, r) + {} + {c}, MembersOf(s, r) + {} + {c});
  }

  lemma ActOnWithin(s: State, r: RoomId, c: Xid, action: string, t: Xid)
    requires r in s.rooms
    ensures Within(s, ActOn(s, r, c, action, t).state, r, c, {}, {})
  {
    var users := s.rooms[r].users;
    NothingWithin(s, r, c);
    if t in users && t != c {
      if action == "stop_share" {
        StopTargetWithin(s, r, c, t);
      } else if action == "toggle_share_permission" {
        ToggleWithin(s, r, c, t);
      } else if action == "kick" {
        ExpelWithin(s, r, c, t, "kickedByOwner");
      } else if action == "ban" {
        var banned := Ban(s, r, users[t].addr);
        BanWithin(s, r, c, users[t].addr);
        ExpelWithin(banned, r, c, t, "bannedByOwner");
        Composes(s, banned, Expel(banned, r, t, "bannedByOwner"), r, c, {}, {});
      }
    }
  }

  lemma GovernWithin(s: State, c: Xid, action: string, target: Target)
    ensures Within(s, Govern(s, c, action, target).state, Lookup(s, c), c, {}, {})
  {
    NothingWithin(s, Lookup(s, c), c);
    if CurrentRoomError(s, c).None? && c in s.rooms[s.connected[c]].users && s.rooms[s.connected[c]].users[c].owner {
      var r := s.connected[c];
      var room := s.rooms[r];
      if action == "enable_all" {
        EnableAllWithin(s, r, c);
      } else if action == "disable_all" {
        PermitWithin(s, r, c, room.users.Keys - {c}, false, HostedByOthers(room, c));
      } else if target.Target? {
        ActOnWithin(s, r, c, action, target.id);
      }
    }
  }

  lemma EnableAllWithin(s: State, r: RoomId, c: Xid)
    requires r in s.rooms
    ensures Within(s, Notify(SetUsers(s, r, Permit(s.rooms[r].users, s.rooms[r].users.Keys - {c}, true)), r), r, c, {}, {})
  {
    var users := Permit(s.rooms[r].users, s.rooms[r].users.Keys - {c}, true);
    SetUsersWithin(s, r, c, users);
    ThenNotify(s, SetUsers(s, r, users), r, c, {}, {});
  }

  lemma DissolveWithin(s: State, c: Xid)
    ensures Within(s, DissolveRoom(s, c).state, Lookup(s, c), c, {}, {})
  {
    hide Within, CloseRoom;
    var r := Lookup(s, c);
    NothingWithin(s, r, c);
    if DissolveRoom(s, c).verdict.Done? {
      var users := s.rooms[r].users;
      var told := Say(s, DissolvePhase(users));
      var forgotten := told.(connected := s.connected - users.Keys);
      SayWithin(s, r, c, DissolvePhase(users));
      ForgetWithin(told, r, c, users.Keys);
      Composes(s, told, forgotten, r, c, {}, {});
      CloseRoomWithin(forgotten, r, c);
      Composes(s, forgotten, CloseRoom(forgotten, r), r, c, {}, {});
    }
  }

  lemma PlainWithin(s: State, info: ClientInfo, e: Event, ch: Choice)
    requires Plain(e)
    ensures Within(s, Execute(s, info, e, ch).state, Lookup(s, info.id), info.id, {}, {})
  {
    hide Within;
    var c := info.id;
    match e
    case Disconnected(code, reason) => DisconnectWithin(s, c, code, reason, ch.heir);
    case Name(userName) => NameWithin(s, c, userName);
    case StopShare => StopShareWithin(s, c);
    case HostOffer(sid, value) => ForwardWithin(s, c, OfferFromHost, sid, value);
    case HostIce(sid, value) => ForwardWithin(s, c, IceFromHost, sid, value);
    case ClientAnswer(sid, value) => ForwardWithin(s, c, AnswerFromClient, sid, value);
    case ClientIce(sid, value) => ForwardWithin(s, c, IceFromClient, sid, value);
    case OwnerAction(action, target) => GovernWithin(s, c, action, target);
    case Exit => DisconnectWithin(s, c, CLOSE_NORMAL_CLOSURE, "User Left", ch.heir);
    case Dissolve => DissolveWithin(s, c);
  }

  // ---- Events that open sessions ----

  lemma ThenOpen(s: State, t: State, r: RoomId, c: Xid, added: set<Xid>, grants: seq<Grant>)
    requires Within(s, t, r, c, added, Ids(grants)) && added <= {c}
    requires IdsOk(t) && r in t.rooms && AllOpenable(t, r, grants)
    ensures Within(s, OpenSessions(t, r, grants), r, c, added, Ids(grants))
  {
    OpenSessionsWithin(t, r, c, grants);
    Weaken(t, OpenSessions(t, r, grants), r, c, {}, Ids(grants), added, Ids(grants));
    Composes(s, t, OpenSessions(t, r, grants), r, c, added, Ids(grants));
  }

  lemma ShareWithin(s: State, c: Xid, ch: Choice)
    requires Core(s)
    requires ch.ipOk && ShareError(s, c).None? ==>
               Covers(ch.grants, SharePairs(s.rooms[s.connected[c]].users, c), s.issued)
    ensures Within(s, StartShare(s, c, ch).state, Lookup(s, c), c, {}, Ids(ch.grants))
  {
    if ShareError(s, c).None? {
      MemberOfOwnRoom(s, c);
      StartedWithin(s, s.connected[c], c, ch);
    } else {
      NothingWithin(s, Lookup(s, c), c);
      Weaken(s, s, Lookup(s, c), c, {}, {}, {}, Ids(ch.grants));
    }
  }

  lemma StartedWithin(s: State, r: RoomId, c: Xid, ch: Choice)
    requires IdsOk(s) && r in s.rooms && r != UNNAMED && c in s.rooms[r].users
    requires ch.ipOk ==> Covers(ch.grants, SharePairs(s.rooms[r].users, c), s.issued)
    ensures var on := SetUsers(s, r, s.rooms[r].users[c := s.rooms[r].users[c].(streaming := true)]);
            && Within(s, on, r, c, {}, Ids(ch.grants))
            && (ch.ipOk ==> Within(s, Notify(OpenSessions(on, r, ch.grants), r), r, c, {}, Ids(ch.grants)))
  {
    hide Within;
    var users := s.rooms[r].users[c := s.rooms[r].users[c].(streaming := true)];
    var on := SetUsers(s, r, users);
    SetUsersWithin(s, r, c, users);
    Weaken(s, on, r, c, {}, {}, {}, Ids(ch.grants));
    if ch.ipOk {
      ShareGrants(s, r, c, users, ch.grants);
      ThenOpen(s, on, r, c, {}, ch.grants);
      ThenNotify(s, OpenSessions(on, r, ch.grants), r, c, {}, Ids(ch.grants));
    }
  }

  lemma JoinWithin(s: State, info: ClientInfo, r: RoomId, userName: string, ch: Choice)
    requires IdsOk(s) && RoomsInv(s.rooms) && JoinError(s, info, r).None?
    requires ch.ipOk ==> Covers(ch.grants, JoinPairs(s.rooms[r].users, info.id), s.issued)
    ensures Within(s, JoinRoom(s, info, r, userName, ch).state, r, info.id, {info.id}, Ids(ch.grants))
  {
    var user := NewUser(info, DisplayName(info, userName, ch.randomName), false);
    var joined := Notify(AddMember(s, r, user), r);
    JoinedWithin(s, r, user, Ids(ch.grants));
    if ch.ipOk {
      JoinGrants(s, r, info, user, ch.grants);
      ThenOpen(s, joined, r, info.id, {info.id}, ch.grants);
    }
  }

  lemma JoinedWithin(s: State, r: RoomId, user: User, ids: set<Xid>)
    requires IdsOk(s) && r in s.rooms
    ensures Within(s, Notify(AddMember(s, r, user), r), r, user.id, {user.id}, ids)
    ensures IdsOk(Notify(AddMember(s, r, user), r))
  {
    var added := AddMember(s, r, user);
    AddMemberWithin(s, r, user);
    Weaken(s, added, r, user.id, {user.id}, {}, {user.id}, ids);
    ThenNotify(s, added, r, user.id, {user.id}, ids);
  }

  // ---- One iteration of the loop ----

  /** The room a message is about. */
  function TargetRoom(s: State, m: ClientMessage): RoomId {
    if Lookup(s, m.info.id) != UNNAMED then Lookup(s, m.info.id)
    else if m.incoming.Join? || m.incoming.Create? then m.incoming.id
    else UNNAMED
  }

  function Entrant(s: State, m: ClientMessage): set<Xid> { if Enters(s, m) then {m.info.id} else {} }

  lemma ForgottenWithin(s: State, r: RoomId, c: Xid, code: int, reason: string, heir: Xid)
    requires Lookup(s, c) == UNNAMED
    ensures Within(s, Disconnect(s, c, code, reason, heir), r, c, {}, {})
  {
    var told := Say(s, multiset{CloseNotice(c, code, reason)});
    SayWithin(s, r, c, multiset{CloseNotice(c, code, reason)});
    ForgetWithin(told, r, c, {c});
    Composes(s, told, told.(connected := s.connected - {c}), r, c, {}, {});
  }

  lemma ThenDisconnect(s: State, t: State, r: RoomId, c: Xid, added: set<Xid>, ids: set<Xid>, heir: Xid)
    requires Within(s, t, r, c, added, ids) && added <= {c} && Lookup(t, c) == r
    ensures Within(s, Disconnect(t, c, CLOSE_NORMAL_CLOSURE, PROVIDER_ERROR, heir), r, c, added, ids)
  {
    var u := Disconnect(t, c, CLOSE_NORMAL_CLOSURE, PROVIDER_ERROR, heir);
    DisconnectWithin(t, c, CLOSE_NORMAL_CLOSURE, PROVIDER_ERROR, heir);
    Weaken(t, u, r, c, {}, {}, added, ids);
    Composes(s, t, u, r, c, added, ids);
  }

  lemma EnabledGrants(s: State, m: ClientMessage, ch: Choice)
    requires Enabled(s, m, ch) && ch.ipOk
    ensures Enters(s, m) ==> Covers(ch.grants, JoinPairs(s.rooms[m.incoming.id].users, m.info.id), s.issued)
    ensures m.incoming.Share? && ShareError(s, m.info.id).None? ==>
              Covers(ch.grants, SharePairs(s.rooms[s.connected[m.info.id]].users, m.info.id), s.issued)
  {}

  lemma EnteringWithin(s: State, m: ClientMessage, ch: Choice)
    requires IdsOk(s) && RoomsInv(s.rooms) && Enabled(s, m, ch) && Enters(s, m)
    ensures Within(s, Apply(s, m, ch), m.incoming.id, m.info.id, {m.info.id}, Ids(ch.grants))
  {
    hide Within, RoomsInv;
    var c, r := m.info.id, m.incoming.id;
    if ch.ipOk {
      EnabledGrants(s, m, ch);
      JoinWithin(s, m.info, r, m.incoming.userName, ch);
    } else {
      LateJoinState(s, m, ch);
      EnteringLateWithin(s, r, Newcomer(m.info, m.incoming, ch), Ids(ch.grants), ch.heir);
    }
  }

  lemma EnteringLateWithin(s: State, r: RoomId, user: User, ids: set<Xid>, heir: Xid)
    requires IdsOk(s) && r in s.rooms
    ensures var joined := Notify(AddMember(s, r, user), r);
            Within(s, Disconnect(joined, user.id, CLOSE_NORMAL_CLOSURE, PROVIDER_ERROR, heir), r, user.id, {user.id}, ids)
  {
    var joined := Notify(AddMember(s, r, user), r);
    JoinedWithin(s, r, user, ids);
    assert Lookup(joined, user.id) == r;
    ThenDisconnect(s, joined, r, user.id, {user.id}, ids, heir);
  }

  lemma SharingWithin(s: State, m: ClientMessage, ch: Choice)
    requires Core(s) && Enabled(s, m, ch) && Accepted(s, m) && m.incoming.Share?
    requires ShareError(s, m.info.id).None?
    ensures Within(s, Apply(s, m, ch), Lookup(s, m.info.id), m.info.id, {}, Ids(ch.grants))
  {
    var c, r := m.info.id, Lookup(s, m.info.id);
    ShareStarts(s, c);
    if ch.ipOk {
      EnabledGrants(s, m, ch);
      ShareWithin(s, c, ch);
      SharedState(s, m, ch);
    } else {
      LateShareState(s, m, ch);
      SharingLateWithin(s, r, c, ch);
    }
  }

  lemma ShareStarts(s: State, c: Xid)
    requires IdsOk(s) && MembershipOk(s) && ShareError(s, c).None?
    ensures InRoom(s, c) && s.connected[c] == Lookup(s, c)
  {
    MemberOfOwnRoom(s, c);
  }

  lemma SharedState(s: State, m: ClientMessage, ch: Choice)
    requires Accepted(s, m) && m.incoming.Share? && ShareError(s, m.info.id).None? && InRoom(s, m.info.id) && ch.ipOk
    ensures Apply(s, m, ch) == StartShare(s, m.info.id, ch).state
  {}

  lemma SharingLateWithin(s: State, r: RoomId, c: Xid, ch: Choice)
    requires IdsOk(s) && InRoom(s, c) && Lookup(s, c) == r && !ch.ipOk
    ensures var on := SetUsers(s, r, s.rooms[r].users[c := s.rooms[r].users[c].(streaming := true)]);
            Within(s, Disconnect(on, c, CLOSE_NORMAL_CLOSURE, PROVIDER_ERROR, ch.heir), r, c, {}, Ids(ch.grants))
  {
    var on := SetUsers(s, r, s.rooms[r].users[c := s.rooms[r].users[c].(streaming := true)]);
    StartedWithin(s, r, c, ch);
    ThenDisconnect(s, on, r, c, {}, Ids(ch.grants), ch.heir);
  }

  lemma FailingWithin(s: State, m: ClientMessage, ch: Choice)
    requires Core(s) && Accepted(s, m) && Execute(s, m.info, m.incoming, ch).verdict.Failed?
    requires !LateJoinFailure(s, m.info, m.incoming, ch) && !LateShareFailure(s, m.info, m.incoming, ch)
    ensures Within(s, Apply(s, m, ch), TargetRoom(s, m), m.info.id, {}, {})
  {
    var c, why := m.info.id, Execute(s, m.info, m.incoming, ch).verdict.reason;
    OtherFailuresChangeNothing(s, m, ch);
    if Lookup(s, c) == UNNAMED {
      ForgottenWithin(s, TargetRoom(s, m), c, CLOSE_NORMAL_CLOSURE, why, ch.heir);
    } else {
      DisconnectWithin(s, c, CLOSE_NORMAL_CLOSURE, why, ch.heir);
    }
  }

  lemma PlainStepWithin(s: State, m: ClientMessage, ch: Choice)
    requires Core(s) && Accepted(s, m) && Plain(m.incoming)
    ensures Within(s, Apply(s, m, ch), TargetRoom(s, m), m.info.id, {}, {})
  {
    NeverPanics(s, m, ch);
    if Execute(s, m.info, m.incoming, ch).verdict.Failed? {
      FailingWithin(s, m, ch);
    } else {
      PlainWithin(s, m.info, m.incoming, ch);
    }
  }

  lemma StepWithin(s: State, m: ClientMessage, ch: Choice)
    requires Inv(s) && Enabled(s, m, ch) && !m.incoming.Connected? && !Founds(s, m)
    ensures Within(s, Apply(s, m, ch), TargetRoom(s, m), m.info.id, Entrant(s, m), Ids(ch.grants))
  {
    var c, r := m.info.id, TargetRoom(s, m);
    if !Accepted(s, m) {
      NothingWithin(s, r, c);
      Weaken(s, s, r, c, {}, {}, Entrant(s, m), Ids(ch.grants));
    } else if Enters(s, m) {
      EnteringWithin(s, m, ch);
    } else if m.incoming.Share? && ShareError(s, c).None? {
      SharingWithin(s, m, ch);
      MemberOfOwnRoom(s, c);
    } else {
      if Plain(m.incoming) {
        PlainStepWithin(s, m, ch);
      } else {
        RefusedStepFails(s, m, ch);
        FailingWithin(s, m, ch);
      }
      Weaken(s, Apply(s, m, ch), r, c, {}, {}, Entrant(s, m), Ids(ch.grants));
    }
  }

  lemma RefusedStepFails(s: State, m: ClientMessage, ch: Choice)
    requires m.info.id in s.connected && !Plain(m.incoming) && !m.incoming.Connected?
    requires !Founds(s, m) && !Enters(s, m) && (m.incoming.Share? ==> ShareError(s, m.info.id).Some?)
    ensures Execute(s, m.info, m.incoming, ch).verdict.Failed?
    ensures !LateJoinFailure(s, m.info, m.incoming, ch) && !LateShareFailure(s, m.info, m.incoming, ch)
  {}

  /** Founding a room: the room, its founder's connection, one roster to the founder, and nothing else. */
  lemma FoundingStep(s: State, m: ClientMessage, ch: Choice)
    requires Founds(s, m)
    ensures var t := Apply(s, m, ch);
            var room := NewRoom(m.info, m.incoming, ch);
            && t.rooms == s.rooms[m.incoming.id := room]
            && t.connected == s.connected[m.info.id := m.incoming.id]
            && t.turn == s.turn && t.issued == s.issued && t.seen == s.seen && t.rejoined == s.rejoined
            && t.log == s.log + [multiset{RosterFor(room, m.info.id)}]
  {
    var room := NewRoom(m.info, m.incoming, ch);
    assert (set c | c in room.users :: RosterFor(room, c)) == {RosterFor(room, m.info.id)};
    assert RosterPhase(room) == multiset{RosterFor(room, m.info.id)};
  }
}
