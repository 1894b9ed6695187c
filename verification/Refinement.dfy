/** What one more round of a loop adds, for the loops of Server.dfy. */
module Refinement {
  import opened Types
  import opened Rules
  import opened RoomModel
  import opened Invariant
  import opened Events
  import opened Safety
  import opened Shape
  import opened Notices
  import opened Frame

  lemma OneMoreRoster(room: Room, todo: set<Xid>, c: Xid)
    requires c in todo && c in room.users
    ensures multiset(set d | d in room.users && d !in todo :: RosterFor(room, d)) + multiset{RosterFor(room, c)}
            == multiset(set d | d in room.users && d !in todo - {c} :: RosterFor(room, d))
  {
    var before := set d | d in room.users && d !in todo :: RosterFor(room, d);
    assert RosterFor(room, c) !in before;
    assert (set d | d in room.users && d !in todo - {c} :: RosterFor(room, d)) == before + {RosterFor(room, c)};
  }

  // ---- Unique identifiers ----

  function Tally(n: nat): Xid { Xid(seq(n, _ => 'a')) }

  lemma {:induction false} Tallies(n: nat)
    ensures |set k: nat | k < n :: Tally(k)| == n
  {
    if n > 0 {
      Tallies(n - 1);
      var fewer := set k: nat | k < n - 1 :: Tally(k);
      assert forall k: nat | k < n - 1 :: |Tally(k).text| == k;
      assert (set k: nat | k < n :: Tally(k)) == fewer + {Tally(n - 1)};
    }
  }

  lemma FreshXid(used: set<Xid>)
    ensures exists id: Xid :: id !in used
  {
    var n := |used| + 1;
    var tallies := set k: nat | k < n :: Tally(k);
    Tallies(n);
    SubsetSize(tallies, used);
    var id :| id in tallies && id !in used;
  }

  lemma SubsetSize(a: set<Xid>, b: set<Xid>)
    ensures a <= b ==> |a| <= |b|
  {
    if a <= b {
      assert b == a + (b - a);
    }
  }

  lemma OneName(id: Xid)
    ensures HostNames({id}) == {HostName(id)} && ClientNames({id}) == {ClientName(id)}
  {}

  // ---- Closing sessions one by one ----

  lemma CloseNone(s: State, r: RoomId)
    requires r in s.rooms
    ensures CloseSessions(s, r, {}) == s
  {
    var room := s.rooms[r];
    assert room.sessions - {} == room.sessions;
    assert s.rooms[r := room] == s.rooms;
    assert s.turn - HostNames({}) - ClientNames({}) == s.turn;
  }

  lemma CloseMore(s: State, r: RoomId, done: set<Xid>, ids: set<Xid>)
    requires r in s.rooms && ids !! done
    ensures CloseSessions(CloseSessions(s, r, done), r, ids) == CloseSessions(s, r, done + ids)
  {
    var room := s.rooms[r];
    assert room.sessions - done - ids == room.sessions - (done + ids);
    assert HostNames(done + ids) == HostNames(done) + HostNames(ids);
    assert ClientNames(done + ids) == ClientNames(done) + ClientNames(ids);
    assert s.turn - HostNames(done) - ClientNames(done) - HostNames(ids) - ClientNames(ids)
        == s.turn - HostNames(done + ids) - ClientNames(done + ids);
    assert s.rooms[r := room.(sessions := room.sessions - done)][r := room.(sessions := room.sessions - (done + ids))]
        == s.rooms[r := room.(sessions := room.sessions - (done + ids))];
  }

  lemma CloseKeeps(s: State, r: RoomId, ids: set<Xid>)
    requires r in s.rooms
    ensures r in CloseSessions(s, r, ids).rooms
  {}

  /** Closing a room, with the counters moved one after the other. */
  lemma CloseRoomInSteps(s: State, r: RoomId)
    requires r in s.rooms
    ensures var counted := s.(metrics := s.metrics.(usersLeft := s.metrics.usersLeft + |s.rooms[r].users|));
            var closed := CloseSessions(counted, r, s.rooms[r].sessions.Keys);
            CloseRoom(s, r) == closed.(rooms := closed.rooms - {r},
                                       metrics := closed.metrics.(roomsClosed := closed.metrics.roomsClosed + 1))
  {}

  /** Removing a member, with its departure counted last. */
  lemma ExpelInSteps(s: State, r: RoomId, t: Xid, reason: string)
    requires r in s.rooms
    ensures var gone := SetUsers(s.(connected := s.connected - {t}), r, s.rooms[r].users - {t});
            var closed := CloseSessions(gone, r, Involving(s.rooms[r].sessions, t));
            && r in closed.rooms
            && var told := Notify(Say(closed, multiset{CloseNotice(t, CLOSE_NORMAL_CLOSURE, reason)}), r);
               Expel(s, r, t, reason) == told.(metrics := told.metrics.(usersLeft := told.metrics.usersLeft + 1))
  {}

  lemma EndNone(users: map<Xid, User>, sessions: map<Xid, Session>, c: Xid)
    ensures EndShares(users, sessions, {}, c) == multiset{}
  {}

  lemma EndOneMore(users: map<Xid, User>, sessions: map<Xid, Session>, done: set<Xid>, c: Xid, id: Xid)
    requires id in sessions && id !in done
    ensures EndShares(users, sessions, done + {id}, c)
            == EndShares(users, sessions, done, c)
               + if Peer(sessions[id], c) in users then multiset{Delivery(Peer(sessions[id], c), EndShare(id))} else multiset{}
  {
    var before := set k | k in done && k in sessions && Peer(sessions[k], c) in users
                        :: Delivery(Peer(sessions[k], c), EndShare(k));
    var after := set k | k in done + {id} && k in sessions && Peer(sessions[k], c) in users
                       :: Delivery(Peer(sessions[k], c), EndShare(k));
    var notice := Delivery(Peer(sessions[id], c), EndShare(id));
    assert notice !in before;
    assert after == if Peer(sessions[id], c) in users then before + {notice} else before;
  }

  /** Only who is there matters, not their flags. */
  lemma EndSharesOfMembers(users: map<Xid, User>, users': map<Xid, User>, sessions: map<Xid, Session>, ids: set<Xid>, c: Xid)
    requires users.Keys == users'.Keys
    ensures EndShares(users, sessions, ids, c) == EndShares(users', sessions, ids, c)
  {
    assert (set id | id in ids && id in sessions && Peer(sessions[id], c) in users
                   :: Delivery(Peer(sessions[id], c), EndShare(id)))
        == (set id | id in ids && id in sessions && Peer(sessions[id], c) in users'
                   :: Delivery(Peer(sessions[id], c), EndShare(id)));
  }

  // ---- Setting flags one by one ----

  lemma SetTwice(s: State, r: RoomId, users: map<Xid, User>, users': map<Xid, User>)
    requires r in s.rooms
    ensures SetUsers(SetUsers(s, r, users), r, users') == SetUsers(s, r, users')
  {}

  lemma SetSame(s: State, r: RoomId)
    requires r in s.rooms
    ensures SetUsers(s, r, s.rooms[r].users) == s
  {
    assert s.rooms[r := s.rooms[r].(users := s.rooms[r].users)] == s.rooms;
  }

  lemma SetAfterClose(s: State, r: RoomId, ids: set<Xid>, users: map<Xid, User>)
    requires r in s.rooms
    ensures SetUsers(CloseSessions(s, r, ids), r, users) == CloseSessions(SetUsers(s, r, users), r, ids)
  {
    var room := s.rooms[r];
    var closed := room.(sessions := room.sessions - ids);
    assert s.rooms[r := closed][r := closed.(users := users)] == s.rooms[r := closed.(users := users)];
    assert s.rooms[r := room.(users := users)][r := closed.(users := users)] == s.rooms[r := closed.(users := users)];
  }

  lemma PermitNone(users: map<Xid, User>, on: bool)
    ensures Permit(users, {}, on) == users
  {}

  lemma PermitOneMore(users: map<Xid, User>, done: set<Xid>, u: Xid, on: bool)
    requires done <= users.Keys && u in users && u !in done
    ensures Permit(users, done + {u}, on) == Permit(users, done, on)[u := Permitted(users[u], on)]
  {}

  lemma PermitKeeps(users: map<Xid, User>, done: set<Xid>, u: Xid, on: bool)
    requires done <= users.Keys && u in users && u !in done
    ensures u in Permit(users, done, on) && Permit(users, done, on)[u] == users[u]
  {}

  /** Taking the permission first, and the stream if there is one. */
  lemma DisableFlags(users: map<Xid, User>, done: set<Xid>, u: Xid)
    requires done <= users.Keys && u in users && u !in done
    ensures var before, after := Permit(users, done, false), Permit(users, done + {u}, false);
            && u in before && before[u] == users[u]
            && var user := users[u].(canShare := false);
               if user.streaming then before[u := user][u := user.(streaming := false)] == after
               else before[u := user] == after
  {
    PermitOneMore(users, done, u, false);
    PermitKeeps(users, done, u, false);
    assert Permit(users, done, false)[u := users[u].(canShare := false)][u := Permitted(users[u], false)]
        == Permit(users, done, false)[u := Permitted(users[u], false)];
  }

  /** The members in `done` have lost the permission, and their streams are closed. */
  ghost function Disabled(s: State, r: RoomId, done: set<Xid>): State
    requires r in s.rooms && done <= s.rooms[r].users.Keys
  {
    var room := s.rooms[r];
    CloseSessions(SetUsers(s, r, Permit(room.users, done, false)), r, Silenced(room.users, room.sessions, done))
  }

  lemma DisabledNone(s: State, r: RoomId)
    requires r in s.rooms
    ensures Disabled(s, r, {}) == s && Permit(s.rooms[r].users, {}, false) == s.rooms[r].users
    ensures s.rooms[r].sessions - Silenced(s.rooms[r].users, s.rooms[r].sessions, {}) == s.rooms[r].sessions
  {
    PermitNone(s.rooms[r].users, false);
    SetSame(s, r);
    CloseNone(s, r);
    assert Silenced(s.rooms[r].users, s.rooms[r].sessions, {}) == {};
  }

  /** One more member, first its flags, then its sessions. */
  lemma DisabledOneMore(s: State, r: RoomId, done: set<Xid>, u: Xid)
    requires r in s.rooms && done <= s.rooms[r].users.Keys && u in s.rooms[r].users && u !in done
    ensures var room := s.rooms[r];
            var before := Disabled(s, r, done);
            var flagged := SetUsers(before, r, Permit(room.users, done + {u}, false));
            Disabled(s, r, done + {u})
            == if room.users[u].streaming then CloseSessions(flagged, r, Hosted(room.sessions, u)) else flagged
  {
    hide CloseSessions, Permit, Silenced;
    var room := s.rooms[r];
    var users, gone := Permit(room.users, done, false), Silenced(room.users, room.sessions, done);
    var users' := Permit(room.users, done + {u}, false);
    SetAfterClose(SetUsers(s, r, users), r, gone, users');
    SetTwice(s, r, users, users');
    SilenceOneMore(room.users, room.sessions, done, u);
    CloseMore(SetUsers(s, r, users'), r, gone, Hosted(room.sessions, u));
    assert gone + {} == gone;
  }

  /** The sessions that go when the members in `done` lose the permission. */
  function Silenced(users: map<Xid, User>, sessions: map<Xid, Session>, done: set<Xid>): set<Xid> {
    set id | id in sessions && sessions[id].host in done && sessions[id].host in users && users[sessions[id].host].streaming
  }

  lemma SilencedOthers(room: Room, c: Xid)
    ensures Silenced(room.users, room.sessions, room.users.Keys - {c}) == HostedByOthers(room, c)
  {}

  lemma SilenceOneMore(users: map<Xid, User>, sessions: map<Xid, Session>, done: set<Xid>, u: Xid)
    requires u in users && u !in done
    ensures Silenced(users, sessions, done + {u})
            == Silenced(users, sessions, done) + if users[u].streaming then Hosted(sessions, u) else {}
    ensures Hosted(sessions - Silenced(users, sessions, done), u) == Hosted(sessions, u)
    ensures Hosted(sessions, u) !! Silenced(users, sessions, done)
  {}

  // ---- Opening sessions one by one ----

  lemma OpenNone(s: State, r: RoomId)
    requires r in s.rooms
    ensures OpenSessions(s, r, []) == s
  {}

  lemma CoverNone(issued: map<Xid, Issue>)
    ensures Covers([], {}, issued)
  {}

  /** The pairs a join opens sessions for. */
  function JoinGrantPairs(s: State, info: ClientInfo, id: RoomId, ch: Choice): set<Session> {
    if ch.ipOk && JoinError(s, info, id).None? then JoinPairs(s.rooms[id].users, info.id) else {}
  }

  function CreateGrantPairs(s: State, info: ClientInfo, e: Event, ch: Choice): set<Session>
    requires e.Create?
  {
    if e.id in s.rooms && e.joinIfExist then JoinGrantPairs(s, info, e.id, ch) else {}
  }

  function ShareGrantPairs(s: State, c: Xid, ch: Choice): set<Session> {
    if ch.ipOk && ShareError(s, c).None? then SharePairs(s.rooms[s.connected[c]].users, c) else {}
  }

  lemma OpenOneMore(s: State, r: RoomId, grants: seq<Grant>, g: Grant)
    requires r in s.rooms
    ensures OpenSession(OpenSessions(s, r, grants), r, g) == OpenSessions(s, r, grants + [g])
  {
    assert (grants + [g])[..|grants|] == grants;
  }

  lemma CoverOneMore(grants: seq<Grant>, pairs: set<Session>, issued: map<Xid, Issue>, g: Grant)
    requires Covers(grants, pairs, issued)
    requires g.id !in issued && (forall i :: 0 <= i < |grants| ==> grants[i].id != g.id) && PairOf(g) !in pairs
    ensures Covers(grants + [g], pairs + {PairOf(g)}, issued)
  {
    var more := grants + [g];
    forall p | p in pairs + {PairOf(g)}
      ensures exists i :: 0 <= i < |more| && PairOf(more[i]) == p
    {
      if p == PairOf(g) {
        assert PairOf(more[|grants|]) == p;
      } else {
        var i :| 0 <= i < |grants| && PairOf(grants[i]) == p;
        assert PairOf(more[i]) == p;
      }
    }
  }

  lemma JoinPairsOfNew(users: map<Xid, User>, c: Xid, user: User)
    ensures JoinPairs(users[c := user], c) == JoinPairs(users, c)
  {
    assert forall u :: u in users && u != c ==> users[c := user][u] == users[u];
  }

  lemma SharePairsOfMembers(users: map<Xid, User>, users': map<Xid, User>, c: Xid)
    requires users.Keys == users'.Keys
    ensures SharePairs(users, c) == SharePairs(users', c)
  {}

  // ---- Dissolving ----

  lemma OneMoreGoodbye(users: map<Xid, User>, todo: set<Xid>, c: Xid)
    requires c in todo && c in users
    ensures GoodbyesBefore(users, todo) + multiset{CloseNotice(c, CLOSE_NORMAL_CLOSURE, "Room Dissolved")}
            == GoodbyesBefore(users, todo - {c})
  {
    var before := set d | d in users && d !in todo :: CloseNotice(d, CLOSE_NORMAL_CLOSURE, "Room Dissolved");
    var notice := CloseNotice(c, CLOSE_NORMAL_CLOSURE, "Room Dissolved");
    assert notice !in before;
    assert (set d | d in users && d !in todo - {c} :: CloseNotice(d, CLOSE_NORMAL_CLOSURE, "Room Dissolved"))
        == before + {notice};
  }

  lemma AllGoodbyes(users: map<Xid, User>)
    ensures GoodbyesBefore(users, {}) == DissolvePhase(users)
  {
    assert (set c | c in users && c !in {} :: CloseNotice(c, CLOSE_NORMAL_CLOSURE, "Room Dissolved"))
        == (set c | c in users :: CloseNotice(c, CLOSE_NORMAL_CLOSURE, "Room Dissolved"));
  }

  /** What the members not in `todo` are sent when their room is dissolved. */
  function GoodbyesBefore(users: map<Xid, User>, todo: set<Xid>): multiset<Delivery> {
    multiset(set c | c in users && c !in todo :: CloseNotice(c, CLOSE_NORMAL_CLOSURE, "Room Dissolved"))
  }

  // ---- Choices ----

  /** Events that need no choice. */
  predicate IsPlain(e: Event) {
    !e.Disconnected? && !e.Exit? && !e.Create? && !e.Join? && !e.Share?
  }

  ghost function AnyHeir(s: State, c: Xid): (heir: Xid)
    ensures Heirs(s, c) != {} ==> heir in Heirs(s, c)
  {
    if Heirs(s, c) == {} then c
    else
      var heir :| heir in Heirs(s, c); heir
  }

  lemma PlainNeverPanics(s: State, info: ClientInfo, e: Event)
    requires Core(s)
    ensures e.Name? ==> !SetName(s, info.id, e.userName).verdict.Panicked?
    ensures e.StopShare? ==> !EndSharing(s, info.id).verdict.Panicked?
    ensures IsForward(e) ==> !Forward(s, info.id, RelayKindOf(e), e.sid, e.value).verdict.Panicked?
  {
    hide Core, SetName, EndSharing, Forward;
    NeverPanics(s, ClientMessage(info, false, e), Choice(false, info.id, "", []));
  }

  lemma CoreMembers(s: State, c: Xid)
    requires Core(s)
    ensures CurrentRoomError(s, c).None? ==> InRoom(s, c)
  {
    MemberOfOwnRoom(s, c);
  }

  lemma PairsByEvent(s: State, info: ClientInfo, e: Event, ch: Choice)
    ensures PairsToOpen(s, info, e, ch)
            == if e.Join? then JoinGrantPairs(s, info, e.id, ch)
               else if e.Create? then CreateGrantPairs(s, info, e, ch)
               else if e.Share? then ShareGrantPairs(s, info.id, ch)
               else {}
  {}

  /** The heir matters only to those who leave. */
  lemma HeirPlaysNoPart(s: State, info: ClientInfo, e: Event, ch: Choice, heir: Xid)
    requires !e.Disconnected? && !e.Exit?
    ensures Execute(s, info, e, ch.(heir := heir)) == Execute(s, info, e, ch)
    ensures PairsToOpen(s, info, e, ch.(heir := heir)) == PairsToOpen(s, info, e, ch)
  {}

  /** Who could inherit is not changed by an event that fails. */
  lemma FailureKeepsHeirs(s: State, m: ClientMessage, ch: Choice)
    requires Core(s) && Execute(s, m.info, m.incoming, ch).verdict.Failed?
    ensures !m.incoming.Disconnected? && !m.incoming.Exit?
    ensures Heirs(s, m.info.id) == {} || Heirs(Execute(s, m.info, m.incoming, ch).state, m.info.id) == Heirs(s, m.info.id)
  {
    hide Core, Govern, Forward, DissolveRoom, SetName, EndSharing, CreateRoom, JoinRoom, Disconnect;
    if !LateJoinFailure(s, m.info, m.incoming, ch) {
      if LateShareFailure(s, m.info, m.incoming, ch) {
        LateShareOutcome(s, m.info.id, ch);
      } else {
        OtherFailuresChangeNothing(s, m, ch);
      }
    }
  }

  // ---- The loop ----

  /** `Connected` is the one message that skips the check, and comes once per client. */
  ghost predicate WellSent(incoming: seq<ClientMessage>) {
    && (forall k :: 0 <= k < |incoming| ==> (incoming[k].skipConnectedCheck <==> incoming[k].incoming.Connected?))
    && (forall k :: 0 <= k < |incoming| && incoming[k].incoming.Connected? ==>
          incoming[k].info.id !in ConnectedBefore(incoming, k))
  }

  function ConnectedBefore(incoming: seq<ClientMessage>, k: nat): set<Xid>
    requires k <= |incoming|
  {
    set j | 0 <= j < k && incoming[j].incoming.Connected? :: incoming[j].info.id
  }

  lemma NobodySeen(authMode: string)
    ensures Initial(authMode).seen == {}
  {}

  lemma SeenByStep(s: State, m: ClientMessage, ch: Choice)
    requires Inv(s) && Enabled(s, m, ch)
    ensures Apply(s, m, ch).seen == s.seen + if m.incoming.Connected? then {m.info.id} else {}
  {
    hide IdsOk, MembershipOk, SessionsOk, TurnOk, LogOk, MetricsOk, RoomsInv, Covers;
    if Founds(s, m) {
      FoundingStep(s, m, ch);
    } else if !m.incoming.Connected? {
      StepWithin(s, m, ch);
    }
  }
}
