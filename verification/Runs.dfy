/** Whole runs of the event loop: any messages, any choices, any length. */
module Runs {
  import opened Types
  import opened Rules
  import opened RoomModel
  import opened Invariant
  import opened Elementary
  import opened Shape
  import opened Safety
  import opened Frame
  import opened Properties
  import opened Notices
  import opened Unnamed
  import opened Books

  // ---- Induction over runs ----

  /** Each state follows from the one before. */
  ghost predicate Chain<S(!new), X(!new)>(states: seq<S>, steps: seq<X>, next: (S, X, S) -> bool) {
    && |states| == |steps| + 1
    && (forall k :: 0 <= k < |steps| ==> next(states[k], steps[k], states[k + 1]))
  }

  ghost predicate Preserves<S(!new), X(!new)>(next: (S, X, S) -> bool, p: S -> bool) {
    forall s, x, t :: p(s) && next(s, x, t) ==> p(t)
  }

  /** What every step preserves holds from where it first holds. */
  lemma {:induction false} Always<S(!new), X(!new)>(states: seq<S>, steps: seq<X>, next: (S, X, S) -> bool,
                                                    p: S -> bool, i: nat, j: nat)
    requires Chain(states, steps, next) && Preserves(next, p)
    requires i <= j < |states| && p(states[i])
    ensures p(states[j])
  {
    if i < j {
      Always(states, steps, next, p, i, j - 1);
      assert next(states[j - 1], steps[j - 1], states[j]);
    }
  }

  // ---- Runs of the loop ----

  datatype Step = Step(message: ClientMessage, choice: Choice)

  ghost predicate Follows(s: State, step: Step, t: State) {
    Enabled(s, step.message, step.choice) && t == Apply(s, step.message, step.choice)
  }

  /** `states[k + 1]` is what iteration `k` of the loop makes of `states[k]`. */
  ghost predicate IsRun(states: seq<State>, steps: seq<Step>) {
    && Chain(states, steps, Follows)
    && states[0] == Initial(states[0].authMode)
  }

  lemma RunExtends(states: seq<State>, steps: seq<Step>, step: Step, t: State)
    requires IsRun(states, steps) && Follows(states[|states| - 1], step, t)
    ensures IsRun(states + [t], steps + [step])
  {
    var states', steps' := states + [t], steps + [step];
    forall k | 0 <= k < |steps'|
      ensures Follows(states'[k], steps'[k], states'[k + 1])
    {
      if k == |steps| {
        assert states'[k] == states[|states| - 1];
      } else {
        assert Follows(states[k], steps[k], states[k + 1]);
      }
    }
  }

  // ---- The invariant, and no panic ----

  lemma InvPreserved()
    ensures Preserves(Follows, (s: State) => Inv(s))
  {
    forall s: State, x: Step, t: State | Inv(s) && Follows(s, x, t)
      ensures Inv(t)
    {
      StepKeepsInv(s, x.message, x.choice);
    }
  }

  /** The invariant holds in every state of every run. */
  lemma RunInv(states: seq<State>, steps: seq<Step>, i: nat)
    requires IsRun(states, steps) && i < |states|
    ensures Inv(states[i])
  {
    InitialInv(states[0].authMode);
    InvPreserved();
    Always(states, steps, Follows, (s: State) => Inv(s), 0, i);
  }

  lemma RunNeverPanics(states: seq<State>, steps: seq<Step>, i: nat)
    requires IsRun(states, steps) && i < |steps|
    ensures !Execute(states[i], steps[i].message.info, steps[i].message.incoming, steps[i].choice).verdict.Panicked?
  {
    RunInv(states, steps, i);
    NeverPanics(states[i], steps[i].message, steps[i].choice);
  }

  // ---- Membership ----

  predicate FoundsUnnamed(s: State, step: Step) { Founds(s, step.message) && step.message.incoming.id == UNNAMED }

  /** What a step of a run is, knowing the invariant. */
  lemma StepOfRun(states: seq<State>, steps: seq<Step>, i: nat)
    requires IsRun(states, steps) && i < |steps|
    ensures Inv(states[i]) && Enabled(states[i], steps[i].message, steps[i].choice)
    ensures states[i + 1] == Apply(states[i], steps[i].message, steps[i].choice)
  {
    hide Inv, Enabled, Apply;
    RunInv(states, steps, i);
    assert Follows(states[i], steps[i], states[i + 1]);
  }

  /**
   Membership is a bijection exactly as long as no step founded a room with the empty name; and
   in any case a client that has a room is listed in it, so no room is ever found to be removed.
   */
  lemma {:induction false} RunBijection(states: seq<State>, steps: seq<Step>, i: nat)
    requires IsRun(states, steps) && i < |states|
    ensures Bijection(states[i]) <==> forall k :: 0 <= k < i ==> !FoundsUnnamed(states[k], steps[k])
    ensures forall c :: Lookup(states[i], c) != UNNAMED ==> InRoom(states[i], c)
  {
    hide Bijection, RoomsInv, SessionsOk, TurnOk, LogOk, MetricsOk, Follows, FoundsUnnamed, IdsOk;
    RunInv(states, steps, i);
    MembershipBijection(states[i]);
    HasItsRoom(states[i]);
    if i > 0 {
      RunBijection(states, steps, i - 1);
      BijectionStep(states, steps, i - 1);
    }
  }

  /** Once a step founded such a room, it never is a bijection again. */
  lemma RunBijectionBroken(states: seq<State>, steps: seq<Step>, k: nat, i: nat)
    requires IsRun(states, steps) && k < i < |states| && FoundsUnnamed(states[k], steps[k])
    ensures !Bijection(states[i])
  {
    RunBijection(states, steps, i);
  }

  lemma HasItsRoom(s: State)
    requires MembershipOk(s)
    ensures forall c :: Lookup(s, c) != UNNAMED ==> InRoom(s, c)
  {}

  lemma BijectionStep(states: seq<State>, steps: seq<Step>, i: nat)
    requires IsRun(states, steps) && i < |steps|
    ensures Bijection(states[i + 1]) <==> Bijection(states[i]) && !FoundsUnnamed(states[i], steps[i])
  {
    hide Inv, Enabled, Apply, Bijection;
    StepOfRun(states, steps, i);
    var s, m, ch := states[i], steps[i].message, steps[i].choice;
    StepKeepsInv(s, m, ch);
    MembershipBijection(s);
    MembershipBijection(states[i + 1]);
    if UNNAMED in s.rooms {
      UnnamedStep(s, m, ch);
    } else {
      BijectionKept(s, m, ch);
    }
  }

  // ---- Sessions do not come back ----

  /** Issued sessions stay issued, and a session that is closed stays closed. */
  lemma StepKeepsClosed(s: State, m: ClientMessage, ch: Choice, id: Xid)
    requires Inv(s) && Enabled(s, m, ch) && id in s.issued
    ensures var t := Apply(s, m, ch);
            && id in t.issued && t.issued[id] == s.issued[id]
            && (LiveAt(t, id) ==> LiveAt(s, id))
  {
    hide IdsOk, MembershipOk, SessionsOk, TurnOk, LogOk, MetricsOk, RoomsInv, Covers, Within;
    GrantsAreFresh(s, m, ch);
    if Founds(s, m) {
      FoundingStep(s, m, ch);
    } else if !m.incoming.Connected? {
      StepWithin(s, m, ch);
      WithinKeepsClosed(s, Apply(s, m, ch), TargetRoom(s, m), m.info.id, Entrant(s, m), Ids(ch.grants), id);
    }
  }

  lemma WithinKeepsClosed(s: State, t: State, r: RoomId, c: Xid, added: set<Xid>, ids: set<Xid>, id: Xid)
    requires Within(s, t, r, c, added, ids) && id in s.issued && id !in ids
    ensures id in t.issued && t.issued[id] == s.issued[id]
    ensures LiveAt(t, id) ==> LiveAt(s, id)
  {}

  ghost predicate Closed(s: State, id: Xid) { id in s.issued && !LiveAt(s, id) }

  lemma ClosedPreserved(id: Xid)
    ensures Preserves(Follows, (s: State) => Inv(s) && Closed(s, id))
  {
    forall s: State, x: Step, t: State | Inv(s) && Closed(s, id) && Follows(s, x, t)
      ensures Inv(t) && Closed(t, id)
    {
      StepKeepsInv(s, x.message, x.choice);
      StepKeepsClosed(s, x.message, x.choice, id);
    }
  }

  /** A session that is closed never lives again: identifiers are not reused. */
  lemma ClosedStaysClosed(states: seq<State>, steps: seq<Step>, i: nat, j: nat, id: Xid)
    requires IsRun(states, steps) && i <= j < |states| && Closed(states[i], id)
    ensures Closed(states[j], id)
  {
    RunInv(states, steps, i);
    ClosedPreserved(id);
    Always(states, steps, Follows, (s: State) => Inv(s) && Closed(s, id), i, j);
  }

  ghost predicate SilentAbout(s: State, d: Delivery, n: nat)
    requires IsNotice(d)
  {
    Closed(s, NoticeId(d)) && Sent(s.log)[d] == n
  }

  lemma SilencePreserved(d: Delivery, n: nat)
    requires IsNotice(d)
    ensures Preserves(Follows, (s: State) => Inv(s) && SilentAbout(s, d, n))
  {
    forall s: State, x: Step, t: State | Inv(s) && SilentAbout(s, d, n) && Follows(s, x, t)
      ensures Inv(t) && SilentAbout(t, d, n)
    {
      StepKeepsInv(s, x.message, x.choice);
      StepKeepsClosed(s, x.message, x.choice, NoticeId(d));
      NoticesExact(s, x.message, x.choice, d);
      NothingDueForClosed(s, x.message, x.choice, d);
    }
  }

  /** Once a session is closed, no offer, answer, candidate or end-share notice bearing its identifier is sent again. */
  lemma ClosedIsSilent(states: seq<State>, steps: seq<Step>, i: nat, j: nat, d: Delivery)
    requires IsRun(states, steps) && i <= j < |states|
    requires IsNotice(d) && Closed(states[i], NoticeId(d))
    ensures Sent(states[j].log)[d] == Sent(states[i].log)[d]
  {
    var n := Sent(states[i].log)[d];
    RunInv(states, steps, i);
    SilencePreserved(d, n);
    Always(states, steps, Follows, (s: State) => Inv(s) && SilentAbout(s, d, n), i, j);
  }

  function NoticeId(d: Delivery): Xid
    requires IsNotice(d)
  {
    if d.message.EndShare? then d.message.id else d.message.sid
  }

  lemma NothingDueForClosed(s: State, m: ClientMessage, ch: Choice, d: Delivery)
    requires SessionsOk(s) && IsNotice(d) && NoticeId(d) in s.issued && !LiveAt(s, NoticeId(d))
    ensures !Due(s, m, ch, d)
  {
    NotInAnyRoom(s, NoticeId(d));
  }

  lemma NotInAnyRoom(s: State, id: Xid)
    requires SessionsOk(s) && !LiveAt(s, id)
    ensures forall r :: r in s.rooms ==> id !in s.rooms[r].sessions
  {
    forall r | r in s.rooms
      ensures id !in s.rooms[r].sessions
    {
      assert id in s.rooms[r].sessions ==> SessionOk(s, r, id);
    }
  }

  // ---- Departure is final ----

  ghost predicate Gone(s: State, c: Xid) { c in s.seen && c !in s.connected }

  /** A client that is gone stays gone, and its own messages do nothing. */
  lemma StepKeepsGone(s: State, m: ClientMessage, ch: Choice, c: Xid)
    requires Inv(s) && Enabled(s, m, ch) && Gone(s, c)
    ensures Gone(Apply(s, m, ch), c)
    ensures m.info.id == c ==> Apply(s, m, ch) == s
  {
    if Accepted(s, m) {
      if Founds(s, m) {
        FoundingStep(s, m, ch);
      } else if !m.incoming.Connected? {
        StepWithin(s, m, ch);
      }
    }
  }

  lemma GonePreserved(c: Xid)
    ensures Preserves(Follows, (s: State) => Inv(s) && Gone(s, c))
  {
    forall s: State, x: Step, t: State | Inv(s) && Gone(s, c) && Follows(s, x, t)
      ensures Inv(t) && Gone(t, c)
    {
      StepKeepsInv(s, x.message, x.choice);
      StepKeepsGone(s, x.message, x.choice, c);
    }
  }

  /** Once a client has left `connected` it never comes back, and no later message of its own changes anything. */
  lemma DepartureIsFinal(states: seq<State>, steps: seq<Step>, i: nat, j: nat, c: Xid)
    requires IsRun(states, steps) && i <= j < |states| && Gone(states[i], c)
    ensures Gone(states[j], c)
    ensures j < |steps| && steps[j].message.info.id == c ==> states[j + 1] == states[j]
  {
    RunInv(states, steps, i);
    GonePreserved(c);
    Always(states, steps, Follows, (s: State) => Inv(s) && Gone(s, c), i, j);
    if j < |steps| {
      assert Follows(states[j], steps[j], states[j + 1]);
      IgnoredWhenGone(states[j], steps[j], c);
    }
  }

  lemma IgnoredWhenGone(s: State, step: Step, c: Xid)
    requires Gone(s, c) && Enabled(s, step.message, step.choice)
    ensures step.message.info.id == c ==> Apply(s, step.message, step.choice) == s
  {}

  /** Logs only grow, and what was written over two stretches was written over one of them. */
  lemma WrittenInTwo(s: State, t: State, u: State, c: Xid)
    requires s.log <= t.log <= u.log
    ensures WrittenTo(s, u, c) <==> WrittenTo(s, t, c) || WrittenTo(t, u, c)
  {
    if WrittenTo(s, u, c) {
      var k :| |s.log| <= k < |u.log| && !NotTo(u.log[k], c);
      assert k < |t.log| ==> t.log[k] == u.log[k];
    }
    if WrittenTo(s, t, c) {
      var k :| |s.log| <= k < |t.log| && !NotTo(t.log[k], c);
      assert t.log[k] == u.log[k];
    }
  }

  /** A client that is gone stays listed in the unnamed room if it is, and out of it if it is not. */
  lemma GoneStaysListed(s: State, m: ClientMessage, ch: Choice, c: Xid)
    requires Inv(s) && Enabled(s, m, ch) && Gone(s, c)
    ensures c in MembersOf(Apply(s, m, ch), UNNAMED) <==> c in MembersOf(s, UNNAMED)
  {
    hide Inv, Enabled, Apply;
    if UNNAMED in s.rooms {
      UnnamedStep(s, m, ch);
    } else if UNNAMED in Apply(s, m, ch).rooms {
      UnnamedRoomAppears(s, m, ch);
      FoundingStep(s, m, ch);
    }
  }

  /**
   After a client is gone, something is written to it exactly if it is listed in the unnamed
   room and somebody joins that room.
   */
  lemma {:induction false} GoneAreSpared(states: seq<State>, steps: seq<Step>, i: nat, j: nat, c: Xid)
    requires IsRun(states, steps) && i <= j < |states| && Gone(states[i], c)
    ensures WrittenTo(states[i], states[j], c) <==>
              c in MembersOf(states[i], UNNAMED) && exists k :: i <= k < j && EntersUnnamed(states[k], steps[k].message)
    ensures Gone(states[j], c) && (c in MembersOf(states[j], UNNAMED) <==> c in MembersOf(states[i], UNNAMED))
    ensures states[i].log <= states[j].log
    decreases j
  {
    hide Inv, Enabled, Apply, EntersUnnamed, Follows;
    if i < j {
      var s, m, ch := states[j - 1], steps[j - 1].message, steps[j - 1].choice;
      GoneAreSpared(states, steps, i, j - 1, c);
      StepOfRun(states, steps, j - 1);
      StepKeepsGone(s, m, ch, c);
      GoneStaysListed(s, m, ch, c);
      StepWritesToGone(s, m, ch, c);
      RoomIsolation(s, m, ch);
      WrittenInTwo(states[i], s, states[j], c);
    }
  }

  // ---- Bans ----

  function MembersAt(room: Room, addr: string): set<Xid> { set c | c in room.users && room.users[c].addr == addr }

  /** While the room lives, a ban stays and no member with that address is gained. */
  lemma StepKeepsBan(s: State, m: ClientMessage, ch: Choice, r: RoomId, addr: string)
    requires Inv(s) && Enabled(s, m, ch)
    requires r in s.rooms && addr in s.rooms[r].banned && r in Apply(s, m, ch).rooms
    ensures var t := Apply(s, m, ch);
            addr in t.rooms[r].banned && MembersAt(t.rooms[r], addr) <= MembersAt(s.rooms[r], addr)
  {
    if Founds(s, m) {
      FoundingStep(s, m, ch);
    } else if !m.incoming.Connected? {
      StepWithin(s, m, ch);
      if Enters(s, m) && m.incoming.id == r {
        EntrantAddress(s, m, ch);
      }
      WithinKeepsBan(s, Apply(s, m, ch), TargetRoom(s, m), m.info, Entrant(s, m), Ids(ch.grants), r, addr);
    }
  }

  /** An entrant that stays has the address it came with, which is not banned. */
  lemma EntrantAddress(s: State, m: ClientMessage, ch: Choice)
    requires IdsOk(s) && Enters(s, m)
    ensures var r, c := m.incoming.id, m.info.id;
            var t := Apply(s, m, ch);
            m.info.addr !in s.rooms[r].banned
            && (r in t.rooms && c in t.rooms[r].users ==> t.rooms[r].users[c].addr == m.info.addr)
  {
    var r, c := m.incoming.id, m.info.id;
    if ch.ipOk {
      JoinTouches(s, m.info, r, m.incoming.userName, ch);
    } else {
      LateJoinState(s, m, ch);
      LateEntrantAddress(s, r, Newcomer(m.info, m.incoming, ch), ch.heir);
    }
  }

  lemma LateEntrantAddress(s: State, r: RoomId, user: User, heir: Xid)
    requires IdsOk(s) && r in s.rooms && user.id in s.connected && s.connected[user.id] == UNNAMED
    ensures var t := Disconnect(Notify(AddMember(s, r, user), r), user.id, CLOSE_NORMAL_CLOSURE, PROVIDER_ERROR, heir);
            r in t.rooms && user.id in t.rooms[r].users ==> t.rooms[r].users[user.id].addr == user.addr
  {
    var joined := Notify(AddMember(s, r, user), r);
    if r != UNNAMED {
      assert InRoom(joined, user.id);
      DisconnectEffect(joined, user.id, CLOSE_NORMAL_CLOSURE, PROVIDER_ERROR, heir);
    } else {
      LateJoinOfUnnamed(s, user, CLOSE_NORMAL_CLOSURE, PROVIDER_ERROR, heir);
    }
  }

  lemma WithinKeepsBan(s: State, t: State, q: RoomId, info: ClientInfo, added: set<Xid>, ids: set<Xid>, r: RoomId, addr: string)
    requires Within(s, t, q, info.id, added, ids) && added <= {info.id}
    requires r in s.rooms && r in t.rooms && addr in s.rooms[r].banned
    requires r == q && added != {} ==>
               info.addr !in s.rooms[r].banned
               && (info.id in t.rooms[r].users ==> t.rooms[r].users[info.id].addr == info.addr)
    ensures addr in t.rooms[r].banned && MembersAt(t.rooms[r], addr) <= MembersAt(s.rooms[r], addr)
  {}

  ghost predicate BanHolds(s: State, r: RoomId, addr: string, members: set<Xid>) {
    r in s.rooms && addr in s.rooms[r].banned && MembersAt(s.rooms[r], addr) <= members
  }

  /** A step during which room `r` lives on. */
  ghost function KeepsRoom(r: RoomId): (State, Step, State) -> bool {
    (s: State, x: Step, t: State) => Follows(s, x, t) && r in t.rooms
  }

  lemma BanPreserved(r: RoomId, addr: string, members: set<Xid>)
    ensures Preserves(KeepsRoom(r), (s: State) => Inv(s) && BanHolds(s, r, addr, members))
  {
    forall s: State, x: Step, t: State | Inv(s) && BanHolds(s, r, addr, members) && KeepsRoom(r)(s, x, t)
      ensures Inv(t) && BanHolds(t, r, addr, members)
    {
      StepKeepsInv(s, x.message, x.choice);
      StepKeepsBan(s, x.message, x.choice, r, addr);
    }
  }

  lemma PartWithRoom(states: seq<State>, steps: seq<Step>, i: nat, j: nat, r: RoomId)
    requires Chain(states, steps, Follows) && i <= j < |states|
    requires forall k :: i <= k <= j ==> r in states[k].rooms
    ensures Chain(states[i..j + 1], steps[i..j], KeepsRoom(r))
  {
    var part := states[i..j + 1];
    forall k | 0 <= k < j - i
      ensures KeepsRoom(r)(part[k], steps[i..j][k], part[k + 1])
    {
      assert Follows(states[i + k], steps[i + k], states[i + k + 1]);
      assert part[k] == states[i + k] && part[k + 1] == states[i + k + 1];
    }
  }

  /** As long as the room lives, a ban holds and the members with the banned address only become fewer. */
  lemma BansPersist(states: seq<State>, steps: seq<Step>, i: nat, j: nat, r: RoomId, addr: string)
    requires IsRun(states, steps) && i <= j < |states|
    requires forall k :: i <= k <= j ==> r in states[k].rooms
    requires addr in states[i].rooms[r].banned
    ensures addr in states[j].rooms[r].banned
    ensures MembersAt(states[j].rooms[r], addr) <= MembersAt(states[i].rooms[r], addr)
  {
    hide Inv, Follows;
    var members := MembersAt(states[i].rooms[r], addr);
    RunInv(states, steps, i);
    BanPreserved(r, addr, members);
    PartWithRoom(states, steps, i, j, r);
    Always(states[i..j + 1], steps[i..j], KeepsRoom(r), (s: State) => Inv(s) && BanHolds(s, r, addr, members), 0, j - i);
  }

  // ---- The unnamed room ----

  /** Once the unnamed room is there it stays, and lists for good whoever joined it. */
  lemma {:induction false} NobodyLeavesUnnamed(states: seq<State>, steps: seq<Step>, i: nat, j: nat, u: Xid)
    requires IsRun(states, steps) && i <= j < |states| && UNNAMED in states[i].rooms
    ensures UNNAMED in states[j].rooms
    ensures u in MembersOf(states[j], UNNAMED) <==>
              || u in MembersOf(states[i], UNNAMED)
              || exists k :: i <= k < j && EntersUnnamed(states[k], steps[k].message) && steps[k].message.info.id == u
    decreases j
  {
    hide Inv, Enabled, Apply, EntersUnnamed, Follows;
    if i < j {
      NobodyLeavesUnnamed(states, steps, i, j - 1, u);
      StepOfRun(states, steps, j - 1);
      UnnamedStep(states[j - 1], steps[j - 1].message, steps[j - 1].choice);
    }
  }

  /** It has one owner exactly as long as its owner has not joined it again, and then none. */
  lemma {:induction false} UnnamedOwnership(states: seq<State>, steps: seq<Step>, i: nat)
    requires IsRun(states, steps) && i < |states|
    ensures var kept := forall k :: 0 <= k < i ==> !OwnerRejoins(states[k], steps[k].message);
            if UNNAMED in states[i].rooms
            then |Owners(states[i].rooms[UNNAMED].users)| == if kept then 1 else 0
            else kept
  {
    hide Inv, Enabled, Apply, OwnerRejoins, Owners, Follows;
    if i > 0 {
      var s, m, ch := states[i - 1], steps[i - 1].message, steps[i - 1].choice;
      UnnamedOwnership(states, steps, i - 1);
      StepOfRun(states, steps, i - 1);
      OwnershipStep(s, m, ch);
    }
  }

  lemma OwnershipStep(s: State, m: ClientMessage, ch: Choice)
    requires Inv(s) && Enabled(s, m, ch)
    ensures var t := Apply(s, m, ch);
            if UNNAMED !in s.rooms then
              !OwnerRejoins(s, m) && (UNNAMED in t.rooms ==> |Owners(t.rooms[UNNAMED].users)| == 1)
            else
              && UNNAMED in t.rooms
              && |Owners(t.rooms[UNNAMED].users)|
                 == |Owners(s.rooms[UNNAMED].users)| - if OwnerRejoins(s, m) then 1 else 0
  {
    hide Inv, Enabled, Apply;
    if UNNAMED in s.rooms {
      UnnamedOwners(s, m, ch);
    } else if UNNAMED in Apply(s, m, ch).rooms {
      UnnamedFounded(s, m, ch);
    }
  }

  // ---- Counters ----

  /** In how many of the first `i` steps `event` happened. */
  ghost function Times(states: seq<State>, steps: seq<Step>, i: nat, event: (State, ClientMessage) -> bool): nat
    requires i <= |steps| < |states|
  {
    if i == 0 then 0
    else Times(states, steps, i - 1, event) + if event(states[i - 1], steps[i - 1].message) then 1 else 0
  }

  lemma {:induction false} NeverHappened(states: seq<State>, steps: seq<Step>, i: nat, event: (State, ClientMessage) -> bool)
    requires i <= |steps| < |states|
    ensures Times(states, steps, i, event) == 0 <==> forall k :: 0 <= k < i ==> !event(states[k], steps[k].message)
  {
    if i > 0 {
      NeverHappened(states, steps, i - 1, event);
    }
  }

  /** The counters that only grow count what happened. */
  lemma {:induction false} BooksOfRun(states: seq<State>, steps: seq<Step>, i: nat)
    requires IsRun(states, steps) && i < |states|
    ensures states[i].authMode == states[0].authMode
    ensures states[i].metrics.roomsCreated == Times(states, steps, i, Founds)
    ensures states[i].metrics.usersJoined == Times(states, steps, i, Joins)
    ensures states[i].metrics.sessionsCreated == |states[i].issued|
    ensures Surplus(states[i]) == Times(states, steps, i, Rejoins)
  {
    hide Inv, Enabled, Apply, Founds, Enters, Rejoins, Follows, Surplus;
    if i > 0 {
      BooksOfRun(states, steps, i - 1);
      StepOfRun(states, steps, i - 1);
      StepSurplus(states[i - 1], steps[i - 1].message, steps[i - 1].choice);
      StepBooks(states[i - 1], steps[i - 1].message, steps[i - 1].choice);
    } else {
      NothingYet(states[0].authMode);
    }
  }

  lemma NothingYet(authMode: string)
    ensures Surplus(Initial(authMode)) == 0
  {}
}
