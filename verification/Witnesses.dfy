/**
 Messages, from the start, after which each thing has happened that the general statements
 allow for in the room with the empty name.
 */
module Witnesses {
  import opened Types
  import opened Rules
  import opened RoomModel
  import opened Invariant
  import opened Safety
  import opened Frame
  import opened Books
  import opened Properties
  import opened Runs
  import opened Unnamed

  function InfoOf(c: Xid): ClientInfo { ClientInfo(c, false, "", "addr") }

  function Connecting(c: Xid): ClientMessage { ClientMessage(InfoOf(c), true, Connected) }

  function Founding(c: Xid): ClientMessage {
    ClientMessage(InfoOf(c), false, Create(UNNAMED, CONNECTION_LOCAL, true, "A", false))
  }

  function Joining(c: Xid): ClientMessage { ClientMessage(InfoOf(c), false, Join(UNNAMED, "B")) }

  function Leaving(c: Xid): ClientMessage { ClientMessage(InfoOf(c), false, Exit) }

  /** The messages are processed one after the other, all of them enabled, by a server just started. */
  ghost predicate LeadsTo(messages: seq<ClientMessage>, ch: Choice, s: State)
    decreases |messages|
  {
    if messages == [] then s == Initial(AUTH_MODE_NONE)
    else
      var before, m := messages[..|messages| - 1], messages[|messages| - 1];
      exists r :: LeadsTo(before, ch, r) && Enabled(r, m, ch) && s == Apply(r, m, ch)
  }

  lemma LeadsOn(messages: seq<ClientMessage>, ch: Choice, s: State, m: ClientMessage)
    requires LeadsTo(messages, ch, s) && Enabled(s, m, ch)
    ensures LeadsTo(messages + [m], ch, Apply(s, m, ch))
  {
    hide Enabled, Apply, Initial;
    assert (messages + [m])[..|messages|] == messages;
  }

  /** `LeadsTo` is what a run does. */
  lemma {:induction false} LeadsByARun(messages: seq<ClientMessage>, ch: Choice, s: State)
    requires LeadsTo(messages, ch, s)
    ensures exists states, steps :: IsRun(states, steps) && |steps| == |messages| && states[|messages|] == s
                                    && forall k :: 0 <= k < |messages| ==> steps[k] == Step(messages[k], ch)
    decreases |messages|
  {
    hide Enabled, Apply, Initial;
    if messages == [] {
      var states, steps: seq<Step> := [s], [];
      assert IsRun(states, steps) by {
        hide Follows;
        StartsThere();
      }
    } else {
      var before, m := messages[..|messages| - 1], messages[|messages| - 1];
      var r :| LeadsTo(before, ch, r) && Enabled(r, m, ch) && s == Apply(r, m, ch);
      LeadsByARun(before, ch, r);
      var states, steps :| IsRun(states, steps) && |steps| == |before| && states[|before|] == r
                           && forall k :: 0 <= k < |before| ==> steps[k] == Step(before[k], ch);
      RunExtends(states, steps, Step(m, ch), s);
      assert (states + [s])[|messages|] == s;
    }
  }

  lemma StartsThere()
    ensures Initial(AUTH_MODE_NONE).authMode == AUTH_MODE_NONE
  {}

  lemma NothingToCover(issued: map<Xid, Issue>)
    ensures Covers([], {}, issued)
  {}

  // ---- Founding the unnamed room ----

  /** A server on which `a` has founded the unnamed room. */
  ghost function AfterFounding(a: Xid, ch: Choice): State {
    Apply(Connect(Initial(AUTH_MODE_NONE), a), Founding(a), ch)
  }

  lemma FoundingLeads(a: Xid, ch: Choice)
    requires ch.grants == []
    ensures LeadsTo([Connecting(a), Founding(a)], ch, AfterFounding(a, ch)) && Inv(AfterFounding(a, ch))
    ensures var s := AfterFounding(a, ch);
            && s.connected == map[a := UNNAMED] && s.seen == {a} && s.issued == map[]
            && s.rooms == map[UNNAMED := NewRoom(InfoOf(a), Founding(a).incoming, ch)]
  {
    hide Inv, Covers, LeadsTo;
    var start := Initial(AUTH_MODE_NONE);
    var s := Connect(start, a);
    NothingToCover(map[]);
    InitialInv(AUTH_MODE_NONE);
    StepKeepsInv(start, Connecting(a), ch);
    StepKeepsInv(s, Founding(a), ch);
    FoundingStep(s, Founding(a), ch);
    NothingLeads(ch);
    assert [] + [Connecting(a)] == [Connecting(a)];
    LeadsOn([], ch, start, Connecting(a));
    LeadsOn([Connecting(a)], ch, s, Founding(a));
    assert [Connecting(a)] + [Founding(a)] == [Connecting(a), Founding(a)];
  }

  lemma NothingLeads(ch: Choice)
    ensures LeadsTo([], ch, Initial(AUTH_MODE_NONE))
  {}

  // ---- A room without an owner, a member counted twice ----

  /** The founder joins again: the room has no owner, and one member is counted as two. */
  lemma OwnerLost(a: Xid, heir: Xid)
    ensures var ch := Choice(true, heir, "", []);
            var t := Apply(AfterFounding(a, ch), Joining(a), ch);
            && LeadsTo([Connecting(a), Founding(a), Joining(a)], ch, t)
            && UNNAMED in t.rooms && t.rooms[UNNAMED].users.Keys == {a}
            && Owners(t.rooms[UNNAMED].users) == {}
            && t.metrics.usersJoined - t.metrics.usersLeft == 2 && Members(t.rooms) == 1
  {
    hide Inv, Covers, LeadsTo;
    var ch := Choice(true, heir, "", []);
    var s := AfterFounding(a, ch);
    var m := Joining(a);
    FoundingLeads(a, ch);
    NothingToCover(map[]);
    assert JoinPairs(s.rooms[UNNAMED].users, a) == {};
    assert Enabled(s, m, ch);
    LeadsOn([Connecting(a), Founding(a)], ch, s, m);
    assert [Connecting(a), Founding(a)] + [m] == [Connecting(a), Founding(a), m];
    UnnamedStep(s, m, ch);
    UnnamedOwners(s, m, ch);
    CountedTwice(a, ch);
  }

  lemma CountedTwice(a: Xid, ch: Choice)
    requires Inv(AfterFounding(a, ch)) && Enabled(AfterFounding(a, ch), Joining(a), ch) && ch.ipOk && ch.grants == []
    ensures var t := Apply(AfterFounding(a, ch), Joining(a), ch);
            t.metrics.usersJoined - t.metrics.usersLeft == 2 && Members(t.rooms) == 1
  {
    hide IdsOk, MembershipOk, SessionsOk, TurnOk, LogOk, RoomsInv, Enabled, Apply;
    var s, m := AfterFounding(a, ch), Joining(a);
    FoundingLeads(a, ch);
    FoundingCounts(a, ch);
    var _ := EnteringStep(s, m, ch);
    StepBooks(s, m, ch);
    StepKeepsInv(s, m, ch);
  }

  lemma FoundingCounts(a: Xid, ch: Choice)
    ensures var s := AfterFounding(a, ch);
            s.metrics.usersJoined == 1 && s.metrics.usersLeft == 0 && s.rejoined == 0
  {}

  // ---- A client that is gone, and still written to ----

  lemma Leaves(s: State, c: Xid, ch: Choice)
    requires Inv(s) && c in s.connected && s.connected[c] == UNNAMED && ch.grants == [] && !ch.ipOk
    ensures Enabled(s, Leaving(c), ch)
    ensures Apply(s, Leaving(c), ch) == Dismissed(s, c, CloseWriter(CLOSE_NORMAL_CLOSURE, "User Left"))
  {
    hide Inv, Covers;
    NothingToCover(s.issued);
    DisconnectDismisses(s, c, CLOSE_NORMAL_CLOSURE, "User Left", ch.heir);
  }

  lemma Connects(s: State, c: Xid, ch: Choice)
    requires c !in s.seen && ch.grants == [] && !ch.ipOk
    requires c !in s.connected
    ensures Enabled(s, Connecting(c), ch) && Apply(s, Connecting(c), ch) == Connect(s, c)
  {
    hide Covers;
    NothingToCover(s.issued);
  }

  lemma Joins(s: State, c: Xid, ch: Choice)
    requires c in s.connected && s.connected[c] == UNNAMED && ch.grants == [] && !ch.ipOk
    requires UNNAMED in s.rooms && s.rooms[UNNAMED].banned == {}
    ensures Enabled(s, Joining(c), ch) && EntersUnnamed(s, Joining(c))
  {
    hide Covers;
    NothingToCover(s.issued);
  }

  /** The founder of the unnamed room leaves; whoever joins the room has its list sent to the founder. */
  ghost function AfterLeaving(a: Xid, b: Xid, ch: Choice): State {
    Connect(Apply(AfterFounding(a, ch), Leaving(a), ch), b)
  }

  lemma LeavingLeads(a: Xid, b: Xid, ch: Choice)
    requires a != b && ch.grants == [] && !ch.ipOk
    ensures var s := AfterLeaving(a, b, ch);
            && Inv(s) && LeadsTo([Connecting(a), Founding(a), Leaving(a), Connecting(b)], ch, s)
            && s.seen == {a, b} && s.connected == map[b := UNNAMED] && s.rooms == AfterFounding(a, ch).rooms
  {
    hide Inv, Enabled, Apply, LeadsTo;
    var s := AfterFounding(a, ch);
    FoundingLeads(a, ch);
    Leaves(s, a, ch);
    var left := Apply(s, Leaving(a), ch);
    Connects(left, b, ch);
    StepKeepsInv(s, Leaving(a), ch);
    StepKeepsInv(left, Connecting(b), ch);
    LeadsOn([Connecting(a), Founding(a)], ch, s, Leaving(a));
    assert [Connecting(a), Founding(a)] + [Leaving(a)] == [Connecting(a), Founding(a), Leaving(a)];
    LeadsOn([Connecting(a), Founding(a), Leaving(a)], ch, left, Connecting(b));
    assert [Connecting(a), Founding(a), Leaving(a)] + [Connecting(b)]
        == [Connecting(a), Founding(a), Leaving(a), Connecting(b)];
  }

  lemma GoneIsWrittenTo(a: Xid, b: Xid, heir: Xid)
    requires a != b
    ensures var ch := Choice(false, heir, "", []);
            var s := AfterLeaving(a, b, ch);
            var t := Apply(s, Joining(b), ch);
            && LeadsTo([Connecting(a), Founding(a), Leaving(a), Connecting(b), Joining(b)], ch, t)
            && Gone(s, a) && Gone(t, a) && WrittenTo(s, t, a)
  {
    hide Inv, Enabled, Apply, LeadsTo, AfterLeaving;
    var ch := Choice(false, heir, "", []);
    var s := AfterLeaving(a, b, ch);
    FoundingLeads(a, ch);
    LeavingLeads(a, b, ch);
    Joins(s, b, ch);
    LeadsOn([Connecting(a), Founding(a), Leaving(a), Connecting(b)], ch, s, Joining(b));
    assert [Connecting(a), Founding(a), Leaving(a), Connecting(b)] + [Joining(b)]
        == [Connecting(a), Founding(a), Leaving(a), Connecting(b), Joining(b)];
    StepWritesToGone(s, Joining(b), ch, a);
    StepKeepsGone(s, Joining(b), ch, a);
  }

  // ---- A member left behind ----

  /** A late failure leaves `b` gone, yet listed in the unnamed room; a plain disconnect would not. */
  lemma MemberLeftBehind(a: Xid, b: Xid, heir: Xid)
    requires a != b
    ensures var ch := Choice(false, heir, "", []);
            var s := Connect(AfterFounding(a, ch), b);
            var t := Apply(s, Joining(b), ch);
            && LeadsTo([Connecting(a), Founding(a), Connecting(b), Joining(b)], ch, t)
            && Execute(s, InfoOf(b), Joining(b).incoming, ch).verdict.Failed?
            && b !in t.connected && b in MembersOf(t, UNNAMED)
            && b !in MembersOf(Disconnect(s, b, CLOSE_NORMAL_CLOSURE, "", heir), UNNAMED)
  {
    hide Inv, Enabled, Apply, LeadsTo, AfterFounding, Disconnect;
    var ch := Choice(false, heir, "", []);
    var r := AfterFounding(a, ch);
    var s := Connect(r, b);
    FoundingLeads(a, ch);
    Connects(r, b, ch);
    StepKeepsInv(r, Connecting(b), ch);
    Joins(s, b, ch);
    LeadsOn([Connecting(a), Founding(a)], ch, r, Connecting(b));
    assert [Connecting(a), Founding(a)] + [Connecting(b)] == [Connecting(a), Founding(a), Connecting(b)];
    LeadsOn([Connecting(a), Founding(a), Connecting(b)], ch, s, Joining(b));
    assert [Connecting(a), Founding(a), Connecting(b)] + [Joining(b)]
        == [Connecting(a), Founding(a), Connecting(b), Joining(b)];
    UnnamedStep(s, Joining(b), ch);
    var _ := EnteringStep(s, Joining(b), ch);
    FailsLate(s, b, ch);
    ForgottenOnly(s, b, CLOSE_NORMAL_CLOSURE, "", heir);
  }

  lemma FailsLate(s: State, c: Xid, ch: Choice)
    requires EntersUnnamed(s, Joining(c)) && !ch.ipOk
    ensures Execute(s, InfoOf(c), Joining(c).incoming, ch).verdict.Failed?
  {}
}
