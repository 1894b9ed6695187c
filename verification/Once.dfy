/**
 The run-once guard of a client's close path.  Its `Do` reads an atomic flag, takes a
 mutex, checks and sets the flag, and --- unlike sync.Once --- releases the mutex before
 it runs the function.  Any number of threads call `Do` on one guard; a schedule says
 whose atomic action comes next.
 */
module OnceModel {
  import opened Types

  type Thread = nat

  /** The two functions passed to `Do`: closing on an error, and closing because all is done. */
  datatype Closer = OnError | OnDone

  /** What a thread does next. */
  datatype Point =
    | Loading     // read the flag without the mutex
    | Locking     // the flag was 0: take the mutex
    | Checking    // holds the mutex: read the flag again
    | Claiming    // holds the mutex: set the flag
    | Winning     // holds the mutex: release it, then run the function
    | Losing      // holds the mutex: release it, then return
    | Running     // run the function
    | Returned

  /**
   `enqueued` and `closed` count what the functions did: enqueue a `Disconnected`, and
   write the close message.  `winner` is history.
   */
  datatype Guard = Guard(
    done: nat,
    holder: Option<Thread>,
    points: map<Thread, Point>,
    closers: map<Thread, Closer>,
    enqueued: nat,
    closed: nat,
    winner: Option<Thread>)

  /** The next atomic action of thread `t`; a thread that waits for the mutex, or is back, does nothing. */
  function Advance(g: Guard, t: Thread): Guard
    requires t in g.points && t in g.closers
  {
    match g.points[t]
    case Loading => g.(points := g.points[t := if g.done == 1 then Returned else Locking])
    case Locking => if g.holder.None? then g.(holder := Some(t), points := g.points[t := Checking]) else g
    case Checking => g.(points := g.points[t := if g.done == 0 then Claiming else Losing])
    case Claiming => g.(done := 1, points := g.points[t := Winning], winner := Some(t))
    case Winning => g.(holder := None, points := g.points[t := Running])
    case Losing => g.(holder := None, points := g.points[t := Returned])
    case Running =>
      g.(enqueued := g.enqueued + if g.closers[t].OnError? then 1 else 0,
         closed := g.closed + 1,
         points := g.points[t := Returned])
    case Returned => g
  }

  ghost predicate Initial(g: Guard) {
    && g.done == 0 && g.holder.None? && g.enqueued == 0 && g.closed == 0 && g.winner.None?
    && g.points.Keys == g.closers.Keys
    && (forall t :: t in g.points ==> g.points[t] == Loading)
  }

  /** Any interleaving: the thread at each position takes its next action. */
  function Run(g: Guard, schedule: seq<Thread>): (after: Guard)
    requires g.points.Keys == g.closers.Keys
    requires forall i :: 0 <= i < |schedule| ==> schedule[i] in g.points
    ensures after.points.Keys == g.points.Keys && after.closers == g.closers
  {
    if schedule == [] then g
    else Advance(Run(g, schedule[..|schedule| - 1]), schedule[|schedule| - 1])
  }

  predicate Holds(p: Point) { p.Checking? || p.Claiming? || p.Winning? || p.Losing? }

  /** The mutex: whoever is inside holds it. */
  ghost predicate MutexInv(g: Guard) {
    && (g.holder.Some? ==> g.holder.value in g.points)
    && (forall t :: t in g.points ==> (Holds(g.points[t]) <==> g.holder == Some(t)))
  }

  /** The flag: set once, by the winner, and seen by whoever is turned away. */
  ghost predicate FlagInv(g: Guard) {
    && g.done <= 1 && (g.done == 1 <==> g.winner.Some?)
    && (forall t :: t in g.points && g.points[t].Claiming? ==> g.done == 0)
    && (forall t :: t in g.points && (g.points[t].Winning? || g.points[t].Running?) ==> g.winner == Some(t))
    && (forall t :: t in g.points && (g.points[t].Losing? || g.points[t].Returned?) ==> g.done == 1)
  }

  /** The function: what it did depends on whether the winner is back. */
  ghost predicate CallInv(g: Guard) {
    match g.winner
    case None => g.closed == 0 && g.enqueued == 0
    case Some(w) =>
      && w in g.points && w in g.closers
      && (g.points[w].Winning? || g.points[w].Running? || g.points[w].Returned?)
      && g.closed == (if g.points[w].Returned? then 1 else 0)
      && g.enqueued == (if g.points[w].Returned? && g.closers[w].OnError? then 1 else 0)
  }

  ghost predicate Inv(g: Guard) {
    g.points.Keys == g.closers.Keys && MutexInv(g) && FlagInv(g) && CallInv(g)
  }

  /** `w` is the one thread that set the flag. */
  predicate Won(g: Guard, w: Thread) { g.winner == Some(w) && w in g.points && w in g.closers }

  lemma AdvanceKeepsInv(g: Guard, t: Thread)
    requires Inv(g) && t in g.points
    ensures Inv(Advance(g, t))
  {
    AdvanceKeepsMutex(g, t);
    AdvanceKeepsFlag(g, t);
    AdvanceKeepsCall(g, t);
  }

  lemma AdvanceKeepsMutex(g: Guard, t: Thread)
    requires g.points.Keys == g.closers.Keys && MutexInv(g) && t in g.points
    ensures MutexInv(Advance(g, t)) && Advance(g, t).points.Keys == Advance(g, t).closers.Keys
  {}

  lemma AdvanceKeepsFlag(g: Guard, t: Thread)
    requires g.points.Keys == g.closers.Keys && MutexInv(g) && FlagInv(g) && t in g.points
    ensures FlagInv(Advance(g, t))
  {}

  lemma AdvanceKeepsCall(g: Guard, t: Thread)
    requires g.points.Keys == g.closers.Keys && FlagInv(g) && CallInv(g) && t in g.points
    ensures CallInv(Advance(g, t))
  {}

  lemma {:induction false} RunKeepsInv(g: Guard, schedule: seq<Thread>)
    requires Initial(g)
    requires forall i :: 0 <= i < |schedule| ==> schedule[i] in g.points
    ensures Inv(Run(g, schedule))
  {
    if schedule != [] {
      RunKeepsInv(g, schedule[..|schedule| - 1]);
      AdvanceKeepsInv(Run(g, schedule[..|schedule| - 1]), schedule[|schedule| - 1]);
    }
  }

  /**
   Under every interleaving the function runs at most once, and a client enqueues at most
   one `Disconnected`; once any `Do` has returned some thread has won, and once the winner
   has returned the function has run, enqueueing exactly if the winner closes on an error.
   */
  lemma RunsAtMostOnce(g: Guard, schedule: seq<Thread>)
    requires Initial(g)
    requires forall i :: 0 <= i < |schedule| ==> schedule[i] in g.points
    ensures var h := Run(g, schedule);
            && h.enqueued <= h.closed <= 1
            && ((exists t :: t in h.points && h.points[t].Returned?) ==> exists w :: Won(h, w))
            && (h.closed == 1 <==> exists w :: Won(h, w) && h.points[w].Returned?)
            && (forall w :: Won(h, w) && h.closed == 1 ==> (h.enqueued == 1 <==> h.closers[w].OnError?))
  {
    RunKeepsInv(g, schedule);
    var h := Run(g, schedule);
    if h.winner.Some? {
      assert Won(h, h.winner.value);
    }
  }

  /** If everybody who called `Do` is back, the function ran exactly once. */
  lemma RunsWhenAllReturned(g: Guard, schedule: seq<Thread>)
    requires Initial(g) && g.points != map[]
    requires forall i :: 0 <= i < |schedule| ==> schedule[i] in g.points
    requires forall t :: t in g.points ==> Run(g, schedule).points[t].Returned?
    ensures Run(g, schedule).closed == 1
  {
    RunKeepsInv(g, schedule);
    var t :| t in g.points;
    assert Run(g, schedule).points[t].Returned?;
  }

  /** Mutual exclusion. */
  lemma OneHolder(g: Guard, schedule: seq<Thread>, t: Thread, u: Thread)
    requires Initial(g) && t in g.points && u in g.points
    requires forall i :: 0 <= i < |schedule| ==> schedule[i] in g.points
    requires Holds(Run(g, schedule).points[t]) && Holds(Run(g, schedule).points[u])
    ensures t == u
  {
    RunKeepsInv(g, schedule);
    var h := Run(g, schedule);
    assert h.holder == Some(t) && h.holder == Some(u);
  }

  /** No deadlock: unless all are back, some thread can move. */
  lemma SomeoneCanMove(g: Guard, schedule: seq<Thread>, t: Thread)
    requires Initial(g) && t in g.points
    requires forall i :: 0 <= i < |schedule| ==> schedule[i] in g.points
    requires !Run(g, schedule).points[t].Returned?
    ensures exists u :: u in g.points && Advance(Run(g, schedule), u) != Run(g, schedule)
  {
    RunKeepsInv(g, schedule);
    var h := Run(g, schedule);
    var u := if h.points[t].Locking? && h.holder.Some? then h.holder.value else t;
    assert h.points[u] != Advance(h, u).points[u];
  }

  /** Two threads that call `Do` on a new guard. */
  function TwoThreads(a: Thread, b: Thread): Guard {
    Guard(0, None, map[a := Loading, b := Loading], map[a := OnError, b := OnDone], 0, 0, None)
  }

  /** The early release shows: a `Do` can be back before the function has begun. */
  lemma ReturnsBeforeFunctionRuns(a: Thread, b: Thread)
    requires a != b
    ensures var h := Run(TwoThreads(a, b), [a, a, a, a, b]);
            Initial(TwoThreads(a, b)) && h.points[b].Returned? && h.closed == 0
  {
    TakesTheMutex(a, b);
    SetsTheFlag(a, b);
    RunOne(TwoThreads(a, b), [a, a, a, a], b);
    assert [a, a, a, a] + [b] == [a, a, a, a, b];
  }

  lemma TakesTheMutex(a: Thread, b: Thread)
    requires a != b
    ensures Run(TwoThreads(a, b), [a, a])
            == TwoThreads(a, b).(holder := Some(a), points := map[a := Checking, b := Loading])
  {
    var g := TwoThreads(a, b);
    RunOne(g, [], a);
    RunOne(g, [a], a);
    assert [a] + [a] == [a, a];
    assert Advance(g, a) == g.(points := map[a := Locking, b := Loading]);
  }

  lemma ChecksTheFlag(a: Thread, b: Thread)
    requires a != b
    ensures Run(TwoThreads(a, b), [a, a, a])
            == TwoThreads(a, b).(holder := Some(a), points := map[a := Claiming, b := Loading])
  {
    TakesTheMutex(a, b);
    RunOne(TwoThreads(a, b), [a, a], a);
    assert [a, a] + [a] == [a, a, a];
  }

  lemma SetsTheFlag(a: Thread, b: Thread)
    requires a != b
    ensures Run(TwoThreads(a, b), [a, a, a, a])
            == TwoThreads(a, b).(done := 1, holder := Some(a), winner := Some(a), points := map[a := Winning, b := Loading])
  {
    ChecksTheFlag(a, b);
    RunOne(TwoThreads(a, b), [a, a, a], a);
    assert [a, a, a] + [a] == [a, a, a, a];
  }

  lemma RunOne(g: Guard, schedule: seq<Thread>, t: Thread)
    requires g.points.Keys == g.closers.Keys && t in g.points
    requires forall i :: 0 <= i < |schedule| ==> schedule[i] in g.points
    ensures Run(g, schedule + [t]) == Advance(Run(g, schedule), t)
    ensures [] + [t] == [t]
  {
    assert (schedule + [t])[..|schedule|] == schedule;
  }

  lemma NothingYet(g: Guard)
    requires Inv(g)
    ensures g.points.Keys == g.closers.Keys && Run(g, []) == g
  {}

  /** Who waits for the mutex does not hold it; who holds it is a caller. */
  lemma HolderIsInside(g: Guard, t: Thread)
    requires Inv(g) && t in g.points && g.points[t].Locking? && g.holder.Some?
    ensures g.holder.value in g.points && g.holder.value != t
  {}

  /** Who is back found the flag set, or set it. */
  lemma BackWithFlag(g: Guard, t: Thread)
    requires Inv(g) && t in g.points && g.points[t].Returned?
    ensures g.done == 1 && g.winner.Some? && (g.winner == Some(t) ==> g.closed == 1)
    ensures g.enqueued <= g.closed <= 1
  {}

  // ---- How far a thread has to go ----

  function Distance(p: Point): nat {
    match p
    case Loading => 7
    case Locking => 6
    case Checking => 5
    case Claiming => 4
    case Winning => 3
    case Losing => 3
    case Running => 2
    case Returned => 0
  }

  ghost function Total(points: map<Thread, Point>): nat {
    if points == map[] then 0
    else
      var t :| t in points;
      Distance(points[t]) + Total(points - {t})
  }

  lemma {:induction false} TotalWithout(points: map<Thread, Point>, t: Thread)
    requires t in points
    ensures Total(points) == Distance(points[t]) + Total(points - {t})
    decreases |points|
  {
    var u :| u in points && Total(points) == Distance(points[u]) + Total(points - {u});
    if u != t {
      TotalWithout(points - {u}, t);
      TotalWithout(points - {t}, u);
      assert points - {u} - {t} == points - {t} - {u};
    }
  }

  /** No action moves a thread away from its end; the thread that holds the mutex always moves. */
  lemma AdvanceComesCloser(g: Guard, t: Thread)
    requires Inv(g) && t in g.points
    ensures Total(Advance(g, t).points) <= Total(g.points)
    ensures g.holder == Some(t) ==> Total(Advance(g, t).points) < Total(g.points)
  {
    hide Total, FlagInv, CallInv;
    var next := Advance(g, t).points;
    TotalWithout(g.points, t);
    TotalWithout(next, t);
    assert next - {t} == g.points - {t};
  }
}

/**
 The guard as the program has it: one object whose fields all callers change in place.
 `Do` is what one caller executes; between any two of its atomic actions the other callers
 take any number of theirs.
 */
module OnceGuard {
  import opened Types
  import opened OnceModel

  class Once {
    var done: nat
    var holder: Option<Thread>
    var enqueued: nat
    var closed: nat
    /** Where every caller is, and which function it passed. */
    var points: map<Thread, Point>
    var closers: map<Thread, Closer>
    ghost var winner: Option<Thread>

    ghost function View(): Guard
      reads this
    {
      Guard(done, holder, points, closers, enqueued, closed, winner)
    }

    /** A new guard, and those who are going to call `Do` on it. */
    constructor (closers: map<Thread, Closer>, points: map<Thread, Point>)
      requires points.Keys == closers.Keys && forall t :: t in points ==> points[t] == Loading
      ensures OnceModel.Initial(View()) && this.closers == closers && this.points == points
    {
      this.closers, this.points := closers, points;
      done, holder, enqueued, closed, winner := 0, None, 0, 0, None;
    }

    /** The next atomic action of another caller. */
    method Act(t: Thread)
      requires OnceModel.Inv(View()) && t in points
      modifies this
      ensures View() == Advance(old(View()), t) && OnceModel.Inv(View())
    {
      AdvanceKeepsInv(View(), t);
      match points[t]
      case Loading => points := points[t := if done == 1 then Returned else Locking];
      case Locking =>
        if holder.None? {
          holder, points := Some(t), points[t := Checking];
        }
      case Checking => points := points[t := if done == 0 then Claiming else Losing];
      case Claiming =>
        winner := Some(t);
        done, points := 1, points[t := Winning];
      case Winning => holder, points := None, points[t := Running];
      case Losing => holder, points := None, points[t := Returned];
      case Running => Call(t);
      case Returned =>
    }

    /** The function passed to `Do`: `CloseOnError` enqueues a `Disconnected`, both write the close message. */
    method Call(t: Thread)
      requires t in points && t in closers && points[t].Running?
      modifies this
      ensures View() == Advance(old(View()), t)
    {
      if closers[t].OnError? {
        enqueued := enqueued + 1;
      }
      closed := closed + 1;
      points := points[t := Returned];
    }

    /** What the others do before `t` takes its next action: anything, any number of times. */
    method Others(t: Thread, ghost g: Guard, ghost before: seq<Thread>) returns (ghost schedule: seq<Thread>)
      requires Leads(g, before, t) && OnceModel.Inv(View())
      modifies this
      ensures Leads(g, schedule, t) && OnceModel.Inv(View()) && points[t] == old(points[t])
      ensures Total(points) <= old(Total(points))
    {
      hide OnceModel.Inv, Run, Advance, Total;
      schedule := before;
      var n: nat := *;
      while n > 0
        invariant Leads(g, schedule, t) && OnceModel.Inv(View()) && points[t] == old(points[t])
        invariant Total(points) <= old(Total(points))
      {
        var u :| u in points;
        if u != t {
          ghost var was := View();
          SameCallers(g, schedule, t);
          Act(u);
          Went(g, schedule, t, u, was);
          schedule := schedule + [u];
        }
        n := n - 1;
      }
    }

    /** The interleaving `schedule` leads from `g` to now. */
    ghost predicate Leads(g: Guard, schedule: seq<Thread>, t: Thread)
      reads this
    {
      && g.points.Keys == g.closers.Keys && t in g.points
      && (forall i :: 0 <= i < |schedule| ==> schedule[i] in g.points)
      && View() == Run(g, schedule)
    }

    lemma SameCallers(g: Guard, schedule: seq<Thread>, t: Thread)
      requires Leads(g, schedule, t)
      ensures points.Keys == g.points.Keys && closers == g.closers
    {}

    /** Another caller has taken an action. */
    lemma Went(g: Guard, schedule: seq<Thread>, t: Thread, u: Thread, was: Guard)
      requires g.points.Keys == g.closers.Keys && t in g.points && u in g.points && u != t
      requires forall i :: 0 <= i < |schedule| ==> schedule[i] in g.points
      requires was == Run(g, schedule) && OnceModel.Inv(was) && View() == Advance(was, u)
      ensures Leads(g, schedule + [u], t) && OnceModel.Inv(View()) && points[t] == was.points[t]
      ensures Total(points) <= Total(was.points) && (was.holder == Some(u) ==> Total(points) < Total(was.points))
    {
      hide Total;
      RunOne(g, schedule, u);
      AdvanceKeepsInv(was, u);
      AdvanceComesCloser(was, u);
    }

    /** `t` has taken its own next action. */
    lemma Moved(g: Guard, schedule: seq<Thread>, t: Thread, was: Guard)
      requires g.points.Keys == g.closers.Keys && t in g.points
      requires forall i :: 0 <= i < |schedule| ==> schedule[i] in g.points
      requires was == Run(g, schedule) && OnceModel.Inv(was) && View() == Advance(was, t)
      ensures Leads(g, schedule + [t], t) && OnceModel.Inv(View())
    {
      RunOne(g, schedule, t);
      AdvanceKeepsInv(was, t);
    }

    /**
     Runs the function unless the guard is used up.  Whatever the others do meanwhile, the
     caller comes back, its own actions are the model's and nothing else happened to the guard;
     the flag is set, and the function has run if it was this caller that won.
     */
    method Do(t: Thread) returns (ghost schedule: seq<Thread>)
      requires OnceModel.Inv(View()) && t in points && points[t].Loading?
      modifies this
      ensures Leads(old(View()), schedule, t) && OnceModel.Inv(View())
      ensures points[t].Returned? && done == 1 && winner.Some?
      ensures enqueued <= closed <= 1 && (winner == Some(t) ==> closed == 1)
    {
      hide OnceModel.Inv, Run, Total;
      ghost var g := View();
      NothingYet(g);
      schedule := Others(t, g, []);
      ghost var was := View();
      if done == 1 {
        points := points[t := Returned];
        Moved(g, schedule, t, was);
        BackWithFlag(View(), t);
        return schedule + [t];
      }
      points := points[t := Locking];
      Moved(g, schedule, t, was);
      var won;
      won, schedule := MayExecute(t, g, schedule + [t]);
      if won {
        schedule := Others(t, g, schedule);
        was := View();
        Call(t);
        Moved(g, schedule, t, was);
        schedule := schedule + [t];
      }
      BackWithFlag(View(), t);
    }

    /** Takes the mutex, checks and sets the flag, and gives the mutex back before it answers. */
    method MayExecute(t: Thread, ghost g: Guard, ghost before: seq<Thread>) returns (won: bool, ghost schedule: seq<Thread>)
      requires Leads(g, before, t) && OnceModel.Inv(View()) && points[t].Locking?
      modifies this
      ensures Leads(g, schedule, t) && OnceModel.Inv(View())
      ensures points[t] == if won then Running else Returned
    {
      hide OnceModel.Inv, Run, Total;
      schedule := Lock(t, g, before);
      schedule := Others(t, g, schedule);
      ghost var was := View();
      won := done == 0;
      points := points[t := if won then Claiming else Losing];
      Moved(g, schedule, t, was);
      schedule := Others(t, g, schedule + [t]);
      if won {
        schedule := SetFlag(t, g, schedule);
      }
      schedule := Unlock(t, g, schedule);
    }

    method Unlock(t: Thread, ghost g: Guard, ghost before: seq<Thread>) returns (ghost schedule: seq<Thread>)
      requires Leads(g, before, t) && OnceModel.Inv(View()) && (points[t].Winning? || points[t].Losing?)
      modifies this
      ensures Leads(g, schedule, t) && OnceModel.Inv(View())
      ensures points[t] == if old(points[t]).Winning? then Running else Returned
    {
      hide OnceModel.Inv, Run, Total;
      ghost var was := View();
      holder, points := None, points[t := if points[t].Winning? then Running else Returned];
      Moved(g, before, t, was);
      schedule := before + [t];
    }

    method SetFlag(t: Thread, ghost g: Guard, ghost before: seq<Thread>) returns (ghost schedule: seq<Thread>)
      requires Leads(g, before, t) && OnceModel.Inv(View()) && points[t].Claiming?
      modifies this
      ensures Leads(g, schedule, t) && OnceModel.Inv(View()) && points[t].Winning?
    {
      hide OnceModel.Inv, Run, Total;
      ghost var was := View();
      winner := Some(t);
      done, points := 1, points[t := Winning];
      Moved(g, before, t, was);
      schedule := Others(t, g, before + [t]);
    }

    /** Waits for the mutex.  Whoever holds it is on its way to give it back, so the wait ends. */
    method Lock(t: Thread, ghost g: Guard, ghost before: seq<Thread>) returns (ghost schedule: seq<Thread>)
      requires Leads(g, before, t) && OnceModel.Inv(View()) && points[t].Locking?
      modifies this
      ensures Leads(g, schedule, t) && OnceModel.Inv(View()) && points[t].Checking?
    {
      hide OnceModel.Inv, Run, Total;
      schedule := Others(t, g, before);
      while holder.Some?
        invariant Leads(g, schedule, t) && OnceModel.Inv(View()) && points[t].Locking?
        decreases Total(points)
      {
        var u := holder.value;
        ghost var was := View();
        SameCallers(g, schedule, t);
        HolderIsInside(was, t);
        Act(u);
        Went(g, schedule, t, u, was);
        schedule := Others(t, g, schedule + [u]);
      }
      ghost var was := View();
      holder, points := Some(t), points[t := Checking];
      Moved(g, schedule, t, was);
      schedule := schedule + [t];
    }
  }
}
