/** When a call is sure to return: conditions that can be checked before it begins, with
    cancellation and without. */
module Returns {
  import opened Errors
  import opened Channels
  import opened Services
  import opened Worlds
  import opened Protocol
  import opened Invariants
  import opened Reachability
  import opened Lifetime
  import opened Outcomes
  import opened Runs
  import opened Progress
  import opened Termination

  /** A call in which nothing has happened yet, under a context still valid. */
  ghost predicate JustBegun(y: System) {
    && y.call.Some? && !y.call.value.cancelled
    && |y.world.log| == y.call.value.begin
    && forall s :: s in y.call.value.pcs ==> y.call.value.pcs[s].AtGuard?
  }

  /** A rank for the services that the call has to bring to its goal. */
  ghost predicate Ranks(y: System, r: map<Name, nat>) {
    y.call.Some? && PendingRank(y.world.specs, y.call.value.dir, y.call.value.at0, r)
  }

  /** s was not at the goal when the call began. */
  predicate Pending(y: System, s: Name) {
    y.call.Some? && s in y.world.specs && s !in y.call.value.at0
  }

  /** s was not at the goal, and the sequential recursion does not bring it there. */
  ghost predicate WillFail(y: System, r: map<Name, nat>, s: Name)
    requires Ranks(y, r)
  {
    Pending(y, s) && !Expected(y.world.specs, y.call.value.dir, y.call.value.at0, y.call.value.wins, r, s)
  }

  /** The pending service p waits for the pending service s. */
  predicate WaitsOn(y: System, p: Name, s: Name) {
    Pending(y, p) && Pending(y, s) && s in Prereqs(y.world.specs, y.call.value.dir, p)
  }

  /** However the call goes on until nobody can move, it has returned by then. */
  ghost predicate SureToReturn(y: System, cancels: bool) {
    forall acts ::
      Exec(y, acts).Some? && End !in acts && (Cancel in acts ==> cancels) && NoMoves(Exec(y, acts).value) ==>
      Returned(Exec(y, acts).value)
  }

  // ---------- failures and their streaks ----------

  /** Whoever publishes a failure is expected to fail, whether or not the call is cancelled. */
  lemma {:induction false} FailureIsExpected(y: System, r: map<Name, nat>, s: Name, e: Error)
    requires Reachable(y) && Ranks(y, r) && FailedWith(y.call.value, s, e)
    ensures WillFail(y, r, s)
    decreases if s in r then r[s] else 0
  {
    var d, f := Culprit(y, s, e);
    if d.Some? {
      FailureIsExpected(y, r, d.value, f);
    }
  }

  /** Events about other services leave a streak alone. */
  lemma {:induction false} StreakUntouched(log: seq<Event>, from: nat, to: nat, dir: Dir, s: Name)
    requires from <= to <= |log|
    requires forall i :: from <= i < to ==> !(log[i].Published? && log[i].dir == dir && log[i].service == s)
    ensures FailStreak(log[..to], dir, s) == FailStreak(log[..from], dir, s)
  {
    if from < to {
      StreakUntouched(log, from, to - 1, dir, s);
      assert log[..to] == log[..to - 1] + [log[to - 1]];
      FailStreakMore(log[..to - 1], log[to - 1], dir, s);
    }
  }

  /** And a failure between such events lengthens it by one. */
  lemma OneFailure(log: seq<Event>, from: nat, j: nat, dir: Dir, s: Name, e: Error)
    requires from <= j < |log| && log[j] == Published(dir, s, Some(e))
    requires forall i :: from <= i < |log| && i != j ==>
               !(log[i].Published? && log[i].dir == dir && log[i].service == s)
    ensures FailStreak(log, dir, s) == FailStreak(log[..from], dir, s) + 1
  {
    StreakUntouched(log, from, j, dir, s);
    assert log[..j + 1] == log[..j] + [log[j]] && log[..|log|] == log;
    FailStreakMore(log[..j], log[j], dir, s);
    StreakUntouched(log, j + 1, |log|, dir, s);
  }

  /** Where the failure of s stands in the log. */
  lemma FailureIsLogged(y: System, s: Name, e: Error) returns (j: nat)
    requires Reachable(y) && y.call.Some? && FailedWith(y.call.value, s, e)
    ensures y.call.value.begin <= j < |y.world.log| && y.world.log[j] == Published(y.call.value.dir, s, Some(e))
    ensures !Done(y.world, y.call.value.dir, s)
  {
    ReachableFailure(y, s, e);
    j :| y.call.value.begin <= j < |y.world.log| && y.world.log[j] == Published(y.call.value.dir, s, Some(e));
  }

  lemma ReachableEvent(y: System, i: nat)
    requires Reachable(y) && y.call.Some? && y.call.value.begin <= i < |y.world.log|
    ensures EventOk(y.world, y.call.value, i)
    ensures y.world.log[i].Published? ==>
              forall j :: y.call.value.begin <= j < |y.world.log| && j != i ==> y.world.log[j] != y.world.log[i]
  {
    ReachableOrder(y);
  }

  /** What a call publishes about a service that fails is that one failure. */
  lemma PublishedOnce(y: System, s: Name, e: Error, j: nat, i: nat)
    requires Reachable(y) && y.call.Some? && FailedWith(y.call.value, s, e) && !Done(y.world, y.call.value.dir, s)
    requires y.call.value.begin <= j < |y.world.log| && y.world.log[j] == Published(y.call.value.dir, s, Some(e))
    requires y.call.value.begin <= i < |y.world.log| && y.world.log[i].Published? && y.world.log[i].service == s
    ensures i == j
  {
    ReachableEvent(y, i);
    if y.world.log[i].err.Some? {
      assert FailedWith(y.call.value, s, y.world.log[i].err.value);
    }
  }

  /** A call lengthens the streak of a service that fails by one. */
  lemma StreakGrows(y: System, s: Name, e: Error)
    requires Reachable(y) && y.call.Some? && FailedWith(y.call.value, s, e)
    ensures y.call.value.begin <= |y.world.log|
    ensures FailStreak(y.world.log, y.call.value.dir, s) ==
            FailStreak(y.world.log[..y.call.value.begin], y.call.value.dir, s) + 1
  {
    var log, dir, begin := y.world.log, y.call.value.dir, y.call.value.begin;
    var j := FailureIsLogged(y, s, e);
    forall i | begin <= i < |log| && i != j ensures !(log[i].Published? && log[i].dir == dir && log[i].service == s) {
      if log[i].Published? && log[i].dir == dir && log[i].service == s {
        PublishedOnce(y, s, e, j, i);
      }
    }
    OneFailure(log, begin, j, dir, s, e);
  }

  /** Nobody has ended its goroutine with the 33rd failure in a row. */
  lemma EndedStreakFits(y: System, s: Name, e: Error)
    requires Reachable(y) && y.call.Some? && FailedWith(y.call.value, s, e) && !y.call.value.pcs[s].Serving?
    ensures FailStreak(y.world.log, y.call.value.dir, s) <= CAPACITY
  {
    ReachablePc(y, s);
    ReachableShape(y);
    if FailStreak(y.world.log, y.call.value.dir, s) > 0 {
      var l := ReachableLeak(y, y.call.value.dir, s);
    }
  }

  // ---------- what a stuck call says about its beginning ----------

  /** The state later in the same call, read at its beginning. */
  lemma LaterIn(y: System, acts: seq<Action>, z: System)
    requires Reachable(y) && JustBegun(y) && End !in acts && Exec(y, acts) == Some(z)
    ensures Reachable(z) && SameCall(y, z) && z.world.log[..z.call.value.begin] == y.world.log
    ensures z.call.value.cancelled <==> Cancel in acts
    ensures forall r :: Ranks(y, r) ==> Ranks(z, r)
    ensures forall r, s :: Ranks(y, r) ==> (WillFail(z, r, s) <==> WillFail(y, r, s))
  {
    ReachableLater(y, acts, z);
    RunWithin(y, acts, z);
  }

  lemma OverflowCause(y: System, r: map<Name, nat>, acts: seq<Action>, z: System, s: Name)
    requires Reachable(y) && JustBegun(y) && Ranks(y, r) && End !in acts && Exec(y, acts) == Some(z)
    requires Overflowed(z, s)
    ensures WillFail(y, r, s) && FailStreak(y.world.log, y.call.value.dir, s) >= CAPACITY
  {
    LaterIn(y, acts, z);
    var e := z.call.value.pcs[s].failure;
    ReachablePc(z, s);
    assert FailedWith(z.call.value, s, e);
    FailureIsExpected(z, r, s, e);
    StreakGrows(z, s, e);
  }

  lemma DoomCause(y: System, r: map<Name, nat>, acts: seq<Action>, z: System, p: Name)
    requires Reachable(y) && JustBegun(y) && Ranks(y, r) && End !in acts && Exec(y, acts) == Some(z)
    requires Doomed(z, p)
    ensures WaitsOn(y, p, z.call.value.pcs[p].on)
    ensures Cancel !in acts ==> WillFail(y, r, z.call.value.pcs[p].on)
  {
    LaterIn(y, acts, z);
    SilentMeansPending(z, p);
    ReachableFrame(z);
    WhyDoomed(z, p);
    if Cancel !in acts {
      var s := z.call.value.pcs[p].on;
      assert FailedWith(z.call.value, s, z.call.value.pcs[s].err.value);
      FailureIsExpected(z, r, s, z.call.value.pcs[s].err.value);
    }
  }

  // ---------- runs that do not return ----------

  /** A run that gets stuck for good can be run out without returning. */
  lemma StuckMeansUnsure(y: System, acts: seq<Action>, z: System, t: Name, cancels: bool)
    requires Reachable(y) && End !in acts && (Cancel in acts ==> cancels) && Exec(y, acts) == Some(z)
    requires Doomed(z, t) || Overflowed(z, t)
    ensures !SureToReturn(y, cancels)
  {
    ReachableLater(y, acts, z);
    var more, end := RunOut(z, None);
    StuckForever(z, more, end, t);
    ExecTwice(y, acts, more);
    assert Exec(y, acts + more) == Some(end) && NoMoves(end);
  }

  /** Every service that has 32 failures behind it and fails again blocks. */
  lemma FullStreakBlocks(y: System, r: map<Name, nat>, s: Name)
    requires Reachable(y) && JustBegun(y) && Ranks(y, r) && WillFail(y, r, s)
    requires FailStreak(y.world.log, y.call.value.dir, s) >= CAPACITY
    ensures !SureToReturn(y, false)
  {
    var acts, z := RunOut(y, None);
    LaterIn(y, acts, z);
    if Returned(z) {
      ScheduleIndependence(z, r, s);
      HowItEnded(z, s);
      var e := z.call.value.pcs[s].err.value;
      StreakGrows(z, s, e);
      EndedStreakFits(z, s, e);
    }
    assert Exec(y, acts).Some? && NoMoves(Exec(y, acts).value);
  }

  lemma Chooses(y: System, p: Name, s: Name) returns (z: System)
    requires Reachable(y) && y.call.Some? && p in y.call.value.pcs && y.call.value.pcs[p] == Gathering({})
    requires p in y.world.specs && s in Prereqs(y.world.specs, y.call.value.dir, p)
    requires s in y.call.value.pcs && y.call.value.pcs[s].Exited? && !Done(y.world, y.call.value.dir, s)
    ensures Exec(y, [Go(p, Choose(s))]) == Some(z) && Reachable(z) && SameCall(y, z)
    ensures p in z.call.value.pcs && z.call.value.pcs[p] == Calling({}, s)
    ensures s in z.call.value.pcs && z.call.value.pcs[s].Exited? && !Done(z.world, z.call.value.dir, s)
  {
    ReachablePc(y, p);
    ReachableShape(y);
    z := Apply(y, Go(p, Choose(s)));
    ReachableNext(y, Go(p, Choose(s)));
    ExecOne(y, Go(p, Choose(s)));
  }

  lemma SubscribesLate(y: System, p: Name, s: Name) returns (a: Action, z: System)
    requires Reachable(y) && y.call.Some? && p in y.call.value.pcs && y.call.value.pcs[p] == Calling({}, s)
    requires s in y.call.value.pcs && y.call.value.pcs[s].Exited? && !Done(y.world, y.call.value.dir, s)
    ensures a.Go? && Exec(y, [a]) == Some(z) && Doomed(z, p)
  {
    ReachablePc(y, p);
    ReachablePc(y, s);
    ReachableShape(y);
    var c := BoundIds(y.world.heap.Keys);
    a := Go(p, Subscribe(c));
    z := Apply(y, a);
    ExecOne(y, a);
  }

  /** Whoever subscribes to a service that has missed its goal and ended is doomed. */
  lemma JoinsLate(y: System, p: Name, s: Name) returns (acts: seq<Action>, z: System)
    requires Reachable(y) && y.call.Some? && p in y.call.value.pcs && y.call.value.pcs[p] == Gathering({})
    requires p in y.world.specs && s in Prereqs(y.world.specs, y.call.value.dir, p)
    requires s in y.call.value.pcs && y.call.value.pcs[s].Exited? && !Done(y.world, y.call.value.dir, s)
    ensures Exec(y, acts) == Some(z) && OnlyMoves(acts, None) && Doomed(z, p)
  {
    var y1 := Chooses(y, p, s);
    var a, y2 := SubscribesLate(y1, p, s);
    ExecTwice(y, [Go(p, Choose(s))], [a]);
    acts, z := [Go(p, Choose(s))] + [a], y2;
  }

  lemma PassesGuard(y: System, p: Name) returns (a: Action, z: System)
    requires Reachable(y) && y.call.Some? && !y.call.value.cancelled && Pending(y, p)
    requires p in y.call.value.pcs && y.call.value.pcs[p].AtGuard?
    ensures a.Go? && a.service == p && Exec(y, [a]) == Some(z) && Reachable(z) && SameCall(y, z)
    ensures z.call.value.pcs[p] == Gathering({}) && !z.call.value.cancelled
    ensures forall t :: t in y.call.value.pcs && t != p ==> z.call.value.pcs[t] == y.call.value.pcs[t]
    ensures forall t :: Done(z.world, z.call.value.dir, t) <==> Done(y.world, y.call.value.dir, t)
  {
    ReachablePc(y, p);
    ReachableShape(y);
    var c := BoundIds(y.world.heap.Keys);
    a := Go(p, Guard(c, Default));
    z := Apply(y, a);
    ExecOne(y, a);
    ReachableNext(y, a);
  }

  lemma Report(y: System, s: Name) returns (z: System)
    requires Reachable(y) && y.call.Some? && s in y.call.value.pcs && y.call.value.pcs[s].Returning?
    ensures Exec(y, [Go(s, Move.Report)]) == Some(z) && Reachable(z) && SameCall(y, z) && z.world == y.world
    ensures z.call.value.pcs == y.call.value.pcs[s := Exited(y.call.value.pcs[s].err)]
  {
    ReportFits(y, s);
    z := Apply(y, Go(s, Move.Report));
    ReachableNext(y, Go(s, Move.Report));
    ExecOne(y, Go(s, Move.Report));
  }

  /** Under a cancelled context, a service that is not at the goal may end at its guard. */
  lemma LeavesAtGuard(y: System, s: Name) returns (acts: seq<Action>, z: System)
    requires Reachable(y) && y.call.Some? && y.call.value.cancelled
    requires s in y.call.value.pcs && y.call.value.pcs[s].AtGuard? && !Done(y.world, y.call.value.dir, s)
    ensures OnlyMoves(acts, None) && Exec(y, acts) == Some(z) && Reachable(z) && SameCall(y, z)
    ensures z.call.value.pcs[s].Exited? && !Done(z.world, z.call.value.dir, s)
    ensures forall t :: t in y.call.value.pcs && t != s ==> z.call.value.pcs[t] == y.call.value.pcs[t]
  {
    ReachablePc(y, s);
    ReachableShape(y);
    var c := BoundIds(y.world.heap.Keys);
    var a := Go(s, Guard(c, SeesCancel));
    var y1 := Apply(y, a);
    ExecOne(y, a);
    ReachableNext(y, a);
    z := Report(y1, s);
    ExecTwice(y, [a], [Go(s, Move.Report)]);
    acts := [a] + [Go(s, Move.Report)];
  }

  /** The same from the guard on. */
  lemma ComesLate(y: System, p: Name, s: Name) returns (acts: seq<Action>, z: System)
    requires Reachable(y) && y.call.Some? && !y.call.value.cancelled
    requires p in y.call.value.pcs && y.call.value.pcs[p].AtGuard? && WaitsOn(y, p, s) && p != s
    requires s in y.call.value.pcs && y.call.value.pcs[s].Exited? && !Done(y.world, y.call.value.dir, s)
    ensures Exec(y, acts) == Some(z) && OnlyMoves(acts, None) && Doomed(z, p)
  {
    var a, y1 := PassesGuard(y, p);
    var more;
    more, z := JoinsLate(y1, p, s);
    ExecTwice(y, [a], more);
    acts := [a] + more;
  }

  /** A waiter is held back, the others run out of moves, and s has not ended. */
  lemma BlockedBelow(y: System, r: map<Name, nat>, p: Name, s: Name, acts: seq<Action>, z: System)
    requires Reachable(y) && Ranks(z, r) && End !in acts && Cancel !in acts
    requires Exec(y, acts) == Some(z) && NobodyMoves(z, Some(p)) && p in r && s in r && r[s] < r[p]
    requires p in z.call.value.pcs && z.call.value.pcs[p].AtGuard?
    requires s in z.call.value.pcs && !z.call.value.pcs[s].Exited?
    ensures !SureToReturn(y, false)
  {
    ReachableLater(y, acts, z);
    var t := StuckCause(z, Some(p), r, s);
    StuckMeansUnsure(y, acts, z, t, false);
  }

  /** The same, but s has ended. */
  lemma TooLate(y: System, r: map<Name, nat>, p: Name, s: Name, acts: seq<Action>, z: System)
    requires Reachable(y) && Ranks(z, r) && End !in acts && Cancel !in acts && Exec(y, acts) == Some(z)
    requires WillFail(z, r, s) && WaitsOn(z, p, s) && p != s && !z.call.value.cancelled
    requires p in z.call.value.pcs && z.call.value.pcs[p].AtGuard?
    requires s in z.call.value.pcs && z.call.value.pcs[s].Exited?
    ensures !SureToReturn(y, false)
  {
    ReachableLater(y, acts, z);
    if Done(z.world, z.call.value.dir, s) {
      DoneIsExpected(z, r, s);
    }
    var more, z' := ComesLate(z, p, s);
    ExecTwice(y, acts, more);
    StuckMeansUnsure(y, acts + more, z', p, false);
  }

  lemma WaitersRank(y: System, r: map<Name, nat>, p: Name, s: Name)
    requires Ranks(y, r) && WaitsOn(y, p, s)
    ensures p in r && s in r && r[s] < r[p] && p != s
  {
  }

  /** A waiter is held back until its expectedly failing prerequisite has ended. */
  lemma WaiterHangs(y: System, r: map<Name, nat>, p: Name, s: Name)
    requires Reachable(y) && JustBegun(y) && Ranks(y, r) && WillFail(y, r, s) && WaitsOn(y, p, s)
    ensures !SureToReturn(y, false)
  {
    ReachableFrame(y);
    WaitersRank(y, r, p, s);
    var acts, z := RunOut(y, Some(p));
    LaterIn(y, acts, z);
    FrozenStays(y, acts, z, p);
    if z.call.value.pcs[s].Exited? {
      TooLate(y, r, p, s, acts, z);
    } else {
      BlockedBelow(y, r, p, s, acts, z);
    }
  }

  lemma CancelNow(y: System) returns (z: System)
    requires Reachable(y) && y.call.Some?
    ensures Exec(y, [Cancel]) == Some(z) && Reachable(z) && z == y.(call := Some(y.call.value.(cancelled := true)))
  {
    z := Apply(y, Cancel);
    ReachableNext(y, Cancel);
    ExecOne(y, Cancel);
  }

  /** The context is cancelled with p past its guard and s before it. */
  lemma CancelledBelow(y: System, p: Name, s: Name) returns (acts: seq<Action>, z: System)
    requires Reachable(y) && y.call.Some? && WaitsOn(y, p, s) && p != s
    requires p in y.call.value.pcs && y.call.value.pcs[p] == Gathering({})
    requires s in y.call.value.pcs && y.call.value.pcs[s].AtGuard? && !Done(y.world, y.call.value.dir, s)
    ensures Exec(y, acts) == Some(z) && End !in acts && Doomed(z, p)
  {
    var y1 := CancelNow(y);
    var leave, y2 := LeavesAtGuard(y1, s);
    var join;
    join, z := JoinsLate(y2, p, s);
    ExecTwice(y1, leave, join);
    ExecTwice(y, [Cancel], leave + join);
    acts := [Cancel] + (leave + join);
  }

  /** A waiter has passed its guard when the context is cancelled, while what it waits for
      has not. */
  lemma CancelledWaiterHangs(y: System, r: map<Name, nat>, p: Name, s: Name)
    requires Reachable(y) && JustBegun(y) && Ranks(y, r) && WaitsOn(y, p, s)
    ensures !SureToReturn(y, true)
  {
    ReachableFrame(y);
    ReachablePc(y, s);
    WaitersRank(y, r, p, s);
    var a, y1 := PassesGuard(y, p);
    var more, z := CancelledBelow(y1, p, s);
    ExecTwice(y, [a], more);
    StuckMeansUnsure(y, [a] + more, z, p, true);
  }

  // ---------- the theorems ----------

  /** The calls that are sure to return if they are not cancelled: nobody waits for a service
      that is going to fail, and no service is going to fail for the 33rd time in a row. */
  lemma ReturnsIff(y: System, r: map<Name, nat>)
    requires Reachable(y) && JustBegun(y) && Ranks(y, r)
    ensures SureToReturn(y, false) <==>
            forall s :: WillFail(y, r, s) ==>
              && FailStreak(y.world.log, y.call.value.dir, s) < 32
              && forall p :: !WaitsOn(y, p, s)
  {
    if s :| WillFail(y, r, s) && FailStreak(y.world.log, y.call.value.dir, s) >= CAPACITY {
      FullStreakBlocks(y, r, s);
    } else if s, p :| WillFail(y, r, s) && WaitsOn(y, p, s) {
      WaiterHangs(y, r, p, s);
    } else {
      forall acts | Exec(y, acts).Some? && End !in acts && Cancel !in acts && NoMoves(Exec(y, acts).value)
        ensures Returned(Exec(y, acts).value)
      {
        var z := Exec(y, acts).value;
        LaterIn(y, acts, z);
        StuckIff(z);
        if s :| Doomed(z, s) {
          DoomCause(y, r, acts, z, s);
        } else if s :| Overflowed(z, s) {
          OverflowCause(y, r, acts, z, s);
        }
      }
    }
  }

  /** The calls that are sure to return even if they are cancelled on the way: no two
      services that have to be brought to the goal depend on each other. */
  lemma ReturnsEvenIfCancelledIff(y: System, r: map<Name, nat>)
    requires Reachable(y) && JustBegun(y) && Ranks(y, r)
    ensures SureToReturn(y, true) <==>
            && (forall p, s :: !WaitsOn(y, p, s))
            && forall s :: WillFail(y, r, s) ==> FailStreak(y.world.log, y.call.value.dir, s) < 32
  {
    if p, s :| WaitsOn(y, p, s) {
      CancelledWaiterHangs(y, r, p, s);
    } else if s :| WillFail(y, r, s) && FailStreak(y.world.log, y.call.value.dir, s) >= CAPACITY {
      FullStreakBlocks(y, r, s);
    } else {
      forall acts | Exec(y, acts).Some? && End !in acts && NoMoves(Exec(y, acts).value)
        ensures Returned(Exec(y, acts).value)
      {
        var z := Exec(y, acts).value;
        LaterIn(y, acts, z);
        StuckIff(z);
        if s :| Doomed(z, s) {
          DoomCause(y, r, acts, z, s);
        } else if s :| Overflowed(z, s) {
          OverflowCause(y, r, acts, z, s);
        }
      }
    }
  }
}
