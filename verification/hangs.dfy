/** Concrete calls past their checks that do not return: reachable states from which no
    continuation gets there. */
module Hangs {
  import opened Errors
  import opened Channels
  import opened Services
  import opened Graphs
  import opened Worlds
  import opened Protocol
  import opened Invariants
  import opened Reachability
  import opened Lifetime
  import opened Outcomes
  import opened Runs
  import opened Progress
  import opened Termination
  import opened Returns

  const A := "a"
  const B := "b"

  /** Whatever happens from now on, the call goes on and does not return. */
  ghost predicate NeverReturns(z: System) {
    forall acts :: Exec(z, acts).Some? ==> Exec(z, acts).value.call.Some? && !Returned(Exec(z, acts).value)
  }

  lemma InitialIsReachable()
    ensures Reachable(INITIAL)
  {
    assert Exec(INITIAL, []) == Some(INITIAL);
  }

  /** A call that is not sure to return has a run that gets stuck for good. */
  lemma Hang(y: System, r: map<Name, nat>, cancels: bool) returns (acts: seq<Action>, z: System, t: Name)
    requires Reachable(y) && JustBegun(y) && Ranks(y, r) && !SureToReturn(y, cancels)
    ensures End !in acts && (Cancel in acts ==> cancels) && Exec(y, acts) == Some(z)
    ensures Reachable(z) && SameCall(y, z) && NoMoves(z) && NeverReturns(z)
    ensures || (Overflowed(z, t) && WillFail(y, r, t) && FailStreak(y.world.log, y.call.value.dir, t) >= CAPACITY)
            || (Doomed(z, t) && WaitsOn(y, t, z.call.value.pcs[t].on))
    ensures z.call.value.cancelled <==> Cancel in acts
  {
    acts :| Exec(y, acts).Some? && End !in acts && (Cancel in acts ==> cancels) && NoMoves(Exec(y, acts).value)
      && !Returned(Exec(y, acts).value);
    z := Exec(y, acts).value;
    LaterIn(y, acts, z);
    StuckIff(z);
    t :| Doomed(z, t) || Overflowed(z, t);
    if Doomed(z, t) {
      DoomCause(y, r, acts, z, t);
    } else {
      OverflowCause(y, r, acts, z, t);
    }
    forall more | Exec(z, more).Some?
      ensures Exec(z, more).value.call.Some? && !Returned(Exec(z, more).value)
    {
      StuckForever(z, more, Exec(z, more).value, t);
    }
  }

  // ---------- two services, the second depending on the first ----------

  const TWO := map[A := Spec({}, 0), B := Spec({A}, 0)]

  /** Both would succeed at their first attempt. */
  const BOTH: set<(Name, nat)> := {(A, 1), (B, 1)}

  lemma TwoServices() returns (y: System)
    ensures Reachable(y) && y.call.None? && y.world.log == [] && y.world.specs == TWO
    ensures y.world.bases == map[A := Initial(), B := Initial()]
  {
    InitialIsReachable();
    var y1 := Apply(INITIAL, AddService(A, Spec({}, 0)));
    ReachableNext(INITIAL, AddService(A, Spec({}, 0)));
    y := Apply(y1, AddService(B, Spec({A}, 0)));
    ReachableNext(y1, AddService(B, Spec({A}, 0)));
  }

  lemma TwoAreAcyclic()
    ensures Closed(DepGraph(TWO)) && !HasCycle(DepGraph(TWO))
  {
    var g := DepGraph(TWO);
    assert g == map[A := {}, B := {A}];
    assert Ranked(g, g.Keys, map[A := 0, B := 1]);
    AcyclicIffRanked(g);
  }

  /** The first boot of the two, with an arbitrary table of outcomes. */
  lemma TwoServicesBoot(wins: set<(Name, nat)>) returns (y: System, r: map<Name, nat>)
    ensures Reachable(y) && JustBegun(y) && Ranks(y, r) && y.world.log == [] && y.world.specs == TWO
    ensures y.call.value.dir == Boot && y.call.value.at0 == {} && y.call.value.wins == wins
  {
    var y0 := TwoServices();
    TwoAreAcyclic();
    y := Apply(y0, Begin(Boot, false, wins));
    ReachableNext(y0, Begin(Boot, false, wins));
    ReachableFrame(y);
    r :| PendingRank(y.world.specs, y.call.value.dir, y.call.value.at0, r);
  }

  /** A dependent that subscribes after the failure is told nothing, ever. */
  lemma LateSubscriberHangs() returns (z: System)
    ensures Reachable(z) && z.call.Some? && z.call.value.dir == Boot && !z.call.value.cancelled
    ensures z.world.specs == TWO && Doomed(z, B) && NeverReturns(z)
  {
    var y, r := TwoServicesBoot({});
    assert WillFail(y, r, A) && WaitsOn(y, B, A);
    ReturnsIff(y, r);
    var acts, t;
    acts, z, t := Hang(y, r, false);
  }

  /** With nothing to fail, the boot of the two is sure to return, but no longer when it may
      be cancelled: what returns on cancellation tells nobody. */
  lemma CancellationHangs() returns (y: System, z: System, acts: seq<Action>)
    ensures Reachable(y) && JustBegun(y) && y.world.specs == TWO && SureToReturn(y, false)
    ensures Exec(y, acts) == Some(z) && Reachable(z) && z.call.Some? && z.call.value.cancelled
    ensures Doomed(z, B) && NeverReturns(z)
  {
    var r;
    y, r := TwoServicesBoot(BOTH);
    assert (A, 1) in BOTH && (B, 1) in BOTH;
    assert CanSucceed(TWO, BOTH, A) && CanSucceed(TWO, BOTH, B);
    ReturnsIff(y, r);
    assert WaitsOn(y, B, A);
    ReturnsEvenIfCancelledIff(y, r);
    var t;
    acts, z, t := Hang(y, r, true);
    assert Cancel in acts;
  }

  lemma BootLogsNoStop(x: System, s: Name)
    requires Reachable(x) && x.call.Some? && x.call.value.begin == 0 && x.call.value.dir == Boot
    ensures FailStreak(x.world.log, Shut, s) == 0
  {
    var log := x.world.log;
    forall i | 0 <= i < |log| ensures log[i].dir == Boot {
      ReachableEvent(x, i);
    }
    StreakUntouched(log, 0, |log|, Shut, s);
    assert log[..|log|] == log;
  }

  /** After a successful StartAll of the two. */
  lemma TwoAreUp() returns (u: System)
    ensures Reachable(u) && u.call.None? && u.world.specs == TWO && u.world.bases.Keys == {A, B}
    ensures !Done(u.world, Shut, A) && !Done(u.world, Shut, B)
    ensures FailStreak(u.world.log, Shut, A) == FailStreak(u.world.log, Shut, B) == 0
  {
    var y, r := TwoServicesBoot(BOTH);
    var acts, x := RunOut(y, None);
    LaterIn(y, acts, x);
    assert (A, 1) in BOTH && (B, 1) in BOTH;
    assert CanSucceed(TWO, BOTH, A) && CanSucceed(TWO, BOTH, B);
    SuccessIff(x);
    ReachableShape(x);
    BootLogsNoStop(x, A);
    BootLogsNoStop(x, B);
    assert Done(x.world, Boot, A) && Done(x.world, Boot, B);
    u := Apply(x, End);
    ReachableNext(x, End);
  }

  /** And a StopAll in which both would stop does stop both, without an error. */
  lemma TwoAreDown() returns (u: System, acts: seq<Action>, z: System)
    ensures Reachable(u) && u.call.None? && u.world.specs == TWO && u.world.bases.Keys == {A, B}
    ensures u.world.bases[A].started && u.world.bases[B].started
    ensures Enabled(u, Begin(Shut, false, BOTH)) && Exec(Apply(u, Begin(Shut, false, BOTH)), acts) == Some(z)
    ensures Returned(z) && z.call.value.errC == [] && z.world.bases.Keys == {A, B}
    ensures z.world.bases[A].stopped && z.world.bases[B].stopped
  {
    u := TwoAreUp();
    ReachableShape(u);
    var y := Apply(u, Begin(Shut, false, BOTH));
    ReachableNext(u, Begin(Shut, false, BOTH));
    acts, z := RunOut(y, None);
    CallIsTheAction(u, Shut, false, BOTH, acts, z);
    ReachableShape(z);
    assert (A, 1) in BOTH && (B, 1) in BOTH;
    assert CanSucceed(TWO, BOTH, A) && CanSucceed(TWO, BOTH, B);
    SuccessIff(z);
    assert Done(z.world, Shut, A) && Done(z.world, Shut, B);
  }

  /** A shutdown of the two in which neither would stop. */
  lemma TwoServicesStop() returns (y: System, r: map<Name, nat>)
    ensures Reachable(y) && JustBegun(y) && Ranks(y, r) && y.world.specs == TWO
    ensures y.call.value.dir == Shut && y.call.value.at0 == {} && y.call.value.wins == {}
    ensures FailStreak(y.world.log, Shut, A) == FailStreak(y.world.log, Shut, B) == 0
  {
    var u := TwoAreUp();
    y := Apply(u, Begin(Shut, false, {}));
    ReachableNext(u, Begin(Shut, false, {}));
    ReachableFrame(y);
    r :| PendingRank(y.world.specs, y.call.value.dir, y.call.value.at0, r);
  }

  /** StopAll hangs in the same way, on a dependent that has failed to stop. */
  lemma StopAllHangs() returns (z: System)
    ensures Reachable(z) && z.call.Some? && z.call.value.dir == Shut && !z.call.value.cancelled
    ensures z.world.specs == TWO && Doomed(z, A) && NeverReturns(z)
  {
    var y, r := TwoServicesStop();
    assert B in Prereqs(TWO, Shut, A);
    assert WillFail(y, r, B) && WaitsOn(y, A, B);
    ReturnsIff(y, r);
    var acts, t;
    acts, z, t := Hang(y, r, false);
  }

  // ---------- one service that has failed 32 times ----------

  const ONE := map[A := Spec({}, 0)]

  /** One service, no call running, and n failures in a row so far. */
  ghost predicate FailedTimes(y: System, n: nat) {
    && Reachable(y) && y.call.None? && y.world.specs == ONE && !Done(y.world, Boot, A)
    && FailStreak(y.world.log, Boot, A) == n
  }

  lemma BootAgain(y: System, n: nat) returns (z: System, r: map<Name, nat>)
    requires FailedTimes(y, n)
    ensures Reachable(z) && JustBegun(z) && Ranks(z, r) && z.world == y.world
    ensures z.call.value.dir == Boot && z.call.value.at0 == {} && z.call.value.wins == {}
  {
    var g := DepGraph(ONE);
    assert g == map[A := {}];
    assert Ranked(g, g.Keys, map[A := 0]);
    AcyclicIffRanked(g);
    ReachableShape(y);
    z, r := Apply(y, Begin(Boot, false, {})), map[A := 0];
    ReachableNext(y, Begin(Boot, false, {}));
  }

  /** A boot of that service returns as long as its failures fit. */
  lemma FailsAndReturns(y: System, r: map<Name, nat>) returns (z: System)
    requires Reachable(y) && JustBegun(y) && Ranks(y, r) && y.world.specs == ONE
    requires y.call.value.dir == Boot && y.call.value.at0 == {} && y.call.value.wins == {}
    requires FailStreak(y.world.log, Boot, A) < CAPACITY
    ensures Reachable(z) && Returned(z) && SameCall(y, z) && !z.call.value.cancelled
    ensures z.world.log[..z.call.value.begin] == y.world.log
  {
    ReturnsIff(y, r);
    var acts;
    acts, z := RunOut(y, None);
    LaterIn(y, acts, z);
    assert Returned(Exec(y, acts).value);
  }

  lemma FailOnceMore(y: System, n: nat) returns (z: System)
    requires FailedTimes(y, n) && n < CAPACITY
    ensures FailedTimes(z, n + 1)
  {
    var y1, r := BootAgain(y, n);
    var y2 := FailsAndReturns(y1, r);
    ScheduleIndependence(y2, r, A);
    HowItEnded(y2, A);
    StreakGrows(y2, A, y2.call.value.pcs[A].err.value);
    z := Apply(y2, End);
    ReachableNext(y2, End);
  }

  lemma {:induction false} FailUpTo(n: nat) returns (z: System)
    requires n <= CAPACITY
    ensures FailedTimes(z, n)
  {
    if n == 0 {
      InitialIsReachable();
      z := Apply(INITIAL, AddService(A, Spec({}, 0)));
      ReachableNext(INITIAL, AddService(A, Spec({}, 0)));
    } else {
      var y := FailUpTo(n - 1);
      z := FailOnceMore(y, n - 1);
    }
  }

  lemma OverflowIsThe33rd(z: System, s: Name)
    requires Reachable(z) && Overflowed(z, s)
    ensures FailStreak(z.world.log, z.call.value.dir, s) == 33
  {
    ReachableServing(z, s);
    var l := ReachableLeak(z, z.call.value.dir, s);
  }

  /** Nobody subscribes but the library itself, and still the 33rd StartAll hangs on the
      channel that the guard of the first one has thrown away. */
  lemma ThirtyThirdFailureHangs() returns (z: System)
    ensures Reachable(z) && z.call.Some? && z.call.value.dir == Boot && !z.call.value.cancelled
    ensures z.world.specs == ONE && Overflowed(z, A) && NeverReturns(z)
    ensures FailStreak(z.world.log, Boot, A) == 33
  {
    var y := FailUpTo(CAPACITY);
    var y1, r := BootAgain(y, CAPACITY);
    assert WillFail(y1, r, A);
    ReturnsIff(y1, r);
    var acts, t;
    acts, z, t := Hang(y1, r, false);
    OverflowIsThe33rd(z, A);
  }
}
