/** When a call gets stuck, why, and for how long. */
module Progress {
  import opened Errors
  import opened Channels
  import opened Services
  import opened Retries
  import opened Worlds
  import opened Protocol
  import opened Invariants
  import opened Reachability
  import opened Lifetime
  import opened Outcomes
  import opened Runs

  /** s waits on a channel with nothing in it, for a service whose goroutine has ended. */
  ghost predicate Doomed(y: System, s: Name) {
    y.call.Some? && s in y.call.value.pcs && y.call.value.pcs[s].Waiting? &&
    var pc := y.call.value.pcs[s];
    && pc.on in y.call.value.pcs && y.call.value.pcs[pc.on].Exited?
    && pc.chan in y.world.heap && !y.world.heap[pc.chan].Readable()
  }

  /** s is sending the 33rd failure in a row, or a later one. */
  ghost predicate Overflowed(y: System, s: Name) {
    && y.call.Some? && s in y.call.value.pcs && y.call.value.pcs[s].Serving?
    && FailStreak(y.world.log, y.call.value.dir, s) > CAPACITY
  }

  /** Nobody can move, except perhaps the frozen goroutine. */
  ghost predicate NobodyMoves(y: System, frozen: Option<Name>) {
    y.call.Some? && forall s, m :: Enabled(y, Go(s, m)) ==> frozen == Some(s)
  }

  ghost predicate NoMoves(y: System) {
    NobodyMoves(y, None)
  }

  // ---------- who can move ----------

  lemma {:induction false} BoundIds(ids: set<nat>) returns (c: nat)
    ensures forall i :: i in ids ==> i < c
  {
    c := 0;
    if ids != {} {
      var i :| i in ids;
      c := BoundIds(ids - {i});
      assert ids == ids - {i} + {i};
      c := if c <= i then i + 1 else c;
    }
  }

  /** s waits for a message that is not there. */
  ghost predicate Silent(y: System, s: Name) {
    y.call.Some? && s in y.call.value.pcs && y.call.value.pcs[s].Waiting? &&
    var c := y.call.value.pcs[s].chan;
    c in y.world.heap && !y.world.heap[c].Readable()
  }

  /** s waits for the lock of a base whose owner is still sending its failure. */
  ghost predicate LockedOut(y: System, s: Name) {
    y.call.Some? && s in y.call.value.pcs && y.call.value.pcs[s].Calling? &&
    var d := y.call.value.pcs[s].on;
    d in y.call.value.pcs && y.call.value.pcs[d].Serving?
  }

  /** A goroutine that has not ended can move, unless it waits for a message that is not
      there, for a locked base, or for room in a channel that is full for good. */
  lemma MovesUnless(y: System, s: Name)
    requires Reachable(y) && y.call.Some? && s in y.call.value.pcs && !y.call.value.pcs[s].Exited?
    ensures (exists m :: Enabled(y, Go(s, m))) || Silent(y, s) || LockedOut(y, s) || Overflowed(y, s)
  {
    var w, k := y.world, y.call.value;
    ReachablePc(y, s);
    ReachableShape(y);
    match k.pcs[s]
    case AtGuard => GuardIsPassed(y, s);
    case Gathering(got) =>
      if on :| on in Prereqs(w.specs, k.dir, s) && on !in got {
        assert Enabled(y, Go(s, Choose(on)));
      } else {
        assert got == Prereqs(w.specs, k.dir, s);
        assert Enabled(y, Go(s, Launch));
      }
    case Calling(_, on) => CallsUnless(y, s);
    case Waiting(_, _, c) =>
      if w.heap[c].Readable() {
        assert Enabled(y, Go(s, Receive));
      }
    case Trying(_, _) => assert Enabled(y, Go(s, Try));
    case BackingOff(_, _) => assert Enabled(y, Go(s, Retry));
    case Publishing(_) => assert Enabled(y, Go(s, Publish));
    case Serving(_) =>
      if !Overflowed(y, s) {
        NextSendFits(y, s);
      }
    case Returning(_) => ReportFits(y, s);
  }

  lemma GuardIsPassed(y: System, s: Name)
    requires Reachable(y) && y.call.Some? && s in y.call.value.pcs && y.call.value.pcs[s].AtGuard?
    ensures exists m :: Enabled(y, Go(s, m))
  {
    var w, k := y.world, y.call.value;
    ReachablePc(y, s);
    ReachableShape(y);
    var c := BoundIds(w.heap.Keys);
    var pick := if Done(w, k.dir, s) then SeesGoal else if k.cancelled then SeesCancel else Default;
    assert Enabled(y, Go(s, Guard(c, pick)));
  }

  lemma CallsUnless(y: System, s: Name)
    requires Reachable(y) && y.call.Some? && s in y.call.value.pcs && y.call.value.pcs[s].Calling?
    ensures (exists m :: Enabled(y, Go(s, m))) || LockedOut(y, s)
  {
    var on := y.call.value.pcs[s].on;
    ReachablePc(y, s);
    ReachableShape(y);
    ReachableFrame(y);
    PrereqsRegistered(y, s);
    if !LockedOut(y, s) {
      ReachablePc(y, on);
      var c := BoundIds(y.world.heap.Keys);
      assert Enabled(y, Go(s, Subscribe(c)));
    }
  }

  lemma PrereqsRegistered(y: System, s: Name)
    requires Reachable(y) && y.call.Some? && s in y.world.specs
    ensures Prereqs(y.world.specs, y.call.value.dir, s) <= y.world.specs.Keys
  {
    ReachableFrame(y);
    if y.call.value.dir.Boot? {
      assert DepGraph(y.world.specs)[s] == y.world.specs[s].deps;
    }
  }

  // ---------- why a call is stuck ----------

  /** Nobody waits in vain for a service at its goal, so a silent channel belongs to a
      pending service, lower in rank. */
  lemma SilentMeansPending(y: System, s: Name)
    requires Reachable(y) && Silent(y, s)
    ensures var d := y.call.value.pcs[s].on;
            && s in y.world.specs && d in y.call.value.pcs && d in Prereqs(y.world.specs, y.call.value.dir, s)
            && !Done(y.world, y.call.value.dir, d) && d !in y.call.value.at0 && s !in y.call.value.at0
  {
    var d, c := y.call.value.pcs[s].on, y.call.value.pcs[s].chan;
    ReachablePc(y, s);
    ReachableShape(y);
    ReachableChan(y, c);
    ReachableFrame(y);
    PrereqsRegistered(y, s);
    assert c in Listed(y.call.value.dir, y.world.bases[d]);
  }

  /** Following the waiters down the rank from any unfinished goroutine, below the frozen
      one if there is one. */
  lemma {:induction false} StuckCause(y: System, frozen: Option<Name>, r: map<Name, nat>, s: Name) returns (t: Name)
    requires Reachable(y) && NobodyMoves(y, frozen) && s in y.call.value.pcs && !y.call.value.pcs[s].Exited?
    requires PendingRank(y.world.specs, y.call.value.dir, y.call.value.at0, r)
    requires frozen.Some? ==>
               var p := frozen.value;
               p in y.call.value.pcs && y.call.value.pcs[p].AtGuard? && p in r && s in r && r[s] < r[p]
    ensures Doomed(y, t) || Overflowed(y, t)
    decreases if s in r then r[s] else 0
  {
    t := s;
    MovesUnless(y, s);
    if LockedOut(y, s) {
      t := y.call.value.pcs[s].on;
      MovesUnless(y, t);
    } else if Silent(y, s) {
      SilentMeansPending(y, s);
      var d := y.call.value.pcs[s].on;
      ReachablePc(y, s);
      if !y.call.value.pcs[d].Exited? {
        t := StuckCause(y, frozen, r, d);
      }
    }
  }

  lemma InSuffix(log: seq<Event>, at: nat, i: nat)
    requires at <= |log| && i < |log|
    ensures i >= at ==> log[i] in log[at..]
  {
    if i >= at {
      assert log[at..][i - at] == log[i];
    }
  }

  /** A doomed waiter came too late to hear of a failure, or was never going to be told of
      a cancellation. */
  lemma WhyDoomed(y: System, s: Name)
    requires Reachable(y) && Doomed(y, s)
    ensures var k, pc := y.call.value, y.call.value.pcs[s];
            && pc.chan in y.world.subs
            && !Done(y.world, k.dir, pc.on)
            && exists e :: k.pcs[pc.on] == Exited(Some(e)) &&
                 if Announced(k.dir, pc.on, e) then
                   exists i :: k.begin <= i < y.world.subs[pc.chan].at && i < |y.world.log| &&
                     y.world.log[i] == Published(k.dir, pc.on, Some(e))
                 else
                   k.cancelled
  {
    var w, k := y.world, y.call.value;
    var d, c := k.pcs[s].on, k.pcs[s].chan;
    SilentMeansPending(y, s);
    ReachablePc(y, s);
    ReachablePc(y, d);
    ReachableChan(y, c);
    var e := k.pcs[d].err.value;
    if Announced(k.dir, d, e) {
      var i :| k.begin <= i < |w.log| && w.log[i] == Published(k.dir, d, Some(e));
      InSuffix(w.log, w.subs[c].at, i);
      TellIsTheLog(w.log[w.subs[c].at..], k.dir, d);
    }
  }

  /** A call in which nobody can move has returned iff nobody is doomed or overflowed. */
  lemma StuckIff(y: System)
    requires Reachable(y) && NoMoves(y)
    ensures Returned(y) <==> !exists s :: Doomed(y, s) || Overflowed(y, s)
  {
    if !Returned(y) {
      var s :| s in y.call.value.pcs && !y.call.value.pcs[s].Exited?;
      ReachableFrame(y);
      var r :| PendingRank(y.world.specs, y.call.value.dir, y.call.value.at0, r);
      var t := StuckCause(y, None, r, s);
    }
  }

  // ---------- how long it lasts ----------

  lemma WaiterChannel(y: System, s: Name)
    requires Reachable(y) && y.call.Some? && s in y.call.value.pcs && y.call.value.pcs[s].Waiting?
    ensures y.call.value.pcs[s].chan in y.world.subs
    ensures y.world.subs[y.call.value.pcs[s].chan].service == y.call.value.pcs[s].on
    ensures y.world.subs[y.call.value.pcs[s].chan].owner == Waiter(s)
  {
    ReachablePc(y, s);
  }

  lemma DoomedStays(y: System, a: Action, s: Name)
    requires Reachable(y) && Enabled(y, a) && Doomed(y, s)
    ensures Doomed(Apply(y, a), s)
  {
    WaiterChannel(y, s);
    if a.Go? {
      forall dir ensures ListOk(y.world, dir, a.service) {
        ReachableList(y, dir, a.service);
      }
      OthersAreSilent(y.world, y.call.value, a.service, a.move, y.call.value.pcs[s].chan);
    }
  }

  lemma StreakStays(w: World, k: Call, t: Name, m: Move, s: Name)
    requires CanMove(w, k, t, m) && t != s
    ensures FailStreak(WorldAfter(w, k, t, m).log, k.dir, s) == FailStreak(w.log, k.dir, s)
  {
    if m.Try? || m.Publish? {
      FailStreakMore(w.log, WorldAfter(w, k, t, m).log[|w.log|], k.dir, s);
    }
  }

  lemma OverflowStays(y: System, a: Action, s: Name)
    requires Reachable(y) && Enabled(y, a) && Overflowed(y, s)
    ensures Overflowed(Apply(y, a), s)
  {
    NeverReleased(y, s);
    if a.Go? {
      if a.service == s {
        assert a.move.Serve?;
        var z := SendOne(y, s);
      } else {
        StreakStays(y.world, y.call.value, a.service, a.move, s);
      }
    }
  }

  /** Neither cancellation, nor client code, nor anything the other goroutines do ever
      frees such a goroutine: from then on the call does not return. */
  lemma {:induction false} StuckForever(y: System, acts: seq<Action>, z: System, s: Name)
    requires Reachable(y) && Exec(y, acts) == Some(z)
    requires Doomed(y, s) || Overflowed(y, s)
    ensures Doomed(z, s) || Overflowed(z, s)
    ensures z.call.Some? && !Returned(z)
  {
    if acts != [] {
      var n := |acts| - 1;
      var before := Exec(y, acts[..n]).value;
      StuckForever(y, acts[..n], before, s);
      ReachableLater(y, acts[..n], before);
      if Doomed(before, s) {
        DoomedStays(before, acts[n], s);
      } else {
        OverflowStays(before, acts[n], s);
      }
    }
  }

  // ---------- and otherwise ----------

  lemma AloneMeansUnable(y: System, s: Name)
    requires Reachable(y) && y.call.Some? && FailedAlone(y.world, y.call.value, s)
    ensures s !in y.call.value.at0 && !CanSucceed(y.world.specs, y.call.value.wins, s)
  {
    var e :| FailedWith(y.call.value, s, e);
    FailureIsBlamed(y, s, e);
  }

  /** If every service can succeed and nothing is cancelled, nobody fails. */
  lemma NobodyFails(y: System, s: Name)
    requires Reachable(y) && y.call.Some?
    requires forall t :: t in y.world.specs && t !in y.call.value.at0 ==>
               CanSucceed(y.world.specs, y.call.value.wins, t)
    ensures !Failed(y.call.value, s)
  {
    if e :| FailedWith(y.call.value, s, e) {
      ReachableFrame(y);
      var r :| PendingRank(y.world.specs, y.call.value.dir, y.call.value.at0, r);
      var c := RootCause(y, r, s, e);
      AloneMeansUnable(y, c[|c| - 1]);
    }
  }

  lemma NobodyIsStuck(y: System, s: Name)
    requires Reachable(y) && y.call.Some? && !y.call.value.cancelled
    requires forall t :: t in y.world.specs && t !in y.call.value.at0 ==>
               CanSucceed(y.world.specs, y.call.value.wins, t)
    ensures !Doomed(y, s) && !Overflowed(y, s)
  {
    var k := y.call.value;
    if Doomed(y, s) {
      WhyDoomed(y, s);
      NobodyFails(y, k.pcs[s].on);
      assert FailedWith(k, k.pcs[s].on, k.pcs[k.pcs[s].on].err.value);
    } else if Overflowed(y, s) {
      ReachablePc(y, s);
      NobodyFails(y, s);
      assert FailedWith(k, s, k.pcs[s].failure);
    }
  }

  /** An uncancelled call that has run out of moves has returned without an error, and so
      with everything at its goal, iff every service that was not there can succeed. */
  lemma SuccessIff(y: System)
    requires Reachable(y) && NoMoves(y) && !y.call.value.cancelled
    ensures Returned(y) && y.call.value.errC == [] <==>
            forall t :: t in y.world.specs && t !in y.call.value.at0 ==>
              CanSucceed(y.world.specs, y.call.value.wins, t)
    ensures Returned(y) && y.call.value.errC == [] ==> AllDone(y.world, y.call.value.dir, y.world.specs.Keys)
  {
    var k := y.call.value;
    if Returned(y) && k.errC == [] {
      SuccessReachesAll(y);
      ReachableOrder(y);
      forall t | t in y.world.specs && t !in k.at0 ensures CanSucceed(y.world.specs, k.wins, t) {
        assert Done(y.world, k.dir, t) && Earned(y.world, k, t);
      }
    } else if forall t :: t in y.world.specs && t !in k.at0 ==> CanSucceed(y.world.specs, k.wins, t) {
      SuccessIsCertain(y);
    }
  }

  lemma SuccessIsCertain(y: System)
    requires Reachable(y) && NoMoves(y) && !y.call.value.cancelled
    requires forall t :: t in y.world.specs && t !in y.call.value.at0 ==>
               CanSucceed(y.world.specs, y.call.value.wins, t)
    ensures Returned(y) && y.call.value.errC == []
  {
    var k := y.call.value;
    forall s ensures !Doomed(y, s) && !Overflowed(y, s) {
      NobodyIsStuck(y, s);
    }
    StuckIff(y);
    forall s | s in Reporters(k) ensures false {
      ReachableFrame(y);
      HowItEnded(y, s);
      NobodyFails(y, s);
    }
    ErrorConservation(y);
  }

  // ---------- no circular waiting ----------

  /** Each service on the ring waits on a silent channel of the next one. */
  ghost predicate WaitingRing(y: System, ring: seq<Name>) {
    && y.call.Some? && |ring| >= 2 && ring[0] == ring[|ring| - 1]
    && forall i :: 0 <= i < |ring| - 1 ==> WaitsFor(y, ring[i], ring[i + 1])
  }

  ghost predicate WaitsFor(y: System, s: Name, d: Name) {
    Silent(y, s) && y.call.value.pcs[s].on == d
  }

  lemma WaiterRank(y: System, r: map<Name, nat>, s: Name, d: Name)
    requires Reachable(y) && WaitsFor(y, s, d)
    requires PendingRank(y.world.specs, y.call.value.dir, y.call.value.at0, r)
    ensures s in r && d in r && r[d] < r[s]
  {
    SilentMeansPending(y, s);
  }

  lemma {:induction false} WaitersDescend(y: System, r: map<Name, nat>, c: seq<Name>)
    requires Reachable(y) && y.call.Some? && |c| >= 2
    requires PendingRank(y.world.specs, y.call.value.dir, y.call.value.at0, r)
    requires forall i :: 0 <= i < |c| - 1 ==> WaitsFor(y, c[i], c[i + 1])
    ensures c[0] in r && c[|c| - 1] in r && r[c[|c| - 1]] < r[c[0]]
  {
    WaiterRank(y, r, c[0], c[1]);
    if |c| > 2 {
      forall i | 0 <= i < |c[1..]| - 1 ensures WaitsFor(y, c[1..][i], c[1..][i + 1]) {
        assert WaitsFor(y, c[i + 1], c[i + 2]);
      }
      WaitersDescend(y, r, c[1..]);
    }
  }

  /** No reachable state has goroutines waiting for each other in a circle. StopAll needs
      no check for it: cycles in the graph go through services that are not running, and
      nobody has to wait for those. */
  lemma NoCircularWaiting(y: System, ring: seq<Name>)
    requires Reachable(y)
    ensures !WaitingRing(y, ring)
  {
    if WaitingRing(y, ring) {
      ReachableFrame(y);
      var r :| PendingRank(y.world.specs, y.call.value.dir, y.call.value.at0, r);
      WaitersDescend(y, r, ring);
    }
  }
}
