/** How a call ends: the same for every interleaving, in the order of the graph, with one
    error for each failure, and with a root cause for each of them. */
module Outcomes {
  import opened Collections
  import opened Errors
  import opened Services
  import opened Retries
  import opened Worlds
  import opened Protocol
  import opened Invariants
  import opened Reachability
  import opened Runs

  /** All goroutines have returned: the call hands out errC. */
  ghost predicate Returned(y: System) {
    y.call.Some? && forall s :: s in y.call.value.pcs ==> y.call.value.pcs[s].Exited?
  }

  // ---------- schedule independence ----------

  /** The sequential reading of a call, as a recursion over the graph: a service reaches
      the goal iff it was there, or everything it waits for does and it can succeed. */
  ghost predicate Expected(specs: map<Name, Spec>, dir: Dir, at0: set<Name>, wins: set<(Name, nat)>,
                           r: map<Name, nat>, s: Name)
    requires PendingRank(specs, dir, at0, r) && s in specs
    decreases if s in r then r[s] else 0
  {
    s in at0 ||
    (&& CanSucceed(specs, wins, s)
     && forall d :: d in Prereqs(specs, dir, s) && d !in at0 ==> Expected(specs, dir, at0, wins, r, d))
  }

  /** A service that publishes a failure misses its goal and has somebody to blame. */
  lemma FailureIsBlamed(y: System, s: Name, e: Error)
    requires Reachable(y) && y.call.Some? && FailedWith(y.call.value, s, e)
    ensures Blamed(y.world, y.call.value, s, e) && s !in y.call.value.at0 && !Done(y.world, y.call.value.dir, s)
  {
    ReachableFrame(y);
    ReachableFailure(y, s, e);
  }

  lemma FailedIsNotDone(y: System, d: Name)
    requires Reachable(y) && y.call.Some? && Failed(y.call.value, d)
    ensures !Done(y.world, y.call.value.dir, d)
  {
    var e :| FailedWith(y.call.value, d, e);
    FailureIsBlamed(y, d, e);
  }

  /** A goroutine of an uncancelled call ends at the goal or with a published failure. */
  lemma HowItEnded(y: System, s: Name)
    requires Reachable(y) && Returned(y) && !y.call.value.cancelled && s in y.world.specs
    ensures s in y.call.value.pcs && y.call.value.pcs[s].Exited?
    ensures var k := y.call.value;
            match k.pcs[s].err
            case None => Done(y.world, k.dir, s)
            case Some(e) => FailedWith(k, s, e)
  {
    var k := y.call.value;
    ReachableFrame(y);
    ReachableEnd(y, s);
    if k.pcs[s].err.Some? {
      var e := k.pcs[s].err.value;
      assert k.pcs[s] == Exited(Some(e)) && Announced(k.dir, s, e);
    }
  }

  lemma ReachableEarned(y: System, s: Name)
    requires Reachable(y) && y.call.Some? && s in y.world.specs && s !in y.call.value.at0
    requires Done(y.world, y.call.value.dir, s)
    ensures Earned(y.world, y.call.value, s)
  {
    ReachableOrder(y);
  }

  /** Without cancellation, a finished service is at the goal iff it deserves to be. */
  lemma GoalIffDeserved(y: System, s: Name)
    requires Reachable(y) && Returned(y) && !y.call.value.cancelled
    requires s in y.world.specs && s !in y.call.value.at0
    ensures var k := y.call.value;
            Done(y.world, k.dir, s) <==>
              CanSucceed(y.world.specs, k.wins, s) && AllDone(y.world, k.dir, Prereqs(y.world.specs, k.dir, s))
  {
    var w, k := y.world, y.call.value;
    HowItEnded(y, s);
    if Done(w, k.dir, s) {
      ReachableEarned(y, s);
    } else {
      FailureIsBlamed(y, s, k.pcs[s].err.value);
      if d :| d in Prereqs(w.specs, k.dir, s) && Failed(k, d) {
        FailedIsNotDone(y, d);
      }
    }
  }

  /** Whatever was cancelled and whoever is still at work, a service at the goal is one that
      the sequential recursion brings there too. */
  lemma {:induction false} DoneIsExpected(y: System, r: map<Name, nat>, s: Name)
    requires Reachable(y) && y.call.Some? && s in y.world.specs && Done(y.world, y.call.value.dir, s)
    requires PendingRank(y.world.specs, y.call.value.dir, y.call.value.at0, r)
    ensures Expected(y.world.specs, y.call.value.dir, y.call.value.at0, y.call.value.wins, r, s)
    decreases if s in r then r[s] else 0
  {
    var w, k := y.world, y.call.value;
    if s !in k.at0 {
      ReachableEarned(y, s);
      forall d | d in Prereqs(w.specs, k.dir, s) && d !in k.at0
        ensures Expected(w.specs, k.dir, k.at0, k.wins, r, d)
      {
        DoneIsExpected(y, r, d);
      }
    }
  }

  /** Every uncancelled call that returns ends with exactly the services at the goal that
      the sequential recursion computes, whatever the interleaving was. */
  lemma {:induction false} ScheduleIndependence(y: System, r: map<Name, nat>, s: Name)
    requires Reachable(y) && Returned(y) && !y.call.value.cancelled && s in y.world.specs
    requires PendingRank(y.world.specs, y.call.value.dir, y.call.value.at0, r)
    ensures var k := y.call.value;
            Done(y.world, k.dir, s) <==> Expected(y.world.specs, k.dir, k.at0, k.wins, r, s)
    decreases if s in r then r[s] else 0
  {
    var k := y.call.value;
    ReachableFrame(y);
    if s !in k.at0 {
      GoalIffDeserved(y, s);
      forall d | d in Prereqs(y.world.specs, k.dir, s) && d !in k.at0
        ensures Done(y.world, k.dir, d) <==> Expected(y.world.specs, k.dir, k.at0, k.wins, r, d)
      {
        ScheduleIndependence(y, r, d);
      }
    }
  }

  /** Two runs of the same call agree on every service. */
  lemma RunsAgree(y: System, z: System, s: Name)
    requires Reachable(y) && Returned(y) && !y.call.value.cancelled
    requires Reachable(z) && Returned(z) && !z.call.value.cancelled
    requires z.world.specs == y.world.specs && z.call.value.dir == y.call.value.dir
    requires z.call.value.at0 == y.call.value.at0 && z.call.value.wins == y.call.value.wins
    requires s in y.world.specs
    ensures Done(y.world, y.call.value.dir, s) <==> Done(z.world, z.call.value.dir, s)
  {
    ReachableFrame(y);
    var r :| PendingRank(y.world.specs, y.call.value.dir, y.call.value.at0, r);
    ScheduleIndependence(y, r, s);
    ScheduleIndependence(z, r, s);
  }

  /** The outcome of an uncancelled call that returns, said of the action that begins it: a
      service is at the goal iff it was, or one of its max(1, maxRetries) attempts succeeds
      and everything that it has to wait for is at the goal. */
  lemma OutcomeOfCall(u: System, dir: Dir, wins: set<(Name, nat)>, acts: seq<Action>, z: System, s: Name)
    requires Reachable(u) && Enabled(u, Begin(dir, false, wins))
    requires End !in acts && Cancel !in acts && Exec(Apply(u, Begin(dir, false, wins)), acts) == Some(z)
    requires Returned(z) && s in u.world.specs
    ensures s in u.world.bases && s in z.world.bases && z.world.bases.Keys == u.world.specs.Keys
    ensures var spec, b, b' := u.world.specs[s], u.world.bases[s], z.world.bases[s];
            var wins' := exists n :: (s, n) in wins && 1 <= n && (n == 1 || n <= spec.retries);
            if dir.Boot? then
              b'.started <==> b.started || (wins' && forall d :: d in spec.deps ==>
                                              d in z.world.bases && z.world.bases[d].started)
            else
              b'.stopped <==> b.stopped || (wins' && forall p :: p in u.world.specs && s in u.world.specs[p].deps ==>
                                              z.world.bases[p].stopped)
  {
    CallIsTheAction(u, dir, false, wins, acts, z);
    ReachableShape(z);
    ReachableFrame(z);
    if s !in z.call.value.at0 {
      GoalIffDeserved(z, s);
      AttemptsInPlain(u.world.specs, wins, s);
      DoneInPlain(z.world, dir, s);
    }
  }

  lemma AttemptsInPlain(specs: map<Name, Spec>, wins: set<(Name, nat)>, s: Name)
    requires s in specs
    ensures CanSucceed(specs, wins, s) <==>
            exists n :: (s, n) in wins && 1 <= n && (n == 1 || n <= specs[s].retries)
  {
    if n :| (s, n) in wins && 1 <= n && (n == 1 || n <= specs[s].retries) {
      assert n <= MaxTries(specs[s].retries);
    }
  }

  lemma DoneInPlain(w: World, dir: Dir, s: Name)
    requires Shaped(w) && s in w.specs
    ensures AllDone(w, dir, Prereqs(w.specs, dir, s)) <==>
            if dir.Boot? then forall d :: d in w.specs[s].deps ==> d in w.bases && w.bases[d].started
            else forall p :: p in w.specs && s in w.specs[p].deps ==> w.bases[p].stopped
  {
    if dir.Shut? && forall p :: p in w.specs && s in w.specs[p].deps ==> w.bases[p].stopped {
      forall p | p in Prereqs(w.specs, Shut, s) ensures Done(w, Shut, p) {
      }
    }
    if dir.Shut? && AllDone(w, dir, Prereqs(w.specs, dir, s)) {
      forall p | p in w.specs && s in w.specs[p].deps ensures w.bases[p].stopped {
        assert p in Prereqs(w.specs, Shut, s) && Done(w, Shut, p);
      }
    }
  }

  /** Said for shutdown: an uncancelled StopAll that returns leaves running what ran before
      and either fails on all its attempts or has a dependent that keeps running. */
  lemma StopLeavesRunning(u: System, wins: set<(Name, nat)>, acts: seq<Action>, z: System, s: Name)
    requires Reachable(u) && Enabled(u, Begin(Shut, false, wins))
    requires End !in acts && Cancel !in acts && Exec(Apply(u, Begin(Shut, false, wins)), acts) == Some(z)
    requires Returned(z) && s in u.world.specs
    ensures s in u.world.bases && s in z.world.bases && z.world.bases.Keys == u.world.specs.Keys
    ensures z.world.bases[s].started <==>
            && u.world.bases[s].started
            && (|| (forall n :: (s, n) in wins && 1 <= n ==> n > 1 && n > u.world.specs[s].retries)
                || exists p :: p in u.world.specs && s in u.world.specs[p].deps && z.world.bases[p].started)
  {
    OutcomeOfCall(u, Shut, wins, acts, z, s);
    CallIsTheAction(u, Shut, false, wins, acts, z);
    ReachableShape(u);
    ReachableShape(z);
  }

  // ---------- order of effects ----------

  /** A goal that holds for a service holds for everything it waits for. */
  lemma GoalsAreClosed(y: System, dir: Dir, s: Name)
    requires Reachable(y) && s in y.world.specs && Done(y.world, dir, s)
    ensures AllDone(y.world, dir, Prereqs(y.world.specs, dir, s))
  {
    ReachableOk(y);
  }

  lemma {:induction false} GoalAlongChain(y: System, dir: Dir, c: seq<Name>)
    requires Reachable(y) && WaitChain(y.world.specs, dir, c) && Done(y.world, dir, c[0])
    ensures forall i :: 0 <= i < |c| ==> Done(y.world, dir, c[i])
  {
    ReachableShape(y);
    if |c| > 1 {
      GoalsAreClosed(y, dir, c[0]);
      ChainTail(y.world.specs, dir, c);
      GoalAlongChain(y, dir, c[1..]);
      forall i | 0 <= i < |c| ensures Done(y.world, dir, c[i]) {
        assert i > 0 ==> c[i] == c[1..][i - 1];
      }
    }
  }

  /** When s.Start is called all transitive dependencies are running, when s.Stop is called
      all transitive dependents are stopped; and Start is handed exactly the dependencies. */
  lemma CalledInOrder(y: System, s: Name, c: seq<Name>)
    requires Reachable(y) && Enabled(y, Go(s, Try))
    requires WaitChain(y.world.specs, y.call.value.dir, c) && c[0] == s
    ensures s in y.world.specs
    ensures forall i :: 1 <= i < |c| ==>
              && c[i] in y.world.bases
              && (if y.call.value.dir.Boot? then y.world.bases[c[i]].started else y.world.bases[c[i]].stopped)
    ensures !Done(y.world, y.call.value.dir, s)
    ensures Apply(y, Go(s, Try)).world.log ==
            y.world.log + [Invoked(y.call.value.dir, s, y.call.value.pcs[s].attempt,
                                   if y.call.value.dir.Boot? then y.world.specs[s].deps else {})]
  {
    var dir := y.call.value.dir;
    ReachablePc(y, s);
    if |c| > 1 {
      ChainTail(y.world.specs, dir, c);
      GoalAlongChain(y, dir, c[1..]);
      forall i | 1 <= i < |c| ensures Done(y.world, dir, c[i]) {
        assert c[i] == c[1..][i - 1];
      }
    }
  }

  /** The goals reached in one call are published in an order that extends the graph's:
      each once, and after everything that had to come first. */
  lemma LinearExtension(y: System, i: nat, s: Name, d: Name)
    requires Reachable(y) && y.call.Some? && y.call.value.begin <= i < |y.world.log|
    requires y.world.log[i] == Published(y.call.value.dir, s, None)
    requires s in y.world.specs && d in Prereqs(y.world.specs, y.call.value.dir, s)
    ensures s !in y.call.value.at0
    ensures forall j :: y.call.value.begin <= j < |y.world.log| && y.world.log[j] == y.world.log[i] ==> j == i
    ensures d in y.call.value.at0 ||
            exists j :: y.call.value.begin <= j < i && y.world.log[j] == Published(y.call.value.dir, d, None)
  {
    var w, k := y.world, y.call.value;
    ReachableOrder(y);
    assert EventOk(w, k, i);
    if d !in k.at0 {
      var part := w.log[k.begin..i];
      var j :| 0 <= j < |part| && part[j] == Published(k.dir, d, None);
      assert w.log[k.begin + j] == Published(k.dir, d, None);
    }
  }

  /** A service that was at the goal when the call began is never called. */
  lemma NotCalledAtGoal(y: System, i: nat)
    requires Reachable(y) && y.call.Some? && y.call.value.begin <= i < |y.world.log|
    requires y.world.log[i].Invoked?
    ensures y.world.log[i].service !in y.call.value.at0
  {
    ReachableOrder(y);
    assert EventOk(y.world, y.call.value, i);
  }

  // ---------- the error channel ----------

  ghost function Reporters(k: Call): set<Name> {
    set s | s in k.pcs && k.pcs[s].Exited? && k.pcs[s].err.Some?
  }

  lemma ReportersCounted(k: Call)
    requires ErrOk(k)
    ensures |k.errC| == |Reporters(k)|
  {
    var names := seq(|k.errC|, i requires 0 <= i < |k.errC| => k.errC[i].0);
    forall s ensures s in names <==> s in Reporters(k) {
      if s in Reporters(k) {
        assert (s, k.pcs[s].err.value) in k.errC;
        var i :| 0 <= i < |k.errC| && k.errC[i] == (s, k.pcs[s].err.value);
        assert names[i] == s;
      }
    }
    DistinctCounts(names, Reporters(k));
  }

  lemma ReportFits(y: System, s: Name)
    requires Reachable(y) && y.call.Some? && s in y.call.value.pcs && y.call.value.pcs[s].Returning?
    ensures Enabled(y, Go(s, Report))
  {
    var w, k := y.world, y.call.value;
    ReachableFrame(y);
    ReachableShape(y);
    ReachableErrors(y);
    ReportersCounted(k);
    SubsetCounts(Reporters(k), w.specs.Keys - {s});
  }

  /** Whoever ended without an error is at the goal. */
  lemma NoErrorMeansDone(y: System, s: Name)
    requires Reachable(y) && y.call.Some? && s in y.call.value.pcs && y.call.value.pcs[s] == Exited(None)
    ensures Done(y.world, y.call.value.dir, s)
  {
    ReachableEnd(y, s);
  }

  /** At every moment errC holds one error for each goroutine that ended with one, there
      is room for all that are still to come, and when the call returns every service
      without an error is at the goal. */
  lemma ErrorConservation(y: System)
    requires Reachable(y) && y.call.Some?
    ensures var k := y.call.value;
            && |k.errC| == |Reporters(k)| <= |y.world.specs|
            && (forall i :: 0 <= i < |k.errC| ==>
                  k.errC[i].0 in k.pcs && k.pcs[k.errC[i].0] == Exited(Some(k.errC[i].1)))
            && (forall s, e :: s in k.pcs && k.pcs[s] == Exited(Some(e)) ==> (s, e) in k.errC)
    ensures forall s :: s in y.call.value.pcs && y.call.value.pcs[s].Returning? ==> Enabled(y, Go(s, Report))
    ensures Returned(y) ==> forall s :: s in y.world.specs && s !in Reporters(y.call.value) ==>
              Done(y.world, y.call.value.dir, s)
  {
    var w, k := y.world, y.call.value;
    ReachableFrame(y);
    ReachableErrors(y);
    ReportersCounted(k);
    SubsetCounts(Reporters(k), w.specs.Keys);
    forall s | s in k.pcs && k.pcs[s].Returning? ensures Enabled(y, Go(s, Report)) {
      ReportFits(y, s);
    }
    forall s | Returned(y) && s in w.specs && s !in Reporters(k) ensures Done(w, k.dir, s) {
      NoErrorMeansDone(y, s);
    }
  }

  lemma ReachableErrors(y: System)
    requires Reachable(y) && y.call.Some?
    ensures ErrOk(y.call.value)
  {
    ReachableOk(y);
  }

  lemma {:induction false} SubsetCounts<T>(a: set<T>, b: set<T>)
    requires a <= b
    ensures |a| <= |b|
  {
    if a != {} {
      var x :| x in a;
      SubsetCounts(a - {x}, b - {x});
    }
  }

  /** Without cancellation the errors are exactly the services that missed the goal. */
  lemma ErrorMeansFailure(y: System, s: Name)
    requires Reachable(y) && Returned(y) && !y.call.value.cancelled && s in y.world.specs
    ensures s in Reporters(y.call.value) <==> !Done(y.world, y.call.value.dir, s)
  {
    HowItEnded(y, s);
    if y.call.value.pcs[s].err.Some? {
      FailureIsBlamed(y, s, y.call.value.pcs[s].err.value);
    }
  }

  /** A call that returns no error has brought every service to its goal. */
  lemma SuccessReachesAll(y: System)
    requires Reachable(y) && Returned(y) && y.call.value.errC == []
    ensures AllDone(y.world, y.call.value.dir, y.world.specs.Keys)
  {
    ErrorConservation(y);
    forall s | s in y.world.specs ensures s !in Reporters(y.call.value) {
      ReachableFrame(y);
    }
  }

  // ---------- root causes ----------

  /** c leads from its first service, each blaming the next one, to one that failed on its
      own after using up all its attempts. */
  ghost predicate BlameChain(w: World, k: Call, c: seq<Name>) {
    && |c| > 0
    && (forall i :: 0 <= i < |c| ==> c[i] in w.specs)
    && (forall i :: 0 <= i < |c| - 1 ==> Blames(w, k, c[i], c[i + 1]))
    && FailedAlone(w, k, c[|c| - 1])
  }

  /** s has failed over d, one of those it has to wait for. */
  ghost predicate Blames(w: World, k: Call, s: Name, d: Name) {
    s in w.specs && d in w.specs &&
    if k.dir.Boot? then d in w.specs[s].deps && FailedWith(k, s, DependencyUnavailable(s, d))
    else s in w.specs[d].deps && FailedWith(k, s, ParentUnavailable(s, d))
  }

  /** s has failed after its own Start or Stop did, on each of its max(1, maxRetries) attempts. */
  ghost predicate FailedAlone(w: World, k: Call, s: Name) {
    s in w.specs && k.begin <= |w.log| &&
    var last := if w.specs[s].retries == 0 then 1 else w.specs[s].retries;
    var deps := if k.dir.Boot? then w.specs[s].deps else {};
    && FailedWith(k, s, if k.dir.Boot? then StartFailure(s, Attempt(last)) else StopFailure(s, Attempt(last)))
    && forall n :: 1 <= n <= last ==> (s, n) !in k.wins && Invoked(k.dir, s, n, deps) in w.log[k.begin..]
  }

  lemma AloneInPlain(w: World, k: Call, s: Name, e: Error)
    requires s in w.specs && FailedWith(k, s, e)
    requires var last := MaxTries(w.specs[s].retries);
             e == Exhaustion(k.dir, s, last) && NoWins(k, s, last) && Tried(w, k, s, last)
    ensures FailedAlone(w, k, s)
  {
    var deps := if k.dir.Boot? then w.specs[s].deps else {};
    assert deps == Passed(w.specs, k.dir, s);
    forall n | 1 <= n <= MaxTries(w.specs[s].retries)
      ensures (s, n) !in k.wins && Invoked(k.dir, s, n, deps) in w.log[k.begin..]
    {
    }
  }

  lemma ChainOn(w: World, k: Call, s: Name, c: seq<Name>)
    requires BlameChain(w, k, c) && Blames(w, k, s, c[0])
    ensures BlameChain(w, k, [s] + c)
  {
    var c' := [s] + c;
    assert c'[|c'| - 1] == c[|c| - 1];
    forall i | 0 <= i < |c'| - 1 ensures Blames(w, k, c'[i], c'[i + 1]) {
      assert i > 0 ==> c'[i] == c[i - 1] && c'[i + 1] == c[i];
    }
  }

  /** Whom a published failure blames: a failed prerequisite, or the service itself. */
  lemma Culprit(y: System, s: Name, e: Error) returns (d: Option<Name>, f: Error)
    requires Reachable(y) && y.call.Some? && FailedWith(y.call.value, s, e)
    ensures s in y.world.specs && s !in y.call.value.at0
    ensures var w, k := y.world, y.call.value;
            if d.Some? then
              && d.value in Prereqs(w.specs, k.dir, s) && Blames(w, k, s, d.value)
              && e == Unavailable(k.dir, s, d.value) && FailedWith(k, d.value, f) && d.value !in k.at0
            else
              var last := MaxTries(w.specs[s].retries);
              FailedAlone(w, k, s) && e == Exhaustion(k.dir, s, last) && NoWins(k, s, last)
  {
    var w, k := y.world, y.call.value;
    FailureIsBlamed(y, s, e);
    d, f := None, e;
    if c :| c in Prereqs(w.specs, k.dir, s) && e == Unavailable(k.dir, s, c) && Failed(k, c) {
      d := Some(c);
      f :| FailedWith(k, c, f);
      FailureIsBlamed(y, c, f);
    } else {
      AloneInPlain(w, k, s, e);
    }
  }

  /** Every published failure, with or without cancellation, has a root cause: a service
      whose own Start or Stop failed on each of its max(1, maxRetries) attempts. */
  lemma {:induction false} RootCause(y: System, r: map<Name, nat>, s: Name, e: Error) returns (c: seq<Name>)
    requires Reachable(y) && y.call.Some? && s in y.world.specs && FailedWith(y.call.value, s, e)
    requires PendingRank(y.world.specs, y.call.value.dir, y.call.value.at0, r)
    ensures BlameChain(y.world, y.call.value, c) && c[0] == s
    decreases if s in r then r[s] else 0
  {
    var d, f := Culprit(y, s, e);
    if d.Some? {
      var tail := RootCause(y, r, d.value, f);
      ChainOn(y.world, y.call.value, s, tail);
      c := [s] + tail;
    } else {
      c := [s];
    }
  }
}
