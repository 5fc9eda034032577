/** Booting and shutting down again: idempotence and the way back to a fresh state. */
module Restart {
  import opened Errors
  import opened Services
  import opened Worlds
  import opened Protocol
  import opened Reachability
  import opened Outcomes
  import opened Runs
  import opened Progress

  /** A call that begins with every service at its goal calls none of them, and if it is
      not cancelled it returns no error. */
  lemma RepetitionIsSilent(y: System)
    requires Reachable(y) && y.call.Some? && y.call.value.at0 == y.world.specs.Keys
    ensures forall i :: y.call.value.begin <= i < |y.world.log| ==> !y.world.log[i].Invoked?
    ensures Returned(y) && !y.call.value.cancelled ==> y.call.value.errC == []
  {
    var k := y.call.value;
    ReachableShape(y);
    ReachableFrame(y);
    forall i | k.begin <= i < |y.world.log| ensures !y.world.log[i].Invoked? {
      LoggedIsRegistered(y, i);
      if y.world.log[i].Invoked? {
        NotCalledAtGoal(y, i);
      }
    }
    if Returned(y) && !k.cancelled {
      forall s | s in y.world.specs ensures s !in Reporters(k) {
        ErrorMeansFailure(y, s);
      }
      ErrorConservation(y);
      assert Reporters(k) == {};
    }
  }

  lemma LoggedIsRegistered(y: System, i: nat)
    requires Reachable(y) && i < |y.world.log|
    ensures y.world.log[i].service in y.world.bases
  {
    ReachableOk(y);
  }

  // ---------- cancelled from the start ----------

  /** Nobody got past its guard: who was at the goal may have noticed, the others can only
      have noticed the cancellation. */
  ghost predicate Untouched(y: System) {
    && y.call.Some? && y.call.value.cancelled && |y.world.log| == y.call.value.begin
    && forall s :: s in y.call.value.pcs ==>
         match y.call.value.pcs[s]
         case AtGuard => true
         case Returning(None) => s in y.call.value.at0
         case Exited(None) => s in y.call.value.at0
         case Returning(Some(e)) => e == GuardError(y.call.value.dir, s)
         case Exited(Some(e)) => e == GuardError(y.call.value.dir, s)
         case _ => false
  }

  lemma StepUntouched(y: System, a: Action)
    requires Reachable(y) && Enabled(y, a) && a != End && Untouched(y)
    ensures Untouched(Apply(y, a))
  {
    if a.Go? {
      ReachablePc(y, a.service);
    }
  }

  /** A call whose context is cancelled beforehand calls no service, moves no goal, gives
      every service that was not at the goal the error of its guard, and returns. */
  lemma {:induction false} CancelledBeforehand(u: System, dir: Dir, wins: set<(Name, nat)>, acts: seq<Action>,
                                               z: System)
    requires Reachable(u) && Enabled(u, Begin(dir, true, wins)) && End !in acts
    requires Exec(Apply(u, Begin(dir, true, wins)), acts) == Some(z)
    ensures Untouched(z) && |z.world.log| == |u.world.log|
    ensures NoMoves(z) ==> Returned(z)
  {
    var y := Apply(u, Begin(dir, true, wins));
    ReachableNext(u, Begin(dir, true, wins));
    if acts != [] {
      var n := |acts| - 1;
      var before := Exec(y, acts[..n]).value;
      assert acts == acts[..n] + [acts[n]];
      CancelledBeforehand(u, dir, wins, acts[..n], before);
      ReachableLater(y, acts[..n], before);
      StepUntouched(before, acts[n]);
      StepWithin(before, acts[n]);
    }
    ReachableLater(y, acts, z);
    if NoMoves(z) {
      StuckIff(z);
    }
  }

  // ---------- the round trip ----------

  /** The state of a new base, but for the clients that wait for it to start. */
  ghost predicate Fresh(b: Base<nat>) {
    b.(startedCs := []) == Initial()
  }

  /** No StartAll is at work, and what does not run is as good as new. */
  ghost predicate Booted(y: System) {
    && (y.call.Some? && y.call.value.dir.Boot? ==> Returned(y))
    && forall s :: s in y.world.bases ==> y.world.bases[s].started || Fresh(y.world.bases[s])
  }

  ghost predicate NoBoot(acts: seq<Action>) {
    forall i :: 0 <= i < |acts| && acts[i].Begin? ==> acts[i].dir == Shut
  }

  lemma MoveBooted(w: World, k: Call, s: Name, m: Move, t: Name)
    requires CanMove(w, k, s, m) && k.dir == Shut && (m.Publish? ==> !AtGoal(Shut, w.bases[s]))
    requires t in w.bases && Disciplined(w.bases[t]) && (w.bases[t].started || Fresh(w.bases[t]))
    ensures var w' := WorldAfter(w, k, s, m);
            t in w'.bases && (w'.bases[t].started || Fresh(w'.bases[t]))
  {
  }

  lemma StepBase(y: System, a: Action, t: Name)
    requires Reachable(y) && Enabled(y, a) && Booted(y) && t in y.world.bases
    ensures var b := Apply(y, a).world.bases; t in b && (b[t].started || Fresh(b[t]))
  {
    ReachableShape(y);
    if a.Go? {
      if a.move.Publish? {
        ReachablePublishing(y, a.service);
      }
      MoveBooted(y.world, y.call.value, a.service, a.move, t);
    }
  }

  lemma StepEnded(y: System, a: Action)
    requires Enabled(y, a) && Booted(y) && !(a.Begin? && a.dir.Boot?)
    requires Apply(y, a).call.Some? && Apply(y, a).call.value.dir.Boot?
    ensures Returned(Apply(y, a))
  {
  }

  lemma StepBooted(y: System, a: Action)
    requires Reachable(y) && Enabled(y, a) && Booted(y) && NoBoot([a])
    ensures Booted(Apply(y, a))
  {
    assert [a][0] == a;
    if Apply(y, a).call.Some? && Apply(y, a).call.value.dir.Boot? {
      StepEnded(y, a);
    }
    forall t | t in Apply(y, a).world.bases
      ensures Apply(y, a).world.bases[t].started || Fresh(Apply(y, a).world.bases[t])
    {
      if t in y.world.bases {
        StepBase(y, a, t);
      }
    }
  }

  /** Only clients subscribe to a start while no StartAll is at work. */
  lemma StepSubscribes(y: System, a: Action, c: nat)
    requires Reachable(y) && Enabled(y, a) && Booted(y) && NoBoot([a])
    requires c in Apply(y, a).world.heap && c !in y.world.heap
    ensures c in Apply(y, a).world.subs
    ensures Apply(y, a).world.subs[c].dir == Boot ==> a.ClientSubscribe? && a.dir == Boot && a.chan == c
  {
    assert [a][0] == a;
    if a.Go? {
      MoveHeap(y.world, y.call.value, a.service, a.move, c);
    }
  }

  lemma {:induction false} RunBooted(x: System, acts: seq<Action>, z: System)
    requires Reachable(x) && Booted(x) && NoBoot(acts) && Exec(x, acts) == Some(z)
    ensures Booted(z) && forall s :: s in x.world.specs ==> s in z.world.specs && z.world.specs[s] == x.world.specs[s]
  {
    if acts != [] {
      var n := |acts| - 1;
      var before, a := Exec(x, acts[..n]).value, acts[n];
      RunBooted(x, acts[..n], before);
      ReachableLater(x, acts[..n], before);
      assert [a][0] == a;
      StepBooted(before, a);
    }
  }

  /** Where a channel that is open at the end came from. */
  lemma {:induction false} RunSubscribes(x: System, acts: seq<Action>, z: System, c: nat)
    requires Reachable(x) && Booted(x) && NoBoot(acts) && Exec(x, acts) == Some(z)
    requires c in z.world.heap && !z.world.heap[c].closed
    ensures c in z.world.subs
    ensures if c in x.world.heap
            then !x.world.heap[c].closed && c in x.world.subs && z.world.subs[c] == x.world.subs[c]
            else z.world.subs[c].dir == Boot ==> exists s :: ClientSubscribe(Boot, s, c) in acts
  {
    ReachableShape(x);
    if acts != [] {
      var n := |acts| - 1;
      var before, a := Exec(x, acts[..n]).value, acts[n];
      assert acts == acts[..n] + [a] && [a][0] == a;
      RunBooted(x, acts[..n], before);
      ReachableLater(x, acts[..n], before);
      if c in before.world.heap {
        SubsStay(before, a, c);
        StaysClosed(before, a, c);
        RunSubscribes(x, acts[..n], before, c);
      } else {
        if c in x.world.heap {
          HeapStays(x, acts[..n], before, c);
        }
        StepSubscribes(before, a, c);
      }
    }
  }

  lemma SuccessIsBooted(x: System)
    requires Reachable(x) && Returned(x) && x.call.value.dir == Boot && x.call.value.errC == []
    ensures Booted(x)
    ensures forall c :: c in x.world.heap && c in x.world.subs && x.world.subs[c].dir == Boot ==> x.world.heap[c].closed
  {
    SuccessReachesAll(x);
    ReachableShape(x);
    forall c | c in x.world.heap && c in x.world.subs && x.world.subs[c].dir == Boot ensures x.world.heap[c].closed {
      ReachableChan(x, c);
    }
  }

  /** After a fully successful StartAll, let anything happen but another StartAll, for
      example registrations and failing StopAlls: once a StopAll is fully successful, every
      base is that of a new service, and every channel is closed except those that clients
      asked for since the StartAll to hear of the next start. */
  lemma RoundTrip(x: System, acts: seq<Action>, z: System)
    requires Reachable(x) && Returned(x) && x.call.value.dir == Boot && x.call.value.errC == []
    requires NoBoot(acts) && Exec(x, acts) == Some(z)
    requires Returned(z) && z.call.value.dir == Shut && z.call.value.errC == []
    ensures forall s :: s in x.world.specs ==> s in z.world.specs && z.world.specs[s] == x.world.specs[s]
    ensures forall s :: s in z.world.specs ==>
              && s in z.world.bases
              && var b := z.world.bases[s];
                 && !b.started && b.stopped && b.startedErr == None && b.stoppedErr == None && b.stoppedCs == []
    ensures forall c :: c in z.world.heap && !z.world.heap[c].closed ==> exists s :: ClientSubscribe(Boot, s, c) in acts
  {
    SuccessIsBooted(x);
    RunBooted(x, acts, z);
    ReachableLater(x, acts, z);
    SuccessReachesAll(z);
    ReachableShape(z);
    forall c | c in z.world.heap && !z.world.heap[c].closed ensures exists s :: ClientSubscribe(Boot, s, c) in acts {
      ReachableChan(z, c);
      RunSubscribes(x, acts, z, c);
    }
  }
}
