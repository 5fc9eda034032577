/** The invariant holds of every reachable state: whatever sequence of registrations,
    boots, shutdowns, cancellations and client calls, and however interleaved. */
module Reachability {
  import opened Errors
  import opened Services
  import opened Graphs
  import opened Worlds
  import opened WorldProofs
  import opened Protocol
  import opened Invariants
  import opened CallProofs

  /** StartAll has checked that the whole graph is acyclic. */
  lemma BootRank(specs: map<Name, Spec>, at0: set<Name>)
    requires Closed(DepGraph(specs)) && !HasCycle(DepGraph(specs))
    ensures exists r :: PendingRank(specs, Boot, at0, r)
  {
    var g := DepGraph(specs);
    var r := AcyclicIsRanked(g);
    forall s, d | s in specs && d in Prereqs(specs, Boot, s) ensures d in specs && r[d] < r[s] {
      assert s in g && d in g[s] && g[s] <= g.Keys;
    }
    assert PendingRank(specs, Boot, at0, r);
  }

  /** StopAll needs no check: only running services wait, they wait for running parents
      only, and the running services cannot depend on each other in a circle. */
  lemma ShutRank(w: World, at0: set<Name>)
    requires Shaped(w) && BasesOk(w) && RunningRanked(w)
    requires forall s :: s in w.bases && AtGoal(Shut, w.bases[s]) ==> s in at0
    ensures exists r :: PendingRank(w.specs, Shut, at0, r)
  {
    var up :| Ranked(DepGraph(w.specs), Running(w), up);
    var m := Bound(up);
    var down: map<Name, nat> := map s | s in up :: m - up[s];
    forall s, p | s in w.specs && s !in at0 && p in Prereqs(w.specs, Shut, s) && p !in at0
      ensures s in down && p in down && down[p] < down[s]
    {
      assert s in Running(w) && p in Running(w) && s in DepGraph(w.specs)[p];
    }
    assert PendingRank(w.specs, Shut, at0, down);
  }

  lemma BeginOk(w: World, dir: Dir, cancelled: bool, wins: set<(Name, nat)>)
    requires Shaped(w) && BasesOk(w) && RunningRanked(w) && w.busy == map[]
    requires dir.Boot? ==> Closed(DepGraph(w.specs)) && !HasCycle(DepGraph(w.specs))
    ensures CallOk(w, BeginCall(w, dir, cancelled, wins))
  {
    var k := BeginCall(w, dir, cancelled, wins);
    if dir.Boot? {
      BootRank(w.specs, k.at0);
    } else {
      ShutRank(w, k.at0);
    }
  }

  lemma StepOk(y: System, a: Action)
    requires SystemOk(y) && Enabled(y, a)
    ensures SystemOk(Apply(y, a))
  {
    match a
    case AddService(s, spec) => RegisterKeeps(y.world, s, spec);
    case Begin(dir, cancelled, wins) => BeginOk(y.world, dir, cancelled, wins);
    case Go(s, m) =>
      MoveStays(y.world, y.call.value, s, m);
      MoveKeepsWorld(y.world, y.call.value, s, m);
    case Cancel => CancelStays(y.world, y.call.value);
    case End =>
    case ClientSubscribe(dir, s, c) =>
      AttachKeeps(y.world, dir, s, c, Client);
      if y.call.Some? {
        ClientSubscribeStays(y.world, y.call.value, dir, s, c);
      }
    case ClientReceive(c) =>
      DrainKeeps(y.world, c);
      if y.call.Some? {
        ClientReceiveStays(y.world, y.call.value, c);
      }
  }

  lemma InitialOk()
    ensures SystemOk(INITIAL)
  {
    var w := INITIAL.world;
    assert Ranked(DepGraph(w.specs), Running(w), map[]);
  }

  lemma {:induction false} ExecOk(y: System, acts: seq<Action>)
    requires SystemOk(y) && Exec(y, acts).Some?
    ensures SystemOk(Exec(y, acts).value)
  {
    if acts != [] {
      var n := |acts| - 1;
      ExecOk(y, acts[..n]);
      StepOk(Exec(y, acts[..n]).value, acts[n]);
    }
  }

  /** The invariant of all runs. */
  lemma ReachableOk(y: System)
    requires Reachable(y)
    ensures SystemOk(y)
  {
    InitialOk();
    var acts :| Exec(INITIAL, acts) == Some(y);
    ExecOk(INITIAL, acts);
  }

  // ---------- single facts about reachable states ----------

  lemma ReachableShape(y: System)
    requires Reachable(y)
    ensures Shaped(y.world) && BasesOk(y.world)
  {
    ReachableOk(y);
  }

  lemma ReachableChan(y: System, c: nat)
    requires Reachable(y) && c in y.world.heap
    ensures ChanOk(y.world, c)
  {
    ReachableOk(y);
  }

  lemma ReachableList(y: System, dir: Dir, s: Name)
    requires Reachable(y)
    ensures ListOk(y.world, dir, s)
  {
    ReachableOk(y);
  }

  lemma ReachablePc(y: System, s: Name)
    requires Reachable(y) && y.call.Some? && s in y.call.value.pcs
    ensures PcOk(y.world, y.call.value, s)
  {
    ReachableOk(y);
  }

  lemma ReachableEnd(y: System, s: Name)
    requires Reachable(y) && y.call.Some? && s in y.call.value.pcs && y.call.value.pcs[s].Exited?
    ensures Finished(y.world, y.call.value, s, y.call.value.pcs[s].err)
  {
    ReachablePc(y, s);
  }

  lemma ReachableFailure(y: System, s: Name, e: Error)
    requires Reachable(y) && y.call.Some? && FailedWith(y.call.value, s, e)
    ensures Finished(y.world, y.call.value, s, Some(e)) && e != GuardError(y.call.value.dir, s) && e != ContextError
  {
    ReachablePc(y, s);
  }

  /** Nothing is published about a goal that holds already. */
  lemma ReachablePublishing(y: System, s: Name)
    requires Reachable(y) && y.call.Some? && s in y.call.value.pcs && y.call.value.pcs[s].Publishing?
    ensures !Done(y.world, y.call.value.dir, s)
  {
    ReachablePc(y, s);
  }

  lemma ReachableFrame(y: System)
    requires Reachable(y) && y.call.Some?
    ensures FrameOk(y.world, y.call.value)
  {
    ReachableOk(y);
  }

  lemma ReachableOrder(y: System)
    requires Reachable(y) && y.call.Some?
    ensures OrderOk(y.world, y.call.value)
  {
    ReachableOk(y);
  }
}
