/** What single actions, and the actions within one call, cannot change. */
module Runs {
  import opened Errors
  import opened Services
  import opened Worlds
  import opened Protocol
  import opened Reachability

  /** z belongs to the same call as y, and comes later. */
  ghost predicate SameCall(y: System, z: System) {
    && y.call.Some? && z.call.Some?
    && z.world.specs == y.world.specs && z.world.bases.Keys == y.world.bases.Keys
    && y.world.log <= z.world.log
    && var k, k' := y.call.value, z.call.value;
       && k'.dir == k.dir && k'.begin == k.begin && k'.at0 == k.at0 && k'.wins == k.wins
       && k'.pcs.Keys == k.pcs.Keys
  }

  lemma StepWithin(y: System, a: Action)
    requires Enabled(y, a) && y.call.Some? && a != End
    ensures SameCall(y, Apply(y, a))
    ensures Apply(y, a).call.value.cancelled <==> y.call.value.cancelled || a == Cancel
  {
  }

  lemma {:induction false} RunWithin(y: System, acts: seq<Action>, z: System)
    requires y.call.Some? && End !in acts && Exec(y, acts) == Some(z)
    ensures SameCall(y, z)
    ensures z.call.value.cancelled <==> y.call.value.cancelled || Cancel in acts
  {
    if acts != [] {
      var n := |acts| - 1;
      var before := Exec(y, acts[..n]).value;
      assert acts == acts[..n] + [acts[n]];
      RunWithin(y, acts[..n], before);
      StepWithin(before, acts[n]);
    }
  }

  /** A call is the one that was asked for: its direction and its table of outcomes are those
      of the action, it counts from the log and the goals found then, every registered
      service takes part, from its guard on, and it is cancelled iff it was. */
  lemma CallIsTheAction(u: System, dir: Dir, cancelled: bool, wins: set<(Name, nat)>, acts: seq<Action>, z: System)
    requires Reachable(u) && Enabled(u, Begin(dir, cancelled, wins))
    requires End !in acts && Exec(Apply(u, Begin(dir, cancelled, wins)), acts) == Some(z)
    ensures Reachable(z) && z.call.Some? && z.world.specs == u.world.specs && u.world.bases.Keys == u.world.specs.Keys
    ensures var k := z.call.value;
            && k.dir == dir && k.wins == wins && k.begin == |u.world.log| && k.pcs.Keys == u.world.specs.Keys
            && (k.cancelled <==> cancelled || Cancel in acts)
            && (forall s :: s in k.at0 <==>
                  s in u.world.bases && if dir.Boot? then u.world.bases[s].started else u.world.bases[s].stopped)
    ensures u.world.log <= z.world.log
    ensures acts == [] ==>
              && z.world == u.world && z.call.value.errC == []
              && forall s :: s in u.world.specs ==> z.call.value.pcs[s] == AtGuard
  {
    var y := Apply(u, Begin(dir, cancelled, wins));
    ReachableNext(u, Begin(dir, cancelled, wins));
    ReachableLater(y, acts, z);
    ReachableShape(u);
    RunWithin(y, acts, z);
  }

  /** Only moves of goroutines, and none of the frozen one. */
  ghost predicate OnlyMoves(acts: seq<Action>, frozen: Option<Name>) {
    forall i :: 0 <= i < |acts| ==> acts[i].Go? && frozen != Some(acts[i].service)
  }

  lemma {:induction false} FrozenStays(y: System, acts: seq<Action>, z: System, p: Name)
    requires y.call.Some? && p in y.call.value.pcs && Exec(y, acts) == Some(z) && OnlyMoves(acts, Some(p))
    ensures z.call.Some? && p in z.call.value.pcs && z.call.value.pcs[p] == y.call.value.pcs[p]
  {
    if acts != [] {
      FrozenStays(y, acts[..|acts| - 1], Exec(y, acts[..|acts| - 1]).value, p);
    }
  }

  // ---------- the channels ----------

  /** A move takes no channel away and reopens none, and new ones are for the call's goal. */
  lemma MoveHeap(w: World, k: Call, s: Name, m: Move, c: nat)
    requires CanMove(w, k, s, m) && c in WorldAfter(w, k, s, m).heap + w.heap
    ensures var w' := WorldAfter(w, k, s, m);
            && c in w'.heap
            && (if c in w.heap then w.heap[c].closed ==> w'.heap[c].closed else c in w'.subs && w'.subs[c].dir == k.dir)
  {
  }

  lemma StaysClosed(y: System, a: Action, c: nat)
    requires Enabled(y, a) && c in y.world.heap
    ensures c in Apply(y, a).world.heap && (y.world.heap[c].closed ==> Apply(y, a).world.heap[c].closed)
  {
    if a.Go? {
      MoveHeap(y.world, y.call.value, a.service, a.move, c);
    }
  }

  lemma {:induction false} HeapStays(y: System, acts: seq<Action>, z: System, c: nat)
    requires Exec(y, acts) == Some(z) && c in y.world.heap
    ensures c in z.world.heap
  {
    if acts != [] {
      var n := |acts| - 1;
      var before := Exec(y, acts[..n]).value;
      HeapStays(y, acts[..n], before, c);
      StaysClosed(before, acts[n], c);
    }
  }

  /** A move takes nothing from a channel that its goroutine does not wait on, and adds
      nothing to a closed one. */
  lemma MoveLeaves(w: World, k: Call, s: Name, m: Move, c: nat)
    requires CanMove(w, k, s, m) && c in w.heap && (forall dir :: ListOk(w, dir, s))
    requires k.pcs[s].Waiting? ==> k.pcs[s].chan != c
    ensures var ch, w' := w.heap[c], WorldAfter(w, k, s, m);
            && c in w'.heap && w'.heap[c].taken == ch.taken && ch.sent <= w'.heap[c].sent
            && (ch.closed ==> w'.heap[c].closed && w'.heap[c].sent == ch.sent)
  {
    if m.Serve? {
      assert ListOk(w, w.busy[s].dir, s);
    }
  }

  /** A channel hears only from its own service. */
  lemma OthersAreSilent(w: World, k: Call, t: Name, m: Move, c: nat)
    requires CanMove(w, k, t, m) && c in w.heap && c in w.subs && w.subs[c].service != t && !w.heap[c].Readable()
    requires forall dir :: ListOk(w, dir, t)
    ensures c in WorldAfter(w, k, t, m).heap && !WorldAfter(w, k, t, m).heap[c].Readable()
  {
    assert c !in Listed(k.dir, w.bases[t]) by { assert ListOk(w, k.dir, t); }
    if m.Serve? {
      assert c !in Listed(w.busy[t].dir, w.bases[t]) by { assert ListOk(w, w.busy[t].dir, t); }
    }
  }

  /** A move that leaves a channel closed has found, or left, its service at the goal. */
  lemma MoveCloses(w: World, k: Call, s: Name, m: Move, c: nat)
    requires CanMove(w, k, s, m) && ListOk(w, k.dir, s) && (c in w.heap ==> !w.heap[c].closed)
    requires c in WorldAfter(w, k, s, m).heap && WorldAfter(w, k, s, m).heap[c].closed
    ensures var w' := WorldAfter(w, k, s, m);
            c in w'.subs && Done(w', w'.subs[c].dir, w'.subs[c].service)
  {
  }

  lemma MoveSubs(w: World, k: Call, s: Name, m: Move, c: nat)
    requires CanMove(w, k, s, m) && c in w.heap && c in w.subs
    ensures c in WorldAfter(w, k, s, m).subs && WorldAfter(w, k, s, m).subs[c] == w.subs[c]
  {
  }

  lemma SubsStay(y: System, a: Action, c: nat)
    requires Reachable(y) && Enabled(y, a) && c in y.world.heap
    ensures c in y.world.subs && c in Apply(y, a).world.subs
    ensures Apply(y, a).world.subs[c] == y.world.subs[c]
  {
    ReachableShape(y);
    if a.Go? {
      MoveSubs(y.world, y.call.value, a.service, a.move, c);
    }
  }

  // ---------- the states of a run ----------

  /** The state before the i-th action. */
  ghost function Before(acts: seq<Action>, i: nat): System
    requires i <= |acts| && Exec(INITIAL, acts).Some?
    ensures Exec(INITIAL, acts[..i]) == Some(Before(acts, i)) && Reachable(Before(acts, i))
    decreases |acts|
  {
    if i == |acts| then
      assert acts[..i] == acts;
      Exec(INITIAL, acts).value
    else
      assert acts[..|acts| - 1][..i] == acts[..i];
      Before(acts[..|acts| - 1], i)
  }

  lemma NextState(acts: seq<Action>, i: nat)
    requires i < |acts| && Exec(INITIAL, acts).Some?
    ensures Enabled(Before(acts, i), acts[i]) && Apply(Before(acts, i), acts[i]) == Before(acts, i + 1)
  {
    var upTo, x, z := acts[..i + 1], Before(acts, i), Before(acts, i + 1);
    assert upTo[..i] == acts[..i] && upTo[i] == acts[i];
    LastStep(INITIAL, upTo);
    assert Exec(INITIAL, upTo[..|upTo| - 1]).value == x && upTo[|upTo| - 1] == acts[i];
  }

  lemma BeforePrefix(acts: seq<Action>, i: nat, n: nat)
    requires i <= n <= |acts| && Exec(INITIAL, acts).Some?
    ensures Exec(INITIAL, acts[..n]).Some? && Before(acts[..n], i) == Before(acts, i)
  {
    var z := Before(acts, n);
    assert acts[..n][..i] == acts[..i];
    var z' := Before(acts, i);
  }

  /** Channels do not go away. */
  lemma {:induction false} HeapSince(acts: seq<Action>, j: nat, i: nat, c: nat)
    requires j <= i <= |acts| && Exec(INITIAL, acts).Some? && c in Before(acts, j).world.heap
    ensures c in Before(acts, i).world.heap
    decreases i - j
  {
    if j < i {
      NextState(acts, j);
      StaysClosed(Before(acts, j), acts[j], c);
      HeapSince(acts, j + 1, i, c);
    }
  }
}
