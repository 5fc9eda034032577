/** What every reachable state promises about running services and about channels. */
module Lifetime {
  import opened Collections
  import opened Errors
  import opened Channels
  import opened Services
  import opened Graphs
  import opened Worlds
  import opened WorldProofs
  import opened Protocol
  import opened Reachability
  import opened Runs

  lemma {:induction false} ChainRuns(w: World, r: map<Name, nat>, c: seq<Name>)
    requires Shaped(w) && Supported(w) && Ranked(DepGraph(w.specs), Running(w), r)
    requires WaitChain(w.specs, Boot, c) && c[0] in Running(w)
    ensures forall i :: 0 <= i < |c| ==> c[i] in Running(w)
    ensures r[c[|c| - 1]] <= r[c[0]] && (|c| > 1 ==> r[c[|c| - 1]] < r[c[0]])
  {
    if |c| > 1 {
      assert c[1] in DepGraph(w.specs)[c[0]] && c[1] in Running(w);
      ChainTail(w.specs, Boot, c);
      ChainRuns(w, r, c[1..]);
      forall i | 0 <= i < |c| ensures c[i] in Running(w) {
        assert i > 0 ==> c[i] == c[1..][i - 1];
      }
    }
  }

  /** At every moment of every run, all transitive dependencies of a running service are
      registered and running, and no running service depends on itself. */
  lemma RunningIsSupported(y: System, c: seq<Name>)
    requires Reachable(y) && |c| > 0 && c[0] in y.world.bases && y.world.bases[c[0]].started
    requires forall i :: 0 <= i < |c| - 1 ==> c[i] in y.world.specs && c[i + 1] in y.world.specs[c[i]].deps
    ensures forall i :: 0 <= i < |c| ==>
              c[i] in y.world.specs && c[i] in y.world.bases && y.world.bases[c[i]].started
    ensures |c| > 1 ==> c[|c| - 1] != c[0]
  {
    ReachableOk(y);
    var w := y.world;
    assert WaitChain(w.specs, Boot, c);
    var r :| Ranked(DepGraph(w.specs), Running(w), r);
    ChainRuns(w, r, c);
  }

  /** Exactly one flag is up; a service at a goal has no subscriber left for it; a channel
      is open iff it is listed, and then once, for the goal it was handed out for. */
  lemma ChannelDiscipline(y: System)
    requires Reachable(y)
    ensures forall s :: s in y.world.bases ==>
              var b := y.world.bases[s];
              && b.started != b.stopped
              && (b.started ==> b.startedCs == [] && b.startedErr == None)
              && (b.stopped ==> b.stoppedCs == [] && b.stoppedErr == None)
    ensures forall dir, s :: s in y.world.bases ==> Distinct(Listed(dir, y.world.bases[s]))
    ensures forall c :: c in y.world.heap ==> c in y.world.subs && y.world.subs[c].service in y.world.bases
    ensures forall c, dir, s :: c in y.world.heap && s in y.world.bases ==>
              (c in Listed(dir, y.world.bases[s]) <==>
               !y.world.heap[c].closed && y.world.subs[c].dir == dir && y.world.subs[c].service == s)
  {
    ReachableShape(y);
    forall dir, s | s in y.world.bases ensures Distinct(Listed(dir, y.world.bases[s])) {
      ReachableList(y, dir, s);
    }
    forall c | c in y.world.heap ensures c in y.world.subs && y.world.subs[c].service in y.world.bases {
      ReachableChan(y, c);
    }
    forall c, dir, s | c in y.world.heap && s in y.world.bases
      ensures c in Listed(dir, y.world.bases[s]) <==>
              !y.world.heap[c].closed && y.world.subs[c].dir == dir && y.world.subs[c].service == s
    {
      ReachableChan(y, c);
      ReachableList(y, dir, s);
    }
  }

  /** Only open channels are ever closed, and only open channels with room are sent to. */
  lemma TargetsAreOpen(y: System, s: Name, c: nat)
    requires Reachable(y) && y.call.Some? && s in y.world.bases
    ensures Enabled(y, Go(s, Publish)) && c in Targets(y.call.value.dir, y.world.bases[s], y.call.value.pcs[s].err) ==>
              c in y.world.heap && !y.world.heap[c].closed
    ensures Enabled(y, Go(s, Move.Serve)) &&
            c == Listed(y.world.busy[s].dir, y.world.bases[s])[y.world.busy[s].served] ==>
              c in y.world.heap && !y.world.heap[c].closed && y.world.heap[c].Backlog() < CAPACITY
  {
    ReachableList(y, y.call.value.dir, s);
    if Enabled(y, Go(s, Move.Serve)) {
      ReachableList(y, y.world.busy[s].dir, s);
    }
  }

  /** A channel carries the errors published since it was handed out and up to the first
      success, but for one that is being sent to the list right now and has not got to it;
      and it is closed iff there was a success, or iff there was nothing to wait for. */
  lemma ExactDelivery(y: System, c: nat)
    requires Reachable(y) && c in y.world.heap
    ensures c in y.world.subs && y.world.subs[c].at <= |y.world.log|
    ensures var u, ch, log := y.world.subs[c], y.world.heap[c], y.world.log;
            if u.live then
              && Told(ch.sent + Owed(y.world, c), ch.closed) == Tell(log[u.at..], u.dir, u.service)
              && (ch.closed <==> Published(u.dir, u.service, None) in log[u.at..])
              && (u.service !in y.world.busy ==> Owed(y.world, c) == [])
            else
              ch == Chan([], 0, true)
  {
    ReachableChan(y, c);
    var u := y.world.subs[c];
    TellIsTheLog(y.world.log[u.at..], u.dir, u.service);
  }

  // ---------- how full a channel can be ----------

  lemma ReachableLeak(y: System, dir: Dir, s: Name) returns (l: nat)
    requires Reachable(y) && s in y.world.bases && FailStreak(y.world.log, dir, s) > 0
    ensures l in Listed(dir, y.world.bases[s]) && l in y.world.heap
    ensures l in y.world.subs && y.world.subs[l].service == s
    ensures y.world.heap[l].Backlog() + |Owed(y.world, l)| == FailStreak(y.world.log, dir, s)
    ensures y.world.heap[l].Backlog() <= CAPACITY
  {
    ReachableLeaks(y);
    l :| l in Listed(dir, y.world.bases[s]) && Leaked(y.world, dir, s, l);
    ReachableList(y, dir, s);
    ReachableChan(y, l);
    LeakHoldsStreak(y.world, dir, s, l);
  }

  lemma ReachableLeaks(y: System)
    requires Reachable(y)
    ensures LeaksOk(y.world)
  {
    ReachableOk(y);
  }

  /** A channel that still waits holds, or is owed, no more than the failures since the last
      success. Those are never more than 33, and 33 only while the last is being sent. */
  lemma BufferBound(y: System, c: nat)
    requires Reachable(y) && c in y.world.heap && !y.world.heap[c].closed
    ensures c in y.world.subs
    ensures var u := y.world.subs[c];
            && y.world.heap[c].Backlog() + |Owed(y.world, c)| <= FailStreak(y.world.log, u.dir, u.service)
            && FailStreak(y.world.log, u.dir, u.service) <= 33
            && |y.world.heap[c].sent| - y.world.heap[c].taken <= 32
            && (FailStreak(y.world.log, u.dir, u.service) == 33 ==> u.service in y.world.busy)
  {
    ReachableChan(y, c);
    var u := y.world.subs[c];
    BacklogWithinStreak(y.world, c);
    if FailStreak(y.world.log, u.dir, u.service) > 0 {
      var l := ReachableLeak(y, u.dir, u.service);
    }
  }

  /** What s has to do to finish the publication of a failure with n sends to go. */
  function Sends(s: Name, n: nat): seq<Action> {
    if n == 0 then [Go(s, Move.Release)] else [Go(s, Move.Serve)] + Sends(s, n - 1)
  }

  /** The next channel in line is owed the failure, so it has heard fewer than the streak. */
  lemma NextHasRoom(y: System, s: Name)
    requires Reachable(y) && s in y.world.busy && s in y.world.bases
    requires FailStreak(y.world.log, y.world.busy[s].dir, s) <= CAPACITY
    requires y.world.busy[s].served < |Listed(y.world.busy[s].dir, y.world.bases[s])|
    ensures CanServe(y.world, s)
  {
    var w := y.world;
    var b, cs := w.busy[s], Listed(w.busy[s].dir, w.bases[s]);
    var c := cs[b.served];
    ReachableList(y, b.dir, s);
    ReachableChan(y, c);
    assert cs[b.served..][0] == c;
    assert Owed(w, c) == [b.err];
    BacklogWithinStreak(w, c);
  }

  lemma ReachableServing(y: System, s: Name)
    requires Reachable(y) && y.call.Some? && s in y.call.value.pcs && y.call.value.pcs[s].Serving?
    ensures s in y.world.specs && s in y.world.bases && s in y.world.busy
    ensures y.world.busy[s].dir == y.call.value.dir
    ensures y.world.busy[s].served <= |Listed(y.world.busy[s].dir, y.world.bases[s])|
  {
    ReachablePc(y, s);
    ReachableShape(y);
    ReachableBusy(y);
  }

  /** The sends of a failure that comes no later than the 32nd in a row find room. */
  lemma NextSendFits(y: System, s: Name)
    requires Reachable(y) && y.call.Some? && s in y.call.value.pcs && y.call.value.pcs[s].Serving?
    requires FailStreak(y.world.log, y.call.value.dir, s) <= CAPACITY
    ensures s in y.world.busy && s in y.world.bases && s in y.world.specs
    ensures y.world.busy[s].served <= |Listed(y.world.busy[s].dir, y.world.bases[s])|
    ensures if AllServed(y.world, s) then Enabled(y, Go(s, Move.Release)) else Enabled(y, Go(s, Move.Serve))
  {
    ReachableServing(y, s);
    if !AllServed(y.world, s) {
      NextHasRoom(y, s);
    }
  }

  lemma ReachableBusy(y: System)
    requires Reachable(y)
    ensures BusyOk(y.world)
  {
    ReachableOk(y);
  }

  /** A failure beyond the 32nd in a row never gets through: the channel that the guard threw
      away is full and still owed it. */
  lemma NeverReleased(y: System, s: Name)
    requires Reachable(y) && y.call.Some? && s in y.call.value.pcs && y.call.value.pcs[s].Serving?
    requires FailStreak(y.world.log, y.call.value.dir, s) > CAPACITY
    ensures !Enabled(y, Go(s, Move.Release))
  {
    ReachableServing(y, s);
    if AllServed(y.world, s) {
      var l := ReachableLeak(y, y.call.value.dir, s);
      NothingOwed(y.world, s, l);
    }
  }

  lemma NothingOwed(w: World, s: Name, c: nat)
    requires AllServed(w, s) && (c in w.subs && w.subs[c].service in w.busy ==> w.subs[c].service == s)
    ensures Owed(w, c) == []
  {
  }

  lemma SendOne(y: System, s: Name) returns (z: System)
    requires Reachable(y) && Enabled(y, Go(s, Move.Serve))
    ensures z == Apply(y, Go(s, Move.Serve)) && Reachable(z)
    ensures z.call.Some? && s in z.call.value.pcs && z.call.value.pcs[s].Serving?
    ensures z.call.value.dir == y.call.value.dir && z.world.log == y.world.log && z.world.bases == y.world.bases
    ensures s in z.world.busy && z.world.busy[s] == y.world.busy[s].(served := y.world.busy[s].served + 1)
  {
    z := Apply(y, Go(s, Move.Serve));
    ReachableNext(y, Go(s, Move.Serve));
  }

  lemma {:induction false} SendsFinish(y: System, s: Name, n: nat)
    requires Reachable(y) && y.call.Some? && s in y.call.value.pcs && y.call.value.pcs[s].Serving?
    requires FailStreak(y.world.log, y.call.value.dir, s) <= CAPACITY
    requires s in y.world.busy && s in y.world.bases
    requires n == |Listed(y.world.busy[s].dir, y.world.bases[s])| - y.world.busy[s].served
    ensures Exec(y, Sends(s, n)).Some?
    decreases n
  {
    NextSendFits(y, s);
    if n == 0 {
      ExecOne(y, Go(s, Move.Release));
    } else {
      var z := SendOne(y, s);
      SendsFinish(z, s, n - 1);
      ExecOne(y, Go(s, Move.Serve));
      ExecTwice(y, [Go(s, Move.Serve)], Sends(s, n - 1));
    }
  }

  lemma {:induction false} FinishedFits(y: System, s: Name, n: nat)
    requires Reachable(y) && y.call.Some? && s in y.call.value.pcs && y.call.value.pcs[s].Serving?
    requires Exec(y, Sends(s, n)).Some?
    ensures FailStreak(y.world.log, y.call.value.dir, s) <= CAPACITY
    decreases n
  {
    FirstIsPossible(y, Sends(s, n));
    assert Sends(s, n)[0] == if n == 0 then Go(s, Move.Release) else Go(s, Move.Serve);
    if n > 0 {
      var z := SendOne(y, s);
      assert Sends(s, n)[1..] == Sends(s, n - 1);
      FinishedFits(z, s, n - 1);
    } else if FailStreak(y.world.log, y.call.value.dir, s) > CAPACITY {
      NeverReleased(y, s);
    }
  }

  /** A failing service gets its failure published iff it is at most the 32nd in a row: the
      leaked channel keeps every failure, so the 33rd blocks, with the base locked. */
  lemma PublishBlocksIff(y: System, s: Name)
    requires Reachable(y) && y.call.Some? && s in y.call.value.pcs && y.call.value.pcs[s].Serving?
    ensures (exists n :: Exec(y, Sends(s, n)).Some?) <==> FailStreak(y.world.log, y.call.value.dir, s) <= 32
  {
    if n :| Exec(y, Sends(s, n)).Some? {
      FinishedFits(y, s, n);
    }
    if FailStreak(y.world.log, y.call.value.dir, s) <= CAPACITY {
      NextSendFits(y, s);
      SendsFinish(y, s, |Listed(y.world.busy[s].dir, y.world.bases[s])| - y.world.busy[s].served);
    }
  }

  // ---------- ServiceReady ----------

  /** A channel comes to be closed only with its service at the goal. */
  lemma ClosedAtGoal(y: System, a: Action, c: nat)
    requires Reachable(y) && Enabled(y, a)
    requires c in Apply(y, a).world.heap && Apply(y, a).world.heap[c].closed
    requires c in y.world.heap ==> !y.world.heap[c].closed
    ensures c in Apply(y, a).world.subs
    ensures var u := Apply(y, a).world.subs[c]; Done(Apply(y, a).world, u.dir, u.service)
  {
    if a.Go? {
      ReachableList(y, y.call.value.dir, a.service);
      MoveCloses(y.world, y.call.value, a.service, a.move, c);
    }
  }

  lemma {:induction false} ClosedMeansReached(acts: seq<Action>, y: System, c: nat)
    requires Exec(INITIAL, acts) == Some(y)
    requires c in y.world.heap && y.world.heap[c].closed
    ensures c in y.world.subs
    ensures exists i :: 0 <= i <= |acts| && ReachedAt(acts[..i], c, y.world.subs[c])
  {
    var n := |acts| - 1;
    var before, a := Exec(INITIAL, acts[..n]).value, acts[n];
    assert Reachable(before);
    if c in before.world.heap && before.world.heap[c].closed {
      ClosedMeansReached(acts[..n], before, c);
      var i :| 0 <= i <= n && ReachedAt(acts[..n][..i], c, before.world.subs[c]);
      assert acts[..n][..i] == acts[..i];
      SubsStay(before, a, c);
    } else {
      ClosedAtGoal(before, a, c);
      assert acts[..|acts|] == acts;
      assert ReachedAt(acts[..|acts|], c, y.world.subs[c]);
    }
  }

  /** After these actions the channel c exists and the goal it was handed out for holds. */
  ghost predicate ReachedAt(acts: seq<Action>, c: nat, u: Sub) {
    var z := Exec(INITIAL, acts);
    z.Some? && c in z.value.world.heap && Done(z.value.world, u.dir, u.service)
  }

  // ---------- what a client is told, from the action on ----------

  /** The goal of s that a client asks for holds. */
  predicate Holds(w: World, dir: Dir, s: Name) {
    s in w.bases && if dir.Boot? then w.bases[s].started else w.bases[s].stopped
  }

  /** The record of a client's channel says what the client has asked for, and when. */
  lemma {:induction false} ClientSub(acts: seq<Action>, y: System, i: nat, dir: Dir, s: Name, c: nat)
    requires Exec(INITIAL, acts) == Some(y) && i < |acts| && acts[i] == ClientSubscribe(dir, s, c)
    ensures c !in Before(acts, i).world.heap && s in Before(acts, i).world.bases
    ensures c in y.world.heap && c in y.world.subs
    ensures var w := Before(acts, i).world; y.world.subs[c] == Sub(dir, s, |w.log|, !Holds(w, dir, s), Client)
  {
    var n := |acts| - 1;
    var before := Before(acts, n);
    NextState(acts, i);
    assert acts[..|acts|] == acts;
    if i < n {
      BeforePrefix(acts, i, n);
      ClientSub(acts[..n], before, i, dir, s, c);
      NextState(acts, n);
      SubsStay(before, acts[n], c);
    }
  }

  /** A channel that a client has asked for carries what has been published since about the
      very goal and service that it asked for, but for an error on its way; and it is closed
      iff the goal held already or has been reached since. */
  lemma ClientHears(acts: seq<Action>, y: System, i: nat, dir: Dir, s: Name, c: nat)
    requires Exec(INITIAL, acts) == Some(y) && i < |acts| && acts[i] == ClientSubscribe(dir, s, c)
    ensures c in y.world.heap && |Before(acts, i).world.log| <= |y.world.log|
    ensures var w, ch := Before(acts, i).world, y.world.heap[c];
            var since := y.world.log[|w.log|..];
            if s in w.bases && (if dir.Boot? then w.bases[s].started else w.bases[s].stopped) then
              ch.sent == [] && ch.closed
            else
              && (ch.closed <==> Published(dir, s, None) in since)
              && ch.sent + Owed(y.world, c) == Tell(since, dir, s).errs
              && (s !in y.world.busy ==> ch.sent == Tell(since, dir, s).errs)
              && (forall e :: e in ch.sent ==> Published(dir, s, Some(e)) in since)
  {
    ClientSub(acts, y, i, dir, s, c);
    ExactDelivery(y, c);
    var since := y.world.log[|Before(acts, i).world.log|..];
    TellIsTheLog(since, dir, s);
    assert forall e :: e in y.world.heap[c].sent ==> e in y.world.heap[c].sent + Owed(y.world, c);
  }

  /** Once a client receives nil on its channel, the goal that it asked for has held at some
      moment since: what ServiceReady returns has been started. */
  lemma NilMeansReached(acts: seq<Action>, y: System, i: nat, dir: Dir, s: Name, c: nat)
    requires Exec(INITIAL, acts) == Some(y) && i < |acts| && acts[i] == ClientSubscribe(dir, s, c)
    requires c in y.world.heap && y.world.heap[c].closed
    ensures exists j :: i < j <= |acts| && Exec(INITIAL, acts[..j]).Some? &&
              var w := Exec(INITIAL, acts[..j]).value.world;
              s in w.bases && if dir.Boot? then w.bases[s].started else w.bases[s].stopped
  {
    ClientSub(acts, y, i, dir, s, c);
    ClosedMeansReached(acts, y, c);
    var j :| 0 <= j <= |acts| && ReachedAt(acts[..j], c, y.world.subs[c]);
    if j <= i {
      BeforePrefix(acts, j, i);
      HeapSince(acts, j, i, c);
    }
  }

  /** How often a client has received from c. */
  function Receives(acts: seq<Action>, c: nat): nat {
    if acts == [] then 0 else Receives(acts[..|acts| - 1], c) + if acts[|acts| - 1] == ClientReceive(c) then 1 else 0
  }

  /** From a client's channel nobody else takes anything. */
  lemma {:induction false} OnlyReceivesTake(x: System, acts: seq<Action>, y: System, c: nat)
    requires Reachable(x) && Exec(x, acts) == Some(y) && c in x.world.heap && c in x.world.subs
    requires x.world.subs[c].owner == Client && x.world.heap[c].taken == 0
    ensures c in y.world.heap && c in y.world.subs && y.world.subs[c] == x.world.subs[c]
    ensures var ch, n := y.world.heap[c], Receives(acts, c);
            && ch.taken == (if n <= |ch.sent| then n else |ch.sent|)
            && (n > |ch.sent| ==> ch.closed)
  {
    if acts != [] {
      var n := |acts| - 1;
      LastStep(x, acts);
      var before := Exec(x, acts[..n]).value;
      ReachableLater(x, acts[..n], before);
      OnlyReceivesTake(x, acts[..n], before, c);
      SubsStay(before, acts[n], c);
      ClientStep(before, acts[n], c);
    }
  }

  /** The n-th receive of a client gets the n-th error on its channel, until they are used up
      and nil follows. */
  lemma ClientReceives(acts: seq<Action>, y: System, i: nat, dir: Dir, s: Name, c: nat)
    requires Exec(INITIAL, acts) == Some(y) && i < |acts| && acts[i] == ClientSubscribe(dir, s, c)
    ensures c in y.world.heap
    ensures var ch, n := y.world.heap[c], Receives(acts[i + 1..], c);
            && ch.taken == (if n <= |ch.sent| then n else |ch.sent|)
            && (n > |ch.sent| ==> ch.closed)
  {
    var x, rest := Before(acts, i + 1), acts[i + 1..];
    NextState(acts, i);
    assert acts == acts[..i + 1] + rest;
    ExecTwice(INITIAL, acts[..i + 1], rest);
    OnlyReceivesTake(x, rest, y, c);
  }

  lemma ClientStep(y: System, a: Action, c: nat)
    requires Reachable(y) && Enabled(y, a) && c in y.world.heap && c in y.world.subs && y.world.subs[c].owner == Client
    ensures c in Apply(y, a).world.heap
    ensures var ch, ch' := y.world.heap[c], Apply(y, a).world.heap[c];
            && ch'.taken == ch.taken + (if a == ClientReceive(c) && ch.taken < |ch.sent| then 1 else 0)
            && ch.sent <= ch'.sent && (ch.closed ==> ch'.closed && ch'.sent == ch.sent)
            && (a == ClientReceive(c) ==> ch.taken < |ch.sent| || ch.closed)
  {
    ReachableChan(y, c);
    if a.Go? {
      ReachableWaiter(y, a.service);
      forall dir ensures ListOk(y.world, dir, a.service) {
        ReachableList(y, dir, a.service);
      }
      MoveLeaves(y.world, y.call.value, a.service, a.move, c);
    }
  }

  lemma ReachableWaiter(y: System, s: Name)
    requires Reachable(y) && y.call.Some? && s in y.call.value.pcs
    ensures y.call.value.pcs[s].Waiting? ==>
              y.call.value.pcs[s].chan in y.world.subs && y.world.subs[y.call.value.pcs[s].chan].owner == Waiter(s)
  {
    ReachablePc(y, s);
  }
}
