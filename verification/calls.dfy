/** How often a call of StartAll or StopAll calls a service: exactly as often as the retry
    loop run on its own would, or not at all. */
module Calls {
  import opened Errors
  import opened Retries
  import opened Worlds
  import opened Protocol
  import opened Invariants
  import opened Reachability
  import opened Outcomes

  /** The attempts at which s would succeed. */
  function WinsOf(wins: set<(Name, nat)>, s: Name): set<nat> {
    set p | p in wins && p.0 == s :: p.1
  }

  /** The number of calls of s in a log. */
  function CallsOf(log: seq<Event>, s: Name): nat {
    if log == [] then 0
    else
      var ev := log[|log| - 1];
      CallsOf(log[..|log| - 1], s) + if ev.Invoked? && ev.service == s then 1 else 0
  }

  lemma CallsMore(log: seq<Event>, begin: nat, ev: Event, s: Name)
    requires begin <= |log|
    ensures CallsOf((log + [ev])[begin..], s) ==
            CallsOf(log[begin..], s) + if ev.Invoked? && ev.service == s then 1 else 0
  {
    assert (log + [ev])[begin..] == log[begin..] + [ev];
    assert (log[begin..] + [ev])[..|log[begin..]|] == log[begin..];
  }

  /** The attempt that the uncancelled retry loop of s ends with. */
  function Last(w: World, k: Call, s: Name): nat
    requires s in w.specs
  {
    LastCall(w.specs[s].retries, WinsOf(k.wins, s), {})
  }

  /** The calls of s so far are those that its place in the program accounts for. */
  ghost predicate CallsOk(w: World, k: Call, s: Name) {
    && s in k.pcs && s in w.specs && k.begin <= |w.log|
    && CallsAt(w, k, s, k.pcs[s], CallsOf(w.log[k.begin..], s))
  }

  ghost predicate CallsAt(w: World, k: Call, s: Name, pc: PC, n: nat)
    requires s in w.specs
  {
    match pc
    case Trying(m, _) => n == m - 1
    case BackingOff(m, _) => n == m
    case Publishing(err) => CallsFor(w, k, s, err, n)
    case Serving(e) => CallsFor(w, k, s, Some(e), n)
    case Returning(err) => CallsFor(w, k, s, err, n)
    case Exited(err) => CallsFor(w, k, s, err, n)
    case _ => n == 0
  }

  ghost predicate CallsFor(w: World, k: Call, s: Name, err: Option<Error>, n: nat)
    requires s in w.specs
  {
    match err
    case None => n == if s in k.at0 then 0 else Last(w, k, s)
    case Some(e) =>
      if e == Exhaustion(k.dir, s, MaxTries(w.specs[s].retries)) then n == Last(w, k, s)
      else if e == ContextError then 1 <= n < Last(w, k, s)
      else n == 0
  }

  /** The first attempts having failed, the loop is not over before the next one. */
  lemma NotYet(w: World, k: Call, s: Name, n: nat)
    requires s in w.specs && NoWins(k, s, n) && n < MaxTries(w.specs[s].retries)
    ensures n < Last(w, k, s)
    ensures (s, n + 1) in k.wins || n + 1 == MaxTries(w.specs[s].retries) ==> Last(w, k, s) == n + 1
  {
    var wins := WinsOf(k.wins, s);
    assert forall i :: i in wins <==> (s, i) in k.wins;
    assert (s, n + 1) in k.wins ==> n + 1 in wins;
  }

  /** What a move of s adds to the calls of t. */
  lemma MoveCalls(w: World, k: Call, s: Name, m: Move, t: Name)
    requires CanMove(w, k, s, m) && k.begin <= |w.log|
    ensures var w' := WorldAfter(w, k, s, m);
            && k.begin <= |w'.log|
            && CallsOf(w'.log[k.begin..], t) == CallsOf(w.log[k.begin..], t) + if m.Try? && t == s then 1 else 0
  {
    var w' := WorldAfter(w, k, s, m);
    if w'.log != w.log {
      CallsMore(w.log, k.begin, w'.log[|w.log|], t);
    }
  }

  /** The same expectation in a later state. */
  lemma CallsAtStays(w: World, k: Call, w': World, k': Call, s: Name, pc: PC, n: nat)
    requires s in w.specs && CallsAt(w, k, s, pc, n) && w'.specs == w.specs
    requires k'.dir == k.dir && k'.at0 == k.at0 && k'.wins == k.wins
    ensures CallsAt(w', k', s, pc, n)
  {
  }

  /** How the expectation goes from one place in the program to the next. */
  lemma CallsAtNext(w: World, k: Call, s: Name, m: Move, n: nat)
    requires CanMove(w, k, s, m) && CallsAt(w, k, s, k.pcs[s], n)
    requires k.pcs[s].AtGuard? && Done(w, k.dir, s) ==> s in k.at0
    requires k.pcs[s].Trying? ==> s !in k.at0 && 1 <= k.pcs[s].attempt <= MaxTries(w.specs[s].retries)
    requires k.pcs[s].Trying? ==> NoWins(k, s, k.pcs[s].attempt - 1)
    requires k.pcs[s].BackingOff? ==> 1 <= k.pcs[s].attempt
    requires k.pcs[s].BackingOff? ==> k.pcs[s].attempt < MaxTries(w.specs[s].retries) && NoWins(k, s, k.pcs[s].attempt)
    ensures CallsAt(w, k, s, PcAfter(w, k, s, m), n + if m.Try? then 1 else 0)
  {
    match k.pcs[s]
    case Trying(i, _) => NotYet(w, k, s, i - 1);
    case BackingOff(i, _) => NotYet(w, k, s, i);
    case _ =>
  }

  lemma MoverCalls(w: World, k: Call, s: Name, m: Move)
    requires AllDone(w, k.dir, k.at0) && PcOk(w, k, s) && CallsOk(w, k, s) && CanMove(w, k, s, m)
    ensures CallsOk(WorldAfter(w, k, s, m), CallAfter(w, k, s, m), s)
  {
    var n := CallsOf(w.log[k.begin..], s);
    MoveCalls(w, k, s, m, s);
    CallsAtNext(w, k, s, m, n);
    CallsAtStays(w, k, WorldAfter(w, k, s, m), CallAfter(w, k, s, m), s, PcAfter(w, k, s, m),
                 n + if m.Try? then 1 else 0);
  }

  lemma OtherCalls(w: World, k: Call, s: Name, m: Move, t: Name)
    requires CallsOk(w, k, t) && CanMove(w, k, s, m) && t != s
    ensures CallsOk(WorldAfter(w, k, s, m), CallAfter(w, k, s, m), t)
  {
    MoveCalls(w, k, s, m, t);
    CallsAtStays(w, k, WorldAfter(w, k, s, m), CallAfter(w, k, s, m), t, k.pcs[t], CallsOf(w.log[k.begin..], t));
  }

  lemma {:induction false} CallsStayOk(acts: seq<Action>, y: System)
    requires Exec(INITIAL, acts) == Some(y)
    ensures y.call.Some? ==> forall s :: s in y.call.value.pcs ==> CallsOk(y.world, y.call.value, s)
  {
    if acts != [] {
      var n := |acts| - 1;
      var before, a := Exec(INITIAL, acts[..n]).value, acts[n];
      assert Reachable(before);
      CallsStayOk(acts[..n], before);
      if y.call.Some? {
        forall s | s in y.call.value.pcs ensures CallsOk(y.world, y.call.value, s) {
          StepCalls(before, a, s);
        }
      }
    }
  }

  lemma StepCalls(y: System, a: Action, s: Name)
    requires Reachable(y) && Enabled(y, a) && Apply(y, a).call.Some? && s in Apply(y, a).call.value.pcs
    requires y.call.Some? ==> forall t :: t in y.call.value.pcs ==> CallsOk(y.world, y.call.value, t)
    ensures CallsOk(Apply(y, a).world, Apply(y, a).call.value, s)
  {
    if a.Go? {
      ReachablePc(y, a.service);
      ReachableFrame(y);
      if a.service == s {
        MoverCalls(y.world, y.call.value, s, a.move);
      } else {
        OtherCalls(y.world, y.call.value, a.service, a.move, s);
      }
    }
  }

  lemma ReachableCalls(y: System, s: Name)
    requires Reachable(y) && y.call.Some? && s in y.call.value.pcs
    ensures CallsOk(y.world, y.call.value, s)
  {
    var acts :| Exec(INITIAL, acts) == Some(y);
    CallsStayOk(acts, y);
  }

  /** What precedes an event of the call is at the goal by now. */
  lemma PrecededIsDone(w: World, k: Call, s: Name, i: nat)
    requires OrderOk(w, k) && AllDone(w, k.dir, k.at0) && Preceded(w, k, s, i)
    ensures AllDone(w, k.dir, Prereqs(w.specs, k.dir, s))
  {
    forall d | d in Prereqs(w.specs, k.dir, s) && d !in k.at0 ensures Done(w, k.dir, d) {
      var part := w.log[k.begin..i];
      var j :| 0 <= j < |part| && part[j] == Published(k.dir, d, None);
      assert w.log[k.begin + j] == Published(k.dir, d, None);
      assert EventOk(w, k, k.begin + j);
    }
  }

  lemma InLog(log: seq<Event>, begin: nat, ev: Event) returns (i: nat)
    requires begin <= |log| && ev in log[begin..]
    ensures begin <= i < |log| && log[i] == ev
  {
    var j :| 0 <= j < |log[begin..]| && log[begin..][j] == ev;
    i := begin + j;
  }

  lemma TriedMeansReady(w: World, k: Call, s: Name)
    requires OrderOk(w, k) && AllDone(w, k.dir, k.at0) && Tried(w, k, s, 1)
    ensures AllDone(w, k.dir, Prereqs(w.specs, k.dir, s))
  {
    var i := InLog(w.log, k.begin, Invoked(k.dir, s, 1, Passed(w.specs, k.dir, s)));
    assert EventOk(w, k, i);
    PrecededIsDone(w, k, s, i);
  }

  /** Whoever was called had everything it waits for at the goal. */
  lemma CalledMeansReady(y: System, s: Name)
    requires Reachable(y) && y.call.Some? && Tried(y.world, y.call.value, s, 1)
    ensures AllDone(y.world, y.call.value.dir, Prereqs(y.world.specs, y.call.value.dir, s))
  {
    ReachableOrder(y);
    ReachableFrame(y);
    TriedMeansReady(y.world, y.call.value, s);
  }

  /** In an uncancelled call that returns, whatever the interleaving was, a service was
      called exactly as often as its retry loop takes, if it was not at the goal yet and
      everything it waits for reached it; and not at all otherwise. */
  lemma CallCount(y: System, s: Name)
    requires Reachable(y) && Returned(y) && !y.call.value.cancelled && s in y.world.specs
    ensures y.call.value.begin <= |y.world.log|
    ensures var w, k := y.world, y.call.value;
            CallsOf(w.log[k.begin..], s) ==
              if s !in k.at0 && AllDone(w, k.dir, Prereqs(w.specs, k.dir, s))
              then LastCall(w.specs[s].retries, WinsOf(k.wins, s), {})
              else 0
  {
    var w, k := y.world, y.call.value;
    HowItEnded(y, s);
    ReachableCalls(y, s);
    if k.pcs[s].err.None? {
      if s !in k.at0 {
        GoalIffDeserved(y, s);
      }
    } else {
      var e, last := k.pcs[s].err.value, MaxTries(w.specs[s].retries);
      FailureIsBlamed(y, s, e);
      if Tried(w, k, s, last) && e == Exhaustion(k.dir, s, last) {
        CalledMeansReady(y, s);
      } else {
        var d :| d in Prereqs(w.specs, k.dir, s) && Failed(k, d);
        FailedIsNotDone(y, d);
      }
    }
  }
}
