/** StartAll and StopAll as one protocol: a goroutine per service, each at some point of
    start or stop, interleaved arbitrarily with each other and with client code. */
module Protocol {
  import opened Errors
  import opened Services
  import opened Graphs
  import opened Retries
  import opened Worlds

  /** Where a goroutine is. */
  datatype PC =
    | AtGuard                                                // before the idempotency select
    | Gathering(got: set<Name>)                              // between two prerequisites
    | Calling(got: set<Name>, on: Name)                      // about to subscribe to the chosen one
    | Waiting(got: set<Name>, on: Name, chan: nat)           // receiving from it
    | Trying(attempt: nat, deps: set<Name>)                  // about to call Start or Stop
    | BackingOff(attempt: nat, deps: set<Name>)              // in the select after a failed call
    | Publishing(err: Option<Error>)                         // about to call base.start or base.stop
    | Serving(failure: Error)                                // sending that failure, holding the base
    | Returning(err: Option<Error>)                          // about to report to errC
    | Exited(err: Option<Error>)

  /** A running StartAll (Boot) or StopAll (Shut). begin and at0 record the length of the
      log and the services at their goal when it began; wins holds the attempts that the
      services' own Start or Stop let succeed. */
  datatype Call = Call(
    dir: Dir, begin: nat, at0: set<Name>, wins: set<(Name, nat)>,
    cancelled: bool, pcs: map<Name, PC>, errC: seq<(Name, Error)>)

  datatype System = System(world: World, call: Option<Call>)

  const INITIAL := System(World(map[], map[], map[], map[], [], map[]), None)

  /** The case a guard's select takes; with several ready it may take any of them. */
  datatype Pick = SeesGoal | SeesCancel | Default

  /** What a goroutine does next. Guard, Subscribe and Publish take the lock of a base, so
      they are possible only while no failing call holds it. */
  datatype Move =
    | Guard(chan: nat, pick: Pick) | Choose(on: Name) | Subscribe(chan: nat) | Receive | Launch
    | Try | Retry | Abort | Publish | Serve | Release | Report

  datatype Action =
    | AddService(service: Name, spec: Spec)
    | Begin(dir: Dir, cancelled: bool, wins: set<(Name, nat)>)
    | Go(service: Name, move: Move)
    | Cancel
    | End
    | ClientSubscribe(dir: Dir, service: Name, chan: nat)
    | ClientReceive(chan: nat)

  // ---------- the errors of a call ----------

  function GuardError(dir: Dir, s: Name): Error {
    if dir.Boot? then StartFailure(s, ContextDone) else StopFailure(s, ContextDone)
  }

  function Exhaustion(dir: Dir, s: Name, attempt: nat): Error {
    if dir.Boot? then StartFailure(s, Attempt(attempt)) else StopFailure(s, Attempt(attempt))
  }

  function Unavailable(dir: Dir, s: Name, d: Name): Error {
    if dir.Boot? then DependencyUnavailable(s, d) else ParentUnavailable(s, d)
  }

  /** The errors that go through base.start or base.stop, and so reach subscribers. */
  predicate Announced(dir: Dir, s: Name, e: Error) {
    e != GuardError(dir, s) && e != ContextError
  }

  /** The capacity of errC. */
  function Room(w: World, k: Call): nat {
    |w.specs| + if k.dir.Boot? then 0 else 1
  }

  /** Left to itself, s succeeds within its allowed attempts. */
  ghost predicate CanSucceed(specs: map<Name, Spec>, wins: set<(Name, nat)>, s: Name) {
    s in specs && exists n :: (s, n) in wins && 1 <= n <= MaxTries(specs[s].retries)
  }

  // ---------- one goroutine ----------

  predicate CanMove(w: World, k: Call, s: Name, m: Move) {
    s in k.pcs && s in w.bases && s in w.specs &&
    match (k.pcs[s], m)
    case (AtGuard, Guard(c, pick)) =>
      && c !in w.heap && s !in w.busy
      && (pick == SeesGoal ==> Done(w, k.dir, s))
      && (pick == SeesCancel ==> k.cancelled)
      && (pick == Default ==> !Done(w, k.dir, s) && !k.cancelled)
    case (Gathering(got), Choose(on)) => on in Prereqs(w.specs, k.dir, s) && on !in got
    case (Calling(_, on), Subscribe(c)) => on in w.bases && on !in w.busy && c !in w.heap
    case (Gathering(got), Launch) => got == Prereqs(w.specs, k.dir, s)
    case (Waiting(_, _, c), Receive) => c in w.heap && w.heap[c].Readable()
    case (Trying(_, _), Try) => true
    case (BackingOff(_, _), Retry) => true
    case (BackingOff(_, _), Abort) => k.cancelled
    case (Publishing(_), Publish) => s !in w.busy
    case (Serving(_), Serve) => CanServe(w, s)
    case (Serving(_), Release) => AllServed(w, s)
    case (Returning(err), Report) => err.Some? ==> |k.errC| < Room(w, k)
    case _ => false
  }

  function WorldAfter(w: World, k: Call, s: Name, m: Move): World
    requires CanMove(w, k, s, m)
  {
    match m
    case Guard(c, _) => Attach(w, k.dir, s, c, Guardian)
    case Subscribe(c) => Attach(w, k.dir, k.pcs[s].on, c, Waiter(s))
    case Receive => Drain(w, k.pcs[s].chan)
    case Try => Invoke(w, k.dir, s, k.pcs[s].attempt, if k.dir.Boot? then k.pcs[s].deps else {})
    case Publish => Announce(w, k.dir, s, k.pcs[s].err)
    case Serve => Worlds.Serve(w, s)
    case Release => Worlds.Release(w, s)
    case _ => w
  }

  function PcAfter(w: World, k: Call, s: Name, m: Move): PC
    requires CanMove(w, k, s, m)
  {
    match (k.pcs[s], m)
    case (_, Guard(_, SeesGoal)) => Returning(None)
    case (_, Guard(_, SeesCancel)) => Returning(Some(GuardError(k.dir, s)))
    case (_, Guard(_, Default)) => Gathering({})
    case (Gathering(got), Choose(on)) => Calling(got, on)
    case (Calling(got, on), Subscribe(c)) => Waiting(got, on, c)
    case (Waiting(got, on, c), Receive) =>
      if w.heap[c].taken < |w.heap[c].sent| then Publishing(Some(Unavailable(k.dir, s, on)))
      else Gathering(got + {on})
    case (Gathering(got), Launch) => Trying(1, got)
    case (Trying(n, deps), Try) =>
      if (s, n) in k.wins then Publishing(None)
      else if n >= w.specs[s].retries then Publishing(Some(Exhaustion(k.dir, s, n)))
      else BackingOff(n, deps)
    case (BackingOff(n, deps), Retry) => Trying(n + 1, deps)
    case (_, Abort) => Returning(Some(ContextError))
    case (Publishing(err), Publish) => if err.Some? then Serving(err.value) else Returning(None)
    case (Serving(e), Release) => Returning(Some(e))
    case (Returning(err), Report) => Exited(err)
    case (pc, _) => pc
  }

  function CallAfter(w: World, k: Call, s: Name, m: Move): Call
    requires CanMove(w, k, s, m)
  {
    k.(pcs := k.pcs[s := PcAfter(w, k, s, m)],
       errC := if m.Report? && k.pcs[s].err.Some? then k.errC + [(s, k.pcs[s].err.value)] else k.errC)
  }

  // ---------- the whole system ----------

  ghost predicate Enabled(y: System, a: Action) {
    match a
    case AddService(s, _) => y.call.None? && s !in y.world.specs
    case Begin(dir, _, _) =>
      y.call.None? && (dir.Boot? ==> Closed(DepGraph(y.world.specs)) && !HasCycle(DepGraph(y.world.specs)))
    case Go(s, m) => y.call.Some? && CanMove(y.world, y.call.value, s, m)
    case Cancel => y.call.Some?
    case End => y.call.Some? && forall s :: s in y.call.value.pcs ==> y.call.value.pcs[s].Exited?
    case ClientSubscribe(_, s, c) => s in y.world.bases && s !in y.world.busy && c !in y.world.heap
    case ClientReceive(c) =>
      c in y.world.heap && c in y.world.subs && y.world.subs[c].owner == Client && y.world.heap[c].Readable()
  }

  function BeginCall(w: World, dir: Dir, cancelled: bool, wins: set<(Name, nat)>): Call {
    var at0 := set s | s in w.bases && AtGoal(dir, w.bases[s]);
    Call(dir, |w.log|, at0, wins, cancelled, map s | s in w.specs :: AtGuard, [])
  }

  ghost function Apply(y: System, a: Action): System
    requires Enabled(y, a)
  {
    match a
    case AddService(s, spec) => y.(world := Register(y.world, s, spec))
    case Begin(dir, cancelled, wins) => y.(call := Some(BeginCall(y.world, dir, cancelled, wins)))
    case Go(s, m) => System(WorldAfter(y.world, y.call.value, s, m), Some(CallAfter(y.world, y.call.value, s, m)))
    case Cancel => y.(call := Some(y.call.value.(cancelled := true)))
    case End => y.(call := None)
    case ClientSubscribe(dir, s, c) => y.(world := Attach(y.world, dir, s, c, Client))
    case ClientReceive(c) => y.(world := Drain(y.world, c))
  }

  /** The state that a sequence of actions leads to from y, if all of them are possible. */
  ghost function Exec(y: System, acts: seq<Action>): Option<System> {
    if acts == [] then Some(y)
    else
      var before := Exec(y, acts[..|acts| - 1]);
      var a := acts[|acts| - 1];
      if before.Some? && Enabled(before.value, a) then Some(Apply(before.value, a)) else None
  }

  ghost predicate Reachable(y: System) {
    exists acts :: Exec(INITIAL, acts) == Some(y)
  }

  lemma ExecMore(y: System, acts: seq<Action>, a: Action)
    ensures var z := Exec(y, acts);
            Exec(y, acts + [a]) ==
              if z.Some? && Enabled(z.value, a) then Some(Apply(z.value, a)) else None
  {
    assert (acts + [a])[..|acts|] == acts;
  }

  lemma {:induction false} ExecTwice(y: System, first: seq<Action>, then': seq<Action>)
    requires Exec(y, first).Some?
    ensures Exec(y, first + then') == Exec(Exec(y, first).value, then')
  {
    if then' == [] {
      assert first + then' == first;
    } else {
      var n := |then'| - 1;
      ExecTwice(y, first, then'[..n]);
      assert first + then' == (first + then'[..n]) + [then'[n]];
      assert then' == then'[..n] + [then'[n]];
      ExecMore(y, first + then'[..n], then'[n]);
      ExecMore(Exec(y, first).value, then'[..n], then'[n]);
    }
  }

  lemma ReachableLater(y: System, acts: seq<Action>, z: System)
    requires Reachable(y) && Exec(y, acts) == Some(z)
    ensures Reachable(z)
  {
    var first :| Exec(INITIAL, first) == Some(y);
    ExecTwice(INITIAL, first, acts);
  }

  lemma LastStep(y: System, acts: seq<Action>)
    requires acts != [] && Exec(y, acts).Some?
    ensures var x, a := Exec(y, acts[..|acts| - 1]), acts[|acts| - 1];
            x.Some? && Enabled(x.value, a) && Exec(y, acts) == Some(Apply(x.value, a))
  {
  }

  lemma ExecOne(y: System, a: Action)
    ensures Exec(y, [a]) == if Enabled(y, a) then Some(Apply(y, a)) else None
  {
    assert [a][..0] == [];
  }

  lemma {:induction false} FirstIsPossible(y: System, acts: seq<Action>)
    requires acts != [] && Exec(y, acts).Some?
    ensures Enabled(y, acts[0]) && Exec(Apply(y, acts[0]), acts[1..]) == Exec(y, acts)
  {
    var n := |acts| - 1;
    if n > 0 {
      FirstIsPossible(y, acts[..n]);
      assert acts[1..][..n - 1] == acts[..n][1..];
    }
  }

  lemma ReachableNext(y: System, a: Action)
    requires Reachable(y) && Enabled(y, a)
    ensures Reachable(Apply(y, a))
  {
    ExecOne(y, a);
    ReachableLater(y, [a], Apply(y, a));
  }
}
