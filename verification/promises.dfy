/** What the calls do, read from outside: said of the actions that were taken, the fields of
    the bases, the events of the log and the constructors of the errors. */
module Promises {
  import opened Errors
  import opened Channels
  import opened Services
  import opened Graphs
  import opened Worlds
  import opened Protocol
  import opened Invariants
  import opened Reachability
  import opened Runs
  import opened Lifetime
  import opened Outcomes
  import opened Calls
  import opened Progress
  import opened Returns

  // ---------- registration ----------

  /** A service is known with the dependencies and the retries that it was registered with,
      and starts out stopped, without errors and without subscribers. */
  lemma {:induction false} RegistrationLasts(acts: seq<Action>, y: System, i: nat, s: Name, spec: Spec)
    requires Exec(INITIAL, acts) == Some(y) && i < |acts| && acts[i] == AddService(s, spec)
    ensures s in y.world.specs && y.world.specs[s] == spec
    ensures var w := Before(acts, i + 1).world;
            s in w.bases && w.bases[s] == Base(false, true, None, None, [], [])
  {
    var n := |acts| - 1;
    NextState(acts, i);
    NextState(acts, n);
    assert acts[..|acts|] == acts;
    if i < n {
      BeforePrefix(acts, i + 1, n);
      RegistrationLasts(acts[..n], Before(acts, n), i, s, spec);
      SpecsStay(Before(acts, n), acts[n], s);
    }
  }

  lemma SpecsStay(y: System, a: Action, s: Name)
    requires Enabled(y, a) && s in y.world.specs
    ensures s in Apply(y, a).world.specs && Apply(y, a).world.specs[s] == y.world.specs[s]
  {
  }

  // ---------- the log, and the bases as its replay ----------

  /** What each action adds to the log: calls of services are numbered from one in each call,
      and only Start is handed anything. */
  lemma WhatIsLogged(y: System, a: Action)
    requires Reachable(y) && Enabled(y, a)
    ensures y.call.Some? ==> y.call.value.begin <= |y.world.log|
    ensures Apply(y, a).world.log == y.world.log +
              match a
              case Go(s, Try) =>
                var k := y.call.value;
                [Invoked(k.dir, s, CallsOf(y.world.log[k.begin..], s) + 1,
                         if k.dir.Boot? then y.world.specs[s].deps else {})]
              case Go(s, Publish) => [Published(y.call.value.dir, s, y.call.value.pcs[s].err)]
              case _ => []
  {
    if y.call.Some? {
      ReachableFrame(y);
    }
    if a.Go? && a.move.Try? {
      TryPasses(y, a.service);
    }
  }

  lemma TryPasses(y: System, s: Name)
    requires Reachable(y) && y.call.Some? && s in y.call.value.pcs && y.call.value.pcs[s].Trying?
    requires y.call.value.begin <= |y.world.log|
    ensures s in y.world.specs
    ensures y.call.value.pcs[s].attempt == CallsOf(y.world.log[y.call.value.begin..], s) + 1
    ensures y.call.value.dir.Boot? ==> y.call.value.pcs[s].deps == y.world.specs[s].deps
  {
    ReachablePc(y, s);
    ReachableCalls(y, s);
  }

  /** The flags and errors of a base, from the results that were published about its service. */
  function Replay(log: seq<Event>, s: Name): Base<nat> {
    if log == [] then Base(false, true, None, None, [], [])
    else
      var b, ev := Replay(log[..|log| - 1], s), log[|log| - 1];
      if ev.Published? && ev.service == s then ReplayOne(b, ev.dir, ev.err) else b
  }

  function ReplayOne(b: Base<nat>, dir: Dir, err: Option<Error>): Base<nat> {
    match (dir, err)
    case (Boot, None) => Base(true, false, None, None, [], [])
    case (Shut, None) => Base(false, true, None, None, [], [])
    case (Boot, Some(_)) => Base(false, true, err, None, [], [])
    case (Shut, Some(_)) => b.(stopped := false, stoppedErr := err)
  }

  predicate Agree(b: Base<nat>, r: Base<nat>) {
    b.started == r.started && b.startedErr == r.startedErr && b.stopped == r.stopped && b.stoppedErr == r.stoppedErr
  }

  lemma ReplayMore(log: seq<Event>, ev: Event, s: Name)
    ensures Replay(log + [ev], s) ==
            if ev.Published? && ev.service == s then ReplayOne(Replay(log, s), ev.dir, ev.err) else Replay(log, s)
  {
    assert (log + [ev])[..|log|] == log;
  }

  /** At every moment the flags and errors of every service are those that its history gives:
      nothing but the publication of a result ever changes them. */
  lemma {:induction false} BasesAreReplayed(acts: seq<Action>, y: System, s: Name)
    requires Exec(INITIAL, acts) == Some(y) && s in y.world.bases
    ensures var b, r := y.world.bases[s], Replay(y.world.log, s);
            && b.started == r.started && b.startedErr == r.startedErr
            && b.stopped == r.stopped && b.stoppedErr == r.stoppedErr
  {
    if acts != [] {
      var n := |acts| - 1;
      NextState(acts, n);
      assert acts[..|acts|] == acts;
      var before := Before(acts, n);
      if s in before.world.bases {
        BasesAreReplayed(acts[..n], before, s);
      } else {
        ReachableLogged(before);
        NothingReplayed(before.world.log, s);
      }
      StepReplays(before, acts[n], s);
    }
  }

  lemma ReachableLogged(y: System)
    requires Reachable(y)
    ensures LogOk(y.world)
  {
    ReachableOk(y);
  }

  lemma {:induction false} NothingReplayed(log: seq<Event>, s: Name)
    requires forall i :: 0 <= i < |log| ==> log[i].service != s
    ensures Replay(log, s) == Base(false, true, None, None, [], [])
  {
    if log != [] {
      NothingReplayed(log[..|log| - 1], s);
    }
  }

  lemma PublishReplays(dir: Dir, b: Base<nat>, r: Base<nat>, err: Option<Error>)
    requires Disciplined(b) && !AtGoal(dir, b)
    requires Agree(b, r)
    ensures Agree(Services.Publish(dir, b, err), ReplayOne(r, dir, err))
  {
  }

  lemma MoveReplays(w: World, k: Call, t: Name, m: Move, s: Name)
    requires CanMove(w, k, t, m) && s in w.bases && Disciplined(w.bases[s])
    requires m.Publish? ==> !AtGoal(k.dir, w.bases[t])
    requires Agree(w.bases[s], Replay(w.log, s))
    ensures var w' := WorldAfter(w, k, t, m);
            s in w'.bases && Agree(w'.bases[s], Replay(w'.log, s))
  {
    if m.Try? || m.Publish? {
      ReplayMore(w.log, WorldAfter(w, k, t, m).log[|w.log|], s);
    }
    if m.Publish? && t == s {
      PublishReplays(k.dir, w.bases[s], Replay(w.log, s), k.pcs[s].err);
    }
  }

  lemma StepReplays(y: System, a: Action, s: Name)
    requires Reachable(y) && Enabled(y, a) && s in Apply(y, a).world.bases
    requires if s in y.world.bases
             then Agree(y.world.bases[s], Replay(y.world.log, s))
             else Replay(y.world.log, s) == Base(false, true, None, None, [], [])
    ensures Agree(Apply(y, a).world.bases[s], Replay(Apply(y, a).world.log, s))
  {
    ReachableShape(y);
    if a.Go? {
      if a.move.Publish? {
        ReachablePublishing(y, a.service);
      }
      MoveReplays(y.world, y.call.value, a.service, a.move, s);
    }
  }

  // ---------- what each action adds elsewhere ----------

  /** Errors are reported one at a time, in the order in which the goroutines end. */
  lemma WhatIsReported(y: System, a: Action)
    requires Enabled(y, a) && y.call.Some? && a != End
    ensures Apply(y, a).call.Some?
    ensures Apply(y, a).call.value.errC == y.call.value.errC +
              match a
              case Go(s, Report) =>
                var err := y.call.value.pcs[s].err;
                if err.Some? then [(s, err.value)] else []
              case _ => []
  {
  }

  /** So the receiver of errC gets them in the order in which they were reported. */
  lemma {:induction false} ErrorsInOrder(y: System, acts: seq<Action>, z: System, i: nat, j: nat)
    requires y.call.Some? && y.call.value.errC == [] && End !in acts && Exec(y, acts) == Some(z)
    requires z.call.Some? && i < j < |z.call.value.errC|
    ensures exists a, b :: 0 <= a < b < |acts|
              && acts[a] == Go(z.call.value.errC[i].0, Move.Report)
              && acts[b] == Go(z.call.value.errC[j].0, Move.Report)
  {
    var n := |acts| - 1;
    LastStep(y, acts);
    var before := Exec(y, acts[..n]).value;
    assert acts == acts[..n] + [acts[n]];
    RunWithin(y, acts[..n], before);
    WhatIsReported(before, acts[n]);
    var errs := before.call.value.errC;
    if j < |errs| {
      ErrorsInOrder(y, acts[..n], before, i, j);
      var a, b :| 0 <= a < b < n
        && acts[..n][a] == Go(errs[i].0, Move.Report) && acts[..n][b] == Go(errs[j].0, Move.Report);
      assert acts[a] == Go(errs[i].0, Move.Report) && acts[b] == Go(errs[j].0, Move.Report);
    } else {
      var a := ReportedAt(y, acts[..n], before, i);
      assert acts[a] == Go(errs[i].0, Move.Report) && acts[n] == Go(z.call.value.errC[j].0, Move.Report);
    }
  }

  lemma {:induction false} ReportedAt(y: System, acts: seq<Action>, z: System, i: nat) returns (a: nat)
    requires y.call.Some? && y.call.value.errC == [] && End !in acts && Exec(y, acts) == Some(z)
    requires z.call.Some? && i < |z.call.value.errC|
    ensures a < |acts| && acts[a] == Go(z.call.value.errC[i].0, Move.Report)
  {
    var n := |acts| - 1;
    LastStep(y, acts);
    var before := Exec(y, acts[..n]).value;
    assert acts == acts[..n] + [acts[n]];
    RunWithin(y, acts[..n], before);
    WhatIsReported(before, acts[n]);
    if i < |before.call.value.errC| {
      a := ReportedAt(y, acts[..n], before, i);
    } else {
      a := n;
    }
  }

  /** A subscription as an action asks for it. */
  datatype Request = Request(dir: Dir, service: Name, chan: nat)

  /** The subscription that an action makes: clients ask for what they want, every guard for
      its own service, and a waiting goroutine for the prerequisite that it has chosen. */
  function Asked(y: System, a: Action): Option<Request> {
    match a
    case ClientSubscribe(dir, s, c) => Some(Request(dir, s, c))
    case Go(s, Guard(c, _)) => if y.call.Some? then Some(Request(y.call.value.dir, s, c)) else None
    case Go(s, Subscribe(c)) =>
      if y.call.Some? && s in y.call.value.pcs && y.call.value.pcs[s].Calling?
      then Some(Request(y.call.value.dir, y.call.value.pcs[s].on, c)) else None
    case _ => None
  }

  /** A subscription makes one empty channel, closed if the goal holds and put at the end of
      the list otherwise; no other action makes any. */
  lemma WhatIsHandedOut(y: System, a: Action)
    requires Reachable(y) && Enabled(y, a)
    ensures Asked(y, a).None? ==> Apply(y, a).world.heap.Keys == y.world.heap.Keys
    ensures Asked(y, a).Some? ==>
              var r, w, w' := Asked(y, a).value, y.world, Apply(y, a).world;
              && r.chan !in w.heap && w'.heap.Keys == w.heap.Keys + {r.chan}
              && r.service in w.bases && w'.bases.Keys == w.bases.Keys
              && var b, b' := w.bases[r.service], w'.bases[r.service];
                 && w'.heap[r.chan] == Chan([], 0, if r.dir.Boot? then b.started else b.stopped)
                 && b'.startedCs == b.startedCs + (if r.dir.Boot? && !b.started then [r.chan] else [])
                 && b'.stoppedCs == b.stoppedCs + (if r.dir.Shut? && !b.stopped then [r.chan] else [])
  {
    ReachableShape(y);
    if a.Go? && !a.move.Guard? && !a.move.Subscribe? {
      MoveMakesNoChannel(y.world, y.call.value, a.service, a.move);
      if a.move.Receive? {
        ReachableWaiter(y, a.service);
      }
    }
  }

  lemma MoveMakesNoChannel(w: World, k: Call, s: Name, m: Move)
    requires CanMove(w, k, s, m) && !m.Guard? && !m.Subscribe?
    ensures WorldAfter(w, k, s, m).heap.Keys == w.heap.Keys
  {
  }

  /** The receiver of a channel, and nobody else, takes its errors, one at a time. */
  lemma WhatIsTaken(y: System, a: Action, c: nat)
    requires Reachable(y) && Enabled(y, a) && c in y.world.heap
    ensures c in Apply(y, a).world.heap
    ensures var ch := y.world.heap[c];
            var takes := a == ClientReceive(c) ||
                         (a.Go? && a.move.Receive? && y.call.value.pcs[a.service].chan == c);
            Apply(y, a).world.heap[c].taken == ch.taken + if takes && ch.taken < |ch.sent| then 1 else 0
  {
    ReachableChan(y, c);
    if a.Go? {
      forall dir ensures ListOk(y.world, dir, a.service) {
        ReachableList(y, dir, a.service);
      }
      if !(a.move.Receive? && y.call.value.pcs[a.service].chan == c) {
        if !y.call.value.pcs[a.service].Waiting? || y.call.value.pcs[a.service].chan != c {
          MoveLeaves(y.world, y.call.value, a.service, a.move, c);
        }
      }
    }
  }

  // ---------- what may happen next ----------

  /** Registering and beginning need that no call is running, and StartAll that everything it
      depends on is registered and can be ranked; cancelling and ending need a call, and
      ending that everybody has returned; clients subscribe at any time to a base that is not
      locked by a failing call, and receive what there is. */
  lemma WhatMayHappen(y: System, a: Action)
    requires Reachable(y)
    ensures !a.Go? ==>
              (Enabled(y, a) <==>
               match a
               case AddService(s, _) => y.call.None? && s !in y.world.specs
               case Begin(dir, _, _) => y.call.None? && (dir.Boot? ==> CanBeRanked(y.world.specs))
               case Cancel => y.call.Some?
               case End => y.call.Some? && forall s :: s in y.call.value.pcs ==> y.call.value.pcs[s].Exited?
               case ClientSubscribe(_, s, c) =>
                 && s in y.world.specs && c !in y.world.heap
                 && !(y.call.Some? && s in y.call.value.pcs && y.call.value.pcs[s].Serving?)
               case ClientReceive(c) =>
                 && c in y.world.heap && c in y.world.subs && y.world.subs[c].owner == Client
                 && (y.world.heap[c].taken < |y.world.heap[c].sent| || y.world.heap[c].closed)
               case _ => true)
  {
    ReachableShape(y);
    ReachableIdle(y);
    if y.call.Some? {
      ReachableFrame(y);
      if a.ClientSubscribe? && a.service in y.world.specs {
        UnlockedUnlessServing(y, a.service);
      }
    }
    RankedInPlain(y.world.specs);
  }

  ghost predicate CanBeRanked(specs: map<Name, Spec>) {
    exists r: map<Name, nat> :: RanksAll(specs, r)
  }

  /** Everything that is depended on is registered and comes before what depends on it. */
  ghost predicate RanksAll(specs: map<Name, Spec>, r: map<Name, nat>) {
    forall n, d :: n in specs && d in specs[n].deps ==> d in specs && n in r && d in r && r[d] < r[n]
  }

  lemma AcyclicCanBeRanked(specs: map<Name, Spec>)
    requires Closed(DepGraph(specs)) && !HasCycle(DepGraph(specs))
    ensures CanBeRanked(specs)
  {
    var g := DepGraph(specs);
    var r := AcyclicIsRanked(g);
    forall n, d | n in specs && d in specs[n].deps ensures d in specs && n in r && d in r && r[d] < r[n] {
      assert d in g[n] && g[n] <= g.Keys;
    }
    assert RanksAll(specs, r);
  }

  lemma RankedIsAcyclic(specs: map<Name, Spec>, r: map<Name, nat>)
    requires RanksAll(specs, r)
    ensures Closed(DepGraph(specs)) && !HasCycle(DepGraph(specs))
  {
    var g := DepGraph(specs);
    var all: map<Name, nat> := map n | n in specs :: if n in r then r[n] else 0;
    forall n, d | n in g && d in g[n] ensures d in g && all[d] < all[n] {
      assert d in specs[n].deps;
    }
    assert Ranked(g, g.Keys, all);
    AcyclicIffRanked(g);
  }

  lemma RankedInPlain(specs: map<Name, Spec>)
    ensures Closed(DepGraph(specs)) && !HasCycle(DepGraph(specs)) <==> CanBeRanked(specs)
  {
    if Closed(DepGraph(specs)) && !HasCycle(DepGraph(specs)) {
      AcyclicCanBeRanked(specs);
    }
    if r :| RanksAll(specs, r) {
      RankedIsAcyclic(specs, r);
    }
  }

  lemma ReachableIdle(y: System)
    requires Reachable(y)
    ensures y.call.None? ==> y.world.busy == map[]
  {
    ReachableOk(y);
  }

  /** A guard's select may take any case that is ready, and its default only if none is. */
  lemma GuardChoices(y: System, s: Name, c: nat, pick: Pick)
    requires Reachable(y) && y.call.Some? && s in y.world.specs && s in y.call.value.pcs
    requires y.call.value.pcs[s] == AtGuard && c !in y.world.heap
    ensures s in y.world.bases
    ensures var goal := if y.call.value.dir.Boot? then y.world.bases[s].started else y.world.bases[s].stopped;
            Enabled(y, Go(s, Guard(c, pick))) <==>
              match pick
              case SeesGoal => goal
              case SeesCancel => y.call.value.cancelled
              case Default => !goal && !y.call.value.cancelled
  {
    ReachablePc(y, s);
    ReachableShape(y);
  }

  /** Between two prerequisites any of those left may be next, and the service is called once
      none is left. */
  lemma GatheringChoices(y: System, s: Name, got: set<Name>, d: Name)
    requires Reachable(y) && y.call.Some? && s in y.world.specs && s in y.call.value.pcs
    requires y.call.value.pcs[s] == Gathering(got)
    ensures Enabled(y, Go(s, Choose(d))) <==>
              d !in got &&
              if y.call.value.dir.Boot? then d in y.world.specs[s].deps
              else d in y.world.specs && s in y.world.specs[d].deps
    ensures Enabled(y, Go(s, Launch)) <==> forall t :: !Enabled(y, Go(s, Choose(t)))
  {
    ReachablePc(y, s);
    ReachableShape(y);
    var pres := Prereqs(y.world.specs, y.call.value.dir, s);
    if got != pres {
      var t :| t in pres && t !in got;
      assert Enabled(y, Go(s, Choose(t)));
    }
  }

  /** A subscription waits only for the lock of its base, and a receive only for a message or
      the end of the channel. */
  lemma WaitingChoices(y: System, s: Name, c: nat)
    requires Reachable(y) && y.call.Some? && s in y.world.specs && s in y.call.value.pcs
    ensures y.call.value.pcs[s].Calling? && c !in y.world.heap ==>
              var d := y.call.value.pcs[s].on;
              d in y.call.value.pcs && (Enabled(y, Go(s, Subscribe(c))) <==> !y.call.value.pcs[d].Serving?)
    ensures y.call.value.pcs[s].Waiting? && y.call.value.pcs[s].chan == c ==>
              && c in y.world.heap
              && (Enabled(y, Go(s, Receive)) <==>
                  y.world.heap[c].taken < |y.world.heap[c].sent| || y.world.heap[c].closed)
  {
    ReachablePc(y, s);
    ReachableShape(y);
    if y.call.value.pcs[s].Calling? {
      var d := y.call.value.pcs[s].on;
      ReachableFrame(y);
      PrereqsRegistered(y, s);
      UnlockedUnlessServing(y, d);
    }
  }

  /** After a failed attempt that is not the last, the timer may fire, and if the context is
      cancelled that may be noticed instead; what else a goroutine has to do, it can do. */
  lemma OtherChoices(y: System, s: Name)
    requires Reachable(y) && y.call.Some? && s in y.world.specs && s in y.call.value.pcs
    ensures y.call.value.pcs[s].BackingOff? ==>
              Enabled(y, Go(s, Retry)) && (Enabled(y, Go(s, Abort)) <==> y.call.value.cancelled)
    ensures y.call.value.pcs[s].Trying? ==> Enabled(y, Go(s, Try))
    ensures y.call.value.pcs[s].Publishing? ==> Enabled(y, Go(s, Publish))
    ensures y.call.value.pcs[s].Returning? ==> Enabled(y, Go(s, Report))
  {
    ReachableShape(y);
    UnlockedUnlessServing(y, s);
    if y.call.value.pcs[s].Returning? {
      ReportFits(y, s);
    }
  }

  /** And it does nothing else. */
  lemma NoOtherMoves(y: System, s: Name, m: Move)
    requires Enabled(y, Go(s, m))
    ensures y.call.Some? && s in y.call.value.pcs
    ensures match y.call.value.pcs[s]
            case AtGuard => m.Guard?
            case Gathering(_) => m.Choose? || m.Launch?
            case Calling(_, _) => m.Subscribe?
            case Waiting(_, _, _) => m.Receive?
            case Trying(_, _) => m.Try?
            case BackingOff(_, _) => m.Retry? || m.Abort?
            case Publishing(_) => m.Publish?
            case Serving(_) => m.Serve? || m.Release?
            case Returning(_) => m.Report?
            case Exited(_) => false
  {
  }

  lemma UnlockedUnlessServing(y: System, s: Name)
    requires Reachable(y) && y.call.Some? && s in y.call.value.pcs
    ensures s in y.world.busy <==> y.call.value.pcs[s].Serving?
  {
    ReachablePc(y, s);
  }

  // ---------- the errors of a call ----------

  /** In a call for dir with the given outcomes, since its beginning, e is an error that s may
      come to: it names the right parties, and what it says has happened. */
  ghost predicate Explained(specs: map<Name, Spec>, dir: Dir, wins: set<(Name, nat)>, cancelled: bool,
                            since: seq<Event>, s: Name, e: Error)
  {
    s in specs &&
    match e
    case DependencyUnavailable(x, d) =>
      dir.Boot? && x == s && d in specs[s].deps && Fails(dir, since, d) && Published(dir, s, Some(e)) in since
    case ParentUnavailable(x, p) =>
      && dir.Shut? && x == s && p in specs && s in specs[p].deps
      && Fails(dir, since, p) && Published(dir, s, Some(e)) in since
    case StartFailure(x, cause) => dir.Boot? && x == s && OwnFailure(specs, dir, wins, cancelled, since, s, e, cause)
    case StopFailure(x, cause) => dir.Shut? && x == s && OwnFailure(specs, dir, wins, cancelled, since, s, e, cause)
    case ContextError => cancelled && IsCalled(since, s) && Unpublished(since, s)
    case _ => false
  }

  /** All attempts were made and none succeeded; or the guard noticed the cancellation. */
  ghost predicate OwnFailure(specs: map<Name, Spec>, dir: Dir, wins: set<(Name, nat)>, cancelled: bool,
                             since: seq<Event>, s: Name, e: Error, cause: Cause)
    requires s in specs
  {
    match cause
    case Attempt(n) =>
      && n == (if specs[s].retries == 0 then 1 else specs[s].retries)
      && (forall m :: 1 <= m <= n ==>
            (s, m) !in wins && Invoked(dir, s, m, if dir.Boot? then specs[s].deps else {}) in since)
      && Published(dir, s, Some(e)) in since
    case ContextDone => cancelled && !IsCalled(since, s) && Unpublished(since, s)
  }

  ghost predicate Fails(dir: Dir, since: seq<Event>, d: Name) {
    exists f :: Published(dir, d, Some(f)) in since
  }

  ghost predicate IsCalled(since: seq<Event>, s: Name) {
    exists i :: 0 <= i < |since| && since[i].Invoked? && since[i].service == s
  }

  ghost predicate Unpublished(since: seq<Event>, s: Name) {
    forall i :: 0 <= i < |since| && since[i].Published? ==> since[i].service != s
  }

  lemma {:induction false} CallsCount(log: seq<Event>, s: Name)
    ensures CallsOf(log, s) > 0 <==> IsCalled(log, s)
  {
    if log != [] {
      var rest, last := log[..|log| - 1], log[|log| - 1];
      CallsCount(rest, s);
      if last.Invoked? && last.service == s {
        assert log[|log| - 1].service == s;
      } else if IsCalled(rest, s) {
        var i :| 0 <= i < |rest| && rest[i].Invoked? && rest[i].service == s;
        assert log[i] == rest[i];
      }
    }
  }

  lemma PublishedIsIn(y: System, s: Name, e: Error)
    requires Reachable(y) && y.call.Some? && FailedWith(y.call.value, s, e) && y.call.value.begin <= |y.world.log|
    ensures Published(y.call.value.dir, s, Some(e)) in y.world.log[y.call.value.begin..]
  {
    var j := FailureIsLogged(y, s, e);
    InSuffix(y.world.log, y.call.value.begin, j);
  }

  /** A goroutine that leaves on cancellation has published nothing. */
  lemma LeaversAreSilent(y: System, s: Name, e: Error)
    requires Reachable(y) && y.call.Some? && s in y.call.value.pcs && y.call.value.pcs[s] == Exited(Some(e))
    requires e == GuardError(y.call.value.dir, s) || e == ContextError
    requires y.call.value.begin <= |y.world.log|
    ensures Unpublished(y.world.log[y.call.value.begin..], s)
  {
    var k, since := y.call.value, y.world.log[y.call.value.begin..];
    ReachableEnd(y, s);
    forall i | 0 <= i < |since| && since[i].Published? ensures since[i].service != s {
      ReachableEvent(y, k.begin + i);
      assert since[i] == y.world.log[k.begin + i];
    }
  }

  lemma LeavingIsExplained(y: System, s: Name, e: Error)
    requires Reachable(y) && y.call.Some? && s in y.call.value.pcs && y.call.value.pcs[s] == Exited(Some(e))
    requires e == GuardError(y.call.value.dir, s) || e == ContextError
    requires y.call.value.begin <= |y.world.log|
    ensures var w, k := y.world, y.call.value;
            Explained(w.specs, k.dir, k.wins, k.cancelled, w.log[k.begin..], s, e)
  {
    var w, k := y.world, y.call.value;
    ReachableEnd(y, s);
    ReachableCalls(y, s);
    CallsCount(w.log[k.begin..], s);
    LeaversAreSilent(y, s, e);
  }

  lemma FailureIsExplained(y: System, s: Name, e: Error)
    requires Reachable(y) && y.call.Some? && FailedWith(y.call.value, s, e) && y.call.value.begin <= |y.world.log|
    ensures var w, k := y.world, y.call.value;
            Explained(w.specs, k.dir, k.wins, k.cancelled, w.log[k.begin..], s, e)
  {
    PublishedIsIn(y, s, e);
    var d, f := Culprit(y, s, e);
    if d.Some? {
      PublishedIsIn(y, d.value, f);
    }
  }

  lemma ErrorIsExplained(y: System, s: Name, e: Error)
    requires Reachable(y) && y.call.Some? && (s, e) in y.call.value.errC
    ensures y.call.value.begin <= |y.world.log|
    ensures var w, k := y.world, y.call.value;
            Explained(w.specs, k.dir, k.wins, k.cancelled, w.log[k.begin..], s, e)
  {
    ReachableFrame(y);
    ReachableErrors(y);
    if e == GuardError(y.call.value.dir, s) || e == ContextError {
      LeavingIsExplained(y, s, e);
    } else {
      FailureIsExplained(y, s, e);
    }
  }

  /** Every error of a call, said of the action that begins it, names the parties that it is
      about and is backed by what has happened since: a dependency that has failed, for
      StopAll a dependent, all max(1, maxRetries) attempts made in vain, or a cancellation
      that was noticed before the first call of the service or after a failed one. */
  lemma ErrorsOfCall(u: System, dir: Dir, cancelled: bool, wins: set<(Name, nat)>, acts: seq<Action>, z: System,
                     s: Name, e: Error)
    requires Reachable(u) && Enabled(u, Begin(dir, cancelled, wins))
    requires End !in acts && Exec(Apply(u, Begin(dir, cancelled, wins)), acts) == Some(z)
    requires z.call.Some? && (s, e) in z.call.value.errC
    ensures |u.world.log| <= |z.world.log|
    ensures Explained(u.world.specs, dir, wins, cancelled || Cancel in acts, z.world.log[|u.world.log|..], s, e)
  {
    CallIsTheAction(u, dir, cancelled, wins, acts, z);
    ErrorIsExplained(z, s, e);
  }
}
