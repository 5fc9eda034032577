/** What holds at every moment of a running call. */
module Invariants {
  import opened Errors
  import opened Services
  import opened Graphs
  import opened Retries
  import opened Worlds
  import opened Protocol

  /** No attempt up to the n-th lets s succeed. */
  ghost predicate NoWins(k: Call, s: Name, n: nat) {
    forall i :: 1 <= i <= n ==> (s, i) !in k.wins
  }

  /** The call made its first n attempts at s, in Boot with exactly its dependencies. */
  ghost predicate Tried(w: World, k: Call, s: Name, n: nat) {
    s in w.specs && k.begin <= |w.log| &&
    forall j :: 1 <= j <= n ==> Invoked(k.dir, s, j, Passed(w.specs, k.dir, s)) in w.log[k.begin..]
  }

  /** The services handed to s.Start; s.Stop gets none. */
  function Passed(specs: map<Name, Spec>, dir: Dir, s: Name): set<Name>
    requires s in specs
  {
    if dir.Boot? then Prereqs(specs, dir, s) else {}
  }

  ghost predicate AllDone(w: World, dir: Dir, ds: set<Name>) {
    forall d :: d in ds ==> Done(w, dir, d)
  }

  /** The goroutine of d has published the failure e. */
  predicate FailedWith(k: Call, d: Name, e: Error) {
    && d in k.pcs
    && (k.pcs[d] == Serving(e) || k.pcs[d] == Returning(Some(e)) || k.pcs[d] == Exited(Some(e)))
    && Announced(k.dir, d, e)
  }

  ghost predicate Failed(k: Call, d: Name) {
    exists e :: FailedWith(k, d, e)
  }

  /** The only reasons for s to publish the failure e. */
  ghost predicate Blamed(w: World, k: Call, s: Name, e: Error) {
    s in w.specs &&
    var last := MaxTries(w.specs[s].retries);
    (|| (e == Exhaustion(k.dir, s, last) && !CanSucceed(w.specs, k.wins, s) && Tried(w, k, s, last))
     || exists d :: d in Prereqs(w.specs, k.dir, s) && e == Unavailable(k.dir, s, d) && Failed(k, d))
  }

  /** The channel c on which s waits for d is its own, untouched, and of this call. */
  ghost predicate OwnChannel(w: World, k: Call, s: Name, d: Name, c: nat) {
    && c in w.subs && c in w.heap
    && w.subs[c].dir == k.dir && w.subs[c].service == d && w.subs[c].owner == Waiter(s)
    && w.subs[c].at >= k.begin
    && w.heap[c].taken == 0
    && (!w.subs[c].live ==> Done(w, k.dir, d))
  }

  /** What holds of s when its goroutine is at the given place. */
  ghost predicate PlaceOk(w: World, k: Call, s: Name, pc: PC)
    requires s in w.specs
  {
    match pc
    case AtGuard => Done(w, k.dir, s) <==> s in k.at0
    case Gathering(got) => Awaits(w, k, s, got)
    case Calling(got, on) => Awaits(w, k, s, got) && on in Prereqs(w.specs, k.dir, s) && on !in got
    case Waiting(got, on, c) =>
      && Awaits(w, k, s, got) && on in Prereqs(w.specs, k.dir, s) && on !in got
      && OwnChannel(w, k, s, on, c)
    case Trying(n, deps) =>
      && Awaits(w, k, s, deps) && deps == Prereqs(w.specs, k.dir, s)
      && 1 <= n <= MaxTries(w.specs[s].retries) && NoWins(k, s, n - 1) && Tried(w, k, s, n - 1)
    case BackingOff(n, deps) =>
      && Awaits(w, k, s, deps) && deps == Prereqs(w.specs, k.dir, s)
      && 1 <= n < MaxTries(w.specs[s].retries) && NoWins(k, s, n) && Tried(w, k, s, n)
    case Publishing(err) =>
      && !Done(w, k.dir, s)
      && if err.None?
         then AllDone(w, k.dir, Prereqs(w.specs, k.dir, s)) && CanSucceed(w.specs, k.wins, s)
         else HasLeak(w, k.dir, s) && Announced(k.dir, s, err.value) && Blamed(w, k, s, err.value)
    case Serving(e) =>
      && s in w.busy && w.busy[s].dir == k.dir && w.busy[s].err == e
      && HasLeak(w, k.dir, s) && Announced(k.dir, s, e) && Finished(w, k, s, Some(e))
    case Returning(err) => Finished(w, k, s, err)
    case Exited(err) => Finished(w, k, s, err)
  }

  /** On the way to its first attempt, s has seen those it got reach their goal. */
  ghost predicate Awaits(w: World, k: Call, s: Name, got: set<Name>)
    requires s in w.specs
  {
    && !Done(w, k.dir, s) && HasLeak(w, k.dir, s)
    && got <= Prereqs(w.specs, k.dir, s) && AllDone(w, k.dir, got)
  }

  ghost predicate PcOk(w: World, k: Call, s: Name) {
    && s in k.pcs && s in w.specs
    && (s in w.busy <==> k.pcs[s].Serving?)
    && PlaceOk(w, k, s, k.pcs[s])
  }

  ghost predicate Finished(w: World, k: Call, s: Name, err: Option<Error>) {
    match err
    case None => Done(w, k.dir, s)
    case Some(e) =>
      if e == GuardError(k.dir, s) then k.cancelled && (Done(w, k.dir, s) <==> s in k.at0)
      else if e == ContextError then k.cancelled && !Done(w, k.dir, s)
      else
        && !Done(w, k.dir, s) && Blamed(w, k, s, e)
        && exists i :: k.begin <= i < |w.log| && w.log[i] == Published(k.dir, s, Some(e))
  }

  /** Everything s waits for was at its goal before the i-th event. */
  ghost predicate Preceded(w: World, k: Call, s: Name, i: nat) {
    s in w.specs && k.begin <= i <= |w.log| &&
    forall d :: d in Prereqs(w.specs, k.dir, s) ==>
      d in k.at0 || Published(k.dir, d, None) in w.log[k.begin..i]
  }

  /** An event at place i of the log is one that the call may cause. */
  ghost predicate Caused(w: World, k: Call, i: nat, ev: Event) {
    match ev
    case Invoked(_, s, n, deps) =>
      && s !in k.at0 && Preceded(w, k, s, i)
      && 1 <= n <= MaxTries(w.specs[s].retries)
      && deps == Passed(w.specs, k.dir, s)
    case Published(_, s, err) =>
      if err.None? then s !in k.at0 && Preceded(w, k, s, i) && Done(w, k.dir, s) else FailedWith(k, s, err.value)
  }

  ghost predicate EventOk(w: World, k: Call, i: nat) {
    k.begin <= i < |w.log| && w.log[i].dir == k.dir && Caused(w, k, i, w.log[i])
  }

  /** A goal reached within the call was published, exactly once, and deserved. */
  ghost predicate Earned(w: World, k: Call, s: Name) {
    && k.begin <= |w.log|
    && CanSucceed(w.specs, k.wins, s) && AllDone(w, k.dir, Prereqs(w.specs, k.dir, s))
    && Published(k.dir, s, None) in w.log[k.begin..]
  }

  ghost predicate OrderOk(w: World, k: Call) {
    && (forall i :: k.begin <= i < |w.log| ==> EventOk(w, k, i))
    && (forall i, j :: k.begin <= i < j < |w.log| && w.log[i].Published? ==> w.log[j] != w.log[i])
    && (forall s :: s in w.specs && Done(w, k.dir, s) && s !in k.at0 ==> Earned(w, k, s))
  }

  ghost predicate ErrOk(k: Call) {
    && (forall i :: 0 <= i < |k.errC| ==>
          k.errC[i].0 in k.pcs && k.pcs[k.errC[i].0] == Exited(Some(k.errC[i].1)))
    && (forall i, j :: 0 <= i < j < |k.errC| ==> k.errC[i].0 != k.errC[j].0)
    && (forall s, e :: s in k.pcs && k.pcs[s] == Exited(Some(e)) ==> (s, e) in k.errC)
  }

  /** A rank of the services that were not yet at their goal: each above those it waits for. */
  ghost predicate PendingRank(specs: map<Name, Spec>, dir: Dir, at0: set<Name>, r: map<Name, nat>) {
    forall s, d :: s in specs && s !in at0 && d in Prereqs(specs, dir, s) && d !in at0 ==>
      d in specs && s in r && d in r && r[d] < r[s]
  }

  ghost predicate FrameOk(w: World, k: Call) {
    && k.pcs.Keys == w.specs.Keys
    && k.begin <= |w.log|
    && k.at0 <= w.specs.Keys
    && AllDone(w, k.dir, k.at0)
    && (k.dir.Boot? ==> Closed(DepGraph(w.specs)) && !HasCycle(DepGraph(w.specs)))
    && exists r :: PendingRank(w.specs, k.dir, k.at0, r)
  }

  ghost predicate CallOk(w: World, k: Call) {
    && FrameOk(w, k)
    && (forall s :: s in k.pcs ==> PcOk(w, k, s))
    && OrderOk(w, k)
    && ErrOk(k)
  }

  ghost predicate SystemOk(y: System) {
    WorldOk(y.world) && if y.call.Some? then CallOk(y.world, y.call.value) else y.world.busy == map[]
  }
}
