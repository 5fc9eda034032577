/** Everything the goroutines of a Maestro share: the bases of its services, the
    channels handed out by them, and the history of what happened to them. */
module Worlds {
  import opened Collections
  import opened Errors
  import opened Channels
  import opened Services
  import opened Graphs

  datatype Spec = Spec(deps: set<Name>, retries: nat)

  /** Who reads a channel: code outside the library, nobody (the guards of start and
      stop throw theirs away), or the goroutine of a waiting service. */
  datatype Owner = Client | Guardian | Waiter(service: Name)

  /** How a channel came about: by which method of which service, after how many events,
      and whether the service had yet to reach that goal. */
  datatype Sub = Sub(dir: Dir, service: Name, at: nat, live: bool, owner: Owner)

  /** Invoked is a call of the service's own Start or Stop, Published one of base.start
      or base.stop. */
  datatype Event =
    | Invoked(dir: Dir, service: Name, attempt: nat, deps: set<Name>)
    | Published(dir: Dir, service: Name, err: Option<Error>)

  /** A call of base.start or base.stop in the middle of reporting a failure: it holds the
      lock of its base and has sent the error to the first so many of the listed channels. */
  datatype Batch = Batch(dir: Dir, err: Error, served: nat)

  datatype World = World(
    specs: map<Name, Spec>,
    bases: map<Name, Base<nat>>,
    heap: map<nat, Chan>,
    subs: map<nat, Sub>,
    log: seq<Event>,
    busy: map<Name, Batch>)

  function DepGraph(specs: map<Name, Spec>): Graph {
    map s | s in specs :: specs[s].deps
  }

  /** What a service waits for: its dependencies to boot, its parents to shut down. */
  function Prereqs(specs: map<Name, Spec>, dir: Dir, s: Name): (ds: set<Name>)
    requires s in specs
    ensures forall d :: d in ds <==> if dir.Boot? then d in specs[s].deps else d in specs && s in specs[d].deps
  {
    if dir.Boot? then specs[s].deps else set p | p in specs && s in specs[p].deps
  }

  /** Each name but the last waits for the next one. */
  ghost predicate WaitChain(specs: map<Name, Spec>, dir: Dir, c: seq<Name>) {
    |c| > 0 && forall i :: 0 <= i < |c| - 1 ==> c[i] in specs && c[i + 1] in Prereqs(specs, dir, c[i])
  }

  lemma ChainTail(specs: map<Name, Spec>, dir: Dir, c: seq<Name>)
    requires WaitChain(specs, dir, c) && |c| > 1
    ensures WaitChain(specs, dir, c[1..])
  {
    forall i | 0 <= i < |c[1..]| - 1 ensures c[1..][i] in specs && c[1..][i + 1] in Prereqs(specs, dir, c[1..][i]) {
      assert c[1..][i] == c[i + 1];
    }
  }

  predicate Done(w: World, dir: Dir, s: Name) {
    s in w.bases && AtGoal(dir, w.bases[s])
  }

  function Running(w: World): set<Name> {
    set s | s in w.bases && w.bases[s].started
  }

  // ---------- what can happen to a world ----------

  function Register(w: World, s: Name, spec: Spec): World {
    w.(specs := w.specs[s := spec], bases := w.bases[s := Initial()])
  }

  function Attach(w: World, dir: Dir, s: Name, c: nat, owner: Owner): World
    requires s in w.bases
  {
    var goal := AtGoal(dir, w.bases[s]);
    w.(bases := w.bases[s := Subscribe(dir, w.bases[s], c)],
       heap := w.heap[c := Chan([], 0, goal)],
       subs := w.subs[c := Sub(dir, s, |w.log|, !goal, owner)])
  }

  function AllClosed(h: map<nat, Chan>, cs: seq<nat>): map<nat, Chan> {
    map c | c in h :: if c in cs then Deliver(h[c], None) else h[c]
  }

  /** base.start or base.stop takes the lock and records its result. A success also closes
      the listed channels and returns; a failure has yet to be sent to them. */
  function Announce(w: World, dir: Dir, s: Name, err: Option<Error>): World
    requires s in w.bases
  {
    w.(bases := w.bases[s := Publish(dir, w.bases[s], err)],
       heap := if err.None? then AllClosed(w.heap, Targets(dir, w.bases[s], err)) else w.heap,
       log := w.log + [Published(dir, s, err)],
       busy := if err.Some? then w.busy[s := Batch(dir, err.value, 0)] else w.busy)
  }

  /** The next send of a failing call would not block. */
  predicate CanServe(w: World, s: Name) {
    s in w.busy && s in w.bases &&
    var b, cs := w.busy[s], Listed(w.busy[s].dir, w.bases[s]);
    b.served < |cs| && cs[b.served] in w.heap && w.heap[cs[b.served]].Backlog() < CAPACITY
  }

  function Serve(w: World, s: Name): World
    requires CanServe(w, s)
  {
    var b := w.busy[s];
    var c := Listed(b.dir, w.bases[s])[b.served];
    w.(heap := w.heap[c := Deliver(w.heap[c], Some(b.err))],
       busy := w.busy[s := b.(served := b.served + 1)])
  }

  predicate AllServed(w: World, s: Name) {
    s in w.busy && s in w.bases && w.busy[s].served == |Listed(w.busy[s].dir, w.bases[s])|
  }

  function Release(w: World, s: Name): World {
    w.(busy := w.busy - {s})
  }

  function Drain(w: World, c: nat): World
    requires c in w.heap
  {
    w.(heap := w.heap[c := Take(w.heap[c])])
  }

  function Invoke(w: World, dir: Dir, s: Name, attempt: nat, deps: set<Name>): World {
    w.(log := w.log + [Invoked(dir, s, attempt, deps)])
  }

  // ---------- histories ----------

  /** What a subscriber is told: the errors, and whether the goal was then reached. */
  datatype Told = Told(errs: seq<Error>, done: bool)

  function Hear(t: Told, ev: Event, dir: Dir, s: Name): Told {
    if t.done || !ev.Published? || ev.dir != dir || ev.service != s then t
    else match ev.err
      case None => t.(done := true)
      case Some(e) => t.(errs := t.errs + [e])
  }

  /** The errors published for a goal of a service up to its first success. */
  function Tell(log: seq<Event>, dir: Dir, s: Name): Told {
    if log == [] then Told([], false)
    else Hear(Tell(log[..|log| - 1], dir, s), log[|log| - 1], dir, s)
  }

  lemma TellMore(log: seq<Event>, ev: Event, dir: Dir, s: Name)
    ensures Tell(log + [ev], dir, s) == Hear(Tell(log, dir, s), ev, dir, s)
  {
    assert (log + [ev])[..|log|] == log;
  }

  /** The failures published for a goal of a service since its last success. */
  function FailStreak(log: seq<Event>, dir: Dir, s: Name): nat {
    if log == [] then 0
    else
      var ev := log[|log| - 1];
      var before := FailStreak(log[..|log| - 1], dir, s);
      if !ev.Published? || ev.dir != dir || ev.service != s then before
      else if ev.err.None? then 0 else before + 1
  }

  lemma FailStreakMore(log: seq<Event>, ev: Event, dir: Dir, s: Name)
    ensures FailStreak(log + [ev], dir, s) ==
            if !ev.Published? || ev.dir != dir || ev.service != s then FailStreak(log, dir, s)
            else if ev.err.None? then 0 else FailStreak(log, dir, s) + 1
  {
    assert (log + [ev])[..|log|] == log;
  }

  /** A subscriber that is still waiting was told at most the failures of the streak, and
      all of them when it subscribed before the first. */
  lemma {:induction false} ToldWithinStreak(log: seq<Event>, at: nat, dir: Dir, s: Name)
    requires at <= |log| && !Tell(log[at..], dir, s).done
    ensures |Tell(log[at..], dir, s).errs| <= FailStreak(log, dir, s)
    ensures FailStreak(log[..at], dir, s) == 0 ==> |Tell(log[at..], dir, s).errs| == FailStreak(log, dir, s)
  {
    if at == |log| {
      assert log[..at] == log;
    } else {
      var rest, ev := log[..|log| - 1], log[|log| - 1];
      assert log == rest + [ev] && log[at..] == rest[at..] + [ev] && log[..at] == rest[..at];
      TellMore(rest[at..], ev, dir, s);
      FailStreakMore(rest, ev, dir, s);
      ToldWithinStreak(rest, at, dir, s);
    }
  }

  /** What was told is what the log says: the end iff a success was published, errors only
      if they were, and all of them as long as there was no success. */
  lemma {:induction false} TellIsTheLog(log: seq<Event>, dir: Dir, s: Name)
    ensures Tell(log, dir, s).done <==> Published(dir, s, None) in log
    ensures forall e :: e in Tell(log, dir, s).errs ==> Published(dir, s, Some(e)) in log
    ensures !Tell(log, dir, s).done ==>
              forall e :: Published(dir, s, Some(e)) in log ==> e in Tell(log, dir, s).errs
  {
    if log != [] {
      var rest, ev := log[..|log| - 1], log[|log| - 1];
      assert log == rest + [ev];
      TellIsTheLog(rest, dir, s);
      TellMore(rest, ev, dir, s);
    }
  }

  // ---------- what always holds of a world ----------

  predicate Shaped(w: World) {
    w.bases.Keys == w.specs.Keys && w.heap.Keys == w.subs.Keys
  }

  ghost predicate BasesOk(w: World) {
    forall s :: s in w.bases ==> Disciplined(w.bases[s])
  }

  /** The listed channels are distinct, open, and subscribed to just that goal. */
  ghost predicate ListOk(w: World, dir: Dir, s: Name) {
    s in w.bases ==>
      && Distinct(Listed(dir, w.bases[s]))
      && forall c :: c in Listed(dir, w.bases[s]) ==>
           && c in w.heap && c in w.subs && !w.heap[c].closed
           && w.subs[c].dir == dir && w.subs[c].service == s
  }

  /** The sends in progress on a base stay within its list, whose goal does not hold. */
  ghost predicate BusyOk(w: World) {
    forall s :: s in w.busy ==>
      s in w.bases && var b := w.busy[s];
      && !AtGoal(b.dir, w.bases[s])
      && b.served <= |Listed(b.dir, w.bases[s])|
      && FailStreak(w.log, b.dir, s) > 0
  }

  /** The error that is published but has not reached the channel yet. */
  function Owed(w: World, c: nat): (errs: seq<Error>)
    ensures |errs| <= 1
  {
    if c !in w.subs then [] else
    var u := w.subs[c];
    if u.service !in w.busy || u.service !in w.bases then [] else
    var b, cs := w.busy[u.service], Listed(u.dir, w.bases[u.service]);
    if b.dir == u.dir && b.served <= |cs| && c in cs[b.served..] then [b.err] else []
  }

  /** A channel carries exactly what was published since it was handed out, but for what it
      is owed; it is open only as long as it is listed, and within its capacity. */
  ghost predicate ChanOk(w: World, c: nat) {
    c in w.heap && c in w.subs &&
    var ch, u := w.heap[c], w.subs[c];
    && u.service in w.bases
    && u.at <= |w.log|
    && 0 <= ch.Backlog() <= CAPACITY
    && (u.owner == Guardian ==> ch.taken == 0)
    && (!ch.closed ==> c in Listed(u.dir, w.bases[u.service]))
    && (if u.live then Told(ch.sent + Owed(w, c), ch.closed) == Tell(w.log[u.at..], u.dir, u.service)
        else ch == Chan([], 0, true))
  }

  /** A running service has all its dependencies registered and running. */
  ghost predicate Supported(w: World) {
    forall s, d :: s in w.bases && s in w.specs && w.bases[s].started && d in w.specs[s].deps ==>
      d in w.bases && w.bases[d].started
  }

  ghost predicate RunningRanked(w: World) {
    exists r :: Ranked(DepGraph(w.specs), Running(w), r)
  }

  /** A guard's channel, read by nobody, has been listed since before the streak. */
  ghost predicate HasLeak(w: World, dir: Dir, s: Name) {
    s in w.bases && exists c :: c in Listed(dir, w.bases[s]) && Leaked(w, dir, s, c)
  }

  ghost predicate Leaked(w: World, dir: Dir, s: Name, c: nat) {
    c in w.subs && w.subs[c].owner == Guardian && w.subs[c].at <= |w.log| &&
    FailStreak(w.log[..w.subs[c].at], dir, s) == 0
  }

  ghost predicate LeaksOk(w: World) {
    forall dir, s :: s in w.bases && FailStreak(w.log, dir, s) > 0 ==> HasLeak(w, dir, s)
  }

  ghost predicate ChannelsOk(w: World) {
    && (forall dir, s :: ListOk(w, dir, s))
    && (forall c :: c in w.heap ==> ChanOk(w, c))
  }

  ghost predicate WorldOk(w: World) {
    Shaped(w) && BasesOk(w) && BusyOk(w) && ChannelsOk(w) && Supported(w) && RunningRanked(w) && LeaksOk(w)
      && LogOk(w)
  }

  /** Only registered services have a history. */
  ghost predicate LogOk(w: World) {
    forall i :: 0 <= i < |w.log| ==> w.log[i].service in w.bases
  }
}
