/** A call runs out of moves: whatever order its goroutines move in, they can move only so
    often, because clients alone can give them more to do. */
module Termination {
  import opened Collections
  import opened Errors
  import opened Services
  import opened Retries
  import opened Worlds
  import opened Protocol
  import opened Invariants
  import opened Reachability
  import opened Outcomes
  import opened Runs
  import opened Progress
  import opened Lifetime

  /** How many steps a goroutine can still take, not counting its sends. */
  function Weight(specs: map<Name, Spec>, dir: Dir, s: Name, pc: PC): int
    requires s in specs
  {
    var p, m := |Prereqs(specs, dir, s)|, MaxTries(specs[s].retries);
    match pc
    case AtGuard => 3 * p + 2 * m + 6
    case Gathering(got) => 3 * (p - |got|) + 2 * m + 5
    case Calling(got, _) => 3 * (p - |got|) + 2 * m + 4
    case Waiting(got, _, _) => 3 * (p - |got|) + 2 * m + 3
    case Trying(n, _) => 2 * (m - n) + 5
    case BackingOff(n, _) => 2 * (m - n) + 4
    case Publishing(_) => 3
    case Serving(_) => 2
    case Returning(_) => 1
    case Exited(_) => 0
  }

  /** How many subscribers s may yet have to send a failure to. */
  function Sendings(w: World, k: Call, s: Name): int
    requires s in k.pcs && s in w.bases && (k.pcs[s].Serving? ==> s in w.busy)
  {
    var n := |Listed(k.dir, w.bases[s])|;
    match k.pcs[s]
    case Serving(_) => n - w.busy[s].served
    case Returning(_) => 0
    case Exited(_) => 0
    case _ => n
  }

  /** What is left to do for s. Every step but a send counts twice, because it may add a
      subscriber somewhere. */
  function Load(w: World, k: Call, s: Name): int {
    if s in k.pcs && s in w.specs && s in w.bases && (k.pcs[s].Serving? ==> s in w.busy)
    then 2 * Weight(w.specs, k.dir, s, k.pcs[s]) + Sendings(w, k, s)
    else 0
  }

  function Sum(w: World, k: Call, names: seq<Name>): int {
    if names == [] then 0 else Load(w, k, names[0]) + Sum(w, k, names[1..])
  }

  /** The members of a set in some fixed order. */
  ghost function Names(s: set<Name>): (names: seq<Name>)
    ensures Enumerates(names, s)
  {
    if s == {} then [] else
    var x :| x in s;
    [x] + Names(s - {x})
  }

  /** What is left to do for all goroutines. */
  ghost function Total(y: System): int
    requires y.call.Some?
  {
    Sum(y.world, y.call.value, Names(y.call.value.pcs.Keys))
  }

  // ---------- one move ----------

  lemma OneMore(got: set<Name>, on: Name, pres: set<Name>)
    requires got <= pres && on in pres && on !in got
    ensures |got + {on}| == |got| + 1 <= |pres|
  {
    SubsetCounts(got + {on}, pres);
  }

  /** The counters of a goroutine are within their bounds. */
  predicate Bounded(specs: map<Name, Spec>, dir: Dir, s: Name, pc: PC)
    requires s in specs
  {
    var pres := Prereqs(specs, dir, s);
    match pc
    case Gathering(got) => got <= pres
    case Calling(got, on) => got <= pres && on in pres && on !in got
    case Waiting(got, on, _) => got <= pres && on in pres && on !in got
    case Trying(n, _) => n <= MaxTries(specs[s].retries)
    case BackingOff(n, _) => n < MaxTries(specs[s].retries)
    case _ => true
  }

  lemma PcBounded(w: World, k: Call, s: Name)
    requires PcOk(w, k, s)
    ensures Bounded(w.specs, k.dir, s, k.pcs[s])
  {
  }

  lemma EarlyWeightFalls(w: World, k: Call, s: Name, m: Move)
    requires CanMove(w, k, s, m) && Bounded(w.specs, k.dir, s, k.pcs[s])
    requires k.pcs[s].AtGuard? || k.pcs[s].Gathering? || k.pcs[s].Calling? || k.pcs[s].Waiting?
    ensures Weight(w.specs, k.dir, s, PcAfter(w, k, s, m)) < Weight(w.specs, k.dir, s, k.pcs[s])
  {
    match k.pcs[s]
    case Waiting(got, on, _) => OneMore(got, on, Prereqs(w.specs, k.dir, s));
    case Calling(got, on) => OneMore(got, on, Prereqs(w.specs, k.dir, s));
    case Gathering(got) =>
      if m.Choose? {
        OneMore(got, m.on, Prereqs(w.specs, k.dir, s));
      }
    case _ =>
  }

  lemma WeightFalls(w: World, k: Call, s: Name, m: Move)
    requires CanMove(w, k, s, m) && Bounded(w.specs, k.dir, s, k.pcs[s])
    ensures Weight(w.specs, k.dir, s, PcAfter(w, k, s, m)) + (if m.Serve? then 0 else 1)
              <= Weight(w.specs, k.dir, s, k.pcs[s])
  {
    if k.pcs[s].AtGuard? || k.pcs[s].Gathering? || k.pcs[s].Calling? || k.pcs[s].Waiting? {
      EarlyWeightFalls(w, k, s, m);
    }
  }

  lemma LoadIsNat(w: World, k: Call, s: Name)
    requires BusyOk(w) && (s in k.pcs ==> PcOk(w, k, s))
    ensures Load(w, k, s) >= 0
  {
    if s in k.pcs {
      PcBounded(w, k, s);
      match k.pcs[s]
      case Waiting(got, _, _) => SubsetCounts(got, Prereqs(w.specs, k.dir, s));
      case Calling(got, _) => SubsetCounts(got, Prereqs(w.specs, k.dir, s));
      case Gathering(got) => SubsetCounts(got, Prereqs(w.specs, k.dir, s));
      case _ =>
    }
  }

  /** The base that gets a subscriber by a move, if one does. */
  function Subscribed(k: Call, s: Name, m: Move): Option<Name>
    requires s in k.pcs
  {
    match (k.pcs[s], m)
    case (AtGuard, Guard(_, _)) => Some(s)
    case (Calling(_, on), Subscribe(_)) => Some(on)
    case _ => None
  }

  function One(b: bool): int {
    if b then 1 else 0
  }

  lemma SendingsMove(w: World, k: Call, s: Name, m: Move)
    requires BusyOk(w) && PcOk(w, k, s) && CanMove(w, k, s, m)
    ensures var w', k' := WorldAfter(w, k, s, m), CallAfter(w, k, s, m);
            && (k'.pcs[s].Serving? ==> s in w'.busy)
            && Sendings(w', k', s) <= Sendings(w, k, s) - One(m.Serve?) + One(Subscribed(k, s, m) == Some(s))
  {
  }

  /** A move takes two from what its goroutine has left to do, or one when it sends, and may
      add one to what the goroutine of one base has to do. */
  lemma MoverLoad(w: World, k: Call, s: Name, m: Move)
    requires BusyOk(w) && PcOk(w, k, s) && CanMove(w, k, s, m)
    ensures Load(WorldAfter(w, k, s, m), CallAfter(w, k, s, m), s)
              <= Load(w, k, s) - (if m.Serve? then 1 else 2) + One(Subscribed(k, s, m) == Some(s))
  {
    PcBounded(w, k, s);
    WeightFalls(w, k, s, m);
    SendingsMove(w, k, s, m);
  }

  lemma OtherLoad(w: World, k: Call, s: Name, m: Move, t: Name)
    requires PcOk(w, k, s) && CanMove(w, k, s, m) && t != s
    ensures Load(WorldAfter(w, k, s, m), CallAfter(w, k, s, m), t)
              <= Load(w, k, t) + One(Subscribed(k, s, m) == Some(t))
  {
  }

  lemma AnyLoad(w: World, k: Call, s: Name, m: Move, t: Name)
    requires BusyOk(w) && PcOk(w, k, s) && CanMove(w, k, s, m)
    ensures Load(WorldAfter(w, k, s, m), CallAfter(w, k, s, m), t) <=
            Load(w, k, t) - (if Some(s) == Some(t) then if m.Serve? then 1 else 2 else 0)
              + One(Subscribed(k, s, m) == Some(t))
  {
    if t == s {
      MoverLoad(w, k, s, m);
    } else {
      OtherLoad(w, k, s, m, t);
    }
  }

  // ---------- the sum ----------

  /** Adding up loads of which one falls and one rises. */
  lemma {:induction false} SumChanges(w: World, k: Call, w': World, k': Call, names: seq<Name>,
                                      down: Option<Name>, fall: nat, up: Option<Name>)
    requires Distinct(names)
    requires forall t :: t in names ==>
               Load(w', k', t) <= Load(w, k, t) - (if down == Some(t) then fall else 0) + One(up == Some(t))
    ensures Sum(w', k', names) <= Sum(w, k, names)
              - (if down.Some? && down.value in names then fall else 0) + One(up.Some? && up.value in names)
  {
    if names != [] {
      assert names[0] in names && names[0] !in names[1..];
      assert forall t :: t in names <==> t == names[0] || t in names[1..];
      SumChanges(w, k, w', k', names[1..], down, fall, up);
    }
  }

  lemma {:induction false} SumIsNat(w: World, k: Call, names: seq<Name>)
    requires forall t :: t in names ==> Load(w, k, t) >= 0
    ensures Sum(w, k, names) >= 0
  {
    if names != [] {
      assert names[0] in names;
      SumIsNat(w, k, names[1..]);
    }
  }

  lemma TotalIsNat(y: System)
    requires Reachable(y) && y.call.Some?
    ensures Total(y) >= 0
  {
    var names := Names(y.call.value.pcs.Keys);
    forall t | t in names ensures Load(y.world, y.call.value, t) >= 0 {
      ReachableBusy(y);
      ReachablePc(y, t);
      LoadIsNat(y.world, y.call.value, t);
    }
    SumIsNat(y.world, y.call.value, names);
  }

  lemma MoveTotal(y: System, s: Name, m: Move)
    requires Reachable(y) && Enabled(y, Go(s, m))
    ensures Total(Apply(y, Go(s, m))) < Total(y)
  {
    var w, k, z := y.world, y.call.value, Apply(y, Go(s, m));
    var up, fall, names := Subscribed(k, s, m), if m.Serve? then 1 else 2, Names(k.pcs.Keys);
    assert z.call.value.pcs.Keys == k.pcs.Keys && s in names;
    forall t | t in names
      ensures Load(z.world, z.call.value, t) <=
              Load(w, k, t) - (if Some(s) == Some(t) then fall else 0) + One(up == Some(t))
    {
      ReachableBusy(y);
      ReachablePc(y, s);
      AnyLoad(w, k, s, m, t);
    }
    SumChanges(w, k, z.world, z.call.value, names, Some(s), fall, up);
  }

  /** Whatever else happens gives the goroutines nothing to do, but for a client's subscription. */
  lemma OtherTotal(y: System, a: Action)
    requires Reachable(y) && Enabled(y, a) && y.call.Some? && !a.Go? && a != End
    ensures Apply(y, a).call.Some?
    ensures Total(Apply(y, a)) <= Total(y) + One(a.ClientSubscribe?)
  {
    var z := Apply(y, a);
    var names := Names(y.call.value.pcs.Keys);
    var up := if a.ClientSubscribe? then Some(a.service) else None;
    forall t | t in names
      ensures Load(z.world, z.call.value, t) <= Load(y.world, y.call.value, t) + One(up == Some(t))
    {
      ReachableShape(y);
    }
    SumChanges(y.world, y.call.value, z.world, z.call.value, names, None, 0, up);
  }

  // ---------- whole runs ----------

  /** The moves of goroutines in a sequence of actions, and the subscriptions of clients. */
  function MovesIn(acts: seq<Action>): nat {
    if acts == [] then 0 else MovesIn(acts[..|acts| - 1]) + One(acts[|acts| - 1].Go?)
  }

  function ClientsIn(acts: seq<Action>): nat {
    if acts == [] then 0 else ClientsIn(acts[..|acts| - 1]) + One(acts[|acts| - 1].ClientSubscribe?)
  }

  lemma {:induction false} MovesAreWeighed(y: System, acts: seq<Action>, z: System)
    requires Reachable(y) && y.call.Some? && End !in acts && Exec(y, acts) == Some(z)
    ensures z.call.Some? && MovesIn(acts) + Total(z) <= Total(y) + ClientsIn(acts)
  {
    if acts != [] {
      var n := |acts| - 1;
      var before, a := Exec(y, acts[..n]).value, acts[n];
      assert acts == acts[..n] + [a];
      MovesAreWeighed(y, acts[..n], before);
      ReachableLater(y, acts[..n], before);
      if a.Go? {
        MoveTotal(before, a.service, a.move);
      } else {
        OtherTotal(before, a);
      }
    }
  }

  /** From any state of a call the goroutines make no more than Total moves, plus one for
      each subscription that clients make meanwhile. */
  lemma MovesAreBounded(y: System, acts: seq<Action>, z: System)
    requires Reachable(y) && y.call.Some? && End !in acts && Exec(y, acts) == Some(z)
    ensures MovesIn(acts) <= Total(y) + ClientsIn(acts)
  {
    MovesAreWeighed(y, acts, z);
    ReachableLater(y, acts, z);
    TotalIsNat(z);
  }

  lemma MoveFirst(y: System, s: Name, m: Move, frozen: Option<Name>, rest: seq<Action>, z: System)
    requires Enabled(y, Go(s, m)) && frozen != Some(s)
    requires Exec(Apply(y, Go(s, m)), rest) == Some(z) && OnlyMoves(rest, frozen)
    ensures Exec(y, [Go(s, m)] + rest) == Some(z) && OnlyMoves([Go(s, m)] + rest, frozen)
  {
    ExecOne(y, Go(s, m));
    ExecTwice(y, [Go(s, m)], rest);
  }

  /** So some run of moves leads to a state in which nobody can move any more, or nobody but
      a goroutine that is held back. */
  lemma {:induction false} RunOut(y: System, frozen: Option<Name>) returns (acts: seq<Action>, z: System)
    requires Reachable(y) && y.call.Some?
    ensures Exec(y, acts) == Some(z) && OnlyMoves(acts, frozen) && NobodyMoves(z, frozen) && Reachable(z)
    decreases Total(y)
  {
    if s, m :| Enabled(y, Go(s, m)) && frozen != Some(s) {
      var y' := Apply(y, Go(s, m));
      ReachableNext(y, Go(s, m));
      MoveTotal(y, s, m);
      TotalIsNat(y);
      TotalIsNat(y');
      var rest;
      rest, z := RunOut(y', frozen);
      MoveFirst(y, s, m, frozen, rest, z);
      acts := [Go(s, m)] + rest;
    } else {
      acts, z := [], y;
    }
  }

  /** The moves of goroutines alone always end, within that bound. */
  lemma RunsEnd(y: System)
    requires Reachable(y) && y.call.Some?
    ensures exists acts :: OnlyMoves(acts, None) && Exec(y, acts).Some? && NoMoves(Exec(y, acts).value)
    ensures forall acts :: OnlyMoves(acts, None) && Exec(y, acts).Some? ==> |acts| <= Total(y)
  {
    var acts, z := RunOut(y, None);
    assert NoMoves(Exec(y, acts).value);
    forall acts | OnlyMoves(acts, None) && Exec(y, acts).Some? ensures |acts| <= Total(y) {
      MovesAreAll(acts);
      assert End !in acts;
      MovesAreBounded(y, acts, Exec(y, acts).value);
    }
  }

  lemma {:induction false} MovesAreAll(acts: seq<Action>)
    requires OnlyMoves(acts, None)
    ensures MovesIn(acts) == |acts| && ClientsIn(acts) == 0
  {
    if acts != [] {
      MovesAreAll(acts[..|acts| - 1]);
    }
  }
}
