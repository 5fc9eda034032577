/** The registry: registration, the two graph checks, and the sequential prelude of
    StartAll that runs them. Every range over a map goes through Collections.Range. */
module Maestros {
  import opened Collections
  import opened Errors
  import opened Channels
  import opened Services
  import opened Graphs
  import Worlds

  /** What StartAll does before any goroutine exists: launch them, return the errors
      found, or hang on its own full error channel. */
  datatype Verdict = Launch | Rejected | Hang

  ghost function MissingErrors(edges: seq<(Name, Name)>): seq<Error> {
    seq(|edges|, i requires 0 <= i < |edges| => DependencyMissing(edges[i].0, edges[i].1))
  }

  /** The errors sent so far are those of the given edges, each sent once. */
  ghost predicate Reported(buf: seq<Error>, before: seq<Error>, edges: seq<(Name, Name)>) {
    buf == before + MissingErrors(edges) && Distinct(edges)
  }

  lemma ReportOne(buf: seq<Error>, before: seq<Error>, edges: seq<(Name, Name)>, s: Name, d: Name)
    requires Reported(buf, before, edges) && (s, d) !in edges
    ensures Reported(buf + [DependencyMissing(s, d)], before, edges + [(s, d)])
  {
    assert MissingErrors(edges + [(s, d)]) == MissingErrors(edges) + [DependencyMissing(s, d)];
  }

  /** The edges of the earlier ones and those from s to the unregistered names among ds. */
  ghost predicate Covers(edges: seq<(Name, Name)>, earlier: seq<(Name, Name)>, g: Graph, s: Name, ds: seq<Name>) {
    forall e :: e in edges <==> e in earlier || (e.0 == s && e.1 in ds && e.1 !in g)
  }

  lemma CoversMore(edges: seq<(Name, Name)>, earlier: seq<(Name, Name)>, g: Graph, s: Name, ds: seq<Name>, d: Name)
    requires Covers(edges, earlier, g, s, ds)
    ensures Covers(if d in g then edges else edges + [(s, d)], earlier, g, s, ds + [d])
  {
  }

  /** w follows the given beginning along edges until its last node repeats one of the
      earlier ones, which are all different. */
  ghost predicate Loops(g: Graph, beginning: seq<Name>, w: seq<Name>) {
    && beginning <= w
    && Walk(g, w)
    && Distinct(w[..|w| - 1])
    && w[|w| - 1] in w[..|w| - 1]
  }

  /** Exactly one error was sent, and it describes a genuine walk into a circle. */
  ghost predicate CircleReported(buf: seq<Error>, before: seq<Error>, g: Graph, beginning: seq<Name>) {
    exists w :: Loops(g, beginning, w) && buf == before + [DependencyCircular(w[0], w)]
  }

  lemma CircleReportedEarlier(buf: seq<Error>, before: seq<Error>, g: Graph, here: seq<Name>, d: Name)
    requires CircleReported(buf, before, g, here + [d])
    ensures CircleReported(buf, before, g, here)
  {
    var w :| Loops(g, here + [d], w) && buf == before + [DependencyCircular(w[0], w)];
    assert Loops(g, here, w);
  }

  /** No walk that continues the given beginning repeats a node. */
  ghost predicate NeverLoops(g: Graph, beginning: seq<Name>) {
    forall w :: Walk(g, w) && beginning <= w ==> Distinct(w)
  }

  lemma CircleMeansCycle(buf: seq<Error>, before: seq<Error>, g: Graph, beginning: seq<Name>)
    requires CircleReported(buf, before, g, beginning)
    ensures HasCycle(g)
  {
    var w :| Loops(g, beginning, w) && buf == before + [DependencyCircular(w[0], w)];
    AcyclicMeansDistinctWalks(g);
    assert Walk(g, w) && !Distinct(w);
  }

  lemma NeverLoopsMeansAcyclic(g: Graph, order: seq<Name>)
    requires Enumerates(order, g.Keys)
    requires forall j :: 0 <= j < |order| ==> NeverLoops(g, [order[j]])
    ensures !HasCycle(g)
  {
    forall w | Walk(g, w) ensures Distinct(w) {
      var j :| 0 <= j < |order| && order[j] == w[0];
      assert [order[j]] <= w;
    }
    AcyclicMeansDistinctWalks(g);
  }

  /** met numbers the nodes of path by their positions. */
  ghost predicate Numbers(met: map<Name, nat>, path: seq<Name>) {
    && (forall n :: n in met ==> met[n] < |path| && path[met[n]] == n)
    && (forall i :: 0 <= i < |path| ==> path[i] in met && met[path[i]] == i)
  }

  lemma NumberedPath(met: map<Name, nat>, path: seq<Name>)
    requires Numbers(met, path)
    ensures Distinct(path) && |met| == |path|
  {
    DistinctCounts(path, met.Keys);
  }

  /** Numbering one more node, which the walk has not met before. */
  lemma NumberNext(g: Graph, met: map<Name, nat>, path: seq<Name>, cur: Name)
    requires Numbers(met, path) && cur !in met && Walk(g, path + [cur])
    ensures Numbers(met[cur := |path|], path + [cur]) && Distinct(path + [cur])
    ensures |met| < |met[cur := |path|]| <= |g|
  {
    var here := path + [cur];
    NumberedPath(met, path);
    NumberedPath(met[cur := |path|], here);
    DistinctIsShort(here, g.Keys);
    assert |g.Keys| == |g|;
  }

  /** A path can be continued only along the edges of its last node. */
  lemma Continuations(g: Graph, here: seq<Name>, order: seq<Name>)
    requires Walk(g, here) && Distinct(here) && Enumerates(order, g[here[|here| - 1]])
    requires forall j :: 0 <= j < |order| ==> NeverLoops(g, here + [order[j]])
    ensures NeverLoops(g, here)
  {
    forall w | Walk(g, w) && here <= w ensures Distinct(w) {
      if w != here {
        var d := w[|here|];
        assert w[|here| - 1] == here[|here| - 1];
        var j :| 0 <= j < |order| && order[j] == d;
        assert here + [order[j]] <= w;
      }
    }
  }

  /** What the select of ServiceReady sees: the context's end, or a value from the channel,
      where None is nil. */
  datatype Wake = ContextEnds | Hears(err: Option<Error>)

  /** ServiceReady returns the service or nil, or has not returned yet. */
  datatype Ready = Here(s: ServiceBase) | Nobody | StillWaiting

  predicate OnlyErrors(wakes: seq<Wake>) {
    forall w :: w in wakes ==> w.Hears? && w.err.Some?
  }

  /** The i-th thing seen is the first that is not an error. */
  predicate EndsAt(wakes: seq<Wake>, i: nat) {
    i < |wakes| && OnlyErrors(wakes[..i]) && !(wakes[i].Hears? && wakes[i].err.Some?)
  }

  /** What StartAll makes of a graph of n services, and the errors it reports: it goes on
      iff nothing is missing or circular, and hangs iff the missing edges outnumber n. */
  ghost predicate Judged(verdict: Verdict, g: Graph, n: nat, errs: seq<Error>) {
    && (verdict.Hang? <==> |MissingEdges(g)| > n)
    && (verdict.Launch? <==> Closed(g) && !HasCycle(g))
    && (verdict.Launch? <==> errs == [])
    && (verdict.Rejected? && !Closed(g) ==>
          forall e :: e in errs <==>
            e.DependencyMissing? && e.service in g && e.dependency in g[e.service] && e.dependency !in g)
    && (verdict.Rejected? && !Closed(g) ==> Distinct(errs))
    && (verdict.Rejected? && Closed(g) ==>
          |errs| == 1 && errs[0].DependencyCircular? && LeadsIntoCircle(g, errs[0].service, errs[0].path))
  }

  /** The path begins at s, follows dependency edges, and ends at a name that it has met, the
      only one to occur twice. */
  ghost predicate LeadsIntoCircle(g: Graph, s: Name, path: seq<Name>) {
    && |path| >= 2 && path[0] == s
    && (forall i :: 0 <= i < |path| ==> path[i] in g)
    && (forall i :: 0 <= i < |path| - 1 ==> path[i + 1] in g[path[i]])
    && (forall i, j :: 0 <= i < j < |path| - 1 ==> path[i] != path[j])
    && exists i :: 0 <= i < |path| - 1 && path[i] == path[|path| - 1]
  }

  lemma MissingAreReported(g: Graph, edges: seq<(Name, Name)>)
    requires Enumerates(edges, MissingEdges(g))
    ensures Distinct(MissingErrors(edges))
    ensures forall e :: e in MissingErrors(edges) <==>
              e.DependencyMissing? && e.service in g && e.dependency in g[e.service] && e.dependency !in g
  {
    var errs := MissingErrors(edges);
    forall e: Error | e.DependencyMissing? && e.service in g && e.dependency in g[e.service] && e.dependency !in g
      ensures e in errs
    {
      assert (e.service, e.dependency) in MissingEdges(g);
      var i :| 0 <= i < |edges| && edges[i] == (e.service, e.dependency);
      assert errs[i] == e;
    }
    forall e | e in errs
      ensures e.DependencyMissing? && e.service in g && e.dependency in g[e.service] && e.dependency !in g
    {
      var i :| 0 <= i < |edges| && errs[i] == e;
      assert edges[i] in MissingEdges(g);
    }
  }

  lemma CircleIsReported(errs: seq<Error>, g: Graph, s: Name)
    requires CircleReported(errs, [], g, [s])
    ensures |errs| == 1 && errs[0].DependencyCircular? && LeadsIntoCircle(g, errs[0].service, errs[0].path)
  {
    var w :| Loops(g, [s], w) && errs == [] + [DependencyCircular(w[0], w)];
    var rest := w[..|w| - 1];
    forall i, j | 0 <= i < j < |w| - 1 ensures w[i] != w[j] {
      assert rest[i] != rest[j];
    }
    var i :| 0 <= i < |rest| && rest[i] == w[|w| - 1];
  }

  class Maestro {
    var services: map<Name, ServiceBase>

    ghost predicate Valid()
      reads this, services.Values
    {
      forall n :: n in services ==> services[n].name == n
    }

    ghost function Graph(): (g: Graph)
      reads this, services.Values
      ensures g.Keys == services.Keys
    {
      map n | n in services :: services[n].directDeps
    }

    /** What the protocol knows of the registered services. */
    ghost function Specs(): (specs: map<Name, Worlds.Spec>)
      reads this, services.Values
      ensures Worlds.DepGraph(specs) == Graph()
    {
      map n | n in services :: Worlds.Spec(services[n].directDeps, services[n].retries)
    }

    /** The registry is consistent and g is its dependency graph. */
    ghost predicate Shows(g: Graph)
      reads this, services.Values
    {
      Valid() && g == Graph()
    }

    constructor ()
      ensures Valid() && services == map[]
    {
      services := map[];
    }

    /** What registration does to the service object. */
    static method Configure(name: Name, req: bool, maxRetries: nat, initialBackoff: int, s: ServiceBase,
                            deps: seq<Name>)
      returns (panic: Option<Error>)
      modifies s`name, s`required, s`retries, s`initialBackoff, s`directDeps
      ensures s.name == name && s.required == req && s.retries == maxRetries && s.initialBackoff == initialBackoff
      ensures panic.None? <==>
              && name !in deps && (forall d :: d in deps ==> d !in old(s.directDeps))
              && (forall i, j :: 0 <= i < j < |deps| ==> deps[i] != deps[j])
      ensures panic.None? ==> s.directDeps == old(s.directDeps) + set d | d in deps
      ensures panic.Some? ==>
                exists k :: 0 <= k < |deps| && Addable(name, old(s.directDeps), deps, k)
                  && s.directDeps == old(s.directDeps) + (set d | d in deps[..k])
                  && (if deps[k] == name then panic.value == DependsOnItself(name)
                      else (deps[k] in old(s.directDeps) || deps[k] in deps[..k])
                           && panic.value == DuplicateDependency(name, deps[k]))
    {
      s.name := name;
      s.required := req;
      s.retries, s.initialBackoff := maxRetries, initialBackoff;
      panic := s.AddDependency(deps);
    }

    /** Panics leave the registry alone, but one over a dependency leaves its traces on the
        service object. If that object is registered already, under another name, it gets
        the new name, and its new dependencies count for the old name too. */
    method AddServiceWithBackoff(name: Name, req: bool, maxRetries: nat, initialBackoff: int,
                                 s: ServiceBase, deps: seq<Name>)
      returns (panic: Option<Error>)
      modifies `services, s`name, s`required, s`retries, s`initialBackoff, s`directDeps
      ensures old(Valid()) ==> (Valid() <==> name in old(services) || s !in old(services.Values))
      ensures name in old(services) ==> panic == Some(AlreadyExists(name)) && unchanged(s)
      ensures panic.None? <==>
              && name !in old(services)
              && name !in deps && (forall d :: d in deps ==> d !in old(s.directDeps))
              && (forall i, j :: 0 <= i < j < |deps| ==> deps[i] != deps[j])
      ensures name !in old(services) && panic.Some? ==>
                exists k :: 0 <= k < |deps| && Addable(name, old(s.directDeps), deps, k)
                  && s.directDeps == old(s.directDeps) + (set d | d in deps[..k])
                  && (if deps[k] == name then panic.value == DependsOnItself(name)
                      else (deps[k] in old(s.directDeps) || deps[k] in deps[..k])
                           && panic.value == DuplicateDependency(name, deps[k]))
      ensures name !in old(services) ==>
                && s.name == name && s.required == req
                && s.retries == maxRetries && s.initialBackoff == initialBackoff
      ensures services == if panic.None? then old(services)[name := s] else old(services)
      ensures panic.None? ==> s.directDeps == old(s.directDeps) + set d | d in deps
      ensures panic.None? ==> Specs()[name] == Worlds.Spec(old(s.directDeps) + (set d | d in deps), maxRetries)
      ensures forall n :: n in old(services) ==>
                Graph()[n] == if old(services)[n] == s then s.directDeps else old(Graph())[n]
    {
      if name in services {
        return Some(AlreadyExists(name));
      }
      assert forall n :: n in services ==> services[n] in services.Values;
      ghost var alias :| s in services.Values ==> alias in services && services[alias] == s;
      panic := Configure(name, req, maxRetries, initialBackoff, s, deps);
      assert s in services.Values ==> services[alias].name != alias;
      if panic.Some? {
        return;
      }
      services := services[name := s];
      assert s in old(services.Values) ==> services[alias].name != alias;
    }

    /** Subscribes to the service and waits for nil or for the end of the context, whichever
        the select takes first; errors do not count. wakes is all that the select sees, so
        a call that has seen nothing but errors still waits. */
    method ServiceReady(name: Name, wakes: seq<Wake>) returns (r: Ready, ghost c: Channel?)
      requires Valid() && (name in services ==> services[name].Valid())
      modifies (if name in services then {services[name]} else {})`startedCs
      ensures name !in services ==> r == Nobody
      ensures name in services ==>
                && services[name].Valid() && c != null && fresh(c)
                && services[name].View() == Subscribe(Boot, old(services[name].View()), c)
                && services[name].startedCs ==
                   old(services[name].startedCs) + (if services[name].started then [] else [c])
      ensures name in services ==>
                match r
                case Here(s) => s == services[name] && exists i: nat :: EndsAt(wakes, i) && wakes[i] == Hears(None)
                case Nobody => exists i: nat :: EndsAt(wakes, i) && wakes[i] == ContextEnds
                case StillWaiting => OnlyErrors(wakes)
    {
      if name !in services {
        return Nobody, null;
      }
      var s := services[name];
      var startedC := s.Started();
      for i := 0 to |wakes|
        invariant OnlyErrors(wakes[..i])
      {
        match wakes[i]
        case ContextEnds =>
          assert EndsAt(wakes, i);
          return Nobody, startedC;
        case Hears(err) =>
          if err.None? {
            assert EndsAt(wakes, i);
            return Here(s), startedC;
          }
      }
      assert wakes[..|wakes|] == wakes;
      return StillWaiting, startedC;
    }

    /** The inner loop of hasMissingDeps, over the dependencies of one service. */
    method MissingDepsOf(s: Name, errC: Channel, ghost g: Graph, ghost before: seq<Error>,
                         ghost edges0: seq<(Name, Name)>)
      returns (failure: bool, hang: bool, ghost edges: seq<(Name, Name)>)
      requires s in services && Shows(g)
      requires errC.Valid() && !errC.closed && Reported(errC.buf, before, edges0)
      requires forall d :: (s, d) !in edges0
      modifies errC
      ensures errC.Valid() && !errC.closed && Reported(errC.buf, before, edges)
      ensures forall e :: e in edges ==> e in edges0 || (e.0 == s && e.1 in g[s] && e.1 !in g)
      ensures !hang ==> forall e :: e in edges0 || (e.0 == s && e.1 in g[s] && e.1 !in g) ==> e in edges
      ensures !hang ==> (failure <==> edges != edges0)
      ensures hang ==> |errC.buf| == errC.cap && exists d :: d in g[s] && d !in g && (s, d) !in edges
    {
      failure, hang, edges := false, false, edges0;
      var order := Range(services[s].directDeps);
      assert order[..0] == [];
      for i := 0 to |order|
        invariant errC.Valid() && !errC.closed && Reported(errC.buf, before, edges)
        invariant Covers(edges, edges0, g, s, order[..i])
        invariant |edges| >= |edges0| && (failure <==> |edges| > |edges0|)
        invariant !failure ==> edges == edges0
      {
        var dep := order[i];
        assert order[..i + 1] == order[..i] + [dep];
        CoversMore(edges, edges0, g, s, order[..i], dep);
        if dep !in services {
          ReportOne(errC.buf, before, edges, s, dep);
          var ok := errC.Send(DependencyMissing(s, dep));
          if !ok {
            return true, true, edges;
          }
          edges := edges + [(s, dep)];
          failure := true;
        }
      }
    }

    /** Reports one error for every edge to an unregistered name. The sends hang, before
        StartAll could hand the channel to anyone, iff those edges outnumber its room. */
    method HasMissingDeps(errC: Channel, ghost g: Graph)
      returns (failure: bool, hang: bool, ghost edges: seq<(Name, Name)>)
      requires Shows(g) && errC.Valid() && !errC.closed
      modifies errC
      ensures Shows(g) && errC.Valid() && !errC.closed
      ensures hang <==> |old(errC.buf)| + |MissingEdges(g)| > errC.cap
      ensures errC.buf == old(errC.buf) + MissingErrors(edges)
      ensures if hang then |errC.buf| == errC.cap else Enumerates(edges, MissingEdges(g))
      ensures !hang ==> (failure <==> !Closed(g))
    {
      failure, hang, edges := false, false, [];
      ghost var before := errC.buf;
      var order := Range(services.Keys);
      for i := 0 to |order|
        invariant Shows(g)
        invariant errC.Valid() && !errC.closed && Reported(errC.buf, before, edges)
        invariant forall e :: e in edges <==> e.0 in order[..i] && e in MissingEdges(g)
        invariant failure <==> edges != []
      {
        var missing;
        ghost var edges0 := edges;
        missing, hang, edges := MissingDepsOf(order[i], errC, g, before, edges);
        if hang {
          ghost var d :| d in g[order[i]] && d !in g && (order[i], d) !in edges;
          DistinctIsShort(edges + [(order[i], d)], MissingEdges(g));
          return true, hang, edges;
        }
        assert edges0 != [] ==> edges0[0] in edges;
        failure := failure || missing;
      }
      DistinctCounts(edges, MissingEdges(g));
      ClosedMeansNoneMissing(g);
    }

    /** Lists the current path followed by cur, from the unordered map of its levels. */
    method Unwind(cur: Name, met: map<Name, nat>, lvl: nat, ghost path: seq<Name>)
      returns (circularDeps: array<Name>)
      requires lvl == |path| && Numbers(met, path)
      ensures fresh(circularDeps) && circularDeps[..] == path + [cur]
    {
      NumberedPath(met, path);
      circularDeps := new Name[|met| + 1](_ => "");
      var order := Range(met.Keys);
      for i := 0 to |order|
        invariant forall j :: 0 <= j < i ==> circularDeps[met[order[j]]] == order[j]
      {
        circularDeps[met[order[i]]] := order[i];
      }
      circularDeps[lvl] := cur;
      forall k | 0 <= k < lvl ensures circularDeps[k] == path[k] {
        var j :| 0 <= j < |order| && order[j] == path[k];
      }
    }

    /** The path that has come back to a service it met before becomes the error. */
    method ReportCircle(cur: Name, met: map<Name, nat>, lvl: nat, errC: Channel, ghost g: Graph, ghost path: seq<Name>)
      requires lvl == |path| && Numbers(met, path) && cur in met && Walk(g, path + [cur])
      requires errC.Valid() && !errC.closed && |errC.buf| < errC.cap
      modifies errC
      ensures errC.Valid() && !errC.closed
      ensures CircleReported(errC.buf, old(errC.buf), g, path + [cur])
    {
      NumberedPath(met, path);
      ghost var here := path + [cur];
      var circularDeps := Unwind(cur, met, lvl, path);
      assert here[..|here| - 1] == path && Loops(g, here, here);
      var ok := errC.Send(DependencyCircular(circularDeps[0], circularDeps[..]));
    }

    /** Explores everything that can be reached from cur. True comes with exactly one
        error, whose path is a genuine walk from the first service of the current path
        back into itself; false means that no continuation of the path repeats a node. */
    method HasCircularDepsRec(cur: Name, met: map<Name, nat>, lvl: nat, errC: Channel,
                              ghost g: Graph, ghost path: seq<Name>)
      returns (found: bool)
      requires Shows(g) && Closed(g) && cur in g && Walk(g, path + [cur])
      requires lvl == |path| && Numbers(met, path)
      requires errC.Valid() && !errC.closed && |errC.buf| < errC.cap
      modifies errC
      ensures errC.Valid() && !errC.closed
      ensures found ==> CircleReported(errC.buf, old(errC.buf), g, path + [cur])
      ensures !found ==> errC.buf == old(errC.buf) && NeverLoops(g, path + [cur])
      decreases |g| - |met|
    {
      ghost var here := path + [cur];
      if cur in met {
        ReportCircle(cur, met, lvl, errC, g, path);
        return true;
      }
      var metRec := met[cur := lvl];
      NumberNext(g, met, path, cur);
      var order := Range(services[cur].directDeps);
      for i := 0 to |order|
        invariant Shows(g) && errC.Valid() && !errC.closed && errC.buf == old(errC.buf)
        invariant forall j :: 0 <= j < i ==> NeverLoops(g, here + [order[j]])
      {
        WalkOn(g, here, order[i]);
        found := HasCircularDepsRec(order[i], metRec, lvl + 1, errC, g, here);
        if found {
          CircleReportedEarlier(errC.buf, old(errC.buf), g, here, order[i]);
          return true;
        }
      }
      Continuations(g, here, order);
      return false;
    }

    /** Needs what hasMissingDeps has established: otherwise the search dereferences a
        missing service. */
    method HasCircularDeps(errC: Channel, ghost g: Graph) returns (found: bool)
      requires Shows(g) && Closed(g)
      requires errC.Valid() && !errC.closed && (services != map[] ==> |errC.buf| < errC.cap)
      modifies errC
      ensures Shows(g) && errC.Valid() && !errC.closed
      ensures found <==> HasCycle(g)
      ensures found ==> exists s :: CircleReported(errC.buf, old(errC.buf), g, [s])
      ensures !found ==> errC.buf == old(errC.buf)
    {
      var order := Range(services.Keys);
      for i := 0 to |order|
        invariant Shows(g) && errC.Valid() && !errC.closed && errC.buf == old(errC.buf)
        invariant forall j :: 0 <= j < i ==> NeverLoops(g, [order[j]])
      {
        assert order[i] in services && [] + [order[i]] == [order[i]];
        found := HasCircularDepsRec(order[i], map[], 0, errC, g, []);
        if found {
          CircleMeansCycle(errC.buf, old(errC.buf), g, [order[i]]);
          return true;
        }
      }
      NeverLoopsMeansAcyclic(g, order);
      return false;
    }

    /** StartAll up to the point where it launches its goroutines. */
    method Preflight() returns (verdict: Verdict, errC: Channel)
      requires Valid()
      ensures errC.Valid() && fresh(errC) && errC.cap == |services|
      ensures Judged(verdict, Graph(), |services|, errC.buf)
    {
      ghost var g := Graph();
      errC := new Channel(|services|);
      ghost var edges;
      var failure, hang;
      failure, hang, edges := HasMissingDeps(errC, g);
      ClosedMeansNoneMissing(g);
      assert !hang && edges != [] ==> edges[0] in MissingEdges(g);
      if hang {
        return Hang, errC;
      }
      if failure {
        assert errC.buf == MissingErrors(edges);
        MissingAreReported(g, edges);
        return Rejected, errC;
      }
      var circular := HasCircularDeps(errC, g);
      if circular {
        ghost var s :| CircleReported(errC.buf, [], g, [s]);
        CircleIsReported(errC.buf, g, s);
      }
      return if circular then Rejected else Launch, errC;
    }
  }

  /** The first missing edge takes the only place on the error channel, and the second has
      none left: a single service with two unregistered dependencies makes StartAll hang. */
  method OverfullPreflight() returns (verdict: Verdict)
    ensures verdict == Hang
  {
    var m := new Maestro();
    var s := new ServiceBase();
    var deps := ["b", "c"];
    var panic := m.AddServiceWithBackoff("a", false, 0, 0, s, deps);
    assert deps[0] in deps && deps[1] in deps && s.directDeps == {"b", "c"};
    assert m.services == map["a" := s];
    TwoMissing(m.Graph());
    var errC;
    verdict, errC := m.Preflight();
  }

  lemma TwoMissing(g: Graph)
    requires g.Keys == {"a"} && "b" in g["a"] && "c" in g["a"]
    ensures |MissingEdges(g)| >= 2
  {
    var two := {("a", "b"), ("a", "c")};
    assert two <= MissingEdges(g);
    var rest := MissingEdges(g) - two;
    assert MissingEdges(g) == rest + two;
  }
}
