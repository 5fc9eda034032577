/** Each thing that can happen to a world keeps it well-formed. */
module WorldProofs {
  import opened Collections
  import opened Errors
  import opened Channels
  import opened Services
  import opened Graphs
  import opened Worlds

  /** As long as the same services run, nothing changes for the lifetime invariant. */
  lemma SameRunning(w: World, w': World)
    requires Supported(w) && RunningRanked(w) && w'.specs == w.specs && w'.bases.Keys == w.bases.Keys
    requires forall s :: s in w.bases ==> w'.bases[s].started == w.bases[s].started
    ensures Supported(w') && RunningRanked(w')
  {
    assert Running(w') == Running(w);
    var r :| Ranked(DepGraph(w.specs), Running(w), r);
    assert Ranked(DepGraph(w'.specs), Running(w'), r);
  }

  /** Leaks survive everything that keeps the open channels listed and fails nothing. */
  lemma SameLeaks(w: World, w': World)
    requires LeaksOk(w) && w'.bases.Keys == w.bases.Keys && w.log <= w'.log
    requires forall dir, s :: s in w.bases ==> FailStreak(w'.log, dir, s) == FailStreak(w.log, dir, s)
    requires forall dir, s, c :: s in w.bases && c in Listed(dir, w.bases[s]) ==> c in Listed(dir, w'.bases[s])
    requires forall c :: c in w.subs ==> c in w'.subs && w'.subs[c] == w.subs[c]
    ensures LeaksOk(w')
  {
    forall dir, s | s in w'.bases && FailStreak(w'.log, dir, s) > 0 ensures HasLeak(w', dir, s) {
      LeakStays(w, w', dir, s);
    }
  }

  /** The bases stay as they are, and no failure is logged: only channels, and what is
      underway on the bases, have to be looked at. */
  ghost predicate Quiet(w: World, w': World) {
    && w'.specs == w.specs && w'.bases == w.bases && w'.subs == w.subs
    && w'.heap.Keys == w.heap.Keys && (forall c :: c in w.heap ==> w'.heap[c].closed == w.heap[c].closed)
    && w.log <= w'.log && (forall dir, s :: FailStreak(w'.log, dir, s) == FailStreak(w.log, dir, s))
  }

  lemma QuietLists(w: World, w': World)
    requires Quiet(w, w') && forall dir, s :: ListOk(w, dir, s)
    ensures forall dir, s :: ListOk(w', dir, s)
  {
    forall dir, s ensures ListOk(w', dir, s) {
      assert ListOk(w, dir, s);
    }
  }

  lemma QuietKeeps(w: World, w': World)
    requires Quiet(w, w') && Supported(w) && RunningRanked(w) && LeaksOk(w)
    ensures Supported(w') && RunningRanked(w') && LeaksOk(w')
  {
    SameRunning(w, w');
    SameLeaks(w, w');
  }

  /** With the log and what is underway unchanged, only the channels are left to look at. */
  lemma QuietRest(w: World, w': World)
    requires Quiet(w, w') && Shaped(w) && BasesOk(w) && LogOk(w) && w'.log == w.log
    ensures Shaped(w') && BasesOk(w') && LogOk(w')
  {
  }

  // ---------- registration ----------

  lemma RegisterKeepsChannels(w: World, s: Name, spec: Spec)
    requires Shaped(w) && BasesOk(w) && BusyOk(w) && ChannelsOk(w) && s !in w.bases
    ensures BasesOk(Register(w, s, spec)) && BusyOk(Register(w, s, spec)) && ChannelsOk(Register(w, s, spec))
  {
    var w' := Register(w, s, spec);
    forall dir, t ensures ListOk(w', dir, t) {
      assert ListOk(w, dir, t);
    }
    forall c | c in w'.heap ensures ChanOk(w', c) {
      assert ChanOk(w, c);
    }
  }

  /** Whatever is registered later, the running services do not depend on it. */
  lemma RegisterKeepsSupport(w: World, s: Name, spec: Spec)
    requires Shaped(w) && Supported(w) && s !in w.bases
    ensures Supported(Register(w, s, spec))
  {
  }

  lemma RegisterKeepsRank(w: World, s: Name, spec: Spec)
    requires Shaped(w) && RunningRanked(w) && s !in w.bases
    ensures RunningRanked(Register(w, s, spec))
  {
    var w' := Register(w, s, spec);
    var r :| Ranked(DepGraph(w.specs), Running(w), r);
    forall n, d | n in Running(w') && d in Running(w') && d in DepGraph(w'.specs)[n] ensures r[d] < r[n] {
      assert n in Running(w) && d in Running(w) && d in DepGraph(w.specs)[n];
    }
    assert Running(w') <= Running(w);
    assert Ranked(DepGraph(w'.specs), Running(w'), r);
  }

  lemma RegisterKeeps(w: World, s: Name, spec: Spec)
    requires WorldOk(w) && s !in w.specs
    ensures WorldOk(Register(w, s, spec))
  {
    var w' := Register(w, s, spec);
    RegisterKeepsChannels(w, s, spec);
    RegisterKeepsSupport(w, s, spec);
    RegisterKeepsRank(w, s, spec);
    forall dir, t | t in w'.bases && FailStreak(w'.log, dir, t) > 0 ensures HasLeak(w', dir, t) {
      if t == s {
        NoHistory(w.log, dir, s);
      } else {
        LeakStays(w, w', dir, t);
      }
    }
  }

  lemma {:induction false} NoHistory(log: seq<Event>, dir: Dir, s: Name)
    requires forall i :: 0 <= i < |log| ==> log[i].service != s
    ensures FailStreak(log, dir, s) == 0
  {
    if log != [] {
      NoHistory(log[..|log| - 1], dir, s);
    }
  }

  /** A leaked channel stays one as long as it is listed. */
  lemma LeakStays(w: World, w': World, dir: Dir, s: Name)
    requires HasLeak(w, dir, s) && s in w'.bases
    requires forall c :: c in Listed(dir, w.bases[s]) ==> c in Listed(dir, w'.bases[s])
    requires forall c :: c in w.subs ==> c in w'.subs && w'.subs[c] == w.subs[c]
    requires w.log <= w'.log
    ensures HasLeak(w', dir, s)
  {
    var c :| c in Listed(dir, w.bases[s]) && Leaked(w, dir, s, c);
    assert w'.log[..w.subs[c].at] == w.log[..w.subs[c].at];
    assert Leaked(w', dir, s, c);
  }

  // ---------- subscriptions ----------

  lemma AttachKeepsList(w: World, dir: Dir, s: Name, c: nat, owner: Owner, dir': Dir, t: Name)
    requires Shaped(w) && ListOk(w, dir', t) && s in w.bases && c !in w.heap
    ensures ListOk(Attach(w, dir, s, c, owner), dir', t)
  {
  }

  lemma AttachKeepsChan(w: World, dir: Dir, s: Name, c: nat, owner: Owner, c': nat)
    requires ChanOk(w, c') && s in w.bases && s !in w.busy && c !in w.heap
    ensures ChanOk(Attach(w, dir, s, c, owner), c')
  {
    assert Owed(Attach(w, dir, s, c, owner), c') == Owed(w, c');
  }

  lemma AttachKeepsChannels(w: World, dir: Dir, s: Name, c: nat, owner: Owner)
    requires Shaped(w) && ChannelsOk(w) && s in w.bases && s !in w.busy && c !in w.heap
    ensures ChannelsOk(Attach(w, dir, s, c, owner))
  {
    var w' := Attach(w, dir, s, c, owner);
    forall dir', t ensures ListOk(w', dir', t) {
      assert ListOk(w, dir', t);
      AttachKeepsList(w, dir, s, c, owner, dir', t);
    }
    forall c' | c' in w'.heap ensures ChanOk(w', c') {
      if c' == c {
        assert w'.log[|w.log|..] == [];
      } else {
        AttachKeepsChan(w, dir, s, c, owner, c');
      }
    }
  }

  /** The goals stay where they are. */
  lemma AttachKeepsBases(w: World, dir: Dir, s: Name, c: nat, owner: Owner)
    requires Shaped(w) && BasesOk(w) && BusyOk(w) && LogOk(w) && s in w.bases && s !in w.busy
    ensures Shaped(Attach(w, dir, s, c, owner)) && BasesOk(Attach(w, dir, s, c, owner))
    ensures BusyOk(Attach(w, dir, s, c, owner)) && LogOk(Attach(w, dir, s, c, owner))
  {
  }

  lemma AttachKeepsRunning(w: World, dir: Dir, s: Name, c: nat, owner: Owner)
    requires Supported(w) && RunningRanked(w) && s in w.bases
    ensures Supported(Attach(w, dir, s, c, owner)) && RunningRanked(Attach(w, dir, s, c, owner))
  {
    SameRunning(w, Attach(w, dir, s, c, owner));
  }

  lemma AttachKeepsLeaks(w: World, dir: Dir, s: Name, c: nat, owner: Owner)
    requires Shaped(w) && LeaksOk(w) && s in w.bases && c !in w.heap
    ensures LeaksOk(Attach(w, dir, s, c, owner))
  {
    var w' := Attach(w, dir, s, c, owner);
    forall dir', t | t in w'.bases && FailStreak(w'.log, dir', t) > 0 ensures HasLeak(w', dir', t) {
      LeakStays(w, w', dir', t);
    }
  }

  lemma AttachKeeps(w: World, dir: Dir, s: Name, c: nat, owner: Owner)
    requires WorldOk(w) && s in w.bases && s !in w.busy && c !in w.heap
    ensures WorldOk(Attach(w, dir, s, c, owner))
  {
    AttachKeepsBases(w, dir, s, c, owner);
    AttachKeepsChannels(w, dir, s, c, owner);
    AttachKeepsRunning(w, dir, s, c, owner);
    AttachKeepsLeaks(w, dir, s, c, owner);
  }

  // ---------- receiving ----------

  lemma DrainKeepsChan(w: World, c: nat, c': nat)
    requires ChanOk(w, c) && ChanOk(w, c') && w.subs[c].owner != Guardian
    ensures ChanOk(Drain(w, c), c')
  {
    assert Owed(Drain(w, c), c') == Owed(w, c');
  }

  lemma DrainKeepsChannels(w: World, c: nat)
    requires Shaped(w) && ChannelsOk(w) && c in w.heap && w.subs[c].owner != Guardian
    ensures ChannelsOk(Drain(w, c))
  {
    QuietLists(w, Drain(w, c));
    forall c' | c' in w.heap ensures ChanOk(Drain(w, c), c') {
      DrainKeepsChan(w, c, c');
    }
  }

  lemma DrainIsQuiet(w: World, c: nat)
    requires c in w.heap
    ensures Quiet(w, Drain(w, c)) && (BusyOk(w) ==> BusyOk(Drain(w, c)))
  {
  }

  lemma DrainKeeps(w: World, c: nat)
    requires WorldOk(w) && c in w.heap && w.subs[c].owner != Guardian
    ensures WorldOk(Drain(w, c))
  {
    DrainKeepsChannels(w, c);
    DrainIsQuiet(w, c);
    QuietRest(w, Drain(w, c));
    QuietKeeps(w, Drain(w, c));
  }

  // ---------- calling the service ----------

  lemma InvokeIsQuiet(w: World, dir: Dir, s: Name, attempt: nat, deps: set<Name>)
    ensures Quiet(w, Invoke(w, dir, s, attempt, deps))
  {
    forall dir', t ensures FailStreak(Invoke(w, dir, s, attempt, deps).log, dir', t) == FailStreak(w.log, dir', t) {
      FailStreakMore(w.log, Invoked(dir, s, attempt, deps), dir', t);
    }
  }

  lemma InvokeKeepsChan(w: World, dir: Dir, s: Name, attempt: nat, deps: set<Name>, c: nat)
    requires ChanOk(w, c)
    ensures ChanOk(Invoke(w, dir, s, attempt, deps), c)
  {
    LogGrows(w, Invoked(dir, s, attempt, deps), c);
  }

  lemma InvokeKeepsChannels(w: World, dir: Dir, s: Name, attempt: nat, deps: set<Name>)
    requires ChannelsOk(w)
    ensures ChannelsOk(Invoke(w, dir, s, attempt, deps))
  {
    InvokeIsQuiet(w, dir, s, attempt, deps);
    QuietLists(w, Invoke(w, dir, s, attempt, deps));
    forall c | c in w.heap ensures ChanOk(Invoke(w, dir, s, attempt, deps), c) {
      InvokeKeepsChan(w, dir, s, attempt, deps, c);
    }
  }

  lemma InvokeKeeps(w: World, dir: Dir, s: Name, attempt: nat, deps: set<Name>)
    requires WorldOk(w) && s in w.bases
    ensures WorldOk(Invoke(w, dir, s, attempt, deps))
  {
    InvokeIsQuiet(w, dir, s, attempt, deps);
    InvokeKeepsChannels(w, dir, s, attempt, deps);
    QuietKeeps(w, Invoke(w, dir, s, attempt, deps));
  }

  lemma LogGrows(w: World, ev: Event, c: nat)
    requires ChanOk(w, c)
    ensures var u := w.subs[c];
            Tell((w.log + [ev])[u.at..], u.dir, u.service) ==
            Hear(Tell(w.log[u.at..], u.dir, u.service), ev, u.dir, u.service)
  {
    var u := w.subs[c];
    assert (w.log + [ev])[u.at..] == w.log[u.at..] + [ev];
    TellMore(w.log[u.at..], ev, u.dir, u.service);
  }

  // ---------- publishing ----------

  /** One channel when a result is published: if it is subscribed and open it is closed by
      a success and owed a failure, and otherwise it is not concerned. */
  lemma AnnounceKeepsChan(w: World, dir: Dir, s: Name, err: Option<Error>, c: nat)
    requires ChanOk(w, c) && ListOk(w, dir, s)
    requires s in w.bases && s !in w.busy && !AtGoal(dir, w.bases[s])
    ensures ChanOk(Announce(w, dir, s, err), c)
  {
    var ev := Published(dir, s, err);
    var u := w.subs[c];
    LogGrows(w, ev, c);
    if c in Listed(dir, w.bases[s]) {
      assert u.dir == dir && u.service == s;
      assert Owed(w, c) == [] && w.heap[c].sent + [] == w.heap[c].sent;
      assert Owed(Announce(w, dir, s, err), c) == if err.Some? then [err.value] else [];
    } else {
      assert Owed(Announce(w, dir, s, err), c) == Owed(w, c);
      if u.dir == dir && u.service == s {
        assert w.heap[c].closed;
      }
    }
  }

  lemma AnnounceKeepsChannels(w: World, dir: Dir, s: Name, err: Option<Error>)
    requires Shaped(w) && ChannelsOk(w) && s in w.bases && s !in w.busy && !AtGoal(dir, w.bases[s])
    ensures Shaped(Announce(w, dir, s, err)) && ChannelsOk(Announce(w, dir, s, err))
  {
    var w' := Announce(w, dir, s, err);
    forall dir', t ensures ListOk(w', dir', t) {
      assert ListOk(w, dir', t);
      assert ListOk(w, dir, s);
    }
    forall c | c in w'.heap ensures ChanOk(w', c) {
      assert ChanOk(w, c) && ListOk(w, dir, s);
      AnnounceKeepsChan(w, dir, s, err, c);
    }
  }

  lemma AnnounceKeepsBusy(w: World, dir: Dir, s: Name, err: Option<Error>)
    requires BusyOk(w) && s in w.bases && s !in w.busy && !AtGoal(dir, w.bases[s])
    ensures BusyOk(Announce(w, dir, s, err))
  {
    var w' := Announce(w, dir, s, err);
    forall t | t in w'.busy ensures FailStreak(w'.log, w'.busy[t].dir, t) > 0 {
      FailStreakMore(w.log, Published(dir, s, err), w'.busy[t].dir, t);
    }
  }

  /** Dependencies outlive their dependents: a service comes up after what it needs, and
      goes down after whatever needs it. */
  lemma AnnounceKeepsSupport(w: World, dir: Dir, s: Name, err: Option<Error>)
    requires Shaped(w) && BasesOk(w) && Supported(w) && s in w.bases && !AtGoal(dir, w.bases[s])
    requires err.None? ==> forall d :: d in Prereqs(w.specs, dir, s) ==> Done(w, dir, d)
    ensures BasesOk(Announce(w, dir, s, err)) && Supported(Announce(w, dir, s, err))
  {
    var w' := Announce(w, dir, s, err);
    PublishKeepsDiscipline(dir, w.bases[s], err);
    assert err.Some? ==> w'.bases[s].started == w.bases[s].started;
    forall p, d | p in w'.bases && w'.bases[p].started && d in w'.specs[p].deps
      ensures d in w'.bases && w'.bases[d].started
    {
      if p == s && dir.Boot? {
        assert d in Prereqs(w.specs, dir, s) && Done(w, dir, d);
      } else {
        assert w.bases[p].started && d in w.bases;
        if d == s && dir.Shut? {
          assert p in Prereqs(w.specs, dir, s);
        }
      }
    }
  }

  lemma AnnounceKeepsRank(w: World, dir: Dir, s: Name, err: Option<Error>)
    requires Shaped(w) && BasesOk(w) && RunningRanked(w) && s in w.bases && !AtGoal(dir, w.bases[s])
    requires dir.Boot? && err.None? ==> Closed(DepGraph(w.specs)) && !HasCycle(DepGraph(w.specs))
    ensures RunningRanked(Announce(w, dir, s, err))
  {
    var w' := Announce(w, dir, s, err);
    var g := DepGraph(w.specs);
    if dir.Boot? && err.None? {
      var r := AcyclicIsRanked(g);
      assert Ranked(g, Running(w'), r);
    } else {
      var r :| Ranked(g, Running(w), r);
      assert Running(w') <= Running(w);
      assert Ranked(g, Running(w'), r);
    }
  }

  lemma AnnounceKeepsLeaks(w: World, dir: Dir, s: Name, err: Option<Error>)
    requires LeaksOk(w) && s in w.bases && !AtGoal(dir, w.bases[s]) && Disciplined(w.bases[s])
    requires err.Some? ==> HasLeak(w, dir, s)
    ensures LeaksOk(Announce(w, dir, s, err))
    ensures LogOk(w) ==> LogOk(Announce(w, dir, s, err))
  {
    var w' := Announce(w, dir, s, err);
    forall dir', t | t in w'.bases && FailStreak(w'.log, dir', t) > 0 ensures HasLeak(w', dir', t) {
      FailStreakMore(w.log, Published(dir, s, err), dir', t);
      LeakStays(w, w', dir', t);
    }
  }

  lemma AnnounceKeeps(w: World, dir: Dir, s: Name, err: Option<Error>)
    requires WorldOk(w) && s in w.bases && !AtGoal(dir, w.bases[s])
    requires err.None? ==> forall d :: d in Prereqs(w.specs, dir, s) ==> Done(w, dir, d)
    requires s !in w.busy && (err.Some? ==> HasLeak(w, dir, s))
    requires dir.Boot? && err.None? ==> Closed(DepGraph(w.specs)) && !HasCycle(DepGraph(w.specs))
    ensures WorldOk(Announce(w, dir, s, err))
  {
    AnnounceKeepsChannels(w, dir, s, err);
    AnnounceKeepsSupport(w, dir, s, err);
    AnnounceKeepsRank(w, dir, s, err);
    AnnounceKeepsLeaks(w, dir, s, err);
    AnnounceKeepsBusy(w, dir, s, err);
  }

  // ---------- sending a failure to the subscribers ----------

  /** A send gives its channel what it is owed, and concerns no other channel. */
  lemma ServeKeepsChan(w: World, s: Name, c: nat)
    requires CanServe(w, s) && ListOk(w, w.busy[s].dir, s) && ChanOk(w, c)
    ensures ChanOk(Serve(w, s), c)
  {
    var b, cs, w' := w.busy[s], Listed(w.busy[s].dir, w.bases[s]), Serve(w, s);
    assert cs[b.served..] == [cs[b.served]] + cs[b.served + 1..];
    if c == cs[b.served] {
      assert Owed(w, c) == [b.err] && Owed(w', c) == [];
      assert w'.heap[c].sent + [] == w.heap[c].sent + [b.err];
    } else {
      assert Owed(w', c) == Owed(w, c);
    }
  }

  lemma ServeKeepsChannels(w: World, s: Name)
    requires ChannelsOk(w) && CanServe(w, s)
    ensures ChannelsOk(Serve(w, s))
  {
    QuietLists(w, Serve(w, s));
    forall c | c in w.heap ensures ChanOk(Serve(w, s), c) {
      assert ListOk(w, w.busy[s].dir, s);
      ServeKeepsChan(w, s, c);
    }
  }

  lemma ServeKeepsBusy(w: World, s: Name)
    requires BusyOk(w) && CanServe(w, s)
    ensures BusyOk(Serve(w, s)) && Quiet(w, Serve(w, s))
  {
  }

  lemma ServeKeeps(w: World, s: Name)
    requires WorldOk(w) && CanServe(w, s)
    ensures WorldOk(Serve(w, s))
  {
    ServeKeepsChannels(w, s);
    ServeKeepsBusy(w, s);
    QuietRest(w, Serve(w, s));
    QuietKeeps(w, Serve(w, s));
  }

  /** Once everyone is served, nobody is owed anything. */
  lemma ReleaseKeepsChan(w: World, s: Name, c: nat)
    requires AllServed(w, s) && ChanOk(w, c)
    ensures ChanOk(Release(w, s), c)
  {
    assert Owed(Release(w, s), c) == Owed(w, c);
  }

  lemma ReleaseKeepsChannels(w: World, s: Name)
    requires ChannelsOk(w) && AllServed(w, s)
    ensures ChannelsOk(Release(w, s))
  {
    QuietLists(w, Release(w, s));
    forall c | c in w.heap ensures ChanOk(Release(w, s), c) {
      ReleaseKeepsChan(w, s, c);
    }
  }

  lemma ReleaseKeeps(w: World, s: Name)
    requires WorldOk(w) && AllServed(w, s)
    ensures WorldOk(Release(w, s))
  {
    ReleaseKeepsChannels(w, s);
    QuietRest(w, Release(w, s));
    QuietKeeps(w, Release(w, s));
  }

  // ---------- the same as the class ----------

  /** The channels of a list, as they are in a heap. */
  function Chans(h: map<nat, Chan>, cs: seq<nat>): (vs: seq<Chan>)
    requires forall i :: 0 <= i < |cs| ==> cs[i] in h
    ensures |vs| == |cs| && forall i :: 0 <= i < |cs| ==> vs[i] == h[cs[i]]
  {
    seq(|cs|, i requires 0 <= i < |cs| => h[cs[i]])
  }

  /** All the sends that a failing call can make without being interrupted. */
  function ServeOn(w: World, s: Name): World
    decreases if s in w.busy && s in w.bases then |Listed(w.busy[s].dir, w.bases[s])| - w.busy[s].served else 0
  {
    if CanServe(w, s) then ServeOn(Serve(w, s), s) else w
  }

  /** was is what the list held when the failing call began to send. */
  lemma {:induction false} ServeOnDelivers(w: World, s: Name, was: seq<Chan>)
    requires s in w.busy && s in w.bases
    requires var cs := Listed(w.busy[s].dir, w.bases[s]);
             && Distinct(cs) && |was| == |cs| && w.busy[s].served <= |cs|
             && (forall i :: 0 <= i < |cs| ==> cs[i] in w.heap)
             && Chans(w.heap, cs) == Delivered(was, Some(w.busy[s].err), w.busy[s].served)
             && (forall i :: 0 <= i < w.busy[s].served ==> was[i].Backlog() < CAPACITY)
    ensures var v, cs := ServeOn(w, s), Listed(w.busy[s].dir, w.bases[s]);
            && v.bases == w.bases && s in v.busy && StopsAt(was, v.busy[s].served)
            && (forall i :: 0 <= i < |cs| ==> cs[i] in v.heap)
            && Chans(v.heap, cs) == Delivered(was, Some(w.busy[s].err), v.busy[s].served)
    decreases |was| - w.busy[s].served
  {
    var b, cs := w.busy[s], Listed(w.busy[s].dir, w.bases[s]);
    assert b.served < |cs| ==> Chans(w.heap, cs)[b.served] == was[b.served];
    if CanServe(w, s) {
      var w' := Serve(w, s);
      forall i | 0 <= i < |cs|
        ensures cs[i] in w'.heap && w'.heap[cs[i]] == Delivered(was, Some(b.err), b.served + 1)[i]
      {
        assert Chans(w.heap, cs)[i] == Delivered(was, Some(b.err), b.served)[i];
      }
      ServeOnDelivers(w', s, was);
    }
  }

  /** Uninterrupted, the steps of a failing call leave flags, lists and channels exactly as
      the contracts of ServiceBase.Start and Stop say, and stop at the same channel. */
  lemma FailureMatchesClass(w: World, dir: Dir, s: Name, e: Error)
    requires s in w.bases && ListOk(w, dir, s)
    ensures var v, cs := ServeOn(Announce(w, dir, s, Some(e)), s), Listed(dir, w.bases[s]);
            && s in v.bases && v.bases[s] == Publish(dir, w.bases[s], Some(e))
            && (forall i :: 0 <= i < |cs| ==> cs[i] in w.heap && cs[i] in v.heap)
            && s in v.busy && StopsAt(Chans(w.heap, cs), v.busy[s].served)
            && Chans(v.heap, cs) == Delivered(Chans(w.heap, cs), Some(e), v.busy[s].served)
  {
    var cs := Listed(dir, w.bases[s]);
    assert forall i :: 0 <= i < |cs| ==> cs[i] in cs;
    ServeOnDelivers(Announce(w, dir, s, Some(e)), s, Chans(w.heap, cs));
  }

  /** So does the one step of a success. */
  lemma SuccessMatchesClass(w: World, dir: Dir, s: Name)
    requires s in w.bases && !AtGoal(dir, w.bases[s]) && ListOk(w, dir, s)
    ensures var v, cs := Announce(w, dir, s, None), Listed(dir, w.bases[s]);
            && v.bases[s] == Publish(dir, w.bases[s], None)
            && (forall i :: 0 <= i < |cs| ==> cs[i] in w.heap && cs[i] in v.heap)
            && Chans(v.heap, cs) == Delivered(Chans(w.heap, cs), None, |cs|)
  {
    var cs := Listed(dir, w.bases[s]);
    assert forall i :: 0 <= i < |cs| ==> cs[i] in cs;
  }

  // ---------- consequences ----------

  /** A channel still open for a goal holds, or is owed, at most the failures of the
      current streak. */
  lemma BacklogWithinStreak(w: World, c: nat)
    requires ChanOk(w, c) && !w.heap[c].closed
    ensures var u := w.subs[c];
            w.heap[c].Backlog() + |Owed(w, c)| <= FailStreak(w.log, u.dir, u.service)
  {
    var u := w.subs[c];
    ToldWithinStreak(w.log, u.at, u.dir, u.service);
  }

  /** A guard's channel holds, or is owed, all of them. */
  lemma LeakHoldsStreak(w: World, dir: Dir, s: Name, c: nat)
    requires ListOk(w, dir, s) && ChanOk(w, c)
    requires s in w.bases && c in Listed(dir, w.bases[s]) && Leaked(w, dir, s, c)
    ensures w.heap[c].Backlog() + |Owed(w, c)| == FailStreak(w.log, dir, s)
  {
    ToldWithinStreak(w.log, w.subs[c].at, dir, s);
  }
}
