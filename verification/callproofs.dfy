/** Every step of a call, whoever takes it, keeps what holds of the call. */
module CallProofs {
  import opened Errors
  import opened Services
  import opened Retries
  import opened Worlds
  import opened WorldProofs
  import opened Protocol
  import opened Invariants

  /** The shared state goes on: nothing is lost, and no goal changes but the mover's. */
  ghost predicate WorldGoesOn(w: World, w': World, dir: Dir, mover: Option<Name>) {
    && w'.specs == w.specs && w'.bases.Keys == w.bases.Keys && w.log <= w'.log
    && (forall t :: Done(w, dir, t) ==> Done(w', dir, t))
    && (forall t :: mover != Some(t) && Done(w', dir, t) ==> Done(w, dir, t))
    && (forall c :: c in w.subs ==> c in w'.subs && w'.subs[c] == w.subs[c])
    && (forall c :: c in w.heap ==> c in w'.heap)
    && (forall t :: mover != Some(t) ==>
          (t in w'.busy <==> t in w.busy) && (t in w.busy ==> w'.busy[t] == w.busy[t]))
    && (forall c, t :: c in w.heap && c in w.subs && w.subs[c].owner == Waiter(t) && mover != Some(t) ==>
          w'.heap[c].taken == w.heap[c].taken)
    && (forall t, c :: mover != Some(t) && t in w.bases && c in Listed(dir, w.bases[t]) ==>
          c in Listed(dir, w'.bases[t]))
  }

  /** The call goes on: only the mover moves, and failures are not forgotten. */
  ghost predicate CallGoesOn(k: Call, k': Call, mover: Option<Name>) {
    && k'.dir == k.dir && k'.begin == k.begin && k'.at0 == k.at0 && k'.wins == k.wins
    && (k.cancelled ==> k'.cancelled)
    && k'.pcs.Keys == k.pcs.Keys
    && (forall t :: mover != Some(t) && t in k.pcs ==> k'.pcs[t] == k.pcs[t])
    && (forall t, e :: FailedWith(k, t, e) ==> FailedWith(k', t, e))
  }

  ghost predicate Later(w: World, k: Call, w': World, k': Call, mover: Option<Name>) {
    WorldGoesOn(w, w', k.dir, mover) && CallGoesOn(k, k', mover)
  }

  lemma TriedStays(w: World, k: Call, w': World, k': Call, mover: Option<Name>, s: Name, n: nat)
    requires Later(w, k, w', k', mover) && Tried(w, k, s, n)
    ensures Tried(w', k', s, n)
  {
    forall j | 1 <= j <= n ensures Invoked(k.dir, s, j, Passed(w.specs, k.dir, s)) in w'.log[k.begin..] {
      LogKeeps(w.log, w'.log, k.begin, Invoked(k.dir, s, j, Passed(w.specs, k.dir, s)));
    }
  }

  lemma LogKeeps(log: seq<Event>, log': seq<Event>, begin: nat, ev: Event)
    requires log <= log' && begin <= |log| && ev in log[begin..]
    ensures ev in log'[begin..]
  {
    var i :| 0 <= i < |log[begin..]| && log[begin..][i] == ev;
    assert log'[begin..][i] == ev;
  }

  lemma BlameStays(w: World, k: Call, w': World, k': Call, mover: Option<Name>, s: Name, e: Error)
    requires Later(w, k, w', k', mover) && Blamed(w, k, s, e)
    ensures Blamed(w', k', s, e)
  {
    if Tried(w, k, s, MaxTries(w.specs[s].retries)) {
      TriedStays(w, k, w', k', mover, s, MaxTries(w.specs[s].retries));
    }
    if d :| d in Prereqs(w.specs, k.dir, s) && e == Unavailable(k.dir, s, d) && Failed(k, d) {
      var f :| FailedWith(k, d, f);
      assert FailedWith(k', d, f);
    }
  }

  lemma FinishedStays(w: World, k: Call, w': World, k': Call, mover: Option<Name>, s: Name, err: Option<Error>)
    requires Later(w, k, w', k', mover) && Finished(w, k, s, err)
    requires Done(w', k.dir, s) ==> Done(w, k.dir, s)
    ensures Finished(w', k', s, err)
  {
    if err.Some? && Announced(k.dir, s, err.value) {
      BlameStays(w, k, w', k', mover, s, err.value);
      var i :| k.begin <= i < |w.log| && w.log[i] == Published(k.dir, s, err);
      assert w'.log[i] == w.log[i];
    }
  }

  lemma PcStays(w: World, k: Call, w': World, k': Call, mover: Option<Name>, t: Name)
    requires Later(w, k, w', k', mover) && PcOk(w, k, t) && mover != Some(t)
    ensures PcOk(w', k', t)
  {
    if HasLeak(w, k.dir, t) {
      LeakStays(w, w', k.dir, t);
    }
    match k.pcs[t]
    case Trying(n, _) => TriedStays(w, k, w', k', mover, t, n - 1);
    case BackingOff(n, _) => TriedStays(w, k, w', k', mover, t, n);
    case Publishing(Some(e)) => BlameStays(w, k, w', k', mover, t, e);
    case Serving(e) => FinishedStays(w, k, w', k', mover, t, Some(e));
    case Returning(err) => FinishedStays(w, k, w', k', mover, t, err);
    case Exited(err) => FinishedStays(w, k, w', k', mover, t, err);
    case _ =>
  }

  lemma EventStays(w: World, k: Call, w': World, k': Call, mover: Option<Name>, i: nat)
    requires Later(w, k, w', k', mover) && EventOk(w, k, i)
    ensures EventOk(w', k', i)
  {
    assert w'.log[i] == w.log[i];
    assert w'.log[k.begin..i] == w.log[k.begin..i];
  }

  lemma EarnedStays(w: World, k: Call, w': World, k': Call, mover: Option<Name>, s: Name)
    requires Later(w, k, w', k', mover) && Earned(w, k, s) && Done(w, k.dir, s)
    ensures Earned(w', k', s)
  {
    LogKeeps(w.log, w'.log, k.begin, Published(k.dir, s, None));
  }

  /** Steps that neither log anything nor reach a goal. */
  lemma OrderStays(w: World, k: Call, w': World, k': Call, mover: Option<Name>)
    requires Later(w, k, w', k', mover) && OrderOk(w, k)
    requires w'.log == w.log && forall t :: Done(w', k.dir, t) ==> Done(w, k.dir, t)
    ensures OrderOk(w', k')
  {
    forall i | k.begin <= i < |w.log| ensures EventOk(w', k', i) {
      EventStays(w, k, w', k', mover, i);
    }
    forall s | s in w.specs && Done(w', k.dir, s) && s !in k.at0 ensures Earned(w', k', s) {
      EarnedStays(w, k, w', k', mover, s);
    }
  }

  /** Steps that log one event. */
  lemma OrderGrows(w: World, k: Call, w': World, k': Call, s: Name, ev: Event)
    requires Later(w, k, w', k', Some(s)) && OrderOk(w, k) && k.begin <= |w.log|
    requires w'.log == w.log + [ev] && EventOk(w', k', |w.log|)
    requires ev.Published? ==> forall i :: k.begin <= i < |w.log| ==> w.log[i] != ev
    requires Done(w', k.dir, s) ==> Done(w, k.dir, s) || Earned(w', k', s)
    ensures OrderOk(w', k')
  {
    forall i | k.begin <= i < |w'.log| ensures EventOk(w', k', i) {
      if i < |w.log| {
        EventStays(w, k, w', k', Some(s), i);
      }
    }
    forall i, j | k.begin <= i < j < |w'.log| && w'.log[i].Published? ensures w'.log[j] != w'.log[i] {
      assert w'.log[i] == w.log[i];
    }
    forall t | t in w.specs && Done(w', k.dir, t) && t !in k.at0 ensures Earned(w', k', t) {
      if Done(w, k.dir, t) {
        EarnedStays(w, k, w', k', Some(s), t);
      }
    }
  }

  lemma FrameStays(w: World, k: Call, w': World, k': Call, mover: Option<Name>)
    requires Later(w, k, w', k', mover) && FrameOk(w, k)
    ensures FrameOk(w', k')
  {
    var r :| PendingRank(w.specs, k.dir, k.at0, r);
    assert PendingRank(w'.specs, k'.dir, k'.at0, r);
  }

  /** A call goes on correctly if its mover and its log do. */
  lemma CallStays(w: World, k: Call, w': World, k': Call, mover: Option<Name>)
    requires CallOk(w, k) && Later(w, k, w', k', mover)
    requires mover.Some? ==> PcOk(w', k', mover.value)
    requires OrderOk(w', k') && ErrOk(k')
    ensures CallOk(w', k')
  {
    FrameStays(w, k, w', k', mover);
    forall s | s in k'.pcs ensures PcOk(w', k', s) {
      if mover != Some(s) {
        PcStays(w, k, w', k', mover, s);
      }
    }
  }

  /** What a move of s has to establish. */
  ghost predicate MoverOk(w: World, k: Call, w': World, k': Call, s: Name) {
    Later(w, k, w', k', Some(s)) && PcOk(w', k', s) && OrderOk(w', k') && ErrOk(k')
  }

  /** A goroutine that has not ended moves on, and does not end yet. */
  lemma PcMoves(k: Call, k': Call, s: Name)
    requires ErrOk(k) && s in k.pcs && s in k'.pcs
    requires k' == k.(pcs := k.pcs[s := k'.pcs[s]])
    requires !k.pcs[s].Returning? && !k.pcs[s].Exited? && !k'.pcs[s].Exited?
    requires k.pcs[s].Serving? ==> k'.pcs[s] in {k.pcs[s], Returning(Some(k.pcs[s].failure))}
    ensures CallGoesOn(k, k', Some(s)) && ErrOk(k')
  {
  }

  // ---------- steps of other code ----------

  lemma CancelStays(w: World, k: Call)
    requires CallOk(w, k)
    ensures CallOk(w, k.(cancelled := true))
  {
    var k' := k.(cancelled := true);
    assert Later(w, k, w, k', None);
    OrderStays(w, k, w, k', None);
    CallStays(w, k, w, k', None);
  }

  /** Subscriptions of anybody leave all goals where they are. */
  lemma AttachGoesOn(w: World, goal: Dir, dir: Dir, s: Name, c: nat, owner: Owner)
    requires Shaped(w) && s in w.bases && c !in w.heap
    ensures WorldGoesOn(w, Attach(w, dir, s, c, owner), goal, None)
    ensures forall t :: Done(Attach(w, dir, s, c, owner), goal, t) <==> Done(w, goal, t)
  {
  }

  lemma ClientSubscribeStays(w: World, k: Call, dir: Dir, s: Name, c: nat)
    requires Shaped(w) && CallOk(w, k) && s in w.bases && c !in w.heap
    ensures CallOk(Attach(w, dir, s, c, Client), k)
  {
    var w' := Attach(w, dir, s, c, Client);
    AttachGoesOn(w, k.dir, dir, s, c, Client);
    OrderStays(w, k, w', k, None);
    CallStays(w, k, w', k, None);
  }

  /** A receive takes from nobody else's channel. */
  lemma DrainGoesOn(w: World, goal: Dir, c: nat, mover: Option<Name>)
    requires Shaped(w) && c in w.heap
    requires mover == None ==> w.subs[c].owner == Client
    requires mover.Some? ==> w.subs[c].owner == Waiter(mover.value)
    ensures WorldGoesOn(w, Drain(w, c), goal, mover)
    ensures forall t :: Done(Drain(w, c), goal, t) <==> Done(w, goal, t)
  {
  }

  lemma ClientReceiveStays(w: World, k: Call, c: nat)
    requires Shaped(w) && CallOk(w, k) && c in w.heap && w.subs[c].owner == Client
    ensures CallOk(Drain(w, c), k)
  {
    var w' := Drain(w, c);
    DrainGoesOn(w, k.dir, c, None);
    OrderStays(w, k, w', k, None);
    CallStays(w, k, w', k, None);
  }

  // ---------- steps of a goroutine ----------

  lemma LocalPcOk(w: World, k: Call, s: Name, m: Move)
    requires k.begin <= |w.log| && PcOk(w, k, s) && CanMove(w, k, s, m)
    requires m.Choose? || m.Launch? || m.Retry? || m.Abort?
    ensures PcOk(w, CallAfter(w, k, s, m), s)
  {
  }

  lemma LocalMoves(w: World, k: Call, s: Name, m: Move)
    requires FrameOk(w, k) && PcOk(w, k, s) && OrderOk(w, k) && ErrOk(k) && CanMove(w, k, s, m)
    requires (m.Choose? || m.Launch? || m.Retry? || m.Abort?)
    ensures MoverOk(w, k, WorldAfter(w, k, s, m), CallAfter(w, k, s, m), s)
  {
    var k' := CallAfter(w, k, s, m);
    PcMoves(k, k', s);
    OrderStays(w, k, w, k', Some(s));
    LocalPcOk(w, k, s, m);
  }

  lemma ReportKeepsErrors(w: World, k: Call, s: Name)
    requires ErrOk(k) && CanMove(w, k, s, Report)
    ensures ErrOk(CallAfter(w, k, s, Report))
  {
    var k' := CallAfter(w, k, s, Report);
    if k.pcs[s].err.Some? {
      assert k'.errC[|k.errC|] == (s, k.pcs[s].err.value);
      forall t, e | t in k'.pcs && k'.pcs[t] == Exited(Some(e)) ensures (t, e) in k'.errC {
        if t != s {
          assert (t, e) in k.errC;
        }
      }
    }
  }

  lemma ReportGoesOn(w: World, k: Call, s: Name)
    requires CanMove(w, k, s, Report)
    ensures CallGoesOn(k, CallAfter(w, k, s, Report), Some(s))
  {
  }

  lemma ReportPcOk(w: World, k: Call, s: Name)
    requires PcOk(w, k, s) && CanMove(w, k, s, Report) && CallGoesOn(k, CallAfter(w, k, s, Report), Some(s))
    requires WorldGoesOn(w, w, k.dir, Some(s))
    ensures PcOk(w, CallAfter(w, k, s, Report), s)
  {
    FinishedStays(w, k, w, CallAfter(w, k, s, Report), Some(s), s, k.pcs[s].err);
  }

  lemma ReportMoves(w: World, k: Call, s: Name, m: Move)
    requires m.Report? && CanMove(w, k, s, m)
    requires FrameOk(w, k) && PcOk(w, k, s) && OrderOk(w, k) && ErrOk(k)
    ensures MoverOk(w, k, WorldAfter(w, k, s, m), CallAfter(w, k, s, m), s)
  {
    var k' := CallAfter(w, k, s, m);
    ReportKeepsErrors(w, k, s);
    ReportGoesOn(w, k, s);
    OrderStays(w, k, w, k', Some(s));
    ReportPcOk(w, k, s);
  }

  /** The channel that a guard throws away is listed before the next failure. */
  lemma GuardLeaks(w: World, dir: Dir, s: Name, c: nat)
    requires LeaksOk(w) && s in w.bases && c !in w.heap && Shaped(w) && !AtGoal(dir, w.bases[s])
    ensures HasLeak(Attach(w, dir, s, c, Guardian), dir, s)
  {
    var w' := Attach(w, dir, s, c, Guardian);
    if FailStreak(w.log, dir, s) > 0 {
      LeakStays(w, w', dir, s);
    } else {
      assert w'.log[..|w.log|] == w.log;
      assert Leaked(w', dir, s, c) && c == Listed(dir, w'.bases[s])[|Listed(dir, w.bases[s])|];
    }
  }

  lemma GuardPcOk(w: World, k: Call, s: Name, c: nat, pick: Pick)
    requires LeaksOk(w) && Shaped(w) && PcOk(w, k, s) && CanMove(w, k, s, Guard(c, pick))
    ensures PcOk(WorldAfter(w, k, s, Guard(c, pick)), CallAfter(w, k, s, Guard(c, pick)), s)
  {
    AttachGoesOn(w, k.dir, k.dir, s, c, Guardian);
    if pick == Default {
      GuardLeaks(w, k.dir, s, c);
    }
  }

  lemma GuardMoves(w: World, k: Call, s: Name, m: Move)
    requires m.Guard? && CanMove(w, k, s, m)
    requires Shaped(w) && LeaksOk(w) && FrameOk(w, k) && PcOk(w, k, s) && OrderOk(w, k) && ErrOk(k)
    ensures MoverOk(w, k, WorldAfter(w, k, s, m), CallAfter(w, k, s, m), s)
  {
    var w', k' := WorldAfter(w, k, s, m), CallAfter(w, k, s, m);
    AttachGoesOn(w, k.dir, k.dir, s, m.chan, Guardian);
    PcMoves(k, k', s);
    GuardPcOk(w, k, s, m.chan, m.pick);
    OrderStays(w, k, w', k', Some(s));
  }

  lemma SubscribePcOk(w: World, k: Call, s: Name, c: nat)
    requires Shaped(w) && PcOk(w, k, s) && CanMove(w, k, s, Subscribe(c)) && k.begin <= |w.log|
    ensures PcOk(WorldAfter(w, k, s, Subscribe(c)), CallAfter(w, k, s, Subscribe(c)), s)
  {
    AttachGoesOn(w, k.dir, k.dir, k.pcs[s].on, c, Waiter(s));
    LeakStays(w, Attach(w, k.dir, k.pcs[s].on, c, Waiter(s)), k.dir, s);
  }

  lemma SubscribeMoves(w: World, k: Call, s: Name, m: Move)
    requires m.Subscribe? && CanMove(w, k, s, m)
    requires Shaped(w) && FrameOk(w, k) && PcOk(w, k, s) && OrderOk(w, k) && ErrOk(k)
    ensures MoverOk(w, k, WorldAfter(w, k, s, m), CallAfter(w, k, s, m), s)
  {
    var w', k' := WorldAfter(w, k, s, m), CallAfter(w, k, s, m);
    AttachGoesOn(w, k.dir, k.dir, k.pcs[s].on, m.chan, Waiter(s));
    PcMoves(k, k', s);
    SubscribePcOk(w, k, s, m.chan);
    OrderStays(w, k, w', k', Some(s));
  }

  /** What a waiter receives is the truth: nil from a goal that holds, and an error only
      from a goroutine that published its failure within this call. */
  lemma ReceivedIsTrue(w: World, k: Call, s: Name, d: Name, c: nat)
    requires ChanOk(w, c) && ListOk(w, k.dir, d) && OrderOk(w, k)
    requires OwnChannel(w, k, s, d, c) && w.heap[c].Readable()
    ensures if |w.heap[c].sent| > 0 then Failed(k, d) else Done(w, k.dir, d)
  {
    var u, ch := w.subs[c], w.heap[c];
    if u.live {
      TellIsTheLog(w.log[u.at..], k.dir, d);
      assert ch.closed ==> Owed(w, c) == [];
      assert |ch.sent| > 0 ==> (ch.sent + Owed(w, c))[0] == ch.sent[0];
      var told := if |ch.sent| > 0 then Published(k.dir, d, Some(ch.sent[0])) else Published(k.dir, d, None);
      assert told in w.log[u.at..];
      var i :| 0 <= i < |w.log[u.at..]| && w.log[u.at..][i] == told;
      assert EventOk(w, k, u.at + i) && w.log[u.at + i] == told;
      assert |ch.sent| > 0 ==> FailedWith(k, d, ch.sent[0]);
    }
  }

  /** Whoever hears of a failure has somebody to blame. */
  lemma ReceivedBlame(k: Call, w': World, k': Call, s: Name, d: Name)
    requires Failed(k, d) && CallGoesOn(k, k', Some(s))
    requires s in w'.specs && d in Prereqs(w'.specs, k'.dir, s)
    ensures Blamed(w', k', s, Unavailable(k'.dir, s, d))
  {
    var e :| FailedWith(k, d, e);
    assert FailedWith(k', d, e);
  }

  lemma ReceiveErrorPcOk(w: World, k: Call, s: Name)
    requires Shaped(w) && PcOk(w, k, s) && CanMove(w, k, s, Receive) && |w.heap[k.pcs[s].chan].sent| > 0
    requires CallGoesOn(k, CallAfter(w, k, s, Receive), Some(s)) && Failed(k, k.pcs[s].on)
    ensures PcOk(WorldAfter(w, k, s, Receive), CallAfter(w, k, s, Receive), s)
  {
    var w', k' := WorldAfter(w, k, s, Receive), CallAfter(w, k, s, Receive);
    DrainGoesOn(w, k.dir, k.pcs[s].chan, Some(s));
    LeakStays(w, w', k.dir, s);
    ReceivedBlame(k, w', k', s, k.pcs[s].on);
  }

  lemma ReceiveNilPcOk(w: World, k: Call, s: Name)
    requires Shaped(w) && PcOk(w, k, s) && CanMove(w, k, s, Receive) && |w.heap[k.pcs[s].chan].sent| == 0
    requires Done(w, k.dir, k.pcs[s].on)
    ensures PcOk(WorldAfter(w, k, s, Receive), CallAfter(w, k, s, Receive), s)
  {
    DrainGoesOn(w, k.dir, k.pcs[s].chan, Some(s));
    LeakStays(w, WorldAfter(w, k, s, Receive), k.dir, s);
  }

  lemma ReceivePcOk(w: World, k: Call, s: Name)
    requires Shaped(w) && ChannelsOk(w) && OrderOk(w, k)
    requires PcOk(w, k, s) && CanMove(w, k, s, Receive)
    requires CallGoesOn(k, CallAfter(w, k, s, Receive), Some(s))
    ensures PcOk(WorldAfter(w, k, s, Receive), CallAfter(w, k, s, Receive), s)
  {
    var on, c := k.pcs[s].on, k.pcs[s].chan;
    ReceivedIsTrue(w, k, s, on, c);
    if |w.heap[c].sent| > 0 {
      ReceiveErrorPcOk(w, k, s);
    } else {
      ReceiveNilPcOk(w, k, s);
    }
  }

  lemma ReceiveMoves(w: World, k: Call, s: Name, m: Move)
    requires m.Receive? && CanMove(w, k, s, m)
    requires Shaped(w) && ChannelsOk(w) && FrameOk(w, k) && PcOk(w, k, s) && OrderOk(w, k) && ErrOk(k)
    ensures MoverOk(w, k, WorldAfter(w, k, s, m), CallAfter(w, k, s, m), s)
  {
    var w', k' := WorldAfter(w, k, s, m), CallAfter(w, k, s, m);
    DrainGoesOn(w, k.dir, k.pcs[s].chan, Some(s));
    PcMoves(k, k', s);
    ReceivePcOk(w, k, s);
    OrderStays(w, k, w', k', Some(s));
  }

  /** Everything that is waited for and done was done earlier in the log. */
  lemma DoneIsPreceded(w: World, k: Call, s: Name)
    requires Shaped(w) && OrderOk(w, k) && s in w.specs && k.begin <= |w.log|
    requires AllDone(w, k.dir, Prereqs(w.specs, k.dir, s))
    ensures Preceded(w, k, s, |w.log|)
  {
    assert w.log[k.begin..|w.log|] == w.log[k.begin..];
    forall d | d in Prereqs(w.specs, k.dir, s) && d !in k.at0
      ensures Published(k.dir, d, None) in w.log[k.begin..]
    {
      assert Done(w, k.dir, d) && Earned(w, k, d);
    }
  }

  lemma InvokeGoesOn(w: World, goal: Dir, dir: Dir, s: Name, n: nat, deps: set<Name>)
    ensures WorldGoesOn(w, Invoke(w, dir, s, n, deps), goal, None)
    ensures forall t :: Done(Invoke(w, dir, s, n, deps), goal, t) <==> Done(w, goal, t)
  {
  }

  lemma TryIsTried(w: World, k: Call, s: Name)
    requires k.begin <= |w.log| && PcOk(w, k, s) && CanMove(w, k, s, Try)
    ensures Tried(WorldAfter(w, k, s, Try), CallAfter(w, k, s, Try), s, k.pcs[s].attempt)
  {
    var n, w' := k.pcs[s].attempt, WorldAfter(w, k, s, Try);
    forall j | 1 <= j <= n ensures Invoked(k.dir, s, j, Passed(w.specs, k.dir, s)) in w'.log[k.begin..] {
      if j < n {
        LogKeeps(w.log, w'.log, k.begin, Invoked(k.dir, s, j, Passed(w.specs, k.dir, s)));
      } else {
        assert w'.log[k.begin..][|w.log| - k.begin] == Invoked(k.dir, s, n, Passed(w.specs, k.dir, s));
      }
    }
  }

  lemma TryGoesOn(w: World, k: Call, s: Name)
    requires CanMove(w, k, s, Try)
    ensures WorldGoesOn(w, WorldAfter(w, k, s, Try), k.dir, Some(s))
    ensures forall t :: Done(WorldAfter(w, k, s, Try), k.dir, t) <==> Done(w, k.dir, t)
  {
    InvokeGoesOn(w, k.dir, k.dir, s, k.pcs[s].attempt, if k.dir.Boot? then k.pcs[s].deps else {});
  }

  /** Without a success up to the last attempt there is none. */
  lemma ExhaustedIsBlamed(w: World, k: Call, s: Name, n: nat)
    requires s in w.specs && n == MaxTries(w.specs[s].retries) && NoWins(k, s, n) && Tried(w, k, s, n)
    ensures Blamed(w, k, s, Exhaustion(k.dir, s, n)) && Announced(k.dir, s, Exhaustion(k.dir, s, n))
  {
  }

  lemma TryPcOk(w: World, k: Call, s: Name)
    requires k.begin <= |w.log| && PcOk(w, k, s) && CanMove(w, k, s, Try)
    ensures PcOk(WorldAfter(w, k, s, Try), CallAfter(w, k, s, Try), s)
  {
    var w', k', n := WorldAfter(w, k, s, Try), CallAfter(w, k, s, Try), k.pcs[s].attempt;
    TryIsTried(w, k, s);
    LeakStays(w, w', k.dir, s);
    TryGoesOn(w, k, s);
    if (s, n) !in k.wins && n >= w.specs[s].retries {
      ExhaustedIsBlamed(w', k', s, n);
    }
  }

  lemma TryEventOk(w: World, k: Call, s: Name)
    requires Shaped(w) && FrameOk(w, k) && OrderOk(w, k) && PcOk(w, k, s) && CanMove(w, k, s, Try)
    ensures EventOk(WorldAfter(w, k, s, Try), CallAfter(w, k, s, Try), |w.log|)
  {
    var w' := WorldAfter(w, k, s, Try);
    DoneIsPreceded(w, k, s);
    assert w'.log[k.begin..|w.log|] == w.log[k.begin..|w.log|];
  }

  lemma TryKeepsOrder(w: World, k: Call, s: Name)
    requires Shaped(w) && FrameOk(w, k) && OrderOk(w, k) && PcOk(w, k, s) && CanMove(w, k, s, Try)
    requires CallGoesOn(k, CallAfter(w, k, s, Try), Some(s))
    ensures OrderOk(WorldAfter(w, k, s, Try), CallAfter(w, k, s, Try))
  {
    var w', k' := WorldAfter(w, k, s, Try), CallAfter(w, k, s, Try);
    TryGoesOn(w, k, s);
    TryEventOk(w, k, s);
    OrderGrows(w, k, w', k', s, w'.log[|w.log|]);
  }

  lemma TryMoves(w: World, k: Call, s: Name, m: Move)
    requires m.Try? && CanMove(w, k, s, m)
    requires Shaped(w) && FrameOk(w, k) && PcOk(w, k, s) && OrderOk(w, k) && ErrOk(k)
    ensures MoverOk(w, k, WorldAfter(w, k, s, m), CallAfter(w, k, s, m), s)
  {
    var w', k' := WorldAfter(w, k, s, m), CallAfter(w, k, s, m);
    TryGoesOn(w, k, s);
    PcMoves(k, k', s);
    TryPcOk(w, k, s);
    TryKeepsOrder(w, k, s);
  }

  lemma AnnounceGoesOn(w: World, dir: Dir, s: Name, err: Option<Error>)
    requires s in w.bases && !AtGoal(dir, w.bases[s])
    ensures WorldGoesOn(w, Announce(w, dir, s, err), dir, Some(s))
    ensures Done(Announce(w, dir, s, err), dir, s) <==> err.None?
  {
  }

  lemma PublishIsNew(w: World, k: Call, s: Name)
    requires OrderOk(w, k) && PcOk(w, k, s) && CanMove(w, k, s, Publish)
    ensures forall i :: k.begin <= i < |w.log| ==> w.log[i] != Published(k.dir, s, k.pcs[s].err)
  {
    forall i | k.begin <= i < |w.log| ensures w.log[i] != Published(k.dir, s, k.pcs[s].err) {
      assert EventOk(w, k, i);
    }
  }

  lemma PublishEventOk(w: World, k: Call, s: Name)
    requires Shaped(w) && OrderOk(w, k) && k.begin <= |w.log| && PcOk(w, k, s) && CanMove(w, k, s, Publish)
    requires AllDone(w, k.dir, k.at0)
    ensures EventOk(WorldAfter(w, k, s, Publish), CallAfter(w, k, s, Publish), |w.log|)
  {
    var w', k' := WorldAfter(w, k, s, Publish), CallAfter(w, k, s, Publish);
    var err := k.pcs[s].err;
    if err.None? {
      AnnounceGoesOn(w, k.dir, s, err);
      assert w'.log[k.begin..|w.log|] == w.log[k.begin..|w.log|];
      DoneIsPreceded(w, k, s);
    } else {
      assert FailedWith(k', s, err.value);
    }
  }

  /** Publishing keeps the history right: the success comes last of all it waited for. */
  lemma PublishKeepsOrder(w: World, k: Call, s: Name)
    requires Shaped(w) && FrameOk(w, k) && OrderOk(w, k) && PcOk(w, k, s) && CanMove(w, k, s, Publish)
    requires CallGoesOn(k, CallAfter(w, k, s, Publish), Some(s))
    ensures OrderOk(WorldAfter(w, k, s, Publish), CallAfter(w, k, s, Publish))
  {
    var w', k' := WorldAfter(w, k, s, Publish), CallAfter(w, k, s, Publish);
    var ev := Published(k.dir, s, k.pcs[s].err);
    AnnounceGoesOn(w, k.dir, s, k.pcs[s].err);
    PublishEventOk(w, k, s);
    PublishIsNew(w, k, s);
    if k.pcs[s].err.None? {
      assert w'.log[k.begin..][|w.log| - k.begin] == ev;
      assert Earned(w', k', s);
    }
    OrderGrows(w, k, w', k', s, ev);
  }

  lemma PublishFailurePcOk(w: World, k: Call, s: Name)
    requires FrameOk(w, k) && PcOk(w, k, s) && CanMove(w, k, s, Publish) && k.pcs[s].err.Some?
    requires CallGoesOn(k, CallAfter(w, k, s, Publish), Some(s))
    ensures PcOk(WorldAfter(w, k, s, Publish), CallAfter(w, k, s, Publish), s)
  {
    var w', k' := WorldAfter(w, k, s, Publish), CallAfter(w, k, s, Publish);
    var err := k.pcs[s].err;
    AnnounceGoesOn(w, k.dir, s, err);
    BlameStays(w, k, w', k', Some(s), s, err.value);
    LeakStays(w, w', k.dir, s);
    assert w'.log[|w.log|] == Published(k.dir, s, err);
  }

  lemma PublishPcOk(w: World, k: Call, s: Name)
    requires FrameOk(w, k) && PcOk(w, k, s) && CanMove(w, k, s, Publish)
    requires CallGoesOn(k, CallAfter(w, k, s, Publish), Some(s))
    ensures PcOk(WorldAfter(w, k, s, Publish), CallAfter(w, k, s, Publish), s)
  {
    if k.pcs[s].err.Some? {
      PublishFailurePcOk(w, k, s);
    } else {
      AnnounceGoesOn(w, k.dir, s, None);
    }
  }

  lemma PublishMoves(w: World, k: Call, s: Name, m: Move)
    requires m.Publish? && CanMove(w, k, s, m)
    requires Shaped(w) && FrameOk(w, k) && PcOk(w, k, s) && OrderOk(w, k) && ErrOk(k)
    ensures MoverOk(w, k, WorldAfter(w, k, s, m), CallAfter(w, k, s, m), s)
  {
    var w', k' := WorldAfter(w, k, s, m), CallAfter(w, k, s, m);
    AnnounceGoesOn(w, k.dir, s, k.pcs[s].err);
    PcMoves(k, k', s);
    PublishKeepsOrder(w, k, s);
    PublishPcOk(w, k, s);
  }

  /** Sending a failure and returning from it changes no goal. */
  lemma ServeGoesOn(w: World, goal: Dir, s: Name)
    requires CanServe(w, s)
    ensures WorldGoesOn(w, Worlds.Serve(w, s), goal, Some(s))
    ensures forall t :: Done(Worlds.Serve(w, s), goal, t) <==> Done(w, goal, t)
  {
  }

  lemma ServePcOk(w: World, k: Call, s: Name)
    requires CanMove(w, k, s, Move.Serve) && PcOk(w, k, s)
    requires CallGoesOn(k, CallAfter(w, k, s, Move.Serve), Some(s))
    ensures PcOk(WorldAfter(w, k, s, Move.Serve), CallAfter(w, k, s, Move.Serve), s)
  {
    var w', k' := WorldAfter(w, k, s, Move.Serve), CallAfter(w, k, s, Move.Serve);
    ServeGoesOn(w, k.dir, s);
    LeakStays(w, w', k.dir, s);
    FinishedStays(w, k, w', k', Some(s), s, Some(k.pcs[s].failure));
  }

  lemma ServeMoves(w: World, k: Call, s: Name, m: Move)
    requires m.Serve? && CanMove(w, k, s, m)
    requires FrameOk(w, k) && PcOk(w, k, s) && OrderOk(w, k) && ErrOk(k)
    ensures MoverOk(w, k, WorldAfter(w, k, s, m), CallAfter(w, k, s, m), s)
  {
    var w', k' := WorldAfter(w, k, s, m), CallAfter(w, k, s, m);
    ServeGoesOn(w, k.dir, s);
    PcMoves(k, k', s);
    ServePcOk(w, k, s);
    OrderStays(w, k, w', k', Some(s));
  }

  lemma ReleaseGoesOn(w: World, goal: Dir, s: Name)
    ensures WorldGoesOn(w, Worlds.Release(w, s), goal, Some(s))
    ensures forall t :: Done(Worlds.Release(w, s), goal, t) <==> Done(w, goal, t)
  {
  }

  lemma ReleasePcOk(w: World, k: Call, s: Name)
    requires CanMove(w, k, s, Move.Release) && PcOk(w, k, s)
    requires CallGoesOn(k, CallAfter(w, k, s, Move.Release), Some(s))
    ensures PcOk(WorldAfter(w, k, s, Move.Release), CallAfter(w, k, s, Move.Release), s)
  {
    ReleaseGoesOn(w, k.dir, s);
    FinishedStays(w, k, WorldAfter(w, k, s, Move.Release), CallAfter(w, k, s, Move.Release), Some(s), s,
                  Some(k.pcs[s].failure));
  }

  lemma ReleaseMoves(w: World, k: Call, s: Name, m: Move)
    requires m.Release? && CanMove(w, k, s, m)
    requires FrameOk(w, k) && PcOk(w, k, s) && OrderOk(w, k) && ErrOk(k)
    ensures MoverOk(w, k, WorldAfter(w, k, s, m), CallAfter(w, k, s, m), s)
  {
    var w', k' := WorldAfter(w, k, s, m), CallAfter(w, k, s, m);
    ReleaseGoesOn(w, k.dir, s);
    PcMoves(k, k', s);
    ReleasePcOk(w, k, s);
    OrderStays(w, k, w', k', Some(s));
  }

  /** A step of a goroutine keeps the shared state well-formed. */
  lemma MoveKeepsWorld(w: World, k: Call, s: Name, m: Move)
    requires WorldOk(w) && FrameOk(w, k) && PcOk(w, k, s) && CanMove(w, k, s, m)
    ensures WorldOk(WorldAfter(w, k, s, m))
  {
    if m.Guard? {
      AttachKeeps(w, k.dir, s, m.chan, Guardian);
    } else if m.Subscribe? {
      AttachKeeps(w, k.dir, k.pcs[s].on, m.chan, Waiter(s));
    } else if m.Receive? {
      DrainKeeps(w, k.pcs[s].chan);
    } else if m.Try? {
      InvokeKeeps(w, k.dir, s, k.pcs[s].attempt, if k.dir.Boot? then k.pcs[s].deps else {});
    } else if m.Publish? {
      AnnounceKeeps(w, k.dir, s, k.pcs[s].err);
    } else if m.Serve? {
      ServeKeeps(w, s);
    } else if m.Release? {
      ReleaseKeeps(w, s);
    }
  }

  /** A step of a goroutine is one of those that the lemmas above deal with. */
  lemma MoverMoves(w: World, k: Call, s: Name, m: Move)
    requires Shaped(w) && ChannelsOk(w) && LeaksOk(w) && CanMove(w, k, s, m)
    requires FrameOk(w, k) && PcOk(w, k, s) && OrderOk(w, k) && ErrOk(k)
    ensures MoverOk(w, k, WorldAfter(w, k, s, m), CallAfter(w, k, s, m), s)
  {
    if m.Guard? {
      GuardMoves(w, k, s, m);
    } else if m.Subscribe? {
      SubscribeMoves(w, k, s, m);
    } else if m.Receive? {
      ReceiveMoves(w, k, s, m);
    } else if m.Try? {
      TryMoves(w, k, s, m);
    } else if m.Publish? {
      PublishMoves(w, k, s, m);
    } else if m.Serve? {
      ServeMoves(w, k, s, m);
    } else if m.Release? {
      ReleaseMoves(w, k, s, m);
    } else if m.Report? {
      ReportMoves(w, k, s, m);
    } else {
      LocalMoves(w, k, s, m);
    }
  }

  lemma MoveStays(w: World, k: Call, s: Name, m: Move)
    requires Shaped(w) && ChannelsOk(w) && LeaksOk(w) && CallOk(w, k) && CanMove(w, k, s, m)
    ensures CallOk(WorldAfter(w, k, s, m), CallAfter(w, k, s, m))
  {
    MoverMoves(w, k, s, m);
    CallStays(w, k, WorldAfter(w, k, s, m), CallAfter(w, k, s, m), Some(s));
  }
}
