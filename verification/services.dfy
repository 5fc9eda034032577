/** The started/stopped state machine every service embeds: first as a value, with
    boot and shutdown described by one set of functions over a direction, then as
    the class whose methods are proved against those functions. */
module Services {
  import opened Collections
  import opened Errors
  import opened Channels

  /** Which half of a base is meant: Boot is start/Started, Shut is stop/Stopped. */
  datatype Dir = Boot | Shut

  /** The fields of a base that the boot and shutdown protocols read and write, over
      any type C of channel identities. */
  datatype Base<C> = Base(
    started: bool, stopped: bool,
    startedErr: Option<Error>, stoppedErr: Option<Error>,
    startedCs: seq<C>, stoppedCs: seq<C>)

  function Initial<C>(): Base<C> {
    Base(false, true, None, None, [], [])
  }

  predicate AtGoal<C>(dir: Dir, b: Base<C>) {
    if dir.Boot? then b.started else b.stopped
  }

  function Listed<C>(dir: Dir, b: Base<C>): seq<C> {
    if dir.Boot? then b.startedCs else b.stoppedCs
  }

  /** base.start(err) for Boot and base.stop(err) for Shut: a failure is recorded and
      keeps the subscribers, a success drops them, a repeated success does nothing. */
  function Publish<C>(dir: Dir, b: Base<C>, err: Option<Error>): Base<C> {
    match (dir, err)
    case (Boot, Some(_)) => b.(started := false, startedErr := err, stopped := true, stoppedErr := None)
    case (Boot, None) => if b.started then b else Base(true, false, None, None, [], b.stoppedCs)
    case (Shut, Some(_)) => b.(stopped := false, stoppedErr := err)
    case (Shut, None) => if b.stopped then b else Base(false, true, None, None, b.startedCs, [])
  }

  /** The channels that such a call sends to or closes. */
  function Targets<C>(dir: Dir, b: Base<C>, err: Option<Error>): seq<C> {
    if err.None? && AtGoal(dir, b) then [] else Listed(dir, b)
  }

  /** Started() for Boot and Stopped() for Shut, handing out the new channel c. */
  function Subscribe<C>(dir: Dir, b: Base<C>, c: C): Base<C> {
    if AtGoal(dir, b) then b
    else if dir.Boot? then b.(startedCs := b.startedCs + [c])
    else b.(stoppedCs := b.stoppedCs + [c])
  }

  /** No channel would ever be closed twice or sent to after its closing: exactly one
      flag is up, and a base at one of its goals has nobody waiting for that goal. */
  ghost predicate Disciplined<C>(b: Base<C>) {
    && b.started != b.stopped
    && (b.started ==> b.startedCs == [] && b.startedErr == None)
    && (b.stopped ==> b.stoppedCs == [] && b.stoppedErr == None)
  }

  /** A call keeps the discipline exactly when it does not report a failure to reach a
      goal that holds and whose loss strands somebody: start may fail on a running
      service only if nobody waits for it to stop and stop may never fail on a stopped
      one. */
  lemma PublishKeepsDiscipline<C>(dir: Dir, b: Base<C>, err: Option<Error>)
    requires Disciplined(b)
    ensures Disciplined(Publish(dir, b, err)) <==>
            !(err.Some? && AtGoal(dir, b) && (dir.Shut? || b.stoppedCs != []))
  {
  }

  /** The first name that is the service itself, known from before, or listed a second time;
      |deps| when there is none. */
  function FirstOffence(self: Name, known: set<Name>, deps: seq<Name>, from: nat := 0): (k: nat)
    requires from <= |deps|
    ensures from <= k <= |deps|
    ensures forall i :: from <= i < k ==> deps[i] != self && deps[i] !in known && deps[i] !in deps[..i]
    ensures k < |deps| ==> deps[k] == self || deps[k] in known || deps[k] in deps[..k]
    decreases |deps| - from
  {
    if from == |deps| || deps[from] == self || deps[from] in known || deps[from] in deps[..from] then from
    else FirstOffence(self, known, deps, from + 1)
  }

  /** The first k names can be added to what is known: new ones, none twice, none of them self. */
  predicate Addable(self: Name, known: set<Name>, deps: seq<Name>, k: nat) {
    && k <= |deps|
    && self !in deps[..k]
    && (forall i, j :: 0 <= i < j < k ==> deps[i] != deps[j])
    && (forall i :: 0 <= i < k ==> deps[i] !in known)
  }

  lemma AddableUpTo(self: Name, known: set<Name>, deps: seq<Name>, k: nat)
    requires k <= FirstOffence(self, known, deps)
    ensures Addable(self, known, deps, k)
  {
    forall i, j | 0 <= i < j < k ensures deps[i] != deps[j] {
      assert deps[i] == deps[..j][i];
    }
  }

  /** The channels once the first k of them have heard the news. */
  function Delivered(vs: seq<Chan>, err: Option<Error>, k: nat): (r: seq<Chan>)
    ensures |r| == |vs| && forall i :: 0 <= i < |vs| ==> r[i] == if i < k then Deliver(vs[i], err) else vs[i]
  {
    seq(|vs|, i requires 0 <= i < |vs| => if i < k then Deliver(vs[i], err) else vs[i])
  }

  /** Sends to these channels in order get to the k-th, which is full, or past the last. */
  predicate StopsAt(vs: seq<Chan>, k: nat) {
    && k <= |vs|
    && (forall i :: 0 <= i < k ==> vs[i].Backlog() < CAPACITY)
    && (k < |vs| ==> vs[k].Backlog() >= CAPACITY)
  }

  class ServiceBase {
    var name: Name
    var required: bool
    var retries: nat
    var initialBackoff: int
    var directDeps: set<Name>

    var startedCs: seq<Channel>
    var started: bool
    var startedErr: Option<Error>
    var stoppedCs: seq<Channel>
    var stopped: bool
    var stoppedErr: Option<Error>

    /** The listed channels are open, have the documented capacity and are listed once. */
    ghost predicate Valid()
      reads this, startedCs, stoppedCs
    {
      && Open(startedCs)
      && Open(stoppedCs)
      && Apart(startedCs, stoppedCs)
    }

    static ghost predicate Open(cs: seq<Channel>)
      reads cs
    {
      && (forall i :: 0 <= i < |cs| ==> cs[i].Valid() && !cs[i].closed && cs[i].cap == CAPACITY)
      && Distinct(cs)
    }

    static ghost predicate Apart(cs: seq<Channel>, others: seq<Channel>) {
      forall i, j :: 0 <= i < |cs| && 0 <= j < |others| ==> cs[i] != others[j]
    }

    static ghost predicate Sound(cs: seq<Channel>)
      reads cs
    {
      forall i :: 0 <= i < |cs| ==> cs[i].Valid()
    }

    /** The channels as values. */
    static ghost function Values(cs: seq<Channel>): (vs: seq<Chan>)
      requires Sound(cs)
      reads cs
      ensures |vs| == |cs| && forall i :: 0 <= i < |cs| ==> vs[i] == cs[i].Value()
    {
      seq(|cs|, i requires 0 <= i < |cs| && cs[i].Valid() reads cs => cs[i].Value())
    }

    static lemma OpenMore(cs: seq<Channel>, others: seq<Channel>, c: Channel)
      requires Open(cs) && Apart(cs, others) && c !in cs && c !in others
      requires c.Valid() && !c.closed && c.cap == CAPACITY
      ensures Open(cs + [c]) && Apart(cs + [c], others) && Apart(others, cs + [c])
    {
    }

    ghost function View(): Base<Channel>
      reads this
    {
      Base(started, stopped, startedErr, stoppedErr, startedCs, stoppedCs)
    }

    constructor ()
      ensures Valid() && View() == Initial()
      ensures !started && stopped && startedErr == None && stoppedErr == None && startedCs == [] && stoppedCs == []
      ensures name == "" && !required && retries == 0 && initialBackoff == 0 && directDeps == {}
    {
      name, required, retries, initialBackoff, directDeps := "", false, 0, 0, {};
      startedCs, started, startedErr := [], false, None;
      stoppedCs, stopped, stoppedErr := [], true, None;
    }

    /** Adds the names up to the first one that is the service itself or is known already,
        be it from before or from earlier in the list, and panics over that one. */
    method AddDependency(deps: seq<Name>) returns (panic: Option<Error>)
      modifies `directDeps
      ensures panic.None? <==>
              && name !in deps && (forall d :: d in deps ==> d !in old(directDeps))
              && (forall i, j :: 0 <= i < j < |deps| ==> deps[i] != deps[j])
      ensures panic.None? ==> directDeps == old(directDeps) + set d | d in deps
      ensures panic.Some? ==>
                exists k :: 0 <= k < |deps| && Addable(name, old(directDeps), deps, k)
                  && directDeps == old(directDeps) + (set d | d in deps[..k])
                  && (if deps[k] == name then panic.value == DependsOnItself(name)
                      else (deps[k] in old(directDeps) || deps[k] in deps[..k])
                           && panic.value == DuplicateDependency(name, deps[k]))
    {
      ghost var k := FirstOffence(name, directDeps, deps);
      AddableUpTo(name, directDeps, deps, k);
      for i := 0 to |deps|
        invariant i <= k
        invariant directDeps == old(directDeps) + set d | d in deps[..i]
      {
        if deps[i] == name {
          return Some(DependsOnItself(name));
        }
        if deps[i] in directDeps {
          return Some(DuplicateDependency(name, deps[i]));
        }
        assert deps[..i + 1] == deps[..i] + [deps[i]];
        directDeps := directDeps + {deps[i]};
      }
      assert deps[..|deps|] == deps;
      return None;
    }

    /** One send concerns one channel. */
    method SendTo(cs: seq<Channel>, i: nat, e: Error) returns (ok: bool)
      requires Open(cs) && i < |cs|
      modifies cs[i]
      ensures Open(cs) && ok == (old(Values(cs))[i].Backlog() < CAPACITY)
      ensures Values(cs) == if ok then old(Values(cs))[i := Deliver(old(Values(cs))[i], Some(e))] else old(Values(cs))
    {
      assert forall j :: 0 <= j < |cs| && j != i ==> cs[j] != cs[i];
      ok := cs[i].Send(e);
    }

    /** Sends e to the channels in order, up to the first one that is full. */
    method Broadcast(cs: seq<Channel>, e: Error, ghost others: seq<Channel>) returns (served: nat)
      requires Open(cs) && Open(others) && Apart(cs, others)
      modifies cs
      ensures Open(cs) && Open(others) && StopsAt(old(Values(cs)), served)
      ensures Values(cs) == Delivered(old(Values(cs)), Some(e), served)
    {
      ghost var was := Values(cs);
      served := 0;
      while served < |cs|
        invariant Open(cs) && Open(others) && served <= |cs|
        invariant forall i :: 0 <= i < served ==> was[i].Backlog() < CAPACITY
        invariant Values(cs) == Delivered(was, Some(e), served)
      {
        var ok := SendTo(cs, served, e);
        if !ok {
          return;
        }
        served := served + 1;
      }
    }

    /** Closes every channel; none of them may be closed already. */
    method CloseEach(cs: seq<Channel>, ghost others: seq<Channel>)
      requires Open(cs) && Open(others) && Apart(cs, others)
      modifies cs
      ensures Open(others) && Sound(cs)
      ensures Values(cs) == Delivered(old(Values(cs)), None, |cs|)
    {
      for i := 0 to |cs|
        invariant Open(others) && Sound(cs)
        invariant forall j :: 0 <= j < i ==> cs[j].Value() == Deliver(old(cs[j].Value()), None)
        invariant forall j :: i <= j < |cs| ==> cs[j].Value() == old(cs[j].Value())
      {
        cs[i].Close();
      }
    }

    /** base.start. Having updated the flags, it serves the channels in order; when
        served stays below their number it hangs on the first full one, holding the
        base's lock, until somebody drains that channel. */
    method Start(err: Option<Error>) returns (ret: Option<Error>, served: nat)
      requires Valid()
      modifies this`started, this`startedErr, this`stopped, this`stoppedErr, this`startedCs, startedCs
      ensures Valid() && View() == Publish(Boot, old(View()), err)
      ensures err.Some? ==> !started && stopped && startedErr == err && stoppedErr == None
      ensures err.Some? ==> startedCs == old(startedCs)
      ensures err.None? && !old(started) ==> started && !stopped && startedErr == stoppedErr == None && startedCs == []
      ensures err.None? && old(started) ==> View() == old(View())
      ensures Sound(old(startedCs))
      ensures Values(old(startedCs)) ==
              if err.None? && old(started) then old(Values(startedCs))
              else Delivered(old(Values(startedCs)), err, served)
      ensures if err.Some? then StopsAt(old(Values(startedCs)), served)
              else served == if old(started) then 0 else |old(startedCs)|
      ensures err.None? || served == |old(startedCs)| ==> ret == err
    {
      if err.Some? {
        served := StartFailed(err.value);
        return err, served;
      }
      if started {
        return None, 0;
      }
      served := StartSucceeded();
      return None, served;
    }

    method StartFailed(e: Error) returns (served: nat)
      requires Valid()
      modifies this`started, this`startedErr, this`stopped, this`stoppedErr, startedCs
      ensures Valid() && View() == Publish(Boot, old(View()), Some(e))
      ensures Sound(startedCs)
      ensures StopsAt(old(Values(startedCs)), served)
      ensures Values(startedCs) == Delivered(old(Values(startedCs)), Some(e), served)
    {
      started := false;
      startedErr := Some(e);
      stopped := !started;
      stoppedErr := None;
      assert Valid() && Values(startedCs) == old(Values(startedCs));
      served := Broadcast(startedCs, e, stoppedCs);
    }

    method StartSucceeded() returns (served: nat)
      requires Valid() && !started
      modifies this`started, this`startedErr, this`stopped, this`stoppedErr, this`startedCs, startedCs
      ensures Valid() && View() == Publish(Boot, old(View()), None) && served == |old(startedCs)|
      ensures Sound(old(startedCs))
      ensures Values(old(startedCs)) == Delivered(old(Values(startedCs)), None, served)
    {
      started := true;
      startedErr := None;
      stopped := !started;
      stoppedErr := None;
      assert Valid() && Values(startedCs) == old(Values(startedCs));
      served := |startedCs|;
      CloseEach(startedCs, stoppedCs);
      startedCs := [];
    }

    /** base.stop; unlike base.start, a failure leaves the other flag alone. */
    method Stop(err: Option<Error>) returns (ret: Option<Error>, served: nat)
      requires Valid()
      modifies this`started, this`startedErr, this`stopped, this`stoppedErr, this`stoppedCs, stoppedCs
      ensures Valid() && View() == Publish(Shut, old(View()), err)
      ensures err.Some? ==> !stopped && started == old(started) && stoppedErr == err && startedErr == old(startedErr)
      ensures err.Some? ==> stoppedCs == old(stoppedCs)
      ensures err.None? && !old(stopped) ==> stopped && !started && startedErr == stoppedErr == None && stoppedCs == []
      ensures err.None? && old(stopped) ==> View() == old(View())
      ensures Sound(old(stoppedCs))
      ensures Values(old(stoppedCs)) ==
              if err.None? && old(stopped) then old(Values(stoppedCs))
              else Delivered(old(Values(stoppedCs)), err, served)
      ensures if err.Some? then StopsAt(old(Values(stoppedCs)), served)
              else served == if old(stopped) then 0 else |old(stoppedCs)|
      ensures err.None? || served == |old(stoppedCs)| ==> ret == err
    {
      if err.Some? {
        served := StopFailed(err.value);
        return err, served;
      }
      if stopped {
        return None, 0;
      }
      served := StopSucceeded();
      return None, served;
    }

    method StopFailed(e: Error) returns (served: nat)
      requires Valid()
      modifies this`started, this`startedErr, this`stopped, this`stoppedErr, stoppedCs
      ensures Valid() && View() == Publish(Shut, old(View()), Some(e))
      ensures Sound(stoppedCs)
      ensures StopsAt(old(Values(stoppedCs)), served)
      ensures Values(stoppedCs) == Delivered(old(Values(stoppedCs)), Some(e), served)
    {
      stopped := false;
      stoppedErr := Some(e);
      assert Valid() && Values(stoppedCs) == old(Values(stoppedCs));
      served := Broadcast(stoppedCs, e, startedCs);
    }

    method StopSucceeded() returns (served: nat)
      requires Valid() && !stopped
      modifies this`started, this`startedErr, this`stopped, this`stoppedErr, this`stoppedCs, stoppedCs
      ensures Valid() && View() == Publish(Shut, old(View()), None) && served == |old(stoppedCs)|
      ensures Sound(old(stoppedCs))
      ensures Values(old(stoppedCs)) == Delivered(old(Values(stoppedCs)), None, served)
    {
      stopped := true;
      stoppedErr := None;
      started := !stopped;
      startedErr := None;
      assert Valid() && Values(stoppedCs) == old(Values(stoppedCs));
      served := |stoppedCs|;
      CloseEach(stoppedCs, startedCs);
      stoppedCs := [];
    }

    method Started() returns (c: Channel)
      requires Valid()
      modifies `startedCs
      ensures Valid() && fresh(c) && c.Valid() && c.cap == 32
      ensures View() == Subscribe(Boot, old(View()), c)
      ensures startedCs == if started then old(startedCs) else old(startedCs) + [c]
      ensures c.Value() == Chan([], 0, started)
    {
      c := new Channel(CAPACITY);
      if started {
        c.Close();
      } else {
        OpenMore(startedCs, stoppedCs, c);
        startedCs := startedCs + [c];
      }
    }

    method Stopped() returns (c: Channel)
      requires Valid()
      modifies `stoppedCs
      ensures Valid() && fresh(c) && c.Valid() && c.cap == 32
      ensures View() == Subscribe(Shut, old(View()), c)
      ensures stoppedCs == if stopped then old(stoppedCs) else old(stoppedCs) + [c]
      ensures c.Value() == Chan([], 0, stopped)
    {
      c := new Channel(CAPACITY);
      if stopped {
        c.Close();
      } else {
        OpenMore(stoppedCs, startedCs, c);
        stoppedCs := stoppedCs + [c];
      }
    }
  }
}
