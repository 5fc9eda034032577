/** The retry loop around a service's own Start, and the identical one around Stop:
    how often it calls, how long it asks to sleep, and how it ends. */
module Retries {
  datatype Outcome = Succeeded | Exhausted | Cancelled

  /** maxRetries counts attempts, and zero allows one. */
  function MaxTries(retries: nat): (n: nat)
    ensures n >= 1 && n >= retries && (n == 1 || n == retries)
  {
    if retries == 0 then 1 else retries
  }

  const MODULUS := 0x1_0000_0000_0000_0000
  const HALF := 0x8000_0000_0000_0000

  /** Doubling a time.Duration, a 64-bit two's complement integer. */
  function Double(d: int): (r: int)
    requires -HALF <= d < HALF
    ensures -0x8000_0000_0000_0000 <= r < 0x8000_0000_0000_0000
    ensures r - 2 * d in {0, 0x1_0000_0000_0000_0000, -0x1_0000_0000_0000_0000}
  {
    if 2 * d >= HALF then 2 * d - MODULUS else if 2 * d < -HALF then 2 * d + MODULUS else 2 * d
  }

  /** The delay that the loop really asks for before retry number k + 1. */
  function Slept(backoff: int, k: nat): (d: int)
    requires -HALF <= backoff < HALF
    ensures -HALF <= d < HALF
  {
    if k == 0 then backoff else Double(Slept(backoff, k - 1))
  }

  /** The delay before retry number k + 1, were there no overflow. */
  function Delay(backoff: nat, k: nat): (d: nat)
    ensures d >= backoff
  {
    if k == 0 then backoff else 2 * Delay(backoff, k - 1)
  }

  function Pow2(k: nat): (p: nat)
    ensures p > k
  {
    if k == 0 then 1 else 2 * Pow2(k - 1)
  }

  lemma {:induction false} DelayIsExponential(backoff: nat, k: nat)
    ensures Delay(backoff, k) == backoff * Pow2(k)
  {
    if k > 0 {
      DelayIsExponential(backoff, k - 1);
      calc {
        Delay(backoff, k);
        2 * (backoff * Pow2(k - 1));
        backoff * (2 * Pow2(k - 1));
      }
    }
  }

  function Total(sleeps: seq<int>): int {
    if sleeps == [] then 0 else Total(sleeps[..|sleeps| - 1]) + sleeps[|sleeps| - 1]
  }

  /** The delays are the exponential ones up to the n-th iff that one still fits. */
  lemma {:induction false} ExactWhileItFits(backoff: nat, n: nat)
    requires backoff < 0x8000_0000_0000_0000
    ensures (forall k: nat :: k <= n ==> Slept(backoff, k) == Delay(backoff, k)) <==>
            Delay(backoff, n) < 0x8000_0000_0000_0000
  {
    if n > 0 {
      ExactWhileItFits(backoff, n - 1);
    }
    if forall k: nat :: k <= n ==> Slept(backoff, k) == Delay(backoff, k) {
      assert Slept(backoff, n) == Delay(backoff, n);
    }
  }

  /** Exact delays add up to one initial backoff less than the next delay, which is
      backoff * (2^(number of sleeps) - 1). */
  lemma {:induction false} TotalSleep(backoff: nat, sleeps: seq<int>)
    requires forall k :: 0 <= k < |sleeps| ==> sleeps[k] == Delay(backoff, k)
    ensures Total(sleeps) == Delay(backoff, |sleeps|) - backoff
  {
    if sleeps != [] {
      TotalSleep(backoff, sleeps[..|sleeps| - 1]);
    }
  }

  /** The attempt the loop ends with: the first, from the given one on, that succeeds,
      is the last allowed, or is followed by a cancellation. */
  function LastCall(retries: nat, wins: set<nat>, cancels: set<nat>, from: nat := 1): (n: nat)
    requires 1 <= from <= MaxTries(retries)
    ensures from <= n <= MaxTries(retries)
    ensures n in wins || n == MaxTries(retries) || n in cancels
    ensures forall k :: from <= k < n ==> k !in wins && k !in cancels
    decreases MaxTries(retries) - from
  {
    if from in wins || from == MaxTries(retries) || from in cancels then from
    else LastCall(retries, wins, cancels, from + 1)
  }

  /** The first n delays. */
  function Sleeps(backoff: int, n: nat): (s: seq<int>)
    requires -HALF <= backoff < HALF
    ensures |s| == n && forall k :: 0 <= k < n ==> s[k] == Slept(backoff, k)
  {
    if n == 0 then [] else Sleeps(backoff, n - 1) + [Slept(backoff, n - 1)]
  }

  /** wins are the attempts that would succeed, cancels the failed ones after which the
      select takes the cancelled context rather than the timer. */
  method Run(retries: nat, initialBackoff: int, wins: set<nat>, cancels: set<nat>)
    returns (outcome: Outcome, calls: nat, sleeps: seq<int>)
    requires -HALF <= initialBackoff < HALF
    ensures 1 <= calls <= MaxTries(retries)
    ensures forall k :: 1 <= k < calls ==> k !in wins && k !in cancels
    ensures outcome.Succeeded? <==> calls in wins
    ensures outcome.Exhausted? <==> calls !in wins && calls == MaxTries(retries)
    ensures outcome.Cancelled? ==> calls in cancels
    ensures cancels == {} ==> (outcome.Succeeded? <==> exists k :: k in wins && 1 <= k <= MaxTries(retries))
    ensures sleeps == Sleeps(initialBackoff, calls - 1)
    ensures |sleeps| == calls - 1 && (sleeps != [] ==> sleeps[0] == initialBackoff)
    ensures forall k :: 1 <= k < |sleeps| ==>
              && -0x8000_0000_0000_0000 <= sleeps[k] < 0x8000_0000_0000_0000
              && sleeps[k] - 2 * sleeps[k - 1] in {0, 0x1_0000_0000_0000_0000, -0x1_0000_0000_0000_0000}
    ensures calls == LastCall(retries, wins, cancels)
  {
    calls, sleeps := 1, [];
    var ib := initialBackoff;
    var attempts := 1;
    while calls !in wins
      invariant calls == attempts && 1 <= calls <= MaxTries(retries)
      invariant LastCall(retries, wins, cancels) == LastCall(retries, wins, cancels, calls)
      invariant sleeps == Sleeps(initialBackoff, calls - 1) && ib == Slept(initialBackoff, calls - 1)
      decreases MaxTries(retries) - calls
    {
      if attempts >= retries {
        return Exhausted, calls, sleeps;
      }
      if calls in cancels {
        return Cancelled, calls, sleeps;
      }
      sleeps := sleeps + [ib];
      ib := Double(ib);
      calls, attempts := calls + 1, attempts + 1;
    }
    outcome := Succeeded;
  }

  lemma SleptExactly(backoff: nat, n: nat, k: nat)
    requires backoff < 0x8000_0000_0000_0000 && k <= n && Delay(backoff, n) < 0x8000_0000_0000_0000
    ensures Slept(backoff, k) == Delay(backoff, k)
  {
    ExactWhileItFits(backoff, n);
  }

  /** When the longest delay fits, the delays before the given call double exactly, and
      with DelayIsExponential they add up to backoff * (2^(calls - 1) - 1). */
  lemma SleepsFit(retries: nat, backoff: nat, calls: nat)
    requires backoff < 0x8000_0000_0000_0000 && 1 <= calls <= MaxTries(retries)
    requires Delay(backoff, MaxTries(retries) - 1) < 0x8000_0000_0000_0000
    ensures forall k :: 0 <= k < calls - 1 ==> Sleeps(backoff, calls - 1)[k] == Delay(backoff, k)
    ensures Total(Sleeps(backoff, calls - 1)) == Delay(backoff, calls - 1) - backoff
  {
    var sleeps := Sleeps(backoff, calls - 1);
    forall k | 0 <= k < calls - 1 ensures sleeps[k] == Delay(backoff, k) {
      SleptExactly(backoff, MaxTries(retries) - 1, k);
    }
    TotalSleep(backoff, sleeps);
  }
}
