/** The fixed-window login limiter, as it works on its own memory. */
module LoginLimiter {
  import opened Common

  /** How many attempts the current window has seen, and when it ends. */
  datatype Window = Window(count: nat, expires: Time)

  type Memory = map<string, Window>

  datatype Policy = Policy(maximumAttempts: int, windowSeconds: int)

  function WindowAfter(memory: Memory, key: string, now: Time, policy: Policy): Window {
    var current := if key in memory then memory[key] else Window(0, now + policy.windowSeconds);
    if now >= current.expires then Window(1, now + policy.windowSeconds) else current.(count := current.count + 1)
  }

  class LoginRateLimiter {
    const policy: Policy
    var memory: Memory

    constructor (policy: Policy)
      ensures this.policy == policy && memory == map[]
    {
      this.policy := policy;
      memory := map[];
    }

    method AllowMemory(key: string, now: Time) returns (allowed: bool)
      modifies this
      ensures memory == After(old(memory), Attempt(key, now), policy)
      ensures allowed == Admits(old(memory), key, now, policy)
    {
      var count, expires := 0, now + policy.windowSeconds;
      if key in memory {
        count, expires := memory[key].count, memory[key].expires;
      }
      if now >= expires {
        count, expires := 0, now + policy.windowSeconds;
      }
      count := count + 1;
      memory := memory[key := Window(count, expires)];
      allowed := count <= policy.maximumAttempts;
    }

    method Reset(key: string)
      modifies this
      ensures memory == After(old(memory), Forget(key), policy)
    {
      memory := memory - {key};
    }
  }

  // ---------------------------------------------------------------- traces

  datatype Call = Attempt(key: string, at: Time) | Forget(key: string)

  function After(memory: Memory, call: Call, policy: Policy): Memory {
    match call
    case Attempt(key, at) => memory[key := WindowAfter(memory, key, at, policy)]
    case Forget(key) => memory - {key}
  }

  predicate Admits(memory: Memory, key: string, now: Time, policy: Policy) {
    WindowAfter(memory, key, now, policy).count <= policy.maximumAttempts
  }

  /** The memory after a trace of calls on a new limiter. */
  function Replayed(calls: seq<Call>, policy: Policy): Memory {
    if calls == [] then map[] else After(Replayed(calls[..|calls| - 1], policy), calls[|calls| - 1], policy)
  }

  /** How many attempts on `key` between `from` and `to`, both included, were admitted. */
  function Admitted(calls: seq<Call>, key: string, from: Time, to: Time, policy: Policy): nat {
    if calls == [] then 0
    else
      var before, last := calls[..|calls| - 1], calls[|calls| - 1];
      Admitted(before, key, from, to, policy)
      + (if last.Attempt? && last.key == key && from <= last.at <= to &&
         Admits(Replayed(before, policy), key, last.at, policy) then 1 else 0)
  }

  /** Time never runs backwards from one attempt to the next. */
  ghost predicate Timed(calls: seq<Call>) {
    forall i, j :: 0 <= i < j < |calls| && calls[i].Attempt? && calls[j].Attempt? ==> calls[i].at <= calls[j].at
  }

  ghost predicate NeverForgotten(calls: seq<Call>, key: string) {
    forall i :: 0 <= i < |calls| ==> calls[i] != Forget(key)
  }

  // ---------------------------------------------------------------- the bounds

  /** The attempts admitted from `from` to `from` plus one window length, given the current window of the
      key. A window that began by `from` is the only one to have contributed; at most one window came
      before one that began later. */
  ghost predicate Bounded(memory: Memory, key: string, admitted: nat, from: Time, policy: Policy) {
    if key !in memory then admitted == 0
    else
      var w := memory[key];
      var start := w.expires - policy.windowSeconds;
      var own := Min(w.count, policy.maximumAttempts);
      && w.count >= 1
      && (start <= from ==> admitted <= own && (admitted > 0 ==> from < w.expires))
      && (from < start <= from + policy.windowSeconds ==> admitted <= policy.maximumAttempts + own)
      && (from + policy.windowSeconds < start ==> admitted <= 2 * policy.maximumAttempts)
  }

  lemma AttemptKeepsBounded(memory: Memory, key: string, at: Time, admitted: nat, from: Time, policy: Policy)
    requires policy.maximumAttempts >= 0 && policy.windowSeconds >= 1 && Bounded(memory, key, admitted, from, policy)
    requires key in memory ==> memory[key].expires - policy.windowSeconds <= at
    requires admitted > 0 ==> from <= at
    ensures var counted := from <= at <= from + policy.windowSeconds && Admits(memory, key, at, policy);
      Bounded(After(memory, Attempt(key, at), policy), key, if counted then admitted + 1 else admitted, from, policy)
  {
  }

  /** The last attempt on a key came no earlier than its window began. */
  lemma {:induction false} WindowsBegan(calls: seq<Call>, key: string, policy: Policy, now: Time)
    requires policy.windowSeconds >= 1
    requires forall i :: 0 <= i < |calls| && calls[i].Attempt? ==> calls[i].at <= now
    ensures var memory := Replayed(calls, policy);
      key in memory ==> memory[key].expires - policy.windowSeconds <= now
  {
    if calls != [] {
      WindowsBegan(calls[..|calls| - 1], key, policy, now);
    }
  }

  lemma {:induction false} AdmittedHappened(
    calls: seq<Call>, key: string, from: Time, to: Time, policy: Policy, now: Time)
    requires forall i :: 0 <= i < |calls| && calls[i].Attempt? ==> calls[i].at <= now
    ensures Admitted(calls, key, from, to, policy) > 0 ==> from <= now
  {
    if calls != [] {
      AdmittedHappened(calls[..|calls| - 1], key, from, to, policy, now);
    }
  }

  lemma {:induction false} TraceBounded(calls: seq<Call>, key: string, from: Time, policy: Policy)
    requires policy.maximumAttempts >= 0 && policy.windowSeconds >= 1 && Timed(calls) && NeverForgotten(calls, key)
    ensures Bounded(Replayed(calls, policy), key, Admitted(calls, key, from, from + policy.windowSeconds, policy), from,
                    policy)
  {
    if calls != [] {
      var before, last := calls[..|calls| - 1], calls[|calls| - 1];
      TraceBounded(before, key, from, policy);
      if last.Attempt? && last.key == key {
        WindowsBegan(before, key, policy, last.at);
        AdmittedHappened(before, key, from, from + policy.windowSeconds, policy, last.at);
        AttemptKeepsBounded(
          Replayed(before, policy), key, last.at, Admitted(before, key, from, from + policy.windowSeconds, policy),
          from, policy);
      } else {
        assert last.key != key;
        assert key in Replayed(calls, policy) <==> key in Replayed(before, policy);
      }
    }
  }

  /** At most twice the maximum get through in any stretch as long as a window, both ends included, however
      the attempts fall and whatever happens to other keys. */
  lemma AtMostTwicePerStretch(calls: seq<Call>, key: string, from: Time, policy: Policy)
    requires policy.maximumAttempts >= 0 && policy.windowSeconds >= 1 && Timed(calls) && NeverForgotten(calls, key)
    ensures Admitted(calls, key, from, from + policy.windowSeconds, policy) <= 2 * policy.maximumAttempts
  {
    TraceBounded(calls, key, from, policy);
  }

  /** Every attempt so far came before its key's current window ends. */
  lemma {:induction false} BeforeWindowEnds(calls: seq<Call>, key: string, policy: Policy)
    requires policy.windowSeconds >= 1 && Timed(calls) && NeverForgotten(calls, key)
    ensures forall i :: 0 <= i < |calls| && calls[i].Attempt? && calls[i].key == key ==>
      key in Replayed(calls, policy) && calls[i].at < Replayed(calls, policy)[key].expires
  {
    if calls != [] {
      var before, last := calls[..|calls| - 1], calls[|calls| - 1];
      BeforeWindowEnds(before, key, policy);
      forall i | 0 <= i < |calls| && calls[i].Attempt? && calls[i].key == key
        ensures key in Replayed(calls, policy) && calls[i].at < Replayed(calls, policy)[key].expires
      {
        if i < |before| {
          assert before[i] == calls[i];
          if last.Attempt? && last.key == key {
            assert calls[i].at <= last.at;
          }
        }
      }
    }
  }

  lemma {:induction false} NobodyYet(calls: seq<Call>, key: string, from: Time, to: Time, policy: Policy)
    requires forall i :: 0 <= i < |calls| && calls[i].Attempt? && calls[i].key == key ==> calls[i].at < from
    ensures Admitted(calls, key, from, to, policy) == 0
  {
    if calls != [] {
      NobodyYet(calls[..|calls| - 1], key, from, to, policy);
    }
  }

  /** Within one window exactly the first `maximumAttempts` attempts get through. */
  lemma {:induction false} OneWindowExactly(calls: seq<Call>, key: string, policy: Policy)
    requires policy.maximumAttempts >= 0 && policy.windowSeconds >= 1 && Timed(calls) && NeverForgotten(calls, key)
    requires key in Replayed(calls, policy)
    ensures var w := Replayed(calls, policy)[key];
      Admitted(calls, key, w.expires - policy.windowSeconds, w.expires, policy) == Min(w.count, policy.maximumAttempts)
  {
    var before, last := calls[..|calls| - 1], calls[|calls| - 1];
    if last.Attempt? && last.key == key {
      var memory := Replayed(before, policy);
      WindowsBegan(before, key, policy, last.at);
      if key in memory && last.at < memory[key].expires {
        OneWindowExactly(before, key, policy);
      } else {
        BeforeWindowEnds(before, key, policy);
        NobodyYet(before, key, last.at, last.at + policy.windowSeconds, policy);
      }
    } else {
      assert last.key != key;
      OneWindowExactly(before, key, policy);
    }
  }

  /** What one more call adds. */
  lemma OneMore(calls: seq<Call>, last: Call, key: string, from: Time, to: Time, policy: Policy)
    ensures Replayed(calls + [last], policy) == After(Replayed(calls, policy), last, policy)
    ensures Admitted(calls + [last], key, from, to, policy) == Admitted(calls, key, from, to, policy)
      + (if last.Attempt? && last.key == key && from <= last.at <= to &&
         Admits(Replayed(calls, policy), key, last.at, policy) then 1 else 0)
  {
    assert (calls + [last])[..|calls|] == calls;
  }

  /** The calls on one key. */
  function On(calls: seq<Call>, key: string): seq<Call> {
    if calls == [] then []
    else On(calls[..|calls| - 1], key) + (if calls[|calls| - 1].key == key then [calls[|calls| - 1]] else [])
  }

  /** Other keys do not matter: the window of a key and the attempts admitted on it are those of a limiter
      that only ever saw this key. */
  lemma {:induction false} OtherKeysDoNotMatter(calls: seq<Call>, key: string, from: Time, to: Time, policy: Policy)
    ensures key in Replayed(calls, policy) <==> key in Replayed(On(calls, key), policy)
    ensures key in Replayed(calls, policy) ==> Replayed(calls, policy)[key] == Replayed(On(calls, key), policy)[key]
    ensures Admitted(calls, key, from, to, policy) == Admitted(On(calls, key), key, from, to, policy)
  {
    if calls != [] {
      var before, last := calls[..|calls| - 1], calls[|calls| - 1];
      OtherKeysDoNotMatter(before, key, from, to, policy);
      assert calls == before + [last];
      OneMore(before, last, key, from, to, policy);
      if last.key == key {
        assert On(calls, key) == On(before, key) + [last];
        OneMore(On(before, key), last, key, from, to, policy);
      } else {
        assert On(calls, key) == On(before, key);
      }
    }
  }

  // ---------------------------------------------------------------- the bound is reached

  function Burst(calls: seq<Call>, key: string, at: Time, n: nat): seq<Call> {
    if n == 0 then calls else Burst(calls, key, at, n - 1) + [Attempt(key, at)]
  }

  lemma {:induction false} BurstGrows(calls: seq<Call>, key: string, at: Time, n: nat)
    ensures |Burst(calls, key, at, n)| == |calls| + n
    ensures forall i :: 0 <= i < |calls| + n ==>
      Burst(calls, key, at, n)[i] == if i < |calls| then calls[i] else Attempt(key, at)
  {
    if n > 0 {
      BurstGrows(calls, key, at, n - 1);
    }
  }

  /** A burst of attempts at one instant that opens a window: all get through up to the maximum. */
  lemma {:induction false} BurstGetsThrough(calls: seq<Call>, key: string, at: Time, n: nat, from: Time, policy: Policy)
    requires policy.windowSeconds >= 1 && n <= policy.maximumAttempts && from <= at <= from + policy.windowSeconds
    requires key in Replayed(calls, policy) ==> Replayed(calls, policy)[key].expires <= at
    ensures var longer := Burst(calls, key, at, n);
      && (n > 0 ==>
           key in Replayed(longer, policy) && Replayed(longer, policy)[key] == Window(n, at + policy.windowSeconds))
      && (n == 0 ==> longer == calls)
      && Admitted(longer, key, from, from + policy.windowSeconds, policy)
        == Admitted(calls, key, from, from + policy.windowSeconds, policy) + n
  {
    hide Replayed, Admitted;
    if n > 0 {
      BurstGetsThrough(calls, key, at, n - 1, from, policy);
      OneMore(Burst(calls, key, at, n - 1), Attempt(key, at), key, from, from + policy.windowSeconds, policy);
    }
  }

  lemma TwoBurstsTimed(key: string, n: nat, later: Time)
    requires later >= 0
    ensures var calls := Burst(Burst([], key, 0, n), key, later, n);
      Timed(calls) && NeverForgotten(calls, key)
  {
    hide Burst;
    var first := Burst([], key, 0, n);
    var calls := Burst(first, key, later, n);
    BurstGrows([], key, 0, n);
    BurstGrows(first, key, later, n);
    forall i | 0 <= i < |calls| ensures calls[i] == Attempt(key, if i < n then 0 else later) {
      assert i < n ==> first[i] == Attempt(key, 0);
    }
  }

  /** The bound of twice the maximum is reached, for every policy: a full window at its start and the next
      one at its start lie within one window length. */
  lemma TwiceIsReached(key: string, policy: Policy)
    requires policy.maximumAttempts >= 1 && policy.windowSeconds >= 1
    ensures var calls :=
      Burst(Burst([], key, 0, policy.maximumAttempts), key, policy.windowSeconds, policy.maximumAttempts);
      && Timed(calls) && NeverForgotten(calls, key)
      && Admitted(calls, key, 0, policy.windowSeconds, policy) == 2 * policy.maximumAttempts
  {
    var n := policy.maximumAttempts;
    var first := Burst([], key, 0, n);
    assert Replayed([], policy) == map[] && Admitted([], key, 0, policy.windowSeconds, policy) == 0;
    hide Burst, Replayed, Admitted;
    BurstGetsThrough([], key, 0, n, 0, policy);
    BurstGetsThrough(first, key, policy.windowSeconds, n, 0, policy);
    TwoBurstsTimed(key, n, policy.windowSeconds);
  }
}
