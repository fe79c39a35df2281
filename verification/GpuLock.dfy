/**
 The GPU lease lock: one expiring Redis key that holds the token of its owner,
 a bounded wait to take it, and a context that reports a lost lock.
 */
module GpuLock {
  import opened Options
  import Traces

  /** `task_id:uuid4`; a token is drawn for each acquire. */
  type Token = nat

  datatype Entry = Entry(token: Token, expires: int)

  /** The Redis key and the server's clock; `used` are the tokens that have held the key. */
  datatype Lock = Lock(key: Option<Entry>, now: int, used: set<Token>)

  const Free := Lock(None, 0, {})

  datatype Step =
    | Tick(seconds: nat)
    | Acquire(token: Token, timeout: int)
    | Renew(token: Token, timeout: int)
    | Release(token: Token)

  /** What GET answers: an expired key is gone. */
  function Holder(m: Lock): Option<Token> {
    if m.key.Some? && m.now < m.key.value.expires then Some(m.key.value.token) else None
  }

  /** SET NX EX, which Redis refuses for a timeout that is not positive. */
  predicate Acquires(m: Lock, timeout: int) {
    Holder(m).None? && timeout > 0
  }

  function Next(m: Lock, st: Step): Lock {
    match st
    case Tick(seconds) => m.(now := m.now + seconds)
    case Acquire(token, timeout) =>
      if Acquires(m, timeout) then m.(key := Some(Entry(token, m.now + timeout)), used := m.used + {token}) else m
    case Renew(token, timeout) =>
      if Holder(m) == Some(token) then m.(key := Some(Entry(token, m.now + timeout))) else m
    case Release(token) => if Holder(m) == Some(token) then m.(key := None) else m
  }

  /** An acquire stops trying once its token holds the key. */
  predicate GoodStep(m: Lock, st: Step) {
    st.Acquire? ==> st.token !in m.used
  }

  ghost predicate IsRun(ms: seq<Lock>, steps: seq<Step>) {
    && |ms| == |steps| + 1 && ms[0] == Free
    && forall k :: 0 <= k < |steps| ==> GoodStep(ms[k], steps[k]) && ms[k + 1] == Next(ms[k], steps[k])
  }

  /** At step `k` the token takes the key. */
  predicate Takes(m: Lock, st: Step, token: Token) {
    st.Acquire? && st.token == token && Acquires(m, st.timeout)
  }

  /** At step `n` the token gives the key back, and is told so. */
  predicate Releases(m: Lock, st: Step, token: Token) {
    st == Release(token) && Holder(m) == Some(token)
  }

  /** The key can be taken exactly when there is none or its time has run out; then the taker has it for its whole timeout. */
  lemma FreeIff(m: Lock, token: Token, timeout: int)
    requires timeout > 0
    ensures Takes(m, Acquire(token, timeout), token) <==> m.key.None? || m.key.value.expires <= m.now
    ensures Takes(m, Acquire(token, timeout), token) ==>
              Next(m, Acquire(token, timeout)).key == Some(Entry(token, m.now + timeout))
    ensures !Takes(m, Acquire(token, timeout), token) ==> Next(m, Acquire(token, timeout)) == m
  {
  }

  /** Only the owner whose time has not run out renews or releases; anyone else changes nothing. */
  lemma OwnedIff(m: Lock, token: Token, timeout: int)
    ensures var owned := m.key.Some? && m.key.value.token == token && m.now < m.key.value.expires;
            && (Releases(m, Release(token), token) <==> owned)
            && Next(m, Release(token)) == (if owned then m.(key := None) else m)
            && Next(m, Renew(token, timeout)) == if owned then m.(key := Some(Entry(token, m.now + timeout))) else m
  {
  }

  // ---- A true release means an unbroken hold ----

  lemma EntryIsAcquire(m: Lock, st: Step, token: Token)
    requires Holder(Next(m, st)) == Some(token) && Holder(m) != Some(token)
    ensures Takes(m, st, token)
  {
  }

  lemma {:induction false} UsedStays(ms: seq<Lock>, steps: seq<Step>, a: nat, b: nat, token: Token)
    requires IsRun(ms, steps) && a <= b < |ms| && token in ms[a].used
    ensures token in ms[b].used
  {
    if a < b {
      UsedStays(ms, steps, a, b - 1, token);
    }
  }

  /** A token takes the key at most once. */
  lemma TakesOnce(ms: seq<Lock>, steps: seq<Step>, a: nat, b: nat, token: Token)
    requires IsRun(ms, steps) && a < |steps| && b < |steps|
    requires Takes(ms[a], steps[a], token) && Takes(ms[b], steps[b], token)
    ensures a == b
  {
    if a < b {
      UsedStays(ms, steps, a + 1, b, token);
    } else if b < a {
      UsedStays(ms, steps, b + 1, a, token);
    }
  }

  /**
   A release that answers true means that its token has held the key at every
   moment since the acquire, whatever expired, was renewed or was tried by
   others in between.
   */
  lemma ReleasedMeansHeld(ms: seq<Lock>, steps: seq<Step>, a: nat, n: nat, token: Token)
    requires IsRun(ms, steps) && a < n < |steps|
    requires Takes(ms[a], steps[a], token) && Releases(ms[n], steps[n], token)
    ensures forall j :: a < j <= n ==> Holder(ms[j]) == Some(token)
  {
    var held := (m: Lock) => Holder(m) == Some(token);
    var k := Traces.LastEntry(ms, held, n);
    assert held(ms[k + 1]) && ms[k + 1] == Next(ms[k], steps[k]);
    EntryIsAcquire(ms[k], steps[k], token);
    TakesOnce(ms, steps, a, k, token);
    assert forall j :: a < j <= n ==> held(ms[j]);
  }

  // ---- The context ----

  datatype Renewal = Extended | Refused | Raised

  datatype Exit = Normal | LockLost | BodyError

  /** How the context ends, from the renewals that ran, the body and the answer of the release. */
  method ExitContext(renewals: seq<Renewal>, bodyFailed: bool, released: bool) returns (exit: Exit, ran: nat)
    ensures exit == Normal <==> !bodyFailed && released && forall k :: 0 <= k < |renewals| ==> renewals[k] == Extended
    ensures exit == BodyError <==> bodyFailed
    ensures ran <= |renewals| && forall k :: 0 <= k < ran - 1 ==> renewals[k] == Extended
    ensures ran < |renewals| ==> ran > 0 && renewals[ran - 1] != Extended
  {
    var lockLost := false;
    ran := 0;
    while ran < |renewals| && !lockLost
      invariant ran <= |renewals|
      invariant forall k :: 0 <= k < ran - 1 ==> renewals[k] == Extended
      invariant lockLost <==> ran > 0 && renewals[ran - 1] != Extended
    {
      if renewals[ran] != Extended {
        lockLost := true;
      }
      ran := ran + 1;
    }
    if !released {
      lockLost := true;
    }
    exit := if bodyFailed then BodyError else if lockLost then LockLost else Normal;
  }

  /** A use of the context that took the key at step `a`, released at step `n` and ended normally. */
  ghost predicate EndsNormally(ms: seq<Lock>, steps: seq<Step>, a: nat, n: nat, token: Token) {
    a < n < |steps| < |ms| && Takes(ms[a], steps[a], token) && Releases(ms[n], steps[n], token)
  }

  /** Two uses that both end normally never overlap. */
  lemma NormalUsesAreDisjoint(ms: seq<Lock>, steps: seq<Step>, a: nat, n: nat, x: Token, b: nat, k: nat, y: Token)
    requires IsRun(ms, steps) && EndsNormally(ms, steps, a, n, x) && EndsNormally(ms, steps, b, k, y) && a != b
    ensures n < b || k < a
  {
    ReleasedMeansHeld(ms, steps, a, n, x);
    ReleasedMeansHeld(ms, steps, b, k, y);
    if x == y {
      TakesOnce(ms, steps, a, b, x);
    }
  }

  // ---- Renewal keeps the lock ----

  /** The token took the key or tried to renew it at step `i`, for `timeout` seconds. */
  predicate Refreshes(st: Step, token: Token, timeout: int) {
    st == Acquire(token, timeout) || st == Renew(token, timeout)
  }

  /** At moment `j` less than the timeout has passed since some refresh from step `a` on. */
  ghost predicate FreshAt(ms: seq<Lock>, steps: seq<Step>, a: nat, j: nat, token: Token, timeout: int)
    requires j < |ms| == |steps| + 1
  {
    exists i :: a <= i < j && Refreshes(steps[i], token, timeout) && ms[j].now < ms[i].now + timeout
  }

  /**
   An owner that renews before the timeout runs out, and does not release, holds
   the key throughout: nobody can take it.
   */
  lemma {:induction false} RenewedInTimeIsHeld(ms: seq<Lock>, steps: seq<Step>, a: nat, n: nat, token: Token, timeout: int)
    requires IsRun(ms, steps) && a < n < |ms| && steps[a] == Acquire(token, timeout) && Takes(ms[a], steps[a], token)
    requires forall j :: a < j <= n ==> FreshAt(ms, steps, a, j, token, timeout)
    requires forall j :: a < j < n ==> steps[j] != Release(token)
    requires forall j :: a < j < n && steps[j].Renew? && steps[j].token == token ==> steps[j].timeout == timeout
    ensures Holder(ms[n]) == Some(token)
    ensures forall i :: a <= i < n && Refreshes(steps[i], token, timeout) ==> ms[n].key.value.expires >= ms[i].now + timeout
  {
    if a + 1 == n {
      assert ms[n] == Next(ms[a], steps[a]);
      assert FreshAt(ms, steps, a, n, token, timeout);
    } else {
      RenewedInTimeIsHeld(ms, steps, a, n - 1, token, timeout);
      NowIsMonotone(ms, steps, n - 1);
      assert FreshAt(ms, steps, a, n, token, timeout);
      UsedStays(ms, steps, a + 1, n - 1, token);
    }
  }

  lemma {:induction false} NowIsMonotone(ms: seq<Lock>, steps: seq<Step>, n: nat)
    requires IsRun(ms, steps) && n < |ms|
    ensures forall i :: 0 <= i <= n ==> ms[i].now <= ms[n].now
  {
    if n > 0 {
      NowIsMonotone(ms, steps, n - 1);
    }
  }

  // ---- Waiting for the lock ----

  function Min(a: real, b: real): real {
    if a < b then a else b
  }

  /** The pause after attempt `i`, if the deadline allows it. */
  function Backoff(retryInterval: real, i: nat): real {
    if i == 0 then retryInterval else Min(2.0 * Backoff(retryInterval, i - 1), 30.0)
  }

  function Doubled(x: real, i: nat): real {
    if i == 0 then x else 2.0 * Doubled(x, i - 1)
  }

  /** The pauses double until they reach half a minute. */
  lemma {:induction false} BackoffDoubles(retryInterval: real, i: nat)
    requires 0.0 <= retryInterval
    ensures 0.0 <= Doubled(retryInterval, i)
    ensures Backoff(retryInterval, i)
            == if i == 0 then retryInterval else if Doubled(retryInterval, i) <= 30.0 then Doubled(retryInterval, i) else 30.0
  {
    if i > 0 {
      BackoffDoubles(retryInterval, i - 1);
    }
  }

  /** The time that the first `n` rounds take besides their pauses. */
  function Spent(spent: nat -> real, n: nat): real {
    if n == 0 then 0.0 else Spent(spent, n - 1) + spent(n - 1)
  }

  function Total(xs: seq<real>): real {
    if xs == [] then 0.0 else Total(xs[..|xs| - 1]) + xs[|xs| - 1]
  }

  lemma TotalAppend(xs: seq<real>, x: real)
    ensures Total(xs + [x]) == Total(xs) + x
  {
    assert (xs + [x])[..|xs|] == xs;
  }

  /** Redis refuses a timeout that is not positive. */
  datatype Outcome = Acquired | TimedOut | RedisError

  /** The pause that a round asks for, given the time left. */
  function Pause(backoff: real, left: real): real {
    if Min(backoff, left) > 0.0 then Min(backoff, left) else 0.0
  }

  /** The pause due after these: the backoff, or the time left if that is less, or none if either is not positive. */
  function Due(sofar: seq<real>, retryInterval: real, maxWait: real, spent: nat -> real): real {
    var backoff, left := Backoff(retryInterval, |sofar|), maxWait - (Total(sofar) + Spent(spent, |sofar| + 1));
    if backoff <= 0.0 || left <= 0.0 then 0.0 else if backoff <= left then backoff else left
  }

  /** Every pause is the one that is due. */
  ghost predicate Paused(pauses: seq<real>, retryInterval: real, maxWait: real, spent: nat -> real) {
    forall i :: 0 <= i < |pauses| ==> pauses[i] == Due(pauses[..i], retryInterval, maxWait, spent)
  }

  lemma PausedOn(pauses: seq<real>, retryInterval: real, maxWait: real, spent: nat -> real, pause: real)
    requires Paused(pauses, retryInterval, maxWait, spent) && pause == Due(pauses, retryInterval, maxWait, spent)
    ensures Paused(pauses + [pause], retryInterval, maxWait, spent)
  {
    forall i | 0 <= i < |pauses + [pause]|
      ensures (pauses + [pause])[..i] == pauses[..i]
    {
    }
    assert pauses[..|pauses|] == pauses;
  }

  lemma PauseIsDue(pauses: seq<real>, retryInterval: real, maxWait: real, spent: nat -> real, now: real)
    requires now == Total(pauses) + Spent(spent, |pauses|) + spent(|pauses|)
    ensures Pause(Backoff(retryInterval, |pauses|), maxWait - now) == Due(pauses, retryInterval, maxWait, spent)
  {
  }

  /** The first `n` attempts find the key taken. */
  ghost predicate TakenFor(world: nat -> Lock, timeout: int, n: nat) {
    forall i: nat :: i < n ==> !Acquires(world(i), timeout)
  }

  /** The wait after `n` rounds of time spent and pauses asked for. */
  ghost predicate Waited(pauses: seq<real>, elapsed: real, maxWait: real, spent: nat -> real, rounds: nat) {
    && 0.0 <= Total(pauses) && Total(pauses) <= (if maxWait > 0.0 then maxWait else 0.0)
    && elapsed == Total(pauses) + Spent(spent, |pauses|) && 0.0 <= Spent(spent, |pauses|) && |pauses| <= rounds
  }

  lemma WaitedOn(pauses: seq<real>, elapsed: real, maxWait: real, spent: nat -> real, rounds: nat, pause: real)
    requires (forall i :: spent(i) >= 0.0) && Spent(spent, rounds) >= maxWait
    requires Waited(pauses, elapsed, maxWait, spent, rounds)
    requires elapsed + spent(|pauses|) < maxWait && 0.0 <= pause <= maxWait - (elapsed + spent(|pauses|))
    ensures |pauses| < rounds
    ensures Waited(pauses + [pause], elapsed + spent(|pauses|) + pause, maxWait, spent, rounds)
  {
    TotalAppend(pauses, pause);
    if rounds == |pauses| {
      assert false;
    }
  }

  /** Where the wait stands: how long it took, that every attempt failed, and that every pause was the one due. */
  ghost predicate Waiting(pauses: seq<real>, elapsed: real, retryInterval: real, maxWait: real, timeout: int,
                          world: nat -> Lock, spent: nat -> real, rounds: nat) {
    && Waited(pauses, elapsed, maxWait, spent, rounds)
    && TakenFor(world, timeout, |pauses|) && Paused(pauses, retryInterval, maxWait, spent)
  }

  lemma WaitingOn(pauses: seq<real>, elapsed: real, retryInterval: real, maxWait: real, timeout: int,
                  world: nat -> Lock, spent: nat -> real, rounds: nat, now: real, pause: real)
    requires (forall i :: spent(i) >= 0.0) && Spent(spent, rounds) >= maxWait
    requires Waiting(pauses, elapsed, retryInterval, maxWait, timeout, world, spent, rounds)
    requires now == elapsed + spent(|pauses|) && now < maxWait && !Acquires(world(|pauses|), timeout)
    requires pause == Pause(Backoff(retryInterval, |pauses|), maxWait - now)
    ensures |pauses| < rounds
    ensures Waiting(pauses + [pause], now + pause, retryInterval, maxWait, timeout, world, spent, rounds)
  {
    PauseIsDue(pauses, retryInterval, maxWait, spent, now);
    PausedOn(pauses, retryInterval, maxWait, spent, pause);
    WaitedOn(pauses, elapsed, maxWait, spent, rounds, pause);
  }

  lemma NoWaitYet(retryInterval: real, maxWait: real, timeout: int, world: nat -> Lock, spent: nat -> real, rounds: nat)
    ensures Waiting([], 0.0, retryInterval, maxWait, timeout, world, spent, rounds)
  {
  }

  /**
   Try to take the key until it is free or `maxWait` has passed.  Attempt `i`
   finds the key as `world(i)`; round `i` takes `spent(i)` besides its pause, and
   by round `rounds` the clock alone has passed `maxWait`.  The wait ends, and
   the pauses it asks for add up to no more than `maxWait`.
   */
  method AcquireGpuLock(token: Token, timeout: int, retryInterval: real, maxWait: real,
                        world: nat -> Lock, spent: nat -> real, ghost rounds: nat)
    returns (outcome: Outcome, after: Lock, pauses: seq<real>, elapsed: real)
    requires (forall i :: spent(i) >= 0.0) && Spent(spent, rounds) >= maxWait
    ensures outcome == RedisError <==> timeout <= 0
    ensures outcome == Acquired <==> Acquires(world(|pauses|), timeout)
    ensures after == Next(world(|pauses|), Acquire(token, timeout))
    ensures |pauses| <= rounds && TakenFor(world, timeout, |pauses|) && Paused(pauses, retryInterval, maxWait, spent)
    ensures Total(pauses) <= if maxWait > 0.0 then maxWait else 0.0
    ensures outcome == TimedOut ==> elapsed >= maxWait && elapsed == Total(pauses) + Spent(spent, |pauses| + 1)
  {
    pauses, elapsed := [], 0.0;
    NoWaitYet(retryInterval, maxWait, timeout, world, spent, rounds);
    var backoff := retryInterval;
    while true
      invariant backoff == Backoff(retryInterval, |pauses|)
      invariant timeout <= 0 ==> |pauses| == 0
      invariant Waiting(pauses, elapsed, retryInterval, maxWait, timeout, world, spent, rounds)
      decreases rounds - |pauses|
    {
      var i := |pauses|;
      after := Next(world(i), Acquire(token, timeout));
      if timeout <= 0 {
        return RedisError, after, pauses, elapsed;
      }
      if Acquires(world(i), timeout) {
        return Outcome.Acquired, after, pauses, elapsed;
      }
      var now := elapsed + spent(i);
      if now >= maxWait {
        return TimedOut, after, pauses, now;
      }
      var pause := Pause(backoff, maxWait - now);
      WaitingOn(pauses, elapsed, retryInterval, maxWait, timeout, world, spent, rounds, now, pause);
      pauses, elapsed := pauses + [pause], now + pause;
      backoff := Min(backoff * 2.0, 30.0);
    }
  }
}
