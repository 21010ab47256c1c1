/**
 * Retrying an LLM call with exponential backoff. An error is transient when its message
 * mentions a timeout, a rate limit, an overload or one of the HTTP codes 429, 503 and 504.
 * A transient error is retried after a growing delay. Any other error, the last allowed
 * attempt, or running past the total time budget re-raises the error.
 *
 * The wrapped function is the oracle `call`: `call(k)` is what its k-th invocation (from 0)
 * returns or raises. The clock is `elapsed(k)`, the time since the first invocation began
 * when invocation k raised. The random jitter is `jitter(k)`. Each sleep is recorded in the
 * run's `delays` rather than performed.
 *
 * The run is defined for any classifier `transient`, and its properties are proved for
 * any classifier; `Retry` runs it with `IsTransient`.
 */
module LlmRetry {
  import opened Strings

  datatype Attempt<T> = Success(value: T) | Failure(message: string)
  datatype Outcome<T> = Returned(value: T) | Raised(message: string)

  /** The limits of one retrying call. */
  datatype Settings = Settings(maxRetries: int, baseDelay: real, maxTotalTime: real)

  const DefaultSettings := Settings(3, 0.2, 60.0)
  const ExhaustedMessage := "Failed after all retry attempts"
  const TransientMarkers := ["timeout", "rate", "overloaded", "429", "503", "504"]

  /** The transient-error test, on the lower-cased message. */
  predicate IsTransient(message: string)
  {
    var e := Lower(message);
    Contains(e, "timeout") || Contains(e, "rate") || Contains(e, "overloaded") ||
    Contains(e, "429") || Contains(e, "503") || Contains(e, "504")
  }

  /** An error is transient exactly when its lower-cased message contains one of the markers. */
  lemma IsTransientIff(message: string)
    ensures IsTransient(message) <==>
      exists i :: 0 <= i < |TransientMarkers| && Contains(Lower(message), TransientMarkers[i])
  {
    if IsTransient(message) {
      var e := Lower(message);
      if Contains(e, "timeout") { assert Contains(e, TransientMarkers[0]); }
      else if Contains(e, "rate") { assert Contains(e, TransientMarkers[1]); }
      else if Contains(e, "overloaded") { assert Contains(e, TransientMarkers[2]); }
      else if Contains(e, "429") { assert Contains(e, TransientMarkers[3]); }
      else if Contains(e, "503") { assert Contains(e, TransientMarkers[4]); }
      else { assert Contains(e, TransientMarkers[5]); }
    }
  }

  /** The classification ignores case: a message and its lower-cased form are classified alike. */
  lemma TransientIgnoresCase(message: string)
    ensures IsTransient(Lower(message)) == IsTransient(message)
  {
    assert Lower(Lower(message)) == Lower(message);
  }

  /** The error is re-raised rather than retried. */
  predicate FailsFast(cfg: Settings, transient: bool, attempt: nat, elapsed: real)
  {
    !transient || attempt >= cfg.maxRetries || elapsed > cfg.maxTotalTime
  }

  function Pow2(k: nat): (r: nat)
    ensures r >= 1
  {
    if k == 0 then 1 else 2 * Pow2(k - 1)
  }

  /** The sleep before the retry that follows failed attempt `k`. */
  function Backoff(cfg: Settings, k: nat, jitter: real): real
  {
    cfg.baseDelay * Pow2(k) as real + jitter
  }

  /** What a retrying call ends with, how many times it invoked the function, and its sleeps. */
  datatype Run<T> = Run(outcome: Outcome<T>, calls: nat, delays: seq<real>)

  /** The retrying call from attempt `k` on. */
  function RetriedFrom<T>(cfg: Settings, transient: string -> bool, call: nat -> Attempt<T>, elapsed: nat -> real, jitter: nat -> real, k: nat): Run<T>
    decreases cfg.maxRetries + 1 - k
  {
    if k > cfg.maxRetries then
      Run(Raised(ExhaustedMessage), 0, [])
    else
      match call(k)
      case Success(v) => Run(Returned(v), 1, [])
      case Failure(m) =>
        if FailsFast(cfg, transient(m), k, elapsed(k)) then
          Run(Raised(m), 1, [])
        else
          var rest := RetriedFrom(cfg, transient, call, elapsed, jitter, k + 1);
          Run(rest.outcome, rest.calls + 1, [Backoff(cfg, k, jitter(k))] + rest.delays)
  }

  /**
   * A retrying call from attempt `k` invokes the function at most `maxRetries + 1 - k`
   * times, and not at all once `k` is past `maxRetries`, in which case it raises the
   * exhaustion error. It sleeps once after every invocation but the last.
   */
  lemma {:induction false} RetriedCalls<T>(cfg: Settings, transient: string -> bool, call: nat -> Attempt<T>, elapsed: nat -> real, jitter: nat -> real, k: nat)
    ensures var r := RetriedFrom(cfg, transient, call, elapsed, jitter, k);
      && r.calls <= (if cfg.maxRetries + 1 - k > 0 then cfg.maxRetries + 1 - k else 0)
      && (r.calls == 0 <==> k > cfg.maxRetries)
      && |r.delays| == (if r.calls == 0 then 0 else r.calls - 1)
      && (r.calls == 0 ==> r.outcome == Raised(ExhaustedMessage))
    decreases cfg.maxRetries + 1 - k
  {
    if k <= cfg.maxRetries && call(k).Failure? && !FailsFast(cfg, transient(call(k).message), k, elapsed(k)) {
      RetriedCalls(cfg, transient, call, elapsed, jitter, k + 1);
    }
  }

  /** Attempt `n` raised a transient error within the limits, and the sleep `d` that followed is its backoff. */
  predicate Slept<T>(cfg: Settings, transient: string -> bool, call: nat -> Attempt<T>, elapsed: nat -> real, jitter: nat -> real, n: nat, d: real)
  {
    call(n).Failure? && !FailsFast(cfg, transient(call(n).message), n, elapsed(n)) && d == Backoff(cfg, n, jitter(n))
  }

  /**
   * Every sleep of a retrying call from attempt `k` follows an invocation that raised a
   * transient error within the limits, and lasts the backoff of that attempt.
   */
  lemma {:induction false} RetriedDelays<T>(cfg: Settings, transient: string -> bool, call: nat -> Attempt<T>, elapsed: nat -> real, jitter: nat -> real, k: nat)
    ensures forall j :: 0 <= j < |RetriedFrom(cfg, transient, call, elapsed, jitter, k).delays| ==>
      Slept(cfg, transient, call, elapsed, jitter, k + j, RetriedFrom(cfg, transient, call, elapsed, jitter, k).delays[j])
    decreases cfg.maxRetries + 1 - k
  {
    if k <= cfg.maxRetries && call(k).Failure? && !FailsFast(cfg, transient(call(k).message), k, elapsed(k)) {
      RetriedDelays(cfg, transient, call, elapsed, jitter, k + 1);
      var rest := RetriedFrom(cfg, transient, call, elapsed, jitter, k + 1);
      var r := RetriedFrom(cfg, transient, call, elapsed, jitter, k);
      assert r.delays == [Backoff(cfg, k, jitter(k))] + rest.delays;
      forall j | 0 <= j < |r.delays|
        ensures Slept(cfg, transient, call, elapsed, jitter, k + j, r.delays[j])
      {
        if j > 0 {
          assert r.delays[j] == rest.delays[j - 1];
          assert Slept(cfg, transient, call, elapsed, jitter, (k + 1) + (j - 1), rest.delays[j - 1]);
        }
      }
    }
  }

  /**
   * A retrying call from attempt `k` that invoked the function ends with what its last
   * invocation did: the value it returned, or the error it raised, which failed fast.
   */
  lemma {:induction false} RetriedLast<T>(cfg: Settings, transient: string -> bool, call: nat -> Attempt<T>, elapsed: nat -> real, jitter: nat -> real, k: nat)
    ensures var r := RetriedFrom(cfg, transient, call, elapsed, jitter, k);
      var last := k + r.calls - 1;
      && (r.calls > 0 && r.outcome.Returned? ==> call(last) == Success(r.outcome.value))
      && (r.calls > 0 && r.outcome.Raised? ==>
            call(last) == Failure(r.outcome.message) && FailsFast(cfg, transient(r.outcome.message), last, elapsed(last)))
    decreases cfg.maxRetries + 1 - k
  {
    if k <= cfg.maxRetries && call(k).Failure? && !FailsFast(cfg, transient(call(k).message), k, elapsed(k)) {
      RetriedLast(cfg, transient, call, elapsed, jitter, k + 1);
      RetriedCalls(cfg, transient, call, elapsed, jitter, k + 1);
      var rest := RetriedFrom(cfg, transient, call, elapsed, jitter, k + 1);
      var r := RetriedFrom(cfg, transient, call, elapsed, jitter, k);
      assert r.outcome == rest.outcome && r.calls == rest.calls + 1;
      assert k + r.calls - 1 == (k + 1) + rest.calls - 1;
    }
  }

  /** The function is invoked at most `maxRetries + 1` times, and at least once when `maxRetries >= 0`. */
  lemma CallBound<T>(cfg: Settings, transient: string -> bool, call: nat -> Attempt<T>, elapsed: nat -> real, jitter: nat -> real)
    ensures var r := RetriedFrom(cfg, transient, call, elapsed, jitter, 0);
      r.calls <= (if cfg.maxRetries >= 0 then cfg.maxRetries + 1 else 0) &&
      (cfg.maxRetries >= 0 <==> r.calls >= 1)
  {
    RetriedCalls(cfg, transient, call, elapsed, jitter, 0);
  }

  /** A permanent error on the first invocation is re-raised at once, with no retry. */
  lemma PermanentRaisedAtOnce<T>(cfg: Settings, transient: string -> bool, call: nat -> Attempt<T>, elapsed: nat -> real, jitter: nat -> real)
    requires cfg.maxRetries >= 0 && call(0).Failure? && !transient(call(0).message)
    ensures RetriedFrom(cfg, transient, call, elapsed, jitter, 0) == Run(Raised(call(0).message), 1, [])
  {
  }

  /**
   * The value returned is that of the first invocation that succeeds: every invocation
   * before it raised a transient error within the limits.
   */
  lemma ReturnsFirstSuccess<T>(cfg: Settings, transient: string -> bool, call: nat -> Attempt<T>, elapsed: nat -> real, jitter: nat -> real)
    ensures var r := RetriedFrom(cfg, transient, call, elapsed, jitter, 0);
      r.outcome.Returned? ==>
        && r.calls >= 1
        && call(r.calls - 1) == Success(r.outcome.value)
        && forall j :: 0 <= j < r.calls - 1 ==> call(j).Failure? && transient(call(j).message)
  {
    RetriedCalls(cfg, transient, call, elapsed, jitter, 0);
    RetriedDelays(cfg, transient, call, elapsed, jitter, 0);
    RetriedLast(cfg, transient, call, elapsed, jitter, 0);
    var r := RetriedFrom(cfg, transient, call, elapsed, jitter, 0);
    if r.outcome.Returned? {
      forall j | 0 <= j < r.calls - 1
        ensures call(j).Failure? && transient(call(j).message)
      {
        assert Slept(cfg, transient, call, elapsed, jitter, 0 + j, r.delays[j]);
      }
    }
  }

  /**
   * An error is re-raised only when it is permanent, when it came from the last allowed
   * attempt, or when the time budget was exceeded.
   */
  lemma RaisesOnlyWhenFailingFast<T>(cfg: Settings, transient: string -> bool, call: nat -> Attempt<T>, elapsed: nat -> real, jitter: nat -> real)
    requires cfg.maxRetries >= 0
    ensures var r := RetriedFrom(cfg, transient, call, elapsed, jitter, 0);
      r.outcome.Raised? ==>
        var last := r.calls - 1;
        && r.calls >= 1
        && call(last) == Failure(r.outcome.message)
        && (!transient(r.outcome.message) || last == cfg.maxRetries || elapsed(last) > cfg.maxTotalTime)
  {
    RetriedCalls(cfg, transient, call, elapsed, jitter, 0);
    RetriedLast(cfg, transient, call, elapsed, jitter, 0);
  }

  /** With jitter drawn from [0, 0.1], the sleep before retry k lies in [base * 2^k, base * 2^k + 0.1]. */
  lemma DelaysBounded<T>(cfg: Settings, transient: string -> bool, call: nat -> Attempt<T>, elapsed: nat -> real, jitter: nat -> real)
    requires forall k :: 0.0 <= jitter(k) <= 0.1
    ensures var r := RetriedFrom(cfg, transient, call, elapsed, jitter, 0);
      forall j :: 0 <= j < |r.delays| ==>
        cfg.baseDelay * Pow2(j) as real <= r.delays[j] <= cfg.baseDelay * Pow2(j) as real + 0.1
  {
    RetriedDelays(cfg, transient, call, elapsed, jitter, 0);
  }

  /** A run that made `n` invocations and the sleeps `ds` before going on as `r`. */
  function After<T>(n: nat, ds: seq<real>, r: Run<T>): Run<T>
  {
    Run(r.outcome, r.calls + n, ds + r.delays)
  }

  /** A retried attempt adds one invocation and one sleep in front of the rest of the run. */
  lemma RetriedStep<T>(cfg: Settings, transient: string -> bool, call: nat -> Attempt<T>, elapsed: nat -> real, jitter: nat -> real,
                       k: nat, n: nat, ds: seq<real>)
    requires k <= cfg.maxRetries && call(k).Failure? && !FailsFast(cfg, transient(call(k).message), k, elapsed(k))
    ensures After(n, ds, RetriedFrom(cfg, transient, call, elapsed, jitter, k))
         == After(n + 1, ds + [Backoff(cfg, k, jitter(k))], RetriedFrom(cfg, transient, call, elapsed, jitter, k + 1))
  {
    var rest := RetriedFrom(cfg, transient, call, elapsed, jitter, k + 1);
    assert ds + ([Backoff(cfg, k, jitter(k))] + rest.delays) == (ds + [Backoff(cfg, k, jitter(k))]) + rest.delays;
  }

  /** A run that stops at attempt `k`, by returning, by failing fast or by running out of attempts. */
  lemma RetriedStop<T>(cfg: Settings, transient: string -> bool, call: nat -> Attempt<T>, elapsed: nat -> real, jitter: nat -> real,
                       k: nat, n: nat, ds: seq<real>)
    ensures k > cfg.maxRetries ==>
      After(n, ds, RetriedFrom(cfg, transient, call, elapsed, jitter, k)) == Run(Raised(ExhaustedMessage), n, ds)
    ensures k <= cfg.maxRetries && call(k).Success? ==>
      After(n, ds, RetriedFrom(cfg, transient, call, elapsed, jitter, k)) == Run(Returned(call(k).value), n + 1, ds)
    ensures k <= cfg.maxRetries && call(k).Failure? && FailsFast(cfg, transient(call(k).message), k, elapsed(k)) ==>
      After(n, ds, RetriedFrom(cfg, transient, call, elapsed, jitter, k)) == Run(Raised(call(k).message), n + 1, ds)
  {
    assert ds + [] == ds;
  }

  /** `retry_with_exponential_backoff`. */
  method Retry<T>(cfg: Settings, call: nat -> Attempt<T>, elapsed: nat -> real, jitter: nat -> real)
    returns (outcome: Outcome<T>, calls: nat, delays: seq<real>)
    ensures Run(outcome, calls, delays) == RetriedFrom(cfg, IsTransient, call, elapsed, jitter, 0)
  {
    calls, delays := 0, [];
    var attempt: nat := 0;
    while attempt <= cfg.maxRetries
      invariant calls == attempt
      invariant RetriedFrom(cfg, IsTransient, call, elapsed, jitter, 0)
             == After(calls, delays, RetriedFrom(cfg, IsTransient, call, elapsed, jitter, attempt))
      decreases cfg.maxRetries + 1 - attempt
    {
      RetriedStop(cfg, IsTransient, call, elapsed, jitter, attempt, calls, delays);
      var a := call(attempt);
      if a.Success? {
        return Returned(a.value), calls + 1, delays;
      }
      var transient := IsTransient(a.message);
      if FailsFast(cfg, transient, attempt, elapsed(attempt)) {
        return Raised(a.message), calls + 1, delays;
      }
      RetriedStep(cfg, IsTransient, call, elapsed, jitter, attempt, calls, delays);
      delays := delays + [Backoff(cfg, attempt, jitter(attempt))];
      calls := calls + 1;
      attempt := attempt + 1;
    }
    RetriedStop(cfg, IsTransient, call, elapsed, jitter, attempt, calls, delays);
    outcome := Raised(ExhaustedMessage);
  }
}
