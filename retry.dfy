/**
 * pkg/retry: call a fallible function up to `MaxAttampts` times, waiting
 * between failures with a growing interval, and give up early when the
 * context finishes during a wait.
 *
 * Durations are integer nanoseconds (`time.Duration`); the multiplier is an
 * exact real. The function's answers are the parameter `fn` (the answer to
 * its k-th call, counting from 0) and the context is `doneAfter` (the
 * context finishes during the wait that follows call k) with `ctxErr` its
 * `ctx.Err()`.
 */
module Retry {
  import opened Wrappers
  import opened Errors

  const Millisecond: int := 1_000_000
  const Second: int := 1000 * Millisecond

  datatype RetryConfig = RetryConfig(maxAttempts: int, retryInterval: int, maxInterval: int, multiplier: real)

  /** `DefaultConfig`: three attempts, a first interval of 100ms, multiplier 2, at most a second between calls. */
  const DefaultConfig := RetryConfig(3, 100 * Millisecond, Second, 2.0)

  /** One answer of `fn`. */
  datatype Outcome<T> = Outcome(value: T, err: Option<Error>)

  /** What `Retry` returns, with the number of calls it made and the waits it sat through. */
  datatype Run<T> = Run(value: T, err: Option<Error>, calls: nat, waits: seq<int>)

  /** Go's conversion of a float to an integer type: truncation toward zero. */
  function Trunc(x: real): (r: int)
    ensures x >= 0.0 ==> r as real <= x < r as real + 1.0
    ensures x < 0.0 ==> r as real - 1.0 < x <= r as real
  {
    if x >= 0.0 then x.Floor else -((-x).Floor)
  }

  function Min(a: int, b: int): (r: int)
    ensures r <= a && r <= b && (r == a || r == b)
  {
    if a <= b then a else b
  }

  /** How the interval grows after a wait: as the source writes it, or as intended. */
  datatype Growth = AsWritten | Intended

  /**
   * The interval after a wait. As written, the select case multiplies by the
   * multiplier converted to an integer, and the line after it multiplies by
   * the multiplier again; as intended, the interval is multiplied once.
   */
  function NextInterval(g: Growth, cur: int, cfg: RetryConfig): (r: int)
    ensures r <= cfg.maxInterval
  {
    match g
    case AsWritten => Min(Trunc((cur * Trunc(cfg.multiplier)) as real * cfg.multiplier), cfg.maxInterval)
    case Intended => Min(Trunc(cur as real * cfg.multiplier), cfg.maxInterval)
  }

  /** What the loop still does from call `i` on, with interval `cur`, the last answer `last` and the waits so far. */
  function Loop<T>(cfg: RetryConfig, fn: nat -> Outcome<T>, doneAfter: Option<nat>, ctxErr: Error, g: Growth,
                   i: nat, cur: int, last: Outcome<T>, waits: seq<int>): Run<T>
    decreases if cfg.maxAttempts > i then cfg.maxAttempts - i else 0
  {
    if i >= cfg.maxAttempts then Run(last.value, last.err, i, waits)
    else
      var o := fn(i);
      if o.err.None? then Run(o.value, None, i + 1, waits)
      else if doneAfter == Some(i) then Run(o.value, Some(ctxErr), i + 1, waits)
      else Loop(cfg, fn, doneAfter, ctxErr, g, i + 1, NextInterval(g, cur, cfg), o, waits + [cur])
  }

  /** A whole run, from the first call with the configured interval and Go's zero values. */
  function Runs<T>(cfg: RetryConfig, fn: nat -> Outcome<T>, doneAfter: Option<nat>, ctxErr: Error, g: Growth,
                   zero: T): Run<T>
  {
    Loop(cfg, fn, doneAfter, ctxErr, g, 0, cfg.retryInterval, Outcome(zero, None), [])
  }

  /**
   * `Retry`, with the interval growing after each wait as `g` says: as the
   * source writes it (`AsWritten`), or once per wait as intended
   * (`Intended`). The waits themselves are not performed; `waited` records
   * their lengths.
   */
  method Retry<T>(cfg: RetryConfig, g: Growth, fn: nat -> Outcome<T>, doneAfter: Option<nat>, ctxErr: Error, zero: T)
    returns (result: T, err: Option<Error>, calls: nat, waited: seq<int>)
    ensures Run(result, err, calls, waited) == Runs(cfg, fn, doneAfter, ctxErr, g, zero)
  {
    result, err := zero, None;
    calls, waited := 0, [];
    var currentInterval := cfg.retryInterval;
    var attempt := 1;
    while attempt <= cfg.maxAttempts
      invariant attempt >= 1 && calls == attempt - 1
      invariant Loop(cfg, fn, doneAfter, ctxErr, g, calls, currentInterval, Outcome(result, err), waited)
                == Runs(cfg, fn, doneAfter, ctxErr, g, zero)
      decreases cfg.maxAttempts - attempt
    {
      ghost var i := calls;
      ghost var before := Loop(cfg, fn, doneAfter, ctxErr, g, i, currentInterval, Outcome(result, err), waited);
      var o := fn(attempt - 1);
      result, err := o.value, o.err;
      calls := calls + 1;
      if err.None? {
        assert before == Run(result, None, calls, waited);
        return result, None, calls, waited;
      }
      if doneAfter == Some(attempt - 1) {
        assert before == Run(result, Some(ctxErr), calls, waited);
        return result, Some(ctxErr), calls, waited;
      }
      var next := NextInterval(g, currentInterval, cfg);
      assert before == Loop(cfg, fn, doneAfter, ctxErr, g, calls, next, o, waited + [currentInterval]);
      waited := waited + [currentInterval];
      currentInterval := next;
      attempt := attempt + 1;
    }
  }

  /** `Do`: `Retry` with the default configuration, the interval growing as the source writes it. */
  method Do<T>(fn: nat -> Outcome<T>, doneAfter: Option<nat>, ctxErr: Error, zero: T)
    returns (result: T, err: Option<Error>, calls: nat, waited: seq<int>)
    ensures Run(result, err, calls, waited) == Runs(DefaultConfig, fn, doneAfter, ctxErr, AsWritten, zero)
  {
    result, err, calls, waited := Retry(DefaultConfig, AsWritten, fn, doneAfter, ctxErr, zero);
  }

  /** Every answer from call `i` up to the last attempt is a failure. */
  ghost predicate FailFrom<T>(cfg: RetryConfig, fn: nat -> Outcome<T>, i: nat) {
    forall j: nat :: i <= j < cfg.maxAttempts ==> fn(j).err.Some?
  }

  /**
   * From call `i` on: the calls stay within the attempts, there is one wait
   * per failed call that was not the last one the context allowed, and every
   * wait but the current one is capped by `MaxInterval`.
   */
  lemma {:induction false} LoopShape<T>(cfg: RetryConfig, fn: nat -> Outcome<T>, doneAfter: Option<nat>, ctxErr: Error,
                                        g: Growth, i: nat, cur: int, last: Outcome<T>, waits: seq<int>)
    ensures var r := Loop(cfg, fn, doneAfter, ctxErr, g, i, cur, last, waits);
            && (i <= cfg.maxAttempts ==> i <= r.calls <= cfg.maxAttempts)
            && (i > cfg.maxAttempts ==> r.calls == i)
            && |waits| <= |r.waits| && r.waits[..|waits|] == waits
            && (|r.waits| > |waits| ==> r.waits[|waits|] == cur)
            && (forall k :: |waits| < k < |r.waits| ==> r.waits[k] <= cfg.maxInterval)
    decreases if cfg.maxAttempts > i then cfg.maxAttempts - i else 0
  {
    if i < cfg.maxAttempts && fn(i).err.Some? && doneAfter != Some(i) {
      var next := NextInterval(g, cur, cfg);
      LoopShape(cfg, fn, doneAfter, ctxErr, g, i + 1, next, fn(i), waits + [cur]);
      var r := Loop(cfg, fn, doneAfter, ctxErr, g, i + 1, next, fn(i), waits + [cur]);
      assert r.waits[..|waits| + 1] == waits + [cur];
      assert r.waits[..|waits|] == (waits + [cur])[..|waits|];
    }
  }

  /**
   * `fn` is called at most `MaxAttampts` times, and never when that is not
   * positive; every wait after the first lasts at most `MaxInterval`, and
   * the first lasts `RetyrInterval`.
   */
  lemma CallsAndWaitsBounded<T>(cfg: RetryConfig, fn: nat -> Outcome<T>, doneAfter: Option<nat>, ctxErr: Error,
                                g: Growth, zero: T)
    ensures var r := Runs(cfg, fn, doneAfter, ctxErr, g, zero);
            && r.calls <= (if cfg.maxAttempts > 0 then cfg.maxAttempts else 0)
            && (|r.waits| > 0 ==> r.waits[0] == cfg.retryInterval)
            && forall k :: 0 < k < |r.waits| ==> r.waits[k] <= cfg.maxInterval
  {
    LoopShape(cfg, fn, doneAfter, ctxErr, g, 0, cfg.retryInterval, Outcome(zero, None), []);
  }

  /** With no attempts allowed, nothing is called and the zero value comes back with no error. */
  lemma NoAttempts<T>(cfg: RetryConfig, fn: nat -> Outcome<T>, doneAfter: Option<nat>, ctxErr: Error, g: Growth, zero: T)
    requires cfg.maxAttempts <= 0
    ensures Runs(cfg, fn, doneAfter, ctxErr, g, zero) == Run(zero, None, 0, [])
  {
  }

  /**
   * From call `i` on, when the answers fail up to call `k` and the context
   * stays open until then: a success at `k` is returned at once with no
   * error, the context finishing after `k` returns its error with the last
   * answer, and failures to the end return the last answer's error.
   */
  lemma {:induction false} LoopOutcome<T>(cfg: RetryConfig, fn: nat -> Outcome<T>, doneAfter: Option<nat>, ctxErr: Error,
                                          g: Growth, i: nat, cur: int, last: Outcome<T>, waits: seq<int>, k: nat)
    requires i <= k && (forall j: nat :: i <= j < k ==> fn(j).err.Some? && doneAfter != Some(j))
    ensures var r := Loop(cfg, fn, doneAfter, ctxErr, g, i, cur, last, waits);
            && (k < cfg.maxAttempts && fn(k).err.None? ==> r.value == fn(k).value && r.err.None? && r.calls == k + 1)
            && (k < cfg.maxAttempts && fn(k).err.Some? && doneAfter == Some(k) ==>
                  r.value == fn(k).value && r.err == Some(ctxErr) && r.calls == k + 1)
            && (k == cfg.maxAttempts && i < k ==> r.value == fn(k - 1).value && r.err == fn(k - 1).err && r.calls == k)
    decreases k - i
  {
    if i < k && i < cfg.maxAttempts {
      LoopOutcome(cfg, fn, doneAfter, ctxErr, g, i + 1, NextInterval(g, cur, cfg), fn(i), waits + [cur], k);
    }
  }

  /** The first success is returned at once, with a nil error, after exactly as many calls as it took. */
  lemma FirstSuccessReturned<T>(cfg: RetryConfig, fn: nat -> Outcome<T>, doneAfter: Option<nat>, ctxErr: Error,
                                g: Growth, zero: T, k: nat)
    requires k < cfg.maxAttempts && fn(k).err.None?
    requires forall j: nat :: j < k ==> fn(j).err.Some? && doneAfter != Some(j)
    ensures Runs(cfg, fn, doneAfter, ctxErr, g, zero) == Run(fn(k).value, None, k + 1, Runs(cfg, fn, doneAfter, ctxErr, g, zero).waits)
  {
    LoopOutcome(cfg, fn, doneAfter, ctxErr, g, 0, cfg.retryInterval, Outcome(zero, None), [], k);
  }

  /** A context that finishes during a wait ends the run with its error and the last answer; nothing more is called. */
  lemma ContextStopsRun<T>(cfg: RetryConfig, fn: nat -> Outcome<T>, ctxErr: Error, g: Growth, zero: T, k: nat)
    requires k < cfg.maxAttempts
    requires forall j: nat :: j <= k ==> fn(j).err.Some?
    ensures var r := Runs(cfg, fn, Some(k), ctxErr, g, zero);
            r.value == fn(k).value && r.err == Some(ctxErr) && r.calls == k + 1
  {
    LoopOutcome(cfg, fn, Some(k), ctxErr, g, 0, cfg.retryInterval, Outcome(zero, None), [], k);
  }

  /** When every attempt fails and the context stays open, the last answer and its error come back. */
  lemma AllFailReturnsLast<T>(cfg: RetryConfig, fn: nat -> Outcome<T>, ctxErr: Error, g: Growth, zero: T)
    requires cfg.maxAttempts > 0 && FailFrom(cfg, fn, 0)
    ensures var r := Runs(cfg, fn, None, ctxErr, g, zero);
            var n := cfg.maxAttempts;
            r.value == fn(n - 1).value && r.err == fn(n - 1).err && r.calls == n
  {
    LoopOutcome(cfg, fn, None, ctxErr, g, 0, cfg.retryInterval, Outcome(zero, None), [], cfg.maxAttempts);
  }

  /** Answers that always fail with `e`. */
  function AlwaysFails(e: Error): nat -> Outcome<int> {
    _ => Outcome(0, Some(e))
  }

  /**
   * As written, with the default configuration and three failures, the
   * waits are 100ms, 400ms and 1s: the interval quadruples.
   */
  lemma DefaultWaitsAsWritten(e: Error, ctxErr: Error)
    ensures Runs(DefaultConfig, AlwaysFails(e), None, ctxErr, AsWritten, 0).waits
            == [100 * Millisecond, 400 * Millisecond, Second]
  {
    var cfg, fn, g := DefaultConfig, AlwaysFails(e), AsWritten;
    assert NextInterval(g, 100 * Millisecond, cfg) == 400 * Millisecond;
    assert NextInterval(g, 400 * Millisecond, cfg) == Second;
    assert fn(0) == fn(1) == fn(2) == Outcome(0, Some(e));
    calc {
      Runs(cfg, fn, None, ctxErr, g, 0);
      Loop(cfg, fn, None, ctxErr, g, 0, 100 * Millisecond, Outcome(0, None), []);
      Loop(cfg, fn, None, ctxErr, g, 1, NextInterval(g, 100 * Millisecond, cfg), fn(0), [] + [100 * Millisecond]);
      { assert [] + [100 * Millisecond] == [100 * Millisecond]; }
      Loop(cfg, fn, None, ctxErr, g, 1, 400 * Millisecond, fn(0), [100 * Millisecond]);
      Loop(cfg, fn, None, ctxErr, g, 2, NextInterval(g, 400 * Millisecond, cfg), fn(1), [100 * Millisecond] + [400 * Millisecond]);
      { assert [100 * Millisecond] + [400 * Millisecond] == [100 * Millisecond, 400 * Millisecond]; }
      Loop(cfg, fn, None, ctxErr, g, 2, Second, fn(1), [100 * Millisecond, 400 * Millisecond]);
      Loop(cfg, fn, None, ctxErr, g, 3, NextInterval(g, Second, cfg), fn(2), [100 * Millisecond, 400 * Millisecond, Second]);
    }
  }

  /**
   * As intended, with the default configuration and three failures, the
   * waits double: 100ms, 200ms and 400ms.
   */
  lemma DefaultWaitsDouble(e: Error, ctxErr: Error)
    ensures Runs(DefaultConfig, AlwaysFails(e), None, ctxErr, Intended, 0).waits
            == [100 * Millisecond, 200 * Millisecond, 400 * Millisecond]
  {
    var cfg, fn, g := DefaultConfig, AlwaysFails(e), Intended;
    assert NextInterval(g, 100 * Millisecond, cfg) == 200 * Millisecond;
    assert NextInterval(g, 200 * Millisecond, cfg) == 400 * Millisecond;
    assert fn(0) == fn(1) == fn(2) == Outcome(0, Some(e));
    calc {
      Runs(cfg, fn, None, ctxErr, g, 0);
      Loop(cfg, fn, None, ctxErr, g, 0, 100 * Millisecond, Outcome(0, None), []);
      Loop(cfg, fn, None, ctxErr, g, 1, NextInterval(g, 100 * Millisecond, cfg), fn(0), [] + [100 * Millisecond]);
      { assert [] + [100 * Millisecond] == [100 * Millisecond]; }
      Loop(cfg, fn, None, ctxErr, g, 1, 200 * Millisecond, fn(0), [100 * Millisecond]);
      Loop(cfg, fn, None, ctxErr, g, 2, NextInterval(g, 200 * Millisecond, cfg), fn(1), [100 * Millisecond] + [200 * Millisecond]);
      { assert [100 * Millisecond] + [200 * Millisecond] == [100 * Millisecond, 200 * Millisecond]; }
      Loop(cfg, fn, None, ctxErr, g, 2, 400 * Millisecond, fn(1), [100 * Millisecond, 200 * Millisecond]);
      Loop(cfg, fn, None, ctxErr, g, 3, NextInterval(g, 400 * Millisecond, cfg), fn(2),
           [100 * Millisecond, 200 * Millisecond, 400 * Millisecond]);
    }
  }

  /** Each wait is the one before it grown once by the multiplier (truncated) and capped by `MaxInterval`. */
  predicate GrowsOnce(cfg: RetryConfig, w: seq<int>) {
    forall k :: 0 < k < |w| ==> w[k] == NextInterval(Intended, w[k - 1], cfg)
  }

  lemma {:induction false} IntendedGrowth<T>(cfg: RetryConfig, fn: nat -> Outcome<T>, doneAfter: Option<nat>,
                                             ctxErr: Error, i: nat, cur: int, last: Outcome<T>, waits: seq<int>)
    requires GrowsOnce(cfg, waits) && (|waits| > 0 ==> cur == NextInterval(Intended, waits[|waits| - 1], cfg))
    ensures GrowsOnce(cfg, Loop(cfg, fn, doneAfter, ctxErr, Intended, i, cur, last, waits).waits)
    decreases if cfg.maxAttempts > i then cfg.maxAttempts - i else 0
  {
    if i < cfg.maxAttempts && fn(i).err.Some? && doneAfter != Some(i) {
      var w := waits + [cur];
      forall k | 0 < k < |w|
        ensures w[k] == NextInterval(Intended, w[k - 1], cfg)
      {
        if k < |waits| {
          assert w[k] == waits[k] && w[k - 1] == waits[k - 1];
        }
      }
      IntendedGrowth(cfg, fn, doneAfter, ctxErr, i + 1, NextInterval(Intended, cur, cfg), fn(i), w);
    }
  }

  /** As intended, over a whole run each wait grows the one before it once. */
  lemma RunGrowsOnce<T>(cfg: RetryConfig, fn: nat -> Outcome<T>, doneAfter: Option<nat>, ctxErr: Error, zero: T)
    ensures GrowsOnce(cfg, Runs(cfg, fn, doneAfter, ctxErr, Intended, zero).waits)
  {
    IntendedGrowth(cfg, fn, doneAfter, ctxErr, 0, cfg.retryInterval, Outcome(zero, None), []);
  }
}
