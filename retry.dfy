/**
 * The retry wrapper of the HDFS adapter: an operation whose error text names a
 * transient cluster state (a NameNode in standby, or a NameNode asking the client
 * to retry) is called again after a fixed pause, up to a budget derived from
 * `retryTimeout`; any other outcome ends the loop at once.
 */
module Retry {
  import opened Errors
  import opened Strings

  /** Initial value of the package variable `retryTimeout`, in seconds. */
  const RetryTimeout: int := 10

  /** Pause between two attempts, in milliseconds. */
  const RetryIntervalMs: nat := 100

  /** Java class names of the two transient HDFS exceptions. */
  const StandbyMarker: string := "org.apache.hadoop.ipc.StandbyException"
  const RetriableMarker: string := "org.apache.hadoop.ipc.RetriableException"

  /**
   * An operation as the wrapper sees it: `fn(k)` is what the `k`-th call
   * (counted from 0) returns, `None` being a nil error.
   */
  type Operation = nat -> Option<Error>

  /** `retriable(err)`: the error text mentions one of the transient exceptions. */
  predicate Retriable(e: Error): (b: bool)
    ensures b <==>
      (exists i :: OccursAt(e.msg, StandbyMarker, i)) || (exists i :: OccursAt(e.msg, RetriableMarker, i))
  {
    ContainsIff(e.msg, StandbyMarker);
    ContainsIff(e.msg, RetriableMarker);
    Contains(e.msg, StandbyMarker) || Contains(e.msg, RetriableMarker)
  }

  /** An outcome that keeps the loop going, budget permitting. */
  predicate Transient(outcome: Option<Error>) {
    outcome.Some? && Retriable(outcome.value)
  }

  /** Number of retries after the first call that `i < retryTimeout*10` admits. */
  function MaxRetries(retryTimeout: int): nat {
    if retryTimeout > 0 then retryTimeout * 10 else 0
  }

  /**
   * `withRetry(fn)` made `calls` calls and returned `err`: every call but the
   * last failed transiently, the result is the last call's, and the loop stopped
   * because that outcome was not transient or because the budget was spent.
   */
  ghost predicate RetryRun(retryTimeout: int, fn: Operation, calls: nat, err: Option<Error>) {
    1 <= calls <= MaxRetries(retryTimeout) + 1 &&
    err == fn(calls - 1) &&
    (forall k :: 0 <= k < calls - 1 ==> Transient(fn(k))) &&
    (!Transient(err) || calls == MaxRetries(retryTimeout) + 1)
  }

  /**
   * `withRetry`: calls `fn`, and while the error is retriable and fewer than
   * `retryTimeout*10` retries were made, sleeps `RetryIntervalMs` and calls again.
   * `calls` and `sleptMs` count the calls made and the time slept.
   */
  method WithRetry(retryTimeout: int, fn: Operation) returns (err: Option<Error>, calls: nat, sleptMs: nat)
    ensures RetryRun(retryTimeout, fn, calls, err)
    ensures sleptMs == RetryIntervalMs * (calls - 1)
  {
    err := fn(0);
    calls, sleptMs := 1, 0;
    var i := 0;
    while err.Some? && Retriable(err.value) && i < retryTimeout * 10
      invariant 0 <= i <= MaxRetries(retryTimeout)
      invariant calls == i + 1 && err == fn(i) && sleptMs == RetryIntervalMs * i
      invariant forall k :: 0 <= k < i ==> Transient(fn(k))
      decreases retryTimeout * 10 - i
    {
      sleptMs := sleptMs + RetryIntervalMs;
      err := fn(i + 1);
      calls := calls + 1;
      i := i + 1;
    }
  }

  /** A marker embedded in a longer message, as the Java side wraps it, still classifies as transient. */
  lemma EmbeddedMarkerIsRetriable(before: string, after: string)
    ensures Retriable(Error(before + StandbyMarker + after))
    ensures Retriable(Error(before + RetriableMarker + after))
  {
    ContainsEmbedded(before, StandbyMarker, after);
    ContainsEmbedded(before, RetriableMarker, after);
  }

  /** A message shorter than both markers, such as a missing-file error, is permanent. */
  lemma ShortMessageIsPermanent(e: Error)
    requires |e.msg| < |StandbyMarker| && |e.msg| < |RetriableMarker|
    ensures !Retriable(e)
  {
    NotContainsLonger(e.msg, StandbyMarker);
    NotContainsLonger(e.msg, RetriableMarker);
  }

  /** A run is determined by the operation: `withRetry` has one possible outcome. */
  lemma RetryRunUnique(retryTimeout: int, fn: Operation, calls1: nat, err1: Option<Error>, calls2: nat, err2: Option<Error>)
    requires RetryRun(retryTimeout, fn, calls1, err1)
    requires RetryRun(retryTimeout, fn, calls2, err2)
    ensures calls1 == calls2 && err1 == err2
  {
  }

  /** The first nil result ends the loop, and nil is what is returned. */
  lemma FirstSuccessEndsRetry(retryTimeout: int, fn: Operation, calls: nat, err: Option<Error>, k: nat)
    requires RetryRun(retryTimeout, fn, calls, err)
    requires k <= MaxRetries(retryTimeout) && fn(k) == None
    requires forall j :: 0 <= j < k ==> Transient(fn(j))
    ensures calls == k + 1 && err == None
  {
  }

  /** A permanent error from the first call is returned after that one call, with no sleep. */
  lemma PermanentErrorNotRetried(retryTimeout: int, fn: Operation, calls: nat, err: Option<Error>)
    requires RetryRun(retryTimeout, fn, calls, err)
    requires fn(0).Some? && !Retriable(fn(0).value)
    ensures calls == 1 && err == fn(0)
    ensures RetryIntervalMs * (calls - 1) == 0
  {
  }

  /** A transient error is returned only once the whole budget of retries was spent. */
  lemma TransientResultSpentBudget(retryTimeout: int, fn: Operation, calls: nat, err: Option<Error>)
    requires RetryRun(retryTimeout, fn, calls, err)
    requires Transient(err)
    ensures calls == MaxRetries(retryTimeout) + 1
    ensures RetryIntervalMs * (calls - 1) == 1000 * (if retryTimeout > 0 then retryTimeout else 0)
  {
  }

  /** An operation that always fails transiently is called 101 times and sleeps 10 seconds under the default timeout. */
  lemma AlwaysTransientUsesDefaultBudget(fn: Operation, calls: nat, err: Option<Error>)
    requires RetryRun(RetryTimeout, fn, calls, err)
    requires forall k: nat :: Transient(fn(k))
    ensures calls == 101 && err == fn(100)
    ensures RetryIntervalMs * (calls - 1) == 10000
  {
  }

  /** Under the default timeout a run makes at most 101 calls and sleeps at most 10 seconds. */
  lemma DefaultRetryBounds(fn: Operation, calls: nat, err: Option<Error>)
    requires RetryRun(RetryTimeout, fn, calls, err)
    ensures 1 <= calls <= 101
    ensures RetryIntervalMs * (calls - 1) <= 10000
  {
  }
}
