/** The bounded retry loop of `upload_to_s3` (main.py:117-156). The result
    of each `put_object` call is an oracle: `outcomes[k]` says whether
    attempt `k + 1` succeeded (a `BotoCoreError` or `ClientError` is a
    `false`). `time.sleep(delay)` is counted, not timed. */
module Uploader {

  /** The value `upload_to_s3` returns: one of its two strings, or Python's
      `None` when the loop body never runs (`retries <= 0`). */
  datatype UploadStatus = UploadSuccessful | UploadFailed | NoResult

  /** What one call did: its return value, how many `put_object` calls it
      made and how many times it slept. */
  datatype UploadTrace = UploadTrace(status: UploadStatus, attempts: nat, sleeps: nat)

  /** The default `retries` argument, the one the handler uses (main.py:117, 226). */
  const DefaultRetries: int := 3

  /** Position `k` holds the first success at or after position `from`. */
  predicate FirstSuccessFrom(outcomes: seq<bool>, from: nat, k: nat) {
    from <= k < |outcomes| && outcomes[k] && forall j :: from <= j < k ==> !outcomes[j]
  }

  /** Every attempt in positions `from .. upto - 1` failed. */
  predicate AllFail(outcomes: seq<bool>, from: nat, upto: int) {
    forall j :: from <= j < upto && j < |outcomes| ==> !outcomes[j]
  }

  /** The loop from the iteration at position `i` (attempt `i + 1`) on: a
      success returns at once, a failure sleeps and retries while
      `i + 1 < retries`, and the last failure gives up. */
  function RunFrom(outcomes: seq<bool>, retries: int, i: nat): (t: UploadTrace)
    requires i < retries <= |outcomes|
    ensures t.status != NoResult
    ensures 1 <= t.attempts <= retries - i && t.sleeps == t.attempts - 1
    ensures t.status == UploadSuccessful ==> FirstSuccessFrom(outcomes, i, i + t.attempts - 1)
    ensures t.status == UploadFailed ==> AllFail(outcomes, i, retries) && t.attempts == retries - i
    decreases retries - i
  {
    if outcomes[i] then UploadTrace(UploadSuccessful, 1, 0)
    else if i + 1 < retries then
      var rest := RunFrom(outcomes, retries, i + 1);
      UploadTrace(rest.status, rest.attempts + 1, rest.sleeps + 1)
    else UploadTrace(UploadFailed, 1, 0)
  }

  /** `upload_to_s3(..., retries)`. With no iterations the function falls
      off its end. Otherwise it makes between one and `retries` attempts and
      sleeps once fewer than it attempts, so never after the last one; it
      reports success only right after the first successful attempt, and
      failure only after all `retries` attempts failed. */
  function Upload(outcomes: seq<bool>, retries: int): (t: UploadTrace)
    requires retries <= |outcomes|
    ensures retries <= 0 ==> t == UploadTrace(NoResult, 0, 0)
    ensures retries >= 1 ==> t.status != NoResult && 1 <= t.attempts <= retries && t.sleeps == t.attempts - 1
    ensures t.status == UploadSuccessful ==> FirstSuccessFrom(outcomes, 0, t.attempts - 1)
    ensures t.status == UploadFailed ==> AllFail(outcomes, 0, retries) && t.attempts == retries
  {
    if retries < 1 then UploadTrace(NoResult, 0, 0)
    else RunFrom(outcomes, retries, 0)
  }

  /** Whether any of the first `retries` attempts succeeds. */
  predicate SomeAttemptSucceeds(outcomes: seq<bool>, retries: int) {
    exists k :: 0 <= k < retries && k < |outcomes| && outcomes[k]
  }

  /** With at least one iteration the call succeeds exactly when some
      allowed attempt does, and fails exactly when none does. */
  lemma UploadSucceedsIff(outcomes: seq<bool>, retries: int)
    requires 1 <= retries <= |outcomes|
    ensures Upload(outcomes, retries).status == UploadSuccessful <==> SomeAttemptSucceeds(outcomes, retries)
    ensures Upload(outcomes, retries).status == UploadFailed <==> !SomeAttemptSucceeds(outcomes, retries)
  {
    var t := Upload(outcomes, retries);
    if t.status == UploadSuccessful {
      assert outcomes[t.attempts - 1];
    }
  }

  /** If attempt `k + 1` is the first to succeed, the call makes exactly
      `k + 1` attempts and `k` sleeps and reports success. */
  lemma SuccessAtAttempt(outcomes: seq<bool>, retries: int, k: nat)
    requires retries <= |outcomes|
    requires k < retries && FirstSuccessFrom(outcomes, 0, k)
    ensures Upload(outcomes, retries) == UploadTrace(UploadSuccessful, k + 1, k)
  {
  }

  /** If every allowed attempt fails, the call makes exactly `retries`
      attempts, sleeps `retries - 1` times and reports failure. */
  lemma AllAttemptsFail(outcomes: seq<bool>, retries: int)
    requires 1 <= retries <= |outcomes|
    requires AllFail(outcomes, 0, retries)
    ensures Upload(outcomes, retries) == UploadTrace(UploadFailed, retries, retries - 1)
  {
  }

  /** The loop as written in the source, returning from inside the loop
      body; it agrees with `Upload` on every input. */
  method UploadToS3(outcomes: seq<bool>, retries: int) returns (status: UploadStatus, attempts: nat, sleeps: nat)
    requires retries <= |outcomes|
    ensures UploadTrace(status, attempts, sleeps) == Upload(outcomes, retries)
  {
    status, attempts, sleeps := NoResult, 0, 0;
    var attempt := 1;
    while attempt <= retries
      invariant if retries >= 1 then 1 <= attempt <= retries else attempt == 1
      invariant status == NoResult
      invariant attempts == attempt - 1 && sleeps == attempt - 1
      invariant AllFail(outcomes, 0, attempt - 1)
    {
      attempts := attempts + 1;
      if outcomes[attempt - 1] {
        SuccessAtAttempt(outcomes, retries, attempt - 1);
        status := UploadSuccessful;
        return;
      }
      if attempt < retries {
        sleeps := sleeps + 1;
      } else {
        AllAttemptsFail(outcomes, retries);
        status := UploadFailed;
        return;
      }
      attempt := attempt + 1;
    }
  }
}
