/** Concrete runs in which a retry is due at once although it asked to wait, and in which the
    harness's worker check raises a false alarm. */
module Counterexamples {
  import opened Types
  import opened Arithmetic
  import opened QueueMachine
  import opened QueueInvariants
  import opened QueueTheorems
  import opened HiddenRetry
  import opened FuzzHarness

  /** The call fails job 0, which its worker has claimed once, at clock 1. */
  function FailFirst(retryAfter: I64): Call {
    Call(FailJob(0, 1, WORKER, [], retryAfter), 1)
  }

  /** Job 0 is at its first attempt of two, and page 1 is empty. */
  ghost predicate AtFirstAttempt(s: QState) {
    && 0 in s.jobs && s.jobs[0].status.Processing? && s.jobs[0].worker == Some(WORKER)
    && s.jobs[0].jobId == 0 && s.jobs[0].attempts == 1 && s.jobs[0].maxRetries == 2
    && 1 in s.pages && s.pages[1].jobIds == []
  }

  lemma AllClaimed() returns (s: QState)
    ensures Reachable(s) && AtFirstAttempt(s)
  {
    s := ClaimFirst(256);
    var id: U64 := 0;
    assert id in s.jobs && JobOk(s.key, 2, id, s.jobs[id]);
  }

  lemma RetryEffect(s: QState, retryAfter: I64)
    requires AtFirstAttempt(s)
    ensures var r := StepFail(s, 0, 1, WORKER, [], retryAfter, 1);
      && r.Ok? && 0 in r.value.jobs && r.value.jobs[0].status.Pending? && r.value.jobs[0].jobId == 0
      && r.value.jobs[0].executeAfter == WrappingAdd(1, Backoff(retryAfter, 1))
      && 1 in r.value.pages && r.value.pages[1].jobIds == [0]
  {
  }

  lemma FirstRetry(retryAfter: I64) returns (s: QState, t: QState)
    ensures Reachable(s) && Step(s, FailFirst(retryAfter)) == Ok(t)
    ensures 0 in t.jobs && t.jobs[0].status.Pending? && t.jobs[0].jobId == 0
    ensures t.jobs[0].executeAfter == WrappingAdd(1, retryAfter)
    ensures 1 in t.pages && t.pages[1].jobIds == [0]
  {
    s := AllClaimed();
    RetryEffect(s, retryAfter);
    t := StepFail(s, 0, 1, WORKER, [], retryAfter, 1).value;
    BackoffExact(retryAfter, 1);
  }

  /** The longest delay there is makes the due time wrap around: the job can be claimed again at
      the very moment it failed. */
  lemma WrappedRetryIsDueAtOnce() returns (s: QState, t: QState)
    ensures Reachable(s) && Step(s, FailFirst(I64_MAX)) == Ok(t)
    ensures 0 in t.jobs && t.jobs[0].executeAfter == I64_MIN
    ensures Step(t, Call(ClaimJob(0, 1, WORKER), 1)).Ok?
  {
    s, t := FirstRetry(I64_MAX);
  }

  /** So does a negative delay. */
  lemma NegativeRetryIsDueAtOnce() returns (s: QState, t: QState)
    ensures Reachable(s) && Step(s, FailFirst(-1)) == Ok(t)
    ensures 0 in t.jobs && t.jobs[0].executeAfter == 0
    ensures Step(t, Call(ClaimJob(0, 1, WORKER), 1)).Ok?
  {
    s, t := FirstRetry(-1);
  }

  /** Given a worker other than the latest claimer, the worker check fires on a reachable queue
      nobody has tampered with. */
  lemma WorkerCheckFalseAlarm() returns (s: QState)
    ensures Reachable(s) && 0 in s.jobs && s.jobs[0].status.Processing?
    ensures CheckWorker(Some(s.jobs[0]), WORKER) && !CheckWorker(Some(s.jobs[0]), OWNER)
  {
    s := ClaimFirst(1);
    var id: U64 := 0;
    assert id in s.jobs && s.jobs[id].worker == Some(WORKER);
  }
}
