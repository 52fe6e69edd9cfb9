/** What a whole run of committed calls did, and how the accounts record it. */
module QueueHistory {
  import opened Types
  import opened Arithmetic
  import opened Accounts
  import opened Tallies
  import opened QueueMachine
  import opened QueueInvariants
  import opened QueueTheorems

  datatype Claim = Claim(worker: Pubkey, at: I64)
  datatype Failure = Failure(retryAfter: I64, at: I64)

  /** The claims of job i, in order. */
  ghost function ClaimsOf(calls: seq<Call>, i: U64): seq<Claim> {
    if calls == [] then []
    else
      var before, c := ClaimsOf(calls[..|calls| - 1], i), calls[|calls| - 1];
      if c.op.ClaimJob? && c.op.id == i then before + [Claim(c.op.worker, c.now)] else before
  }

  /** The failures of job i, in order. */
  ghost function FailuresOf(calls: seq<Call>, i: U64): seq<Failure> {
    if calls == [] then []
    else
      var before, c := FailuresOf(calls[..|calls| - 1], i), calls[|calls| - 1];
      if c.op.FailJob? && c.op.id == i then before + [Failure(c.op.retryAfter, c.now)] else before
  }

  /** The number of calls that move some job through its lifecycle. */
  ghost function MovesIn(calls: seq<Call>): nat {
    if calls == [] then 0
    else MovesIn(calls[..|calls| - 1]) + OneIf(IsMove(calls[|calls| - 1].op))
  }

  ghost function MovesOf(calls: seq<Call>, i: U64): nat {
    if calls == [] then 0
    else
      var op := calls[|calls| - 1].op;
      MovesOf(calls[..|calls| - 1], i) + OneIf(IsMove(op) && op.id == i)
  }

  ghost function EnqueuesIn(calls: seq<Call>): nat {
    if calls == [] then 0
    else EnqueuesIn(calls[..|calls| - 1]) + OneIf(calls[|calls| - 1].op.EnqueueJob?)
  }

  /** The number of ids appended to pages: one per enqueue, and one per failure that retries. */
  ghost function PushesIn(g: QState, calls: seq<Call>): nat
    requires After(g, calls).Ok?
  {
    if calls == [] then 0
    else
      var op := calls[|calls| - 1].op;
      var jobs := After(g, calls).value.jobs;
      PushesIn(g, calls[..|calls| - 1])
      + OneIf(op.EnqueueJob? || (op.FailJob? && op.id in jobs && jobs[op.id].status.Pending?))
  }

  ghost predicate ClockNeverGoesBack(calls: seq<Call>) {
    forall a, b | 0 <= a < b < |calls| :: calls[a].now <= calls[b].now
  }

  // ---- Counting ----

  /** One committed call in terms of the totals of what jobs have been through. */
  lemma StepTotals(s: QState, c: Call)
    requires Inv(s) && Step(s, c).Ok?
    ensures var s' := Step(s, c).value;
      && Total(s', Moves) == Total(s, Moves) + OneIf(IsMove(c.op))
      && Total(s', Pushes) == Total(s, Pushes)
           + OneIf(c.op.EnqueueJob? || (c.op.FailJob? && s'.jobs[c.op.id].status.Pending?))
      && s'.queue.jobCount == s.queue.jobCount + OneIf(c.op.EnqueueJob?)
      && s'.queue.maxRetries == s.queue.maxRetries
  {
    var s' := Step(s, c).value;
    if IsMove(c.op) {
      MoveEffect(s, c);
      MovedTotal(s, s', c.op.id, Moves);
      MovedTotal(s, s', c.op.id, Pushes);
    } else {
      OtherEffect(s, c);
      if c.op.EnqueueJob? {
        EnqueueTotal(s, s', Moves);
        EnqueueTotal(s, s', Pushes);
      } else {
        assert Total(s', Moves) == Total(s, Moves);
      }
    }
  }

  ghost predicate Counted(g: QState, calls: seq<Call>, s: QState)
    requires After(g, calls) == Ok(s)
  {
    && MovesIn(calls) == Total(s, Moves)
    && PushesIn(g, calls) == Total(s, Pushes)
    && EnqueuesIn(calls) == s.queue.jobCount
    && s.queue.maxRetries == g.queue.maxRetries
  }

  lemma {:induction false} CountedLast(g: QState, calls: seq<Call>, s: QState, s': QState)
    requires calls != [] && Inv(s) && After(g, calls[..|calls| - 1]) == Ok(s) && After(g, calls) == Ok(s')
    requires Step(s, calls[|calls| - 1]) == Ok(s') && Counted(g, calls[..|calls| - 1], s)
    ensures Counted(g, calls, s')
  {
    var c := calls[|calls| - 1];
    StepTotals(s, c);
    if c.op.FailJob? {
      MoveEffect(s, c);
    }
  }

  lemma {:induction false} RunTotals(g: QState, calls: seq<Call>)
    requires IsGenesis(g) && After(g, calls).Ok?
    ensures Inv(After(g, calls).value) && Counted(g, calls, After(g, calls).value)
  {
    ReachableInv(g, calls);
    if calls != [] {
      var before := calls[..|calls| - 1];
      RunTotals(g, before);
      CountedLast(g, calls, After(g, before).value, After(g, calls).value);
    }
  }

  /** Amortised growth: a run with tail page t has appended at least 256 t ids, and no more than
      the attempts allowed for each enqueued job. */
  lemma AmortisedGrowth(g: QState, calls: seq<Call>)
    requires IsGenesis(g) && After(g, calls).Ok?
    ensures 256 * After(g, calls).value.head.tailIndexSeq <= PushesIn(g, calls)
    ensures PushesIn(g, calls) <= EnqueuesIn(calls) * MaxAttempts(g.queue.maxRetries)
  {
    RunTotals(g, calls);
    TailBound(After(g, calls).value);
  }

  /** Termination: n enqueues allow at most 2 M n lifecycle calls, M being the attempts allowed. */
  lemma LifecycleCallsBounded(g: QState, calls: seq<Call>)
    requires IsGenesis(g) && After(g, calls).Ok?
    ensures MovesIn(calls) <= 2 * MaxAttempts(g.queue.maxRetries) * EnqueuesIn(calls)
  {
    RunTotals(g, calls);
    var s := After(g, calls).value;
    forall i: U64 | i in s.jobs
      ensures Moves(s.jobs[i]) <= 2 * MaxAttempts(g.queue.maxRetries)
    {
    }
    TallyBound(s.jobs, s.queue.jobCount, Moves, 2 * MaxAttempts(g.queue.maxRetries));
  }

  // ---- One job ----

  /** When a job may be claimed again after its n-th failure. */
  ghost function Due(f: Failure, n: U8): I64 {
    WrappingAdd(f.at, Backoff(f.retryAfter, n))
  }

  /** The due times set by successive failures. */
  ghost function Dues(failures: seq<Failure>): (d: seq<I64>)
    requires |failures| <= 255
    ensures |d| == |failures|
  {
    seq(|failures|, k requires 0 <= k < |failures| => Due(failures[k], k + 1))
  }

  /** How a job's record reflects its claims and the due times of its failures so far. */
  ghost predicate JobRecorded(j: JobData, claims: seq<Claim>, dues: seq<I64>, moves: nat) {
    && |claims| == j.attempts
    && moves == Moves(j)
    && |dues| == j.attempts - OneIf(j.status.Processing? || j.status.Completed?)
    && (j.worker.Some? ==> |claims| > 0 && j.worker == Some(claims[|claims| - 1].worker)
                           && j.startedAt == Some(claims[|claims| - 1].at))
    && (j.status.Pending? && j.attempts > 0 ==> j.executeAfter == dues[|dues| - 1])
  }

  ghost predicate Recorded(s: QState, i: U64, claims: seq<Claim>, dues: seq<I64>, moves: nat) {
    if i in s.jobs then JobRecorded(s.jobs[i], claims, dues, moves)
    else claims == [] && dues == [] && moves == 0
  }

  /** Each claim but the first waits for the due time set by the failure before it. */
  ghost predicate Spaced(claims: seq<Claim>, dues: seq<I64>) {
    |claims| <= |dues| + 1 && forall k | 0 < k < |claims| :: claims[k].at >= dues[k - 1]
  }

  lemma JobRecordedMove(j: JobData, j': JobData, c: Call, maxRetries: U8,
                        claims: seq<Claim>, dues: seq<I64>, moves: nat, claims': seq<Claim>, dues': seq<I64>)
    requires IsMove(c.op) && JobEffect(c, maxRetries, j, j') && j.attempts <= 10
    requires j.status.Pending? ==> j.worker.None?
    requires j.status.Processing? ==> j.attempts > 0
    requires JobRecorded(j, claims, dues, moves) && Spaced(claims, dues) && |dues| <= 10
    requires claims' == if c.op.ClaimJob? then claims + [Claim(c.op.worker, c.now)] else claims
    requires dues' == if c.op.FailJob? then dues + [Due(Failure(c.op.retryAfter, c.now), |dues| + 1)] else dues
    ensures JobRecorded(j', claims', dues', moves + 1) && Spaced(claims', dues')
  {
  }

  lemma RecordedStep(s: QState, s': QState, c: Call, i: U64,
                     claims: seq<Claim>, dues: seq<I64>, moves: nat,
                     claims': seq<Claim>, dues': seq<I64>, moves': nat)
    requires Inv(s) && Step(s, c) == Ok(s')
    requires Recorded(s, i, claims, dues, moves) && Spaced(claims, dues) && |dues| <= 10
    requires claims' == if c.op.ClaimJob? && c.op.id == i then claims + [Claim(c.op.worker, c.now)] else claims
    requires dues' == if c.op.FailJob? && c.op.id == i
                      then dues + [Due(Failure(c.op.retryAfter, c.now), |dues| + 1)] else dues
    requires moves' == moves + OneIf(IsMove(c.op) && c.op.id == i)
    ensures Recorded(s', i, claims', dues', moves') && Spaced(claims', dues')
  {
    if !IsMove(c.op) {
      OtherEffect(s, c);
    } else {
      MoveEffect(s, c);
      if c.op.id == i {
        JobRecordedMove(s.jobs[i], s'.jobs[i], c, s.queue.maxRetries, claims, dues, moves, claims', dues');
      }
    }
  }

  ghost predicate RecordedRun(s: QState, calls: seq<Call>, i: U64) {
    && |FailuresOf(calls, i)| <= 255
    && Recorded(s, i, ClaimsOf(calls, i), Dues(FailuresOf(calls, i)), MovesOf(calls, i))
    && Spaced(ClaimsOf(calls, i), Dues(FailuresOf(calls, i)))
  }

  lemma DuesGrow(failures: seq<Failure>, f: Failure)
    requires |failures| < 255
    ensures Dues(failures + [f]) == Dues(failures) + [Due(f, |failures| + 1)]
  {
  }

  lemma RecordedLast(s: QState, s': QState, calls: seq<Call>, i: U64)
    requires calls != [] && Inv(s) && Step(s, calls[|calls| - 1]) == Ok(s')
    requires RecordedRun(s, calls[..|calls| - 1], i)
    ensures RecordedRun(s', calls, i)
  {
    var before, c := calls[..|calls| - 1], calls[|calls| - 1];
    DuesGrow(FailuresOf(before, i), Failure(if c.op.FailJob? then c.op.retryAfter else 0, c.now));
    RecordedStep(s, s', c, i, ClaimsOf(before, i), Dues(FailuresOf(before, i)), MovesOf(before, i),
                 ClaimsOf(calls, i), Dues(FailuresOf(calls, i)), MovesOf(calls, i));
  }

  lemma {:induction false} RunRecorded(g: QState, calls: seq<Call>, i: U64)
    requires IsGenesis(g) && After(g, calls).Ok?
    ensures Inv(After(g, calls).value) && RecordedRun(After(g, calls).value, calls, i)
  {
    ReachableInv(g, calls);
    if calls != [] {
      RunRecorded(g, calls[..|calls| - 1], i);
      RecordedLast(After(g, calls[..|calls| - 1]).value, After(g, calls).value, calls, i);
    }
  }

  /** The attempts field counts the claims of the whole run, no job is claimed more often than
      its retries allow, and a job sees at most two lifecycle calls per attempt. */
  lemma ClaimsBounded(g: QState, calls: seq<Call>, i: U64)
    requires IsGenesis(g) && After(g, calls).Ok?
    ensures |ClaimsOf(calls, i)| <= MaxAttempts(g.queue.maxRetries) <= 10
    ensures MovesOf(calls, i) <= 2 * MaxAttempts(g.queue.maxRetries)
    ensures i in After(g, calls).value.jobs ==> |ClaimsOf(calls, i)| == After(g, calls).value.jobs[i].attempts
  {
    RunRecorded(g, calls, i);
    RunTotals(g, calls);
  }

  /** Whenever a job records a worker, that is its latest claimer in the whole run. */
  lemma {:induction false} WorkerIsLatestClaimer(g: QState, calls: seq<Call>, i: U64)
    requires IsGenesis(g) && After(g, calls).Ok? && i in After(g, calls).value.jobs
    ensures var j, claims := After(g, calls).value.jobs[i], ClaimsOf(calls, i);
      && (j.worker.Some? <==> j.status.Processing? || j.status.Completed? || j.status.Failed?)
      && (j.worker.Some? ==> |claims| > 0 && j.worker == Some(claims[|claims| - 1].worker)
                             && j.startedAt == Some(claims[|claims| - 1].at))
  {
    RunRecorded(g, calls, i);
  }

  // ---- The backoff timeline ----

  lemma {:induction false} EventsInThePast(calls: seq<Call>, i: U64)
    requires calls != [] && ClockNeverGoesBack(calls)
    ensures forall k | 0 <= k < |ClaimsOf(calls, i)| :: ClaimsOf(calls, i)[k].at <= calls[|calls| - 1].now
    ensures forall k | 0 <= k < |FailuresOf(calls, i)| :: FailuresOf(calls, i)[k].at <= calls[|calls| - 1].now
  {
    var before := calls[..|calls| - 1];
    if before != [] {
      EventsInThePast(before, i);
      assert before[|before| - 1].now <= calls[|calls| - 1].now;
    }
  }

  /** Claims and failures take turns, beginning with a claim, and none comes before the last. */
  ghost predicate Alternating(claims: seq<Claim>, failures: seq<Failure>) {
    && |failures| <= |claims| <= |failures| + 1
    && (forall k | 0 <= k < |failures| :: claims[k].at <= failures[k].at)
    && (forall k | 0 <= k < |claims| - 1 :: failures[k].at <= claims[k + 1].at)
  }

  lemma AlternatingNext(claims: seq<Claim>, failures: seq<Failure>, claims': seq<Claim>, failures': seq<Failure>,
                        now: I64)
    requires Alternating(claims, failures) && |failures'| <= |claims'| <= |failures'| + 1
    requires forall k | 0 <= k < |claims| :: claims[k].at <= now
    requires forall k | 0 <= k < |failures| :: failures[k].at <= now
    requires claims' == claims || (|claims'| == |claims| + 1 && claims'[..|claims|] == claims
                                   && claims'[|claims|].at == now && failures' == failures)
    requires failures' == failures || (|failures'| == |failures| + 1 && failures'[..|failures|] == failures
                                       && failures'[|failures|].at == now && claims' == claims)
    ensures Alternating(claims', failures')
  {
    assert forall k | 0 <= k < |claims| :: claims'[k] == claims'[..|claims|][k];
    assert forall k | 0 <= k < |failures| :: failures'[k] == failures'[..|failures|][k];
  }

  lemma RunBalanced(g: QState, calls: seq<Call>, i: U64)
    requires IsGenesis(g) && After(g, calls).Ok?
    ensures |FailuresOf(calls, i)| <= |ClaimsOf(calls, i)| <= |FailuresOf(calls, i)| + 1
  {
    RunRecorded(g, calls, i);
  }

  /** With a clock that never goes back, each failure comes between the claim it ends and the next. */
  lemma {:induction false} FailureFollowsClaim(g: QState, calls: seq<Call>, i: U64)
    requires IsGenesis(g) && After(g, calls).Ok? && ClockNeverGoesBack(calls)
    ensures Alternating(ClaimsOf(calls, i), FailuresOf(calls, i))
  {
    RunBalanced(g, calls, i);
    if calls != [] {
      var before := calls[..|calls| - 1];
      FailureFollowsClaim(g, before, i);
      EventsInThePast(calls, i);
      AlternatingNext(ClaimsOf(before, i), FailuresOf(before, i), ClaimsOf(calls, i), FailuresOf(calls, i),
                      calls[|calls| - 1].now);
    }
  }

  /** How long the n-th failure makes its job wait; a negative delay asks for no wait. */
  ghost function Wait(f: Failure, n: nat): nat
    requires n >= 1
  {
    Max(0, Min(f.retryAfter * Pow2(n - 1), I64_MAX))
  }

  ghost function WaitSum(failures: seq<Failure>, k: nat): nat
    requires k <= |failures|
  {
    if k == 0 then 0 else WaitSum(failures, k - 1) + Wait(failures[k - 1], k)
  }

  /** The first k failures leave due times that do not wrap. */
  ghost predicate WaitsFit(failures: seq<Failure>, k: nat) {
    forall j | 0 <= j < k && j < |failures| :: failures[j].at + Wait(failures[j], j + 1) <= I64_MAX
  }

  lemma DueIsExact(f: Failure, n: U8)
    requires 1 <= n <= 63 && f.retryAfter >= 0 && f.at + Wait(f, n) <= I64_MAX
    ensures Due(f, n) == f.at + Wait(f, n)
  {
    BackoffExact(f.retryAfter, n);
    BackoffSign(f.retryAfter, n);
    RetryTimeExact(f.at, Backoff(f.retryAfter, n));
  }

  lemma NoWait(f: Failure, n: nat)
    requires n >= 1 && f.retryAfter < 0
    ensures Wait(f, n) == 0
  {
    ProductSign(f.retryAfter, Pow2(n - 1));
  }

  lemma ReclaimWaits(claims: seq<Claim>, failures: seq<Failure>, k: U8)
    requires |claims| <= 10 && Alternating(claims, failures) && Spaced(claims, Dues(failures))
    requires 0 < k < |claims| && failures[k - 1].at + Wait(failures[k - 1], k) <= I64_MAX
    ensures claims[k].at >= claims[k - 1].at + Wait(failures[k - 1], k)
  {
    var f := failures[k - 1];
    assert claims[k - 1].at <= f.at <= claims[k - 1 + 1].at;
    if f.retryAfter < 0 {
      NoWait(f, k);
    } else {
      DueIsExact(f, k);
      assert claims[k].at >= Dues(failures)[k - 1];
    }
  }

  /** Each of the first k reclaims comes after the claim before it and the wait in between. */
  ghost predicate Paced(claims: seq<Claim>, failures: seq<Failure>, k: nat)
    requires |claims| <= |failures| + 1
  {
    forall m | 0 < m <= k && m < |claims| :: claims[m].at >= claims[m - 1].at + Wait(failures[m - 1], m)
  }

  lemma {:induction false} Timeline(claims: seq<Claim>, failures: seq<Failure>, k: nat)
    requires |claims| <= |failures| + 1 && k < |claims| && Paced(claims, failures, k)
    ensures claims[k].at >= claims[0].at + WaitSum(failures, k)
  {
    if k > 0 {
      Timeline(claims, failures, k - 1);
    }
  }

  lemma AllPaced(claims: seq<Claim>, failures: seq<Failure>, k: nat)
    requires |claims| <= 10 && Alternating(claims, failures) && Spaced(claims, Dues(failures))
    requires k < |claims| && WaitsFit(failures, k)
    ensures Paced(claims, failures, k)
  {
    forall m | 0 < m <= k && m < |claims|
      ensures claims[m].at >= claims[m - 1].at + Wait(failures[m - 1], m)
    {
      assert failures[m - 1].at + Wait(failures[m - 1], m - 1 + 1) <= I64_MAX;
      ReclaimWaits(claims, failures, m);
    }
  }

  /** Whatever delays its failures ask for, the k-th reclaim of a job comes no sooner after the first
      claim than the sum of the first k waits, provided none of these k due times wraps. */
  lemma RetryTimeline(g: QState, calls: seq<Call>, i: U64, k: nat)
    requires IsGenesis(g) && After(g, calls).Ok? && ClockNeverGoesBack(calls)
    requires k < |ClaimsOf(calls, i)| && WaitsFit(FailuresOf(calls, i), k)
    ensures k <= |FailuresOf(calls, i)|
    ensures ClaimsOf(calls, i)[k].at >= ClaimsOf(calls, i)[0].at + WaitSum(FailuresOf(calls, i), k)
  {
    RunRecorded(g, calls, i);
    ClaimsBounded(g, calls, i);
    FailureFollowsClaim(g, calls, i);
    AllPaced(ClaimsOf(calls, i), FailuresOf(calls, i), k);
    Timeline(ClaimsOf(calls, i), FailuresOf(calls, i), k);
  }

  /** The first k failures ask for the same delay r, and neither the doubled delays nor the due times
      exceed the range. */
  ghost predicate SteadyRetries(failures: seq<Failure>, r: I64, k: nat) {
    && r >= 0
    && forall j | 0 <= j < k && j < |failures| ::
         && failures[j].retryAfter == r
         && r * Pow2(j) <= I64_MAX && failures[j].at + r * Pow2(j) <= I64_MAX
  }

  lemma SteadyWait(f: Failure, r: I64, j: nat)
    requires r >= 0 && f.retryAfter == r && r * Pow2(j) <= I64_MAX
    ensures Wait(f, j + 1) == r * Pow2(j)
  {
    ProductSign(r, Pow2(j));
  }

  lemma {:induction false} SteadySum(failures: seq<Failure>, r: I64, k: nat)
    requires k <= |failures| && SteadyRetries(failures, r, k)
    ensures WaitSum(failures, k) == r * (Pow2(k) - 1)
  {
    if k > 0 {
      SteadySum(failures, r, k - 1);
      SteadyWait(failures[k - 1], r, k - 1);
      DoubledSum(r, Pow2(k - 1));
    }
  }

  lemma DoubledSum(r: int, p: int)
    ensures r * (p - 1) + r * p == r * (2 * p - 1)
  {
  }

  /** With the same delay r every time, reclaim k comes at least r (2^k - 1) after the first claim. */
  lemma {:induction false} BackoffTimeline(g: QState, calls: seq<Call>, i: U64, r: I64, k: nat)
    requires IsGenesis(g) && After(g, calls).Ok? && ClockNeverGoesBack(calls)
    requires k < |ClaimsOf(calls, i)| && SteadyRetries(FailuresOf(calls, i), r, k)
    ensures ClaimsOf(calls, i)[k].at >= ClaimsOf(calls, i)[0].at + r * (Pow2(k) - 1)
  {
    var failures := FailuresOf(calls, i);
    forall j | 0 <= j < k && j < |failures|
      ensures failures[j].at + Wait(failures[j], j + 1) <= I64_MAX
    {
      SteadyWait(failures[j], r, j);
    }
    RetryTimeline(g, calls, i, k);
    SteadySum(failures, r, k);
  }
}
