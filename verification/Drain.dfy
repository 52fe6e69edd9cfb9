/** Every queue can be emptied: from any reachable state a schedule of claims, completions and
    head advances commits call after call until nothing is left. */
module Drain {
  import opened Types
  import opened Tallies
  import opened QueueMachine
  import opened QueueInvariants
  import opened QueueTheorems

  /** Runs compose. */
  lemma {:induction false} AfterConcat(g: QState, a: seq<Call>, b: seq<Call>)
    requires After(g, a).Ok?
    ensures After(g, a + b) == After(After(g, a).value, b)
  {
    if b == [] {
      assert a + b == a;
    } else {
      var n := |b| - 1;
      assert (a + b)[..|a + b| - 1] == a + b[..n];
      AfterConcat(g, a, b[..n]);
    }
  }

  lemma AfterOne(s: QState, c: Call)
    ensures After(s, [c]) == Step(s, c)
  {
  }

  ghost predicate AllDue(s: QState, now: I64) {
    forall i: U64 | i in s.jobs && s.jobs[i].status.Pending? :: s.jobs[i].executeAfter <= now
  }

  ghost predicate DrainOnly(calls: seq<Call>, now: I64) {
    forall k | 0 <= k < |calls| ::
      && calls[k].now == now
      && (calls[k].op.ClaimJob? || calls[k].op.CompleteJob? || calls[k].op.AdvanceHead?)
  }

  /** A processing job can be completed by the worker that holds it. */
  lemma CompleteHeld(s: QState, i: U64, now: I64) returns (c: Call, t: QState)
    requires Inv(s) && AllDue(s, now) && i in s.jobs && s.jobs[i].status.Processing?
    ensures c.now == now && c.op.CompleteJob? && Step(s, c) == Ok(t)
    ensures Inv(t) && AllDue(t, now) && t.head == s.head
    ensures t.queue.pendingCount == s.queue.pendingCount - 1
  {
    c := Call(CompleteJob(i, s.jobs[i].worker.value, None), now);
    ClosedBelowCount(s, i, Done);
    t := Step(s, c).value;
    StepInv(s, c);
    TallyAtLeast(s.jobs, s.queue.jobCount, Active, i);
  }

  /** A pending job that is due can be claimed by any worker from the page that lists it. */
  lemma ClaimDue(s: QState, i: U64, worker: Pubkey, now: I64) returns (c: Call, t: QState)
    requires Inv(s) && AllDue(s, now) && i in s.jobs && s.jobs[i].status.Pending?
    ensures c.now == now && c.op.ClaimJob? && Step(s, c) == Ok(t)
    ensures Inv(t) && AllDue(t, now) && t.head == s.head
    ensures t.queue.pendingCount == s.queue.pendingCount
    ensures i in t.jobs && t.jobs[i].status.Processing?
  {
    var p := PendingIsOnAPage(s, i);
    c := Call(ClaimJob(i, p, worker), now);
    t := Step(s, c).value;
    StepInv(s, c);
  }

  lemma AfterTwo(s: QState, c: Call, mid: QState, d: Call)
    requires Step(s, c) == Ok(mid)
    ensures After(s, [c, d]) == Step(mid, d)
  {
    AfterOne(s, c);
    assert [c, d][..1] == [c];
  }

  lemma FinishPending(s: QState, i: U64, worker: Pubkey, now: I64) returns (calls: seq<Call>, t: QState)
    requires Inv(s) && AllDue(s, now) && i in s.jobs && s.jobs[i].status.Pending?
    ensures After(s, calls) == Ok(t) && DrainOnly(calls, now) && |calls| == 2
    ensures Inv(t) && AllDue(t, now) && t.head == s.head
    ensures t.queue.pendingCount == s.queue.pendingCount - 1
  {
    var claim, mid := ClaimDue(s, i, worker, now);
    var complete;
    complete, t := CompleteHeld(mid, i, now);
    calls := [claim, complete];
    AfterTwo(s, claim, mid, complete);
  }

  lemma {:induction false} FinishOne(s: QState, worker: Pubkey, now: I64) returns (calls: seq<Call>, t: QState)
    requires Inv(s) && AllDue(s, now) && s.queue.pendingCount > 0
    ensures After(s, calls) == Ok(t) && DrainOnly(calls, now) && |calls| <= 2
    ensures Inv(t) && AllDue(t, now) && t.head == s.head
    ensures t.queue.pendingCount == s.queue.pendingCount - 1
  {
    var i := TallyWitness(s.jobs, s.queue.jobCount, Active);
    if s.jobs[i].status.Processing? {
      var c;
      c, t := CompleteHeld(s, i, now);
      calls := [c];
      AfterOne(s, c);
    } else {
      calls, t := FinishPending(s, i, worker, now);
    }
  }

  lemma {:induction false} FinishAll(s: QState, worker: Pubkey, now: I64) returns (calls: seq<Call>, t: QState)
    requires Inv(s) && AllDue(s, now)
    ensures After(s, calls) == Ok(t) && DrainOnly(calls, now) && |calls| <= 2 * s.queue.pendingCount
    ensures Inv(t) && t.head == s.head && t.queue.pendingCount == 0
    decreases s.queue.pendingCount
  {
    if s.queue.pendingCount == 0 {
      calls, t := [], s;
    } else {
      var one, mid := FinishOne(s, worker, now);
      var rest;
      rest, t := FinishAll(mid, worker, now);
      calls := one + rest;
      AfterConcat(s, one, rest);
    }
  }

  lemma NothingListed(s: QState)
    requires Inv(s) && s.queue.pendingCount == 0
    ensures forall p: U64 | p in s.pages :: s.pages[p].jobIds == []
  {
    forall p: U64 | p in s.pages
      ensures s.pages[p].jobIds == []
    {
      if s.pages[p].jobIds != [] {
        OnPage(s, p, s.pages[p].jobIds[0]);
        TallyAtLeast(s.jobs, s.queue.jobCount, Active, s.pages[p].jobIds[0]);
      }
    }
  }

  lemma {:induction false} AdvanceAll(s: QState, now: I64) returns (calls: seq<Call>, t: QState)
    requires Inv(s) && s.queue.pendingCount == 0
    ensures After(s, calls) == Ok(t) && DrainOnly(calls, now)
    ensures |calls| == s.head.tailIndexSeq - s.head.headIndexSeq
    ensures Inv(t) && t.queue.pendingCount == 0 && t.head.headIndexSeq == t.head.tailIndexSeq
    decreases s.head.tailIndexSeq - s.head.headIndexSeq
  {
    if s.head.headIndexSeq == s.head.tailIndexSeq {
      calls, t := [], s;
    } else {
      NothingListed(s);
      var c := Call(AdvanceHead, now);
      var mid := Step(s, c).value;
      AdvanceInv(s);
      var rest;
      rest, t := AdvanceAll(mid, now);
      calls := [c] + rest;
      AfterOne(s, c);
      AfterConcat(s, [c], rest);
    }
  }

  /** Drainability: with the clock past every due time, at most two calls per live job and one
      per page to pass empty the queue, and every one of them commits. */
  lemma {:induction false} CanDrain(s: QState, worker: Pubkey, now: I64) returns (calls: seq<Call>, t: QState)
    requires Reachable(s) && AllDue(s, now)
    ensures After(s, calls) == Ok(t) && DrainOnly(calls, now)
    ensures |calls| <= 2 * s.queue.pendingCount + (s.head.tailIndexSeq - s.head.headIndexSeq)
    ensures t.queue.pendingCount == 0
    ensures forall p: U64 | p in t.pages :: t.pages[p].jobIds == []
    ensures t.head.headIndexSeq == t.head.tailIndexSeq == s.head.tailIndexSeq
    ensures Reachable(t)
  {
    ReachableImpliesInv(s);
    var first, mid := FinishAll(s, worker, now);
    var rest;
    rest, t := AdvanceAll(mid, now);
    calls := first + rest;
    AfterConcat(s, first, rest);
    NothingListed(t);
    TailKept(s, calls, now);
    var g: QState, past: seq<Call> :| IsGenesis(g) && After(g, past) == Ok(s);
    AfterConcat(g, past, calls);
  }

  lemma {:induction false} TailKept(s: QState, calls: seq<Call>, now: I64)
    requires DrainOnly(calls, now) && After(s, calls).Ok?
    ensures After(s, calls).value.head.tailIndexSeq == s.head.tailIndexSeq
  {
    if calls != [] {
      TailKept(s, calls[..|calls| - 1], now);
      assert calls[|calls| - 1].op.ClaimJob? || calls[|calls| - 1].op.CompleteJob?
             || calls[|calls| - 1].op.AdvanceHead?;
    }
  }
}
