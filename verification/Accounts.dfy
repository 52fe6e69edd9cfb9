/** The program's accounts as values, and what an index page does to its list of ids. */
module Accounts {
  import opened Types

  /** Capacity of one index page. */
  const MAX_INDEX_ENTRIES: nat := 256

  datatype JobStatus = Pending | Processing | Completed | Failed | Cancelled

  datatype QueueData = QueueData(
    authority: Pubkey, name: Bytes,
    jobCount: U64, pendingCount: U64, processedCount: U64, failedCount: U64,
    maxRetries: U8, paused: bool, createdAt: I64)

  datatype HeadData = HeadData(
    authority: Pubkey, headIndexSeq: U64, tailIndexSeq: U64, totalJobs: U64)

  datatype JobData = JobData(
    queue: Pubkey, jobId: U64, jobType: Bytes, payload: Bytes,
    status: JobStatus, priority: U8, createdAt: I64, executeAfter: I64,
    attempts: U8, maxRetries: U8,
    worker: Option<Pubkey>, startedAt: Option<I64>, completedAt: Option<I64>,
    result: Option<Bytes>, errorMessage: Option<Bytes>)

  datatype PageData = PageData(queue: Pubkey, pageSeq: U64, nextSeq: U64, jobIds: seq<U64>)

  predicate IsFull(ids: seq<U64>) {
    |ids| >= MAX_INDEX_ENTRIES
  }

  function PushJob(ids: seq<U64>, id: U64): Result<seq<U64>> {
    if IsFull(ids) then Err(IndexFull) else Ok(ids + [id])
  }

  /** Index of the first occurrence. */
  function Position(ids: seq<U64>, id: U64): (k: nat)
    requires id in ids
    ensures k < |ids| && ids[k] == id && id !in ids[..k]
  {
    if ids[0] == id then 0
    else
      var k := 1 + Position(ids[1..], id);
      assert ids[..k] == [ids[0]] + ids[1..][..k - 1];
      k
  }

  /** The last element takes the place of the removed one. */
  function SwapRemove(ids: seq<U64>, k: nat): seq<U64>
    requires k < |ids|
  {
    var last := |ids| - 1;
    ids[k := ids[last]][..last]
  }

  function RemoveJob(ids: seq<U64>, id: U64): Result<seq<U64>> {
    if id in ids then Ok(SwapRemove(ids, Position(ids, id))) else Err(JobNotInIndex)
  }

  /** Whatever it does to the order, removal takes out exactly one occurrence of the id,
      and fails exactly when there is none. */
  lemma RemoveJobBag(ids: seq<U64>, id: U64)
    ensures RemoveJob(ids, id).Ok? <==> id in ids
    ensures id in ids ==>
      && multiset(RemoveJob(ids, id).value) == multiset(ids) - multiset{id}
      && |RemoveJob(ids, id).value| == |ids| - 1
  {
    if id in ids {
      var k, last := Position(ids, id), |ids| - 1;
      var moved := ids[k := ids[last]];
      assert ids == ids[..last] + [ids[last]];
      assert moved == moved[..last] + [moved[last]];
      assert multiset(moved) == multiset(ids) - multiset{id} + multiset{ids[last]};
    }
  }

  /** The exact list that is left: the last entry stands where the first occurrence stood. */
  lemma RemoveJobExact(ids: seq<U64>, id: U64, k: nat)
    requires k < |ids| && ids[k] == id && id !in ids[..k]
    ensures var last := |ids| - 1;
      RemoveJob(ids, id) == Ok(if k == last then ids[..last] else ids[..k] + [ids[last]] + ids[k + 1..last])
  {
    var p := Position(ids, id);
    assert p == k by {
      assert forall m | 0 <= m < k :: ids[m] == ids[..k][m] != id;
      assert forall m | 0 <= m < p :: ids[m] == ids[..p][m] != id;
    }
    var last := |ids| - 1;
    if k < last {
      assert SwapRemove(ids, k) == ids[..k] + [ids[last]] + ids[k + 1..last];
    } else {
      assert SwapRemove(ids, k) == ids[..last];
    }
  }

  /** Pushing and then removing the same fresh id restores the page exactly. */
  lemma RemoveUndoesPush(ids: seq<U64>, id: U64)
    requires !IsFull(ids) && id !in ids
    ensures RemoveJob(PushJob(ids, id).value, id) == Ok(ids)
  {
  }
}
