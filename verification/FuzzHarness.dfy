/** The two invariant checks of the fuzz harness and what they decide: the index check never fires on
    a reachable queue, the worker check fires there when it is given the wrong worker. */
module FuzzHarness {
  import opened Types
  import opened Accounts
  import opened Tallies
  import opened QueueMachine
  import opened QueueInvariants
  import opened QueueTheorems
  import opened QueueHistory
  import opened Walk

  /** Passed, or the assertion that fired. */
  datatype Verdict =
    | Skipped
    | Passed
    | Cycle(at: U64)
    | NoSuccessor(at: U64)
    | TooManyIds(found: nat)
    | DuplicateId(id: U64)

  // ---- What the index check decides ----

  /** The id stands at two positions. */
  ghost predicate Repeated(ids: seq<U64>, id: U64) {
    exists a, b :: 0 <= a < b < |ids| && ids[a] == ids[b] == id
  }

  /** A path from the head along successor links, none of them 0, that has not stopped yet: its
      pages exist and are not the tail, except perhaps for the last. */
  ghost predicate Prefix(head: HeadData, pages: map<U64, PageData>, path: seq<U64>) {
    && path != []
    && path[0] == head.headIndexSeq
    && forall k | 0 <= k < |path| - 1 ::
         && path[k] in pages && path[k] != head.tailIndexSeq
         && pages[path[k]].nextSeq != 0 && path[k + 1] == pages[path[k]].nextSeq
  }

  /** A complete path: it repeats no page and stops at the tail or at a missing page. */
  ghost predicate Chain(head: HeadData, pages: map<U64, PageData>, path: seq<U64>) {
    && Prefix(head, pages, path)
    && Distinct(path)
    && (path[|path| - 1] == head.tailIndexSeq || path[|path| - 1] !in pages)
  }

  ghost predicate Distinct(ids: seq<U64>) {
    forall a, b | 0 <= a < b < |ids| :: ids[a] != ids[b]
  }

  ghost predicate Consistent(head: HeadData, pages: map<U64, PageData>) {
    exists path: seq<U64> ::
      && Chain(head, pages, path)
      && |IdsAlong(pages, path)| <= head.totalJobs
      && Distinct(IdsAlong(pages, path))
  }

  lemma {:induction false} PrefixOfChain(head: HeadData, pages: map<U64, PageData>, path: seq<U64>, chain: seq<U64>)
    requires Prefix(head, pages, path) && Chain(head, pages, chain)
    ensures path <= chain
  {
    var n := |path| - 1;
    if n > 0 {
      assert Prefix(head, pages, path[..n]);
      PrefixOfChain(head, pages, path[..n], chain);
      assert chain[n - 1] == path[n - 1];
      assert chain[n] == pages[chain[n - 1]].nextSeq;
      assert path == path[..n] + [path[n]];
    }
  }

  lemma OneChain(head: HeadData, pages: map<U64, PageData>, p: seq<U64>, q: seq<U64>)
    requires Chain(head, pages, p) && Chain(head, pages, q)
    ensures p == q
  {
    PrefixOfChain(head, pages, p, q);
    PrefixOfChain(head, pages, q, p);
  }

  lemma {:induction false} IdsAlongPrefix(pages: map<U64, PageData>, path: seq<U64>, k: nat)
    requires k <= |path|
    ensures IdsAlong(pages, path[..k]) <= IdsAlong(pages, path)
  {
    if k == |path| {
      assert path[..k] == path;
    } else {
      IdsAlongPrefix(pages, path[..|path| - 1], k);
      assert path[..|path| - 1][..k] == path[..k];
    }
  }

  lemma IdsAlongNext(pages: map<U64, PageData>, path: seq<U64>, k: nat)
    requires k < |path| && path[k] in pages
    ensures IdsAlong(pages, path[..k + 1]) == IdsAlong(pages, path[..k]) + pages[path[k]].jobIds
    ensures IdsAlong(pages, path[..k]) + pages[path[k]].jobIds <= IdsAlong(pages, path)
  {
    assert path[..k + 1][..k] == path[..k];
    IdsAlongPrefix(pages, path, k + 1);
  }

  lemma PrefixExtends(head: HeadData, pages: map<U64, PageData>, path: seq<U64>)
    requires Prefix(head, pages, path)
    requires var last := path[|path| - 1];
      last in pages && last != head.tailIndexSeq && pages[last].nextSeq != 0
    ensures var last := path[|path| - 1];
      && Prefix(head, pages, path + [pages[last].nextSeq])
      && (path + [pages[last].nextSeq])[..|path|] == path
      && IdsAlong(pages, path) == IdsAlong(pages, path[..|path| - 1]) + pages[last].jobIds
  {
  }

  // ---- The check itself ----

  /** First loop: walk the list, counting ids. */
  method WalkList(head: HeadData, pages: map<U64, PageData>)
    returns (verdict: Verdict, found: nat, ghost path: seq<U64>)
    ensures verdict == Passed || verdict.Cycle? || verdict.NoSuccessor?
    ensures verdict == Passed ==> Chain(head, pages, path) && found == |IdsAlong(pages, path)|
    ensures verdict != Passed ==> !exists chain: seq<U64> :: Chain(head, pages, chain)
    ensures verdict.Cycle? ==>
      Prefix(head, pages, path) && path[|path| - 1] == verdict.at && verdict.at in path[..|path| - 1]
    ensures verdict.NoSuccessor? ==>
      && Prefix(head, pages, path) && path[|path| - 1] == verdict.at && verdict.at != head.tailIndexSeq
      && verdict.at in pages && pages[verdict.at].nextSeq == 0
  {
    found := 0;
    var at := head.headIndexSeq;
    path := [at];
    var visited: set<U64> := {};
    while true
      invariant Prefix(head, pages, path) && at == path[|path| - 1]
      invariant Distinct(path[..|path| - 1])
      invariant forall p: U64 :: p in visited <==> p in path[..|path| - 1]
      invariant visited <= pages.Keys
      invariant found == |IdsAlong(pages, path[..|path| - 1])|
      decreases pages.Keys - visited
    {
      if at in visited {
        verdict := Cycle(at);
        NoChainOnCycle(head, pages, path);
        return;
      }
      visited := visited + {at};
      if at !in pages {
        break;
      }
      found := found + |pages[at].jobIds|;
      if at == head.tailIndexSeq {
        break;
      }
      if pages[at].nextSeq == 0 {
        verdict := NoSuccessor(at);
        NoChainOnDeadEnd(head, pages, path);
        return;
      }
      PrefixExtends(head, pages, path);
      at := pages[at].nextSeq;
      path := path + [at];
    }
    verdict := Passed;
    assert Distinct(path);
  }

  lemma NoChainOnCycle(head: HeadData, pages: map<U64, PageData>, path: seq<U64>)
    requires Prefix(head, pages, path) && path[|path| - 1] in path[..|path| - 1]
    ensures !exists chain: seq<U64> :: Chain(head, pages, chain)
  {
    var last := |path| - 1;
    var k :| 0 <= k < last && path[k] == path[last];
    forall chain: seq<U64>
      ensures !Chain(head, pages, chain)
    {
      if path <= chain {
        assert chain[k] == chain[last];
      } else if Chain(head, pages, chain) {
        PrefixOfChain(head, pages, path, chain);
      }
    }
  }

  lemma NoChainOnDeadEnd(head: HeadData, pages: map<U64, PageData>, path: seq<U64>)
    requires Prefix(head, pages, path)
    requires path[|path| - 1] in pages && path[|path| - 1] != head.tailIndexSeq
    requires pages[path[|path| - 1]].nextSeq == 0
    ensures !exists chain: seq<U64> :: Chain(head, pages, chain)
  {
    forall chain: seq<U64>
      ensures !Chain(head, pages, chain)
    {
      if path <= chain {
        assert chain[|path| - 1] == path[|path| - 1];
      } else if Chain(head, pages, chain) {
        PrefixOfChain(head, pages, path, chain);
      }
    }
  }

  /** The inner loop over one page: append its ids to those seen, up to the first repetition. */
  method AddPage(seen: seq<U64>, ids: seq<U64>) returns (duplicate: Option<U64>, allIds: seq<U64>)
    requires Distinct(seen)
    ensures duplicate.None? <==> Distinct(seen + ids)
    ensures duplicate.None? ==> allIds == seen + ids
    ensures duplicate.Some? ==> Repeated(seen + ids, duplicate.value)
  {
    allIds := seen;
    for m := 0 to |ids|
      invariant allIds == seen + ids[..m] && Distinct(allIds)
    {
      var id := ids[m];
      assert seen + ids[..m + 1] == allIds + [id];
      if id in allIds {
        ghost var a :| 0 <= a < |allIds| && allIds[a] == id;
        assert (seen + ids)[a] == id == (seen + ids)[|allIds|];
        return Some(id), allIds;
      }
      allIds := allIds + [id];
    }
    assert ids[..|ids|] == ids;
    return None, allIds;
  }

  lemma AtEnd(head: HeadData, pages: map<U64, PageData>, path: seq<U64>, k: nat)
    requires Chain(head, pages, path) && k < |path|
    requires path[k] !in pages || path[k] == head.tailIndexSeq
    ensures IdsAlong(pages, path)
            == IdsAlong(pages, path[..k]) + if path[k] in pages then pages[path[k]].jobIds else []
  {
  }

  /** Second loop: walk again, looking for an id seen before. */
  method FindDuplicate(head: HeadData, pages: map<U64, PageData>, ghost path: seq<U64>) returns (verdict: Verdict)
    requires Chain(head, pages, path)
    ensures verdict == Passed || verdict.DuplicateId?
    ensures verdict == Passed <==> Distinct(IdsAlong(pages, path))
    ensures verdict.DuplicateId? ==> Repeated(IdsAlong(pages, path), verdict.id)
  {
    var allIds: seq<U64> := [];
    var at := head.headIndexSeq;
    ghost var k := 0;
    while true
      invariant 0 <= k < |path| && at == path[k]
      invariant allIds == IdsAlong(pages, path[..k]) && Distinct(allIds)
      decreases |path| - k
    {
      if at !in pages {
        AtEnd(head, pages, path, k);
        return Passed;
      }
      IdsAlongNext(pages, path, k);
      ghost var upToHere := allIds + pages[at].jobIds;
      var duplicate;
      duplicate, allIds := AddPage(allIds, pages[at].jobIds);
      if duplicate.Some? {
        StillRepeated(upToHere, IdsAlong(pages, path), duplicate.value);
        return DuplicateId(duplicate.value);
      }
      if at == head.tailIndexSeq {
        AtEnd(head, pages, path, k);
        return Passed;
      }
      at := pages[at].nextSeq;
      k := k + 1;
    }
  }

  lemma StillRepeated(some: seq<U64>, all: seq<U64>, id: U64)
    requires some <= all && Repeated(some, id)
    ensures Repeated(all, id) && !Distinct(all)
  {
    var a, b :| 0 <= a < b < |some| && some[a] == some[b] == id;
    assert all[a] == all[b] == id;
  }

  /** The whole index check. It terminates on any accounts whatever, and passes exactly on the
      consistent ones. */
  method CheckIndex(head: Option<HeadData>, pages: map<U64, PageData>) returns (verdict: Verdict)
    ensures verdict == Skipped <==> head.None?
    ensures head.Some? ==> (verdict == Passed <==> Consistent(head.value, pages))
    ensures head.Some? ==>
      (verdict.Cycle? || verdict.NoSuccessor? <==> !exists chain: seq<U64> :: Chain(head.value, pages, chain))
    ensures head.Some? ==> forall chain: seq<U64> | Chain(head.value, pages, chain) ::
      && (verdict == TooManyIds(|IdsAlong(pages, chain)|) <==> |IdsAlong(pages, chain)| > head.value.totalJobs)
      && (verdict.DuplicateId? ==> Repeated(IdsAlong(pages, chain), verdict.id))
  {
    if head.None? {
      return Skipped;
    }
    var found;
    ghost var path;
    verdict, found, path := WalkList(head.value, pages);
    if verdict != Passed {
      return;
    }
    forall chain: seq<U64> | Chain(head.value, pages, chain)
      ensures chain == path
    {
      OneChain(head.value, pages, chain, path);
    }
    if found > head.value.totalJobs {
      return TooManyIds(found);
    }
    verdict := FindDuplicate(head.value, pages, path);
  }

  // ---- It never fires ----

  lemma AtMostOnce(ids: seq<U64>, members: set<U64>)
    requires forall i: U64 :: Copies(ids, i) <= OneIf(i in members)
    ensures Distinct(ids) && |ids| <= |members|
  {
    forall a, b | 0 <= a < b < |ids|
      ensures ids[a] != ids[b]
    {
      assert ids == ids[..b] + ids[b..];
      CopiesConcat(ids[..b], ids[b..], ids[a]);
      assert ids[a] in ids[..b];
      assert Copies(ids, ids[a]) <= 1;
    }
    var bag, all := multiset(ids), multiset(members);
    forall i: U64
      ensures bag[i] <= all[i]
    {
      assert Copies(ids, i) <= OneIf(i in members);
    }
    assert bag <= all;
    assert all == bag + (all - bag);
    assert |all| == |bag| + |all - bag|;
  }

  lemma SubsetSize(a: set<U64>, b: set<U64>)
    requires a <= b
    ensures |a| <= |b|
  {
    assert b == a + (b - a);
  }

  lemma LivePathIsChain(s: QState)
    requires Inv(s)
    ensures Chain(s.head, s.pages, LivePath(s))
  {
  }

  /** No assertion of the index check fires on a reachable queue, wherever its retries went. */
  lemma IndexCheckNeverFires(s: QState)
    requires Reachable(s)
    ensures Consistent(s.head, s.pages)
  {
    ReachableImpliesInv(s);
    LivePathIsChain(s);
    var ids := IdsAlong(s.pages, LivePath(s));
    forall i: U64
      ensures Copies(ids, i) <= OneIf(i in PendingIds(s))
    {
      WalkCopies(s, i);
    }
    AtMostOnce(ids, PendingIds(s));
    AllIds(s.jobs.Keys, s.queue.jobCount);
    SubsetSize(PendingIds(s), s.jobs.Keys);
  }

  // ---- The worker check ----

  /** True when no assertion fires. */
  function CheckWorker(job: Option<JobData>, expected: Pubkey): bool {
    job.None? ||
    match job.value.status
    case Processing => job.value.worker == Some(expected)
    case Completed => job.value.worker == Some(expected)
    case Pending => job.value.worker.None?
    case _ => true
  }

  /** What the check decides on any record, reachable or not. */
  lemma CheckWorkerExact(job: Option<JobData>, expected: Pubkey)
    ensures job.None? ==> CheckWorker(job, expected)
    ensures job.Some? && job.value.status in {Processing, Completed} ==>
      (CheckWorker(job, expected) <==> job.value.worker == Some(expected))
    ensures job.Some? && job.value.status == Pending ==> (CheckWorker(job, expected) <==> job.value.worker.None?)
    ensures job.Some? && job.value.status in {Failed, Cancelled} ==> CheckWorker(job, expected)
  {
  }

  ghost predicate LatestClaimer(calls: seq<Call>, i: U64, w: Pubkey) {
    ClaimsOf(calls, i) != [] && ClaimsOf(calls, i)[|ClaimsOf(calls, i)| - 1].worker == w
  }

  /** On a reachable queue the worker check passes exactly when the job is neither being processed
      nor completed, or the expected worker is the job's latest claimer. */
  lemma {:induction false} WorkerCheckPassesIff(g: QState, calls: seq<Call>, i: U64, expected: Pubkey)
    requires IsGenesis(g) && After(g, calls).Ok? && i in After(g, calls).value.jobs
    ensures var j := After(g, calls).value.jobs[i];
      CheckWorker(Some(j), expected) <==>
        (j.status.Processing? || j.status.Completed? ==> LatestClaimer(calls, i, expected))
  {
    WorkerIsLatestClaimer(g, calls, i);
  }
}
