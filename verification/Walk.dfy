/** What a worker sees that starts at the head page and follows the successor links. */
module Walk {
  import opened Types
  import opened Accounts
  import opened Tallies
  import opened QueueMachine
  import opened QueueInvariants
  import opened QueueTheorems

  /** The sequence numbers visited by following successor links from head to tail. */
  ghost predicate IsWalk(s: QState, path: seq<U64>) {
    && path != []
    && path[0] == s.head.headIndexSeq
    && path[|path| - 1] == s.head.tailIndexSeq
    && (forall k | 0 <= k < |path| :: path[k] in s.pages)
    && (forall k | 0 <= k < |path| - 1 ::
          path[k] != s.head.tailIndexSeq && path[k + 1] == s.pages[path[k]].nextSeq)
  }

  /** The ids read along a path, in order; a missing page contributes nothing. */
  ghost function IdsAlong(pages: map<U64, PageData>, path: seq<U64>): seq<U64> {
    if path == [] then []
    else
      var p := path[|path| - 1];
      IdsAlong(pages, path[..|path| - 1]) + if p in pages then pages[p].jobIds else []
  }

  /** The pages from the head to the tail, by number. */
  ghost function LivePath(s: QState): (path: seq<U64>)
    requires s.head.headIndexSeq <= s.head.tailIndexSeq
    ensures |path| == s.head.tailIndexSeq - s.head.headIndexSeq + 1
    ensures forall k | 0 <= k < |path| :: path[k] == s.head.headIndexSeq + k
  {
    seq(s.head.tailIndexSeq - s.head.headIndexSeq + 1,
        k requires 0 <= k <= s.head.tailIndexSeq - s.head.headIndexSeq => s.head.headIndexSeq + k)
  }

  lemma {:induction false} WalkFollowsNumbers(s: QState, path: seq<U64>, k: nat)
    requires Inv(s) && IsWalk(s, path) && k < |path|
    ensures path[k] == s.head.headIndexSeq + k
  {
    if k > 0 {
      WalkFollowsNumbers(s, path, k - 1);
      assert path[k - 1] != s.head.tailIndexSeq && path[k] == s.pages[path[k - 1]].nextSeq;
      assert path[k - 1] in s.pages;
    }
  }

  lemma LivePathIsWalk(s: QState)
    requires Inv(s)
    ensures IsWalk(s, LivePath(s))
  {
  }

  lemma WalkIsTheLivePath(s: QState, path: seq<U64>)
    requires Inv(s) && IsWalk(s, path)
    ensures path == LivePath(s)
  {
    var live := LivePath(s);
    WalkFollowsNumbers(s, path, |path| - 1);
    assert |path| == |live|;
    forall k | 0 <= k < |path|
      ensures path[k] == live[k]
    {
      WalkFollowsNumbers(s, path, k);
    }
  }

  /** The walk exists, is unique, ends at the tail, and visits each live page once, in order. */
  lemma WalkIsLivePath(s: QState)
    requires Reachable(s)
    ensures s.head.headIndexSeq <= s.head.tailIndexSeq
    ensures forall path: seq<U64> :: IsWalk(s, path) <==> path == LivePath(s)
  {
    ReachableImpliesInv(s);
    LivePathIsWalk(s);
    forall path: seq<U64> | IsWalk(s, path)
      ensures path == LivePath(s)
    {
      WalkIsTheLivePath(s, path);
    }
  }

  // ---- Walk and scan ----

  ghost predicate DrainedBehindHead(s: QState) {
    forall p: U64 | p in s.pages && p < s.head.headIndexSeq :: s.pages[p].jobIds == []
  }

  lemma {:induction false} CopiesAlong(pages: map<U64, PageData>, path: seq<U64>, first: nat, id: U64)
    requires forall k | 0 <= k < |path| :: path[k] == first + k && path[k] in pages
    ensures Copies(IdsAlong(pages, path), id) + Occurs(pages, first, id) == Occurs(pages, first + |path|, id)
  {
    if path != [] {
      var n := |path| - 1;
      CopiesAlong(pages, path[..n], first, id);
      assert path[n] == first + n && path[n] in pages;
      CopiesOnLastPage(pages, path, id);
      OccursNext(pages, first + n, id);
    }
  }

  lemma CopiesOnLastPage(pages: map<U64, PageData>, path: seq<U64>, id: U64)
    requires path != [] && path[|path| - 1] in pages
    ensures Copies(IdsAlong(pages, path), id)
            == Copies(IdsAlong(pages, path[..|path| - 1]), id) + Copies(pages[path[|path| - 1]].jobIds, id)
  {
    CopiesConcat(IdsAlong(pages, path[..|path| - 1]), pages[path[|path| - 1]].jobIds, id);
  }

  lemma CopiesConcat(a: seq<U64>, b: seq<U64>, id: U64)
    ensures Copies(a + b, id) == Copies(a, id) + Copies(b, id)
  {
  }

  lemma {:induction false} NothingOccurs(pages: map<U64, PageData>, n: nat, id: U64)
    requires forall p: U64 | p in pages && p < n :: pages[p].jobIds == []
    requires n <= U64_MAX + 1
    ensures Occurs(pages, n, id) == 0
  {
    if n > 0 {
      NothingOccurs(pages, n - 1, id);
    }
  }

  lemma PathCopies(s: QState, id: U64)
    requires Shape(s)
    ensures Copies(IdsAlong(s.pages, LivePath(s)), id) + Occurs(s.pages, s.head.headIndexSeq, id) == Listed(s, id)
  {
    CopiesAlong(s.pages, LivePath(s), s.head.headIndexSeq, id);
  }

  lemma WalkCopies(s: QState, id: U64)
    requires Inv(s)
    ensures Copies(IdsAlong(s.pages, LivePath(s)), id) + Occurs(s.pages, s.head.headIndexSeq, id)
            == OneIf(id in PendingIds(s))
  {
    PathCopies(s, id);
    assert Listed(s, id) == OneIf(id in s.jobs && s.jobs[id].status.Pending?);
  }

  /** The walk reads exactly the pending jobs, each once, just when the pages behind the head are
      empty. */
  lemma {:induction false} WalkEqualsScanIff(s: QState)
    requires Reachable(s)
    ensures s.head.headIndexSeq <= s.head.tailIndexSeq
    ensures multiset(IdsAlong(s.pages, LivePath(s))) == multiset(PendingIds(s)) <==> DrainedBehindHead(s)
  {
    ReachableImpliesInv(s);
    var ids := IdsAlong(s.pages, LivePath(s));
    if DrainedBehindHead(s) {
      forall id: U64
        ensures Copies(ids, id) == OneIf(id in PendingIds(s))
      {
        NothingOccurs(s.pages, s.head.headIndexSeq, id);
        WalkCopies(s, id);
      }
      SameBag(ids, PendingIds(s));
    } else {
      var p: U64 :| p in s.pages && p < s.head.headIndexSeq && s.pages[p].jobIds != [];
      var id := s.pages[p].jobIds[0];
      OccursAtLeast(s.pages, s.head.headIndexSeq, p, id);
      OnPage(s, p, id);
      WalkCopies(s, id);
      assert Copies(ids, id) == 0;
      assert id in multiset(PendingIds(s));
    }
  }

  // ---- Which runs keep the walk complete ----

  predicate Retries(s: QState, c: Call) {
    c.op.FailJob? && c.op.id in s.jobs && s.jobs[c.op.id].attempts < s.jobs[c.op.id].maxRetries
  }

  /** A retry puts its job back in sight exactly when the page it names is not behind the head. */
  lemma RetryIsVisibleIff(s: QState, c: Call, s': QState)
    requires Reachable(s) && Step(s, c) == Ok(s') && Retries(s, c)
    ensures s'.head == s.head && s'.head.headIndexSeq <= s'.head.tailIndexSeq
    ensures c.op.id in s'.jobs && s'.jobs[c.op.id].status.Pending?
    ensures c.op.id in IdsAlong(s'.pages, LivePath(s')) <==> c.op.page >= s.head.headIndexSeq
  {
    ReachableImpliesInv(s);
    StepInv(s, c);
    var id, page := c.op.id, c.op.page;
    assert s'.pages[page].jobIds[|s.pages[page].jobIds|] == id;
    WalkCopies(s', id);
    if page >= s.head.headIndexSeq {
      OnPage(s', page, id);
      NotBelow(s'.pages, s'.head.headIndexSeq, page, id);
    } else {
      OccursAtLeast(s'.pages, s'.head.headIndexSeq, page, id);
    }
  }

  lemma {:induction false} NotBelow(pages: map<U64, PageData>, n: nat, page: U64, id: U64)
    requires n <= page && n <= U64_MAX + 1
    requires forall q: U64 | q in pages && q != page :: id !in pages[q].jobIds
    ensures Occurs(pages, n, id) == 0
  {
    if n > 0 {
      NotBelow(pages, n - 1, page, id);
    }
  }

  /** Every retry of the run names a page that is not behind the head at that moment. */
  ghost predicate RetriesStayLive(g: QState, calls: seq<Call>) {
    calls == [] ||
    var before, c := calls[..|calls| - 1], calls[|calls| - 1];
    && RetriesStayLive(g, before)
    && (After(g, before).Ok? && Retries(After(g, before).value, c) ==>
          c.op.page >= After(g, before).value.head.headIndexSeq)
  }

  lemma BehindHeadPage(s: QState, c: Call, s': QState, p: U64)
    requires Inv(s) && Step(s, c) == Ok(s') && p in s.pages && s.pages[p].jobIds == [] && p in s'.pages
    requires !c.op.AdvanceHead? && p < s.head.headIndexSeq
    requires Retries(s, c) ==> c.op.page >= s.head.headIndexSeq
    ensures s'.pages[p].jobIds == []
  {
  }

  lemma BehindHeadStep(s: QState, c: Call, s': QState)
    requires Inv(s) && Step(s, c) == Ok(s') && DrainedBehindHead(s)
    requires Retries(s, c) ==> c.op.page >= s.head.headIndexSeq
    ensures DrainedBehindHead(s')
  {
    if !c.op.AdvanceHead? {
      HeadStays(s, c, s');
      forall p: U64 | p in s'.pages && p < s'.head.headIndexSeq
        ensures s'.pages[p].jobIds == []
      {
        assert p in s.pages && s.pages[p].jobIds == [];
        BehindHeadPage(s, c, s', p);
      }
    }
  }

  lemma HeadStays(s: QState, c: Call, s': QState)
    requires Step(s, c) == Ok(s') && !c.op.AdvanceHead?
    ensures s'.head.headIndexSeq == s.head.headIndexSeq
  {
  }

  /** In such runs the pages behind the head stay empty for good, and a walk always finds every
      pending job. */
  lemma {:induction false} LiveRetriesKeepWalkComplete(g: QState, calls: seq<Call>)
    requires IsGenesis(g) && After(g, calls).Ok? && RetriesStayLive(g, calls)
    ensures DrainedBehindHead(After(g, calls).value)
    ensures var s := After(g, calls).value;
      && s.head.headIndexSeq <= s.head.tailIndexSeq
      && multiset(IdsAlong(s.pages, LivePath(s))) == multiset(PendingIds(s))
  {
    var s := After(g, calls).value;
    if calls != [] {
      var before := calls[..|calls| - 1];
      LiveRetriesKeepWalkComplete(g, before);
      ReachableInv(g, before);
      BehindHeadStep(After(g, before).value, calls[|calls| - 1], s);
    }
    WalkEqualsScanIff(s);
  }
}
