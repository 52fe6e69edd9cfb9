/** Sums over the job table and the bag of ids over the pages. */
module Tallies {
  import opened Types
  import opened Accounts

  /** The sum of f over the jobs with ids below n. */
  ghost function Tally(jobs: map<U64, JobData>, n: nat, f: JobData -> nat): nat {
    if n == 0 then 0
    else Tally(jobs, n - 1, f) + if n - 1 in jobs then f(jobs[n - 1]) else 0
  }

  /** How often the id occurs on the pages with sequence numbers below n. */
  ghost function Occurs(pages: map<U64, PageData>, n: nat, id: U64): nat {
    if n == 0 then 0
    else Occurs(pages, n - 1, id) + if n - 1 in pages then Copies(pages[n - 1].jobIds, id) else 0
  }

  ghost function Copies(ids: seq<U64>, id: U64): nat {
    multiset(ids)[id]
  }

  lemma {:induction false} TallyFrame(jobs: map<U64, JobData>, jobs': map<U64, JobData>, n: nat, f: JobData -> nat)
    requires forall i: U64 | i < n :: i in jobs && i in jobs' && f(jobs[i]) == f(jobs'[i])
    requires n <= U64_MAX + 1
    ensures Tally(jobs, n, f) == Tally(jobs', n, f)
  {
    if n > 0 {
      TallyFrame(jobs, jobs', n - 1, f);
      var last: U64 := n - 1;
      assert last in jobs && last in jobs';
    }
  }

  lemma {:induction false} TallyUpdate(jobs: map<U64, JobData>, n: nat, f: JobData -> nat, i: U64, j: JobData)
    requires i < n && i in jobs
    ensures Tally(jobs[i := j], n, f) + f(jobs[i]) == Tally(jobs, n, f) + f(j)
  {
    if i < n - 1 {
      TallyUpdate(jobs, n - 1, f, i, j);
    } else {
      TallyBeyond(jobs, n - 1, f, i, j);
    }
  }

  lemma {:induction false} TallyBeyond(jobs: map<U64, JobData>, n: nat, f: JobData -> nat, i: U64, j: JobData)
    requires n <= i
    ensures Tally(jobs[i := j], n, f) == Tally(jobs, n, f)
  {
    if n > 0 {
      TallyBeyond(jobs, n - 1, f, i, j);
    }
  }

  lemma {:induction false} TallyBound(jobs: map<U64, JobData>, n: nat, f: JobData -> nat, most: nat)
    requires forall i | i in jobs :: f(jobs[i]) <= most
    ensures Tally(jobs, n, f) <= most * n
  {
    if n > 0 {
      TallyBound(jobs, n - 1, f, most);
    }
  }

  lemma {:induction false} TallyAtLeast(jobs: map<U64, JobData>, n: nat, f: JobData -> nat, i: U64)
    requires i < n && i in jobs
    ensures Tally(jobs, n, f) >= f(jobs[i])
  {
    if i < n - 1 {
      TallyAtLeast(jobs, n - 1, f, i);
    }
  }

  lemma {:induction false} TallyWitness(jobs: map<U64, JobData>, n: nat, f: JobData -> nat) returns (i: U64)
    requires Tally(jobs, n, f) > 0 && n <= U64_MAX + 1
    ensures i < n && i in jobs && f(jobs[i]) > 0
  {
    if n - 1 in jobs && f(jobs[n - 1]) > 0 {
      i := n - 1;
    } else {
      i := TallyWitness(jobs, n - 1, f);
    }
  }

  lemma OccursNext(pages: map<U64, PageData>, n: nat, id: U64)
    requires n in pages
    ensures Occurs(pages, n + 1, id) == Occurs(pages, n, id) + Copies(pages[n].jobIds, id)
  {
  }

  lemma {:induction false} OccursUpdate(pages: map<U64, PageData>, n: nat, p: U64, d: PageData, id: U64)
    requires p < n && p in pages
    ensures Occurs(pages[p := d], n, id) + Copies(pages[p].jobIds, id) == Occurs(pages, n, id) + Copies(d.jobIds, id)
  {
    if p < n - 1 {
      OccursUpdate(pages, n - 1, p, d, id);
    } else {
      OccursBeyond(pages, n - 1, p, d, id);
    }
  }

  lemma {:induction false} OccursBeyond(pages: map<U64, PageData>, n: nat, p: U64, d: PageData, id: U64)
    requires n <= p
    ensures Occurs(pages[p := d], n, id) == Occurs(pages, n, id)
  {
    if n > 0 {
      OccursBeyond(pages, n - 1, p, d, id);
    }
  }

  lemma {:induction false} OccursAtLeast(pages: map<U64, PageData>, n: nat, p: U64, id: U64)
    requires p < n && p in pages
    ensures Occurs(pages, n, id) >= Copies(pages[p].jobIds, id)
  {
    if p < n - 1 {
      OccursAtLeast(pages, n - 1, p, id);
    }
  }

  lemma {:induction false} OccursOnTwo(pages: map<U64, PageData>, n: nat, p: U64, q: U64, id: U64)
    requires p < q < n && p in pages && q in pages
    ensures Occurs(pages, n, id) >= Copies(pages[p].jobIds, id) + Copies(pages[q].jobIds, id)
  {
    if q < n - 1 {
      OccursOnTwo(pages, n - 1, p, q, id);
    } else {
      OccursAtLeast(pages, n - 1, p, id);
    }
  }

  lemma {:induction false} OccursWitness(pages: map<U64, PageData>, n: nat, id: U64) returns (p: U64)
    requires Occurs(pages, n, id) > 0 && n <= U64_MAX + 1
    ensures p < n && p in pages && id in pages[p].jobIds
  {
    if n - 1 in pages && id in pages[n - 1].jobIds {
      p := n - 1;
    } else {
      p := OccursWitness(pages, n - 1, id);
    }
  }

  lemma CopiesAfterPush(ids: seq<U64>, id: U64)
    ensures forall k: U64 :: Copies(ids + [id], k) == Copies(ids, k) + if k == id then 1 else 0
  {
  }

  lemma CopiesAfterTake(ids: seq<U64>, id: U64)
    requires id in ids
    ensures |RemoveJob(ids, id).value| == |ids| - 1
    ensures forall k: U64 :: Copies(RemoveJob(ids, id).value, k) == Copies(ids, k) - if k == id then 1 else 0
  {
    RemoveJobBag(ids, id);
  }
}
