/** The order in which a worker goes through the jobs that are ready. */
module WorkerOrder {
  import opened Accounts
  import opened Sorting

  /** What the client knows of a job that matters here. Times are in milliseconds. */
  datatype JobRecord = JobRecord(jobId: int, status: JobStatus, priority: int, executeAfter: int)

  function Compare(a: JobRecord, b: JobRecord): int {
    if a.priority != b.priority then b.priority - a.priority
    else if a.executeAfter != b.executeAfter then a.executeAfter - b.executeAfter
    else a.jobId - b.jobId
  }

  predicate NotAfter(a: JobRecord, b: JobRecord) {
    Compare(a, b) <= 0
  }

  predicate IsReady(now: int, job: JobRecord) {
    job.status.Pending? && job.executeAfter <= now
  }

  function ReadyJobs(jobs: seq<JobRecord>, now: int): seq<JobRecord> {
    Filter(j => IsReady(now, j), jobs)
  }

  function SortReadyJobs(jobs: seq<JobRecord>, now: int): seq<JobRecord> {
    Sort(NotAfter, ReadyJobs(jobs, now))
  }

  /** The comparator is a total order on jobs with different ids. */
  lemma CompareIsTotalOrder()
    ensures TotalPreorder(NotAfter)
    ensures forall a, b {:trigger Compare(a, b)} :: Compare(a, b) == 0 ==> a.jobId == b.jobId
    ensures forall a, b {:trigger Compare(a, b)} :: Compare(a, b) < 0 <==> Compare(b, a) > 0
  {
  }

  /** No two different records carry the same id. */
  ghost predicate IdsIdentify(jobs: seq<JobRecord>) {
    forall a, b :: a in jobs && b in jobs && a.jobId == b.jobId ==> a == b
  }

  /** In front of another: higher priority first, then the earlier due time, then the lower id. */
  predicate Precedes(a: JobRecord, b: JobRecord) {
    || a.priority > b.priority
    || (a.priority == b.priority && a.executeAfter < b.executeAfter)
    || (a.priority == b.priority && a.executeAfter == b.executeAfter && a.jobId < b.jobId)
  }

  lemma ReadyExactly(jobs: seq<JobRecord>, now: int, j: JobRecord)
    ensures multiset(ReadyJobs(jobs, now))[j]
            == if j.status == Pending && j.executeAfter <= now then multiset(jobs)[j] else 0
    ensures j in ReadyJobs(jobs, now) ==> j in jobs
  {
    FilterCopies(k => IsReady(now, k), jobs, j);
    FilterMembers(k => IsReady(now, k), jobs, j);
  }

  lemma BagIsReady(jobs: seq<JobRecord>, now: int, result: seq<JobRecord>)
    ensures multiset(result) == multiset(ReadyJobs(jobs, now)) <==>
      forall j: JobRecord ::
        multiset(result)[j] == if j.status == Pending && j.executeAfter <= now then multiset(jobs)[j] else 0
  {
    var bag, ready := multiset(result), multiset(ReadyJobs(jobs, now));
    forall j: JobRecord
      ensures ready[j] == if j.status == Pending && j.executeAfter <= now then multiset(jobs)[j] else 0
    {
      ReadyExactly(jobs, now, j);
    }
    if forall j: JobRecord :: bag[j] == ready[j] {
      assert bag == ready;
    }
  }

  lemma NotAfterIsPrecedes(jobs: seq<JobRecord>, a: JobRecord, b: JobRecord)
    requires IdsIdentify(jobs) && a in jobs && b in jobs
    ensures NotAfter(a, b) <==> a == b || Precedes(a, b)
  {
  }

  lemma SortedIsPreceding(jobs: seq<JobRecord>, result: seq<JobRecord>)
    requires IdsIdentify(jobs) && forall j | j in result :: j in jobs
    ensures SortedBy(NotAfter, result) <==>
      forall i, k :: 0 <= i < k < |result| ==> result[i] == result[k] || Precedes(result[i], result[k])
  {
    forall i, k | 0 <= i < k < |result|
      ensures NotAfter(result[i], result[k]) <==> result[i] == result[k] || Precedes(result[i], result[k])
    {
      NotAfterIsPrecedes(jobs, result[i], result[k]);
    }
  }

  /** Records with the same id being the same, no two ready jobs tie. */
  lemma ReadyDoNotTie(jobs: seq<JobRecord>, now: int)
    requires IdsIdentify(jobs)
    ensures NoTies(NotAfter, ReadyJobs(jobs, now))
  {
    forall j | j in ReadyJobs(jobs, now)
      ensures j in jobs
    {
      ReadyExactly(jobs, now, j);
    }
  }

  /** With ids that identify jobs, the result is the one list that holds exactly the ready jobs,
      as often as given, each in front of all later ones it does not equal. */
  lemma ReadyJobsAreCanonical(jobs: seq<JobRecord>, now: int, result: seq<JobRecord>)
    requires IdsIdentify(jobs)
    ensures result == SortReadyJobs(jobs, now) <==>
      && (forall j: JobRecord ::
            multiset(result)[j] == if j.status == Pending && j.executeAfter <= now then multiset(jobs)[j] else 0)
      && (forall i, k :: 0 <= i < k < |result| ==> result[i] == result[k] || Precedes(result[i], result[k]))
  {
    var ready := ReadyJobs(jobs, now);
    CompareIsTotalOrder();
    ReadyDoNotTie(jobs, now);
    SortIsCanonical(NotAfter, ready, result);
    BagIsReady(jobs, now, result);
    if multiset(result) == multiset(ready) {
      forall j | j in result
        ensures j in jobs
      {
        assert j in multiset(ready);
        ReadyExactly(jobs, now, j);
      }
      SortedIsPreceding(jobs, result);
    }
  }

  /** The order does not depend on the order in which the jobs were fetched. */
  lemma FetchOrderIsIrrelevant(a: seq<JobRecord>, b: seq<JobRecord>, now: int)
    requires IdsIdentify(a) && multiset(a) == multiset(b)
    ensures SortReadyJobs(a, now) == SortReadyJobs(b, now)
  {
    forall j | j in b
      ensures j in a
    {
      assert j in multiset(b);
    }
    ReadyJobsAreCanonical(a, now, SortReadyJobs(a, now));
    ReadyJobsAreCanonical(b, now, SortReadyJobs(a, now));
  }
}
