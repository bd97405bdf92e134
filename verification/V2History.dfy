/** The two views of the job records: the paged history and the dashboard list. */
module V2History {
  import opened Common
  import opened V2State

  datatype Query = Query(
    product: Option<string>, repository: Option<string>, state: Option<JobState>, issueNumber: Option<int>,
    from: Option<int>, to: Option<int>, page: Option<int>, pageSize: Option<int>)

  datatype Page = Page(page: int, pageSize: int, total: nat, jobs: seq<Job>)

  predicate Matches(j: Job, q: Query) {
    && (NonEmpty(q.product) ==> j.ident.product == q.product.value)
    && (NonEmpty(q.repository) ==> j.ident.repository == q.repository.value)
    && (q.state.Some? ==> j.state == q.state.value)
    && (NonZero(q.issueNumber) ==> j.ident.issueNumber == q.issueNumber.value)
    && (q.from.Some? ==> j.updatedAt >= q.from.value)
    && (q.to.Some? ==> j.updatedAt <= q.to.value)
  }

  const ANY := Query(None, None, None, None, None, None, None, None)

  function InState(s: JobState): Query { ANY.(state := Some(s)) }

  function Matching(jobs: seq<Job>, q: Query): seq<Job> {
    if |jobs| == 0 then []
    else (if Matches(jobs[0], q) then [jobs[0]] else []) + Matching(jobs[1..], q)
  }

  /** The jobs that are not COMPLETED. */
  function Operational(jobs: seq<Job>): seq<Job> {
    if |jobs| == 0 then []
    else (if !jobs[0].state.Completed? then [jobs[0]] else []) + Operational(jobs[1..])
  }

  /** Inserts before every job that is not newer, so that equal times keep their order. */
  function Insert(j: Job, sorted: seq<Job>): seq<Job> {
    if |sorted| == 0 || j.updatedAt >= sorted[0].updatedAt then [j] + sorted
    else [sorted[0]] + Insert(j, sorted[1..])
  }

  /** The stable sort by `updatedAt`, newest first. */
  function NewestFirst(jobs: seq<Job>): seq<Job> {
    if |jobs| == 0 then [] else Insert(jobs[0], NewestFirst(jobs[1..]))
  }

  /** `slice(from, to)` for non-negative bounds. */
  function Slice(jobs: seq<Job>, from: nat, to: nat): seq<Job> {
    if from < to && from < |jobs| then jobs[from..Min(to, |jobs|)] else []
  }

  function PageSize(q: Query): (size: int)
    ensures 1 <= size <= 100
  {
    Min(100, Max(1, if q.pageSize.Some? then q.pageSize.value else 25))
  }

  function History(jobs: seq<Job>, q: Query): Page {
    var page, size := Max(1, if q.page.Some? then q.page.value else 1), PageSize(q);
    PageBounds(page, size);
    var found := NewestFirst(Matching(jobs, q));
    Page(page, size, |found|, Slice(found, (page - 1) * size, page * size))
  }

  datatype Dashboard = Dashboard(queueDepth: nat, completedTotal: nat, jobs: seq<Job>)

  function DashboardOf(jobs: seq<Job>): Dashboard {
    var completed := NewestFirst(Matching(jobs, InState(Completed)));
    Dashboard(|Matching(jobs, InState(Queued))|, |completed|, Operational(jobs) + Slice(completed, 0, 3))
  }

  // ------------------------------------------------------------ properties

  predicate Descending(jobs: seq<Job>) {
    forall i, k :: 0 <= i < k < |jobs| ==> jobs[i].updatedAt >= jobs[k].updatedAt
  }

  predicate NoneAfter(jobs: seq<Job>, at: int) { forall k :: 0 <= k < |jobs| ==> jobs[k].updatedAt <= at }

  lemma {:induction false} InsertBounded(j: Job, sorted: seq<Job>, at: int)
    requires NoneAfter(sorted, at) && j.updatedAt <= at
    ensures NoneAfter(Insert(j, sorted), at)
  {
    if |sorted| > 0 && j.updatedAt < sorted[0].updatedAt { InsertBounded(j, sorted[1..], at); }
  }

  lemma {:induction false} InsertSorts(j: Job, sorted: seq<Job>)
    requires Descending(sorted)
    ensures Descending(Insert(j, sorted))
  {
    if |sorted| > 0 && j.updatedAt < sorted[0].updatedAt {
      InsertSorts(j, sorted[1..]);
      InsertBounded(j, sorted[1..], sorted[0].updatedAt);
    }
  }

  lemma {:induction false} InsertPermutes(j: Job, sorted: seq<Job>)
    ensures multiset(Insert(j, sorted)) == multiset(sorted) + multiset{j}
  {
    if |sorted| > 0 && j.updatedAt < sorted[0].updatedAt {
      InsertPermutes(j, sorted[1..]);
      assert sorted == [sorted[0]] + sorted[1..];
    }
  }

  lemma {:induction false} SortSorts(jobs: seq<Job>)
    ensures Descending(NewestFirst(jobs)) && multiset(NewestFirst(jobs)) == multiset(jobs)
  {
    if |jobs| > 0 {
      SortSorts(jobs[1..]);
      InsertSorts(jobs[0], NewestFirst(jobs[1..]));
      InsertPermutes(jobs[0], NewestFirst(jobs[1..]));
      assert jobs == [jobs[0]] + jobs[1..];
    }
  }

  /** A query for a single moment. */
  predicate AtOneTime(q: Query) { q.from.Some? && q.from == q.to }

  lemma {:induction false} MatchingCons(j: Job, rest: seq<Job>, q: Query)
    ensures Matching([j] + rest, q) == (if Matches(j, q) then [j] else []) + Matching(rest, q)
  {
  }

  lemma {:induction false} InsertKeepsOrder(j: Job, sorted: seq<Job>, q: Query)
    requires AtOneTime(q)
    ensures Matching(Insert(j, sorted), q) == Matching([j] + sorted, q)
  {
    if |sorted| > 0 && j.updatedAt < sorted[0].updatedAt {
      var s, rest := sorted[0], sorted[1..];
      InsertKeepsOrder(j, rest, q);
      MatchingCons(s, Insert(j, rest), q);
      MatchingCons(j, rest, q);
      MatchingCons(j, sorted, q);
      assert !(Matches(j, q) && Matches(s, q));
    }
  }

  /** Jobs of one time stay in the order of the store. */
  lemma {:induction false} SortIsStable(jobs: seq<Job>, q: Query)
    requires AtOneTime(q)
    ensures Matching(NewestFirst(jobs), q) == Matching(jobs, q)
  {
    if |jobs| > 0 {
      var rest := NewestFirst(jobs[1..]);
      SortIsStable(jobs[1..], q);
      InsertKeepsOrder(jobs[0], rest, q);
      MatchingCons(jobs[0], rest, q);
    }
  }

  lemma {:induction false} MatchingCounts(jobs: seq<Job>, q: Query, j: Job)
    ensures multiset(Matching(jobs, q))[j] == if Matches(j, q) then multiset(jobs)[j] else 0
  {
    if |jobs| > 0 {
      MatchingCounts(jobs[1..], q, j);
      assert jobs == [jobs[0]] + jobs[1..];
    }
  }

  /** The jobs of pages 1 to n of a query. */
  function FirstPages(jobs: seq<Job>, q: Query, n: nat): seq<Job> {
    if n == 0 then [] else FirstPages(jobs, q, n - 1) + History(jobs, q.(page := Some(n))).jobs
  }

  lemma {:induction false} SlicesJoin(jobs: seq<Job>, a: nat, b: nat)
    requires a < b
    ensures jobs[..Min(a, |jobs|)] + Slice(jobs, a, b) == jobs[..Min(b, |jobs|)]
  {
  }

  /** Page n begins where page n - 1 ends. */
  lemma {:induction false} PageBounds(n: nat, size: int)
    requires n >= 1 && size >= 1
    ensures 0 <= (n - 1) * size < n * size
  {
    assert n * size == (n - 1) * size + size;
  }

  lemma {:induction false} PageIs(jobs: seq<Job>, q: Query, n: nat)
    requires n >= 1
    ensures 0 <= (n - 1) * PageSize(q) < n * PageSize(q)
    ensures
      History(jobs, q.(page := Some(n))).jobs ==
      Slice(NewestFirst(Matching(jobs, q)), (n - 1) * PageSize(q), n * PageSize(q))
  {
    PageBounds(n, PageSize(q));
    SamePages(jobs, q, n);
  }

  lemma {:induction false} PagesAreConsecutive(jobs: seq<Job>, q: Query, n: nat)
    ensures
      var found := NewestFirst(Matching(jobs, q));
      FirstPages(jobs, q, n) == found[..Min(n * PageSize(q), |found|)]
  {
    var found, size := NewestFirst(Matching(jobs, q)), PageSize(q);
    if n > 0 {
      PagesAreConsecutive(jobs, q, n - 1);
      PageIs(jobs, q, n);
      SlicesJoin(found, (n - 1) * size, n * size);
    }
  }

  /** The page number does not take part in the selection. */
  lemma {:induction false} SamePages(jobs: seq<Job>, q: Query, n: nat)
    ensures Matching(jobs, q.(page := Some(n))) == Matching(jobs, q)
  {
    if |jobs| > 0 { SamePages(jobs[1..], q, n); }
  }

  /** The pages of a query together are exactly the jobs that agree with every filter that is given, each as often as
      it is stored, newest first. */
  lemma {:induction false} PagesCoverTheHistory(jobs: seq<Job>, q: Query, n: nat, j: Job)
    requires n * PageSize(q) >= History(jobs, q).total
    ensures Descending(FirstPages(jobs, q, n))
    ensures
      multiset(FirstPages(jobs, q, n))[j] ==
      if && (q.product.None? || q.product == Some("") || q.product == Some(j.ident.product))
         && (q.repository.None? || q.repository == Some("") || q.repository == Some(j.ident.repository))
         && (q.state.None? || q.state == Some(j.state))
         && (q.issueNumber.None? || q.issueNumber == Some(0) || q.issueNumber == Some(j.ident.issueNumber))
         && (q.from.None? || q.from.value <= j.updatedAt) && (q.to.None? || j.updatedAt <= q.to.value)
      then multiset(jobs)[j] else 0
  {
    var found := Matching(jobs, q);
    PagesAreConsecutive(jobs, q, n);
    SortSorts(found);
    assert FirstPages(jobs, q, n) == NewestFirst(found);
    MatchingCounts(jobs, q, j);
  }

  /** The positions of the jobs in a state. */
  function Positions(jobs: seq<Job>, s: JobState): set<nat> { set i: nat | i < |jobs| && jobs[i].state == s }

  lemma {:induction false} MatchingAppend(jobs: seq<Job>, j: Job, q: Query)
    ensures Matching(jobs + [j], q) == Matching(jobs, q) + if Matches(j, q) then [j] else []
  {
    if |jobs| > 0 {
      assert (jobs + [j])[1..] == jobs[1..] + [j];
      MatchingAppend(jobs[1..], j, q);
    }
  }

  lemma {:induction false} MatchingIsCounted(jobs: seq<Job>, s: JobState)
    ensures |Matching(jobs, InState(s))| == |Positions(jobs, s)|
    decreases |jobs|
  {
    if |jobs| == 0 {
      assert Positions(jobs, s) == {};
    } else {
      var n := |jobs| - 1;
      assert jobs == jobs[..n] + [jobs[n]];
      MatchingAppend(jobs[..n], jobs[n], InState(s));
      MatchingIsCounted(jobs[..n], s);
      OneMorePosition(jobs, s);
    }
  }

  lemma {:induction false} OneMorePosition(jobs: seq<Job>, s: JobState)
    requires |jobs| > 0
    ensures |Positions(jobs, s)| == |Positions(jobs[..|jobs|-1], s)| + if jobs[|jobs|-1].state == s then 1 else 0
  {
    var n := |jobs| - 1;
    assert Positions(jobs, s) == Positions(jobs[..n], s) + if jobs[n].state == s then {n} else {};
  }

  lemma {:induction false} SliceFits(jobs: seq<Job>, n: int, size: int)
    requires n >= 1 && size >= 1
    ensures 0 <= (n - 1) * size < n * size && |Slice(jobs, (n - 1) * size, n * size)| <= size
  {
    PageBounds(n, size);
    assert n * size - (n - 1) * size == size;
  }

  /** A page says how many jobs match, and has at most its size of them. */
  lemma {:induction false} PageFits(jobs: seq<Job>, q: Query)
    ensures History(jobs, q).total == |Matching(jobs, q)| && |History(jobs, q).jobs| <= History(jobs, q).pageSize
  {
    var found := NewestFirst(Matching(jobs, q));
    SortSorts(Matching(jobs, q));
    assert |multiset(found)| == |multiset(Matching(jobs, q))|;
    SliceFits(found, Max(1, if q.page.Some? then q.page.value else 1), PageSize(q));
  }

  /** A page says which one it is, at least the first, and its size: 25 unless asked otherwise, between 1 and 100. */
  lemma {:induction false} PageIsLabelled(jobs: seq<Job>, q: Query)
    ensures
      var h := History(jobs, q);
      && (h.page == if q.page.Some? && q.page.value >= 1 then q.page.value else 1)
      && (q.pageSize.None? ==> h.pageSize == 25) && 1 <= h.pageSize <= 100
      && (q.pageSize.Some? && 1 <= q.pageSize.value <= 100 ==> h.pageSize == q.pageSize.value)
      && (q.pageSize.Some? && q.pageSize.value > 100 ==> h.pageSize == 100)
  {
  }

  /** The two totals of the dashboard count the QUEUED and the COMPLETED jobs. */
  lemma {:induction false} DashboardCounts(jobs: seq<Job>)
    ensures DashboardOf(jobs).queueDepth == |Positions(jobs, Queued)|
    ensures DashboardOf(jobs).completedTotal == |Positions(jobs, Completed)|
  {
    MatchingIsCounted(jobs, Queued);
    MatchingIsCounted(jobs, Completed);
    var completed := Matching(jobs, InState(Completed));
    SortSorts(completed);
    assert |multiset(NewestFirst(completed))| == |multiset(completed)|;
  }

  lemma {:induction false} OperationalSplits(jobs: seq<Job>, j: Job)
    ensures |Operational(jobs)| + |Matching(jobs, InState(Completed))| == |jobs|
    ensures j in Operational(jobs) <==> j in jobs && !j.state.Completed?
  {
    if |jobs| > 0 { OperationalSplits(jobs[1..], j); }
  }

  /** The dashboard shows every job that is not COMPLETED and only the newest three that are; together with the
      completed total it accounts for every job. */
  lemma {:induction false} DashboardIsComplete(jobs: seq<Job>, j: Job)
    requires j in jobs
    ensures
      var d := DashboardOf(jobs);
      && |d.jobs| + d.completedTotal == |jobs| + Min(3, d.completedTotal)
      && (!j.state.Completed? ==> j in d.jobs)
      && (j.state.Completed? && j !in d.jobs ==>
            && d.completedTotal > 3
            && forall k :: |d.jobs| - 3 <= k < |d.jobs| ==>
                 0 <= k && d.jobs[k].state.Completed? && d.jobs[k].updatedAt >= j.updatedAt)
  {
    var completed := Matching(jobs, InState(Completed));
    var sorted := NewestFirst(completed);
    OperationalSplits(jobs, j);
    SortSorts(completed);
    assert |multiset(sorted)| == |multiset(completed)|;
    MatchingCounts(jobs, InState(Completed), j);
    assert j in multiset(jobs);
    forall k | 0 <= k < |sorted| ensures sorted[k].state.Completed? {
      assert sorted[k] in multiset(sorted);
      MatchingCounts(jobs, InState(Completed), sorted[k]);
    }
    if j.state.Completed? {
      assert j in multiset(sorted);
      var at :| 0 <= at < |sorted| && sorted[at] == j;
    }
  }
}
