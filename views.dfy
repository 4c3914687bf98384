/** The two screens that derive lists and figures from the job-list view
    model: the saved / applied tabs and the statistics form. */
module Views {
  import opened Seqs
  import opened Models
  import opened JobList

  // ---------------------------------------------------------------------------
  // Saved and applied jobs

  datatype Tab = Saved | Applied

  /** `savedJobs` and `appliedJobs`: the loaded jobs whose id is in the
      tab's set, in load order. An id of a job that is not loaded contributes
      nothing. */
  function JobsWithIDs(jobs: seq<Job>, ids: set<int>): (r: seq<Job>)
    ensures |r| <= |jobs|
    ensures IsSubsequence(r, jobs)
    ensures forall j :: j in r <==> j in jobs && j.id in ids
    ensures forall j :: multiset(r)[j] == if j.id in ids then multiset(jobs)[j] else 0
  {
    var keep := (j: Job) => j.id in ids;
    FilterIsSubsequence(jobs, keep);
    FilterKeepsEveryOccurrence(jobs, keep);
    Filter(jobs, keep)
  }

  /** The list the selected tab shows: saved jobs or applied jobs. */
  function ListedJobs(tab: Tab, jobs: seq<Job>, savedJobIDs: set<int>, respondedJobIDs: set<int>): (r: seq<Job>)
    ensures IsSubsequence(r, jobs)
    ensures tab == Saved ==> forall j :: j in r <==> j in jobs && j.id in savedJobIDs
    ensures tab == Applied ==> forall j :: j in r <==> j in jobs && j.id in respondedJobIDs
    ensures tab == Saved ==> forall j :: multiset(r)[j] == if j.id in savedJobIDs then multiset(jobs)[j] else 0
    ensures tab == Applied ==> forall j :: multiset(r)[j] == if j.id in respondedJobIDs then multiset(jobs)[j] else 0
  {
    JobsWithIDs(jobs, if tab == Saved then savedJobIDs else respondedJobIDs)
  }

  /** Whether "No jobs here" is shown under the list: exactly when no loaded
      job has an id of the selected tab's set. */
  function ShowsPlaceholder(tab: Tab, jobs: seq<Job>, savedJobIDs: set<int>, respondedJobIDs: set<int>): (b: bool)
    ensures b <==> forall j :: j in jobs ==> j.id !in (if tab == Saved then savedJobIDs else respondedJobIDs)
  {
    |ListedJobs(tab, jobs, savedJobIDs, respondedJobIDs)| == 0
  }

  // ---------------------------------------------------------------------------
  // Statistics

  /** `Set(vm.jobs.map { $0.company.name })`. */
  function CompanyNames(jobs: seq<Job>): set<string> {
    set j | j in jobs :: j.company.name
  }

  lemma {:induction false} CompanyNamesBound(jobs: seq<Job>)
    ensures |CompanyNames(jobs)| <= |jobs|
    ensures |CompanyNames(jobs)| == 0 <==> jobs == []
  {
    if jobs != [] {
      var tail := jobs[1..];
      CompanyNamesBound(tail);
      assert CompanyNames(jobs) == CompanyNames(tail) + {jobs[0].company.name} by {
        assert jobs == [jobs[0]] + tail;
      }
    } else {
      assert CompanyNames(jobs) == {};
    }
  }

  /** The four figures of the statistics form. */
  datatype StatsFigures = StatsFigures(applied: nat, totalJobs: nat, bookmarked: nat, uniqueCompanies: nat)

  function Figures(jobs: seq<Job>, savedJobIDs: set<int>, respondedJobIDs: set<int>): (f: StatsFigures)
    ensures f.applied == |respondedJobIDs| && f.bookmarked == |savedJobIDs| && f.totalJobs == |jobs|
    ensures f.uniqueCompanies == |CompanyNames(jobs)|
    ensures f.uniqueCompanies <= f.totalJobs
    ensures f.uniqueCompanies == 0 <==> f.totalJobs == 0
  {
    CompanyNamesBound(jobs);
    StatsFigures(|respondedJobIDs|, |jobs|, |savedJobIDs|, |CompanyNames(jobs)|)
  }

  /** A later page never lowers the job or company figures. */
  lemma FiguresGrowWithPages(jobs: seq<Job>, page: int, results: seq<Job>, savedJobIDs: set<int>, respondedJobIDs: set<int>)
    requires page != 1
    ensures var before := Figures(jobs, savedJobIDs, respondedJobIDs);
      var after := Figures(NextJobs(jobs, page, results), savedJobIDs, respondedJobIDs);
      after.totalJobs == before.totalJobs + |results| && after.uniqueCompanies >= before.uniqueCompanies
  {
    var next := NextJobs(jobs, page, results);
    assert CompanyNames(jobs) <= CompanyNames(next) by {
      forall c | c in CompanyNames(jobs) ensures c in CompanyNames(next) {
        var j :| j in jobs && j.company.name == c;
        assert j in next;
      }
    }
    assert |CompanyNames(jobs)| <= |CompanyNames(next)| by {
      SubsetCardinality(CompanyNames(jobs), CompanyNames(next));
    }
  }

  lemma SubsetCardinality(a: set<string>, b: set<string>)
    requires a <= b
    ensures |a| <= |b|
  {
    assert b == a + (b - a);
  }
}
