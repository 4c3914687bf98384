/** The job-list view model: the loaded postings, the pagination cursor, the
    three list filters and the locally kept saved / responded job ids. */
module JobList {
  import opened Wrappers
  import opened Seqs
  import opened Text
  import opened Models

  /** The filter value that places no constraint. */
  const AllOption: string := "All"

  // ---------------------------------------------------------------------------
  // Filtering

  predicate MatchesSearch(job: Job, searchText: string) {
    || searchText == ""
    || ContainsIgnoringCase(job.name, searchText)
    || ContainsIgnoringCase(job.company.name, searchText)
  }

  predicate MatchesLocation(job: Job, selectedLocation: string) {
    selectedLocation == AllOption || exists l :: l in job.locations && l.name == selectedLocation
  }

  predicate MatchesCategory(job: Job, selectedCategory: string) {
    selectedCategory == AllOption || exists c :: c in job.categories && c.name == selectedCategory
  }

  predicate Matches(job: Job, searchText: string, selectedLocation: string, selectedCategory: string) {
    MatchesSearch(job, searchText) && MatchesLocation(job, selectedLocation) && MatchesCategory(job, selectedCategory)
  }

  /** `filteredJobs`: the loaded jobs that pass all three filters, in load order. */
  function Filtered(jobs: seq<Job>, searchText: string, selectedLocation: string, selectedCategory: string): (r: seq<Job>)
    ensures IsSubsequence(r, jobs)
    ensures forall j :: j in r <==> j in jobs && Matches(j, searchText, selectedLocation, selectedCategory)
    ensures forall j :: multiset(r)[j] == if Matches(j, searchText, selectedLocation, selectedCategory) then multiset(jobs)[j] else 0
  {
    var keep := (j: Job) => Matches(j, searchText, selectedLocation, selectedCategory);
    FilterIsSubsequence(jobs, keep);
    FilterKeepsEveryOccurrence(jobs, keep);
    Filter(jobs, keep)
  }

  /** With no search text and both selections at "All", every job is shown. */
  lemma FilteredDefaultShowsAll(jobs: seq<Job>)
    ensures Filtered(jobs, "", AllOption, AllOption) == jobs
  {
    FilterAllPass(jobs, (j: Job) => Matches(j, "", AllOption, AllOption));
  }

  /** The search ignores the case of the search text. */
  lemma FilteredIgnoresSearchCase(jobs: seq<Job>, searchText: string, selectedLocation: string, selectedCategory: string)
    ensures Filtered(jobs, Fold(searchText), selectedLocation, selectedCategory)
         == Filtered(jobs, searchText, selectedLocation, selectedCategory)
  {
    forall j | j in jobs
      ensures Matches(j, Fold(searchText), selectedLocation, selectedCategory)
           == Matches(j, searchText, selectedLocation, selectedCategory)
    {
      IgnoresCase(j.name, searchText);
      IgnoresCase(j.company.name, searchText);
    }
    FilterCongruent(jobs,
      (j: Job) => Matches(j, Fold(searchText), selectedLocation, selectedCategory),
      (j: Job) => Matches(j, searchText, selectedLocation, selectedCategory));
  }

  // ---------------------------------------------------------------------------
  // Filter options

  function NamesOfLocations(ls: seq<Location>): (r: seq<string>)
    ensures forall x :: x in r <==> exists l :: l in ls && l.name == x
  {
    if ls == [] then []
    else
      assert forall l :: l in ls <==> l == ls[0] || l in ls[1..] by {
        assert ls == [ls[0]] + ls[1..];
      }
      [ls[0].name] + NamesOfLocations(ls[1..])
  }

  function NamesOfCategories(cs: seq<Category>): (r: seq<string>)
    ensures forall x :: x in r <==> exists c :: c in cs && c.name == x
  {
    if cs == [] then []
    else
      assert forall c :: c in cs <==> c == cs[0] || c in cs[1..] by {
        assert cs == [cs[0]] + cs[1..];
      }
      [cs[0].name] + NamesOfCategories(cs[1..])
  }

  /** `jobs.flatMap { $0.locations.map(\.name) }`. */
  function LocationNames(jobs: seq<Job>): (r: seq<string>)
    ensures forall x :: x in r <==> exists j :: j in jobs && x in NamesOfLocations(j.locations)
  {
    if jobs == [] then []
    else
      assert forall j :: j in jobs <==> j == jobs[0] || j in jobs[1..] by {
        assert jobs == [jobs[0]] + jobs[1..];
      }
      NamesOfLocations(jobs[0].locations) + LocationNames(jobs[1..])
  }

  /** `jobs.flatMap { $0.categories.map(\.name) }`. */
  function CategoryNames(jobs: seq<Job>): (r: seq<string>)
    ensures forall x :: x in r <==> exists j :: j in jobs && x in NamesOfCategories(j.categories)
  {
    if jobs == [] then []
    else
      assert forall j :: j in jobs <==> j == jobs[0] || j in jobs[1..] by {
        assert jobs == [jobs[0]] + jobs[1..];
      }
      NamesOfCategories(jobs[0].categories) + CategoryNames(jobs[1..])
  }

  /** `locations`: "All", then every location name of the loaded jobs once,
      in ascending order. */
  function LocationOptions(jobs: seq<Job>): (r: seq<string>)
    ensures |r| >= 1 && r[0] == AllOption
    ensures StrictlyAscending(r[1..])
    ensures forall x :: x in r[1..] <==> exists j, l :: j in jobs && l in j.locations && l.name == x
    ensures |r| == 1 + |set x | x in LocationNames(jobs)|
  {
    var names := LocationNames(jobs);
    SortedDistinctCount(names);
    assert ([AllOption] + SortedDistinct(names))[1..] == SortedDistinct(names);
    [AllOption] + SortedDistinct(names)
  }

  /** `categories`: "All", then every category name of the loaded jobs once,
      in ascending order. */
  function CategoryOptions(jobs: seq<Job>): (r: seq<string>)
    ensures |r| >= 1 && r[0] == AllOption
    ensures StrictlyAscending(r[1..])
    ensures forall x :: x in r[1..] <==> exists j, c :: j in jobs && c in j.categories && c.name == x
    ensures |r| == 1 + |set x | x in CategoryNames(jobs)|
  {
    var names := CategoryNames(jobs);
    SortedDistinctCount(names);
    assert ([AllOption] + SortedDistinct(names))[1..] == SortedDistinct(names);
    [AllOption] + SortedDistinct(names)
  }

  // ---------------------------------------------------------------------------
  // Pagination and the id sets

  /** The job list after a page arrives: page 1 replaces it, any other page is
      appended as it is, without removing ids already loaded. */
  function NextJobs(jobs: seq<Job>, page: int, results: seq<Job>): (r: seq<Job>)
    ensures page == 1 ==> r == results
    ensures page != 1 ==> |r| == |jobs| + |results| && r[..|jobs|] == jobs && r[|jobs|..] == results
  {
    if page == 1 then results else jobs + results
  }

  /** Loading page 1 with job 1 and then page 2 with jobs 1 and 2 leaves
      three entries, two of them the same job. */
  lemma NextJobsKeepsDuplicates(job1: Job, job2: Job)
    requires job1.id == 1 && job2.id == 2
    ensures var jobs := NextJobs(NextJobs([], 1, [job1]), 2, [job1, job2]);
      |jobs| == 3 && SameJob(jobs[0], jobs[1])
  {
  }

  /** Later pages never shrink the list. */
  lemma NextJobsGrows(jobs: seq<Job>, page: int, results: seq<Job>)
    requires page != 1
    ensures |NextJobs(jobs, page, results)| >= |jobs|
    ensures forall j :: j in jobs ==> j in NextJobs(jobs, page, results)
  {
  }

  /** `toggleSave`: flips whether `id` is in the set and nothing else. */
  function Toggled(s: set<int>, id: int): (r: set<int>)
    ensures id in r <==> id !in s
    ensures forall x :: x != id ==> (x in r <==> x in s)
  {
    if id in s then s - {id} else s + {id}
  }

  lemma ToggledTwice(s: set<int>, id: int)
    ensures Toggled(Toggled(s, id), id) == s
  {
  }

  /** The error the jobs service reports; its content is only logged. */
  datatype ServiceError = ServiceError(description: string)

  /** Every field of the view model, for stating what a method changes. */
  datatype ListState = ListState(
    jobs: seq<Job>,
    searchText: string,
    selectedLocation: string,
    selectedCategory: string,
    currentPage: int,
    totalPages: int,
    isLoading: bool,
    savedJobIDs: set<int>,
    responseCount: int,
    respondedJobIDs: set<int>,
    requestedPage: int)

  function SetOf(xs: seq<int>): set<int> {
    set x | x in xs
  }

  class JobListViewModel {
    var jobs: seq<Job>
    var searchText: string
    var selectedLocation: string
    var selectedCategory: string
    var currentPage: int
    var totalPages: int
    var isLoading: bool
    var savedJobIDs: set<int>
    var responseCount: int
    var respondedJobIDs: set<int>
    /** The page the load in flight asked for; the app keeps it in the
        service callback's closure. */
    var requestedPage: int

    function State(): ListState
      reads this
    {
      ListState(jobs, searchText, selectedLocation, selectedCategory, currentPage, totalPages,
                isLoading, savedJobIDs, responseCount, respondedJobIDs, requestedPage)
    }

    /** `init(service:)`, given what the device stored earlier: the saved ids,
        the responded ids and the response count (0 when nothing is stored).
        It starts loading page 1, so a load is in flight afterwards. */
    constructor (storedSavedJobs: Option<seq<int>>, storedRespondedJobs: Option<seq<int>>, storedResponseCount: int)
      ensures jobs == [] && searchText == "" && selectedLocation == AllOption && selectedCategory == AllOption
      ensures currentPage == 1 && totalPages == 1
      ensures savedJobIDs == SetOf(storedSavedJobs.GetOr([]))
      ensures respondedJobIDs == SetOf(storedRespondedJobs.GetOr([]))
      ensures responseCount == storedResponseCount
      ensures isLoading && requestedPage == 1
    {
      jobs := [];
      searchText := "";
      selectedLocation := AllOption;
      selectedCategory := AllOption;
      currentPage := 1;
      totalPages := 1;
      isLoading := false;
      savedJobIDs := {};
      responseCount := storedResponseCount;
      respondedJobIDs := SetOf(storedRespondedJobs.GetOr([]));
      requestedPage := 1;
      new;
      LoadSavedJobs(storedSavedJobs);
      var started := BeginLoad(1);
    }

    /** `loadSavedJobs`: takes the stored saved ids when there are any. */
    method LoadSavedJobs(stored: Option<seq<int>>)
      modifies this
      ensures State() == old(State()).(savedJobIDs := if stored.Some? then SetOf(stored.value) else old(savedJobIDs))
    {
      if stored.Some? {
        savedJobIDs := SetOf(stored.value);
      }
    }

    /** `filteredJobs`. */
    function FilteredJobs(): (r: seq<Job>)
      reads this
      ensures IsSubsequence(r, jobs)
      ensures forall j :: j in r <==> j in jobs && Matches(j, searchText, selectedLocation, selectedCategory)
      ensures forall j :: multiset(r)[j] == if Matches(j, searchText, selectedLocation, selectedCategory) then multiset(jobs)[j] else 0
    {
      Filtered(jobs, searchText, selectedLocation, selectedCategory)
    }

    /** `locations`. */
    function Locations(): (r: seq<string>)
      reads this
      ensures |r| >= 1 && r[0] == AllOption && StrictlyAscending(r[1..])
      ensures forall x :: x in r[1..] <==> exists j, l :: j in jobs && l in j.locations && l.name == x
    {
      LocationOptions(jobs)
    }

    /** `categories`. */
    function Categories(): (r: seq<string>)
      reads this
      ensures |r| >= 1 && r[0] == AllOption && StrictlyAscending(r[1..])
      ensures forall x :: x in r[1..] <==> exists j, c :: j in jobs && c in j.categories && c.name == x
    {
      CategoryOptions(jobs)
    }

    /** The synchronous half of `loadPage`: the guard, and marking a load as
        in flight. */
    method BeginLoad(page: int) returns (started: bool)
      modifies this
      ensures started <==> !old(isLoading) && page <= old(totalPages)
      ensures started ==> State() == old(State()).(isLoading := true, requestedPage := page)
      ensures !started ==> State() == old(State())
    {
      if isLoading || page > totalPages {
        return false;
      }
      isLoading := true;
      requestedPage := page;
      started := true;
    }

    /** The service callback of `loadPage`: a page replaces or extends the
        list and moves the cursor; a failure is only logged. Either way the
        load is over. */
    method CompleteLoad(result: Result<JobsResponse, ServiceError>)
      requires isLoading
      modifies this
      ensures result.Success? ==> State() == old(State()).(
        totalPages := result.value.pageCount,
        currentPage := result.value.page,
        jobs := NextJobs(old(jobs), old(requestedPage), result.value.results),
        isLoading := false)
      ensures result.Failure? ==> State() == old(State()).(isLoading := false)
    {
      match result {
        case Success(resp) =>
          totalPages := resp.pageCount;
          currentPage := resp.page;
          if requestedPage == 1 {
            jobs := resp.results;
          } else {
            jobs := jobs + resp.results;
          }
        case Failure(_) =>
      }
      isLoading := false;
    }

    /** `toggleSave(jobID:)`: flips the id's membership right away. */
    method ToggleSave(jobID: int)
      modifies this
      ensures State() == old(State()).(savedJobIDs := Toggled(old(savedJobIDs), jobID))
    {
      if jobID in savedJobIDs {
        savedJobIDs := savedJobIDs - {jobID};
      } else {
        savedJobIDs := savedJobIDs + {jobID};
      }
    }

    /** `recordResponse(jobID:)`: adds the id unless it is already there. */
    method RecordJobResponse(jobID: int)
      modifies this
      ensures State() == old(State()).(respondedJobIDs := old(respondedJobIDs) + {jobID})
    {
      if jobID in respondedJobIDs {
        return;
      }
      respondedJobIDs := respondedJobIDs + {jobID};
    }

    /** `recordResponse()`: counts one more response. */
    method RecordResponse()
      modifies this
      ensures State() == old(State()).(responseCount := old(responseCount) + 1)
    {
      responseCount := responseCount + 1;
    }
  }

  /** Two toggles of the same id restore the saved set, and recording the same
      response twice is the same as recording it once. */
  method RepeatedActions(vm: JobListViewModel, jobID: int)
    modifies vm
    ensures vm.State() == old(vm.State()).(respondedJobIDs := old(vm.respondedJobIDs) + {jobID})
  {
    vm.ToggleSave(jobID);
    vm.ToggleSave(jobID);
    ToggledTwice(old(vm.savedJobIDs), jobID);
    vm.RecordJobResponse(jobID);
    vm.RecordJobResponse(jobID);
  }
}
