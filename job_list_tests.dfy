/** The filter tests of the app, stated as lemmas over the four postings
    they load. */
module JobListTests {
  import opened Seqs
  import opened Text
  import opened Wrappers
  import opened Models
  import opened JobList

  const SwiftDeveloper := Job(1, "Swift Developer", [Location("Remote")], CompanySummary("TechCorp"), [Category("Engineering")], "")
  const IOSEngineer := Job(2, "iOS Engineer", [Location("Almaty")], CompanySummary("MobileSolutions"), [Category("Engineering")], "")
  const ProjectManager := Job(3, "Project Manager", [Location("Astana")], CompanySummary("BizGroup"), [Category("Management")], "")
  const RemoteIOSDeveloper := Job(4, "Remote iOS Developer", [Location("Remote")], CompanySummary("Global LTD"), [Category("Engineering")], "")
  const TestJobs := [SwiftDeveloper, IOSEngineer, ProjectManager, RemoteIOSDeveloper]

  /** The tests' set-up: the view model starts loading page 1, and the mock
      service answers at once with an empty first page of one. */
  method MockServiceSetUp() returns (vm: JobListViewModel)
    ensures vm.jobs == [] && !vm.isLoading && vm.currentPage == 1 && vm.totalPages == 1
    ensures vm.searchText == "" && vm.selectedLocation == AllOption && vm.selectedCategory == AllOption
  {
    vm := new JobListViewModel(None, None, 0);
    vm.CompleteLoad(Success(JobsResponse(1, 1, [])));
  }

  /** Filtering four postings, one posting at a time. */
  lemma FilterFour(a: Job, b: Job, c: Job, d: Job, p: Job -> bool)
    ensures Filter([a, b, c, d], p)
         == (if p(a) then [a] else []) + (if p(b) then [b] else [])
          + (if p(c) then [c] else []) + (if p(d) then [d] else [])
  {
    var ha, hb, hc, hd := (if p(a) then [a] else []), (if p(b) then [b] else []),
                          (if p(c) then [c] else []), (if p(d) then [d] else []);
    assert [a, b, c, d] == [a] + [b, c, d] && [b, c, d] == [b] + [c, d] && [c, d] == [c] + [d];
    assert [d] == [d] + [];
    calc {
      Filter([a, b, c, d], p);
      { FilterCons(a, [b, c, d], p); }
      ha + Filter([b, c, d], p);
      { FilterCons(b, [c, d], p); }
      ha + (hb + Filter([c, d], p));
      { FilterCons(c, [d], p); }
      ha + (hb + (hc + Filter([d], p)));
      { FilterCons(d, [], p); }
      ha + (hb + (hc + (hd + [])));
      ha + hb + hc + hd;
    }
  }

  /** A posting with one location matches a selection exactly when the
      selection is "All" or that location's name. */
  lemma OneLocation(job: Job, name: string, selected: string)
    requires job.locations == [Location(name)]
    ensures MatchesLocation(job, selected) <==> selected == AllOption || selected == name
  {
    if selected != AllOption && selected == name {
      assert job.locations[0] in job.locations;
    }
  }

  /** A posting with one category matches a selection exactly when the
      selection is "All" or that category's name. */
  lemma OneCategory(job: Job, name: string, selected: string)
    requires job.categories == [Category(name)]
    ensures MatchesCategory(job, selected) <==> selected == AllOption || selected == name
  {
    if selected != AllOption && selected == name {
      assert job.categories[0] in job.categories;
    }
  }

  lemma FilterByLocation()
    ensures Filtered(TestJobs, "", "Almaty", AllOption) == [IOSEngineer]
  {
    assert "Almaty" != AllOption && "Almaty" != "Remote" && "Almaty" != "Astana";
    OneLocation(SwiftDeveloper, "Remote", "Almaty");
    OneLocation(IOSEngineer, "Almaty", "Almaty");
    OneLocation(ProjectManager, "Astana", "Almaty");
    OneLocation(RemoteIOSDeveloper, "Remote", "Almaty");
    FilterFour(SwiftDeveloper, IOSEngineer, ProjectManager, RemoteIOSDeveloper,
      (j: Job) => Matches(j, "", "Almaty", AllOption));
  }

  lemma FilterByCategory()
    ensures Filtered(TestJobs, "", AllOption, "Management") == [ProjectManager]
  {
    assert "Management" != AllOption && "Management" != "Engineering";
    OneCategory(SwiftDeveloper, "Engineering", "Management");
    OneCategory(IOSEngineer, "Engineering", "Management");
    OneCategory(ProjectManager, "Management", "Management");
    OneCategory(RemoteIOSDeveloper, "Engineering", "Management");
    FilterFour(SwiftDeveloper, IOSEngineer, ProjectManager, RemoteIOSDeveloper,
      (j: Job) => Matches(j, "", AllOption, "Management"));
  }

  /** A string that has neither case of the search text's `k`-th letter at
      position `k` or later does not contain the search text. */
  lemma LetterAbsentFrom(hay: string, needle: string, k: nat, lower: char, upper: char)
    requires k < |needle| && Fold(needle)[k] == lower
    requires 'a' <= lower <= 'z' && upper as int == lower as int - 32
    requires k <= |hay| && lower !in hay[k..] && upper !in hay[k..]
    ensures !ContainsIgnoringCase(hay, needle)
  {
    forall i | 0 <= i <= |hay| - |needle| ensures !OccursAt(Fold(needle), Fold(hay), i) {
      assert hay[k..][i] == hay[i + k];
      assert Fold(hay)[i..i + |needle|][k] == FoldChar(hay[i + k]) != lower;
    }
    IsSubstringIffOccursAt(Fold(needle), Fold(hay));
  }

  /** A string that has neither case of a letter of the search text does
      not contain the search text. */
  lemma LetterAbsent(hay: string, needle: string, k: nat, lower: char, upper: char)
    requires k < |needle| && Fold(needle)[k] == lower
    requires 'a' <= lower <= 'z' && upper as int == lower as int - 32
    requires lower !in hay && upper !in hay
    ensures !ContainsIgnoringCase(hay, needle)
  {
    if ContainsIgnoringCase(hay, needle) {
      SubstringCharsOccur(Fold(needle), Fold(hay), lower);
      assert false;
    }
  }

  /** A match found at a known position. */
  lemma ContainsAt(hay: string, needle: string, i: nat)
    requires i + |needle| <= |hay| && Fold(hay)[i..i + |needle|] == Fold(needle)
    ensures ContainsIgnoringCase(hay, needle)
  {
    assert OccursAt(Fold(needle), Fold(hay), i);
    IsSubstringIffOccursAt(Fold(needle), Fold(hay));
  }

  lemma DeveloperInSwiftDeveloper()
    ensures ContainsIgnoringCase("Swift Developer", "developer")
  {
    assert Fold("Swift Developer")[6..15] == Fold("developer");
    ContainsAt("Swift Developer", "developer", 6);
  }

  lemma DeveloperInRemoteIOSDeveloper()
    ensures ContainsIgnoringCase("Remote iOS Developer", "developer")
  {
    assert Fold("Remote iOS Developer")[11..20] == Fold("developer");
    ContainsAt("Remote iOS Developer", "developer", 11);
  }

  lemma SearchDeveloperKeepsSwiftDeveloper()
    ensures Matches(SwiftDeveloper, "developer", AllOption, AllOption)
  {
    DeveloperInSwiftDeveloper();
  }

  lemma SearchDeveloperDropsIOSEngineer()
    ensures !Matches(IOSEngineer, "developer", AllOption, AllOption)
  {
    assert 'v' !in "iOS Engineer" && 'V' !in "iOS Engineer";
    assert 'v' !in "MobileSolutions" && 'V' !in "MobileSolutions";
    LetterAbsent(IOSEngineer.name, "developer", 2, 'v', 'V');
    LetterAbsent(IOSEngineer.company.name, "developer", 2, 'v', 'V');
  }

  lemma SearchDeveloperDropsProjectManager()
    ensures !Matches(ProjectManager, "developer", AllOption, AllOption)
  {
    assert 'v' !in "Project Manager" && 'V' !in "Project Manager";
    assert 'v' !in "BizGroup" && 'V' !in "BizGroup";
    LetterAbsent(ProjectManager.name, "developer", 2, 'v', 'V');
    LetterAbsent(ProjectManager.company.name, "developer", 2, 'v', 'V');
  }

  lemma SearchDeveloperKeepsRemoteIOSDeveloper()
    ensures Matches(RemoteIOSDeveloper, "developer", AllOption, AllOption)
  {
    DeveloperInRemoteIOSDeveloper();
  }

  lemma FilterBySearchTextPartialCaseInsensitive()
    ensures Filtered(TestJobs, "developer", AllOption, AllOption) == [SwiftDeveloper, RemoteIOSDeveloper]
  {
    SearchDeveloperKeepsSwiftDeveloper();
    SearchDeveloperDropsIOSEngineer();
    SearchDeveloperDropsProjectManager();
    SearchDeveloperKeepsRemoteIOSDeveloper();
    FilterFour(SwiftDeveloper, IOSEngineer, ProjectManager, RemoteIOSDeveloper,
      (j: Job) => Matches(j, "developer", AllOption, AllOption));
  }

  /** Search "Swift": only the posting of that name matches; no other name
      or company has a 'w'. */
  lemma SearchSwiftKeepsSwiftDeveloper()
    ensures MatchesSearch(SwiftDeveloper, "Swift")
  {
    assert Fold("Swift Developer")[0..5] == Fold("Swift");
    ContainsAt(SwiftDeveloper.name, "Swift", 0);
  }

  lemma SearchSwiftDropsIOSEngineer()
    ensures !MatchesSearch(IOSEngineer, "Swift")
  {
    assert Fold("Swift")[1] == 'w';
    assert 'w' !in "iOS Engineer" && 'W' !in "iOS Engineer";
    assert 'w' !in "MobileSolutions" && 'W' !in "MobileSolutions";
    LetterAbsent(IOSEngineer.name, "Swift", 1, 'w', 'W');
    LetterAbsent(IOSEngineer.company.name, "Swift", 1, 'w', 'W');
  }

  lemma SearchSwiftDropsProjectManager()
    ensures !MatchesSearch(ProjectManager, "Swift")
  {
    assert Fold("Swift")[1] == 'w';
    assert 'w' !in "Project Manager" && 'W' !in "Project Manager";
    assert 'w' !in "BizGroup" && 'W' !in "BizGroup";
    LetterAbsent(ProjectManager.name, "Swift", 1, 'w', 'W');
    LetterAbsent(ProjectManager.company.name, "Swift", 1, 'w', 'W');
  }

  lemma SearchSwiftDropsRemoteIOSDeveloper()
    ensures !MatchesSearch(RemoteIOSDeveloper, "Swift")
  {
    assert Fold("Swift")[1] == 'w';
    assert 'w' !in "Remote iOS Developer";
    assert 'W' !in "Remote iOS Developer";
    assert 'w' !in "Global LTD" && 'W' !in "Global LTD";
    LetterAbsent(RemoteIOSDeveloper.name, "Swift", 1, 'w', 'W');
    LetterAbsent(RemoteIOSDeveloper.company.name, "Swift", 1, 'w', 'W');
  }

  lemma FilterBySearchTextJobName()
    ensures Filtered(TestJobs, "Swift", AllOption, AllOption) == [SwiftDeveloper]
  {
    SearchSwiftKeepsSwiftDeveloper();
    SearchSwiftDropsIOSEngineer();
    SearchSwiftDropsProjectManager();
    SearchSwiftDropsRemoteIOSDeveloper();
    FilterFour(SwiftDeveloper, IOSEngineer, ProjectManager, RemoteIOSDeveloper,
      (j: Job) => Matches(j, "Swift", AllOption, AllOption));
  }

  /** Search "TechCorp": only the posting of that company matches; no other
      name or company has an 'h'. */
  lemma SearchTechCorpKeepsSwiftDeveloper()
    ensures MatchesSearch(SwiftDeveloper, "TechCorp")
  {
    ContainsAt(SwiftDeveloper.company.name, "TechCorp", 0);
  }

  lemma SearchTechCorpDropsIOSEngineer()
    ensures !MatchesSearch(IOSEngineer, "TechCorp")
  {
    assert Fold("TechCorp")[3] == 'h';
    assert 'h' !in "iOS Engineer" && 'H' !in "iOS Engineer";
    assert 'h' !in "MobileSolutions" && 'H' !in "MobileSolutions";
    LetterAbsent(IOSEngineer.name, "TechCorp", 3, 'h', 'H');
    LetterAbsent(IOSEngineer.company.name, "TechCorp", 3, 'h', 'H');
  }

  lemma SearchTechCorpDropsProjectManager()
    ensures !MatchesSearch(ProjectManager, "TechCorp")
  {
    assert Fold("TechCorp")[3] == 'h';
    assert 'h' !in "Project Manager" && 'H' !in "Project Manager";
    assert 'h' !in "BizGroup" && 'H' !in "BizGroup";
    LetterAbsent(ProjectManager.name, "TechCorp", 3, 'h', 'H');
    LetterAbsent(ProjectManager.company.name, "TechCorp", 3, 'h', 'H');
  }

  lemma SearchTechCorpDropsRemoteIOSDeveloper()
    ensures !MatchesSearch(RemoteIOSDeveloper, "TechCorp")
  {
    assert Fold("TechCorp")[3] == 'h';
    assert 'h' !in "Remote iOS Developer";
    assert 'H' !in "Remote iOS Developer";
    assert 'h' !in "Global LTD" && 'H' !in "Global LTD";
    LetterAbsent(RemoteIOSDeveloper.name, "TechCorp", 3, 'h', 'H');
    LetterAbsent(RemoteIOSDeveloper.company.name, "TechCorp", 3, 'h', 'H');
  }

  lemma FilterBySearchTextCompanyName()
    ensures Filtered(TestJobs, "TechCorp", AllOption, AllOption) == [SwiftDeveloper]
  {
    SearchTechCorpKeepsSwiftDeveloper();
    SearchTechCorpDropsIOSEngineer();
    SearchTechCorpDropsProjectManager();
    SearchTechCorpDropsRemoteIOSDeveloper();
    FilterFour(SwiftDeveloper, IOSEngineer, ProjectManager, RemoteIOSDeveloper,
      (j: Job) => Matches(j, "TechCorp", AllOption, AllOption));
  }

  /** "Swift Developer" has its only 's' first, so "ios", whose 's' comes
      third, cannot occur in it. */
  lemma NoIOSInSwiftDeveloper()
    ensures !ContainsIgnoringCase("Swift Developer", "iOS")
  {
    assert Fold("iOS")[2] == 's';
    assert "Swift Developer"[2..] == "ift Developer";
    assert 's' !in "ift Developer" && 'S' !in "ift Developer";
    LetterAbsentFrom("Swift Developer", "iOS", 2, 's', 'S');
  }

  lemma SearchIOSDropsSwiftDeveloper()
    ensures !MatchesSearch(SwiftDeveloper, "iOS")
  {
    NoIOSInSwiftDeveloper();
    assert Fold("iOS")[0] == 'i';
    assert 'i' !in "TechCorp" && 'I' !in "TechCorp";
    LetterAbsent(SwiftDeveloper.company.name, "iOS", 0, 'i', 'I');
  }

  lemma SearchIOSKeepsIOSEngineer()
    ensures MatchesSearch(IOSEngineer, "iOS")
  {
    assert Fold("iOS Engineer")[0..3] == Fold("iOS");
    ContainsAt(IOSEngineer.name, "iOS", 0);
  }

  lemma SearchIOSKeepsRemoteIOSDeveloper()
    ensures MatchesSearch(RemoteIOSDeveloper, "iOS")
  {
    assert Fold("Remote iOS Developer")[7..10] == Fold("iOS");
    ContainsAt(RemoteIOSDeveloper.name, "iOS", 7);
  }

  /** Search "iOS" within category "Engineering": the two iOS postings. */
  lemma FilterBySearchTextAndCategory()
    ensures Filtered(TestJobs, "iOS", AllOption, "Engineering") == [IOSEngineer, RemoteIOSDeveloper]
  {
    assert "Engineering" != AllOption && "Engineering" != "Management";
    OneCategory(SwiftDeveloper, "Engineering", "Engineering");
    OneCategory(IOSEngineer, "Engineering", "Engineering");
    OneCategory(ProjectManager, "Management", "Engineering");
    OneCategory(RemoteIOSDeveloper, "Engineering", "Engineering");
    SearchIOSDropsSwiftDeveloper();
    SearchIOSKeepsIOSEngineer();
    SearchIOSKeepsRemoteIOSDeveloper();
    FilterFour(SwiftDeveloper, IOSEngineer, ProjectManager, RemoteIOSDeveloper,
      (j: Job) => Matches(j, "iOS", AllOption, "Engineering"));
  }

  lemma FilterNoResults()
    ensures Filtered(TestJobs, "NonExistentJob", "Mars", "NonExistentCategory") == []
  {
    assert forall j :: j in TestJobs ==> !MatchesLocation(j, "Mars");
    FilterFour(SwiftDeveloper, IOSEngineer, ProjectManager, RemoteIOSDeveloper,
      (j: Job) => Matches(j, "NonExistentJob", "Mars", "NonExistentCategory"));
  }
}
