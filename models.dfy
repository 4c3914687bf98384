/** The two value types of the app: a posting of the jobs feed and the user's
    profile document. */
module Models {
  import opened Wrappers

  datatype Location = Location(name: string)
  datatype CompanySummary = CompanySummary(name: string)
  datatype Category = Category(name: string)

  /** A posting of the jobs feed. Every field is a `let` in the app, and a
      datatype value cannot be changed after construction either. */
  datatype Job = Job(
    id: int,
    name: string,
    locations: seq<Location>,
    company: CompanySummary,
    categories: seq<Category>,
    contents: string)

  /** One page of the jobs feed (`page_count` on the wire). */
  datatype JobsResponse = JobsResponse(page: int, pageCount: int, results: seq<Job>)

  /** The app's `==` on jobs: two postings are the same job when their ids agree. */
  predicate SameJob(a: Job, b: Job) {
    a.id == b.id
  }

  /** `SameJob` is an equivalence relation. */
  lemma SameJobIsEquivalence()
    ensures forall a :: SameJob(a, a)
    ensures forall a, b :: SameJob(a, b) ==> SameJob(b, a)
    ensures forall a, b, c :: SameJob(a, b) && SameJob(b, c) ==> SameJob(a, c)
  {
  }

  /** Two jobs are the same job exactly when they differ at most in the fields
      other than the id. */
  lemma SameJobIgnoresOtherFields(a: Job, b: Job)
    ensures SameJob(a, b) <==>
            a.(name := b.name, locations := b.locations, company := b.company,
               categories := b.categories, contents := b.contents) == b
  {
  }

  /** The equality test of the model-decoding tests: a different name keeps
      the same job, a different id makes another job. */
  lemma SameJobExamples()
    ensures SameJob(Job(1, "A", [], CompanySummary(""), [], ""), Job(1, "B", [], CompanySummary(""), [], ""))
    ensures !SameJob(Job(1, "A", [], CompanySummary(""), [], ""), Job(2, "A", [], CompanySummary(""), [], ""))
  {
  }

  /** The user's profile. The job-id lists are optional: a missing list and an
      empty one are different values. */
  datatype UserProfile = UserProfile(
    id: Option<string>,
    fullName: string,
    email: string,
    resumeURL: string,
    savedJobIDs: Option<seq<int>>,
    respondedJobIDs: Option<seq<int>>)

  /** The profile initializer, with its default arguments. */
  function NewUserProfile(
    id: Option<string> := None,
    fullName: string,
    email: string,
    resumeURL: string,
    savedJobIDs: Option<seq<int>> := None,
    respondedJobIDs: Option<seq<int>> := None): UserProfile
  {
    UserProfile(id, fullName, email, resumeURL, savedJobIDs, respondedJobIDs)
  }

  /** Omitted id and job-id lists are nil. */
  lemma NewUserProfileDefaults(fullName: string, email: string, resumeURL: string)
    ensures var p := NewUserProfile(fullName := fullName, email := email, resumeURL := resumeURL);
      p.id.None? && p.savedJobIDs.None? && p.respondedJobIDs.None?
      && p.fullName == fullName && p.email == email && p.resumeURL == resumeURL
  {
  }

  /** The app's field-wise `==` on profiles. */
  predicate ProfileEq(a: UserProfile, b: UserProfile) {
    && a.id == b.id
    && a.fullName == b.fullName
    && a.email == b.email
    && a.resumeURL == b.resumeURL
    && a.savedJobIDs == b.savedJobIDs
    && a.respondedJobIDs == b.respondedJobIDs
  }

  /** Field-wise equality compares everything a profile holds. */
  lemma ProfileEqIsEquality(a: UserProfile, b: UserProfile)
    ensures ProfileEq(a, b) <==> a == b
  {
  }

  /** The initializer stores its arguments unchanged: two profiles built from
      different arguments are never equal. */
  lemma NewUserProfileInjective(
    id: Option<string>, fullName: string, email: string, resumeURL: string,
    saved: Option<seq<int>>, responded: Option<seq<int>>,
    id': Option<string>, fullName': string, email': string, resumeURL': string,
    saved': Option<seq<int>>, responded': Option<seq<int>>)
    ensures ProfileEq(NewUserProfile(id, fullName, email, resumeURL, saved, responded),
                      NewUserProfile(id', fullName', email', resumeURL', saved', responded'))
            <==> id == id' && fullName == fullName' && email == email' && resumeURL == resumeURL'
                 && saved == saved' && responded == responded'
  {
  }

  /** A nil job-id list is not equal to an empty one. */
  lemma NilListIsNotEmptyList(p: UserProfile)
    ensures !ProfileEq(p.(savedJobIDs := None), p.(savedJobIDs := Some([])))
    ensures !ProfileEq(p.(respondedJobIDs := None), p.(respondedJobIDs := Some([])))
  {
  }
}
