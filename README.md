# JobFinder job list and profile mirror, modelled in Dafny

JobFinder is a SwiftUI client for a public jobs feed. A signed-in user browses
postings page by page, filters them by search text, location and category,
bookmarks them and marks them as applied. This project models the part of the
app that holds logic:

- the job-list view model (`JobListViewModel`): the loaded jobs, the
  pagination cursor and its loading flag, the three filters and the filter
  options derived from the loaded jobs, and the locally kept saved and
  responded job ids with the response counter;
- the `Job` and `UserProfile` value types with their hand-written `==`;
- the authentication view model (`AuthViewModel`): the signed-in user, the
  local copy of the profile document and the error message, as they change
  once the authentication service or the document store has answered;
- the derived lists of the saved/applied screen and the figures of the
  statistics screen.

Files:

- `wrappers.dfy`: `Option`, `Result`, `Outcome`.
- `seqs.dfy`: `Filter` (Swift's `filter`) and the order-preserving
  subsequence relation it produces.
- `text.dfy`: ASCII case folding, the substring test, lexicographic order and
  `SortedDistinct` (Swift's `Set(names).sorted()`).
- `models.dfy`: `Job`, `JobsResponse`, `UserProfile` and their equalities.
- `job_list.dfy`: the filters and options as functions, and the class
  `JobListViewModel`. `loadPage` is split into `BeginLoad` (the guard) and
  `CompleteLoad` (the service callback, which receives the service's reply
  as a `Result`); the page the callback's closure captures is the field
  `requestedPage`.
- `job_list_tests.dfy`: every test of `JobListViewModelFilterTests.swift`,
  each as a lemma over its four postings. The two tests that expect every
  posting (location "All", and the defaults) are the all-inputs lemma
  `JobList.FilteredDefaultShowsAll`.
- `auth.dfy`: the id-list updates of the profile copy, the profile document
  as written and as read, and the class `AuthViewModel`. Every reply of the
  authentication service or the document store is a method parameter.
- `views.dfy`: `SavedJobsView` and `StatsView`.

The model follows the code where one might expect otherwise:

- Appending a later page does not drop jobs whose id is already loaded
  (`JobFinder/ViewModels/JobListViewModel.swift:72`); `NextJobsKeepsDuplicates`
  shows the three-entry result for pages [1] and [1, 2].
- `toggleSave` and `recordResponse(jobID:)` change the local sets at once,
  with no signed-in check and no remote call
  (`JobFinder/ViewModels/JobListViewModel.swift:20-28`, `87-94`).
- `JobListViewModel.swift` does not subscribe to identity or profile
  changes, so nothing clears or refills its id sets on sign-out or on a
  profile update.
- The profile's id lists are optional arrays, not sets: order and
  duplicates are kept, and nil differs from empty.
- The filter tests construct the view model with `init(service:authViewModel:)`
  (`JobFinderTests/JobListViewModelFilterTests.swift:28`), while
  `JobListViewModel.swift` declares only `init(service:)`; the model has
  `init(service:)`.

## Model

| member | source | states |
|---|---|---|
| `Models.SameJobIsEquivalence` | JobFinder/Models/Job.swift:11 | job `==` is reflexive, symmetric and transitive |
| `Models.SameJobIgnoresOtherFields` | JobFinder/Models/Job.swift:11 | two jobs are `==` exactly when they differ at most in name, locations, company, categories and contents |
| `Models.SameJobExamples` | JobFinderTests/ModelDecodingTests.swift:40-47 | same id with another name is equal; another id with the same name is not |
| `Models.NewUserProfileDefaults` | JobFinder/Models/UserProfile.swift:12-24 | an omitted id and omitted id lists are nil; the given fields are stored |
| `Models.NewUserProfileInjective` | JobFinder/Models/UserProfile.swift:12-24 | two initializer calls give equal profiles exactly when all six arguments are equal |
| `Models.ProfileEqIsEquality` | JobFinder/Models/UserProfile.swift:27-34 | the field-wise `==` holds exactly when the profiles are identical |
| `Models.NilListIsNotEmptyList` | JobFinder/Models/UserProfile.swift:32-33 | a nil id list and an empty one make the profiles unequal |
| `Text.IsSubstringIffOccursAt` | JobFinder/ViewModels/JobListViewModel.swift:49-50 | the substring test holds exactly when the text occurs at some position |
| `Text.IgnoresCase` | JobFinder/ViewModels/JobListViewModel.swift:49-50 | case-folding either argument does not change whether one contains the other |
| `Text.SortedDistinct` | JobFinder/ViewModels/JobListViewModel.swift:40 | the result is strictly ascending and holds exactly the given names |
| `Text.SortedDistinctCount` | JobFinder/ViewModels/JobListViewModel.swift:40 | the result has one entry per distinct name |
| `JobList.Filtered` | JobFinder/ViewModels/JobListViewModel.swift:46-56 | the filtered jobs are an order-preserving subsequence of the jobs; a job is in it exactly when it passes search, location and category, and then with every copy it has in the jobs |
| `JobList.FilteredDefaultShowsAll` | JobFinder/ViewModels/JobListViewModel.swift:47-55 | empty search with both selections at "All" shows every job, in order |
| `JobList.FilteredIgnoresSearchCase` | JobFinder/ViewModels/JobListViewModel.swift:48-50 | changing the case of the search text does not change the filtered list |
| `JobList.LocationNames` | JobFinder/ViewModels/JobListViewModel.swift:39 | a name is listed exactly when some job has a location of that name |
| `JobList.CategoryNames` | JobFinder/ViewModels/JobListViewModel.swift:43 | a name is listed exactly when some job has a category of that name |
| `JobList.LocationOptions` | JobFinder/ViewModels/JobListViewModel.swift:38-41 | "All" first, then strictly ascending, exactly the location names of the jobs, each once |
| `JobList.CategoryOptions` | JobFinder/ViewModels/JobListViewModel.swift:42-45 | "All" first, then strictly ascending, exactly the category names of the jobs, each once |
| `JobList.NextJobs` | JobFinder/ViewModels/JobListViewModel.swift:69-73 | page 1 replaces the list; any other page keeps the old list as prefix and the results as suffix |
| `JobList.NextJobsKeepsDuplicates` | JobFinder/ViewModels/JobListViewModel.swift:72 | loading pages [1] and [1, 2] gives three entries, two of them the same job |
| `JobList.NextJobsGrows` | JobFinder/ViewModels/JobListViewModel.swift:72 | a later page never removes a job or shortens the list |
| `JobList.Toggled` | JobFinder/ViewModels/JobListViewModel.swift:87-94 | only the toggled id changes membership, and it flips |
| `JobList.ToggledTwice` | JobFinder/ViewModels/JobListViewModel.swift:87-94 | toggling the same id twice restores the set |
| `JobList.JobListViewModel.constructor` | JobFinder/ViewModels/JobListViewModel.swift:8-35 | empty list, "All" filters, page 1 of 1, stored ids and count taken over, and the load of page 1 started |
| `JobList.JobListViewModel.LoadSavedJobs` | JobFinder/ViewModels/JobListViewModel.swift:82-86 | stored saved ids replace the set; with none stored nothing changes |
| `JobList.JobListViewModel.FilteredJobs` | JobFinder/ViewModels/JobListViewModel.swift:46-56 | an order-preserving subsequence of the loaded jobs, holding exactly those that pass the current search, location and category, each with every copy it has |
| `JobList.JobListViewModel.Locations` | JobFinder/ViewModels/JobListViewModel.swift:38-41 | "All" first, then strictly ascending, exactly the location names of the loaded jobs |
| `JobList.JobListViewModel.Categories` | JobFinder/ViewModels/JobListViewModel.swift:42-45 | "All" first, then strictly ascending, exactly the category names of the loaded jobs |
| `JobList.JobListViewModel.BeginLoad` | JobFinder/ViewModels/JobListViewModel.swift:60-62 | a load starts exactly when none is running and the page is at most the page count; otherwise nothing changes |
| `JobList.JobListViewModel.CompleteLoad` | JobFinder/ViewModels/JobListViewModel.swift:63-78 | a page sets page count and current page and replaces or extends the list; a failure changes nothing but the loading flag; the flag is cleared either way |
| `JobList.JobListViewModel.ToggleSave` | JobFinder/ViewModels/JobListViewModel.swift:87-94 | the saved set is toggled at once and nothing else changes |
| `JobList.JobListViewModel.RecordJobResponse` | JobFinder/ViewModels/JobListViewModel.swift:24-28 | the responded set gains the id and nothing else changes |
| `JobList.JobListViewModel.RecordResponse` | JobFinder/ViewModels/JobListViewModel.swift:20-23 | the response count grows by exactly one and nothing else changes |
| `JobList.RepeatedActions` | JobFinder/ViewModels/JobListViewModel.swift:87-94 | two toggles of one id and two responses to it leave the saved set as it was and add the id once |
| `JobListTests.MockServiceSetUp` | JobFinderTests/JobListViewModelFilterTests.swift:4-28 | with the mock service's empty first page, the view model ends idle with no jobs, page 1 of 1 |
| `JobListTests.FilterByLocation` | JobFinderTests/JobListViewModelFilterTests.swift:62-66 | location "Almaty" keeps only "iOS Engineer" |
| `JobListTests.FilterByCategory` | JobFinderTests/JobListViewModelFilterTests.swift:73-77 | category "Management" keeps only "Project Manager" |
| `JobListTests.FilterBySearchTextJobName` | JobFinderTests/JobListViewModelFilterTests.swift:45-49 | search "Swift" keeps only "Swift Developer" |
| `JobListTests.FilterBySearchTextCompanyName` | JobFinderTests/JobListViewModelFilterTests.swift:51-55 | search "TechCorp" keeps only the posting of that company |
| `JobListTests.FilterBySearchTextPartialCaseInsensitive` | JobFinderTests/JobListViewModelFilterTests.swift:57-60 | search "developer" keeps the two developer postings |
| `JobListTests.FilterBySearchTextAndCategory` | JobFinderTests/JobListViewModelFilterTests.swift:79-83 | search "iOS" within category "Engineering" keeps the two iOS postings |
| `JobListTests.FilterNoResults` | JobFinderTests/JobListViewModelFilterTests.swift:85-90 | filters nobody matches give an empty list |
| `Auth.WithJobID` | JobFinder/ViewModels/AuthViewModel.swift:223-227 | a nil list becomes exactly [id]; otherwise the old list is a prefix of the new one, which holds the same ids with the same counts plus one copy of the id when it was missing |
| `Auth.WithJobIDIdempotent` | JobFinder/ViewModels/AuthViewModel.swift:223-227 | adding an id twice is adding it once |
| `Auth.WithJobIDKeepsNoDuplicates` | JobFinder/ViewModels/AuthViewModel.swift:223-227 | a list without duplicates keeps none after an add |
| `Auth.WithoutJobID` | JobFinder/ViewModels/AuthViewModel.swift:249 | a nil list stays nil; otherwise the result is an order-preserving subsequence without the id, and every other id keeps its number of copies |
| `Auth.WithoutUndoesWith` | JobFinder/ViewModels/AuthViewModel.swift:249 | removing an id after adding it gives the list without it; a nil list comes back empty |
| `Auth.WithoutJobIDIdempotent` | JobFinder/ViewModels/AuthViewModel.swift:249 | removing twice is removing once |
| `Auth.WithSavedJob` | JobFinder/ViewModels/AuthViewModel.swift:223-227 | a missing profile stays missing; otherwise the saved list becomes `WithJobID` of the old one and nothing else changes |
| `Auth.WithoutSavedJob` | JobFinder/ViewModels/AuthViewModel.swift:249 | a missing profile stays missing; otherwise the saved list becomes `WithoutJobID` of the old one and nothing else changes |
| `Auth.WithRespondedJob` | JobFinder/ViewModels/AuthViewModel.swift:271-275 | a missing profile stays missing; otherwise the responded list becomes `WithJobID` of the old one and nothing else changes |
| `Auth.ProfileFields` | JobFinder/ViewModels/AuthViewModel.swift:100-106 | the written document has exactly the keys fullName, email, resumeURL, savedJobIDs and respondedJobIDs (no id), three as text and two as integer lists |
| `Auth.ProfileFromFields` | JobFinder/ViewModels/AuthViewModel.swift:151-165 | the profile read carries the document id; a text field present as text is read as its value and otherwise as ""; a list is non-nil exactly when the field holds an integer list, and then it is that list |
| `Auth.ProfileFromEmptyDocument` | JobFinder/ViewModels/AuthViewModel.swift:151-165 | missing text fields read as "", missing id lists as nil, and the id is the document's |
| `Auth.ReadAfterWrite` | JobFinder/ViewModels/AuthViewModel.swift:183-189 | reading back a written profile gives it under the document id, with nil lists turned empty |
| `Auth.NilListsDoNotRoundTrip` | JobFinder/ViewModels/AuthViewModel.swift:187-188 | a profile with a nil saved list does not read back as itself |
| `Auth.SignUpProfile` | JobFinder/ViewModels/AuthViewModel.swift:67-74 | the sign-up profile has the user id, the form fields and empty, non-nil id lists |
| `Auth.SignUpProfileRoundTrips` | JobFinder/ViewModels/AuthViewModel.swift:67-74 | the sign-up profile reads back from the store unchanged |
| `Auth.AfterFetch` | JobFinder/ViewModels/AuthViewModel.swift:139-171 | a read touches only profile and message; a document replaces the profile copy by the profile read from it and clears the message, any failure sets the message and keeps the profile |
| `Auth.AuthViewModel.constructor` | JobFinder/ViewModels/AuthViewModel.swift:16-22 | the remembered user becomes the session, and the profile is read only when there is one |
| `Auth.AuthViewModel.FetchUserProfile` | JobFinder/ViewModels/AuthViewModel.swift:134-173 | the state after the document store's reply |
| `Auth.AuthViewModel.SignIn` | JobFinder/ViewModels/AuthViewModel.swift:24-47 | an error or a missing user sets the message only; success sets the session, clears the message, reads the profile and clears the credentials |
| `Auth.AuthViewModel.SaveNewUserProfile` | JobFinder/ViewModels/AuthViewModel.swift:92-119 | succeeds exactly when the profile has an id and the write passed; sets or clears the message accordingly |
| `Auth.AuthViewModel.SignUp` | JobFinder/ViewModels/AuthViewModel.swift:49-90 | the profile copy takes the seed profile and the form is cleared only after the profile was stored |
| `Auth.AuthViewModel.SignOut` | JobFinder/ViewModels/AuthViewModel.swift:121-132 | success clears session, profile and message; failure sets the message only |
| `Auth.AuthViewModel.UpdateUserProfile` | JobFinder/ViewModels/AuthViewModel.swift:175-205 | no id: failure and no change; write failure: message set, profile kept; success: profile replaced, message cleared |
| `Auth.AuthViewModel.AddSavedJobToProfile` | JobFinder/ViewModels/AuthViewModel.swift:207-231 | no session or a failed write: an error and no change; success: the saved id added to the profile copy |
| `Auth.AuthViewModel.RemoveSavedJobFromProfile` | JobFinder/ViewModels/AuthViewModel.swift:233-253 | no session or a failed write: an error and no change; success: the saved id removed from the profile copy |
| `Auth.AuthViewModel.AddRespondedJobToProfile` | JobFinder/ViewModels/AuthViewModel.swift:255-279 | no session or a failed write: an error and no change; success: the responded id added to the profile copy |
| `Views.JobsWithIDs` | JobFinder/Views/SavedJobsView.swift:13-18 | saved jobs and applied jobs: an order-preserving subsequence of the jobs, holding exactly those whose id is in the tab's set, each with all its copies |
| `Views.ListedJobs` | JobFinder/Views/SavedJobsView.swift:31 | the Saved tab lists exactly the loaded jobs with a saved id, the Applied tab those with a responded id, in load order and with every copy |
| `Views.ShowsPlaceholder` | JobFinder/Views/SavedJobsView.swift:45-49 | "No jobs here" shows exactly when no loaded job has an id of the selected tab's set |
| `Views.CompanyNamesBound` | JobFinder/Views/StatsView.swift:6-8 | at most one company per job, and none exactly when there are no jobs |
| `Views.Figures` | JobFinder/Views/StatsView.swift:6-38 | applied = responded ids, bookmarked = saved ids, total = jobs, unique companies = the number of distinct company names, which lies between 1 and total unless there are no jobs |
| `Views.FiguresGrowWithPages` | JobFinder/Views/StatsView.swift:24 | a later page adds its results to the total and never lowers the company count |

## Left out

- Firebase Auth and Firestore: each call is replaced by its reply, passed to the method as a parameter (`AuthReply`, `FetchReply`, `Outcome`). Server-side `arrayUnion`/`arrayRemove` on the stored document is not modelled, only its local mirror.
- `JobService` (URLSession and JSON decoding): the service is a source of `Result<JobsResponse, ServiceError>` values given to `CompleteLoad`.
- `Location`, `CompanySummary`, `Category` and `JobsResponse` are declared elsewhere in the app; they are modelled from their uses as records with the fields the code reads.
- UserDefaults persistence: stored values are constructor parameters of `JobListViewModel`; the writes after `toggleSave` and `recordResponse` are not modelled.
- Asynchrony: the callbacks of `AuthViewModel` run right after their call, inside the method that receives the reply, so the model cannot show such a reply arriving after sign-out or after another call of the view model. `loadPage` is split into `BeginLoad` and `CompleteLoad`, so other operations can run while a page is in flight. `[weak self]` captures and `DispatchQueue` timing are not modelled.
- `Text.ContainsIgnoringCase`: folds ASCII letters only; locale-aware folding of `localizedCaseInsensitiveContains` is not modelled.
- `Text.Less`: compares characters by code point; Swift's Unicode-aware string ordering agrees with it on ASCII only.
- Names are compared code point by code point everywhere: the location and category selections (`JobList.Filtered`), the de-duplication of `locations` and `categories` (`Text.SortedDistinct`) and `uniqueCompaniesCount` (`Views.CompanyNames`). Swift's `String ==` and `Set<String>` treat canonically equivalent strings (a precomposed and a decomposed "é") as equal; the model counts them as different names.
- `JobList.JobListViewModel.RecordResponse`: integers are unbounded, so the trap of Swift's `Int` on overflow at `responseCount += 1` is not modelled.
- Message texts and debug logging: messages are the constructors of `AuthMessage`, and service errors keep only a description.
- `AuthViewModel.isLoading` is declared but never changed by the code, and is kept unchanged.
- Presentation files (ContentView, LoginView, RegistrationView, AuthView, ProfileView, JobDetailView, SettingsView, HTMLView, JobFinderApp): layout only. The infinite-scroll trigger in ContentView is a call of `loadPage(currentPage + 1)`, which is `BeginLoad`.
- PersistenceController and its tests are not part of this model.
