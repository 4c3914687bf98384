/** The authentication view model: the signed-in user, the local copy of the
    user's profile document, and the message shown for the last failure.
    Every call into the authentication service or the document store is
    replaced by its reply, which the methods take as a parameter. */
module Auth {
  import opened Wrappers
  import opened Seqs
  import opened Models

  // ---------------------------------------------------------------------------
  // The job-id lists of the local profile copy

  /** No id occurs twice. */
  ghost predicate NoDuplicates(s: seq<int>) {
    forall i, j :: 0 <= i < j < |s| ==> s[i] != s[j]
  }

  /** The local effect of a successful `arrayUnion([jobID])`: a list that
      lacks the id gets it appended, a missing list becomes `[jobID]`, and a
      list that already has it is kept as it is. */
  function WithJobID(ids: Option<seq<int>>, jobID: int): (r: Option<seq<int>>)
    ensures r.Some?
    ensures forall x :: x in r.value <==> x == jobID || (ids.Some? && x in ids.value)
    ensures ids.None? ==> r == Some([jobID])
    ensures ids.Some? ==> ids.value <= r.value
    ensures ids.Some? ==> multiset(r.value) == multiset(ids.value) + (if jobID in ids.value then multiset{} else multiset{jobID})
  {
    if ids.Some? && jobID !in ids.value then Some(ids.value + [jobID])
    else if ids.None? then Some([jobID])
    else ids
  }

  /** Adding an id that is there already changes nothing. */
  lemma WithJobIDIdempotent(ids: Option<seq<int>>, jobID: int)
    ensures WithJobID(WithJobID(ids, jobID), jobID) == WithJobID(ids, jobID)
  {
  }

  /** Adding never creates a duplicate. */
  lemma WithJobIDKeepsNoDuplicates(ids: Option<seq<int>>, jobID: int)
    requires ids.Some? ==> NoDuplicates(ids.value)
    ensures NoDuplicates(WithJobID(ids, jobID).value)
  {
    if ids.Some? && jobID !in ids.value {
      var s := ids.value;
      var r := s + [jobID];
      forall i, j | 0 <= i < j < |r| ensures r[i] != r[j] {
        if j == |s| {
          assert r[i] == s[i] && s[i] in s;
        }
      }
    }
  }

  /** The test `{ $0 == jobID }` of `removeAll(where:)`, negated: the ids kept. */
  function IsNot(jobID: int): int -> bool {
    x => x != jobID
  }

  /** The local effect of a successful `arrayRemove([jobID])`,
      `removeAll(where: { $0 == jobID })` on the list if there is one. */
  function WithoutJobID(ids: Option<seq<int>>, jobID: int): (r: Option<seq<int>>)
    ensures r.Some? <==> ids.Some?
    ensures ids.Some? ==> IsSubsequence(r.value, ids.value)
    ensures ids.Some? ==> jobID !in r.value
    ensures ids.Some? ==> forall x :: x != jobID ==> multiset(r.value)[x] == multiset(ids.value)[x]
  {
    match ids
    case None => None
    case Some(s) =>
      FilterIsSubsequence(s, IsNot(jobID));
      FilterKeepsEveryOccurrence(s, IsNot(jobID));
      Some(Filter(s, IsNot(jobID)))
  }

  /** Removing an id undoes adding it to a list; a missing list comes back
      as an empty one. */
  lemma {:induction false} WithoutUndoesWith(ids: Option<seq<int>>, jobID: int)
    ensures ids.Some? ==> WithoutJobID(WithJobID(ids, jobID), jobID) == WithoutJobID(ids, jobID)
    ensures ids.None? ==> WithoutJobID(WithJobID(ids, jobID), jobID) == Some([])
  {
    var keep := IsNot(jobID);
    assert [jobID] + [] == [jobID];
    match ids
    case None =>
      FilterCons(jobID, [], keep);
    case Some(s) =>
      if jobID !in s {
        assert !keep(jobID);
        calc {
          Filter(s + [jobID], keep);
          { FilterAppend(s, [jobID], keep); }
          Filter(s, keep) + Filter([jobID], keep);
          { FilterCons(jobID, [], keep); }
          Filter(s, keep);
        }
      }
  }

  /** Removing twice is removing once. */
  lemma WithoutJobIDIdempotent(ids: Option<seq<int>>, jobID: int)
    ensures WithoutJobID(WithoutJobID(ids, jobID), jobID) == WithoutJobID(ids, jobID)
  {
    if ids.Some? {
      var r := WithoutJobID(ids, jobID).value;
      FilterAllPass(r, IsNot(jobID));
    }
  }

  /** The profile copy after a saved job was added on the server. Without a
      profile there is nothing to update. */
  function WithSavedJob(profile: Option<UserProfile>, jobID: int): (r: Option<UserProfile>)
    ensures r.Some? <==> profile.Some?
    ensures r.Some? ==> r.value.(savedJobIDs := profile.value.savedJobIDs) == profile.value
    ensures r.Some? ==> r.value.savedJobIDs == WithJobID(profile.value.savedJobIDs, jobID)
  {
    match profile
    case None => None
    case Some(p) => Some(p.(savedJobIDs := WithJobID(p.savedJobIDs, jobID)))
  }

  /** The profile copy after a saved job was removed on the server. */
  function WithoutSavedJob(profile: Option<UserProfile>, jobID: int): (r: Option<UserProfile>)
    ensures r.Some? <==> profile.Some?
    ensures r.Some? ==> r.value.(savedJobIDs := profile.value.savedJobIDs) == profile.value
    ensures r.Some? ==> r.value.savedJobIDs == WithoutJobID(profile.value.savedJobIDs, jobID)
  {
    match profile
    case None => None
    case Some(p) => Some(p.(savedJobIDs := WithoutJobID(p.savedJobIDs, jobID)))
  }

  /** The profile copy after a responded job was added on the server. */
  function WithRespondedJob(profile: Option<UserProfile>, jobID: int): (r: Option<UserProfile>)
    ensures r.Some? <==> profile.Some?
    ensures r.Some? ==> r.value.(respondedJobIDs := profile.value.respondedJobIDs) == profile.value
    ensures r.Some? ==> r.value.respondedJobIDs == WithJobID(profile.value.respondedJobIDs, jobID)
  {
    match profile
    case None => None
    case Some(p) => Some(p.(respondedJobIDs := WithJobID(p.respondedJobIDs, jobID)))
  }

  // ---------------------------------------------------------------------------
  // The profile document as the store holds it

  /** A field of a stored document, as far as the app reads it. */
  datatype FieldValue = Text(text: string) | IntList(ints: seq<int>) | OtherValue

  type Fields = map<string, FieldValue>

  /** The fields written when a profile is saved or updated: the job-id
      lists are written as empty arrays when they are nil, and the id is the
      document's key rather than a field. */
  function ProfileFields(p: UserProfile): (r: Fields)
    ensures r.Keys == {"fullName", "email", "resumeURL", "savedJobIDs", "respondedJobIDs"}
    ensures r["fullName"].Text? && r["email"].Text? && r["resumeURL"].Text?
    ensures r["savedJobIDs"].IntList? && r["respondedJobIDs"].IntList?
  {
    map[
      "fullName" := Text(p.fullName),
      "email" := Text(p.email),
      "resumeURL" := Text(p.resumeURL),
      "savedJobIDs" := IntList(p.savedJobIDs.GetOr([])),
      "respondedJobIDs" := IntList(p.respondedJobIDs.GetOr([]))]
  }

  /** `data[key] as? String ?? ""`. */
  function TextField(data: Fields, key: string): string {
    if key in data && data[key].Text? then data[key].text else ""
  }

  /** `data[key] as? [Int]`. */
  function IntListField(data: Fields, key: string): Option<seq<int>> {
    if key in data && data[key].IntList? then Some(data[key].ints) else None
  }

  /** The profile built from a fetched document. */
  function ProfileFromFields(documentID: string, data: Fields): (r: UserProfile)
    ensures r.id == Some(documentID)
    ensures !("fullName" in data && data["fullName"].Text?) ==> r.fullName == ""
    ensures !("email" in data && data["email"].Text?) ==> r.email == ""
    ensures !("resumeURL" in data && data["resumeURL"].Text?) ==> r.resumeURL == ""
    ensures r.savedJobIDs.Some? <==> "savedJobIDs" in data && data["savedJobIDs"].IntList?
    ensures r.respondedJobIDs.Some? <==> "respondedJobIDs" in data && data["respondedJobIDs"].IntList?
    ensures "fullName" in data && data["fullName"].Text? ==> r.fullName == data["fullName"].text
    ensures "email" in data && data["email"].Text? ==> r.email == data["email"].text
    ensures "resumeURL" in data && data["resumeURL"].Text? ==> r.resumeURL == data["resumeURL"].text
    ensures r.savedJobIDs.Some? ==> r.savedJobIDs.value == data["savedJobIDs"].ints
    ensures r.respondedJobIDs.Some? ==> r.respondedJobIDs.value == data["respondedJobIDs"].ints
  {
    NewUserProfile(
      id := Some(documentID),
      fullName := TextField(data, "fullName"),
      email := TextField(data, "email"),
      resumeURL := TextField(data, "resumeURL"),
      savedJobIDs := IntListField(data, "savedJobIDs"),
      respondedJobIDs := IntListField(data, "respondedJobIDs"))
  }

  /** A document without the expected fields reads as empty strings and
      missing (not empty) job-id lists. */
  lemma ProfileFromEmptyDocument(documentID: string)
    ensures ProfileFromFields(documentID, map[]) == UserProfile(Some(documentID), "", "", "", None, None)
  {
  }

  /** Reading back a profile that was written over any earlier document
      gives the same profile under the document's id, except that nil job-id
      lists come back empty. */
  lemma ReadAfterWrite(documentID: string, earlier: Fields, p: UserProfile)
    ensures ProfileFromFields(documentID, earlier + ProfileFields(p))
         == p.(id := Some(documentID),
               savedJobIDs := Some(p.savedJobIDs.GetOr([])),
               respondedJobIDs := Some(p.respondedJobIDs.GetOr([])))
  {
    var data := earlier + ProfileFields(p);
    assert data["fullName"] == Text(p.fullName);
    assert data["email"] == Text(p.email);
    assert data["resumeURL"] == Text(p.resumeURL);
    assert data["savedJobIDs"] == IntList(p.savedJobIDs.GetOr([]));
    assert data["respondedJobIDs"] == IntList(p.respondedJobIDs.GetOr([]));
  }

  /** A profile whose lists are nil is not read back as itself. */
  lemma NilListsDoNotRoundTrip(documentID: string, p: UserProfile)
    requires p.savedJobIDs.None?
    ensures ProfileFromFields(documentID, ProfileFields(p)) != p
  {
    ReadAfterWrite(documentID, map[], p);
    assert map[] + ProfileFields(p) == ProfileFields(p);
  }

  /** The profile stored at sign-up: the form's fields, and empty (not nil)
      job-id lists. */
  function SignUpProfile(uid: string, fullName: string, email: string, resumeURL: string): (r: UserProfile)
    ensures r.id == Some(uid) && r.fullName == fullName && r.email == email && r.resumeURL == resumeURL
    ensures r.savedJobIDs == Some([]) && r.respondedJobIDs == Some([])
  {
    NewUserProfile(
      id := Some(uid), fullName := fullName, email := email, resumeURL := resumeURL,
      savedJobIDs := Some([]), respondedJobIDs := Some([]))
  }

  /** The sign-up profile reads back from the store exactly as it was written. */
  lemma SignUpProfileRoundTrips(uid: string, fullName: string, email: string, resumeURL: string)
    ensures var p := SignUpProfile(uid, fullName, email, resumeURL);
      ProfileFromFields(uid, ProfileFields(p)) == p
  {
    var p := SignUpProfile(uid, fullName, email, resumeURL);
    ReadAfterWrite(uid, map[], p);
    assert map[] + ProfileFields(p) == ProfileFields(p);
  }

  // ---------------------------------------------------------------------------
  // Replies of the services, and the view model

  /** The reply of a sign-in or account creation. */
  datatype AuthReply = AuthError(description: string) | NoUser | SignedIn(uid: string)

  /** The reply of reading the profile document. */
  datatype FetchReply =
    | FetchError(description: string)
    | NoDocument                          // no snapshot, or a snapshot of a missing document
    | EmptyDocument(documentID: string)   // the document exists but has no data
    | Document(documentID: string, data: Fields)

  /** The messages the view model shows; their wording is not modelled. */
  datatype AuthMessage =
    | AuthFailed(description: string)
    | NoUserAfterSignIn
    | NoUserAfterSignUp
    | MissingUserIDForSave
    | ProfileSaveFailed
    | SignOutFailed(description: string)
    | ProfileLoadFailed
    | ProfileDataEmpty
    | ProfileNotFound
    | ProfileUpdateFailed

  /** The error handed to the completion of a profile change. */
  datatype ProfileError = NotSignedIn | MissingProfileID | RemoteError(description: string)

  /** Every field of the view model, for stating what a method changes. */
  datatype AuthState = AuthState(
    email: string,
    password: string,
    fullName: string,
    resumeURL: string,
    userSession: Option<string>,
    errorMessage: Option<AuthMessage>,
    currentUserProfile: Option<UserProfile>,
    isLoading: bool)

  /** The state after the profile document was read. It touches only the
      profile copy and the message: a document replaces the profile copy and
      clears the message, any failure sets the message and keeps the copy. */
  function AfterFetch(s: AuthState, reply: FetchReply): (t: AuthState)
    ensures t.(currentUserProfile := s.currentUserProfile, errorMessage := s.errorMessage) == s
    ensures t.errorMessage.None? <==> reply.Document?
    ensures !reply.Document? ==> t.currentUserProfile == s.currentUserProfile
    ensures reply.Document? ==> t.currentUserProfile == Some(ProfileFromFields(reply.documentID, reply.data))
  {
    match reply
    case FetchError(_) => s.(errorMessage := Some(ProfileLoadFailed))
    case NoDocument => s.(errorMessage := Some(ProfileNotFound))
    case EmptyDocument(_) => s.(errorMessage := Some(ProfileDataEmpty))
    case Document(documentID, data) =>
      s.(currentUserProfile := Some(ProfileFromFields(documentID, data)), errorMessage := None)
  }

  class AuthViewModel {
    var email: string
    var password: string
    var fullName: string
    var resumeURL: string
    /** The uid of the signed-in user, if any. */
    var userSession: Option<string>
    var errorMessage: Option<AuthMessage>
    var currentUserProfile: Option<UserProfile>
    var isLoading: bool

    function State(): AuthState
      reads this
    {
      AuthState(email, password, fullName, resumeURL, userSession, errorMessage, currentUserProfile, isLoading)
    }

    /** `init()`: picks up the user the service remembers and, if there is
        one, reads that user's profile. */
    constructor (currentUser: Option<string>, fetch: FetchReply)
      ensures currentUser.None? ==> State() == AuthState("", "", "", "", None, None, None, false)
      ensures currentUser.Some? ==>
        State() == AfterFetch(AuthState("", "", "", "", currentUser, None, None, false), fetch)
    {
      email, password, fullName, resumeURL := "", "", "", "";
      userSession := currentUser;
      errorMessage := None;
      currentUserProfile := None;
      isLoading := false;
      new;
      if currentUser.Some? {
        FetchUserProfile(fetch);
      }
    }

    /** The completion of `fetchUserProfile(userId:)`. */
    method FetchUserProfile(reply: FetchReply)
      modifies this
      ensures State() == AfterFetch(old(State()), reply)
    {
      match reply {
        case FetchError(_) =>
          errorMessage := Some(ProfileLoadFailed);
        case NoDocument =>
          errorMessage := Some(ProfileNotFound);
        case EmptyDocument(_) =>
          errorMessage := Some(ProfileDataEmpty);
        case Document(documentID, data) =>
          currentUserProfile := Some(ProfileFromFields(documentID, data));
          errorMessage := None;
      }
    }

    /** `signIn()`: on success the user is signed in, the profile is read and
        the credentials are cleared. */
    method SignIn(reply: AuthReply, fetch: FetchReply)
      modifies this
      ensures reply.AuthError? ==> State() == old(State()).(errorMessage := Some(AuthFailed(reply.description)))
      ensures reply.NoUser? ==> State() == old(State()).(errorMessage := Some(NoUserAfterSignIn))
      ensures reply.SignedIn? ==>
        State() == AfterFetch(old(State()).(userSession := Some(reply.uid), errorMessage := None), fetch)
                     .(email := "", password := "")
    {
      match reply {
        case AuthError(description) =>
          errorMessage := Some(AuthFailed(description));
        case NoUser =>
          errorMessage := Some(NoUserAfterSignIn);
        case SignedIn(uid) =>
          userSession := Some(uid);
          errorMessage := None;
          FetchUserProfile(fetch);
          email := "";
          password := "";
      }
    }

    /** `saveNewUserProfile`: writes the profile under its id. */
    method SaveNewUserProfile(profileData: UserProfile, write: Outcome<string>) returns (success: bool)
      modifies this
      ensures success <==> profileData.id.Some? && write.Pass?
      ensures State() == old(State()).(errorMessage :=
        if profileData.id.None? then Some(MissingUserIDForSave)
        else if write.Fail? then Some(ProfileSaveFailed)
        else None)
    {
      if profileData.id.None? {
        errorMessage := Some(MissingUserIDForSave);
        return false;
      }
      if write.Fail? {
        errorMessage := Some(ProfileSaveFailed);
        success := false;
      } else {
        errorMessage := None;
        success := true;
      }
    }

    /** `signUp()`: creates the account, signs the user in and stores the
        initial profile; only once it is stored does the profile copy take it
        and the form get cleared. */
    method SignUp(reply: AuthReply, write: Outcome<string>)
      modifies this
      ensures reply.AuthError? ==> State() == old(State()).(errorMessage := Some(AuthFailed(reply.description)))
      ensures reply.NoUser? ==> State() == old(State()).(errorMessage := Some(NoUserAfterSignUp))
      ensures reply.SignedIn? && write.Fail? ==>
        State() == old(State()).(userSession := Some(reply.uid), errorMessage := Some(ProfileSaveFailed))
      ensures reply.SignedIn? && write.Pass? ==>
        State() == old(State()).(
          userSession := Some(reply.uid),
          currentUserProfile := Some(SignUpProfile(reply.uid, old(fullName), old(email), old(resumeURL))),
          errorMessage := None,
          email := "", password := "", fullName := "", resumeURL := "")
    {
      match reply {
        case AuthError(description) =>
          errorMessage := Some(AuthFailed(description));
        case NoUser =>
          errorMessage := Some(NoUserAfterSignUp);
        case SignedIn(uid) =>
          userSession := Some(uid);
          var initialProfileData := SignUpProfile(uid, fullName, email, resumeURL);
          var success := SaveNewUserProfile(initialProfileData, write);
          if success {
            currentUserProfile := Some(initialProfileData);
            errorMessage := None;
            email, password, fullName, resumeURL := "", "", "", "";
          }
      }
    }

    /** `signOut()`: on success nothing of the user is kept locally. */
    method SignOut(outcome: Outcome<string>)
      modifies this
      ensures outcome.Pass? ==>
        State() == old(State()).(userSession := None, currentUserProfile := None, errorMessage := None)
      ensures outcome.Fail? ==> State() == old(State()).(errorMessage := Some(SignOutFailed(outcome.error)))
    {
      match outcome {
        case Pass =>
          userSession := None;
          currentUserProfile := None;
          errorMessage := None;
        case Fail(description) =>
          errorMessage := Some(SignOutFailed(description));
      }
    }

    /** `updateUserProfile`: a profile without an id is refused without
        touching anything; a stored profile becomes the local copy. */
    method UpdateUserProfile(profileData: UserProfile, write: Outcome<string>) returns (result: Outcome<ProfileError>)
      modifies this
      ensures profileData.id.None? ==> result == Fail(MissingProfileID) && State() == old(State())
      ensures profileData.id.Some? && write.Fail? ==>
        result == Fail(RemoteError(write.error))
        && State() == old(State()).(errorMessage := Some(ProfileUpdateFailed))
      ensures profileData.id.Some? && write.Pass? ==>
        result == Pass
        && State() == old(State()).(currentUserProfile := Some(profileData), errorMessage := None)
    {
      if profileData.id.None? {
        return Fail(MissingProfileID);
      }
      match write {
        case Fail(description) =>
          errorMessage := Some(ProfileUpdateFailed);
          result := Fail(RemoteError(description));
        case Pass =>
          currentUserProfile := Some(profileData);
          errorMessage := None;
          result := Pass;
      }
    }

    /** `addSavedJobToProfile`: needs a signed-in user; the local copy
        changes only once the store has added the id. */
    method AddSavedJobToProfile(jobID: int, write: Outcome<string>) returns (err: Option<ProfileError>)
      modifies this
      ensures old(userSession).None? ==> err == Some(NotSignedIn) && State() == old(State())
      ensures old(userSession).Some? && write.Fail? ==>
        err == Some(RemoteError(write.error)) && State() == old(State())
      ensures old(userSession).Some? && write.Pass? ==>
        err.None? && State() == old(State()).(currentUserProfile := WithSavedJob(old(currentUserProfile), jobID))
    {
      if userSession.None? {
        return Some(NotSignedIn);
      }
      match write {
        case Fail(description) =>
          err := Some(RemoteError(description));
        case Pass =>
          currentUserProfile := WithSavedJob(currentUserProfile, jobID);
          err := None;
      }
    }

    /** `removeSavedJobFromProfile`: needs a signed-in user; the local copy
        changes only once the store has removed the id. */
    method RemoveSavedJobFromProfile(jobID: int, write: Outcome<string>) returns (err: Option<ProfileError>)
      modifies this
      ensures old(userSession).None? ==> err == Some(NotSignedIn) && State() == old(State())
      ensures old(userSession).Some? && write.Fail? ==>
        err == Some(RemoteError(write.error)) && State() == old(State())
      ensures old(userSession).Some? && write.Pass? ==>
        err.None? && State() == old(State()).(currentUserProfile := WithoutSavedJob(old(currentUserProfile), jobID))
    {
      if userSession.None? {
        return Some(NotSignedIn);
      }
      match write {
        case Fail(description) =>
          err := Some(RemoteError(description));
        case Pass =>
          currentUserProfile := WithoutSavedJob(currentUserProfile, jobID);
          err := None;
      }
    }

    /** `addRespondedJobToProfile`: needs a signed-in user; the local copy
        changes only once the store has added the id. */
    method AddRespondedJobToProfile(jobID: int, write: Outcome<string>) returns (err: Option<ProfileError>)
      modifies this
      ensures old(userSession).None? ==> err == Some(NotSignedIn) && State() == old(State())
      ensures old(userSession).Some? && write.Fail? ==>
        err == Some(RemoteError(write.error)) && State() == old(State())
      ensures old(userSession).Some? && write.Pass? ==>
        err.None? && State() == old(State()).(currentUserProfile := WithRespondedJob(old(currentUserProfile), jobID))
    {
      if userSession.None? {
        return Some(NotSignedIn);
      }
      match write {
        case Fail(description) =>
          err := Some(RemoteError(description));
        case Pass =>
          currentUserProfile := WithRespondedJob(currentUserProfile, jobID);
          err := None;
      }
    }
  }
}
