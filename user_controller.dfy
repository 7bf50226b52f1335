/** The user and profile actions (controllers/UserController.ts) over `users` and `user_profiles`. */
module UserController {
  import opened Wrappers
  import opened Accounts
  import Seqs

  datatype Theme = Light | Dark
  datatype VoicePreference = Male | Female
  datatype StylePreference = Casual | Formal

  /** `UserPreferences`. */
  datatype UserPreferences = UserPreferences(
    theme: Theme,
    language: string,
    notifications: bool,
    voicePreference: VoicePreference,
    stylePreference: StylePreference)

  /** A `Partial<UserPreferences>`: `None` is a key left out. */
  datatype PreferencesPatch = PreferencesPatch(
    theme: Option<Theme>,
    language: Option<string>,
    notifications: Option<bool>,
    voicePreference: Option<VoicePreference>,
    stylePreference: Option<StylePreference>)

  /** A row of `user_profiles`; its timestamps are set by the database and left out. */
  datatype UserProfile = UserProfile(
    id: string,
    userId: string,
    preferences: UserPreferences,
    bio: Option<string>,
    learningGoals: Option<seq<string>>)

  /** The preferences a new user's profile starts with. */
  const DefaultPreferences := UserPreferences(Light, "en", true, Female, Casual)

  /** `{...current, ...patch}`: every supplied key overrides, every other key is kept. */
  function MergePreferences(current: UserPreferences, patch: PreferencesPatch): (r: UserPreferences)
    ensures r.theme == (if patch.theme.Some? then patch.theme.value else current.theme)
    ensures r.language == (if patch.language.Some? then patch.language.value else current.language)
    ensures r.notifications == (if patch.notifications.Some? then patch.notifications.value else current.notifications)
    ensures r.voicePreference == (if patch.voicePreference.Some? then patch.voicePreference.value else current.voicePreference)
    ensures r.stylePreference == (if patch.stylePreference.Some? then patch.stylePreference.value else current.stylePreference)
  {
    current.(theme := if patch.theme.Some? then patch.theme.value else current.theme,
             language := if patch.language.Some? then patch.language.value else current.language,
             notifications := if patch.notifications.Some? then patch.notifications.value else current.notifications,
             voicePreference := if patch.voicePreference.Some? then patch.voicePreference.value else current.voicePreference,
             stylePreference := if patch.stylePreference.Some? then patch.stylePreference.value else current.stylePreference)
  }

  /** `{...b, ...a}` as a patch: the keys of `a` win over those of `b`. */
  function ThenPatch(b: PreferencesPatch, a: PreferencesPatch): PreferencesPatch
  {
    PreferencesPatch(if a.theme.Some? then a.theme else b.theme,
                     if a.language.Some? then a.language else b.language,
                     if a.notifications.Some? then a.notifications else b.notifications,
                     if a.voicePreference.Some? then a.voicePreference else b.voicePreference,
                     if a.stylePreference.Some? then a.stylePreference else b.stylePreference)
  }

  const EmptyPatch := PreferencesPatch(None, None, None, None, None)

  /** Merging nothing keeps the preferences, and merging the same patch twice is merging it once. */
  lemma MergeIdentityAndIdempotent(current: UserPreferences, patch: PreferencesPatch)
    ensures MergePreferences(current, EmptyPatch) == current
    ensures MergePreferences(MergePreferences(current, patch), patch) == MergePreferences(current, patch)
  {
  }

  /** Two successive merges are one merge of the combined patch. */
  lemma MergeComposes(current: UserPreferences, first: PreferencesPatch, second: PreferencesPatch)
    ensures MergePreferences(MergePreferences(current, first), second) == MergePreferences(current, ThenPatch(first, second))
  {
  }

  /** A full patch replaces every preference, whatever the current ones are. */
  lemma FullPatchReplaces(current: UserPreferences, p: UserPreferences)
    ensures MergePreferences(current, PreferencesPatch(Some(p.theme), Some(p.language), Some(p.notifications),
                                                       Some(p.voicePreference), Some(p.stylePreference))) == p
  {
  }

  function WithId(id: string): User -> bool
  {
    (u: User) => u.id == id
  }

  function WithClerkId(clerkId: string): User -> bool
  {
    (u: User) => u.clerkId == clerkId
  }

  function ProfileOf(userId: string): UserProfile -> bool
  {
    (p: UserProfile) => p.userId == userId
  }

  function ProfileWithId(id: string): UserProfile -> bool
  {
    (p: UserProfile) => p.id == id
  }

  /** `getUserByClerkId` over a `users` table: the one row with that Clerk id, or null. */
  function UserLookup(users: seq<User>): string -> Option<User>
  {
    (clerkId: string) => Seqs.FindSingle(users, WithClerkId(clerkId))
  }

  /**
   * The `users` row `createOrUpdateUser` builds for a new Clerk user: the first email
   * address (or "" when there is none or it is empty), the trimmed display name and the image.
   */
  function NewUser(clerk: ClerkUser, newId: string): (u: User)
    ensures u.id == newId && u.clerkId == clerk.id && u.image == Some(clerk.imageUrl)
    ensures |clerk.emailAddresses| > 0 && clerk.emailAddresses[0] != "" ==> u.email == clerk.emailAddresses[0]
    ensures !(|clerk.emailAddresses| > 0 && clerk.emailAddresses[0] != "") ==> u.email == ""
    ensures u.name == DisplayName(clerk.firstName, clerk.lastName)
  {
    User(newId,
         OrElse(if |clerk.emailAddresses| > 0 then Some(clerk.emailAddresses[0]) else None, ""),
         DisplayName(clerk.firstName, clerk.lastName),
         Some(clerk.imageUrl),
         clerk.id)
  }

  /** The profile `createOrUpdateUser` gives a new user. */
  function DefaultProfile(userId: string, newId: string): (p: UserProfile)
    ensures p.id == newId && p.userId == userId && p.preferences == DefaultPreferences
    ensures p.bio.None? && p.learningGoals.None?
  {
    UserProfile(newId, userId, DefaultPreferences, None, None)
  }

  /** The `users` and `user_profiles` tables. */
  class UserDirectory {
    var users: seq<User>
    var profiles: seq<UserProfile>

    constructor (initialUsers: seq<User>, initialProfiles: seq<UserProfile>)
      ensures users == initialUsers && profiles == initialProfiles
    {
      users := initialUsers;
      profiles := initialProfiles;
    }

    /** `getUserProfile(userId)`: the one profile of that user, or null. */
    function GetUserProfile(userId: string): (r: Option<UserProfile>)
      reads this
      ensures r.Some? ==> r.value in profiles && r.value.userId == userId
      ensures r.None? <==> Seqs.Count(profiles, ProfileOf(userId)) != 1
    {
      Seqs.FindSingle(profiles, ProfileOf(userId))
    }

    /** `createUser`: appends the row, or returns null when its id is taken. */
    method CreateUser(u: User) returns (r: Option<User>)
      modifies this
      ensures profiles == old(profiles)
      ensures Seqs.Count(old(users), WithId(u.id)) == 0 ==> r == Some(u) && users == old(users) + [u]
      ensures Seqs.Count(old(users), WithId(u.id)) != 0 ==> r.None? && users == old(users)
    {
      if Seqs.Count(users, WithId(u.id)) == 0 {
        users := users + [u];
        r := Some(u);
      } else {
        r := None;
      }
    }

    /** `createUserProfile`: appends the profile, or returns null when its id is taken. */
    method CreateUserProfile(p: UserProfile) returns (r: Option<UserProfile>)
      modifies this
      ensures users == old(users)
      ensures Seqs.Count(old(profiles), ProfileWithId(p.id)) == 0 ==> r == Some(p) && profiles == old(profiles) + [p]
      ensures Seqs.Count(old(profiles), ProfileWithId(p.id)) != 0 ==> r.None? && profiles == old(profiles)
    {
      if Seqs.Count(profiles, ProfileWithId(p.id)) == 0 {
        profiles := profiles + [p];
        r := Some(p);
      } else {
        r := None;
      }
    }

    /**
     * `updateUserProfile(userId, {preferences})`: replaces the preferences of the user's one
     * profile, or returns null and changes nothing.
     */
    method UpdatePreferences(userId: string, preferences: UserPreferences) returns (r: Option<UserProfile>)
      modifies this
      ensures users == old(users)
      ensures var u := Seqs.UpdateSingle(old(profiles), ProfileOf(userId), WithPreferences(preferences));
              (u.Some? ==> r == Some(u.value.1) && profiles == u.value.0)
              && (u.None? ==> r.None? && profiles == old(profiles))
    {
      var u := Seqs.UpdateSingle(profiles, ProfileOf(userId), WithPreferences(preferences));
      if u.Some? {
        profiles := u.value.0;
        r := Some(u.value.1);
      } else {
        r := None;
      }
    }
  }

  function WithPreferences(preferences: UserPreferences): UserProfile -> UserProfile
  {
    (p: UserProfile) => p.(preferences := preferences)
  }

  /**
   * `createOrUpdateUser`: a user already known by Clerk id is returned as stored and nothing is
   * written; otherwise the user is created and, when that succeeds, given a default profile
   * (whose own failure is ignored).
   */
  method CreateOrUpdateUser(dir: UserDirectory, current: Option<ClerkUser>, newUserId: string, newProfileId: string)
    returns (r: ApiResponse<User>)
    modifies dir
    ensures current.None? ==>
              r == Failure("User not authenticated") && dir.users == old(dir.users) && dir.profiles == old(dir.profiles)
    ensures current.Some? && UserLookup(old(dir.users))(current.value.id).Some? ==>
              r == Success(UserLookup(old(dir.users))(current.value.id).value)
              && dir.users == old(dir.users) && dir.profiles == old(dir.profiles)
    ensures current.Some? && UserLookup(old(dir.users))(current.value.id).None? ==>
              var u := NewUser(current.value, newUserId);
              var p := DefaultProfile(newUserId, newProfileId);
              if Seqs.Count(old(dir.users), WithId(newUserId)) == 0 then
                r == Success(u) && dir.users == old(dir.users) + [u]
                && dir.profiles == (if Seqs.Count(old(dir.profiles), ProfileWithId(newProfileId)) == 0
                                    then old(dir.profiles) + [p] else old(dir.profiles))
              else
                r == Failure("Failed to create user") && dir.users == old(dir.users) && dir.profiles == old(dir.profiles)
  {
    if current.None? {
      return Failure("User not authenticated");
    }
    var user := UserLookup(dir.users)(current.value.id);
    if user.None? {
      user := dir.CreateUser(NewUser(current.value, newUserId));
      if user.None? {
        return Failure("Failed to create user");
      }
      var _ := dir.CreateUserProfile(DefaultProfile(user.value.id, newProfileId));
    }
    r := Success(user.value);
  }

  /**
   * `getUserProfile(userId?)`: the profile of `userId` when it is given (a truthy string),
   * without asking who is signed in; otherwise the profile of the signed-in user.
   */
  function GetUserProfile(current: Option<ClerkUser>, users: seq<User>, profiles: seq<UserProfile>,
                          userId: Option<string>): (r: ApiResponse<UserProfile>)
    ensures Truthy(userId) ==>
              (r.Success? <==> Seqs.FindSingle(profiles, ProfileOf(userId.value)).Some?)
              && (r.Success? ==> r.data.userId == userId.value)
    ensures !Truthy(userId) ==>
              var auth := Authenticate(current, UserLookup(users));
              (auth.Failure? ==> r == Failure(auth.error))
              && (auth.Success? ==> (r.Success? <==> Seqs.FindSingle(profiles, ProfileOf(auth.data.id)).Some?))
              && (auth.Success? && r.Success? ==> r.data.userId == auth.data.id)
    ensures r.Failure? && (Truthy(userId) || Authenticate(current, UserLookup(users)).Success?) ==>
              r.error == "Profile not found"
    ensures r.Success? ==> r.data in profiles
  {
    var target: ApiResponse<string> :=
      if Truthy(userId) then Success(userId.value)
      else
        var auth := Authenticate(current, UserLookup(users));
        if auth.Failure? then Failure(auth.error) else Success(auth.data.id);
    if target.Failure? then Failure(target.error)
    else
      var profile := Seqs.FindSingle(profiles, ProfileOf(target.data));
      if profile.None? then Failure("Profile not found") else Success(profile.value)
  }

  /**
   * `updateUserPreferences(preferences)`: the signed-in user's profile gets the current
   * preferences overridden by the supplied keys; a missing profile writes nothing.
   */
  method UpdateUserPreferences(dir: UserDirectory, current: Option<ClerkUser>, patch: PreferencesPatch)
    returns (r: ApiResponse<UserProfile>)
    modifies dir
    ensures dir.users == old(dir.users)
    ensures var auth := Authenticate(current, UserLookup(old(dir.users)));
            auth.Failure? ==> r == Failure(auth.error) && dir.profiles == old(dir.profiles)
    ensures var auth := Authenticate(current, UserLookup(old(dir.users)));
            auth.Success? && Seqs.FindSingle(old(dir.profiles), ProfileOf(auth.data.id)).None? ==>
              r == Failure("Profile not found") && dir.profiles == old(dir.profiles)
    ensures var auth := Authenticate(current, UserLookup(old(dir.users)));
            auth.Success? && Seqs.FindSingle(old(dir.profiles), ProfileOf(auth.data.id)).Some? ==>
              var found := Seqs.FindSingle(old(dir.profiles), ProfileOf(auth.data.id));
              var merged := MergePreferences(found.value.preferences, patch);
              var u := Seqs.UpdateSingle(old(dir.profiles), ProfileOf(auth.data.id), WithPreferences(merged));
              u.Some? && r == Success(u.value.1) && dir.profiles == u.value.0
  {
    var auth := Authenticate(current, UserLookup(dir.users));
    if auth.Failure? {
      return Failure(auth.error);
    }
    var currentProfile := dir.GetUserProfile(auth.data.id);
    if currentProfile.None? {
      return Failure("Profile not found");
    }
    var updatedPreferences := MergePreferences(currentProfile.value.preferences, patch);
    var updatedProfile := dir.UpdatePreferences(auth.data.id, updatedPreferences);
    if updatedProfile.None? {
      return Failure("Failed to update preferences");
    }
    r := Success(updatedProfile.value);
  }

  /**
   * After a successful preference update the user's profile holds the merged preferences and
   * keeps its id, bio and goals; every other profile is untouched.
   */
  lemma PreferenceUpdateTouchesOnlyOwnProfile(profiles: seq<UserProfile>, userId: string, patch: PreferencesPatch, j: nat)
    requires Seqs.FindSingle(profiles, ProfileOf(userId)).Some?
    requires j < |profiles|
    ensures var found := Seqs.FindSingle(profiles, ProfileOf(userId)).value;
            var u := Seqs.UpdateSingle(profiles, ProfileOf(userId), WithPreferences(MergePreferences(found.preferences, patch)));
            u.Some?
            && (profiles[j].userId != userId ==> u.value.0[j] == profiles[j])
            && (profiles[j].userId == userId ==>
                  u.value.0[j] == profiles[j].(preferences := MergePreferences(profiles[j].preferences, patch)))
  {
    var found := Seqs.FindSingle(profiles, ProfileOf(userId)).value;
    if profiles[j].userId == userId {
      Seqs.UpdateSingleAt(profiles, ProfileOf(userId), WithPreferences(MergePreferences(found.preferences, patch)), j);
    }
  }
}
