/**
 * Sign-up orchestration and profile provisioning: `signUp` with its profile
 * fallback and welcome bonus, and the `ensureUserProfile` / `getProfileDirectly`
 * chain. Every remote outcome is a parameter; every request goes through the
 * store.
 */
module Auth {
  import opened Tables
  import opened Strings
  import opened Store
  import opened Referrals

  // ---------------------------------------------------------------- rows written

  /** The profile the sign-up sends; `notificationTime[0]` is undefined (null) for an empty slider value. */
  function ProfileOf(u: UserData): Profile
  {
    Profile(u.name, u.email, u.dreamFrequency, u.journalExperience, u.goals,
            if |u.notificationTime| > 0 then Some(u.notificationTime[0]) else None, u.privacyLevel)
  }

  /** The minimal profile `getProfileDirectly` inserts. */
  function DefaultProfile(): Profile
  {
    Profile("User", "", "sometimes", "beginner", ["Better understand my dreams"], Some(21), "high")
  }

  /** The rewards row the fallback initialises. */
  function StarterRewards(): Rewards
  {
    Rewards(0, "Dream Starter", 0, 0)
  }

  /** The rewards row of the welcome bonus. */
  function WelcomeRewards(): Rewards
  {
    Rewards(10, "Dream Starter", 0, 0)
  }

  // ---------------------------------------------------------------- sign-up

  /** How each remote step of a sign-up turns out. */
  datatype SignUpReplies = SignUpReplies(
    validation: Reply<seq<ValidationRow>>,
    auth: AuthReply,
    profileRpc: Reply<Option<RpcResult>>,
    fallbackProfile: Status,
    fallbackRewards: Status,
    bonus: Status)

  /** `signUp` returns the auth data of the new user or throws with a message. */
  datatype SignUpResult = SignedUp(userId: UserId) | SignUpFailed(message: string)

  datatype SignUpRun = SignUpRun(state: Snapshot, result: SignUpResult)

  const UserCreationFailed := "User creation failed"

  /** The profile procedure failed: an error, a result reporting failure, or an exception. A null result is not a failure. */
  predicate NeedsFallback(reply: Reply<Option<RpcResult>>)
  {
    reply.Failure? || reply.Exception? || (reply.Answer? && reply.value.Some? && !reply.value.value.success)
  }

  /** The metadata attached to the identity; the validator never supplies a referrer id. */
  function MetadataFor(u: UserData, v: ValidationResult): Metadata
  {
    Metadata(u.name, if u.referralCode != "" then Some(u.referralCode) else None, v.referrerId)
  }

  /** `createProfileFallback`: an exception from the profile upsert skips the rewards upsert. */
  function FallbackSpec(s: Snapshot, id: UserId, u: UserData, profile: Status, rewards: Status): Snapshot
  {
    var s1 := UpsertProfileStep(s, id, ProfileOf(u), profile);
    if profile == Threw then s1 else UpsertRewardsStep(s1, id, StarterRewards(), rewards)
  }

  /** The supplied code, if any, passed validation. */
  predicate Admitted(u: UserData, r: SignUpReplies)
  {
    u.referralCode == "" || ValidateReferralCode(u.referralCode, r.validation).isValid
  }

  /** The store after the validation step, which runs only for a non-empty code. */
  function Validated(s: Snapshot, u: UserData): Snapshot
  {
    if u.referralCode != "" then ValidationStep(s, u.referralCode) else s
  }

  /** The store after the auth sign-up request. */
  function Identified(s: Snapshot, u: UserData, r: SignUpReplies): Snapshot
  {
    AuthStep(Validated(s, u), u.email, MetadataFor(u, ValidateReferralCode(u.referralCode, r.validation)), r.auth)
  }

  /** Profile procedure, fallback when it failed, then the welcome bonus when a code was supplied. */
  function ProvisionSpec(s: Snapshot, id: UserId, u: UserData, r: SignUpReplies): Snapshot
  {
    var s1 := CreateProfileRpcStep(s, id, ProfileOf(u), r.profileRpc);
    var s2 := if NeedsFallback(r.profileRpc) then FallbackSpec(s1, id, u, r.fallbackProfile, r.fallbackRewards) else s1;
    if u.referralCode != "" then UpsertRewardsStep(s2, id, WelcomeRewards(), r.bonus) else s2
  }

  /** `signUp`, step by step. */
  function SignUpSpec(s: Snapshot, u: UserData, r: SignUpReplies): SignUpRun
  {
    if !Admitted(u, r) then
      SignUpRun(Validated(s, u), SignUpFailed("Invalid referral code: " + ValidateReferralCode(u.referralCode, r.validation).message))
    else match r.auth
      case AuthError(m) => SignUpRun(Identified(s, u, r), SignUpFailed(m))
      case AuthOk(user) =>
        if user.None? then SignUpRun(Identified(s, u, r), SignUpFailed(UserCreationFailed))
        else SignUpRun(ProvisionSpec(Identified(s, u, r), user.value, u, r), SignedUp(user.value))
  }

  method CreateProfileFallback(store: RemoteStore, id: UserId, u: UserData, profile: Status, rewards: Status)
    modifies store
    ensures store.State() == FallbackSpec(old(store.State()), id, u, profile, rewards)
  {
    store.UpsertProfile(id, ProfileOf(u), profile);
    if profile == Threw {
      return;
    }
    store.UpsertRewards(id, StarterRewards(), rewards);
  }

  method SignUp(store: RemoteStore, u: UserData, r: SignUpReplies) returns (result: SignUpResult)
    modifies store
    ensures SignUpRun(store.State(), result) == SignUpSpec(old(store.State()), u, r)
  {
    var v := ValidateReferralCode(u.referralCode, r.validation);
    if u.referralCode != "" {
      v := Validate(store, u.referralCode, r.validation);
      if !v.isValid {
        return SignUpFailed("Invalid referral code: " + v.message);
      }
    }
    store.SignUpIdentity(u.email, MetadataFor(u, v), r.auth);
    if r.auth.AuthError? {
      return SignUpFailed(r.auth.message);
    }
    if r.auth.user.None? {
      return SignUpFailed(UserCreationFailed);
    }
    var id := r.auth.user.value;
    store.CreateProfileJson(id, ProfileOf(u), r.profileRpc);
    if NeedsFallback(r.profileRpc) {
      CreateProfileFallback(store, id, u, r.fallbackProfile, r.fallbackRewards);
    }
    if u.referralCode != "" {
      store.UpsertRewards(id, WelcomeRewards(), r.bonus);
    }
    result := SignedUp(id);
  }

  predicate IsProfileUpsert(c: Call) { c.ProfileUpsert? }
  predicate IsBonusUpsert(c: Call) { c.RewardsUpsert? && c.rewards == WelcomeRewards() }

  /** Validation changes no table. */
  lemma ValidatedFrame(s: Snapshot, u: UserData)
    ensures Validated(s, u).(calls := s.calls) == s
    ensures |s.calls| <= |Validated(s, u).calls| && Validated(s, u).calls[..|s.calls|] == s.calls
  {
  }

  /** The auth request adds at most the new identity. */
  lemma IdentifiedFrame(s: Snapshot, u: UserData, r: SignUpReplies)
    ensures var t := Identified(s, u, r);
      && t.profiles == s.profiles && t.rewards == s.rewards && t.codes == s.codes
      && (r.auth.AuthOk? && r.auth.user.Some? ==>
            t.users == s.users[r.auth.user.value := Identity(u.email, MetadataFor(u, ValidateReferralCode(u.referralCode, r.validation)))])
      && (!(r.auth.AuthOk? && r.auth.user.Some?) ==> t.users == s.users)
  {
    ValidatedFrame(s, u);
    var v := Validated(s, u);
    assert v.users == s.users && v.profiles == s.profiles && v.rewards == s.rewards && v.codes == s.codes;
  }

  /** Provisioning leaves identities and codes alone. */
  lemma ProvisionFrame(s: Snapshot, id: UserId, u: UserData, r: SignUpReplies)
    ensures ProvisionSpec(s, id, u, r).users == s.users && ProvisionSpec(s, id, u, r).codes == s.codes
  {
  }

  /** An admitted sign-up whose identity was created goes on to provisioning and succeeds. */
  lemma SignUpCreated(s: Snapshot, u: UserData, r: SignUpReplies, id: UserId)
    requires Admitted(u, r) && r.auth == AuthOk(Some(id))
    ensures SignUpSpec(s, u, r) == SignUpRun(ProvisionSpec(Identified(s, u, r), id, u, r), SignedUp(id))
  {
  }

  /** An invalid supplied code aborts before the auth call: only the validation request is sent, no table changes. */
  lemma InvalidCodeAborts(s: Snapshot, u: UserData, r: SignUpReplies)
    requires u.referralCode != "" && !ValidateReferralCode(u.referralCode, r.validation).isValid
    ensures var run := SignUpSpec(s, u, r);
      && run.result == SignUpFailed("Invalid referral code: " + ValidateReferralCode(u.referralCode, r.validation).message)
      && run.state.(calls := s.calls) == s
      && forall c :: c in run.state.calls ==> c in s.calls || c == ValidateCodeRpc(Upper(u.referralCode))
  {
    ValidatedFrame(s, u);
  }

  /** A code of spaces is supplied (non-empty) but blank, so the sign-up fails with the blank-input message. */
  lemma BlankCodeRejected(s: Snapshot, u: UserData, r: SignUpReplies)
    requires u.referralCode != "" && IsBlank(u.referralCode)
    ensures SignUpSpec(s, u, r) == SignUpRun(s, SignUpFailed("Invalid referral code: " + EnterCodeMessage))
  {
  }

  /** The new identity carries the name, the code (or null) and a null referrer id. */
  lemma IdentityMetadata(s: Snapshot, u: UserData, r: SignUpReplies, id: UserId)
    requires Admitted(u, r) && r.auth == AuthOk(Some(id))
    ensures var run := SignUpSpec(s, u, r);
      && id in run.state.users
      && run.state.users[id] == Identity(u.email, Metadata(u.name, if u.referralCode == "" then None else Some(u.referralCode), None))
  {
    SignUpCreated(s, u, r, id);
    IdentifiedFrame(s, u, r);
    ProvisionFrame(Identified(s, u, r), id, u, r);
    assert ValidateReferralCode(u.referralCode, r.validation).referrerId.None?;
  }

  /** An auth error or a missing user makes the sign-up fail, with profiles, rewards and codes untouched. */
  lemma AuthFailureTouchesNothing(s: Snapshot, u: UserData, r: SignUpReplies)
    requires r.auth.AuthError? || r.auth == AuthOk(None)
    ensures var run := SignUpSpec(s, u, r);
      && run.result.SignUpFailed?
      && (r.auth.AuthError? && Admitted(u, r) ==> run.result.message == r.auth.message)
      && (r.auth == AuthOk(None) && Admitted(u, r) ==> run.result.message == UserCreationFailed)
      && run.state.profiles == s.profiles && run.state.rewards == s.rewards && run.state.codes == s.codes
  {
    ValidatedFrame(s, u);
    IdentifiedFrame(s, u, r);
  }

  /** Once the identity exists, the sign-up succeeds whatever the profile steps do. */
  lemma IdentitySucceeds(s: Snapshot, u: UserData, r: SignUpReplies, id: UserId)
    requires Admitted(u, r) && r.auth == AuthOk(Some(id))
    ensures SignUpSpec(s, u, r).result == SignedUp(id)
  {
    SignUpCreated(s, u, r, id);
  }

  /** Counting requests across a step that appends one call. */
  lemma CountLogged(calls: seq<Call>, c: Call, p: Call -> bool)
    ensures CountCalls(calls + [c], p) == CountCalls(calls, p) + (if p(c) then 1 else 0)
  {
    CountCallsAppend(calls, [c], p);
    assert [c][1..] == [];
  }

  /** The calls a fallback sends, counted. */
  lemma FallbackCalls(s: Snapshot, id: UserId, u: UserData, profile: Status, rewards: Status, p: Call -> bool)
    ensures CountCalls(FallbackSpec(s, id, u, profile, rewards).calls, p)
         == CountCalls(s.calls, p) + (if p(ProfileUpsert(id)) then 1 else 0)
            + (if profile != Threw && p(RewardsUpsert(id, StarterRewards())) then 1 else 0)
  {
    var s1 := UpsertProfileStep(s, id, ProfileOf(u), profile);
    CountLogged(s.calls, ProfileUpsert(id), p);
    if profile != Threw {
      CountLogged(s1.calls, RewardsUpsert(id, StarterRewards()), p);
    }
  }

  /** The calls provisioning sends, counted. */
  lemma ProvisionCalls(s: Snapshot, id: UserId, u: UserData, r: SignUpReplies, p: Call -> bool)
    ensures CountCalls(ProvisionSpec(s, id, u, r).calls, p)
         == CountCalls(s.calls, p)
            + (if p(CreateProfileRpc(id)) then 1 else 0)
            + (if NeedsFallback(r.profileRpc) && p(ProfileUpsert(id)) then 1 else 0)
            + (if NeedsFallback(r.profileRpc) && r.fallbackProfile != Threw && p(RewardsUpsert(id, StarterRewards())) then 1 else 0)
            + (if u.referralCode != "" && p(RewardsUpsert(id, WelcomeRewards())) then 1 else 0)
  {
    var s1 := CreateProfileRpcStep(s, id, ProfileOf(u), r.profileRpc);
    CountLogged(s.calls, CreateProfileRpc(id), p);
    var s2 := if NeedsFallback(r.profileRpc) then FallbackSpec(s1, id, u, r.fallbackProfile, r.fallbackRewards) else s1;
    if NeedsFallback(r.profileRpc) {
      FallbackCalls(s1, id, u, r.fallbackProfile, r.fallbackRewards, p);
    }
    if u.referralCode != "" {
      CountLogged(s2.calls, RewardsUpsert(id, WelcomeRewards()), p);
    }
  }

  /** Validation sends at most the one procedure call. */
  lemma ValidatedCalls(s: Snapshot, u: UserData)
    ensures Validated(s, u).calls == s.calls || Validated(s, u).calls == s.calls + [ValidateCodeRpc(Upper(u.referralCode))]
  {
  }

  /** A predicate false on the validation request counts the same before and after validation. */
  lemma ValidatedCount(s: Snapshot, u: UserData, p: Call -> bool)
    requires !p(ValidateCodeRpc(Upper(u.referralCode)))
    ensures CountCalls(Validated(s, u).calls, p) == CountCalls(s.calls, p)
  {
    ValidatedCalls(s, u);
    if Validated(s, u).calls != s.calls {
      CountLogged(s.calls, ValidateCodeRpc(Upper(u.referralCode)), p);
    }
  }

  /** A predicate false on the auth request counts the same before and after it. */
  lemma AuthCount(s: Snapshot, email: string, meta: Metadata, reply: AuthReply, p: Call -> bool)
    requires !p(AuthSignUp(email, meta))
    ensures CountCalls(AuthStep(s, email, meta, reply).calls, p) == CountCalls(s.calls, p)
  {
    CountLogged(s.calls, AuthSignUp(email, meta), p);
  }

  /** Up to the auth request a sign-up sends no profile upsert. */
  lemma IdentifiedNoProfileUpsert(s: Snapshot, u: UserData, r: SignUpReplies)
    ensures CountCalls(Identified(s, u, r).calls, IsProfileUpsert) == CountCalls(s.calls, IsProfileUpsert)
  {
    ValidatedCount(s, u, IsProfileUpsert);
    AuthCount(Validated(s, u), u.email, MetadataFor(u, ValidateReferralCode(u.referralCode, r.validation)), r.auth, IsProfileUpsert);
  }

  /** Up to the auth request a sign-up sends no welcome bonus. */
  lemma IdentifiedNoBonus(s: Snapshot, u: UserData, r: SignUpReplies)
    ensures CountCalls(Identified(s, u, r).calls, IsBonusUpsert) == CountCalls(s.calls, IsBonusUpsert)
  {
    ValidatedCount(s, u, IsBonusUpsert);
    AuthCount(Validated(s, u), u.email, MetadataFor(u, ValidateReferralCode(u.referralCode, r.validation)), r.auth, IsBonusUpsert);
  }

  /** Provisioning sends one profile upsert exactly when the fallback runs, and one bonus exactly when a code was given. */
  lemma ProvisionWrites(s: Snapshot, id: UserId, u: UserData, r: SignUpReplies)
    ensures CountCalls(ProvisionSpec(s, id, u, r).calls, IsProfileUpsert)
         == CountCalls(s.calls, IsProfileUpsert) + (if NeedsFallback(r.profileRpc) then 1 else 0)
    ensures CountCalls(ProvisionSpec(s, id, u, r).calls, IsBonusUpsert)
         == CountCalls(s.calls, IsBonusUpsert) + (if u.referralCode != "" then 1 else 0)
  {
    ProvisionCalls(s, id, u, r, IsProfileUpsert);
    ProvisionCalls(s, id, u, r, IsBonusUpsert);
  }

  /** The fallback runs once exactly when the profile procedure failed, and never otherwise. */
  lemma FallbackAtMostOnce(s: Snapshot, u: UserData, r: SignUpReplies, id: UserId)
    requires Admitted(u, r) && r.auth == AuthOk(Some(id))
    ensures var run := SignUpSpec(s, u, r);
      CountCalls(run.state.calls, IsProfileUpsert) == CountCalls(s.calls, IsProfileUpsert) + (if NeedsFallback(r.profileRpc) then 1 else 0)
  {
    SignUpCreated(s, u, r, id);
    IdentifiedNoProfileUpsert(s, u, r);
    ProvisionWrites(Identified(s, u, r), id, u, r);
  }

  /** A null procedure result without an error does not start the fallback. */
  lemma NullResultNoFallback(s: Snapshot, u: UserData, r: SignUpReplies, id: UserId)
    requires r.profileRpc == Answer(None)
    requires Admitted(u, r) && r.auth == AuthOk(Some(id))
    ensures CountCalls(SignUpSpec(s, u, r).state.calls, IsProfileUpsert) == CountCalls(s.calls, IsProfileUpsert)
  {
    assert !NeedsFallback(r.profileRpc);
    SignUpCreated(s, u, r, id);
    IdentifiedNoProfileUpsert(s, u, r);
    ProvisionWrites(Identified(s, u, r), id, u, r);
  }

  /** After a null procedure result the client has written no profile. */
  lemma NullResultKeepsProfiles(s: Snapshot, u: UserData, r: SignUpReplies, id: UserId)
    requires r.profileRpc == Answer(None)
    requires Admitted(u, r) && r.auth == AuthOk(Some(id))
    ensures SignUpSpec(s, u, r).state.profiles == s.profiles
  {
    SignUpCreated(s, u, r, id);
    IdentifiedFrame(s, u, r);
    ProvisionNullKeepsProfiles(Identified(s, u, r), id, u, r);
  }

  lemma ProvisionNullKeepsProfiles(s: Snapshot, id: UserId, u: UserData, r: SignUpReplies)
    requires r.profileRpc == Answer(None)
    ensures ProvisionSpec(s, id, u, r).profiles == s.profiles
  {
  }

  /** Without a code the welcome bonus is never sent; with a valid code it is sent exactly once. */
  lemma BonusOnlyWithCode(s: Snapshot, u: UserData, r: SignUpReplies, id: UserId)
    requires Admitted(u, r) && r.auth == AuthOk(Some(id))
    ensures var run := SignUpSpec(s, u, r);
      CountCalls(run.state.calls, IsBonusUpsert) == CountCalls(s.calls, IsBonusUpsert) + (if u.referralCode != "" then 1 else 0)
  {
    SignUpCreated(s, u, r, id);
    IdentifiedNoBonus(s, u, r);
    ProvisionWrites(Identified(s, u, r), id, u, r);
  }

  /** Without a code the sign-up leaves rewards alone unless the fallback initialises them. */
  lemma NoCodeNoRewardsChange(s: Snapshot, u: UserData, r: SignUpReplies)
    requires u.referralCode == ""
    ensures var run := SignUpSpec(s, u, r);
      forall k :: k in run.state.rewards ==>
        (k in s.rewards && run.state.rewards[k] == s.rewards[k]) || run.state.rewards[k] == StarterRewards()
  {
    IdentifiedFrame(s, u, r);
  }

  /** The bonus runs after any fallback, so an answered bonus leaves 10 points. */
  lemma BonusIsFinal(s: Snapshot, u: UserData, r: SignUpReplies, id: UserId)
    requires u.referralCode != "" && Admitted(u, r)
    requires r.auth == AuthOk(Some(id)) && r.bonus == Done
    ensures var run := SignUpSpec(s, u, r);
      id in run.state.rewards && run.state.rewards[id] == WelcomeRewards() && run.state.rewards[id].totalPoints == 10
  {
    SignUpCreated(s, u, r, id);
  }

  /** The profile ends up stored when the procedure succeeded or the fallback upsert was answered. */
  lemma ProfileProvisioned(s: Snapshot, u: UserData, r: SignUpReplies, id: UserId)
    requires Admitted(u, r) && r.auth == AuthOk(Some(id))
    requires (r.profileRpc.Answer? && r.profileRpc.value.Some? && r.profileRpc.value.value.success)
          || (NeedsFallback(r.profileRpc) && r.fallbackProfile == Done)
    ensures var run := SignUpSpec(s, u, r);
      id in run.state.profiles && run.state.profiles[id] == ProfileOf(u)
  {
    SignUpCreated(s, u, r, id);
    ProvisionWritesProfile(Identified(s, u, r), id, u, r);
  }

  /** The stored profile carries the form's name, email, goals and answers, and the first notification time or null. */
  lemma ProvisionedProfileHoldsForm(s: Snapshot, u: UserData, r: SignUpReplies, id: UserId)
    requires Admitted(u, r) && r.auth == AuthOk(Some(id))
    requires (r.profileRpc.Answer? && r.profileRpc.value.Some? && r.profileRpc.value.value.success)
          || (NeedsFallback(r.profileRpc) && r.fallbackProfile == Done)
    ensures var run := SignUpSpec(s, u, r);
      && id in run.state.profiles
      && var p := run.state.profiles[id];
      && p.name == u.name && p.email == u.email && p.goals == u.goals
      && p.dreamFrequency == u.dreamFrequency && p.journalExperience == u.journalExperience && p.privacyLevel == u.privacyLevel
      && (|u.notificationTime| == 0 ==> p.notificationTime.None?)
      && (|u.notificationTime| > 0 ==> p.notificationTime == Some(u.notificationTime[0]))
  {
    ProfileProvisioned(s, u, r, id);
  }

  lemma ProvisionWritesProfile(s: Snapshot, id: UserId, u: UserData, r: SignUpReplies)
    requires (r.profileRpc.Answer? && r.profileRpc.value.Some? && r.profileRpc.value.value.success)
          || (NeedsFallback(r.profileRpc) && r.fallbackProfile == Done)
    ensures id in ProvisionSpec(s, id, u, r).profiles && ProvisionSpec(s, id, u, r).profiles[id] == ProfileOf(u)
  {
  }

  /** The fallback writes the profile when answered and the starter rewards even if the profile write failed. */
  lemma FallbackOutcome(s: Snapshot, id: UserId, u: UserData, profile: Status, rewards: Status)
    ensures var f := FallbackSpec(s, id, u, profile, rewards);
      && f.users == s.users && f.codes == s.codes
      && f.profiles == (if profile == Done then s.profiles[id := ProfileOf(u)] else s.profiles)
      && f.rewards == (if profile != Threw && rewards == Done then s.rewards[id := StarterRewards()] else s.rewards)
  {
  }

  // ---------------------------------------------------------------- profile chain

  /** How the three requests of `getProfileDirectly` turn out. */
  datatype DirectReplies = DirectReplies(select: Status, insert: Status, reselect: Status)

  datatype ProfileRun = ProfileRun(state: Snapshot, profile: Option<Profile>)

  function AsOption(r: Single<Profile>): Option<Profile>
  {
    if r.Row? then Some(r.value) else None
  }

  /** `getProfileDirectly`: the row, or on PGRST116 a default row inserted and read back; any other error is null. */
  function DirectSpec(s: Snapshot, id: UserId, d: DirectReplies): ProfileRun
  {
    var s1 := Logged(s, ProfileSelect(id));
    match ProfileLookup(s, id, d.select)
    case Row(p) => ProfileRun(s1, Some(p))
    case NoRows =>
      var s2 := InsertProfileStep(s1, id, DefaultProfile(), d.insert);
      if !InsertProfileOk(s1, id, d.insert) then ProfileRun(s2, None)
      else ProfileRun(Logged(s2, ProfileSelect(id)), AsOption(ProfileLookup(s2, id, d.reselect)))
    case _ => ProfileRun(s1, None)
  }

  /** `ensureUserProfile`: null without an id, the procedure's first row, otherwise the direct chain. */
  function EnsureSpec(s: Snapshot, user: Option<UserId>, rpc: Reply<seq<Profile>>, d: DirectReplies): ProfileRun
  {
    if user.None? || user.value == "" then ProfileRun(s, None)
    else
      var s1 := Logged(s, GetOrCreateProfileRpc(user.value));
      if rpc.Answer? && |rpc.value| > 0 then ProfileRun(s1, Some(rpc.value[0]))
      else DirectSpec(s1, user.value, d)
  }

  method GetProfileDirectly(store: RemoteStore, id: UserId, d: DirectReplies) returns (profile: Option<Profile>)
    modifies store
    ensures ProfileRun(store.State(), profile) == DirectSpec(old(store.State()), id, d)
  {
    var found := store.SelectProfile(id, d.select);
    if found.Row? {
      return Some(found.value);
    }
    if !found.NoRows? {
      return None;
    }
    var created := store.InsertProfile(id, DefaultProfile(), d.insert);
    if !created {
      return None;
    }
    var reread := store.SelectProfile(id, d.reselect);
    profile := AsOption(reread);
  }

  method EnsureUserProfile(store: RemoteStore, user: Option<UserId>, rpc: Reply<seq<Profile>>, d: DirectReplies)
    returns (profile: Option<Profile>)
    modifies store
    ensures ProfileRun(store.State(), profile) == EnsureSpec(old(store.State()), user, rpc, d)
  {
    if user.None? || user.value == "" {
      return None;
    }
    store.Send(GetOrCreateProfileRpc(user.value));
    if rpc.Answer? && |rpc.value| > 0 {
      return Some(rpc.value[0]);
    }
    profile := GetProfileDirectly(store, user.value, d);
  }

  predicate IsProfileSelect(c: Call) { c.ProfileSelect? }
  predicate IsProfileInsert(c: Call) { c.ProfileInsert? }

  /** An existing row is returned and nothing is written. */
  lemma DirectExisting(s: Snapshot, id: UserId, insert: Status, reselect: Status)
    requires id in s.profiles
    ensures var run := DirectSpec(s, id, DirectReplies(Done, insert, reselect));
      && run.profile == Some(s.profiles[id]) && run.state.profiles == s.profiles
      && run.state == Logged(s, ProfileSelect(id))
  {
  }

  /** A missing row is created with the defaults and read back. */
  lemma DirectCreatesDefault(s: Snapshot, id: UserId)
    requires id !in s.profiles
    ensures var run := DirectSpec(s, id, DirectReplies(Done, Done, Done));
      && run.profile == Some(DefaultProfile())
      && run.state.profiles == s.profiles[id := DefaultProfile()]
      && DefaultProfile().name == "User" && DefaultProfile().notificationTime == Some(21)
  {
  }

  /** Any error other than not-found, and any failed insert, gives null. */
  lemma DirectErrorsAreNull(s: Snapshot, id: UserId, d: DirectReplies)
    requires d.select != Done || (id !in s.profiles && d.insert != Done)
    ensures DirectSpec(s, id, d).profile.None?
  {
  }

  /** The chain never overwrites a row, adds at most the row for `id`, and returns only what is stored. */
  lemma DirectNeverOverwrites(s: Snapshot, id: UserId, d: DirectReplies)
    ensures var run := DirectSpec(s, id, d);
      && (forall k :: k in s.profiles ==> k in run.state.profiles && run.state.profiles[k] == s.profiles[k])
      && (forall k :: k in run.state.profiles ==> k in s.profiles || k == id)
      && (run.profile.Some? ==> id in run.state.profiles && run.state.profiles[id] == run.profile.value)
      && run.state.users == s.users && run.state.rewards == s.rewards && run.state.codes == s.codes
  {
  }

  /** Without an id nothing is sent and the answer is null. */
  lemma EnsureWithoutId(s: Snapshot, rpc: Reply<seq<Profile>>, d: DirectReplies)
    ensures EnsureSpec(s, None, rpc, d) == ProfileRun(s, None)
    ensures EnsureSpec(s, Some(""), rpc, d) == ProfileRun(s, None)
  {
  }

  /** A non-empty procedure answer is returned as its first row, with no direct query. */
  lemma EnsureProcedureHit(s: Snapshot, id: UserId, ps: seq<Profile>, d: DirectReplies)
    requires id != "" && |ps| > 0
    ensures var run := EnsureSpec(s, Some(id), Answer(ps), d);
      run.profile == Some(ps[0]) && run.state == Logged(s, GetOrCreateProfileRpc(id))
  {
  }

  /** On a procedure error, an empty answer or an exception, the direct chain runs exactly once. */
  lemma EnsureFallsBackOnce(s: Snapshot, id: UserId, rpc: Reply<seq<Profile>>, d: DirectReplies)
    requires id != "" && !(rpc.Answer? && |rpc.value| > 0)
    ensures EnsureSpec(s, Some(id), rpc, d) == DirectSpec(Logged(s, GetOrCreateProfileRpc(id)), id, d)
    ensures var run := EnsureSpec(s, Some(id), rpc, d);
      && CountCalls(run.state.calls, IsProfileInsert) <= CountCalls(s.calls, IsProfileInsert) + 1
      && CountCalls(run.state.calls, IsProfileSelect) >= CountCalls(s.calls, IsProfileSelect) + 1
      && CountCalls(run.state.calls, IsProfileSelect) <= CountCalls(s.calls, IsProfileSelect) + 2
  {
    var s1 := Logged(s, GetOrCreateProfileRpc(id));
    CountLogged(s.calls, GetOrCreateProfileRpc(id), IsProfileInsert);
    CountLogged(s.calls, GetOrCreateProfileRpc(id), IsProfileSelect);
    var s2 := Logged(s1, ProfileSelect(id));
    CountLogged(s1.calls, ProfileSelect(id), IsProfileInsert);
    CountLogged(s1.calls, ProfileSelect(id), IsProfileSelect);
    var s3 := InsertProfileStep(s2, id, DefaultProfile(), d.insert);
    CountLogged(s2.calls, ProfileInsert(id), IsProfileInsert);
    CountLogged(s2.calls, ProfileInsert(id), IsProfileSelect);
    CountLogged(s3.calls, ProfileSelect(id), IsProfileInsert);
    CountLogged(s3.calls, ProfileSelect(id), IsProfileSelect);
  }

  /** When every direct request is answered, the user has a profile afterwards. */
  lemma EnsureProvisions(s: Snapshot, id: UserId, rpc: Reply<seq<Profile>>)
    requires id != "" && !(rpc.Answer? && |rpc.value| > 0)
    ensures var run := EnsureSpec(s, Some(id), rpc, DirectReplies(Done, Done, Done));
      && id in run.state.profiles && run.profile == Some(run.state.profiles[id])
  {
  }
}
