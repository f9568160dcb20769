/**
 * Rows of the remote store's tables, the outcomes a remote request can have,
 * and the log of requests the client sends.
 */
module Tables {

  type UserId = string

  datatype Option<T> = None | Some(value: T)

  /** Outcome of a remote call that returns data: the data, an `error` result, or a thrown exception. */
  datatype Reply<T> = Answer(value: T) | Failure | Exception

  /** Outcome of a query or write that the store answers from its own tables. */
  datatype Status = Done | Failed | Threw

  /** Result of a `.single()` select: one row, no row (code PGRST116), another error, or an exception. */
  datatype Single<T> = Row(value: T) | NoRows | QueryError | QueryException

  /** What `supabase.auth.signUp` answers: `data.user` (possibly null), or an error with its message. */
  datatype AuthReply = AuthOk(user: Option<UserId>) | AuthError(message: string)

  /** `{ success, message }` as returned by `create_user_profile_json`. */
  datatype RpcResult = RpcResult(success: bool, message: string)

  /** User metadata attached to the new identity, read by server-side triggers. */
  datatype Metadata = Metadata(name: string, referralCode: Option<string>, referrerId: Option<string>)

  /** An auth identity. */
  datatype Identity = Identity(email: string, metadata: Metadata)

  /** A `user_profiles` row (timestamps left out). */
  datatype Profile = Profile(
    name: string,
    email: string,
    dreamFrequency: string,
    journalExperience: string,
    goals: seq<string>,
    notificationTime: Option<int>,
    privacyLevel: string)

  /** A `user_rewards` row (timestamp left out). */
  datatype Rewards = Rewards(totalPoints: int, currentTier: string, totalReferrals: int, successfulReferrals: int)

  /** A `referral_codes` row. */
  datatype CodeRow = CodeRow(userId: UserId, code: string, isActive: bool)

  /** The sign-up form as the onboarding screen collects it. */
  datatype UserData = UserData(
    name: string,
    email: string,
    password: string,
    referralCode: string,
    dreamFrequency: string,
    journalExperience: string,
    goals: seq<string>,
    notificationTime: seq<int>,
    privacyLevel: string)

  /** One request sent to the remote store or the auth service. */
  datatype Call =
    | ValidateCodeRpc(code: string)
    | AuthSignUp(email: string, metadata: Metadata)
    | CreateProfileRpc(userId: UserId)
    | ProfileUpsert(userId: UserId)
    | RewardsUpsert(userId: UserId, rewards: Rewards)
    | GetOrCreateProfileRpc(userId: UserId)
    | ProfileSelect(userId: UserId)
    | ProfileInsert(userId: UserId)
    | CodeSelectByUser(userId: UserId)
    | GenerateCodeRpc(userName: string)
    | CodeInsert(userId: UserId, code: string)
    | CodeSelectByValue(code: string)

  /** The store's tables together with every request sent to it so far. */
  datatype Snapshot = Snapshot(
    users: map<UserId, Identity>,
    profiles: map<UserId, Profile>,
    rewards: map<UserId, Rewards>,
    codes: seq<CodeRow>,
    calls: seq<Call>)

  /** Number of requests in `calls` that satisfy `p`. */
  function CountCalls(calls: seq<Call>, p: Call -> bool): nat
  {
    if calls == [] then 0 else (if p(calls[0]) then 1 else 0) + CountCalls(calls[1..], p)
  }

  /** Counting over a concatenation adds up. */
  lemma {:induction false} CountCallsAppend(a: seq<Call>, b: seq<Call>, p: Call -> bool)
    ensures CountCalls(a + b, p) == CountCalls(a, p) + CountCalls(b, p)
  {
    if a == [] {
      assert a + b == b;
    } else {
      assert (a + b)[1..] == a[1..] + b;
      CountCallsAppend(a[1..], b, p);
    }
  }
}
