/**
 * The remote store as the client sees it: auth identities, `user_profiles`
 * keyed by id, `user_rewards` keyed by user_id, the `referral_codes` table, and
 * the requests sent so far. Each request is a method of `RemoteStore` whose new
 * state is given by a step function on `Snapshot`; how a request turns out
 * (answered, error, exception) is a parameter.
 */
module Store {
  import opened Tables

  /** `s` with request `c` appended to the log. */
  function Logged(s: Snapshot, c: Call): Snapshot
  {
    s.(calls := s.calls + [c])
  }

  /** The codes of the active `referral_codes` rows of `userId`, in table order. */
  function ActiveCodes(codes: seq<CodeRow>, userId: UserId): (r: seq<string>)
    ensures |r| <= |codes|
    ensures forall c :: c in r <==> CodeRow(userId, c, true) in codes
  {
    if codes == [] then []
    else
      var rest := ActiveCodes(codes[1..], userId);
      if codes[0].userId == userId && codes[0].isActive then [codes[0].code] + rest else rest
  }

  /** The active rows whose code is `code`, as the codes `select("code")` returns. */
  function ActiveWithCode(codes: seq<CodeRow>, code: string): (r: seq<string>)
    ensures |r| <= |codes|
    ensures forall c :: c in r ==> c == code
    ensures r != [] <==> exists u :: CodeRow(u, code, true) in codes
  {
    if codes == [] then []
    else
      var rest := ActiveWithCode(codes[1..], code);
      if codes[0].code == code && codes[0].isActive then [code] + rest else rest
  }

  /** Some row of the table, active or not, holds `code` (the table's unique key). */
  predicate CodeTaken(codes: seq<CodeRow>, code: string)
  {
    exists i :: 0 <= i < |codes| && codes[i].code == code
  }

  /** No two rows of the table hold the same code. */
  predicate UniqueCodes(codes: seq<CodeRow>)
  {
    forall i, j :: 0 <= i < j < |codes| ==> codes[i].code != codes[j].code
  }

  /** `.single()` over the rows a query matched: exactly one row, else PGRST116. */
  function SingleOf<T>(rows: seq<T>, st: Status): (r: Single<T>)
    ensures r.Row? <==> st == Done && |rows| == 1
    ensures r.Row? ==> r.value == rows[0]
    ensures r.NoRows? <==> st == Done && |rows| != 1
  {
    match st
    case Done => if |rows| == 1 then Row(rows[0]) else NoRows
    case Failed => QueryError
    case Threw => QueryException
  }

  /** `select("*").eq("id", id).single()` on `user_profiles`. */
  function ProfileLookup(s: Snapshot, id: UserId, st: Status): (r: Single<Profile>)
    ensures r.Row? <==> st == Done && id in s.profiles
    ensures r.Row? ==> r.value == s.profiles[id]
    ensures r.NoRows? <==> st == Done && id !in s.profiles
  {
    match st
    case Done => if id in s.profiles then Row(s.profiles[id]) else NoRows
    case Failed => QueryError
    case Threw => QueryException
  }

  /** `supabase.auth.signUp`: a returned user is a new identity holding the metadata. */
  function AuthStep(s: Snapshot, email: string, meta: Metadata, reply: AuthReply): (r: Snapshot)
    ensures r.profiles == s.profiles && r.rewards == s.rewards && r.codes == s.codes
    ensures r.calls == s.calls + [AuthSignUp(email, meta)]
    ensures reply.AuthOk? && reply.user.Some? ==> r.users == s.users[reply.user.value := Identity(email, meta)]
    ensures !(reply.AuthOk? && reply.user.Some?) ==> r.users == s.users
  {
    var s1 := Logged(s, AuthSignUp(email, meta));
    if reply.AuthOk? && reply.user.Some? then s1.(users := s1.users[reply.user.value := Identity(email, meta)])
    else s1
  }

  /** `create_user_profile_json`: the profile is stored when the procedure reports success. */
  function CreateProfileRpcStep(s: Snapshot, id: UserId, p: Profile, reply: Reply<Option<RpcResult>>): (r: Snapshot)
    ensures r.users == s.users && r.rewards == s.rewards && r.codes == s.codes
    ensures r.calls == s.calls + [CreateProfileRpc(id)]
    ensures r.profiles == s.profiles || r.profiles == s.profiles[id := p]
  {
    var s1 := Logged(s, CreateProfileRpc(id));
    if reply.Answer? && reply.value.Some? && reply.value.value.success then s1.(profiles := s1.profiles[id := p])
    else s1
  }

  /** `user_profiles.upsert(p, { onConflict: "id" })`. */
  function UpsertProfileStep(s: Snapshot, id: UserId, p: Profile, st: Status): (r: Snapshot)
    ensures r.users == s.users && r.rewards == s.rewards && r.codes == s.codes
    ensures r.calls == s.calls + [ProfileUpsert(id)]
    ensures r.profiles == (if st == Done then s.profiles[id := p] else s.profiles)
  {
    var s1 := Logged(s, ProfileUpsert(id));
    if st == Done then s1.(profiles := s1.profiles[id := p]) else s1
  }

  /** `user_rewards.upsert(r)` keyed on `user_id`. */
  function UpsertRewardsStep(s: Snapshot, id: UserId, r: Rewards, st: Status): (t: Snapshot)
    ensures t.users == s.users && t.profiles == s.profiles && t.codes == s.codes
    ensures t.calls == s.calls + [RewardsUpsert(id, r)]
    ensures t.rewards == (if st == Done then s.rewards[id := r] else s.rewards)
  {
    var s1 := Logged(s, RewardsUpsert(id, r));
    if st == Done then s1.(rewards := s1.rewards[id := r]) else s1
  }

  /** Upserts on one id: the later write wins, other ids keep their rows, so repeating an upsert changes no table. */
  lemma UpsertProfileLastWins(s: Snapshot, id: UserId, p: Profile, q: Profile)
    ensures var t := UpsertProfileStep(UpsertProfileStep(s, id, p, Done), id, q, Done);
      && id in t.profiles && t.profiles[id] == q
      && (forall k :: k != id ==> (k in t.profiles <==> k in s.profiles))
      && (forall k :: k != id && k in s.profiles ==> t.profiles[k] == s.profiles[k])
      && t.(calls := s.calls) == UpsertProfileStep(s, id, q, Done).(calls := s.calls)
  {
  }

  /** The same for `user_rewards` on `user_id`: the later write wins and repeating one is idempotent. */
  lemma UpsertRewardsLastWins(s: Snapshot, id: UserId, a: Rewards, b: Rewards)
    ensures var t := UpsertRewardsStep(UpsertRewardsStep(s, id, a, Done), id, b, Done);
      && id in t.rewards && t.rewards[id] == b
      && (forall k :: k != id ==> (k in t.rewards <==> k in s.rewards))
      && (forall k :: k != id && k in s.rewards ==> t.rewards[k] == s.rewards[k])
      && t.(calls := s.calls) == UpsertRewardsStep(s, id, b, Done).(calls := s.calls)
  {
  }

  /** A `user_profiles.insert` succeeds when answered and the id is not taken. */
  predicate InsertProfileOk(s: Snapshot, id: UserId, st: Status)
  {
    st == Done && id !in s.profiles
  }

  function InsertProfileStep(s: Snapshot, id: UserId, p: Profile, st: Status): Snapshot
  {
    var s1 := Logged(s, ProfileInsert(id));
    if InsertProfileOk(s, id, st) then s1.(profiles := s1.profiles[id := p]) else s1
  }

  /** A `referral_codes.insert` succeeds when answered and the code is not taken; the row is active. */
  predicate InsertCodeOk(s: Snapshot, code: string, st: Status)
  {
    st == Done && !CodeTaken(s.codes, code)
  }

  function InsertCodeStep(s: Snapshot, userId: UserId, code: string, st: Status): Snapshot
  {
    var s1 := Logged(s, CodeInsert(userId, code));
    if InsertCodeOk(s, code, st) then s1.(codes := s1.codes + [CodeRow(userId, code, true)]) else s1
  }

  /** The uniqueness of codes survives every insert. */
  lemma InsertCodeKeepsUnique(s: Snapshot, userId: UserId, code: string, st: Status)
    requires UniqueCodes(s.codes)
    ensures UniqueCodes(InsertCodeStep(s, userId, code, st).codes)
  {
    var c := InsertCodeStep(s, userId, code, st).codes;
    if InsertCodeOk(s, code, st) {
      forall i, j | 0 <= i < j < |c| ensures c[i].code != c[j].code {
        if j == |s.codes| {
          assert c[i] == s.codes[i];
        }
      }
    }
  }

  /** Appending a row adds its code at the end of its owner's active codes. */
  lemma {:induction false} ActiveCodesAppend(codes: seq<CodeRow>, row: CodeRow, userId: UserId)
    ensures ActiveCodes(codes + [row], userId)
         == ActiveCodes(codes, userId) + (if row.userId == userId && row.isActive then [row.code] else [])
  {
    if codes == [] {
      assert codes + [row] == [row];
    } else {
      assert (codes + [row])[1..] == codes[1..] + [row];
      ActiveCodesAppend(codes[1..], row, userId);
    }
  }

  class RemoteStore {
    var users: map<UserId, Identity>
    var profiles: map<UserId, Profile>
    var rewards: map<UserId, Rewards>
    var codes: seq<CodeRow>
    var calls: seq<Call>

    function State(): Snapshot
      reads this
    {
      Snapshot(users, profiles, rewards, codes, calls)
    }

    constructor (init: Snapshot)
      ensures State() == init
    {
      users, profiles, rewards, codes, calls := init.users, init.profiles, init.rewards, init.codes, init.calls;
    }

    /** A request whose server-side effect is not part of the model. */
    method Send(c: Call)
      modifies this
      ensures State() == Logged(old(State()), c)
    {
      calls := calls + [c];
    }

    method SignUpIdentity(email: string, meta: Metadata, reply: AuthReply)
      modifies this
      ensures State() == AuthStep(old(State()), email, meta, reply)
    {
      calls := calls + [AuthSignUp(email, meta)];
      if reply.AuthOk? && reply.user.Some? {
        users := users[reply.user.value := Identity(email, meta)];
      }
    }

    method CreateProfileJson(id: UserId, p: Profile, reply: Reply<Option<RpcResult>>)
      modifies this
      ensures State() == CreateProfileRpcStep(old(State()), id, p, reply)
    {
      calls := calls + [CreateProfileRpc(id)];
      if reply.Answer? && reply.value.Some? && reply.value.value.success {
        profiles := profiles[id := p];
      }
    }

    method UpsertProfile(id: UserId, p: Profile, st: Status)
      modifies this
      ensures State() == UpsertProfileStep(old(State()), id, p, st)
    {
      calls := calls + [ProfileUpsert(id)];
      if st == Done {
        profiles := profiles[id := p];
      }
    }

    method UpsertRewards(id: UserId, r: Rewards, st: Status)
      modifies this
      ensures State() == UpsertRewardsStep(old(State()), id, r, st)
    {
      calls := calls + [RewardsUpsert(id, r)];
      if st == Done {
        rewards := rewards[id := r];
      }
    }

    method SelectProfile(id: UserId, st: Status) returns (r: Single<Profile>)
      modifies this
      ensures r == ProfileLookup(old(State()), id, st)
      ensures State() == Logged(old(State()), ProfileSelect(id))
    {
      r := ProfileLookup(State(), id, st);
      calls := calls + [ProfileSelect(id)];
    }

    method InsertProfile(id: UserId, p: Profile, st: Status) returns (ok: bool)
      modifies this
      ensures ok == InsertProfileOk(old(State()), id, st)
      ensures State() == InsertProfileStep(old(State()), id, p, st)
    {
      ok := st == Done && id !in profiles;
      calls := calls + [ProfileInsert(id)];
      if ok {
        profiles := profiles[id := p];
      }
    }

    method SelectCodeByUser(userId: UserId, st: Status) returns (r: Single<string>)
      modifies this
      ensures r == SingleOf(ActiveCodes(old(codes), userId), st)
      ensures State() == Logged(old(State()), CodeSelectByUser(userId))
    {
      r := SingleOf(ActiveCodes(codes, userId), st);
      calls := calls + [CodeSelectByUser(userId)];
    }

    method InsertCode(userId: UserId, code: string, st: Status) returns (ok: bool)
      modifies this
      ensures ok == InsertCodeOk(old(State()), code, st)
      ensures State() == InsertCodeStep(old(State()), userId, code, st)
    {
      ok := st == Done && !CodeTaken(codes, code);
      calls := calls + [CodeInsert(userId, code)];
      if ok {
        codes := codes + [CodeRow(userId, code, true)];
      }
    }

    method SelectCodeByValue(code: string, st: Status) returns (r: Single<string>)
      modifies this
      ensures r == SingleOf(ActiveWithCode(old(codes), code), st)
      ensures State() == Logged(old(State()), CodeSelectByValue(code))
    {
      r := SingleOf(ActiveWithCode(codes, code), st);
      calls := calls + [CodeSelectByValue(code)];
    }
  }
}
