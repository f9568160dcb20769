/**
 * Referral rules: validating a code, the tier ladder, the referral ledger, and
 * the get-or-generate lifecycle of a user's code in `referral_codes`.
 */
module Referrals {
  import opened Tables
  import opened Strings
  import opened Store

  // ---------------------------------------------------------------- validation

  /** A row of `validate_referral_code_public`. */
  datatype ValidationRow = ValidationRow(isValid: bool, referrerName: Option<string>, message: string)

  /** `ReferralValidationResult`; `referrerId` is part of the shape but never filled in. */
  datatype ValidationResult = ValidationResult(
    isValid: bool, referrerName: Option<string>, referrerId: Option<string>, message: string)

  const EnterCodeMessage := "Please enter a referral code"
  const UnableMessage := "Unable to validate referral code. Please try again later."
  const InvalidFormatMessage := "Invalid referral code format"

  /** The code sent to the validation procedure: none for blank input, else the upper-cased input. */
  function ValidationRequest(code: string): (r: Option<string>)
    ensures r.None? <==> IsBlank(code)
    ensures r.Some? ==> r.value == Upper(code)
  {
    TrimEmptyIffBlank(code);
    if Trim(code) == "" then None else Some(Upper(code))
  }

  /** `validateReferralCode`, given how the procedure call turned out; it never fails. */
  function ValidateReferralCode(code: string, reply: Reply<seq<ValidationRow>>): (v: ValidationResult)
    ensures v.referrerId.None?
    ensures IsBlank(code) ==> v == ValidationResult(false, None, None, EnterCodeMessage)
    ensures !IsBlank(code) && (reply.Failure? || reply.Exception?) ==> v == ValidationResult(false, None, None, UnableMessage)
    ensures !IsBlank(code) && reply == Answer([]) ==> v == ValidationResult(false, None, None, InvalidFormatMessage)
    ensures !IsBlank(code) && reply.Answer? && reply.value != [] ==>
      var row := reply.value[0]; v == ValidationResult(row.isValid, row.referrerName, None, row.message)
  {
    if ValidationRequest(code).None? then ValidationResult(false, None, None, EnterCodeMessage)
    else match reply
      case Failure => ValidationResult(false, None, None, UnableMessage)
      case Exception => ValidationResult(false, None, None, UnableMessage)
      case Answer(rows) =>
        if |rows| > 0 then ValidationResult(rows[0].isValid, rows[0].referrerName, None, rows[0].message)
        else ValidationResult(false, None, None, InvalidFormatMessage)
  }

  /** The store after validating `code`: one procedure call for non-blank input, nothing otherwise. */
  function ValidationStep(s: Snapshot, code: string): Snapshot
  {
    match ValidationRequest(code)
    case None => s
    case Some(c) => Logged(s, ValidateCodeRpc(c))
  }

  /** A code is accepted only when the procedure answered and its first row says so. */
  lemma ValidOnlyFromProcedure(code: string, reply: Reply<seq<ValidationRow>>)
    ensures ValidateReferralCode(code, reply).isValid <==>
      !IsBlank(code) && reply.Answer? && |reply.value| > 0 && reply.value[0].isValid
  {
  }

  /** Blank input reaches neither the store nor the procedure. */
  lemma BlankInputNoCall(s: Snapshot, code: string)
    requires IsBlank(code)
    ensures ValidationStep(s, code) == s
  {
  }

  /** Non-blank input produces exactly one call carrying the upper-cased code, and no table changes. */
  lemma ValidationSendsUpper(s: Snapshot, code: string)
    requires !IsBlank(code)
    ensures ValidationStep(s, code).calls == s.calls + [ValidateCodeRpc(Upper(code))]
    ensures ValidationStep(s, code).(calls := s.calls) == s
  {
  }

  /** Validation looks only at the upper-cased input: the case the user typed does not matter. */
  lemma ValidationCaseInsensitive(code: string, reply: Reply<seq<ValidationRow>>)
    ensures ValidateReferralCode(Upper(code), reply) == ValidateReferralCode(code, reply)
    ensures ValidationRequest(Upper(code)) == ValidationRequest(code)
  {
    UpperKeepsBlankness(code);
    UpperIdempotent(code);
  }

  /** `validateReferralCode` against the store; the call log records the procedure call. */
  method Validate(store: RemoteStore, code: string, reply: Reply<seq<ValidationRow>>) returns (v: ValidationResult)
    modifies store
    ensures v == ValidateReferralCode(code, reply)
    ensures store.State() == ValidationStep(old(store.State()), code)
  {
    var request := ValidationRequest(code);
    if request.Some? {
      store.Send(ValidateCodeRpc(request.value));
    }
    v := ValidateReferralCode(code, reply);
  }

  // ---------------------------------------------------------------- tier ladder

  /** A `reward_tiers` row. */
  datatype Tier = Tier(name: string, minReferrals: int)

  /** `currentTier`, `nextTier` and `pointsToNextTier` of `ReferralData`. */
  datatype TierStanding = TierStanding(currentTier: string, nextTier: string, pointsToNextTier: int)

  const PointsPerReferral := 30
  const MaxTierName := "Max Tier Reached"

  /** Dream Starter, Dream Advocate and 90 points (3 referrals at 30 points). */
  function DefaultStanding(): TierStanding
  {
    TierStanding("Dream Starter", "Dream Advocate", 90)
  }

  /** Tiers sorted by threshold, as the catalogue query orders them. */
  predicate Ascending(tiers: seq<Tier>)
  {
    forall i, j :: 0 <= i < j < |tiers| ==> tiers[i].minReferrals <= tiers[j].minReferrals
  }

  /** The last tier whose threshold `s` meets, if any. */
  function LastMet(tiers: seq<Tier>, s: int): (r: Option<nat>)
    ensures r.Some? ==> r.value < |tiers| && tiers[r.value].minReferrals <= s
    ensures r.Some? ==> forall j :: r.value < j < |tiers| ==> s < tiers[j].minReferrals
    ensures r.None? ==> forall j :: 0 <= j < |tiers| ==> s < tiers[j].minReferrals
  {
    if tiers == [] then None
    else if tiers[|tiers| - 1].minReferrals <= s then Some(|tiers| - 1)
    else LastMet(tiers[..|tiers| - 1], s)
  }

  /** The standing once tier `i` is the current one. */
  function StandingAt(tiers: seq<Tier>, i: nat, s: int): (t: TierStanding)
    requires i < |tiers|
    ensures t.currentTier == tiers[i].name
  {
    if i < |tiers| - 1 then TierStanding(tiers[i].name, tiers[i + 1].name, (tiers[i + 1].minReferrals - s) * PointsPerReferral)
    else TierStanding(tiers[i].name, MaxTierName, 0)
  }

  function StandingFor(tiers: seq<Tier>, met: Option<nat>, s: int): TierStanding
    requires met.Some? ==> met.value < |tiers|
  {
    match met
    case None => DefaultStanding()
    case Some(i) => StandingAt(tiers, i, s)
  }

  /** The standing for `s` successful referrals: the last tier met decides. */
  function Standing(tiers: seq<Tier>, s: int): TierStanding
  {
    StandingFor(tiers, LastMet(tiers, s), s)
  }

  /** The tier loop: each tier met overwrites the three variables. */
  method ComputeStanding(tiers: seq<Tier>, s: int) returns (t: TierStanding)
    ensures t == Standing(tiers, s)
  {
    var currentTier, nextTier, pointsToNextTier := "Dream Starter", "Dream Advocate", 90;
    var i := 0;
    while i < |tiers|
      invariant 0 <= i <= |tiers|
      invariant TierStanding(currentTier, nextTier, pointsToNextTier) == StandingFor(tiers, LastMet(tiers[..i], s), s)
    {
      assert tiers[..i + 1][..i] == tiers[..i];
      if s >= tiers[i].minReferrals {
        currentTier := tiers[i].name;
        if i < |tiers| - 1 {
          nextTier := tiers[i + 1].name;
          pointsToNextTier := (tiers[i + 1].minReferrals - s) * PointsPerReferral;
        } else {
          nextTier := MaxTierName;
          pointsToNextTier := 0;
        }
      }
      i := i + 1;
    }
    assert tiers[..i] == tiers;
    t := TierStanding(currentTier, nextTier, pointsToNextTier);
  }

  /** An empty catalogue, or a count below every threshold, gives the defaults. */
  lemma DefaultsWhenNoneMet(tiers: seq<Tier>, s: int)
    requires forall j :: 0 <= j < |tiers| ==> s < tiers[j].minReferrals
    ensures Standing(tiers, s) == DefaultStanding()
  {
  }

  /** With an ascending catalogue, tier `j` is met exactly when `j` is at most the current index. */
  lemma CurrentIsLastMet(tiers: seq<Tier>, s: int, j: nat)
    requires Ascending(tiers) && LastMet(tiers, s).Some? && j < |tiers|
    ensures tiers[j].minReferrals <= s <==> j <= LastMet(tiers, s).value
  {
  }

  /** Not at the top: the next tier follows and is a positive number of points away. */
  lemma NextTierAhead(tiers: seq<Tier>, s: int)
    requires LastMet(tiers, s).Some? && LastMet(tiers, s).value < |tiers| - 1
    ensures var i := LastMet(tiers, s).value;
      Standing(tiers, s) == TierStanding(tiers[i].name, tiers[i + 1].name, (tiers[i + 1].minReferrals - s) * 30)
      && Standing(tiers, s).pointsToNextTier > 0
  {
  }

  /** At the top: the sentinel and zero points. */
  lemma AtMaxTier(tiers: seq<Tier>, s: int)
    requires |tiers| > 0 && tiers[|tiers| - 1].minReferrals <= s
    ensures Standing(tiers, s) == TierStanding(tiers[|tiers| - 1].name, MaxTierName, 0)
  {
  }

  /** The index of the current tier (-1 for the defaults). */
  function Rank(tiers: seq<Tier>, s: int): (k: int)
    ensures -1 <= k < |tiers|
    ensures k >= 0 ==> tiers[k].minReferrals <= s
  {
    match LastMet(tiers, s)
    case None => -1
    case Some(i) => i
  }

  /** More successful referrals never lower the current tier's index, whatever the catalogue order. */
  lemma RankMonotonic(tiers: seq<Tier>, s: int, t: int)
    requires s <= t
    ensures Rank(tiers, s) <= Rank(tiers, t)
  {
    var k := Rank(tiers, s);
    if k >= 0 {
      assert tiers[k].minReferrals <= t;
    }
  }

  /** `Math.ceil(a / b)` for a positive divisor. */
  function CeilDiv(a: int, b: int): (q: int)
    requires b > 0
    ensures b * (q - 1) < a <= b * q
  {
    -((-a) / b)
  }

  /** The remaining referral count shown on the referral screen equals the threshold gap. */
  lemma RemainingReferrals(tiers: seq<Tier>, s: int)
    ensures var st := Standing(tiers, s);
      match LastMet(tiers, s)
      case None => CeilDiv(st.pointsToNextTier, 30) == 3
      case Some(i) =>
        if i < |tiers| - 1 then CeilDiv(st.pointsToNextTier, 30) == tiers[i + 1].minReferrals - s
        else CeilDiv(st.pointsToNextTier, 30) == 0
  {
  }

  /** The worked examples of the ladder Dream Starter 0, Dream Advocate 3, Dream Champion 10. */
  lemma LadderExamples()
    ensures var tiers := [Tier("Dream Starter", 0), Tier("Dream Advocate", 3), Tier("Dream Champion", 10)];
      && Standing(tiers, 3) == TierStanding("Dream Advocate", "Dream Champion", 210)
      && Standing(tiers, 0) == TierStanding("Dream Starter", "Dream Advocate", 90)
      && Standing(tiers, 10) == TierStanding("Dream Champion", MaxTierName, 0)
      && Standing(tiers, 15) == TierStanding("Dream Champion", MaxTierName, 0)
  {
    var tiers := [Tier("Dream Starter", 0), Tier("Dream Advocate", 3), Tier("Dream Champion", 10)];
    assert tiers[..2] == [Tier("Dream Starter", 0), Tier("Dream Advocate", 3)];
    assert tiers[..2][..1] == [Tier("Dream Starter", 0)];
  }

  // ---------------------------------------------------------------- ledger

  /** A `referrals` row joined with the referred user's profile name. */
  datatype ReferralRow = ReferralRow(referredName: Option<string>, status: string, createdAt: int, rewardPoints: int)

  datatype HistoryEntry = HistoryEntry(name: string, status: string, joinDate: string, reward: int)

  datatype ReferralData = ReferralData(
    totalReferrals: int,
    successfulReferrals: int,
    pendingReferrals: int,
    rewardsEarned: int,
    standing: TierStanding,
    referralHistory: seq<HistoryEntry>)

  const AnonymousName := "Anonymous User"

  /** `user_profiles?.name || "Anonymous User"`: a missing or empty name is replaced. */
  function DisplayName(name: Option<string>): (n: string)
    ensures n != ""
    ensures name.Some? && name.value != "" ==> n == name.value
    ensures name.None? || name.value == "" ==> n == AnonymousName
  {
    if name.Some? && name.value != "" then name.value else AnonymousName
  }

  /** The history `map`; `formatDate` stands for `toLocaleDateString`. */
  function History(rows: seq<ReferralRow>, formatDate: int -> string): (h: seq<HistoryEntry>)
    ensures |h| == |rows|
    ensures forall i :: 0 <= i < |rows| ==>
      h[i] == HistoryEntry(DisplayName(rows[i].referredName), rows[i].status, formatDate(rows[i].createdAt), rows[i].rewardPoints)
  {
    if rows == [] then []
    else
      [HistoryEntry(DisplayName(rows[0].referredName), rows[0].status, formatDate(rows[0].createdAt), rows[0].rewardPoints)]
      + History(rows[1..], formatDate)
  }

  /** The aggregate returned when any query throws. */
  function DefaultData(): ReferralData
  {
    ReferralData(0, 0, 0, 0, DefaultStanding(), [])
  }

  /**
   * `getReferralData` given the three query outcomes: an error empties its own slice,
   * an exception anywhere gives the defaults.
   */
  function ReferralDataOf(rewards: Single<Rewards>, referrals: Reply<seq<ReferralRow>>, tiers: Reply<seq<Tier>>,
                          formatDate: int -> string): (d: ReferralData)
    ensures rewards.QueryException? || referrals.Exception? || tiers.Exception? ==> d == DefaultData()
    ensures d.pendingReferrals == d.totalReferrals - d.successfulReferrals
    ensures !rewards.Row? ==> d.totalReferrals == 0 && d.successfulReferrals == 0 && d.rewardsEarned == 0
    ensures !rewards.QueryException? && !referrals.Exception? && !tiers.Exception? ==>
      && (rewards.Row? ==>
            d.totalReferrals == rewards.value.totalReferrals
            && d.successfulReferrals == rewards.value.successfulReferrals
            && d.rewardsEarned == rewards.value.totalPoints)
      && d.referralHistory == (if referrals.Answer? then History(referrals.value, formatDate) else [])
      && d.standing == (if tiers.Answer? then Standing(tiers.value, d.successfulReferrals) else DefaultStanding())
  {
    if rewards.QueryException? || referrals.Exception? || tiers.Exception? then DefaultData()
    else
      var successful := if rewards.Row? then rewards.value.successfulReferrals else 0;
      var total := if rewards.Row? then rewards.value.totalReferrals else 0;
      var earned := if rewards.Row? then rewards.value.totalPoints else 0;
      var standing := if tiers.Answer? then Standing(tiers.value, successful) else DefaultStanding();
      var history := if referrals.Answer? then History(referrals.value, formatDate) else [];
      ReferralData(total, successful, total - successful, earned, standing, history)
  }

  /** `getReferralData`, running the tier loop. */
  method GetReferralData(rewards: Single<Rewards>, referrals: Reply<seq<ReferralRow>>, tiers: Reply<seq<Tier>>,
                         formatDate: int -> string) returns (d: ReferralData)
    ensures d == ReferralDataOf(rewards, referrals, tiers, formatDate)
  {
    if rewards.QueryException? || referrals.Exception? || tiers.Exception? {
      return DefaultData();
    }
    var successful := if rewards.Row? then rewards.value.successfulReferrals else 0;
    var total := if rewards.Row? then rewards.value.totalReferrals else 0;
    var earned := if rewards.Row? then rewards.value.totalPoints else 0;
    var standing := DefaultStanding();
    if tiers.Answer? {
      standing := ComputeStanding(tiers.value, successful);
    }
    var history := if referrals.Answer? then History(referrals.value, formatDate) else [];
    d := ReferralData(total, successful, total - successful, earned, standing, history);
  }

  /** A ledger with no rewards row counts nothing as pending. */
  lemma MissingLedgerPendingZero(rewards: Single<Rewards>, referrals: Reply<seq<ReferralRow>>, tiers: Reply<seq<Tier>>,
                                 formatDate: int -> string)
    requires !rewards.Row?
    ensures ReferralDataOf(rewards, referrals, tiers, formatDate).pendingReferrals == 0
    ensures ReferralDataOf(rewards, referrals, tiers, formatDate).standing == DefaultStanding() || tiers.Answer?
  {
  }

  // ---------------------------------------------------------------- codes

  /** What `generateReferralCode` ends in: the new code, or the thrown "Failed to generate referral code". */
  datatype Generation = Generated(code: string) | GenerationFailed

  /** The store after a code operation, with what the operation returned. */
  datatype CodeRun<T> = CodeRun(state: Snapshot, result: T)

  /** `getUserReferralCode`: the one active code, or null on absence, an empty code or any error. */
  function UserCodeOf(s: Snapshot, userId: UserId, st: Status): (r: Option<string>)
    ensures r.Some? <==> st == Done && |ActiveCodes(s.codes, userId)| == 1 && ActiveCodes(s.codes, userId)[0] != ""
    ensures r.Some? ==> r.value == ActiveCodes(s.codes, userId)[0] && CodeRow(userId, r.value, true) in s.codes
  {
    match SingleOf(ActiveCodes(s.codes, userId), st)
    case Row(c) => if c != "" then Some(c) else None
    case _ => None
  }

  function UserCodeSpec(s: Snapshot, userId: UserId, st: Status): CodeRun<Option<string>>
  {
    CodeRun(Logged(s, CodeSelectByUser(userId)), UserCodeOf(s, userId, st))
  }

  /** `generateReferralCode`: the procedure proposes a code, the client inserts it for the user. */
  function GenerateSpec(s: Snapshot, userId: UserId, userName: string, gen: Reply<string>, insert: Status): CodeRun<Generation>
  {
    var s1 := Logged(s, GenerateCodeRpc(userName));
    match gen
    case Answer(code) =>
      var s2 := InsertCodeStep(s1, userId, code, insert);
      CodeRun(s2, if InsertCodeOk(s1, code, insert) then Generated(code) else GenerationFailed)
    case _ => CodeRun(s1, GenerationFailed)
  }

  /** `initializeUserReferralCode`: the existing code, or a newly generated one, or null. */
  function InitializeSpec(s: Snapshot, userId: UserId, userName: string, lookup: Status, gen: Reply<string>, insert: Status)
    : CodeRun<Option<string>>
  {
    var looked := UserCodeSpec(s, userId, lookup);
    if looked.result.Some? then looked
    else
      var g := GenerateSpec(looked.state, userId, userName, gen, insert);
      CodeRun(g.state, if g.result.Generated? then Some(g.result.code) else None)
  }

  /** `checkReferralCodeExists`: true exactly when one active row holds the upper-cased code. */
  function CodeExistsOf(s: Snapshot, code: string, st: Status): (b: bool)
    ensures b <==> st == Done && |ActiveWithCode(s.codes, Upper(code))| == 1
  {
    SingleOf(ActiveWithCode(s.codes, Upper(code)), st).Row?
  }

  method GetUserReferralCode(store: RemoteStore, userId: UserId, st: Status) returns (code: Option<string>)
    modifies store
    ensures CodeRun(store.State(), code) == UserCodeSpec(old(store.State()), userId, st)
  {
    var r := store.SelectCodeByUser(userId, st);
    code := if r.Row? && r.value != "" then Some(r.value) else None;
  }

  method GenerateReferralCode(store: RemoteStore, userId: UserId, userName: string, gen: Reply<string>, insert: Status)
    returns (g: Generation)
    modifies store
    ensures CodeRun(store.State(), g) == GenerateSpec(old(store.State()), userId, userName, gen, insert)
  {
    store.Send(GenerateCodeRpc(userName));
    if !gen.Answer? {
      return GenerationFailed;
    }
    var ok := store.InsertCode(userId, gen.value, insert);
    g := if ok then Generated(gen.value) else GenerationFailed;
  }

  method InitializeUserReferralCode(store: RemoteStore, userId: UserId, userName: string, lookup: Status,
                                    gen: Reply<string>, insert: Status) returns (code: Option<string>)
    modifies store
    ensures CodeRun(store.State(), code) == InitializeSpec(old(store.State()), userId, userName, lookup, gen, insert)
  {
    var existing := GetUserReferralCode(store, userId, lookup);
    if existing.Some? {
      return existing;
    }
    var g := GenerateReferralCode(store, userId, userName, gen, insert);
    code := if g.Generated? then Some(g.code) else None;
  }

  method CheckReferralCodeExists(store: RemoteStore, code: string, st: Status) returns (b: bool)
    modifies store
    ensures b == CodeExistsOf(old(store.State()), code, st)
    ensures store.State() == Logged(old(store.State()), CodeSelectByValue(Upper(code)))
  {
    var r := store.SelectCodeByValue(Upper(code), st);
    b := r.Row?;
  }

  /** An existing active code is returned as is: no generation, no insert, no table change. */
  lemma InitReturnsExisting(s: Snapshot, userId: UserId, userName: string, lookup: Status, gen: Reply<string>, insert: Status)
    requires UserCodeOf(s, userId, lookup).Some?
    ensures var run := InitializeSpec(s, userId, userName, lookup, gen, insert);
      && run.result == UserCodeOf(s, userId, lookup)
      && run.state == Logged(s, CodeSelectByUser(userId))
  {
  }

  /** Without an existing code, at most one active row is added, for this user, and only its code is returned. */
  lemma InitInsertsAtMostOne(s: Snapshot, userId: UserId, userName: string, lookup: Status, gen: Reply<string>, insert: Status)
    requires UserCodeOf(s, userId, lookup).None?
    ensures var run := InitializeSpec(s, userId, userName, lookup, gen, insert);
      && run.state.users == s.users && run.state.profiles == s.profiles && run.state.rewards == s.rewards
      && (run.result.None? ==> run.state.codes == s.codes)
      && (run.result.Some? ==> gen == Answer(run.result.value) && !CodeTaken(s.codes, run.result.value)
                               && run.state.codes == s.codes + [CodeRow(userId, run.result.value, true)])
  {
  }

  /** A failed generation procedure or a failed insert gives null. */
  lemma InitFailureIsNull(s: Snapshot, userId: UserId, userName: string, lookup: Status, gen: Reply<string>, insert: Status)
    requires UserCodeOf(s, userId, lookup).None?
    requires !gen.Answer? || insert != Done
    ensures InitializeSpec(s, userId, userName, lookup, gen, insert).result.None?
  {
  }

  /** A user has at most one active code, and it is not empty. */
  predicate WellFormedCodes(s: Snapshot, userId: UserId)
  {
    |ActiveCodes(s.codes, userId)| <= 1 && "" !in ActiveCodes(s.codes, userId)
  }

  /**
   * Initialisation is idempotent when both lookups are answered: the second call returns the
   * first call's code and adds no row.
   */
  lemma InitIdempotent(s: Snapshot, userId: UserId, name1: string, gen1: Reply<string>, ins1: Status,
                       name2: string, gen2: Reply<string>, ins2: Status)
    requires WellFormedCodes(s, userId)
    requires var r1 := InitializeSpec(s, userId, name1, Done, gen1, ins1); r1.result.Some? && r1.result.value != ""
    ensures var r1 := InitializeSpec(s, userId, name1, Done, gen1, ins1);
      var r2 := InitializeSpec(r1.state, userId, name2, Done, gen2, ins2);
      r2.result == r1.result && r2.state.codes == r1.state.codes && WellFormedCodes(r1.state, userId)
  {
    var r1 := InitializeSpec(s, userId, name1, Done, gen1, ins1);
    if UserCodeOf(s, userId, Done).None? {
      var c := r1.result.value;
      assert ActiveCodes(s.codes, userId) == [];
      ActiveCodesAppend(s.codes, CodeRow(userId, c, true), userId);
      assert ActiveCodes(r1.state.codes, userId) == [c];
    }
  }

  /**
   * A lookup error hides an existing code: initialisation then inserts a second active code, and
   * afterwards the user's code reads as null even when the lookup is answered.
   */
  lemma LookupErrorDuplicatesCode(s: Snapshot, userId: UserId, userName: string, old_code: string, code: string)
    requires ActiveCodes(s.codes, userId) == [old_code] && !CodeTaken(s.codes, code)
    ensures var run := InitializeSpec(s, userId, userName, Failed, Answer(code), Done);
      && run.result == Some(code)
      && ActiveCodes(run.state.codes, userId) == [old_code, code]
      && UserCodeOf(run.state, userId, Done).None?
  {
    ActiveCodesAppend(s.codes, CodeRow(userId, code, true), userId);
  }

  /** Initialisation keeps codes unique across the table. */
  lemma InitKeepsUnique(s: Snapshot, userId: UserId, userName: string, lookup: Status, gen: Reply<string>, insert: Status)
    requires UniqueCodes(s.codes)
    ensures UniqueCodes(InitializeSpec(s, userId, userName, lookup, gen, insert).state.codes)
  {
    var looked := UserCodeSpec(s, userId, lookup);
    if looked.result.None? && gen.Answer? {
      InsertCodeKeepsUnique(looked.state, userId, gen.value, insert);
    }
  }

  /** Under unique codes at most one active row matches a code. */
  lemma {:induction false} UniqueActiveWithCode(codes: seq<CodeRow>, code: string)
    requires UniqueCodes(codes)
    ensures |ActiveWithCode(codes, code)| <= 1
  {
    if codes != [] {
      assert UniqueCodes(codes[1..]) by {
        forall i, j | 0 <= i < j < |codes[1..]| ensures codes[1..][i].code != codes[1..][j].code {
          assert codes[1..][i] == codes[i + 1] && codes[1..][j] == codes[j + 1];
        }
      }
      UniqueActiveWithCode(codes[1..], code);
      if codes[0].code == code && codes[0].isActive {
        assert forall j :: 0 < j < |codes| ==> codes[j].code != code;
        NoActiveWithCode(codes[1..], code);
      }
    }
  }

  lemma {:induction false} NoActiveWithCode(codes: seq<CodeRow>, code: string)
    requires forall j :: 0 <= j < |codes| ==> codes[j].code != code
    ensures ActiveWithCode(codes, code) == []
  {
    if codes != [] {
      NoActiveWithCode(codes[1..], code);
    }
  }

  /** With unique codes the existence check is true exactly when an active row holds the upper-cased code. */
  lemma CodeExistsIffActive(s: Snapshot, code: string)
    requires UniqueCodes(s.codes)
    ensures CodeExistsOf(s, code, Done) <==> exists u :: CodeRow(u, Upper(code), true) in s.codes
  {
    var c := Upper(code);
    UniqueActiveWithCode(s.codes, c);
    var r := ActiveWithCode(s.codes, c);
    if exists u :: CodeRow(u, c, true) in s.codes {
      assert r != [];
      assert |r| == 1;
      assert CodeExistsOf(s, code, Done);
      var u :| CodeRow(u, c, true) in s.codes;
      assert CodeRow(u, Upper(code), true) in s.codes;
    } else {
      assert r == [];
      assert !CodeExistsOf(s, code, Done);
    }
  }

  /** An error or exception during the existence check reads as "does not exist". */
  lemma CodeExistsFailsClosed(s: Snapshot, code: string, st: Status)
    requires st != Done
    ensures !CodeExistsOf(s, code, st)
  {
  }
}
