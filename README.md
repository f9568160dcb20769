# DreamWise client core in Dafny

DreamWise is a mindfulness web app. Users log dreams, situations and gratitude, practise self-soothing techniques, and
earn referral rewards. This project models the client-side core of the app and proves properties of the model:

- **Referrals (`lib/referrals.ts`).** Referral-code validation, the tier standing computed from successful referrals,
  the referral-data aggregate, and the generation, lookup and existence check of a user's referral code.
- **Accounts (`lib/auth.ts`).** The multi-step sign-up, with its profile fallback and welcome bonus. Also the
  profile-ensuring chain that reads, and if needed creates, a user's profile.
- **Screens.** The state logic of six screens:
  - the onboarding flow;
  - the main screen: tabs, the time-of-day message, and the quick actions sorted by priority;
  - the self-soothing session timer;
  - the gratitude journal;
  - the dream logger;
  - the situation analysis form.

The remote database is a class `Store.RemoteStore` with four tables:

- auth identities;
- `user_profiles`, keyed by id;
- `user_rewards`, keyed by `user_id`;
- the `referral_codes` rows.

It also keeps a log of every request sent. Each request is a method whose new state is a pure step function of the
old one. How a request turns out is a parameter: answered, error, or exception (`Reply` and `Status`). Each
state-changing operation is a method proved equal to a pure specification function (`...Spec`, `...Step`), and the
lemmas are stated about those functions.

The modules follow the source files:

- `Strings`, `Selection` and `Tables`: shared helpers and data.
- `Store`: the remote store.
- `Referrals`: `lib/referrals.ts`.
- `Auth`: `lib/auth.ts`.
- `Onboarding`, `Home`, `Soothing`, `Gratitude`, `Dreams` and `Situation`: one module per screen.

## Model

| member | source | states |
|---|---|---|
| Strings.TrimEmptyIffBlank | lib/referrals.ts:67 | `s.trim()` is empty exactly when every character of `s` is whitespace |
| Strings.Upper | lib/referrals.ts:77 | `toUpperCase` keeps the length and upper-cases each character, leaving the rest alone |
| Strings.UpperIdempotent | app/components/onboarding-flow.tsx:301 | upper-casing the already upper-cased input changes nothing |
| Strings.Includes | app/components/onboarding-flow.tsx:75-81 | `includes` holds exactly when the pattern occurs at some position |
| Strings.Decimal | app/components/self-soothing.tsx:114 | `toString` of a non-negative number gives digits only, with no leading zero |
| Strings.DecimalRoundTrip | app/components/self-soothing.tsx:114 | reading the decimal rendering back gives the number |
| Strings.PadStart2 | app/components/self-soothing.tsx:114 | `padStart(2, "0")` leaves two or more characters alone, else left-fills with zeros to length 2 |
| Selection.RemoveAll | app/components/onboarding-flow.tsx:152 | the filter drops every occurrence of the value and keeps the count of every other value |
| Selection.Toggle | app/components/onboarding-flow.tsx:147-157 | a present value is filtered out, an absent one appended; other memberships do not change |
| Selection.ToggleTwiceAbsent | app/components/dream-logger.tsx:29-42 | toggling an absent value twice gives the list back |
| Selection.ToggleRemovesOne | app/components/situation-analysis.tsx:52-65 | in a list without duplicates, toggling a present value removes exactly its one position |
| Selection.DropKeepsNoDuplicates | app/components/onboarding-flow.tsx:152 | removing one position keeps a list free of duplicates |
| Selection.AppendKeepsNoDuplicates | app/components/onboarding-flow.tsx:155 | appending an absent value keeps a list free of duplicates |
| Selection.ToggleKeepsNoDuplicates | app/components/onboarding-flow.tsx:147-157 | a list built by toggles never holds a value twice |
| Store.CreateProfileRpcStep | lib/auth.ts:56-58 | the profile procedure logs itself and can change only the profile of that id |
| Store.UpsertProfileLastWins | lib/auth.ts:109-124 | upserts on the `id` key: the later write wins, every other row is kept, and repeating an upsert changes no table |
| Store.UpsertRewardsLastWins | lib/auth.ts:133-145 | upserts on the `user_id` key: the later write wins, every other row is kept, and repeating an upsert changes no table |
| Store.ActiveCodes | lib/referrals.ts:51-56 | the user's active codes are exactly the codes of that user's active rows |
| Store.ActiveWithCode | lib/referrals.ts:210-215 | the active rows matching a code: non-empty exactly when some active row holds it |
| Store.SingleOf | lib/referrals.ts:56 | `.single()` gives a row exactly for one match, not-found (PGRST116) for any other count, and passes errors on |
| Store.ProfileLookup | lib/auth.ts:210-214 | the profile select gives the stored row exactly when the id has one, else not-found |
| Store.InsertCodeKeepsUnique | lib/referrals.ts:35-38 | an insert into `referral_codes` keeps the codes unique across the table |
| Store.ActiveCodesAppend | lib/referrals.ts:35-38 | an inserted active row adds its code at the end of its owner's active codes |
| Store.RemoteStore.constructor | lib/auth.ts:23-29 | the store starts in the given state |
| Store.RemoteStore.Send | lib/referrals.ts:28-30 | a request with no modelled server effect is only logged |
| Store.RemoteStore.SignUpIdentity | lib/auth.ts:23-29 | the auth sign-up creates the returned user's identity, holding the metadata |
| Store.RemoteStore.CreateProfileJson | lib/auth.ts:56-58 | the profile procedure stores the profile when it reports success |
| Store.RemoteStore.UpsertProfile | lib/auth.ts:109-124 | an answered upsert on `id` sets the profile row |
| Store.RemoteStore.UpsertRewards | lib/auth.ts:133-145 | an answered upsert on `user_id` sets the rewards row |
| Store.RemoteStore.SelectProfile | lib/auth.ts:210-214 | the select returns the lookup of the old state and changes no table |
| Store.RemoteStore.InsertProfile | lib/auth.ts:218-227 | the insert succeeds exactly when answered and the id is free, and only then writes |
| Store.RemoteStore.SelectCodeByUser | lib/referrals.ts:51-56 | the select returns `.single()` of the user's active codes |
| Store.RemoteStore.InsertCode | lib/referrals.ts:35-38 | the insert succeeds exactly when answered and the code is free, and appends an active row |
| Store.RemoteStore.SelectCodeByValue | lib/referrals.ts:210-215 | the select returns `.single()` of the active rows holding the code |
| Referrals.ValidationRequest | lib/referrals.ts:67-78 | nothing is sent for blank input, else the upper-cased code |
| Referrals.ValidateReferralCode | lib/referrals.ts:66-108 | blank input, an error or exception, an empty answer, and a first row each give their result; there is never a referrer id |
| Referrals.ValidOnlyFromProcedure | lib/referrals.ts:88-95 | a code is valid exactly when it is non-blank and the first row of an answer says it is valid |
| Referrals.BlankInputNoCall | lib/referrals.ts:67-72 | blank input sends no request |
| Referrals.ValidationSendsUpper | lib/referrals.ts:76-78 | non-blank input sends exactly one call, with the upper-cased code, and changes no table |
| Referrals.ValidationCaseInsensitive | lib/referrals.ts:77 | the result and the request do not depend on the case of the input |
| Referrals.Validate | lib/referrals.ts:66-108 | the method returns the pure result and logs exactly the validation request |
| Referrals.LastMet | lib/referrals.ts:159-170 | the last tier whose threshold is met: it is met and every later one is not; none means no tier is met |
| Referrals.StandingAt | lib/referrals.ts:161 | with tier `i` met last, the current tier is tier `i`'s name |
| Referrals.ComputeStanding | lib/referrals.ts:154-171 | the tier loop's three variables end as the standing of the last tier met |
| Referrals.DefaultsWhenNoneMet | lib/referrals.ts:154-158 | no tiers, or none met, leaves Dream Starter, Dream Advocate and 90 points |
| Referrals.CurrentIsLastMet | lib/referrals.ts:159-170 | with ascending thresholds, tier `j` is met exactly when `j` is at most the current index |
| Referrals.NextTierAhead | lib/referrals.ts:162-164 | below the top, the next tier is the following row and the points are 30 times the gap, which is positive |
| Referrals.AtMaxTier | lib/referrals.ts:165-167 | meeting the last tier gives "Max Tier Reached" and 0 points |
| Referrals.Rank | lib/referrals.ts:159-170 | the current tier's index, -1 for the defaults, is a met tier |
| Referrals.RankMonotonic | lib/referrals.ts:159-170 | more successful referrals never lower the current tier's index |
| Referrals.CeilDiv | app/components/referral-system.tsx:270 | `Math.ceil(a / b)` is the least `q` with `a <= b*q` |
| Referrals.RemainingReferrals | app/components/referral-system.tsx:270 | the referrals still needed, shown as the ceiling of points over 30, are the threshold gap, 3 by default and 0 at the top |
| Referrals.LadderExamples | lib/referrals.ts:154-170 | on a Starter 0 / Advocate 3 / Champion 10 ladder: 3 referrals give Advocate and 210 points, 0 give 90, and 10 or 15 give the top tier with 0 points |
| Referrals.DisplayName | lib/referrals.ts:175 | the stored name when present and non-empty, else "Anonymous User"; never empty |
| Referrals.History | lib/referrals.ts:173-179 | one history entry per row, in order, with the display name, status, formatted date and reward |
| Referrals.ReferralDataOf | lib/referrals.ts:110-205 | any exception gives the default aggregate; in every case pending is total minus successful |
| Referrals.GetReferralData | lib/referrals.ts:110-205 | the method, running the tier loop, returns the pure aggregate |
| Referrals.MissingLedgerPendingZero | lib/referrals.ts:149-151 | without a rewards row every count is zero, so pending is zero |
| Referrals.UserCodeOf | lib/referrals.ts:49-64 | the code is returned exactly when one active non-empty code exists; errors and absence give null |
| Referrals.CodeExistsOf | lib/referrals.ts:208-222 | true exactly when answered and one active row holds the upper-cased code |
| Referrals.GetUserReferralCode | lib/referrals.ts:49-64 | the lookup method matches its specification and only logs |
| Referrals.GenerateReferralCode | lib/referrals.ts:26-47 | the procedure's code is inserted for the user; a failed procedure or insert is the thrown failure |
| Referrals.InitializeUserReferralCode | lib/referrals.ts:225-240 | the existing code, else a new one, else null |
| Referrals.CheckReferralCodeExists | lib/referrals.ts:208-222 | the method returns the pure check and logs the upper-cased query |
| Referrals.InitReturnsExisting | lib/referrals.ts:228-231 | an existing code is returned with no generation, insert or table change |
| Referrals.InitInsertsAtMostOne | lib/referrals.ts:233-235 | otherwise at most one active row is added, for this user, and only a new code is returned |
| Referrals.InitFailureIsNull | lib/referrals.ts:236-239 | a failed generation procedure or insert gives null |
| Referrals.InitIdempotent | lib/referrals.ts:225-240 | after a successful initialisation, a second one returns the same code and adds no row |
| Referrals.LookupErrorDuplicatesCode | lib/referrals.ts:58-62 | a failed lookup reads as "no code", so a second active code is inserted, after which lookups return null |
| Referrals.InitKeepsUnique | lib/referrals.ts:225-240 | initialisation keeps codes unique |
| Referrals.UniqueActiveWithCode | lib/referrals.ts:210-215 | with unique codes at most one active row matches a code |
| Referrals.NoActiveWithCode | lib/referrals.ts:210-215 | a code no row holds matches nothing |
| Referrals.CodeExistsIffActive | lib/referrals.ts:208-217 | with unique codes the check is true exactly when an active row holds the upper-cased code |
| Referrals.CodeExistsFailsClosed | lib/referrals.ts:217-221 | an error or exception reads as "does not exist" |
| Auth.CreateProfileFallback | lib/auth.ts:104-155 | the fallback matches its specification: a profile upsert then a rewards upsert, skipped after an exception |
| Auth.SignUp | lib/auth.ts:4-101 | the sign-up method matches its staged specification, state and result |
| Auth.InvalidCodeAborts | lib/auth.ts:8-13 | an invalid supplied code fails with "Invalid referral code: ..." before the auth call and changes no table |
| Auth.BlankCodeRejected | lib/auth.ts:8-11 | a code of spaces passes the emptiness test but fails validation with the blank-input message |
| Auth.IdentityMetadata | lib/auth.ts:15-29 | the new identity holds the email and metadata with the name, the code or null, and no referrer id |
| Auth.AuthFailureTouchesNothing | lib/auth.ts:31-38 | an auth error or a missing user fails the sign-up with profiles, rewards and codes untouched |
| Auth.IdentitySucceeds | lib/auth.ts:44-96 | once the identity exists, the sign-up succeeds whatever the profile and bonus steps do |
| Auth.ProvisionWrites | lib/auth.ts:56-94 | provisioning sends one profile upsert exactly when the fallback runs, and one bonus exactly when a code was given |
| Auth.FallbackAtMostOnce | lib/auth.ts:60-73 | the fallback runs exactly once when the procedure failed, and not otherwise |
| Auth.NullResultNoFallback | lib/auth.ts:64 | a null procedure result without an error starts no fallback |
| Auth.NullResultKeepsProfiles | lib/auth.ts:64 | after a null procedure result the client has written no profile |
| Auth.BonusOnlyWithCode | lib/auth.ts:76-94 | the welcome bonus is sent exactly once with a valid code and never without one |
| Auth.NoCodeNoRewardsChange | lib/auth.ts:76 | without a code, rewards change only through the fallback's starter row |
| Auth.BonusIsFinal | lib/auth.ts:79-86 | the bonus follows any fallback, so an answered bonus leaves 10 points |
| Auth.ProfileProvisioned | lib/auth.ts:56-73 | the profile is stored when the procedure succeeded or the fallback upsert was answered |
| Auth.ProvisionedProfileHoldsForm | lib/auth.ts:45-54 | the stored profile carries the form's name, email, goals and answers, and the first notification time, or null for an empty slider value |
| Auth.FallbackOutcome | lib/auth.ts:104-155 | the fallback writes the profile when answered, and the starter rewards even when the profile write failed |
| Auth.GetProfileDirectly | lib/auth.ts:208-250 | the direct chain matches its specification |
| Auth.EnsureUserProfile | lib/auth.ts:180-205 | the ensuring chain matches its specification |
| Auth.DirectExisting | lib/auth.ts:210-245 | an existing row is returned after the single select, whatever the unsent insert and re-read would answer, and nothing is written |
| Auth.DirectCreatesDefault | lib/auth.ts:216-237 | with the select, the insert and the re-read all answered, a missing row is created with the listed defaults and read back (other outcomes are DirectErrorsAreNull) |
| Auth.DirectErrorsAreNull | lib/auth.ts:229-248 | any error other than not-found, and a failed insert, give null |
| Auth.DirectNeverOverwrites | lib/auth.ts:208-250 | the chain never overwrites a row, adds at most the row for the id, and returns only what is stored |
| Auth.EnsureWithoutId | lib/auth.ts:181 | without an id nothing is sent and the answer is null |
| Auth.EnsureProcedureHit | lib/auth.ts:195-197 | a non-empty procedure answer is returned as its first row, with no direct query |
| Auth.EnsureFallsBackOnce | lib/auth.ts:189-204 | on an error, an empty answer or an exception, the outcome is exactly one run of `getProfileDirectly` after the procedure call: one or two selects and at most one insert |
| Auth.EnsureProvisions | lib/auth.ts:180-250 | when every direct request is answered, the user has a profile afterwards |
| Onboarding.ErrorMessageShape | app/components/onboarding-flow.tsx:72-85 | the message is one of the four fixed texts, or the referral error itself |
| Onboarding.InvalidCodeShownVerbatim | app/components/onboarding-flow.tsx:81-82 | an invalid-code failure mentions "referral", so unless an earlier pattern matches it is shown as is |
| Onboarding.IsStepValid | app/components/onboarding-flow.tsx:182-200 | step 1 needs a name, an email, six password characters and no validation in flight; step 3 needs a goal; 2 and 4 always pass; other steps never do |
| Onboarding.ValidationStateShape | app/components/onboarding-flow.tsx:103-134 | blank input clears the state, else the validator's verdict and message, and "Unable..." on an error |
| Onboarding.OnboardingFlow.constructor | app/components/onboarding-flow.tsx:21-41 | step 1, the initial form, cleared validation |
| Onboarding.OnboardingFlow.HandleNext | app/components/onboarding-flow.tsx:45-90 | before the last step it advances and clears the error; on it, it signs up, reports the new user or the mapped error, and stops submitting |
| Onboarding.OnboardingFlow.Submit | app/components/onboarding-flow.tsx:49-88 | the last step signs up with the form's data, reports the new user with its name and goals or shows the mapped error, and ends not submitting |
| Onboarding.OnboardingFlow.HandleBack | app/components/onboarding-flow.tsx:92-97 | it goes back one step and clears the error, except on step 1 |
| Onboarding.OnboardingFlow.NavigationGuards | app/components/onboarding-flow.tsx:494-506 | Back is disabled on step 1 and enabled later; neither button works while submitting; Next is disabled on step 1 while a code is checked and on the fresh form, and enabled on steps 2 and 4 |
| Onboarding.OnboardingFlow.ReferralCodeChanged | app/components/onboarding-flow.tsx:136-137 | the referral field holds the upper-cased input and nothing else changes |
| Onboarding.OnboardingFlow.MarkValidating | app/components/onboarding-flow.tsx:113 | the in-flight flag is set and the rest of the validation state is kept |
| Onboarding.OnboardingFlow.ValidateReferralCodeInput | app/components/onboarding-flow.tsx:103-134 | the validation state and the store end as the pure validation gives; the rest of the form is untouched |
| Onboarding.OnboardingFlow.ToggleGoal | app/components/onboarding-flow.tsx:147-157 | only the goals change, by the toggle |
| Onboarding.ToggledGoalsDistinct | app/components/onboarding-flow.tsx:147-157 | toggled goals stay distinct and the count moves by exactly one |
| Home.TimeOfDayOf | app/components/main-app.tsx:191-197 | 5-11 is morning, 12-16 afternoon, 17-20 evening, anything else night |
| Home.FloorDiv | app/components/main-app.tsx:220-222 | `Math.floor(a / b)` for a positive divisor, negative `a` included |
| Home.MessageByTime | app/components/main-app.tsx:214-242 | the morning message depends on two days having passed, the afternoon one on the day; evening and night are fixed |
| Home.JourneyOnlyOnOrdinaryAfternoons | app/components/main-app.tsx:229-241 | the generic line appears exactly on an afternoon that is not a stressful day |
| Home.Weight | app/components/main-app.tsx:356 | every priority weighs between 1 and 3 |
| Home.WeightRanks | app/components/main-app.tsx:356 | high outranks medium, which outranks low |
| Home.AsWrittenMissesTwoDayOldDream | app/components/main-app.tsx:249-251 | as written, a two-day-old entry at 7 AM does not bring up the dream-first list; with days as the unit it does |
| Home.AsWrittenNeedsFortyOneDays | app/components/main-app.tsx:249-251 | as written, the dream-first list needs more than 41 days without an entry |
| Home.DreamFirstExactly | app/components/main-app.tsx:266-295 | the dream-first list is chosen exactly from 6 to 9 AM once a full day has passed |
| Home.ListShape | app/components/main-app.tsx:244-353 | every list has 4 actions, the referral action exactly once, and exactly one high-priority action |
| Home.ListsAlreadyOrdered | app/components/main-app.tsx:266-352 | every list is already in non-increasing weight order |
| Home.InsertPermutes | app/components/main-app.tsx:357 | inserting one action into a sorted list adds exactly that action |
| Home.InsertKeepsOrdered | app/components/main-app.tsx:357 | inserting into a list in non-increasing weight order keeps it in that order |
| Home.InsertKeepsWeightOrder | app/components/main-app.tsx:357 | the inserted action goes ahead of the actions of its own weight and the others keep their order |
| Home.SortOrderedPermutation | app/components/main-app.tsx:357 | the sort gives the same actions in non-increasing weight order |
| Home.SortIsStable | app/components/main-app.tsx:357 | the sort is stable: the actions of each weight keep their relative order |
| Home.SortKeepsOrdered | app/components/main-app.tsx:357 | a list already in weight order is left as it is |
| Home.SortedQuickActions | app/components/main-app.tsx:355-357 | with the day count corrected to days, the shown actions are the list for the hour and day count, in its own order |
| Home.SortedQuickActionsAsWritten | app/components/main-app.tsx:355-357 | as written, the shown actions are the as-written list for the hour, in its own order |
| Home.AsWrittenShowsMorningList | app/components/main-app.tsx:249-251 | at 7 AM two days after the last entry the screen shows the ordinary morning list as written, the dream-first list when corrected |
| Home.PriorityBadge | app/components/main-app.tsx:359-366 | "Recommended" exactly for high, "Optional" exactly for low, and "Suggested" for every other name the program passes (medium) |
| Home.BadgesDistinct | app/components/main-app.tsx:359-366 | the three priorities get their three badges |
| Home.TabFor | app/components/main-app.tsx:63-84 | the six known action ids map to tabs; any other id maps to none |
| Home.EveryActionHasTab | app/components/main-app.tsx:63-84 | every offered quick action leads to a tab |
| Home.MainApp.constructor | app/components/main-app.tsx:21 | the home tab is active at first |
| Home.MainApp.HandleQuickAction | app/components/main-app.tsx:63-84 | a known action switches to its tab; an unknown one leaves the tab unchanged |
| Home.MainApp.SelectTab | app/components/main-app.tsx:157 | a tab click makes that tab active |
| Soothing.Duration | app/components/self-soothing.tsx:16-74 | the four techniques and their durations; any other id has none |
| Soothing.StepsKeepBounded | app/components/self-soothing.tsx:80-109 | every step keeps the time at 0 with no session, and within the duration of a known technique |
| Soothing.TickAdvances | app/components/self-soothing.tsx:80-88 | before the end, a tick adds one second and changes nothing else |
| Soothing.TickCompletes | app/components/self-soothing.tsx:82-87 | at the end, a tick stops playing, records the session, clears it and resets the time |
| Soothing.CompletedOnlyGrows | app/components/self-soothing.tsx:84 | the completed list only grows, by at most the active id |
| Soothing.TicksWhilePlaying | app/components/self-soothing.tsx:80-89 | while playing before the end, `k` ticks add `k` seconds |
| Soothing.SessionCompletes | app/components/self-soothing.tsx:80-99 | after a start, duration-plus-one ticks finish the session and record it once |
| Soothing.CountCanExceedTechniques | app/components/self-soothing.tsx:84 | repeating one technique five times gives a count of 5, above the 4 techniques |
| Soothing.TwoDigitSeconds | app/components/self-soothing.tsx:113-114 | seconds under a minute pad to two digits that read back as the seconds |
| Soothing.FormatTimeRoundTrip | app/components/self-soothing.tsx:111-115 | the text splits at its colon into minutes and two-digit seconds with `mins*60 + secs == s` and `secs < 60` |
| Soothing.SelfSoothing.constructor | app/components/self-soothing.tsx:11-14 | no session, time 0, not playing, nothing completed |
| Soothing.SelfSoothing.StartSession | app/components/self-soothing.tsx:95-99 | the session is the id, time 0, playing |
| Soothing.SelfSoothing.TogglePlayPause | app/components/self-soothing.tsx:101-103 | only the playing flag flips |
| Soothing.SelfSoothing.ResetSession | app/components/self-soothing.tsx:105-109 | no session, time 0, paused; the completed list is kept |
| Soothing.SelfSoothing.Tick | app/components/self-soothing.tsx:78-90 | the interval body follows the tick step and keeps the time bounded |
| Gratitude.DropIndexIsSlice | app/components/gratitude-journal.tsx:58 | the index filter removes exactly that position, or nothing when the index is out of range |
| Gratitude.UpdatesChangeOneSlot | app/components/gratitude-journal.tsx:37-47 | an update changes only its slot, keeps the length, and changes no other field |
| Gratitude.RemoveActionShape | app/components/gratitude-journal.tsx:56-61 | removal drops the chosen action only while more than one remains, so one always remains |
| Gratitude.StepsKeepWellFormed | app/components/gratitude-journal.tsx:37-61 | three gratitude slots and at least one action survive every change |
| Gratitude.AllBlank | app/components/gratitude-journal.tsx:232 | the save is disabled exactly when every gratitude trims to empty |
| Gratitude.SaveNeedsAGratitude | app/components/gratitude-journal.tsx:232 | a fresh form cannot be saved; a non-blank gratitude enables the save |
| Gratitude.GratitudeJournal.constructor | app/components/gratitude-journal.tsx:13-20 | three empty gratitudes, one empty action, empty texts, no photo |
| Gratitude.GratitudeJournal.UpdateGratitude | app/components/gratitude-journal.tsx:37-41 | the copy is assigned at the index and stored back |
| Gratitude.GratitudeJournal.UpdateAction | app/components/gratitude-journal.tsx:43-47 | the copy is assigned at the index and stored back |
| Gratitude.GratitudeJournal.AddAction | app/components/gratitude-journal.tsx:49-54 | exactly one empty action is appended |
| Gratitude.GratitudeJournal.RemoveAction | app/components/gratitude-journal.tsx:56-61 | the action is filtered out only while more than one remains |
| Gratitude.GratitudeJournal.HandlePhotoUpload | app/components/gratitude-journal.tsx:63-69 | the photo becomes the placeholder image |
| Gratitude.GratitudeJournal.RemovePhoto | app/components/gratitude-journal.tsx:153 | the photo is cleared |
| Gratitude.GratitudeJournal.HandleSave | app/components/gratitude-journal.tsx:71-82 | the form returns to its initial state for the day |
| Dreams.TogglesTouchOneList | app/components/dream-logger.tsx:29-57 | each toggle flips its option in its own list and changes no other field |
| Dreams.ToggleTwiceRestores | app/components/dream-logger.tsx:29-57 | toggling an unpicked option twice gives the form back |
| Dreams.TogglesKeepDistinct | app/components/dream-logger.tsx:29-57 | picked emotions and themes never repeat |
| Dreams.SaveNeedsNonEmptyText | app/components/dream-logger.tsx:230 | a fresh form cannot be saved, but whitespace in both fields can |
| Dreams.DreamLogger.constructor | app/components/dream-logger.tsx:14-23 | the empty form with vividness 7 and lucidity 3, not recording |
| Dreams.DreamLogger.ToggleEmotion | app/components/dream-logger.tsx:29-42 | the emotions follow the toggle |
| Dreams.DreamLogger.ToggleTheme | app/components/dream-logger.tsx:44-57 | the themes follow the toggle |
| Dreams.DreamLogger.ToggleRecording | app/components/dream-logger.tsx:127 | only the recording flag flips |
| Dreams.DreamLogger.HandleSave | app/components/dream-logger.tsx:59-72 | the form is reset: empty texts and lists, vividness 7, lucidity 3 |
| Situation.ToggleTouchesOnlyEmotions | app/components/situation-analysis.tsx:52-65 | the toggle flips one option's membership and changes no other field |
| Situation.ToggleKeepsDistinct | app/components/situation-analysis.tsx:52-65 | picked emotions never repeat |
| Situation.StepsKeepKnownWeather | app/components/situation-analysis.tsx:44-50 | the weather stays one of the five radio values through every step, a save included |
| Situation.BlankCannotBeSaved | app/components/situation-analysis.tsx:276 | a fresh form cannot be saved; a title and a situation enable the save |
| Situation.SituationAnalysis.constructor | app/components/situation-analysis.tsx:15-27 | the empty form with intensity 5 and sunny weather |
| Situation.SituationAnalysis.ToggleEmotion | app/components/situation-analysis.tsx:52-65 | the emotions follow the toggle and the weather stays valid |
| Situation.SituationAnalysis.SetWeather | app/components/situation-analysis.tsx:163-176 | the weather becomes the chosen radio value |
| Situation.SituationAnalysis.HandleSave | app/components/situation-analysis.tsx:67-83 | the form is reset: intensity 5, sunny, empty texts and emotions |

## Left out

- Rendering, JSX, CSS classes, icons and colours on every screen, including the validation icon and border helpers of
  the onboarding flow and the greeting of the home screen.
- The welcome screen, the dashboard's sample numbers, the page router and the construction of the database client: they
  hold no logic of their own.
- The sharing actions of the referral screen: clipboard, `window.open`, `navigator.share` and `window.location`.
- Timers: `setInterval`, `setTimeout`, the 300 ms wait after the auth sign-up, the 500 ms debounce of the referral
  input (whose cleanup is discarded), and the minute clock. Only the body of the one-second tick is a step.
  Interleavings of asynchronous requests are concurrency and are not modelled.
- Server-side procedures and triggers (`generate_referral_code`, `validate_referral_code_public`,
  `get_or_create_user_profile`, `create_user_profile_json`): their answers are inputs. `create_user_profile_json` is
  taken to store the profile exactly when it reports success. The profile row that `get_or_create_user_profile` may
  create on the server is not modelled, so a procedure hit changes no modelled table.
- The replies of the `user_rewards`, `referrals` and `reward_tiers` queries of `getReferralData` are inputs. They are
  not read from the modelled store, so they are not logged, and the rewards row a sign-up writes is not read back.
- Column defaults of the database: `referral_codes.insert` sends only `user_id` and `code`, and the model takes
  `is_active` to default to true, which the lookups on `is_active = true` rely on.
- The password given to the auth sign-up is not kept in the modelled identity; only the email and the metadata are.
- The bonus upsert of the sign-up passes no conflict target; it is modelled as keyed on `user_id`, like the fallback's.
- Clock reads and date formatting (`new Date()`, `toISOString`, `toLocaleDateString`): dates enter as strings, and
  `toLocaleDateString` is a function parameter. The home screen's time since the last dream entry is an input in
  milliseconds and its weekday an input string.
- Floating-point progress percentages, and `signIn`, `signOut`, `getCurrentUser` and all console logging.
- The `alert` of each save.
- The plain field setters of each form (name, email, password, date, texts, sliders) are one-field record updates and
  are not modelled one by one.
- The catch of `validateReferralCodeInput` is unreachable, because `validateReferralCode` never throws. The model
  has no exception path there.
- The "no user returned" throw of `handleNext` is unreachable, because `signUp` throws when the user is missing.
- The sign-up result returns only the user id, not the whole auth data object.
- The engine's own sorting algorithm behind `Array.prototype.sort`. The sort is modelled on values as a stable
  insertion sort, so the in-place update of the array is not modelled.
- Home.PriorityBadge: keys inherited from `Object.prototype` (such as "toString" or "constructor") are not modelled.
  For them `badges[priority] || badges.medium` yields a value with no text rather than the medium badge. The only call
  site passes "high", "medium" or "low".
- Onboarding.IsStepValid: the password length is counted in characters (code points), while `password.length` counts UTF-16 code
  units. A password of three characters outside the Basic Multilingual Plane passes the source's six-unit test but
  not the model's.
- Strings.Upper: only the ASCII letters a-z are upper-cased. JavaScript's `toUpperCase` also maps letters of other
  scripts, and some of them to several characters.

## Findings

| source | as written | input that shows it | evidently intended | confidence | as-written member | corrected member |
|---|---|---|---|---|---|---|
| app/components/main-app.tsx:249-251 | the days since the last dream entry divide by 1000·60·60·1000 ms, about 41.7 days | hour 7, last entry two days (172,800,000 ms) ago: the day count is 0, so the dream-first list is not offered | divide by one day (1000·60·60·24 ms), as the message does at line 221 | not executed | Home.QuickActionsAsWritten, Home.AsWrittenMissesTwoDayOldDream, Home.AsWrittenShowsMorningList | Home.QuickActions, Home.DreamFirstExactly, Home.SortedQuickActions |
