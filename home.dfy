/**
 * The main screen: tab selection, the time-of-day message, and the quick
 * actions offered on the home tab, sorted by priority.
 */
module Home {
  import opened Tables

  // ---------------------------------------------------------------- time of day

  datatype TimeOfDay = Morning | Afternoon | Evening | Night

  /** `getTimeOfDay` on the clock's hour. */
  function TimeOfDayOf(hour: int): (t: TimeOfDay)
    ensures t == Morning <==> 5 <= hour < 12
    ensures t == Afternoon <==> 12 <= hour < 17
    ensures t == Evening <==> 17 <= hour < 21
    ensures t == Night <==> hour < 5 || hour >= 21
  {
    if 5 <= hour < 12 then Morning
    else if 12 <= hour < 17 then Afternoon
    else if 17 <= hour < 21 then Evening
    else Night
  }

  const MillisPerDay := 1000 * 60 * 60 * 24

  /** The days the user typically needs more self-soothing. */
  predicate IsStressfulDay(weekday: string)
  {
    weekday in ["Monday", "Wednesday"]
  }

  /** `Math.floor(elapsed / divisor)`; Dafny's division rounds down for a positive divisor. */
  function FloorDiv(elapsed: int, divisor: int): (q: int)
    requires divisor > 0
    ensures divisor * q <= elapsed < divisor * (q + 1)
  {
    elapsed / divisor
  }

  const DreamReminder := "Did you have any dreams last night? It's been a while since your last dream entry."
  const MorningMessage := "Start your day with intention and mindfulness."
  const MidweekMessage := "Midweek can be challenging. Take a moment for self-care."
  const EveningMessage := "Perfect time to reflect on your day and practice gratitude."
  const NightMessage := "Wind down and prepare for restful sleep and meaningful dreams."
  const JourneyMessage := "Your journey of self-discovery continues."

  /**
   * `getContextualMessage`; `elapsed` is the time since the last dream entry in
   * milliseconds and `weekday` the long English weekday name.
   */
  function ContextualMessage(hour: int, elapsed: int, weekday: string): string
  {
    match TimeOfDayOf(hour)
    case Morning => if FloorDiv(elapsed, MillisPerDay) >= 2 then DreamReminder else MorningMessage
    case Afternoon => if IsStressfulDay(weekday) then MidweekMessage else JourneyMessage
    case Evening => EveningMessage
    case Night => NightMessage
  }

  /** The message for each time of day, and the fall-through for an ordinary afternoon. */
  lemma MessageByTime(hour: int, elapsed: int, weekday: string)
    ensures var m := ContextualMessage(hour, elapsed, weekday);
      && (5 <= hour < 12 ==> (m == DreamReminder <==> elapsed >= 2 * MillisPerDay))
      && (5 <= hour < 12 ==> (m == MorningMessage <==> elapsed < 2 * MillisPerDay))
      && (12 <= hour < 17 ==> m == (if weekday == "Monday" || weekday == "Wednesday" then MidweekMessage else JourneyMessage))
      && (17 <= hour < 21 ==> m == EveningMessage)
      && (hour < 5 || hour >= 21 ==> m == NightMessage)
  {
    var d := FloorDiv(elapsed, MillisPerDay);
    assert d >= 2 <==> elapsed >= 2 * MillisPerDay;
  }

  /** The generic line is shown exactly on an afternoon that is not a stressful day. */
  lemma JourneyOnlyOnOrdinaryAfternoons(hour: int, elapsed: int, weekday: string)
    ensures ContextualMessage(hour, elapsed, weekday) == JourneyMessage <==> 12 <= hour < 17 && !IsStressfulDay(weekday)
  {
  }

  // ---------------------------------------------------------------- quick actions

  datatype Priority = High | Medium | Low

  datatype QuickAction = QuickAction(id: string, title: string, priority: Priority, reason: string)

  /** `priorityOrder`. */
  function Weight(p: Priority): (w: int)
    ensures 1 <= w <= 3
  {
    match p
    case High => 3
    case Medium => 2
    case Low => 1
  }

  /** High outranks medium, which outranks low. */
  lemma WeightRanks()
    ensures Weight(High) > Weight(Medium) > Weight(Low)
  {
  }

  function PriorityName(p: Priority): string
  {
    match p
    case High => "high"
    case Medium => "medium"
    case Low => "low"
  }

  const ReferralsAction := QuickAction("referrals", "Share DreamWise", Medium, "Help others discover mindful growth")

  /** The morning list while dream recall is fresh. */
  function DreamFirstActions(): seq<QuickAction>
  {
    [ QuickAction("dream", "Log Last Night's Dream", High, "Dream recall is best in the morning"),
      QuickAction("gratitude", "Morning Gratitude", Medium, "Start your day with positivity"),
      ReferralsAction,
      QuickAction("dashboard", "Review Insights", Low, "Check your progress") ]
  }

  /** The other morning list. */
  function MorningActions(): seq<QuickAction>
  {
    [ QuickAction("gratitude", "Morning Gratitude", High, "Start your day with positivity"),
      ReferralsAction,
      QuickAction("dashboard", "Review Insights", Medium, "Check your progress"),
      QuickAction("soothe", "Morning Meditation", Low, "Center yourself for the day") ]
  }

  /** The list for afternoon, evening and night. */
  function DefaultActions(): seq<QuickAction>
  {
    [ QuickAction("situation", "Reflect & Analyze", High, "Process your experiences"),
      QuickAction("gratitude", "Manifest Gratitude", Medium, "Focus on positive manifestation"),
      ReferralsAction,
      QuickAction("soothe", "Self-Soothe", Low, "Take care of your emotional needs") ]
  }

  /** The list chosen for an hour and a day count. */
  function ActionsFor(hour: int, days: int): seq<QuickAction>
  {
    if TimeOfDayOf(hour) == Morning then
      if 6 <= hour <= 9 && days >= 1 then DreamFirstActions() else MorningActions()
    else DefaultActions()
  }

  /** `getContextualQuickActions` as written: the day count divides by 1000·60·60·1000 milliseconds. */
  function QuickActionsAsWritten(hour: int, elapsed: int): seq<QuickAction>
  {
    ActionsFor(hour, FloorDiv(elapsed, 1000 * 60 * 60 * 1000))
  }

  /** `getContextualQuickActions` with the day count in days, as in `getContextualMessage`. */
  function QuickActions(hour: int, elapsed: int): seq<QuickAction>
  {
    ActionsFor(hour, FloorDiv(elapsed, MillisPerDay))
  }

  /** As written, a dream entry two days old does not bring up the dream-first list at 7 AM. */
  lemma AsWrittenMissesTwoDayOldDream()
    ensures QuickActionsAsWritten(7, 2 * MillisPerDay) == MorningActions()
    ensures QuickActions(7, 2 * MillisPerDay) == DreamFirstActions()
  {
    assert FloorDiv(2 * MillisPerDay, 1000 * 60 * 60 * 1000) == 0;
    assert FloorDiv(2 * MillisPerDay, MillisPerDay) == 2;
  }

  /** As written, the dream-first list needs more than 41 days without an entry. */
  lemma AsWrittenNeedsFortyOneDays(hour: int, elapsed: int)
    requires QuickActionsAsWritten(hour, elapsed) == DreamFirstActions()
    ensures elapsed >= 1000 * 60 * 60 * 1000 && elapsed > 41 * MillisPerDay
  {
  }

  /** With the day divisor, the dream-first list is chosen exactly from 6 to 9 AM once a day has passed. */
  lemma DreamFirstExactly(hour: int, elapsed: int)
    ensures QuickActions(hour, elapsed) == DreamFirstActions() <==> 6 <= hour <= 9 && elapsed >= MillisPerDay
  {
    var days := FloorDiv(elapsed, MillisPerDay);
    assert days >= 1 <==> elapsed >= MillisPerDay;
  }

  /** Number of actions in `s` with id `id`. */
  function CountId(s: seq<QuickAction>, id: string): nat
  {
    if s == [] then 0 else (if s[0].id == id then 1 else 0) + CountId(s[1..], id)
  }

  /** Number of actions in `s` with priority `p`. */
  function CountPriority(s: seq<QuickAction>, p: Priority): nat
  {
    if s == [] then 0 else (if s[0].priority == p then 1 else 0) + CountPriority(s[1..], p)
  }

  /** For four actions, the counts are the sums of the four indicators. */
  lemma CountFour(s: seq<QuickAction>, id: string, p: Priority)
    requires |s| == 4
    ensures CountId(s, id) == (if s[0].id == id then 1 else 0) + (if s[1].id == id then 1 else 0)
                            + (if s[2].id == id then 1 else 0) + (if s[3].id == id then 1 else 0)
    ensures CountPriority(s, p) == (if s[0].priority == p then 1 else 0) + (if s[1].priority == p then 1 else 0)
                                 + (if s[2].priority == p then 1 else 0) + (if s[3].priority == p then 1 else 0)
  {
    var t1, t2, t3 := s[1..], s[2..], s[3..];
    assert t1[1..] == t2 && t2[1..] == t3 && t3[1..] == [];
    assert t1[0] == s[1] && t2[0] == s[2] && t3[0] == s[3];
    assert CountId(t3, id) == (if s[3].id == id then 1 else 0);
    assert CountId(t2, id) == (if s[2].id == id then 1 else 0) + CountId(t3, id);
    assert CountId(t1, id) == (if s[1].id == id then 1 else 0) + CountId(t2, id);
    assert CountPriority(t3, p) == (if s[3].priority == p then 1 else 0);
    assert CountPriority(t2, p) == (if s[2].priority == p then 1 else 0) + CountPriority(t3, p);
    assert CountPriority(t1, p) == (if s[1].priority == p then 1 else 0) + CountPriority(t2, p);
  }

  /** Each list has four entries, holds the referral action once and exactly one high-priority action. */
  lemma ListShape(hour: int, days: int)
    ensures var s := ActionsFor(hour, days);
      |s| == 4 && CountId(s, "referrals") == 1 && CountPriority(s, High) == 1 && ReferralsAction in s
  {
    var s := ActionsFor(hour, days);
    CountFour(s, "referrals", High);
  }

  /** Actions ordered by non-increasing weight. */
  predicate ByPriority(s: seq<QuickAction>)
  {
    forall k, l :: 0 <= k < l < |s| ==> Weight(s[k].priority) >= Weight(s[l].priority)
  }

  /** Every list is already in priority order, so the stable sort keeps it as written. */
  lemma ListsAlreadyOrdered(hour: int, days: int)
    ensures ByPriority(ActionsFor(hour, days))
  {
  }

  /** Puts `h` before the first entry of `r` that is not strictly heavier, so it stays ahead of its equals. */
  function InsertByWeight(h: QuickAction, r: seq<QuickAction>): seq<QuickAction>
    decreases |r|
  {
    if r == [] || Weight(r[0].priority) <= Weight(h.priority) then [h] + r
    else [r[0]] + InsertByWeight(h, r[1..])
  }

  /** The tail of an ordered list is ordered. */
  lemma OrderedTail(r: seq<QuickAction>)
    requires r != [] && ByPriority(r)
    ensures ByPriority(r[1..])
  {
    forall k, l | 0 <= k < l < |r[1..]| ensures Weight(r[1..][k].priority) >= Weight(r[1..][l].priority) {
      assert r[1..][k] == r[k + 1] && r[1..][l] == r[l + 1];
    }
  }

  /** Inserting adds exactly `h`. */
  lemma {:induction false} InsertPermutes(h: QuickAction, r: seq<QuickAction>)
    ensures multiset(InsertByWeight(h, r)) == multiset(r) + multiset{h}
    decreases |r|
  {
    if r != [] && Weight(r[0].priority) > Weight(h.priority) {
      InsertPermutes(h, r[1..]);
      assert r == [r[0]] + r[1..];
    }
  }

  /** Every entry after inserting is `h` or an entry of `r`. */
  lemma {:induction false} InsertMembers(h: QuickAction, r: seq<QuickAction>)
    ensures forall x :: x in InsertByWeight(h, r) ==> x == h || x in r
    decreases |r|
  {
    if r != [] && Weight(r[0].priority) > Weight(h.priority) {
      InsertMembers(h, r[1..]);
      forall x | x in InsertByWeight(h, r) ensures x == h || x in r {
        if x != r[0] {
          assert x in InsertByWeight(h, r[1..]);
          assert x == h || x in r[1..];
        }
      }
    }
  }

  /** Inserting into an ordered list keeps it ordered. */
  lemma {:induction false} InsertKeepsOrdered(h: QuickAction, r: seq<QuickAction>)
    requires ByPriority(r)
    ensures ByPriority(InsertByWeight(h, r))
    decreases |r|
  {
    var t := InsertByWeight(h, r);
    if r != [] && Weight(r[0].priority) > Weight(h.priority) {
      var rest := InsertByWeight(h, r[1..]);
      OrderedTail(r);
      InsertKeepsOrdered(h, r[1..]);
      InsertMembers(h, r[1..]);
      assert t == [r[0]] + rest;
      forall k, l | 0 <= k < l < |t| ensures Weight(t[k].priority) >= Weight(t[l].priority) {
        assert t[l] == rest[l - 1];
        if k == 0 {
          assert rest[l - 1] in rest;
          if rest[l - 1] != h {
            var m :| 0 <= m < |r[1..]| && r[1..][m] == rest[l - 1];
            assert r[m + 1] == rest[l - 1];
          }
        } else {
          assert t[k] == rest[k - 1];
        }
      }
    } else {
      assert t == [h] + r;
      forall k, l | 0 <= k < l < |t| ensures Weight(t[k].priority) >= Weight(t[l].priority) {
        assert t[l] == r[l - 1];
        if k > 0 {
          assert t[k] == r[k - 1];
        }
      }
    }
  }

  /** `a.sort((x, y) => weight(y) - weight(x))`, as a stable insertion sort. */
  function SortByPriority(s: seq<QuickAction>): seq<QuickAction>
    decreases |s|
  {
    if s == [] then [] else InsertByWeight(s[0], SortByPriority(s[1..]))
  }

  /** The entries of `s` with weight `w`, in order. */
  function OfWeight(s: seq<QuickAction>, w: int): seq<QuickAction>
    decreases |s|
  {
    if s == [] then [] else (if Weight(s[0].priority) == w then [s[0]] else []) + OfWeight(s[1..], w)
  }

  /** The sorted list is ordered by non-increasing weight and holds the same actions. */
  lemma {:induction false} SortOrderedPermutation(s: seq<QuickAction>)
    ensures ByPriority(SortByPriority(s))
    ensures multiset(SortByPriority(s)) == multiset(s)
    decreases |s|
  {
    if s != [] {
      SortOrderedPermutation(s[1..]);
      InsertPermutes(s[0], SortByPriority(s[1..]));
      InsertKeepsOrdered(s[0], SortByPriority(s[1..]));
      assert s == [s[0]] + s[1..];
    }
  }

  /** Inserting `h` adds it to the front of its weight's entries and leaves the others' order alone. */
  lemma {:induction false} InsertKeepsWeightOrder(h: QuickAction, r: seq<QuickAction>, w: int)
    ensures OfWeight(InsertByWeight(h, r), w) == (if Weight(h.priority) == w then [h] else []) + OfWeight(r, w)
    decreases |r|
  {
    var hs := if Weight(h.priority) == w then [h] else [];
    var t := InsertByWeight(h, r);
    if r != [] && Weight(r[0].priority) > Weight(h.priority) {
      var rest := InsertByWeight(h, r[1..]);
      InsertKeepsWeightOrder(h, r[1..], w);
      assert t[0] == r[0] && t[1..] == rest;
      assert OfWeight(t, w) == (if Weight(r[0].priority) == w then [r[0]] else []) + OfWeight(rest, w);
      assert OfWeight(r, w) == (if Weight(r[0].priority) == w then [r[0]] else []) + OfWeight(r[1..], w);
      if Weight(h.priority) == w {
        assert OfWeight(t, w) == hs + OfWeight(r[1..], w);
      } else {
        assert hs == [];
      }
    } else {
      assert t[0] == h && t[1..] == r;
      assert OfWeight(t, w) == hs + OfWeight(r, w);
    }
  }

  /** The sort is stable: actions of equal weight keep their relative order. */
  lemma {:induction false} SortIsStable(s: seq<QuickAction>, w: int)
    ensures OfWeight(SortByPriority(s), w) == OfWeight(s, w)
    decreases |s|
  {
    if s != [] {
      SortIsStable(s[1..], w);
      InsertKeepsWeightOrder(s[0], SortByPriority(s[1..]), w);
    }
  }

  /** An already ordered list is left as it is. */
  lemma {:induction false} SortKeepsOrdered(s: seq<QuickAction>)
    requires ByPriority(s)
    ensures SortByPriority(s) == s
    decreases |s|
  {
    if s != [] {
      OrderedTail(s);
      SortKeepsOrdered(s[1..]);
      if |s| > 1 {
        assert s[1..][0] == s[1];
      }
      assert s == [s[0]] + s[1..];
    }
  }

  /** The quick actions as the home tab lists them: built for the hour (with the day count in days), then sorted. */
  function SortedQuickActions(hour: int, elapsed: int): (shown: seq<QuickAction>)
    ensures shown == QuickActions(hour, elapsed)
  {
    ListsAlreadyOrdered(hour, FloorDiv(elapsed, MillisPerDay));
    SortKeepsOrdered(QuickActions(hour, elapsed));
    SortByPriority(QuickActions(hour, elapsed))
  }

  /** The quick actions `getContextualQuickActions` as written produces, after the sort. */
  function SortedQuickActionsAsWritten(hour: int, elapsed: int): (shown: seq<QuickAction>)
    ensures shown == QuickActionsAsWritten(hour, elapsed)
  {
    ListsAlreadyOrdered(hour, FloorDiv(elapsed, 1000 * 60 * 60 * 1000));
    SortKeepsOrdered(QuickActionsAsWritten(hour, elapsed));
    SortByPriority(QuickActionsAsWritten(hour, elapsed))
  }

  /** As written, the home tab shows the ordinary morning list at 7 AM two days after the last dream entry. */
  lemma AsWrittenShowsMorningList()
    ensures SortedQuickActionsAsWritten(7, 2 * MillisPerDay) == MorningActions()
    ensures SortedQuickActions(7, 2 * MillisPerDay) == DreamFirstActions()
  {
    AsWrittenMissesTwoDayOldDream();
  }

  /** `getPriorityBadge`: the badge text for a priority name, the medium badge for any other name. */
  function PriorityBadge(priority: string): (text: string)
    ensures text == "Recommended" <==> priority == "high"
    ensures text == "Optional" <==> priority == "low"
    ensures text == "Suggested" <==> priority != "high" && priority != "low"
  {
    if priority == "high" then "Recommended"
    else if priority == "low" then "Optional"
    else "Suggested"
  }

  /** Higher priority, stronger badge: the three names get three different texts. */
  lemma BadgesDistinct()
    ensures PriorityBadge(PriorityName(High)) == "Recommended"
    ensures PriorityBadge(PriorityName(Medium)) == "Suggested"
    ensures PriorityBadge(PriorityName(Low)) == "Optional"
  {
  }

  // ---------------------------------------------------------------- tabs

  /** The ids of the navigation tabs. */
  function TabIds(): seq<string>
  {
    ["home", "dreams", "analysis", "soothing", "gratitude", "dashboard", "referrals"]
  }

  /** `handleQuickAction`'s mapping from action ids to tabs; other ids select nothing. */
  function TabFor(actionId: string): (t: Option<string>)
    ensures t.Some? ==> t.value in TabIds()
    ensures t.Some? <==> actionId in ["dream", "situation", "gratitude", "soothe", "dashboard", "referrals"]
  {
    if actionId == "dream" then Some("dreams")
    else if actionId == "situation" then Some("analysis")
    else if actionId == "gratitude" then Some("gratitude")
    else if actionId == "soothe" then Some("soothing")
    else if actionId == "dashboard" then Some("dashboard")
    else if actionId == "referrals" then Some("referrals")
    else None
  }

  /** Every action offered on the home tab leads to a tab. */
  lemma EveryActionHasTab(hour: int, days: int, k: nat)
    requires k < |ActionsFor(hour, days)|
    ensures TabFor(ActionsFor(hour, days)[k].id).Some?
  {
  }

  class MainApp {
    var activeTab: string

    predicate Valid()
      reads this
    {
      activeTab in TabIds()
    }

    constructor ()
      ensures Valid() && activeTab == "home"
    {
      activeTab := "home";
    }

    /** `handleQuickAction`. */
    method HandleQuickAction(actionId: string)
      requires Valid()
      modifies this
      ensures Valid()
      ensures activeTab == (if TabFor(actionId).Some? then TabFor(actionId).value else old(activeTab))
    {
      var t := TabFor(actionId);
      if t.Some? {
        activeTab := t.value;
      }
    }

    /** A click on a navigation tab. */
    method SelectTab(tabId: string)
      requires Valid() && tabId in TabIds()
      modifies this
      ensures Valid() && activeTab == tabId
    {
      activeTab := tabId;
    }
  }
}
