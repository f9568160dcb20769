/**
 * The self-soothing toolkit: four timed techniques, one session at a time,
 * a one-second tick that finishes a session once its duration is reached, and
 * the minutes-and-seconds display of a time.
 */
module Soothing {
  import opened Tables
  import opened Strings

  /** The techniques offered, by id. */
  function TechniqueIds(): seq<string>
  {
    ["breathing", "progressive", "visualization", "grounding"]
  }

  /** `techniques.find(t => t.id === id)?.duration`, in seconds. */
  function Duration(id: string): (d: Option<nat>)
    ensures d.Some? <==> id in TechniqueIds()
    ensures d.Some? ==> d.value > 0
  {
    if id == "breathing" then Some(240)
    else if id == "progressive" then Some(600)
    else if id == "visualization" then Some(480)
    else if id == "grounding" then Some(300)
    else None
  }

  /** The session state of the screen. */
  datatype Session = Session(active: Option<string>, time: nat, playing: bool, completed: seq<string>)

  /** Time is zero with no session, and never past the duration of a known technique. */
  predicate Bounded(s: Session)
  {
    && (s.active.None? ==> s.time == 0)
    && (s.active.Some? && Duration(s.active.value).Some? ==> s.time <= Duration(s.active.value).value)
  }

  function InitialSession(): Session
  {
    Session(None, 0, false, [])
  }

  /** `startSession`. */
  function StartStep(s: Session, id: string): Session
  {
    s.(active := Some(id), time := 0, playing := true)
  }

  /** `togglePlayPause`. */
  function ToggleStep(s: Session): Session
  {
    s.(playing := !s.playing)
  }

  /** `resetSession`. */
  function ResetStep(s: Session): Session
  {
    s.(active := None, time := 0, playing := false)
  }

  /** One second of the interval: nothing unless a session is playing; a finished session is recorded. */
  function TickStep(s: Session): Session
  {
    if !s.playing || s.active.None? then s
    else
      var d := Duration(s.active.value);
      if d.Some? && s.time >= d.value then Session(None, 0, false, s.completed + [s.active.value])
      else s.(time := s.time + 1)
  }

  /** `n` ticks. */
  function Ticks(s: Session, n: nat): Session
    decreases n
  {
    if n == 0 then s else Ticks(TickStep(s), n - 1)
  }

  /** Every step keeps the time within bounds. */
  lemma StepsKeepBounded(s: Session, id: string)
    requires Bounded(s)
    ensures Bounded(TickStep(s)) && Bounded(StartStep(s, id)) && Bounded(ToggleStep(s)) && Bounded(ResetStep(s))
  {
  }

  /** A playing session before its end advances by one second and nothing else changes. */
  lemma TickAdvances(s: Session)
    requires s.playing && s.active.Some? && Duration(s.active.value).Some?
    requires s.time < Duration(s.active.value).value
    ensures TickStep(s) == s.(time := s.time + 1)
  {
  }

  /** A playing session at its end stops, is cleared and is appended to the completed list. */
  lemma TickCompletes(s: Session)
    requires s.playing && s.active.Some? && Duration(s.active.value).Some?
    requires s.time >= Duration(s.active.value).value
    ensures TickStep(s) == Session(None, 0, false, s.completed + [s.active.value])
  {
  }

  /** The completed list only grows, and by at most one entry a tick. */
  lemma CompletedOnlyGrows(s: Session)
    ensures var c := TickStep(s).completed;
      c == s.completed || (s.active.Some? && c == s.completed + [s.active.value])
  {
  }

  /** While playing, a known session counts up one second a tick. */
  lemma {:induction false} TicksWhilePlaying(id: string, t: nat, c: seq<string>, k: nat)
    requires Duration(id).Some? && t + k <= Duration(id).value
    ensures Ticks(Session(Some(id), t, true, c), k) == Session(Some(id), t + k, true, c)
    decreases k
  {
    if k > 0 {
      TickAdvances(Session(Some(id), t, true, c));
      TicksWhilePlaying(id, t + 1, c, k - 1);
    }
  }

  /** Ticks compose. */
  lemma {:induction false} TicksAdd(s: Session, m: nat, n: nat)
    ensures Ticks(s, m + n) == Ticks(Ticks(s, m), n)
    decreases m
  {
    if m > 0 {
      TicksAdd(TickStep(s), m - 1, n);
    }
  }

  /** A session left playing finishes after its duration plus one tick and is recorded once. */
  lemma SessionCompletes(s: Session, id: string)
    requires Duration(id).Some?
    ensures Ticks(StartStep(s, id), Duration(id).value + 1) == Session(None, 0, false, s.completed + [id])
  {
    var d := Duration(id).value;
    TicksAdd(StartStep(s, id), d, 1);
    TicksWhilePlaying(id, 0, s.completed, d);
  }

  /** The same technique can be completed again, so the count can pass the number of techniques. */
  lemma CountCanExceedTechniques()
    ensures var once := Ticks(StartStep(InitialSession(), "breathing"), 241);
      var five := Ticks(StartStep(Ticks(StartStep(Ticks(StartStep(Ticks(StartStep(once,
        "breathing"), 241), "breathing"), 241), "breathing"), 241), "breathing"), 241);
      |five.completed| == 5 > |TechniqueIds()|
  {
    var s1 := Ticks(StartStep(InitialSession(), "breathing"), 241);
    SessionCompletes(InitialSession(), "breathing");
    var s2 := Ticks(StartStep(s1, "breathing"), 241);
    SessionCompletes(s1, "breathing");
    var s3 := Ticks(StartStep(s2, "breathing"), 241);
    SessionCompletes(s2, "breathing");
    var s4 := Ticks(StartStep(s3, "breathing"), 241);
    SessionCompletes(s3, "breathing");
    SessionCompletes(s4, "breathing");
  }

  /** `formatTime`: whole minutes, a colon, and the seconds padded to two digits. */
  function FormatTime(seconds: nat): string
  {
    Decimal(seconds / 60) + ":" + PadStart2(Decimal(seconds % 60))
  }

  /** Seconds under a minute pad to exactly two digits that read back as the seconds. */
  lemma TwoDigitSeconds(sec: nat)
    requires sec < 60
    ensures var p := PadStart2(Decimal(sec));
      |p| == 2 && (forall i :: 0 <= i < 2 ==> IsDigit(p[i])) && DigitsValue(p) == sec
  {
    var ds := Decimal(sec);
    var p := PadStart2(ds);
    if sec >= 10 {
      assert |Decimal(sec / 10)| == 1;
    }
    DecimalRoundTrip(sec);
    if |ds| == 1 {
      assert p == ['0'] + ds;
      assert p[..1] == ['0'];
    }
  }

  /** The rendering splits at its colon into minutes and two-digit seconds that give back the time. */
  lemma FormatTimeRoundTrip(seconds: nat)
    ensures var r := FormatTime(seconds);
      var k := |Decimal(seconds / 60)|;
      var minutes, secs := r[..k], r[k + 1..];
      && |r| == k + 3 && r == minutes + ":" + secs
      && (forall i :: 0 <= i < |minutes| ==> IsDigit(minutes[i]))
      && (forall i :: 0 <= i < |secs| ==> IsDigit(secs[i]))
      && DigitsValue(minutes) * 60 + DigitsValue(secs) == seconds
      && DigitsValue(secs) < 60
  {
    var m, sec := seconds / 60, seconds % 60;
    var r := FormatTime(seconds);
    var k := |Decimal(m)|;
    var p := PadStart2(Decimal(sec));
    TwoDigitSeconds(sec);
    DecimalRoundTrip(m);
    assert r == Decimal(m) + ":" + p;
    assert r[..k] == Decimal(m);
    assert r[k + 1..] == p;
  }

  class SelfSoothing {
    var activeSession: Option<string>
    var sessionTime: nat
    var isPlaying: bool
    var completedSessions: seq<string>

    function State(): Session
      reads this
    {
      Session(activeSession, sessionTime, isPlaying, completedSessions)
    }

    predicate Valid()
      reads this
    {
      Bounded(State())
    }

    constructor ()
      ensures Valid() && State() == InitialSession()
    {
      activeSession, sessionTime, isPlaying, completedSessions := None, 0, false, [];
    }

    method StartSession(id: string)
      requires Valid()
      modifies this
      ensures Valid() && State() == StartStep(old(State()), id)
    {
      activeSession, sessionTime, isPlaying := Some(id), 0, true;
    }

    method TogglePlayPause()
      requires Valid()
      modifies this
      ensures Valid() && State() == ToggleStep(old(State()))
    {
      isPlaying := !isPlaying;
    }

    method ResetSession()
      requires Valid()
      modifies this
      ensures Valid() && State() == ResetStep(old(State()))
    {
      isPlaying, sessionTime, activeSession := false, 0, None;
    }

    /** The body of the one-second interval. */
    method Tick()
      requires Valid()
      modifies this
      ensures Valid() && State() == TickStep(old(State()))
    {
      if !isPlaying || activeSession.None? {
        return;
      }
      var d := Duration(activeSession.value);
      if d.Some? && sessionTime >= d.value {
        isPlaying := false;
        completedSessions := completedSessions + [activeSession.value];
        activeSession := None;
        sessionTime := 0;
      } else {
        sessionTime := sessionTime + 1;
      }
    }
  }
}
