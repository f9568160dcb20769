/**
 * The situation analysis form: free-text fields, the emotions picked from a
 * fixed list, an intensity slider, and the weather chosen from five options.
 */
module Situation {
  import opened Selection

  datatype Analysis = Analysis(title: string, situation: string, emotions: seq<string>, intensity: seq<int>,
                               location: string, weather: string, peopleInvolved: string, triggers: string,
                               responses: string, learnings: string, date: string)

  function EmotionOptions(): seq<string>
  {
    ["Happy", "Sad", "Angry", "Anxious", "Excited", "Frustrated", "Calm", "Overwhelmed",
     "Grateful", "Disappointed", "Hopeful", "Confused"]
  }

  /** The values of the weather radio group. */
  function WeatherOptions(): seq<string>
  {
    ["sunny", "cloudy", "rainy", "stormy", "snowy"]
  }

  /** The form as first shown and as left by a save. */
  function BlankAnalysis(today: string): Analysis
  {
    Analysis("", "", [], [5], "", "sunny", "", "", "", "", today)
  }

  /** The weather is one of the radio group's values. */
  predicate KnownWeather(a: Analysis)
  {
    a.weather in WeatherOptions()
  }

  /** `toggleEmotion`. */
  function ToggleEmotionStep(a: Analysis, emotion: string): Analysis
  {
    a.(emotions := Toggle(a.emotions, emotion))
  }

  /** The weather radio group reports one of its values. */
  function SetWeatherStep(a: Analysis, value: string): Analysis
    requires value in WeatherOptions()
  {
    a.(weather := value)
  }

  /** The save button's test: no trimming. */
  function SaveDisabled(a: Analysis): bool
  {
    a.title == "" || a.situation == ""
  }

  /** The toggle flips the option's membership and changes no other field. */
  lemma ToggleTouchesOnlyEmotions(a: Analysis, x: string)
    ensures var t := ToggleEmotionStep(a, x);
      t.(emotions := a.emotions) == a && (x in t.emotions <==> x !in a.emotions)
      && (forall y :: y != x ==> (y in t.emotions <==> y in a.emotions))
  {
  }

  /** Toggled emotions never repeat. */
  lemma ToggleKeepsDistinct(a: Analysis, x: string)
    requires NoDuplicates(a.emotions)
    ensures NoDuplicates(ToggleEmotionStep(a, x).emotions)
  {
    ToggleKeepsNoDuplicates(a.emotions, x);
  }

  /** Every step, including a save, keeps the weather among the five values. */
  lemma StepsKeepKnownWeather(a: Analysis, x: string, value: string, today: string)
    requires KnownWeather(a) && value in WeatherOptions()
    ensures KnownWeather(ToggleEmotionStep(a, x)) && KnownWeather(SetWeatherStep(a, value))
    ensures KnownWeather(BlankAnalysis(today))
  {
  }

  /** A fresh form cannot be saved. */
  lemma BlankCannotBeSaved(today: string)
    ensures SaveDisabled(BlankAnalysis(today))
    ensures !SaveDisabled(BlankAnalysis(today).(title := "t", situation := "s"))
  {
  }

  class SituationAnalysis {
    var analysis: Analysis

    predicate Valid()
      reads this
    {
      KnownWeather(analysis)
    }

    constructor (today: string)
      ensures Valid() && analysis == BlankAnalysis(today)
    {
      analysis := BlankAnalysis(today);
    }

    method ToggleEmotion(emotion: string)
      requires Valid()
      modifies this
      ensures Valid() && analysis == ToggleEmotionStep(old(analysis), emotion)
    {
      var current := analysis.emotions;
      if emotion in current {
        analysis := analysis.(emotions := RemoveAll(current, emotion));
      } else {
        analysis := analysis.(emotions := current + [emotion]);
      }
    }

    method SetWeather(value: string)
      requires Valid() && value in WeatherOptions()
      modifies this
      ensures Valid() && analysis == SetWeatherStep(old(analysis), value)
    {
      analysis := analysis.(weather := value);
    }

    /** `handleSave`: the confirmation alert is not modelled; the form is cleared for `today`. */
    method HandleSave(today: string)
      requires Valid()
      modifies this
      ensures Valid() && analysis == BlankAnalysis(today)
    {
      analysis := BlankAnalysis(today);
    }
  }
}
