/**
 * The dream logger form: title, content, the emotions and themes picked from
 * fixed option lists, two slider values, the date, and the voice-input flag.
 */
module Dreams {
  import opened Selection

  /** The form; the sliders hold one-element lists, as the slider component reports them. */
  datatype DreamEntry = DreamEntry(title: string, content: string, emotions: seq<string>, vividness: seq<int>,
                                   lucidity: seq<int>, themes: seq<string>, date: string)

  function EmotionOptions(): seq<string>
  {
    ["Joy", "Fear", "Anxiety", "Wonder", "Confusion", "Peace", "Excitement", "Sadness"]
  }

  function ThemeOptions(): seq<string>
  {
    ["Flying", "Water", "Animals", "People", "Places", "Colors", "Symbols", "Numbers"]
  }

  /** The form as first shown and as left by a save. */
  function BlankDream(today: string): DreamEntry
  {
    DreamEntry("", "", [], [7], [3], [], today)
  }

  /** `toggleEmotion`. */
  function ToggleEmotionStep(e: DreamEntry, emotion: string): DreamEntry
  {
    e.(emotions := Toggle(e.emotions, emotion))
  }

  /** `toggleTheme`. */
  function ToggleThemeStep(e: DreamEntry, theme: string): DreamEntry
  {
    e.(themes := Toggle(e.themes, theme))
  }

  /** The save button's test: no trimming, so a title of spaces counts as filled in. */
  function SaveDisabled(e: DreamEntry): bool
  {
    e.title == "" || e.content == ""
  }

  /** Each toggle changes its own list only, flipping the membership of the option. */
  lemma TogglesTouchOneList(e: DreamEntry, x: string)
    ensures var t := ToggleEmotionStep(e, x);
      t.(emotions := e.emotions) == e && (x in t.emotions <==> x !in e.emotions)
    ensures var t := ToggleThemeStep(e, x);
      t.(themes := e.themes) == e && (x in t.themes <==> x !in e.themes)
  {
  }

  /** Picking an option and picking it again leaves the form as it was. */
  lemma ToggleTwiceRestores(e: DreamEntry, x: string)
    requires x !in e.emotions && x !in e.themes
    ensures ToggleEmotionStep(ToggleEmotionStep(e, x), x) == e
    ensures ToggleThemeStep(ToggleThemeStep(e, x), x) == e
  {
    ToggleTwiceAbsent(e.emotions, x);
    ToggleTwiceAbsent(e.themes, x);
  }

  /** Picked lists built by toggling never hold an option twice. */
  lemma TogglesKeepDistinct(e: DreamEntry, x: string)
    requires NoDuplicates(e.emotions) && NoDuplicates(e.themes)
    ensures NoDuplicates(ToggleEmotionStep(e, x).emotions) && NoDuplicates(ToggleThemeStep(e, x).themes)
  {
    ToggleKeepsNoDuplicates(e.emotions, x);
    ToggleKeepsNoDuplicates(e.themes, x);
  }

  /** A fresh form cannot be saved; whitespace alone in both fields enables the save. */
  lemma SaveNeedsNonEmptyText(today: string)
    ensures SaveDisabled(BlankDream(today))
    ensures !SaveDisabled(BlankDream(today).(title := " ", content := " "))
  {
  }

  class DreamLogger {
    var entry: DreamEntry
    var isRecording: bool

    constructor (today: string)
      ensures entry == BlankDream(today) && !isRecording
    {
      entry := BlankDream(today);
      isRecording := false;
    }

    method ToggleEmotion(emotion: string)
      modifies this
      ensures entry == ToggleEmotionStep(old(entry), emotion) && isRecording == old(isRecording)
    {
      var current := entry.emotions;
      if emotion in current {
        entry := entry.(emotions := RemoveAll(current, emotion));
      } else {
        entry := entry.(emotions := current + [emotion]);
      }
    }

    method ToggleTheme(theme: string)
      modifies this
      ensures entry == ToggleThemeStep(old(entry), theme) && isRecording == old(isRecording)
    {
      var current := entry.themes;
      if theme in current {
        entry := entry.(themes := RemoveAll(current, theme));
      } else {
        entry := entry.(themes := current + [theme]);
      }
    }

    /** The voice-input button flips the flag and nothing else. */
    method ToggleRecording()
      modifies this
      ensures isRecording == !old(isRecording) && entry == old(entry)
    {
      isRecording := !isRecording;
    }

    /** `handleSave`: the confirmation alert is not modelled; the form is cleared for `today`. */
    method HandleSave(today: string)
      modifies this
      ensures entry == BlankDream(today) && isRecording == old(isRecording)
    {
      entry := BlankDream(today);
    }
  }
}
