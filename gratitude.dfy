/**
 * The gratitude journal form: three gratitudes, a growing list of actions,
 * reflection and manifestation texts, an optional photo, and a save that
 * clears the form.
 */
module Gratitude {
  import opened Tables
  import opened Strings

  /** The form; `date` is the ISO date string of the day. */
  datatype Entry = Entry(date: string, gratitudes: seq<string>, reflection: string, actions: seq<string>,
                         manifestation: string, photo: Option<string>)

  const PlaceholderPhoto := "/placeholder.svg?height=200&width=300"

  /** The form as first shown and as left by a save. */
  function BlankEntry(today: string): Entry
  {
    Entry(today, ["", "", ""], "", [""], "", None)
  }

  /** Three gratitude slots and at least one action. */
  predicate WellFormed(e: Entry)
  {
    |e.gratitudes| == 3 && |e.actions| >= 1
  }

  /** `filter((_, i) => i !== index)`, from position `from` on. */
  function DropIndexFrom(s: seq<string>, index: int, from: nat): seq<string>
    decreases |s|
  {
    if s == [] then []
    else (if from == index then [] else [s[0]]) + DropIndexFrom(s[1..], index, from + 1)
  }

  function DropIndex(s: seq<string>, index: int): seq<string>
  {
    DropIndexFrom(s, index, 0)
  }

  /** The filter removes exactly position `index` when it exists, and keeps the list otherwise. */
  lemma {:induction false} DropIndexFromIsSlice(s: seq<string>, index: int, from: nat)
    ensures from <= index < from + |s| ==> DropIndexFrom(s, index, from) == s[..index - from] + s[index - from + 1..]
    ensures !(from <= index < from + |s|) ==> DropIndexFrom(s, index, from) == s
    decreases |s|
  {
    if s != [] {
      var rest := DropIndexFrom(s[1..], index, from + 1);
      assert DropIndexFrom(s, index, from) == (if from == index then [] else [s[0]]) + rest;
      DropIndexFromIsSlice(s[1..], index, from + 1);
      if from == index {
        assert rest == s[1..];
        assert s[..0] + s[1..] == s[1..];
      } else if from < index < from + |s| {
        assert s[..index - from] == [s[0]] + s[1..][..index - from - 1];
        assert s[index - from + 1..] == s[1..][index - from..];
      } else {
        assert rest == s[1..];
        assert [s[0]] + s[1..] == s;
      }
    }
  }

  lemma DropIndexIsSlice(s: seq<string>, index: int)
    ensures 0 <= index < |s| ==> DropIndex(s, index) == s[..index] + s[index + 1..]
    ensures !(0 <= index < |s|) ==> DropIndex(s, index) == s
  {
    DropIndexFromIsSlice(s, index, 0);
  }

  /** `updateGratitude`. */
  function UpdateGratitudeStep(e: Entry, index: nat, value: string): Entry
    requires index < |e.gratitudes|
  {
    e.(gratitudes := e.gratitudes[index := value])
  }

  /** `updateAction`. */
  function UpdateActionStep(e: Entry, index: nat, value: string): Entry
    requires index < |e.actions|
  {
    e.(actions := e.actions[index := value])
  }

  /** `addAction`. */
  function AddActionStep(e: Entry): Entry
  {
    e.(actions := e.actions + [""])
  }

  /** `removeAction`: only while more than one action remains. */
  function RemoveActionStep(e: Entry, index: int): Entry
  {
    if |e.actions| > 1 then e.(actions := DropIndex(e.actions, index)) else e
  }

  /** Editing a slot changes only that slot and no other field. */
  lemma UpdatesChangeOneSlot(e: Entry, index: nat, value: string)
    requires index < |e.gratitudes| && index < |e.actions|
    ensures var g := UpdateGratitudeStep(e, index, value);
      && |g.gratitudes| == |e.gratitudes| && g.gratitudes[index] == value
      && (forall j :: 0 <= j < |e.gratitudes| && j != index ==> g.gratitudes[j] == e.gratitudes[j])
      && g.(gratitudes := e.gratitudes) == e
    ensures var a := UpdateActionStep(e, index, value);
      && |a.actions| == |e.actions| && a.actions[index] == value
      && (forall j :: 0 <= j < |e.actions| && j != index ==> a.actions[j] == e.actions[j])
      && a.(actions := e.actions) == e
  {
  }

  /** Removing drops exactly the chosen action, and never the last one. */
  lemma RemoveActionShape(e: Entry, index: int)
    ensures var r := RemoveActionStep(e, index).actions;
      && (|e.actions| > 1 && 0 <= index < |e.actions| ==> r == e.actions[..index] + e.actions[index + 1..])
      && (|e.actions| <= 1 || !(0 <= index < |e.actions|) ==> r == e.actions)
      && (|e.actions| >= 1 ==> |r| >= 1)
  {
    DropIndexIsSlice(e.actions, index);
  }

  /** Every change keeps three gratitude slots and at least one action. */
  lemma StepsKeepWellFormed(e: Entry, index: nat, value: string, removed: int)
    requires WellFormed(e)
    ensures WellFormed(AddActionStep(e)) && WellFormed(RemoveActionStep(e, removed))
    ensures index < 3 ==> WellFormed(UpdateGratitudeStep(e, index, value))
    ensures index < |e.actions| ==> WellFormed(UpdateActionStep(e, index, value))
  {
    RemoveActionShape(e, removed);
  }

  /** Every gratitude is blank, the test that disables the save button; computed one slot at a time. */
  function AllBlank(gratitudes: seq<string>): (b: bool)
    ensures b <==> forall i :: 0 <= i < |gratitudes| ==> IsBlank(gratitudes[i])
  {
    if gratitudes == [] then true
    else
      TrimEmptyIffBlank(gratitudes[0]);
      Trim(gratitudes[0]) == "" && AllBlank(gratitudes[1..])
  }

  /** A fresh form cannot be saved; filling in any gratitude enables the save. */
  lemma SaveNeedsAGratitude(e: Entry, index: nat, value: string)
    requires WellFormed(e) && index < 3
    ensures AllBlank(BlankEntry(e.date).gratitudes)
    ensures !IsBlank(value) ==> !AllBlank(UpdateGratitudeStep(e, index, value).gratitudes)
  {
    var g := BlankEntry(e.date).gratitudes;
    forall i | 0 <= i < |g| ensures IsBlank(g[i]) {
      assert g[i] == "";
    }
    var g2 := UpdateGratitudeStep(e, index, value).gratitudes;
    assert g2[index] == value;
  }

  class GratitudeJournal {
    var date: string
    var gratitudes: seq<string>
    var reflection: string
    var actions: seq<string>
    var manifestation: string
    var photo: Option<string>

    function State(): Entry
      reads this
    {
      Entry(date, gratitudes, reflection, actions, manifestation, photo)
    }

    predicate Valid()
      reads this
    {
      WellFormed(State())
    }

    constructor (today: string)
      ensures Valid() && State() == BlankEntry(today)
    {
      date, gratitudes, reflection, actions, manifestation, photo := today, ["", "", ""], "", [""], "", None;
    }

    method UpdateGratitude(index: nat, value: string)
      requires Valid() && index < |gratitudes|
      modifies this
      ensures Valid() && State() == UpdateGratitudeStep(old(State()), index, value)
    {
      var copy := gratitudes;
      copy := copy[index := value];
      gratitudes := copy;
    }

    method UpdateAction(index: nat, value: string)
      requires Valid() && index < |actions|
      modifies this
      ensures Valid() && State() == UpdateActionStep(old(State()), index, value)
    {
      var copy := actions;
      copy := copy[index := value];
      actions := copy;
    }

    method AddAction()
      requires Valid()
      modifies this
      ensures Valid() && State() == AddActionStep(old(State()))
    {
      actions := actions + [""];
    }

    method RemoveAction(index: int)
      requires Valid()
      modifies this
      ensures Valid() && State() == RemoveActionStep(old(State()), index)
    {
      if |actions| > 1 {
        RemoveActionShape(State(), index);
        actions := DropIndex(actions, index);
      }
    }

    /** The simulated upload sets a placeholder image. */
    method HandlePhotoUpload()
      requires Valid()
      modifies this
      ensures Valid() && State() == old(State()).(photo := Some(PlaceholderPhoto))
    {
      photo := Some(PlaceholderPhoto);
    }

    method RemovePhoto()
      requires Valid()
      modifies this
      ensures Valid() && State() == old(State()).(photo := None)
    {
      photo := None;
    }

    /** `handleSave`: the confirmation alert is not modelled; the form is cleared for `today`. */
    method HandleSave(today: string)
      requires Valid()
      modifies this
      ensures Valid() && State() == BlankEntry(today)
    {
      date, gratitudes, reflection, actions, manifestation, photo := today, ["", "", ""], "", [""], "", None;
    }
  }
}
