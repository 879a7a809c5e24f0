/**
 * The profile page's list editor: three string lists (activities, goals,
 * hobbies) edited through one shared modal whose state is a section, an
 * optional index and a text.
 */
module Profile {
  import opened Storage

  const ActivitiesSection: string := "activities"
  const GoalsSection: string := "goals"
  const HobbiesSection: string := "hobbies"

  /** The header name before storage is read. */
  const DefaultName: string := "Connor"

  /**
   * `xs.filter((_, i) => i !== index)`: drops the element at `index` and
   * shifts the later ones down; any other index keeps the list as it is.
   */
  function DropIndex(xs: seq<string>, index: int): (r: seq<string>)
    ensures 0 <= index < |xs| ==> r == xs[..index] + xs[index + 1..]
    ensures !(0 <= index < |xs|) ==> r == xs
  {
    if xs == [] then []
    else
      var rest := DropIndex(xs[1..], index - 1);
      if index == 0 then
        assert xs[1..] == xs[..0] + xs[1..];
        rest
      else
        assert 0 < index < |xs| ==> xs[1..][..index - 1] + xs[1..][index..] == xs[1..index] + xs[index + 1..];
        [xs[0]] + rest
  }

  /** A delete shortens an in-range list by one and keeps order around the gap. */
  lemma DropIndexShifts(xs: seq<string>, index: int)
    requires 0 <= index < |xs|
    ensures |DropIndex(xs, index)| == |xs| - 1
    ensures forall j :: 0 <= j < index ==> DropIndex(xs, index)[j] == xs[j]
    ensures forall j :: index <= j < |xs| - 1 ==> DropIndex(xs, index)[j] == xs[j + 1]
  {
  }

  /**
   * `const ys = [...xs]; ys[index] = text`: replaces one position of a copy,
   * leaving the caller's list as it was.
   */
  method ReplaceInCopy(xs: seq<string>, index: nat, text: string) returns (ys: seq<string>)
    requires index < |xs|
    ensures |ys| == |xs| && ys[index] == text
    ensures forall j :: 0 <= j < |xs| && j != index ==> ys[j] == xs[j]
  {
    var copy := new string[|xs|](j requires 0 <= j < |xs| => xs[j]);
    copy[index] := text;
    ys := copy[..];
  }

  /**
   * The list that `saveEdit` installs for the section being edited: the
   * text replaces position `index` when there is one, and is appended
   * otherwise (with no check that it is non-empty).
   */
  function EditedList(xs: seq<string>, index: Option<nat>, text: string): (r: seq<string>)
    requires index.Some? ==> index.value < |xs|
    ensures index.Some? ==> |r| == |xs| && r[index.value] == text
    ensures index.Some? ==> forall j :: 0 <= j < |xs| && j != index.value ==> r[j] == xs[j]
    ensures index.None? ==> |r| == |xs| + 1 && r[..|xs|] == xs && r[|xs|] == text
  {
    if index.Some? then xs[index.value := text] else xs + [text]
  }

  class ProfilePage {
    var participantName: string
    var showEditPopup: bool
    var editingSection: Option<string>
    var activities: seq<string>
    var goals: seq<string>
    var hobbies: seq<string>
    var newItem: string
    var editingIndex: Option<nat>
    var editingText: string
    const storage: LocalStorage

    /** The editor is closed and empty. */
    predicate EditorReset()
      reads this
    {
      && editingSection == None && editingIndex == None
      && editingText == "" && newItem == "" && !showEditPopup
    }

    /** An edit-mode index points into the list it is about to overwrite. */
    predicate EditTargetInRange()
      reads this
    {
      editingIndex.Some? ==>
        && (editingSection == Some(ActivitiesSection) ==> editingIndex.value < |activities|)
        && (editingSection == Some(GoalsSection) ==> editingIndex.value < |goals|)
        && (editingSection == Some(HobbiesSection) ==> editingIndex.value < |hobbies|)
    }

    constructor (storage: LocalStorage)
      ensures participantName == DefaultName && EditorReset()
      ensures activities == ["Create my own Playlist", "Play a memory game in the computer lab",
                             "Recall a favorite song and discuss why you like it"]
      ensures goals == ["I would like to read 5 books by the end of this year",
                        "I want to learn how to play the guitar",
                        "I want to learn how to sell crafts that I make"]
      ensures hobbies == ["Reading Books", "Cooking", "Listening to Music", "Making Crafts", "Shopping"]
      ensures this.storage == storage
    {
      this.storage := storage;
      participantName := DefaultName;
      showEditPopup := false;
      editingSection := None;
      activities := ["Create my own Playlist", "Play a memory game in the computer lab",
                     "Recall a favorite song and discuss why you like it"];
      goals := ["I would like to read 5 books by the end of this year",
                "I want to learn how to play the guitar",
                "I want to learn how to sell crafts that I make"];
      hobbies := ["Reading Books", "Cooking", "Listening to Music", "Making Crafts", "Shopping"];
      newItem := "";
      editingIndex := None;
      editingText := "";
    }

    /** The mount effect: a non-empty stored name replaces the default. */
    method LoadParticipantName()
      modifies this
      ensures var stored := storage.GetItem(SurveyParticipantKey);
        participantName == if stored.Some? && stored.value != "" then stored.value else old(participantName)
      ensures activities == old(activities) && goals == old(goals) && hobbies == old(hobbies)
      ensures editingSection == old(editingSection) && editingIndex == old(editingIndex)
      ensures editingText == old(editingText) && showEditPopup == old(showEditPopup) && newItem == old(newItem)
    {
      var storedName := storage.GetItem(SurveyParticipantKey);
      if storedName.Some? && storedName.value != "" {
        participantName := storedName.value;
      }
    }

    /**
     * `startEditing(section, index?, currentText?)`: no index means add
     * mode, an index means edit mode at that position; the text starts as
     * `currentText`, or "" when it is absent or empty.
     */
    method StartEditing(section: string, index: Option<nat>, currentText: Option<string>)
      modifies this
      ensures editingSection == Some(section) && editingIndex == index
      ensures editingText == currentText.GetOr("") && newItem == "" && showEditPopup
      ensures activities == old(activities) && goals == old(goals) && hobbies == old(hobbies)
      ensures participantName == old(participantName)
    {
      editingSection := Some(section);
      editingIndex := index;
      editingText := if currentText.Some? && currentText.value != "" then currentText.value else "";
      newItem := "";
      showEditPopup := true;
    }

    /** The edit box's `onChange`. */
    method SetEditingText(text: string)
      modifies this
      ensures editingText == text
      ensures editingSection == old(editingSection) && editingIndex == old(editingIndex)
      ensures showEditPopup == old(showEditPopup) && newItem == old(newItem)
      ensures activities == old(activities) && goals == old(goals) && hobbies == old(hobbies)
      ensures participantName == old(participantName)
    {
      editingText := text;
    }

    method CancelEditing()
      modifies this
      ensures EditorReset()
      ensures activities == old(activities) && goals == old(goals) && hobbies == old(hobbies)
      ensures participantName == old(participantName)
    {
      editingSection := None;
      editingIndex := None;
      editingText := "";
      newItem := "";
      showEditPopup := false;
    }

    /**
     * `saveEdit`: only the list named by the editor's section changes (an
     * unknown or absent section changes none), then the editor is reset.
     */
    method SaveEdit()
      requires EditTargetInRange()
      modifies this
      ensures old(editingSection) == Some(ActivitiesSection) ==>
        activities == EditedList(old(activities), old(editingIndex), old(editingText))
      ensures old(editingSection) != Some(ActivitiesSection) ==> activities == old(activities)
      ensures old(editingSection) == Some(GoalsSection) ==>
        goals == EditedList(old(goals), old(editingIndex), old(editingText))
      ensures old(editingSection) != Some(GoalsSection) ==> goals == old(goals)
      ensures old(editingSection) == Some(HobbiesSection) ==>
        hobbies == EditedList(old(hobbies), old(editingIndex), old(editingText))
      ensures old(editingSection) != Some(HobbiesSection) ==> hobbies == old(hobbies)
      ensures EditorReset() && participantName == old(participantName)
    {
      if editingSection == Some(ActivitiesSection) {
        if editingIndex.Some? {
          activities := ReplaceInCopy(activities, editingIndex.value, editingText);
        } else {
          activities := activities + [editingText];
        }
      } else if editingSection == Some(GoalsSection) {
        if editingIndex.Some? {
          goals := ReplaceInCopy(goals, editingIndex.value, editingText);
        } else {
          goals := goals + [editingText];
        }
      } else if editingSection == Some(HobbiesSection) {
        if editingIndex.Some? {
          hobbies := ReplaceInCopy(hobbies, editingIndex.value, editingText);
        } else {
          hobbies := hobbies + [editingText];
        }
      }
      CancelEditing();
    }

    /** `deleteItem(section, index)`: filters one list by position; the others and the editor are untouched. */
    method DeleteItem(section: string, index: int)
      modifies this
      ensures activities == if section == ActivitiesSection then DropIndex(old(activities), index) else old(activities)
      ensures goals == if section == GoalsSection then DropIndex(old(goals), index) else old(goals)
      ensures hobbies == if section == HobbiesSection then DropIndex(old(hobbies), index) else old(hobbies)
      ensures editingSection == old(editingSection) && editingIndex == old(editingIndex)
      ensures editingText == old(editingText) && showEditPopup == old(showEditPopup) && newItem == old(newItem)
      ensures participantName == old(participantName)
    {
      if section == ActivitiesSection {
        activities := DropIndex(activities, index);
      } else if section == GoalsSection {
        goals := DropIndex(goals, index);
      } else if section == HobbiesSection {
        hobbies := DropIndex(hobbies, index);
      }
    }
  }
}
