/**
 * The activity-survey page: a category -> activities tree with independent
 * expand and selection flags, a free-text suggestion box, and a submit that
 * flattens the selection into ordered {category, activity} pairs and stores
 * one payload record.
 */
module ActivitySurvey {
  import opened Storage

  /** The name shown when storage holds no participant name. */
  const PlaceholderName: string := "Participant"
  const SuccessRoute: string := "/activity-survey/success"

  datatype Activity = Activity(id: string, name: string, selected: bool)

  datatype ActivityCategory =
    ActivityCategory(id: string, name: string, activities: seq<Activity>, isExpanded: bool)

  /** One entry of the submitted `selectedActivities`. */
  datatype Selection = Selection(category: string, activity: string)

  /** The record written under the survey-data key. */
  datatype SurveyPayload = SurveyPayload(
    participantName: string,
    selectedActivities: seq<Selection>,
    suggestedActivity: string,
    timestamp: string)

  /** The seed tree: four collapsed categories, nothing selected. */
  function InitialCategories(): seq<ActivityCategory> {
    [ ActivityCategory("art", "Art", [
        Activity("art1", "Drawing a self-portrait", false),
        Activity("art2", "Creating a collage of your interests", false),
        Activity("art3", "Creating a mood board for 2025", false)], false),
      ActivityCategory("music", "Music", [
        Activity("music1", "Create your own playlist", false),
        Activity("music2", "Learn a new instrument", false)], false),
      ActivityCategory("math", "Math", [
        Activity("math1", "Go through finances", false),
        Activity("math2", "Play math games on iPad", false)], false),
      ActivityCategory("memory", "Memory", [
        Activity("memory1", "Play a memory game with others", false),
        Activity("memory2", "Recall a favorite song and discuss why you like it", false)], false) ]
  }

  /** Same activities position by position, selection flags aside. */
  predicate SameActivities(a: seq<Activity>, b: seq<Activity>) {
    && |a| == |b|
    && forall j :: 0 <= j < |a| ==> a[j].id == b[j].id && a[j].name == b[j].name
  }

  // ---------------------------------------------------------------------
  // Expanding and selecting
  // ---------------------------------------------------------------------

  /** The `map` in `toggleCategory`. */
  function ToggleCategoryIn(cs: seq<ActivityCategory>, categoryId: string): (r: seq<ActivityCategory>)
    ensures |r| == |cs|
    ensures forall i :: 0 <= i < |cs| ==>
      && r[i].id == cs[i].id && r[i].name == cs[i].name
      && r[i].activities == cs[i].activities
      && r[i].isExpanded == (cs[i].isExpanded != (cs[i].id == categoryId))
  {
    seq(|cs|, i requires 0 <= i < |cs| =>
      if cs[i].id == categoryId then cs[i].(isExpanded := !cs[i].isExpanded) else cs[i])
  }

  /** The inner `map` of `toggleActivity`, over one category's activities. */
  function FlipActivity(acts: seq<Activity>, activityId: string): (r: seq<Activity>)
    ensures SameActivities(acts, r)
    ensures forall j :: 0 <= j < |acts| ==>
      r[j].selected == (acts[j].selected != (acts[j].id == activityId))
  {
    seq(|acts|, j requires 0 <= j < |acts| =>
      if acts[j].id == activityId then acts[j].(selected := !acts[j].selected) else acts[j])
  }

  /** The outer `map` of `toggleActivity`. */
  function ToggleActivityIn(cs: seq<ActivityCategory>, categoryId: string, activityId: string): (r: seq<ActivityCategory>)
    ensures |r| == |cs|
    ensures forall i :: 0 <= i < |cs| ==>
      && r[i].id == cs[i].id && r[i].name == cs[i].name
      && r[i].isExpanded == cs[i].isExpanded
      && SameActivities(cs[i].activities, r[i].activities)
    ensures forall i :: 0 <= i < |cs| && cs[i].id != categoryId ==> r[i] == cs[i]
    ensures forall i :: 0 <= i < |cs| && cs[i].id == categoryId ==>
      r[i].activities == FlipActivity(cs[i].activities, activityId)
  {
    seq(|cs|, i requires 0 <= i < |cs| =>
      if cs[i].id == categoryId then cs[i].(activities := FlipActivity(cs[i].activities, activityId)) else cs[i])
  }

  /** Expanding or collapsing the same category twice is the identity. */
  lemma ToggleCategoryTwice(cs: seq<ActivityCategory>, categoryId: string)
    ensures ToggleCategoryIn(ToggleCategoryIn(cs, categoryId), categoryId) == cs
  {
    var r := ToggleCategoryIn(ToggleCategoryIn(cs, categoryId), categoryId);
    forall i | 0 <= i < |cs| ensures r[i] == cs[i] {
      assert r[i].isExpanded == cs[i].isExpanded;
    }
  }

  /** Selecting and deselecting the same activity is the identity. */
  lemma ToggleActivityTwice(cs: seq<ActivityCategory>, categoryId: string, activityId: string)
    ensures ToggleActivityIn(ToggleActivityIn(cs, categoryId, activityId), categoryId, activityId) == cs
  {
    var once := ToggleActivityIn(cs, categoryId, activityId);
    var r := ToggleActivityIn(once, categoryId, activityId);
    forall i | 0 <= i < |cs| ensures r[i] == cs[i] {
      if cs[i].id == categoryId {
        var acts := cs[i].activities;
        forall j | 0 <= j < |acts| ensures r[i].activities[j] == acts[j] {
          assert once[i].activities[j].selected == (acts[j].selected != (acts[j].id == activityId));
        }
        assert r[i].activities == acts;
      }
    }
  }

  // ---------------------------------------------------------------------
  // Flattening the selection on submit
  // ---------------------------------------------------------------------

  /** `activities.filter(a => a.selected).map(a => ({category, activity: a.name}))`. */
  function SelectedIn(categoryName: string, acts: seq<Activity>): seq<Selection> {
    if acts == [] then []
    else
      (if acts[0].selected then [Selection(categoryName, acts[0].name)] else [])
      + SelectedIn(categoryName, acts[1..])
  }

  /** The `flatMap` over categories in `handleSubmit`. */
  function SelectedActivities(cs: seq<ActivityCategory>): seq<Selection> {
    if cs == [] then []
    else SelectedIn(cs[0].name, cs[0].activities) + SelectedActivities(cs[1..])
  }

  /** How many of `acts` are selected. */
  function CountSelected(acts: seq<Activity>): nat {
    if acts == [] then 0
    else (if acts[0].selected then 1 else 0) + CountSelected(acts[1..])
  }

  /** How many activities are selected, over all categories. */
  function SelectedCount(cs: seq<ActivityCategory>): nat {
    if cs == [] then 0
    else CountSelected(cs[0].activities) + SelectedCount(cs[1..])
  }

  lemma {:induction false} SelectedInMembership(categoryName: string, acts: seq<Activity>, s: Selection)
    ensures s in SelectedIn(categoryName, acts) <==>
      s.category == categoryName && exists j :: 0 <= j < |acts| && acts[j].selected && acts[j].name == s.activity
  {
    if acts != [] {
      SelectedInMembership(categoryName, acts[1..], s);
      if s.category == categoryName && s in SelectedIn(categoryName, acts[1..]) {
        var j :| 0 <= j < |acts[1..]| && acts[1..][j].selected && acts[1..][j].name == s.activity;
        assert acts[j + 1] == acts[1..][j];
      }
      if exists j :: 0 <= j < |acts| && acts[j].selected && acts[j].name == s.activity {
        var j :| 0 <= j < |acts| && acts[j].selected && acts[j].name == s.activity;
        if j > 0 { assert acts[1..][j - 1] == acts[j]; }
      }
    }
  }

  /**
   * The submitted list holds exactly the selected activities, each paired
   * with the name of its category.
   */
  lemma {:induction false} SelectedMembership(cs: seq<ActivityCategory>, s: Selection)
    ensures s in SelectedActivities(cs) <==>
      exists i, j :: 0 <= i < |cs| && 0 <= j < |cs[i].activities|
        && cs[i].activities[j].selected && s == Selection(cs[i].name, cs[i].activities[j].name)
  {
    if cs != [] {
      SelectedInMembership(cs[0].name, cs[0].activities, s);
      SelectedMembership(cs[1..], s);
      if s in SelectedIn(cs[0].name, cs[0].activities) {
        var j :| 0 <= j < |cs[0].activities| && cs[0].activities[j].selected && cs[0].activities[j].name == s.activity;
        assert s == Selection(cs[0].name, cs[0].activities[j].name);
      }
      if s in SelectedActivities(cs[1..]) {
        var i, j :| 0 <= i < |cs[1..]| && 0 <= j < |cs[1..][i].activities|
          && cs[1..][i].activities[j].selected && s == Selection(cs[1..][i].name, cs[1..][i].activities[j].name);
        assert cs[i + 1] == cs[1..][i];
      }
      if exists i, j :: 0 <= i < |cs| && 0 <= j < |cs[i].activities| &&
           cs[i].activities[j].selected && s == Selection(cs[i].name, cs[i].activities[j].name)
      {
        var i, j :| 0 <= i < |cs| && 0 <= j < |cs[i].activities|
          && cs[i].activities[j].selected && s == Selection(cs[i].name, cs[i].activities[j].name);
        if i > 0 { assert cs[1..][i - 1] == cs[i]; }
      }
    }
  }

  lemma {:induction false} SelectedInLength(categoryName: string, acts: seq<Activity>)
    ensures |SelectedIn(categoryName, acts)| == CountSelected(acts)
  {
    if acts != [] {
      SelectedInLength(categoryName, acts[1..]);
    }
  }

  /** One entry per selected activity: no more, no fewer. */
  lemma {:induction false} SelectedLength(cs: seq<ActivityCategory>)
    ensures |SelectedActivities(cs)| == SelectedCount(cs)
  {
    if cs != [] {
      SelectedInLength(cs[0].name, cs[0].activities);
      SelectedLength(cs[1..]);
    }
  }

  /**
   * Category order is kept: the entries of earlier categories all come
   * before those of later ones.
   */
  lemma {:induction false} SelectedKeepsCategoryOrder(a: seq<ActivityCategory>, b: seq<ActivityCategory>)
    ensures SelectedActivities(a + b) == SelectedActivities(a) + SelectedActivities(b)
  {
    if a != [] {
      assert (a + b)[1..] == a[1..] + b;
      SelectedKeepsCategoryOrder(a[1..], b);
    } else {
      assert a + b == b;
    }
  }

  /** Activity order is kept within a category. */
  lemma {:induction false} SelectedKeepsActivityOrder(categoryName: string, a: seq<Activity>, b: seq<Activity>)
    ensures SelectedIn(categoryName, a + b) == SelectedIn(categoryName, a) + SelectedIn(categoryName, b)
  {
    if a != [] {
      assert (a + b)[1..] == a[1..] + b;
      SelectedKeepsActivityOrder(categoryName, a[1..], b);
    } else {
      assert a + b == b;
    }
  }

  /** Expanding or collapsing never changes what a submit would send. */
  lemma {:induction false} ExpandKeepsSelection(cs: seq<ActivityCategory>, categoryId: string)
    ensures SelectedActivities(ToggleCategoryIn(cs, categoryId)) == SelectedActivities(cs)
  {
    if cs != [] {
      var r := ToggleCategoryIn(cs, categoryId);
      assert r[1..] == ToggleCategoryIn(cs[1..], categoryId);
      ExpandKeepsSelection(cs[1..], categoryId);
    }
  }

  /** Submitting is allowed with nothing selected, and then sends no entries. */
  lemma NothingSelectedSendsNothing(cs: seq<ActivityCategory>)
    ensures SelectedActivities(cs) == [] <==>
      forall i, j :: 0 <= i < |cs| && 0 <= j < |cs[i].activities| ==> !cs[i].activities[j].selected
  {
    if SelectedActivities(cs) != [] {
      SelectedMembership(cs, SelectedActivities(cs)[0]);
    } else {
      forall i, j | 0 <= i < |cs| && 0 <= j < |cs[i].activities|
        ensures !cs[i].activities[j].selected
      {
        SelectedMembership(cs, Selection(cs[i].name, cs[i].activities[j].name));
      }
    }
  }

  /** Selecting only "Drawing a self-portrait" in the seed tree sends exactly that pair. */
  lemma SingleSelectionExample()
    ensures SelectedActivities(ToggleActivityIn(InitialCategories(), "art", "art1"))
      == [Selection("Art", "Drawing a self-portrait")]
  {
    var cs := ToggleActivityIn(InitialCategories(), "art", "art1");
    var art := cs[0].activities;
    assert art[0].selected && !art[1].selected && !art[2].selected;
    assert SelectedIn("Art", art[2..]) == [] by {
      assert art[2..][1..] == [];
    }
    assert SelectedIn("Art", art[1..]) == [] by {
      assert art[1..][1..] == art[2..];
    }
    assert SelectedIn("Art", art) == [Selection("Art", "Drawing a self-portrait")];
    NothingSelectedSendsNothing(cs[1..]);
    assert cs == [cs[0]] + cs[1..];
  }

  // ---------------------------------------------------------------------
  // The stored payload
  // ---------------------------------------------------------------------

  function SelectionJson(s: Selection): Json {
    JObj(map["category" := JStr(s.category), "activity" := JStr(s.activity)])
  }

  function SelectionsJson(sel: seq<Selection>): seq<Json> {
    seq(|sel|, i requires 0 <= i < |sel| => SelectionJson(sel[i]))
  }

  /** The object handed to `JSON.stringify` in `handleSubmit`. */
  function PayloadJson(p: SurveyPayload): Json {
    JObj(map[
      "participantName" := JStr(p.participantName),
      "selectedActivities" := JArr(SelectionsJson(p.selectedActivities)),
      "suggestedActivity" := JStr(p.suggestedActivity),
      "timestamp" := JStr(p.timestamp)])
  }

  function StringField(j: Json, key: string): Option<string> {
    match Lookup(j, key)
    case Some(JStr(s)) => Some(s)
    case _ => None
  }

  function SelectionFromJson(j: Json): Option<Selection> {
    var category := StringField(j, "category");
    var activity := StringField(j, "activity");
    if category.Some? && activity.Some? then Some(Selection(category.value, activity.value)) else None
  }

  function SelectionsFromJson(items: seq<Json>): Option<seq<Selection>> {
    if items == [] then Some([])
    else
      match (SelectionFromJson(items[0]), SelectionsFromJson(items[1..]))
      case (Some(s), Some(rest)) => Some([s] + rest)
      case _ => None
  }

  /** A reader for the stored record, as a consumer of the key would parse it. */
  function PayloadFromJson(j: Json): Option<SurveyPayload> {
    var name := StringField(j, "participantName");
    var suggestion := StringField(j, "suggestedActivity");
    var timestamp := StringField(j, "timestamp");
    var selected := Lookup(j, "selectedActivities");
    if name.Some? && suggestion.Some? && timestamp.Some? && selected.Some? && selected.value.JArr? then
      match SelectionsFromJson(selected.value.items)
      case Some(sel) => Some(SurveyPayload(name.value, sel, suggestion.value, timestamp.value))
      case None => None
    else None
  }

  lemma {:induction false} SelectionsRoundTrip(sel: seq<Selection>)
    ensures SelectionsFromJson(SelectionsJson(sel)) == Some(sel)
  {
    var items := SelectionsJson(sel);
    if sel != [] {
      assert items[1..] == SelectionsJson(sel[1..]);
      SelectionsRoundTrip(sel[1..]);
      assert SelectionFromJson(items[0]) == Some(sel[0]);
      assert [sel[0]] + sel[1..] == sel;
    }
  }

  /** The stored record decodes to exactly the submitted payload. */
  lemma PayloadRoundTrip(p: SurveyPayload)
    ensures PayloadFromJson(PayloadJson(p)) == Some(p)
  {
    var j := PayloadJson(p);
    SelectionsRoundTrip(p.selectedActivities);
    assert StringField(j, "participantName") == Some(p.participantName);
    assert StringField(j, "suggestedActivity") == Some(p.suggestedActivity);
    assert StringField(j, "timestamp") == Some(p.timestamp);
    assert Lookup(j, "selectedActivities") == Some(JArr(SelectionsJson(p.selectedActivities)));
  }

  // ---------------------------------------------------------------------
  // The participant name
  // ---------------------------------------------------------------------

  /** The mount effect: the stored name when non-empty, else the placeholder. */
  function ResolvedName(stored: Option<string>): (name: string)
    ensures name != ""
    ensures stored.Some? && stored.value != "" ==> name == stored.value
    ensures stored.None? || stored.value == "" ==> name == PlaceholderName
  {
    if stored.Some? && stored.value != "" then stored.value else PlaceholderName
  }

  // ---------------------------------------------------------------------
  // The page component
  // ---------------------------------------------------------------------

  class SurveyPage {
    var participantName: string
    var activityCategories: seq<ActivityCategory>
    var suggestedActivity: string
    /** The last `router.push` target, if any. */
    var route: Option<string>
    const storage: LocalStorage
    const codec: Codec

    constructor (storage: LocalStorage, codec: Codec)
      ensures participantName == "" && activityCategories == InitialCategories()
      ensures suggestedActivity == "" && route == None
      ensures this.storage == storage && this.codec == codec
    {
      this.storage := storage;
      this.codec := codec;
      participantName := "";
      activityCategories := InitialCategories();
      suggestedActivity := "";
      route := None;
    }

    /** What a submit at `timestamp` would store. */
    function Submission(timestamp: string): (p: SurveyPayload)
      reads this
      ensures p.participantName == participantName && p.suggestedActivity == suggestedActivity
      ensures forall s :: s in p.selectedActivities <==>
        exists i, j :: 0 <= i < |activityCategories| && 0 <= j < |activityCategories[i].activities|
          && activityCategories[i].activities[j].selected
          && s == Selection(activityCategories[i].name, activityCategories[i].activities[j].name)
    {
      forall s ensures s in SelectedActivities(activityCategories) <==>
        exists i, j :: 0 <= i < |activityCategories| && 0 <= j < |activityCategories[i].activities|
          && activityCategories[i].activities[j].selected
          && s == Selection(activityCategories[i].name, activityCategories[i].activities[j].name)
      {
        SelectedMembership(activityCategories, s);
      }
      SurveyPayload(participantName, SelectedActivities(activityCategories), suggestedActivity, timestamp)
    }

    /** The mount effect reading the participant name. */
    method LoadParticipantName()
      modifies this
      ensures participantName == ResolvedName(storage.GetItem(SurveyParticipantKey))
      ensures activityCategories == old(activityCategories) && suggestedActivity == old(suggestedActivity)
      ensures route == old(route)
    {
      var storedName := storage.GetItem(SurveyParticipantKey);
      if storedName.Some? && storedName.value != "" {
        participantName := storedName.value;
      } else {
        participantName := PlaceholderName;
      }
    }

    method ToggleCategory(categoryId: string)
      modifies this
      ensures activityCategories == ToggleCategoryIn(old(activityCategories), categoryId)
      ensures participantName == old(participantName) && suggestedActivity == old(suggestedActivity)
      ensures route == old(route)
    {
      activityCategories := ToggleCategoryIn(activityCategories, categoryId);
    }

    method ToggleActivity(categoryId: string, activityId: string)
      modifies this
      ensures activityCategories == ToggleActivityIn(old(activityCategories), categoryId, activityId)
      ensures participantName == old(participantName) && suggestedActivity == old(suggestedActivity)
      ensures route == old(route)
    {
      activityCategories := ToggleActivityIn(activityCategories, categoryId, activityId);
    }

    /** The text box's `onChange`. */
    method SetSuggestedActivity(text: string)
      modifies this
      ensures suggestedActivity == text
      ensures participantName == old(participantName) && activityCategories == old(activityCategories)
      ensures route == old(route)
    {
      suggestedActivity := text;
    }

    /** "Add": clears the box unless it holds only whitespace. */
    method AddSuggestedActivity()
      modifies this
      ensures IsBlank(old(suggestedActivity)) ==> suggestedActivity == old(suggestedActivity)
      ensures !IsBlank(old(suggestedActivity)) ==> suggestedActivity == ""
      ensures participantName == old(participantName) && activityCategories == old(activityCategories)
      ensures route == old(route)
    {
      TrimEmptyIffBlank(suggestedActivity);
      if Trim(suggestedActivity) != "" {
        suggestedActivity := "";
      }
    }

    /**
     * Submit: overwrites the single survey record with the current name,
     * selection and untrimmed suggestion, then navigates to the success page.
     */
    method HandleSubmit(timestamp: string)
      modifies this, storage
      ensures storage.items == old(storage.items)[SurveyDataKey := codec.stringify(PayloadJson(old(Submission(timestamp))))]
      ensures participantName == old(participantName) && activityCategories == old(activityCategories)
      ensures suggestedActivity == old(suggestedActivity)
      ensures route == Some(SuccessRoute)
    {
      var selectedActivities := SelectedActivities(activityCategories);
      var payload := SurveyPayload(participantName, selectedActivities, suggestedActivity, timestamp);
      storage.SetItem(SurveyDataKey, codec.stringify(PayloadJson(payload)));
      route := Some(SuccessRoute);
    }
  }

  /** Reading the record back through the codec yields the submitted payload. */
  lemma StoredSubmissionReadsBack(p: SurveyPayload, codec: Codec)
    requires Faithful(codec)
    ensures var j := codec.parse(codec.stringify(PayloadJson(p)));
      j.Some? && PayloadFromJson(j.value) == Some(p)
  {
    PayloadRoundTrip(p);
  }
}
