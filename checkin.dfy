/**
 * The check-in page: a directory of participants whose check-in flags are
 * toggled one at a time, mirrored into local storage as an id -> bool map,
 * and a survey offer that opens on a participant's false -> true edge.
 */
module CheckIn {
  import opened Storage

  /** The one participant for whom the survey is never offered. */
  const ExcludedName: string := "Luke Carter"
  const SurveyRoute: string := "/activity-survey"

  datatype Participant = Participant(id: string, name: string, avatar: string, isCheckedIn: bool)

  /** The survey-offer popup: hidden, or shown for one participant. */
  datatype Offer = Idle | OfferShown(participant: Participant)

  /** The seed directory the page starts from. */
  function InitialParticipants(): seq<Participant> {
    [ Participant("1", "Luke Carter", "/guy9.png", false),
      Participant("2", "Jack Hughes", "/guy2.jpg", false),
      Participant("3", "Hans Beckham", "/guy6.png", false),
      Participant("4", "Mary Jarris", "/girl1.png", false),
      Participant("5", "Hilary Canes", "/girl2.jpg", false),
      Participant("6", "McArthur Jin", "/guy5.jpg", false),
      Participant("7", "Harry Zhang", "/guy8.png", false),
      Participant("8", "Connor Douglas", "/guy7.png", false) ]
  }

  /** The seed directory: eight participants, distinct ids, nobody checked in. */
  lemma InitialDirectory()
    ensures |InitialParticipants()| == 8 && UniqueIds(InitialParticipants())
    ensures CheckedInCount(InitialParticipants()) == 0
  {
  }

  predicate UniqueIds(ps: seq<Participant>) {
    forall i, j :: 0 <= i < j < |ps| ==> ps[i].id != ps[j].id
  }

  function Ids(ps: seq<Participant>): set<string> {
    set p | p in ps :: p.id
  }

  /** Same participants position by position, check-in flags aside. */
  predicate SameDirectory(a: seq<Participant>, b: seq<Participant>) {
    && |a| == |b|
    && forall i :: 0 <= i < |a| ==>
         a[i].id == b[i].id && a[i].name == b[i].name && a[i].avatar == b[i].avatar
  }

  // ---------------------------------------------------------------------
  // Toggling one participant
  // ---------------------------------------------------------------------

  /** The `map` in `toggleCheckIn`: flips the flag of every entry with `id`. */
  function ToggleAll(ps: seq<Participant>, id: string): (qs: seq<Participant>)
    ensures SameDirectory(ps, qs)
    ensures forall i :: 0 <= i < |ps| && ps[i].id != id ==> qs[i] == ps[i]
    ensures forall i :: 0 <= i < |ps| && ps[i].id == id ==> qs[i].isCheckedIn == !ps[i].isCheckedIn
  {
    seq(|ps|, i requires 0 <= i < |ps| =>
      if ps[i].id == id then ps[i].(isCheckedIn := !ps[i].isCheckedIn) else ps[i])
  }

  /** Toggling the same id twice gives the original list back. */
  lemma ToggleTwiceIsIdentity(ps: seq<Participant>, id: string)
    ensures ToggleAll(ToggleAll(ps, id), id) == ps
  {
    var qs := ToggleAll(ToggleAll(ps, id), id);
    forall i | 0 <= i < |ps| ensures qs[i] == ps[i] {
      if ps[i].id == id {
        assert qs[i].isCheckedIn == ps[i].isCheckedIn;
      }
    }
  }

  lemma ToggleTail(ps: seq<Participant>, id: string)
    requires ps != []
    ensures ToggleAll(ps, id)[1..] == ToggleAll(ps[1..], id)
  {
  }

  lemma ToggleAbsent(ps: seq<Participant>, id: string)
    requires id !in Ids(ps)
    ensures ToggleAll(ps, id) == ps
  {
    forall i | 0 <= i < |ps| ensures ToggleAll(ps, id)[i] == ps[i] {
      assert ps[i] in ps;
    }
  }

  /** `Array.prototype.find` by id: the first participant with that id. */
  function Find(ps: seq<Participant>, id: string): (r: Option<Participant>)
    ensures r.None? <==> id !in Ids(ps)
    ensures r.Some? ==> r.value in ps && r.value.id == id
    ensures r.Some? ==> exists k :: 0 <= k < |ps| && ps[k] == r.value && forall j :: 0 <= j < k ==> ps[j].id != id
  {
    if ps == [] then None
    else if ps[0].id == id then Some(ps[0])
    else
      assert Ids(ps) == {ps[0].id} + Ids(ps[1..]) by {
        assert ps == [ps[0]] + ps[1..];
      }
      Find(ps[1..], id)
  }

  /** With unique ids, `find` returns the participant at the id's position. */
  lemma {:induction false} FindUnique(ps: seq<Participant>, k: nat)
    requires UniqueIds(ps) && k < |ps|
    ensures Find(ps, ps[k].id) == Some(ps[k])
  {
    if k > 0 {
      FindUnique(ps[1..], k - 1);
    }
  }

  /** `find` on the toggled list sees the toggled version of the same entry. */
  lemma {:induction false} FindAfterToggle(ps: seq<Participant>, id: string)
    ensures Find(ToggleAll(ps, id), id) ==
      match Find(ps, id)
      case None => None
      case Some(p) => Some(p.(isCheckedIn := !p.isCheckedIn))
  {
    if ps != [] && ps[0].id != id {
      ToggleTail(ps, id);
      FindAfterToggle(ps[1..], id);
    }
  }

  /**
   * The condition in `toggleCheckIn`, judged on the previous and the updated
   * list: the offered participant, if any.
   */
  function OfferedParticipant(prev: seq<Participant>, updated: seq<Participant>, id: string): Option<Participant> {
    var participant := Find(prev, id);
    var newParticipant := Find(updated, id);
    if && participant.Some? && !participant.value.isCheckedIn
       && newParticipant.Some? && newParticipant.value.isCheckedIn
       && newParticipant.value.name != ExcludedName
    then newParticipant
    else None
  }

  /**
   * The offer after `toggleCheckIn(id)`. It opens (replacing any offer
   * already shown) exactly when the participant with `id` was not checked in
   * before the toggle and is not the excluded participant; otherwise the
   * popup state is left as it was.
   */
  function NextOffer(offer: Offer, prev: seq<Participant>, id: string): (next: Offer)
    ensures var p := Find(prev, id);
      if p.Some? && !p.value.isCheckedIn && p.value.name != ExcludedName
      then next == OfferShown(p.value.(isCheckedIn := true))
      else next == offer
  {
    FindAfterToggle(prev, id);
    match OfferedParticipant(prev, ToggleAll(prev, id), id)
    case Some(p) => OfferShown(p)
    case None => offer
  }

  /** Checking out (a true -> false toggle) never touches the popup. */
  lemma CheckOutNeverOffers(offer: Offer, ps: seq<Participant>, k: nat)
    requires UniqueIds(ps) && k < |ps| && ps[k].isCheckedIn
    ensures NextOffer(offer, ps, ps[k].id) == offer
  {
    FindUnique(ps, k);
  }

  /** No toggle ever opens an offer for the excluded participant. */
  lemma ExcludedNeverOffered(offer: Offer, ps: seq<Participant>, id: string)
    requires NextOffer(offer, ps, id) != offer
    ensures NextOffer(offer, ps, id).OfferShown?
    ensures NextOffer(offer, ps, id).participant.name != ExcludedName
    ensures NextOffer(offer, ps, id).participant.isCheckedIn
  {
  }

  // ---------------------------------------------------------------------
  // The persisted id -> bool map
  // ---------------------------------------------------------------------

  /** The `reduce` in `toggleCheckIn`: later entries overwrite earlier ones. */
  function CheckInData(ps: seq<Participant>): map<string, bool> {
    if ps == [] then map[]
    else CheckInData(ps[..|ps| - 1])[ps[|ps| - 1].id := ps[|ps| - 1].isCheckedIn]
  }

  /** The map has one key per participant id, and no other. */
  lemma {:induction false} CheckInDataKeys(ps: seq<Participant>)
    ensures CheckInData(ps).Keys == Ids(ps)
  {
    if ps != [] {
      var init := ps[..|ps| - 1];
      CheckInDataKeys(init);
      assert ps == init + [ps[|ps| - 1]];
      assert Ids(ps) == Ids(init) + {ps[|ps| - 1].id};
    }
  }

  /** With unique ids, each participant's entry is its own flag. */
  lemma {:induction false} CheckInDataValues(ps: seq<Participant>)
    requires UniqueIds(ps)
    ensures forall i :: 0 <= i < |ps| ==> ps[i].id in CheckInData(ps) && CheckInData(ps)[ps[i].id] == ps[i].isCheckedIn
  {
    if ps != [] {
      var init := ps[..|ps| - 1];
      CheckInDataValues(init);
      forall i | 0 <= i < |ps| ensures ps[i].id in CheckInData(ps) && CheckInData(ps)[ps[i].id] == ps[i].isCheckedIn {
        if i < |ps| - 1 {
          assert init[i] == ps[i];
        }
      }
    }
  }

  /** The accumulator loop of the `reduce`, filling `acc[id]` entry by entry. */
  method BuildCheckInData(ps: seq<Participant>) returns (acc: map<string, bool>)
    ensures acc == CheckInData(ps)
  {
    acc := map[];
    var i := 0;
    while i < |ps|
      invariant 0 <= i <= |ps|
      invariant acc == CheckInData(ps[..i])
    {
      assert ps[..i + 1][..i] == ps[..i];
      acc := acc[ps[i].id := ps[i].isCheckedIn];
      i := i + 1;
    }
    assert ps[..|ps|] == ps;
  }

  /** The JSON object that `JSON.stringify` receives. */
  function CheckInJson(m: map<string, bool>): Json {
    JObj(map k | k in m :: JBool(m[k]))
  }

  /** What storage holds under the check-in key after a toggle leaves `ps`. */
  function PersistedCheckIns(ps: seq<Participant>, codec: Codec): string {
    codec.stringify(CheckInJson(CheckInData(ps)))
  }

  /**
   * Reading the record back gives an object with one field per participant
   * id, holding that participant's flag.
   */
  lemma PersistedAgrees(ps: seq<Participant>, codec: Codec)
    requires Faithful(codec) && UniqueIds(ps)
    ensures var j := codec.parse(PersistedCheckIns(ps, codec));
      && j.Some? && j.value.JObj? && j.value.fields.Keys == Ids(ps)
      && forall i :: 0 <= i < |ps| ==> j.value.fields[ps[i].id] == JBool(ps[i].isCheckedIn)
  {
    CheckInDataKeys(ps);
    CheckInDataValues(ps);
  }

  // ---------------------------------------------------------------------
  // Restoring the flags on mount
  // ---------------------------------------------------------------------

  /** Each flag becomes `checkInData[id] || false`, read as a truth value. */
  function ApplySaved(ps: seq<Participant>, checkInData: Json): (qs: seq<Participant>)
    ensures SameDirectory(ps, qs)
    ensures forall i :: 0 <= i < |ps| ==> qs[i].isCheckedIn == Truthy(Lookup(checkInData, ps[i].id))
  {
    seq(|ps|, i requires 0 <= i < |ps| =>
      ps[i].(isCheckedIn := Truthy(Lookup(checkInData, ps[i].id))))
  }

  /**
   * The mount effect: an absent or empty record, or one that does not parse,
   * leaves the list as it is.
   */
  function LoadedParticipants(ps: seq<Participant>, saved: Option<string>, codec: Codec): (qs: seq<Participant>)
    ensures SameDirectory(ps, qs)
    ensures (saved.None? || saved.value == "" || codec.parse(saved.value).None?) ==> qs == ps
  {
    if saved.None? || saved.value == "" then ps
    else
      match codec.parse(saved.value)
      case None => ps
      case Some(checkInData) => ApplySaved(ps, checkInData)
  }

  /**
   * Round trip: what a toggle persists, loaded into a fresh copy of the
   * same directory, reproduces exactly the flags that were written.
   */
  lemma ReloadRestoresFlags(directory: seq<Participant>, ps: seq<Participant>, codec: Codec)
    requires Faithful(codec) && UniqueIds(ps) && SameDirectory(directory, ps)
    ensures LoadedParticipants(directory, Some(PersistedCheckIns(ps, codec)), codec) == ps
  {
    PersistedAgrees(ps, codec);
    var qs := LoadedParticipants(directory, Some(PersistedCheckIns(ps, codec)), codec);
    forall i | 0 <= i < |ps| ensures qs[i] == ps[i] {
      assert qs[i].isCheckedIn == ps[i].isCheckedIn;
    }
  }

  // ---------------------------------------------------------------------
  // The summary count
  // ---------------------------------------------------------------------

  /** `participants.filter(p => p.isCheckedIn).length`. */
  function CheckedInCount(ps: seq<Participant>): (n: nat)
    ensures n <= |ps|
    ensures n == 0 <==> forall i :: 0 <= i < |ps| ==> !ps[i].isCheckedIn
    ensures n == |ps| <==> forall i :: 0 <= i < |ps| ==> ps[i].isCheckedIn
  {
    if ps == [] then 0
    else
      var rest := CheckedInCount(ps[1..]);
      assert forall i :: 1 <= i < |ps| ==> ps[i] == ps[1..][i - 1];
      (if ps[0].isCheckedIn then 1 else 0) + rest
  }

  /** Toggling a present participant moves the count by exactly one. */
  lemma {:induction false} ToggleMovesCountByOne(ps: seq<Participant>, k: nat)
    requires UniqueIds(ps) && k < |ps|
    ensures CheckedInCount(ToggleAll(ps, ps[k].id)) ==
      if ps[k].isCheckedIn then CheckedInCount(ps) - 1 else CheckedInCount(ps) + 1
  {
    var id := ps[k].id;
    ToggleTail(ps, id);
    if k == 0 {
      assert id !in Ids(ps[1..]) by {
        forall p | p in ps[1..] ensures p.id != id {
          var j :| 0 <= j < |ps[1..]| && ps[1..][j] == p;
          assert ps[j + 1] == p;
        }
      }
      ToggleAbsent(ps[1..], id);
    } else {
      ToggleMovesCountByOne(ps[1..], k - 1);
    }
  }

  // ---------------------------------------------------------------------
  // The page component
  // ---------------------------------------------------------------------

  class CheckInPage {
    var participants: seq<Participant>
    var showSurveyPopup: bool
    var selectedParticipant: Option<Participant>
    /** The last `router.push` target, if any. */
    var route: Option<string>
    const storage: LocalStorage
    const codec: Codec

    /**
     * The popup flag and the selected participant move together, ids stay
     * unique, and the excluded participant is never the one offered the survey.
     */
    ghost predicate Valid()
      reads this
    {
      && showSurveyPopup == selectedParticipant.Some?
      && UniqueIds(participants)
      && (selectedParticipant.Some? ==> selectedParticipant.value.name != ExcludedName)
    }

    /** The popup as the two-state machine Idle / OfferShown(p). */
    function Popup(): Offer
      reads this
    {
      if showSurveyPopup && selectedParticipant.Some? then OfferShown(selectedParticipant.value) else Idle
    }

    constructor (storage: LocalStorage, codec: Codec)
      ensures Valid()
      ensures participants == InitialParticipants() && Popup() == Idle && route == None
      ensures this.storage == storage && this.codec == codec
    {
      this.storage := storage;
      this.codec := codec;
      participants := InitialParticipants();
      showSurveyPopup := false;
      selectedParticipant := None;
      route := None;
    }

    /** The mount effect that restores flags from the saved map. */
    method LoadCheckIns()
      requires Valid()
      modifies this
      ensures Valid()
      ensures participants == LoadedParticipants(old(participants), storage.GetItem(CheckInsKey), codec)
      ensures Popup() == old(Popup()) && route == old(route)
    {
      var savedCheckIns := storage.GetItem(CheckInsKey);
      if savedCheckIns.Some? && savedCheckIns.value != "" {
        var checkInData := codec.parse(savedCheckIns.value);
        if checkInData.Some? {
          participants := ApplySaved(participants, checkInData.value);
        }
        // a parse failure is logged and otherwise ignored
      }
    }

    /**
     * `toggleCheckIn(id)`: flips the participant, writes the whole map to
     * storage, and opens the offer on a rising edge judged from the
     * previous list.
     */
    method ToggleCheckIn(id: string)
      requires Valid()
      modifies this, storage
      ensures Valid()
      ensures participants == ToggleAll(old(participants), id)
      ensures storage.items == old(storage.items)[CheckInsKey := PersistedCheckIns(participants, codec)]
      ensures Popup() == NextOffer(old(Popup()), old(participants), id)
      ensures route == old(route)
    {
      var prevParticipants := participants;
      var updatedParticipants := ToggleAll(prevParticipants, id);
      var checkInData := BuildCheckInData(updatedParticipants);
      storage.SetItem(CheckInsKey, codec.stringify(CheckInJson(checkInData)));
      var participant := Find(prevParticipants, id);
      var newParticipant := Find(updatedParticipants, id);
      if && participant.Some? && !participant.value.isCheckedIn
         && newParticipant.Some? && newParticipant.value.isCheckedIn
         && newParticipant.value.name != ExcludedName
      {
        selectedParticipant := newParticipant;
        showSurveyPopup := true;
      }
      participants := updatedParticipants;
      assert UniqueIds(participants) by {
        assert SameDirectory(prevParticipants, participants);
      }
    }

    /** "Maybe later": hides the popup and forgets the participant. */
    method ClosePopup()
      requires Valid()
      modifies this
      ensures Valid()
      ensures Popup() == Idle && !showSurveyPopup && selectedParticipant == None
      ensures participants == old(participants) && route == old(route)
    {
      showSurveyPopup := false;
      selectedParticipant := None;
    }

    /**
     * "Take survey": stores the offered participant's name ("" when there
     * is none), closes the popup and navigates to the survey.
     */
    method StartSurvey()
      requires Valid()
      modifies this, storage
      ensures Valid()
      ensures storage.items == old(storage.items)[SurveyParticipantKey :=
        if old(selectedParticipant).Some? then old(selectedParticipant).value.name else ""]
      ensures Popup() == Idle && participants == old(participants)
      ensures route == Some(SurveyRoute)
    {
      var name := if selectedParticipant.Some? then selectedParticipant.value.name else "";
      storage.SetItem(SurveyParticipantKey, name);
      ClosePopup();
      route := Some(SurveyRoute);
    }
  }
}
