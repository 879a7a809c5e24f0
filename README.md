# Day-program companion app: page logic in Dafny

This project models the state logic of four pages of a small Next.js app used
in a day programme for participants:

- **Check-in** (`CheckIn`, checkin.dfy). Staff tick participants in and out.
  Every toggle rewrites an id → flag map in local storage. Checking someone in
  offers them the activity survey, unless that person is the one excluded
  participant. "Take survey" stores their name and navigates to the survey. On
  mount the saved flags are restored.
- **Activity survey** (`ActivitySurvey`, survey.dfy). This is a category →
  activity tree with independent expand and select flags, plus a free-text
  suggestion. Submitting flattens the selection into ordered
  `{category, activity}` pairs. It stores one payload record and navigates to
  the success page.
- **Profile** (`Profile`, profile.dfy). Three string lists (activities, goals,
  hobbies) are edited through one modal. The modal is in add mode or in edit
  mode at an index. Items are deleted by position.
- **Dashboard** (`Dashboard`, dashboard.dfy). It shows suggested-activity
  cards as a sorted copy of a fixed list. The sort is by interest (participant
  count), by duration (the text parsed as `parseInt`, times 60 for hours) or by
  skills (title collation). The page also has the filter dropdown, the ten
  calendar years and the avatar row with its "N+" badge.

Shared browser pieces are in `Storage` (storage.dfy):

- Local storage is a class whose `items: map<string, string>` is updated in
  place and shared by all pages.
- Parsed JSON is a small `Json` datatype.
- The JSON codec is a pair of functions. The proofs need only `Faithful`:
  parsing what was stringified gives the value back, and stringified text is
  never empty.
- `String.prototype.trim` is modelled over the ECMAScript whitespace set.

Each page's component state is a class:

- `useState` fields become class fields.
- Event handlers become methods that state the whole new state.
- The expressions inside the handlers (`map`, `reduce`, `find`, `flatMap`,
  `filter`) become functions with lemmas about them.
- Loops and in-place array updates stay imperative:
  - the `reduce` accumulator loop (`BuildCheckInData`);
  - the list copy with one in-place assignment (`ReplaceInCopy`);
  - the copy-then-sort (`SortByKey`, an insertion sort in place on an array).
- `router.push` is recorded in a `route` field.

The model follows the code as written:

- The submitted `suggestedActivity` is stored untrimmed.
- The profile's add mode appends the text even when it is empty.
- A missing, empty or unparseable check-in record leaves the participant list
  as it is. The list is not reset.

## Model

| member | source | states |
|---|---|---|
| Storage.TrimEmptyIffBlank | app/activity-survey/page.tsx:105 | `s.trim()` is empty (falsy) exactly when every character of `s` is ECMAScript whitespace |
| CheckIn.InitialDirectory | app/checkin/page.tsx:25-74 | the seed directory has eight participants with distinct ids, none checked in |
| CheckIn.ToggleAll | app/checkin/page.tsx:102-104 | the toggled list keeps length, order, ids, names and avatars; entries with another id are unchanged; entries with the id have their flag negated |
| CheckIn.ToggleTwiceIsIdentity | app/checkin/page.tsx:102-104 | toggling the same id twice restores the original list |
| CheckIn.Find | app/checkin/page.tsx:118-119 | `find` by id is absent exactly when no participant has the id; when present it is the first list entry with that id (no earlier entry has it) |
| CheckIn.FindUnique | app/checkin/page.tsx:118-119 | with unique ids, `find` returns the participant at that id's position |
| CheckIn.FindAfterToggle | app/checkin/page.tsx:118-119 | `find` on the updated list returns the flipped version of what `find` returned on the previous list |
| CheckIn.NextOffer | app/checkin/page.tsx:118-123 | the offer opens, replacing any offer shown, with the now checked-in participant exactly when that participant was not checked in before and is not "Luke Carter"; otherwise the popup state is unchanged |
| CheckIn.CheckOutNeverOffers | app/checkin/page.tsx:118-123 | a true → false toggle never changes the popup state |
| CheckIn.ExcludedNeverOffered | app/checkin/page.tsx:120-123 | any offer a toggle opens is for a checked-in participant other than "Luke Carter" |
| CheckIn.CheckInDataKeys | app/checkin/page.tsx:107-113 | the reduced map has exactly one key per participant id |
| CheckIn.CheckInDataValues | app/checkin/page.tsx:107-113 | with unique ids, each participant's entry in the map is that participant's flag |
| CheckIn.BuildCheckInData | app/checkin/page.tsx:107-113 | the accumulator loop builds exactly the map the `reduce` denotes |
| CheckIn.PersistedAgrees | app/checkin/page.tsx:107-115 | parsing the stored record gives an object with one field per participant id holding that participant's new flag |
| CheckIn.ApplySaved | app/checkin/page.tsx:86-91 | restoring keeps the directory and sets each flag to the truthiness of the saved entry for its id (an absent entry gives false) |
| CheckIn.LoadedParticipants | app/checkin/page.tsx:79-96 | the directory is kept; an absent, empty or unparseable record leaves every flag as it was |
| CheckIn.ReloadRestoresFlags | app/checkin/page.tsx:79-115 | a record written after a toggle, loaded into the same directory, reproduces exactly the written flags |
| CheckIn.CheckedInCount | app/checkin/page.tsx:237 | the count is at most the list length; it is 0 exactly when nobody is checked in, and the full length exactly when everybody is |
| CheckIn.ToggleMovesCountByOne | app/checkin/page.tsx:102-104 | toggling a present participant moves the checked-in count down by one if they were checked in, up by one otherwise |
| CheckIn.CheckInPage.constructor | app/checkin/page.tsx:21-76 | the page starts with the seed list, no popup and no selected participant |
| CheckIn.CheckInPage.LoadCheckIns | app/checkin/page.tsx:79-97 | the mount effect replaces the list by the loaded list and leaves the popup alone |
| CheckIn.CheckInPage.ToggleCheckIn | app/checkin/page.tsx:100-127 | the list becomes the toggled list; storage gains the record for the new list and nothing else changes in it; the popup follows `NextOffer` judged on the previous list; ids stay unique, the popup flag stays in step with the selected participant, and the selected participant is never "Luke Carter" |
| CheckIn.CheckInPage.ClosePopup | app/checkin/page.tsx:130-133 | the popup is hidden and no participant is selected; the list is unchanged |
| CheckIn.CheckInPage.StartSurvey | app/checkin/page.tsx:136-141 | storage gains the selected participant's name, or "" when none is selected; the popup closes; the route becomes "/activity-survey" |
| ActivitySurvey.ToggleCategoryIn | app/activity-survey/page.tsx:81-87 | only the matching category's expand flag flips; every activity and every other category is unchanged |
| ActivitySurvey.FlipActivity | app/activity-survey/page.tsx:94-96 | only the matching activity's selected flag flips; ids and names are unchanged |
| ActivitySurvey.ToggleActivityIn | app/activity-survey/page.tsx:89-102 | only the matching activity of the matching category flips; every expand flag and every other category is unchanged |
| ActivitySurvey.ToggleCategoryTwice | app/activity-survey/page.tsx:81-87 | expanding the same category twice is the identity |
| ActivitySurvey.ToggleActivityTwice | app/activity-survey/page.tsx:89-102 | selecting the same activity twice is the identity |
| ActivitySurvey.SelectedInMembership | app/activity-survey/page.tsx:117-119 | a pair is in one category's contribution exactly when it names that category and a selected activity of it |
| ActivitySurvey.SelectedMembership | app/activity-survey/page.tsx:115-120 | a pair is submitted exactly when some category has that name and holds a selected activity with that name |
| ActivitySurvey.SelectedInLength | app/activity-survey/page.tsx:117-119 | one category contributes one pair per selected activity |
| ActivitySurvey.SelectedLength | app/activity-survey/page.tsx:115-120 | the submitted list has one entry per selected activity over all categories |
| ActivitySurvey.SelectedKeepsCategoryOrder | app/activity-survey/page.tsx:115-120 | flattening distributes over concatenation of categories, so category order is kept |
| ActivitySurvey.SelectedKeepsActivityOrder | app/activity-survey/page.tsx:117-119 | within a category, activity order is kept |
| ActivitySurvey.ExpandKeepsSelection | app/activity-survey/page.tsx:115-120 | expanding or collapsing a category never changes what is submitted |
| ActivitySurvey.NothingSelectedSendsNothing | app/activity-survey/page.tsx:113-133 | the submitted list is empty exactly when no activity is selected; the submit itself has no precondition |
| ActivitySurvey.SingleSelectionExample | app/activity-survey/page.tsx:115-120 | selecting only "Drawing a self-portrait" in the seed tree submits exactly the pair (Art, Drawing a self-portrait) |
| ActivitySurvey.SelectionsRoundTrip | app/activity-survey/page.tsx:125-130 | reading the encoded pairs back gives the same pairs |
| ActivitySurvey.PayloadRoundTrip | app/activity-survey/page.tsx:125-130 | reading the encoded payload back gives the same name, pairs, untrimmed suggestion and timestamp |
| ActivitySurvey.StoredSubmissionReadsBack | app/activity-survey/page.tsx:125-130 | through a faithful codec, the stored record parses and decodes to exactly the submitted payload |
| ActivitySurvey.ResolvedName | app/activity-survey/page.tsx:29-37 | the shown name is never empty: it is the stored name when that is non-empty, "Participant" otherwise |
| ActivitySurvey.SurveyPage.constructor | app/activity-survey/page.tsx:26 | the page starts with no name, the seed tree and an empty suggestion |
| ActivitySurvey.SurveyPage.Submission | app/activity-survey/page.tsx:115-130 | the payload carries the current name and untrimmed suggestion, and a pair exactly for each selected activity with its category's name |
| ActivitySurvey.SurveyPage.LoadParticipantName | app/activity-survey/page.tsx:29-37 | the name becomes the resolved stored name; nothing else changes |
| ActivitySurvey.SurveyPage.ToggleCategory | app/activity-survey/page.tsx:81-87 | the tree becomes the category-toggled tree; nothing else changes |
| ActivitySurvey.SurveyPage.ToggleActivity | app/activity-survey/page.tsx:89-102 | the tree becomes the activity-toggled tree; nothing else changes |
| ActivitySurvey.SurveyPage.SetSuggestedActivity | app/activity-survey/page.tsx:227 | the suggestion becomes the typed text; nothing else changes |
| ActivitySurvey.SurveyPage.AddSuggestedActivity | app/activity-survey/page.tsx:104-111 | an all-whitespace suggestion is left as it is; any other is cleared to "" |
| ActivitySurvey.SurveyPage.HandleSubmit | app/activity-survey/page.tsx:113-134 | storage gains exactly one record (overwriting any earlier one): the encoded payload of the state before the call; the route becomes the success page |
| Profile.DropIndex | app/profile/page.tsx:93-101 | filtering by position removes exactly the element at an in-range index and keeps the rest in order; an out-of-range index keeps the list |
| Profile.DropIndexShifts | app/profile/page.tsx:93-101 | after a delete, earlier items keep their positions and later items move down by one |
| Profile.ReplaceInCopy | app/profile/page.tsx:66-69 | the copy has the same length, the new text at the index and every other position as before |
| Profile.EditedList | app/profile/page.tsx:64-89 | edit mode replaces one position and keeps the length; add mode appends the text, however blank, growing the list by one |
| Profile.ProfilePage.constructor | app/profile/page.tsx:11-37 | the page starts with the name "Connor", the seed lists and a closed, empty editor |
| Profile.ProfilePage.LoadParticipantName | app/profile/page.tsx:40-45 | a non-empty stored name replaces the shown name; otherwise it is kept; the lists and the editor are unchanged |
| Profile.ProfilePage.StartEditing | app/profile/page.tsx:48-54 | the editor opens on the section, in add mode without an index and in edit mode with one; the text is `currentText` or ""; the lists are unchanged |
| Profile.ProfilePage.SetEditingText | app/profile/page.tsx:373 | the edit text becomes the typed text; nothing else changes |
| Profile.ProfilePage.CancelEditing | app/profile/page.tsx:56-62 | the editor is reset (no section, no index, empty text, popup closed); the lists are unchanged |
| Profile.ProfilePage.SaveEdit | app/profile/page.tsx:64-91 | only the list named by the section becomes the edited list (an unknown or absent section changes none); then the editor is reset |
| Profile.ProfilePage.DeleteItem | app/profile/page.tsx:93-101 | only the named section's list loses the item at the index; the other lists and the editor are unchanged |
| Dashboard.ParseIntReadsNumeral | app/page.tsx:182 | `parseInt` reads back the decimal text of any natural number followed by any text that does not start with a digit; only "0" followed by `x` or `X` (a hexadecimal prefix) is excluded |
| Dashboard.ParseUnsignedNumeral | app/page.tsx:182 | the unsigned part of `parseInt` reads the decimal text of a natural number back as that number |
| Dashboard.NumeralValue | app/page.tsx:182 | the digits of a number's decimal text denote that number |
| Dashboard.DurationOfHours | app/page.tsx:180-183 | a duration "N hour" converts to 60·N minutes |
| Dashboard.DurationOfMinutes | app/page.tsx:180-184 | a duration "N min" does not mention "hour" and converts to N minutes |
| Dashboard.SortByKey | app/page.tsx:172-191 | the in-place sort leaves the array ordered by the comparator's key and a permutation of what it held |
| Dashboard.FilteredActivities | app/page.tsx:169-196 | the result is a permutation of the list. "By Interest Level" orders participants non-increasing, "By Duration" orders minutes non-decreasing and "By Skills" orders by title rank. Any other filter keeps the declared order |
| Dashboard.DashboardPage.GetFilteredActivities | app/page.tsx:169-196 | the cards rendered for the selected filter are the fixed list reordered as above |
| Dashboard.Years | app/page.tsx:161 | ten years, starting at 2021, each one more than the previous |
| Dashboard.YearsRange | app/page.tsx:161 | the year picker offers exactly 2021..2030, strictly increasing |
| Dashboard.ShownAvatars | app/page.tsx:293 | at most three avatars are drawn: the first min(3, n) of the enrolled list |
| Dashboard.OverflowBadge | app/page.tsx:304-308 | the badge appears exactly when more than three take part and shows participants − 3 (at least 1) |
| Dashboard.AvatarRowCountsEveryone | app/page.tsx:293-308 | when a card lists one avatar per participant, drawn avatars plus the badge count account for every participant |
| Dashboard.SeedAvatarsMatchParticipants | app/page.tsx:10-61 | every card of the fixed list lists one avatar per participant |
| Dashboard.DashboardPage.constructor | app/page.tsx:121-124 | the filter starts as "By Interest Level" with the dropdown closed |
| Dashboard.DashboardPage.ToggleFilterDropdown | app/page.tsx:250 | the filter button flips the dropdown and keeps the filter |
| Dashboard.DashboardPage.HandleFilterSelect | app/page.tsx:163-166 | choosing a filter records it and closes the dropdown |

## Left out

- JSX rendering, CSS, icons, images and links: presentation with no logic. The sidebar, the loading screen and the root layout are not part of this model.
- Local storage and the JSON codec are foreign. Storage is a shared string map. The codec is a pair of functions, and only its round-trip law is assumed (`Faithful`).
- `router.push` is a framework call. Only its target is recorded, in a `route` field.
- Dates: the dashboard's current date, month and year setters and `toLocaleDateString`, and the survey timestamp. The timestamp is a parameter of `HandleSubmit`.
- The attendance percentage on the check-in page: it is floating-point arithmetic. The count it is built from is modelled.
- The profile colour picker: it stores an arbitrary string with no logic.
- The survey success page: it repeats the stored-name-or-"Participant" rule of `ResolvedName` and navigates.
- Document click-outside listeners (they close the dropdowns), React effect timing and state batching: event wiring. Each handler is one atomic step.
- `console.log` and `console.error`.
- CheckIn.ApplySaved: a truthy saved value that is not a boolean is restored as `true`. JavaScript would keep the raw value in `isCheckedIn`.
- CheckIn.LoadedParticipants: a parsed record that is not an object is treated as having no entries, so every flag becomes false. In JavaScript, string and array records are indexed by position. A `null` record throws a `TypeError` inside the state updater, outside the `try`.
- Profile.ReplaceInCopy: the index must lie inside the list. JavaScript would extend the array with holes for a larger index; only `SaveEdit` calls it.
- Profile.EditedList: in edit mode the index must lie inside the list, for the same reason as `ReplaceInCopy`.
- Profile.ProfilePage.SaveEdit: in edit mode the index must lie inside the list. JavaScript would extend the array with holes for a larger index. The page never calls `startEditing` with an index, so edit mode is reachable only by a direct call.
- Dashboard.DurationKey: an unparseable duration (NaN) is given the key 0. JavaScript's sort treats a NaN comparison as "equal" to everything, and no fixed key reproduces that. All durations in the fixed list parse.
- Dashboard.FilteredActivities: the stability of `Array.prototype.sort`, meaning that equal keys keep their declared order, is not stated. Only sortedness and permutation are.
- Dashboard.FilteredActivities: "By Skills" uses `localeCompare`, which depends on the locale. It is modelled as ordering by an integer rank of titles, passed as a parameter. Any collation of the five fixed titles is such a rank.
- Dashboard.DashboardPage.GetFilteredActivities: it inherits the gaps of `FilteredActivities`. Sort stability is not stated, so the contract leaves open the order of the tied "By Duration" cards of the fixed list (two "1 hour", two "45 min"), which JavaScript's stable sort fixes to the declared order. A NaN duration is given the key 0, and "By Skills" is ordered by a title rank parameter.
- Dashboard.ParseIntReadsNumeral: the loss of precision in `parseInt` beyond 2^53 is not modelled. Integers are unbounded.
