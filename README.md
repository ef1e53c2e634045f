# Planto plant list — a Dafny model

Planto is a small iOS app that keeps a list of houseplants and whether each
was watered today. This project models its logic:

- the value types of `Planto/Model/Plant.swift`: the four closed enumerations
  `Room`, `LightLevel`, `WateringFrequency` and `Water` (each with string raw
  values, `allCases`, `init?(rawValue:)` and `id`), and the `Plant` record;
- the add/edit sheet's `PlantFormState` (`Planto/ViewModel/PlantFormState.swift`):
  the blank form, the form filled from a plant, and `buildPlant`, which trims
  the text fields, picks the identifier and decides the done flag;
- the view model `PlantListViewModel` (`Planto/ViewModel/PlantListViewModel.swift`):
  a class whose `plants` field (a `seq<Plant>`) is changed in place by `Add`,
  `Update`, `Delete` and `ToggleDone`, with the read-only counters
  `CompletedCount`, `TotalCount` and `AllDone`;
- the save and delete dispatch of `Planto/View/PlantListView.swift`, which is
  where the edit semantics (keep the identifier, keep the done flag) come from.

Files: `wrappers.dfy` (Swift optionals), `text.dfy` (whitespace trimming),
`plant.dfy`, `plant_form_state.dfy`, `plant_list_view_model.dfy`,
`plant_list_view.dfy`. The last one ends with `TodaySession`, a client that
replays a short session (add, water, add, water, delete) in three phases and
checks the counters after each step from the contracts alone.

Each mutating method of the class states its new `plants` as a function of the
old one (`Updated`, `WithoutId`, `ToggledAtFirst`). Those functions state what
they do without reference to their bodies (first match, every match, length,
membership), and the lemmas relate them: toggling twice restores the list,
deleting twice equals deleting once, deletion keeps the survivors' order,
toggling moves the done count by exactly one, and the operations keep
identifiers unique when they were.

Choices where the source files disagree:

- `Plant.swift:50` declares `waterAmount: Water`, while `PlantFormState.swift:24,34`
  and `PlantRow.swift:49` use a string field `waterAmountLabel`. The model's
  `Plant` carries the string label, as the builder and the row do. The `Water`
  enumeration is still modelled with its raw values.
- The blank form's label `"20–50 ml"` (`PlantFormState.swift:15`) is written with
  an en dash; `Water.quarter` is `"20-50 ml"` with a hyphen. The lemma
  `DefaultWaterLabelIsNoWaterCase` shows the default label parses to no `Water` case.
- Identifiers are not checked for uniqueness by `add`; the model follows the
  code: `Update` and `ToggleDone` act on the first match, `Delete` on every
  match. Uniqueness is a predicate (`UniqueIds`) the lemmas show is kept.
- `add` stores the record as given, done flag included; a new record is not
  done because the add path of `buildPlant` sets the flag to false
  (`AddPathNotDone`), not because `add` resets it.

## Model

| member | source | states |
|---|---|---|
| `PlantModel.ParseRoom` | Planto/Model/Plant.swift:10-15 | `Room(rawValue:)` gives a case only for that case's raw value, and none when no case has the string as raw value |
| `PlantModel.AllRooms` | Planto/Model/Plant.swift:10-15 | `Room.allCases` has 5 cases with pairwise distinct raw values |
| `PlantModel.Room.Id` | Planto/Model/Plant.swift:16 | `id` is the raw value and parses back to the same case |
| `PlantModel.ParseLightLevel` | Planto/Model/Plant.swift:19-22 | `LightLevel(rawValue:)` gives a case only for that case's raw value, none otherwise |
| `PlantModel.AllLightLevels` | Planto/Model/Plant.swift:19-22 | `LightLevel.allCases` has 3 cases with pairwise distinct raw values |
| `PlantModel.LightLevel.Id` | Planto/Model/Plant.swift:23 | `id` is the raw value and parses back to the same case |
| `PlantModel.ParseWateringFrequency` | Planto/Model/Plant.swift:26-32 | `WateringFrequency(rawValue:)` gives a case only for that case's raw value, none otherwise |
| `PlantModel.AllWateringFrequencies` | Planto/Model/Plant.swift:26-32 | `WateringFrequency.allCases` has 6 cases with pairwise distinct raw values |
| `PlantModel.WateringFrequency.Id` | Planto/Model/Plant.swift:33 | `id` is the raw value and parses back to the same case |
| `PlantModel.ParseWater` | Planto/Model/Plant.swift:36-40 | `Water(rawValue:)` gives a case only for that case's raw value, none otherwise |
| `PlantModel.AllWaters` | Planto/Model/Plant.swift:36-40 | `Water.allCases` has 4 cases with pairwise distinct raw values |
| `PlantModel.Water.Id` | Planto/Model/Plant.swift:41 | `id` is the raw value and parses back to the same case |
| `PlantModel.AllCasesAreListed` | Planto/Model/Plant.swift:10-42 | each enumeration is closed: every value of it appears in its `allCases` |
| `PlantModel.NewPlant` | Planto/Model/Plant.swift:54-71 | the memberwise init stores every argument unchanged in its field; the done flag defaults to false |
| `PlantModel.NewPlantNotDone` | Planto/Model/Plant.swift:62 | a plant made without an explicit done flag is not done |
| `PlantModel.Plant.WithDoneToggled` | Planto/ViewModel/PlantListViewModel.swift:44 | `isDoneToday.toggle()` negates the done flag and leaves every other field, the id included, as it was |
| `PlantModel.Apply` | Planto/Model/Plant.swift:45-52 | an assignment to a `var` field sets that field to the written value (or negates the done flag for a toggle) and leaves every other field as it was, the `let` id included |
| `PlantModel.IdIsImmutable` | Planto/Model/Plant.swift:45 | no sequence of in-place field assignments changes a plant's id |
| `Text.SkipForward` | Planto/ViewModel/PlantFormState.swift:31 | the scan from a position stops at the first character outside the whitespace class, or at the end, having passed only whitespace |
| `Text.SkipBackward` | Planto/ViewModel/PlantFormState.swift:31 | the scan back from an end stops after the last character outside the whitespace class, or at the lower bound, having passed only whitespace |
| `Text.TrimBounds` | Planto/ViewModel/PlantFormState.swift:31 | everything before the start and from the end on is whitespace, and a non-empty remainder starts and ends with a non-whitespace character: exactly the surrounding whitespace is cut |
| `Text.Trim` | Planto/ViewModel/PlantFormState.swift:31 | the text between `TrimBounds`; it has no surrounding whitespace, is no longer than the input, and text without surrounding whitespace is left as it is |
| `Text.TrimIdempotent` | Planto/ViewModel/PlantFormState.swift:31 | trimming twice gives the same as trimming once |
| `PlantForm.BlankForm` | Planto/ViewModel/PlantFormState.swift:12-18 | a blank form has name "", room Bedroom, light Full sun, label "20–50 ml" and frequency Every day |
| `PlantForm.FormFrom` | Planto/ViewModel/PlantFormState.swift:20-26 | the edit form copies name, room, light, water label and frequency from the plant |
| `PlantForm.PlantFormState.BuildPlant` | Planto/ViewModel/PlantFormState.swift:28-38 | the id is the given one or else the fresh one; name and label are the form's, trimmed, with no surrounding whitespace; room, light, frequency pass through; done iff keepDone and the original is present and done |
| `PlantForm.DefaultWaterLabelIsNoWaterCase` | Planto/ViewModel/PlantFormState.swift:15 | the blank form's label is not the raw value of any `Water` case (en dash against hyphen) |
| `PlantForm.AddPathNotDone` | Planto/ViewModel/PlantFormState.swift:36 | `buildPlant()` with no arguments uses the fresh id and is never done |
| `PlantForm.EditRoundTrip` | Planto/ViewModel/PlantFormState.swift:20-38 | building from the edit form of a plant, with its id, keepDone and itself as original, gives that plant back when its name and label carry no surrounding whitespace |
| `PlantForm.EditRoundTripTrimsName` | Planto/ViewModel/PlantFormState.swift:31 | the round trip does not hold for a name ending in whitespace: the rebuilt plant differs |
| `PlantStore.FirstIndex` | Planto/ViewModel/PlantListViewModel.swift:34 | `firstIndex(where:)` finds an index exactly when some record has the id, and it is the first such index |
| `PlantStore.DoneOnes` | Planto/ViewModel/PlantListViewModel.swift:24 | the filter keeps exactly the records that are done and is no longer than the list |
| `PlantStore.Updated` | Planto/ViewModel/PlantListViewModel.swift:33-36 | same length and the same id at every position; the first record with the id is replaced by the new one and all others stay; unchanged when no record has the id |
| `PlantStore.WithoutId` | Planto/ViewModel/PlantListViewModel.swift:38-40 | keeps exactly the records whose id differs, so none with the id remains |
| `PlantStore.ToggledAtFirst` | Planto/ViewModel/PlantListViewModel.swift:42-45 | same length and the same id at every position; only the first record with the id is toggled; unchanged when no record has the id |
| `PlantStore.PlantListViewModel.constructor` | Planto/ViewModel/PlantListViewModel.swift:14 | the list starts empty |
| `PlantStore.PlantListViewModel.CompletedCount` | Planto/ViewModel/PlantListViewModel.swift:24 | the number of positions whose record is done; at most the number of records; equal to it iff every record is done; zero iff none is |
| `PlantStore.PlantListViewModel.TotalCount` | Planto/ViewModel/PlantListViewModel.swift:25 | the number of records |
| `PlantStore.PlantListViewModel.AllDone` | Planto/ViewModel/PlantListViewModel.swift:26 | true iff the list is non-empty and every record is done; so false on an empty list |
| `PlantStore.PlantListViewModel.Add` | Planto/ViewModel/PlantListViewModel.swift:29-31 | the new list is the old one with the record appended |
| `PlantStore.PlantListViewModel.Update` | Planto/ViewModel/PlantListViewModel.swift:33-36 | the new list is `Updated` of the old one |
| `PlantStore.PlantListViewModel.Delete` | Planto/ViewModel/PlantListViewModel.swift:38-40 | the new list is `WithoutId` of the old one |
| `PlantStore.PlantListViewModel.ToggleDone` | Planto/ViewModel/PlantListViewModel.swift:42-45 | the new list is `ToggledAtFirst` of the old one |
| `PlantStore.AllDoneIff` | Planto/ViewModel/PlantListViewModel.swift:24-26 | the done count equals the length iff every record is done |
| `PlantStore.NoneDoneIff` | Planto/ViewModel/PlantListViewModel.swift:24 | the done count is zero iff no record is done |
| `PlantStore.DoneOnesAppend` | Planto/ViewModel/PlantListViewModel.swift:24 | filtering a concatenation is the concatenation of the filtered parts |
| `PlantStore.DoneOnesSnoc` | Planto/ViewModel/PlantListViewModel.swift:24 | appending a record raises the done count by one exactly when it is done |
| `PlantStore.DonePositionsSnoc` | Planto/ViewModel/PlantListViewModel.swift:24 | appending a record adds one done position exactly when it is done |
| `PlantStore.CompletedCountIsNumberDone` | Planto/ViewModel/PlantListViewModel.swift:24 | the done count equals the number of positions whose record is done |
| `PlantStore.DoneCountAfterReplace` | Planto/ViewModel/PlantListViewModel.swift:24 | replacing one record moves the done count by the difference between the old and the new record |
| `PlantStore.UpdateWithSameRecord` | Planto/ViewModel/PlantListViewModel.swift:33-36 | updating a record with the value it already has changes nothing |
| `PlantStore.ToggleMovesCompletedByOne` | Planto/ViewModel/PlantListViewModel.swift:42-45 | toggling a present record lowers the done count by one if it was done, raises it by one otherwise |
| `PlantStore.ToggleTwiceRestores` | Planto/ViewModel/PlantListViewModel.swift:42-45 | toggling the same id twice gives back the original list |
| `PlantStore.DeleteMissingIsNoOp` | Planto/ViewModel/PlantListViewModel.swift:38-40 | deleting an id no record has leaves the list as it was |
| `PlantStore.DeleteIdempotent` | Planto/ViewModel/PlantListViewModel.swift:38-40 | a second delete of the same id changes nothing |
| `PlantStore.DeleteKeepsOrder` | Planto/ViewModel/PlantListViewModel.swift:39 | deleting from a concatenation deletes from each part, so survivors keep their relative order |
| `PlantStore.DeleteOne` | Planto/ViewModel/PlantListViewModel.swift:39 | a single record survives deletion iff its id differs |
| `PlantStore.DeleteUniqueRemovesOne` | Planto/ViewModel/PlantListViewModel.swift:38-40 | with unique ids, deleting a present id removes exactly one record |
| `PlantStore.AddUniqueIff` | Planto/ViewModel/PlantListViewModel.swift:29-31 | appending keeps ids unique iff the new id is not already present |
| `PlantStore.AddThenFind` | Planto/ViewModel/PlantListViewModel.swift:29-31 | after appending a record with a new id, looking that id up finds the appended record |
| `PlantStore.MutationsKeepUniqueIds` | Planto/ViewModel/PlantListViewModel.swift:33-45 | update, delete and toggle keep ids unique |
| `PlantStore.WithoutIdKeepsUniqueIds` | Planto/ViewModel/PlantListViewModel.swift:39 | deletion keeps ids unique |
| `PlantStore.SameIdsKeepUnique` | Planto/ViewModel/PlantListViewModel.swift:33-45 | a list with the same ids position by position keeps ids unique, which is why update and toggle do |
| `PlantListScreen.SavedRecord` | Planto/View/PlantListView.swift:101-107 | the add path builds with the fresh id and not done; the edit path keeps the original's id and done flag; other fields come from the form, trimmed |
| `PlantListScreen.HandleSave` | Planto/View/PlantListView.swift:101-111 | the add sheet appends the built record; the edit sheet applies `update` with it, which replaces the first record with the original's id (the original itself when ids are unique) |
| `PlantListScreen.HandleDeleteIfEditing` | Planto/View/PlantListView.swift:113-116 | the edit sheet deletes the record it was opened for; the add sheet changes nothing |
| `PlantListScreen.EditKeepsPlaceIdAndDone` | Planto/View/PlantListView.swift:106 | saving an edit replaces the first record with the original's id (the original itself when ids are unique) at its position, with the original id and done flag, and leaves all other records |
| `PlantListScreen.UnchangedEditIsNoOp` | Planto/View/PlantListView.swift:95-107 | opening the edit sheet on the first record with its id and saving without changes leaves the list as it was, when name and label carry no surrounding whitespace |
| `PlantListScreen.UnchangedEditWithRepeatedId` | Planto/View/PlantListView.swift:95-107 | when an earlier record shares the id, an unchanged edit save of the later one overwrites the earlier one, so the list changes |

## Left out

- The SwiftUI views (`PlantListView`, `PlantFormSheet`, `PlantRow`, `Glass`, `Badges`) apart from the save and delete dispatch: presentation only. The progress bar's conversion of the counts to `Double` is floating point and not modelled.
- `NotificationManager.swift` and `PlantoApp.swift`: calls into the system notification centre and app start-up, with no state the model could own.
- The `showingForm` and `formMode` fields of the view model: flags the view sets to present the sheet. `FormMode` is modelled as a datatype passed to the dispatch.
- `@Published`, `ObservableObject`, `@MainActor` and Combine: change publication on the main thread. All operations run one at a time, as calls on one object.
- `Codable`: encoding and decoding are done by the framework and not modelled. `Equatable` is the datatype's structural equality, in which strings are compared character by character (see the next line).
- ParseRoom: strings are compared one Unicode scalar at a time (as in ParseLightLevel, ParseWateringFrequency and ParseWater), while Swift's `String ==`, and so `init?(rawValue:)`, treats canonically equivalent spellings as equal. For `Room` this matters: a spelling such as `"\u{212A}itchen"` (KELVIN SIGN) parses to `.kitchen` in Swift and to no case here. The other three enumerations' raw values have no other canonically equivalent spelling. Unicode normalisation is not modelled. Record equality in `EditRoundTrip` and `UnchangedEditIsNoOp` is therefore finer than Swift's `==`, which makes those lemmas stronger, not weaker.
- `UUID()`: generation of a fresh identifier is a parameter (`freshId`). That generated identifiers differ from those in the list is not modelled; lemmas that need it take it as a precondition.
- `trimmingCharacters(in: .whitespacesAndNewlines)`: the whitespace class is a parameter `ws` (a set of characters), not Foundation's exact character set.
- `Plant.waterAmount: Water` (`Plant.swift:50`): the record carries the string label the builder and the row use instead.
- `firstIndex(where:)`, `removeAll(where:)` and `trimmingCharacters(in:)` are library calls; they are modelled by the functions `FirstIndex`, `WithoutId` and `Trim`, not as in-place loops.
- Counts are unbounded naturals rather than Swift's 64-bit `Int`; a list cannot hold enough records for the difference to matter.
