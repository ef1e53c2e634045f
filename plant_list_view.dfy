/**
 * The save and delete dispatch of the list screen
 * (Planto/View/PlantListView.swift): how the sheet's form reaches the list.
 * Presentation is not modelled; only the calls into the view model are.
 */
module PlantListScreen {
  import opened Wrappers
  import opened Text
  import opened PlantModel
  import opened PlantForm
  import opened PlantStore

  /** The record `handleSave` builds from the form for the given mode. */
  function SavedRecord(mode: FormMode, state: PlantFormState, freshId: Uuid, ws: set<char>): (p: Plant)
    ensures mode.Add? ==> p.id == freshId && !p.isDoneToday
    ensures mode.Edit? ==> p.id == mode.original.id && p.isDoneToday == mode.original.isDoneToday
    ensures p.room == state.room && p.light == state.light && p.frequency == state.frequency
    ensures p.name == Trim(state.name, ws) && p.waterAmountLabel == Trim(state.waterAmount, ws)
  {
    match mode
    case Add(_) => state.BuildPlant(freshId, ws)
    case Edit(original) => state.BuildPlant(freshId, ws, Some(original.id), true, Some(original))
  }

  /**
   * `handleSave(_:_:)`: the add sheet appends a new record with a fresh
   * identifier; the edit sheet replaces the first record with the identifier
   * of the record it was opened for (that record itself when identifiers are
   * unique).
   */
  method HandleSave(vm: PlantListViewModel, mode: FormMode, state: PlantFormState,
                    freshId: Uuid, ws: set<char>)
    modifies vm
    ensures mode.Add? ==> vm.plants == old(vm.plants) + [SavedRecord(mode, state, freshId, ws)]
    ensures mode.Edit? ==> vm.plants == Updated(old(vm.plants), SavedRecord(mode, state, freshId, ws))
  {
    match mode
    case Add(_) =>
      vm.Add(state.BuildPlant(freshId, ws));
    case Edit(original) =>
      vm.Update(state.BuildPlant(freshId, ws, Some(original.id), true, Some(original)));
  }

  /** `handleDeleteIfEditing(_:)`: only the edit sheet deletes. */
  method HandleDeleteIfEditing(vm: PlantListViewModel, mode: FormMode)
    modifies vm
    ensures mode.Edit? ==> vm.plants == WithoutId(old(vm.plants), mode.original.id)
    ensures mode.Add? ==> vm.plants == old(vm.plants)
  {
    if mode.Edit? {
      vm.Delete(mode.original);
    }
  }

  /**
   * Saving an edit replaces the first record with the original's identifier
   * (the original itself when identifiers are unique) in place, with that
   * identifier and the done flag the original had when the sheet opened;
   * everything else stays put.
   */
  lemma EditKeepsPlaceIdAndDone(s: seq<Plant>, original: Plant, state: PlantFormState,
                                freshId: Uuid, ws: set<char>, i: nat)
    requires IsFirstMatch(s, original.id, i)
    ensures var r := Updated(s, SavedRecord(Edit(original), state, freshId, ws));
      |r| == |s| && r[i].id == original.id && r[i].isDoneToday == original.isDoneToday
      && forall k :: 0 <= k < |s| && k != i ==> r[k] == s[k]
  {
  }

  /**
   * Saving an unchanged edit form of the first record with its identifier
   * leaves the list as it was.
   */
  lemma UnchangedEditIsNoOp(s: seq<Plant>, i: nat, freshId: Uuid, ws: set<char>)
    requires i < |s| && IsFirstMatch(s, s[i].id, i)
    requires Bare(s[i].name, ws) && Bare(s[i].waterAmountLabel, ws)
    ensures Updated(s, SavedRecord(Edit(s[i]), FormFrom(s[i]), freshId, ws)) == s
  {
    EditRoundTrip(s[i], freshId, ws);
    UpdateWithSameRecord(s, i);
  }

  /**
   * With a repeated identifier, an unchanged edit of the second record is not a
   * no-op: `update` writes over the first record with that identifier.
   */
  lemma UnchangedEditWithRepeatedId(a: Plant, b: Plant, freshId: Uuid, ws: set<char>)
    requires a.id == b.id && a != b
    requires Bare(b.name, ws) && Bare(b.waterAmountLabel, ws)
    ensures Updated([a, b], SavedRecord(Edit(b), FormFrom(b), freshId, ws)) == [b, b]
    ensures [b, b] != [a, b]
  {
    EditRoundTrip(b, freshId, ws);
    assert IsFirstMatch([a, b], b.id, 0);
    assert [a, b][0 := b] == [b, b];
    assert [b, b][0] != [a, b][0];
  }

  /** Session, first phase: the first plant is added and watered. */
  method AddFirstAndWater(vm: PlantListViewModel, a: Plant)
    requires vm.plants == [] && !a.isDoneToday
    modifies vm
    ensures vm.plants == [a.WithDoneToggled()]
  {
    assert vm.TotalCount() == 0 && !vm.AllDone();
    vm.Add(a);
    assert vm.plants == [a];
    assert vm.TotalCount() == 1 && vm.CompletedCount() == 0 && !vm.AllDone();
    vm.ToggleDone(a);
    assert IsFirstMatch([a], a.id, 0);
    assert vm.plants == [a.WithDoneToggled()];
    assert vm.CompletedCount() == 1 && vm.AllDone();
  }

  /** Session, second phase: a second plant is added, which makes the day unfinished until it is watered. */
  method AddSecondAndWater(vm: PlantListViewModel, a: Plant, b: Plant)
    requires vm.plants == [a] && a.isDoneToday && a.id != b.id && !b.isDoneToday
    modifies vm
    ensures vm.plants == [a, b.WithDoneToggled()]
  {
    vm.Add(b);
    assert vm.plants == [a, b];
    assert vm.TotalCount() == 2 && !vm.plants[1].isDoneToday && !vm.AllDone();
    vm.ToggleDone(b);
    assert IsFirstMatch([a, b], b.id, 1);
    assert vm.plants == [a, b.WithDoneToggled()];
    assert vm.AllDone();
  }

  /** Session, last phase: deleting the first plant leaves the second, still done. */
  method DeleteFirst(vm: PlantListViewModel, a: Plant, b: Plant)
    requires vm.plants == [a, b] && a.id != b.id && b.isDoneToday
    modifies vm
    ensures vm.plants == [b]
  {
    vm.Delete(a);
    DeleteKeepsOrder([a], [b], a.id);
    DeleteOne(a, a.id);
    DeleteOne(b, a.id);
    assert vm.plants == [b];
    assert vm.TotalCount() == 1 && vm.CompletedCount() == 1 && vm.AllDone();
  }

  /** A session on a fresh list: add, water, add, water, delete. */
  method TodaySession(a: Plant, b: Plant)
    requires a.id != b.id && !a.isDoneToday && !b.isDoneToday
  {
    var vm := new PlantListViewModel();
    AddFirstAndWater(vm, a);
    AddSecondAndWater(vm, a.WithDoneToggled(), b);
    DeleteFirst(vm, a.WithDoneToggled(), b.WithDoneToggled());
    assert vm.plants == [b.WithDoneToggled()];
  }
}
