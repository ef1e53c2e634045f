/**
 * The editable fields of the add/edit sheet and the builder that turns them
 * into a `Plant` (Planto/ViewModel/PlantFormState.swift).
 */
module PlantForm {
  import opened Wrappers
  import opened Text
  import opened PlantModel

  /** The label a blank form starts with. Its dash is U+2013 (EN DASH). */
  const DefaultWaterLabel: string := "20–50 ml"

  datatype PlantFormState = PlantFormState(
    name: string,
    room: Room,
    light: LightLevel,
    waterAmount: string,
    frequency: WateringFrequency)
  {
    /**
     * `buildPlant(editing:keepDone:original:)`. `freshId` stands for the
     * `UUID()` evaluated when no id is given; `ws` is the whitespace class
     * the text fields are trimmed by.
     */
    function BuildPlant(freshId: Uuid, ws: set<char>, editing: Option<Uuid> := None,
                        keepDone: bool := false, original: Option<Plant> := None): (p: Plant)
      ensures p.id == (if editing.Some? then editing.value else freshId)
      ensures p.name == Trim(name, ws) && p.waterAmountLabel == Trim(waterAmount, ws)
      ensures Bare(p.name, ws) && Bare(p.waterAmountLabel, ws)
      ensures p.room == room && p.light == light && p.frequency == frequency
      ensures p.isDoneToday <==> keepDone && original.Some? && original.value.isDoneToday
    {
      NewPlant(
        editing.GetOr(freshId),
        Trim(name, ws),
        room,
        light,
        Trim(waterAmount, ws),
        frequency,
        if keepDone then original.Some? && original.value.isDoneToday else false)
    }
  }

  /** `init()`: the blank form the add sheet opens with. */
  function BlankForm(): (f: PlantFormState)
    ensures f.name == "" && f.room == Bedroom && f.light == High
    ensures f.waterAmount == DefaultWaterLabel && f.frequency == EveryDay
  {
    PlantFormState("", Bedroom, High, DefaultWaterLabel, EveryDay)
  }

  /** `init(from:)`: the form the edit sheet opens with. */
  function FormFrom(p: Plant): (f: PlantFormState)
    ensures f.name == p.name && f.room == p.room && f.light == p.light
    ensures f.waterAmount == p.waterAmountLabel && f.frequency == p.frequency
  {
    PlantFormState(p.name, p.room, p.light, p.waterAmountLabel, p.frequency)
  }

  /**
   * The blank form's water label is not the raw value of any `Water` case:
   * it is written with an en dash where `Water.quarter` has a hyphen.
   */
  lemma DefaultWaterLabelIsNoWaterCase()
    ensures ParseWater(BlankForm().waterAmount) == None
    ensures DefaultWaterLabel != Quarter.RawValue() && |DefaultWaterLabel| == |Quarter.RawValue()|
  {
    assert DefaultWaterLabel[2] != Quarter.RawValue()[2];
  }

  /** The add path (`buildPlant()` with no arguments) always yields a record that is not done. */
  lemma AddPathNotDone(f: PlantFormState, freshId: Uuid, ws: set<char>)
    ensures var p := f.BuildPlant(freshId, ws); p.id == freshId && !p.isDoneToday
  {
  }

  /**
   * Editing a plant without touching the form gives the plant back, provided
   * its name and water label carry no surrounding whitespace.
   */
  lemma EditRoundTrip(p: Plant, freshId: Uuid, ws: set<char>)
    requires Bare(p.name, ws) && Bare(p.waterAmountLabel, ws)
    ensures FormFrom(p).BuildPlant(freshId, ws, Some(p.id), true, Some(p)) == p
  {
  }

  /**
   * The round trip needs the surrounding-whitespace condition: a name with a
   * trailing blank comes back without it.
   */
  lemma EditRoundTripTrimsName(p: Plant, freshId: Uuid, ws: set<char>)
    requires |p.name| > 0 && p.name[|p.name| - 1] in ws
    ensures FormFrom(p).BuildPlant(freshId, ws, Some(p.id), true, Some(p)) != p
  {
    var q := FormFrom(p).BuildPlant(freshId, ws, Some(p.id), true, Some(p));
    assert |q.name| == 0 || q.name[|q.name| - 1] !in ws;
  }
}
