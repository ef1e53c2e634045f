/**
 * The plant record and the four closed enumerations it is built from
 * (Planto/Model/Plant.swift). Each enumeration has a string raw value per
 * case, the failable `init?(rawValue:)` Swift synthesises for it (`Parse`),
 * its `allCases` in declaration order, and `id`, which is the raw value.
 */
module PlantModel {
  import opened Wrappers

  /** Swift's `UUID`: 128 opaque bits, compared for equality only. */
  type Uuid = bv128

  datatype Room = Bedroom | LivingRoom | Kitchen | Balcony | Bathroom {

    function RawValue(): string {
      match this
      case Bedroom => "Bedroom"
      case LivingRoom => "Living Room"
      case Kitchen => "Kitchen"
      case Balcony => "Balcony"
      case Bathroom => "Bathroom"
    }

    /** `Identifiable.id`: the raw value, which names this case and no other. */
    function Id(): (r: string)
      ensures r == RawValue()
      ensures ParseRoom(r) == Some(this)
    {
      RawValue()
    }
  }

  /** `Room(rawValue:)` */
  function ParseRoom(s: string): (r: Option<Room>)
    ensures r.Some? ==> r.value.RawValue() == s
    ensures r.None? ==> forall c: Room :: c.RawValue() != s
  {
    if s == "Bedroom" then Some(Bedroom)
    else if s == "Living Room" then Some(LivingRoom)
    else if s == "Kitchen" then Some(Kitchen)
    else if s == "Balcony" then Some(Balcony)
    else if s == "Bathroom" then Some(Bathroom)
    else None
  }

  /** `Room.allCases` */
  function AllRooms(): (r: seq<Room>)
    ensures |r| == 5
    ensures forall i, j :: 0 <= i < j < |r| ==> r[i].RawValue() != r[j].RawValue()
  {
    [Bedroom, LivingRoom, Kitchen, Balcony, Bathroom]
  }

  datatype LightLevel = Low | Medium | High {

    function RawValue(): string {
      match this
      case Low => "Low light"
      case Medium => "Partial sun"
      case High => "Full sun"
    }

    function Id(): (r: string)
      ensures r == RawValue()
      ensures ParseLightLevel(r) == Some(this)
    {
      RawValue()
    }
  }

  /** `LightLevel(rawValue:)` */
  function ParseLightLevel(s: string): (r: Option<LightLevel>)
    ensures r.Some? ==> r.value.RawValue() == s
    ensures r.None? ==> forall c: LightLevel :: c.RawValue() != s
  {
    if s == "Low light" then Some(Low)
    else if s == "Partial sun" then Some(Medium)
    else if s == "Full sun" then Some(High)
    else None
  }

  /** `LightLevel.allCases` */
  function AllLightLevels(): (r: seq<LightLevel>)
    ensures |r| == 3
    ensures forall i, j :: 0 <= i < j < |r| ==> r[i].RawValue() != r[j].RawValue()
  {
    [Low, Medium, High]
  }

  datatype WateringFrequency = EveryDay | Every2Days | Every3Days | OnceAWeek | TenDays | BiWeekly {

    function RawValue(): string {
      match this
      case EveryDay => "Every day"
      case Every2Days => "Every 2 days"
      case Every3Days => "Every 3 days"
      case OnceAWeek => "Once a week"
      case TenDays => "Every 10 days"
      case BiWeekly => "Every 2 weeks"
    }

    function Id(): (r: string)
      ensures r == RawValue()
      ensures ParseWateringFrequency(r) == Some(this)
    {
      RawValue()
    }
  }

  /** `WateringFrequency(rawValue:)` */
  function ParseWateringFrequency(s: string): (r: Option<WateringFrequency>)
    ensures r.Some? ==> r.value.RawValue() == s
    ensures r.None? ==> forall c: WateringFrequency :: c.RawValue() != s
  {
    if s == "Every day" then Some(EveryDay)
    else if s == "Every 2 days" then Some(Every2Days)
    else if s == "Every 3 days" then Some(Every3Days)
    else if s == "Once a week" then Some(OnceAWeek)
    else if s == "Every 10 days" then Some(TenDays)
    else if s == "Every 2 weeks" then Some(BiWeekly)
    else None
  }

  /** `WateringFrequency.allCases` */
  function AllWateringFrequencies(): (r: seq<WateringFrequency>)
    ensures |r| == 6
    ensures forall i, j :: 0 <= i < j < |r| ==> r[i].RawValue() != r[j].RawValue()
  {
    [EveryDay, Every2Days, Every3Days, OnceAWeek, TenDays, BiWeekly]
  }

  /** Water doses; the raw values are written with an ASCII hyphen. */
  datatype Water = Quarter | Half | Third | Full {

    function RawValue(): string {
      match this
      case Quarter => "20-50 ml"
      case Half => "50-100 ml"
      case Third => "100-200 ml"
      case Full => "200-300 ml"
    }

    function Id(): (r: string)
      ensures r == RawValue()
      ensures ParseWater(r) == Some(this)
    {
      RawValue()
    }
  }

  /** `Water(rawValue:)` */
  function ParseWater(s: string): (r: Option<Water>)
    ensures r.Some? ==> r.value.RawValue() == s
    ensures r.None? ==> forall c: Water :: c.RawValue() != s
  {
    if s == "20-50 ml" then Some(Quarter)
    else if s == "50-100 ml" then Some(Half)
    else if s == "100-200 ml" then Some(Third)
    else if s == "200-300 ml" then Some(Full)
    else None
  }

  /** `Water.allCases` */
  function AllWaters(): (r: seq<Water>)
    ensures |r| == 4
    ensures forall i, j :: 0 <= i < j < |r| ==> r[i].RawValue() != r[j].RawValue()
  {
    [Quarter, Half, Third, Full]
  }

  /**
   * One plant record. `id` is a `let` in Swift; every other field is a `var`.
   * The water amount is the free-text label the form and the row display.
   */
  datatype Plant = Plant(
    id: Uuid,
    name: string,
    room: Room,
    light: LightLevel,
    waterAmountLabel: string,
    frequency: WateringFrequency,
    isDoneToday: bool)
  {
    /** `isDoneToday.toggle()` on this record. */
    function WithDoneToggled(): (q: Plant)
      ensures q.id == id && q.isDoneToday == !isDoneToday
      ensures q.(isDoneToday := isDoneToday) == this
    {
      this.(isDoneToday := !isDoneToday)
    }
  }

  /**
   * The memberwise `init`. `id` defaults to a freshly generated UUID in Swift;
   * here the caller passes it. `isDoneToday` defaults to false.
   */
  function NewPlant(id: Uuid, name: string, room: Room, light: LightLevel,
                    waterAmountLabel: string, frequency: WateringFrequency,
                    isDoneToday: bool := false): (p: Plant)
    ensures p.id == id && p.name == name && p.room == room && p.light == light
    ensures p.waterAmountLabel == waterAmountLabel && p.frequency == frequency
    ensures p.isDoneToday == isDoneToday
  {
    Plant(id, name, room, light, waterAmountLabel, frequency, isDoneToday)
  }

  /** A new record made without an explicit done flag is not done. */
  lemma NewPlantNotDone(id: Uuid, name: string, room: Room, light: LightLevel,
                        waterAmountLabel: string, frequency: WateringFrequency)
    ensures !NewPlant(id, name, room, light, waterAmountLabel, frequency).isDoneToday
  {
  }

  /** An assignment to one of the `var` fields of a `Plant` value. */
  datatype FieldWrite =
    | SetName(name: string)
    | SetRoom(room: Room)
    | SetLight(light: LightLevel)
    | SetWaterAmountLabel(text: string)
    | SetFrequency(frequency: WateringFrequency)
    | SetDoneToday(done: bool)
    | ToggleDoneToday

  /**
   * The value after the assignment: the written field takes its new value and
   * every other field, `id` included, keeps its old one.
   */
  function Apply(p: Plant, w: FieldWrite): (q: Plant)
    ensures q.id == p.id
    ensures w.SetName? ==> q == p.(name := w.name)
    ensures w.SetRoom? ==> q == p.(room := w.room)
    ensures w.SetLight? ==> q == p.(light := w.light)
    ensures w.SetWaterAmountLabel? ==> q == p.(waterAmountLabel := w.text)
    ensures w.SetFrequency? ==> q == p.(frequency := w.frequency)
    ensures w.SetDoneToday? ==> q == p.(isDoneToday := w.done)
    ensures w.ToggleDoneToday? ==> q == p.(isDoneToday := !p.isDoneToday)
  {
    match w
    case SetName(n) => p.(name := n)
    case SetRoom(r) => p.(room := r)
    case SetLight(l) => p.(light := l)
    case SetWaterAmountLabel(a) => p.(waterAmountLabel := a)
    case SetFrequency(f) => p.(frequency := f)
    case SetDoneToday(d) => p.(isDoneToday := d)
    case ToggleDoneToday => p.WithDoneToggled()
  }

  /** Applies a sequence of field assignments in order. */
  function ApplyAll(p: Plant, ws: seq<FieldWrite>): Plant
    decreases |ws|
  {
    if ws == [] then p else ApplyAll(Apply(p, ws[0]), ws[1..])
  }

  /** No sequence of in-place mutations changes a plant's identity. */
  lemma {:induction false} IdIsImmutable(p: Plant, ws: seq<FieldWrite>)
    ensures ApplyAll(p, ws).id == p.id
    decreases |ws|
  {
    if ws != [] {
      IdIsImmutable(Apply(p, ws[0]), ws[1..]);
    }
  }

  /** Every value of each enumeration is one of its listed cases. */
  lemma AllCasesAreListed(r: Room, l: LightLevel, f: WateringFrequency, w: Water)
    ensures r in AllRooms() && l in AllLightLevels()
    ensures f in AllWateringFrequencies() && w in AllWaters()
  {
    match r {
      case Bedroom => case LivingRoom => case Kitchen => case Balcony => case Bathroom =>
    }
    match l {
      case Low => case Medium => case High =>
    }
    match f {
      case EveryDay => case Every2Days => case Every3Days =>
      case OnceAWeek => case TenDays => case BiWeekly =>
    }
    match w {
      case Quarter => case Half => case Third => case Full =>
    }
  }
}
