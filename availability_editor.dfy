/**
 * The weekly availability value and its editor. Each handler builds a new
 * value from the old one and passes it up: toggle a day, add a time range,
 * edit the start or end of a range, delete a range, set the preferred time
 * of day or the notes.
 */
module AvailabilityEditor {
  import opened Common

  datatype Weekday = Monday | Tuesday | Wednesday | Thursday | Friday | Saturday | Sunday

  /** The key of the day in the `weekdays` record. */
  function DayKey(d: Weekday): string
  {
    match d
    case Monday => "monday"
    case Tuesday => "tuesday"
    case Wednesday => "wednesday"
    case Thursday => "thursday"
    case Friday => "friday"
    case Saturday => "saturday"
    case Sunday => "sunday"
  }

  /** The seven days in the order the editor lists them. */
  const Days: seq<Weekday> := [Monday, Tuesday, Wednesday, Thursday, Friday, Saturday, Sunday]

  datatype TimeRange = TimeRange(start: string, end: string)

  /** One day's entry; `timeRanges` is an optional property. */
  datatype DaySlot = DaySlot(available: bool, timeRanges: Option<seq<TimeRange>>)
  {
    /** `timeRanges || []` */
    function Ranges(): seq<TimeRange>
    {
      if timeRanges.Some? then timeRanges.value else []
    }
  }

  /** The `weekdays` record: one slot per day. */
  datatype Week = Week(
    monday: DaySlot, tuesday: DaySlot, wednesday: DaySlot, thursday: DaySlot,
    friday: DaySlot, saturday: DaySlot, sunday: DaySlot)
  {
    /** `weekdays[d]` */
    function At(d: Weekday): DaySlot
    {
      match d
      case Monday => monday
      case Tuesday => tuesday
      case Wednesday => wednesday
      case Thursday => thursday
      case Friday => friday
      case Saturday => saturday
      case Sunday => sunday
    }

    /** `{ ...weekdays, [d]: slot }` */
    function With(d: Weekday, slot: DaySlot): (w: Week)
      ensures w.At(d) == slot
      ensures forall e :: e != d ==> w.At(e) == At(e)
    {
      match d
      case Monday => this.(monday := slot)
      case Tuesday => this.(tuesday := slot)
      case Wednesday => this.(wednesday := slot)
      case Thursday => this.(thursday := slot)
      case Friday => this.(friday := slot)
      case Saturday => this.(saturday := slot)
      case Sunday => this.(sunday := slot)
    }
  }

  datatype PreferredTimes = Morning | Afternoon | Evening | Flexible

  datatype Availability = Availability(weekdays: Week, preferredTimes: PreferredTimes, notes: Option<string>)

  /** `value` with day `d`'s slot replaced; every other part is kept. */
  function WithDay(value: Availability, d: Weekday, slot: DaySlot): Availability
  {
    value.(weekdays := value.weekdays.With(d, slot))
  }

  /** Only day `d`'s slot may differ between the two values. */
  predicate OnlyDayChanged(before: Availability, after: Availability, d: Weekday)
  {
    after.preferredTimes == before.preferredTimes && after.notes == before.notes &&
    forall e :: e != d ==> after.weekdays.At(e) == before.weekdays.At(e)
  }

  // ---------------------------------------------------------------------
  // Day handlers

  /** `handleDayToggle(day)` */
  function HandleDayToggle(value: Availability, d: Weekday): (next: Availability)
    ensures next.weekdays.At(d).available == !value.weekdays.At(d).available
    ensures next.weekdays.At(d).timeRanges == value.weekdays.At(d).timeRanges
    ensures OnlyDayChanged(value, next, d)
  {
    var slot := value.weekdays.At(d);
    WithDay(value, d, slot.(available := !slot.available))
  }

  /** Toggling the same day twice gives back the value it started from. */
  lemma ToggleTwiceRestores(value: Availability, d: Weekday)
    ensures HandleDayToggle(HandleDayToggle(value, d), d) == value
  {
    var twice := HandleDayToggle(HandleDayToggle(value, d), d);
    assert twice.weekdays.At(d) == value.weekdays.At(d);
    forall e: Weekday ensures twice.weekdays.At(e) == value.weekdays.At(e) {
    }
    WeekEquality(twice.weekdays, value.weekdays);
  }

  /** Two weeks agreeing on every day are equal. */
  lemma WeekEquality(a: Week, b: Week)
    requires forall e: Weekday :: a.At(e) == b.At(e)
    ensures a == b
  {
    assert a.At(Monday) == b.At(Monday) && a.At(Tuesday) == b.At(Tuesday);
    assert a.At(Wednesday) == b.At(Wednesday) && a.At(Thursday) == b.At(Thursday);
    assert a.At(Friday) == b.At(Friday) && a.At(Saturday) == b.At(Saturday);
    assert a.At(Sunday) == b.At(Sunday);
  }

  const NewRange: TimeRange := TimeRange("09:00", "17:00")

  /** `addTimeRange(day)`: appends 09:00 to 17:00, treating missing ranges as none. */
  function AddTimeRange(value: Availability, d: Weekday): (next: Availability)
    ensures next.weekdays.At(d).timeRanges == Some(value.weekdays.At(d).Ranges() + [TimeRange("09:00", "17:00")])
    ensures next.weekdays.At(d).available == value.weekdays.At(d).available
    ensures OnlyDayChanged(value, next, d)
  {
    var slot := value.weekdays.At(d);
    WithDay(value, d, slot.(timeRanges := Some(slot.Ranges() + [NewRange])))
  }

  // ---------------------------------------------------------------------
  // Range rows (rendered only for existing ranges of available days)

  /** The range rows drawn under a day: its ranges when the day is available, none otherwise. */
  function VisibleRanges(value: Availability, d: Weekday): (rows: seq<TimeRange>)
    ensures !value.weekdays.At(d).available ==> rows == []
    ensures value.weekdays.At(d).available ==> rows == value.weekdays.At(d).Ranges()
  {
    if value.weekdays.At(d).available then value.weekdays.At(d).Ranges() else []
  }

  /** Switching a day off hides its rows but keeps them; switching it back on shows them again. */
  lemma ToggleOffKeepsRanges(value: Availability, d: Weekday)
    requires value.weekdays.At(d).available
    ensures VisibleRanges(HandleDayToggle(value, d), d) == []
    ensures HandleDayToggle(value, d).weekdays.At(d).Ranges() == value.weekdays.At(d).Ranges()
    ensures VisibleRanges(HandleDayToggle(HandleDayToggle(value, d), d), d) == VisibleRanges(value, d)
  {
    ToggleTwiceRestores(value, d);
  }

  /** The start field's change handler on row `index`. */
  function EditRangeStart(value: Availability, d: Weekday, index: nat, start: string): (next: Availability)
    requires index < |value.weekdays.At(d).Ranges()|
    ensures var before, after := value.weekdays.At(d).Ranges(), next.weekdays.At(d).Ranges();
            |after| == |before| &&
            after[index] == before[index].(start := start) &&
            (forall i :: 0 <= i < |before| && i != index ==> after[i] == before[i])
    ensures next.weekdays.At(d).available == value.weekdays.At(d).available
    ensures OnlyDayChanged(value, next, d)
  {
    var slot := value.weekdays.At(d);
    var ranges := slot.Ranges();
    WithDay(value, d, slot.(timeRanges := Some(ranges[index := ranges[index].(start := start)])))
  }

  /** The end field's change handler on row `index`. */
  function EditRangeEnd(value: Availability, d: Weekday, index: nat, end: string): (next: Availability)
    requires index < |value.weekdays.At(d).Ranges()|
    ensures var before, after := value.weekdays.At(d).Ranges(), next.weekdays.At(d).Ranges();
            |after| == |before| &&
            after[index] == before[index].(end := end) &&
            (forall i :: 0 <= i < |before| && i != index ==> after[i] == before[i])
    ensures next.weekdays.At(d).available == value.weekdays.At(d).available
    ensures OnlyDayChanged(value, next, d)
  {
    var slot := value.weekdays.At(d);
    var ranges := slot.Ranges();
    WithDay(value, d, slot.(timeRanges := Some(ranges[index := ranges[index].(end := end)])))
  }

  /** The delete button on row `index`: `timeRanges?.filter((_, i) => i !== index)`. */
  function DeleteRange(value: Availability, d: Weekday, index: nat): (next: Availability)
    ensures value.weekdays.At(d).timeRanges.None? ==> next.weekdays.At(d).timeRanges.None?
    ensures index < |value.weekdays.At(d).Ranges()| ==>
              next.weekdays.At(d).Ranges() ==
                value.weekdays.At(d).Ranges()[..index] + value.weekdays.At(d).Ranges()[index + 1..]
    ensures next.weekdays.At(d).available == value.weekdays.At(d).available
    ensures OnlyDayChanged(value, next, d)
  {
    var slot := value.weekdays.At(d);
    var ranges := match slot.timeRanges
      case None => None
      case Some(rs) => Some(RemoveAt(rs, index));
    WithDay(value, d, slot.(timeRanges := ranges))
  }

  /** Adding a range and deleting the last row gives back the day's ranges. */
  lemma AddThenDeleteLast(value: Availability, d: Weekday)
    ensures var added := AddTimeRange(value, d);
            DeleteRange(added, d, |value.weekdays.At(d).Ranges()|).weekdays.At(d).Ranges() ==
              value.weekdays.At(d).Ranges()
  {
    var rs := value.weekdays.At(d).Ranges();
    assert (rs + [NewRange])[..|rs|] == rs;
  }

  // ---------------------------------------------------------------------
  // Preferred time of day and notes

  function SetPreferredTimes(value: Availability, p: PreferredTimes): (next: Availability)
    ensures next.preferredTimes == p
    ensures next.weekdays == value.weekdays && next.notes == value.notes
  {
    value.(preferredTimes := p)
  }

  function SetNotes(value: Availability, notes: string): (next: Availability)
    ensures next.notes == Some(notes)
    ensures next.weekdays == value.weekdays && next.preferredTimes == value.preferredTimes
  {
    value.(notes := Some(notes))
  }

  /** The checkbox label: the day key with its first letter upper-cased. */
  function DayLabel(d: Weekday): (text: string)
    ensures |text| == |DayKey(d)| && text[1..] == DayKey(d)[1..]
    ensures text[0] == UpperChar(DayKey(d)[0])
  {
    Capitalize(DayKey(d))
  }
}
