/**
 * The availability every new profile starts from.
 */
module Defaults {
  import opened Common
  import opened AvailabilityEditor

  /** `defaultAvailability`: every day off, no ranges, flexible, empty notes. */
  function DefaultAvailability(): (a: Availability)
    ensures forall d: Weekday :: !a.weekdays.At(d).available
    ensures forall d: Weekday :: a.weekdays.At(d).timeRanges.None?
    ensures a.preferredTimes == Flexible
    ensures a.notes == Some("")
  {
    var off := DaySlot(false, None);
    Availability(Week(off, off, off, off, off, off, off), Flexible, Some(""))
  }

  /** The editor draws no range rows for the default value, on any day. */
  lemma DefaultShowsNoRanges(d: Weekday)
    ensures VisibleRanges(DefaultAvailability(), d) == []
    ensures DefaultAvailability().weekdays.At(d).Ranges() == []
  {
  }

  /** The first range added to a default day is the 09:00 to 17:00 one, and the day stays off. */
  lemma FirstRangeOnDefault(d: Weekday)
    ensures AddTimeRange(DefaultAvailability(), d).weekdays.At(d) ==
            DaySlot(false, Some([TimeRange("09:00", "17:00")]))
  {
    assert DefaultAvailability().weekdays.At(d).Ranges() == [];
    assert [] + [NewRange] == [TimeRange("09:00", "17:00")];
  }
}
