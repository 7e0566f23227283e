/**
 * The availability chip on a player card: the preferred time of day and the
 * available days, with the notes as its tooltip.
 */
module PlayerAvailabilityDisplay {
  import opened Common
  import opened AvailabilityEditor
  import opened Defaults

  /** The `preferredTimes` value as stored. */
  function PreferredName(p: PreferredTimes): string
  {
    match p
    case Morning => "morning"
    case Afternoon => "afternoon"
    case Evening => "evening"
    case Flexible => "flexible"
  }

  predicate IsAvailable(a: Availability, d: Weekday)
  {
    a.weekdays.At(d).available
  }

  /**
   * `getAvailableDays`. `keyOrder` is the order in which `Object.entries`
   * lists the `weekdays` keys, which depends on how the record was built.
   */
  function GetAvailableDays(a: Availability, keyOrder: seq<Weekday>): (days: seq<string>)
    ensures |days| <= |keyOrder|
    ensures forall i :: 0 <= i < |days| ==> exists d :: IsAvailable(a, d) && days[i] == DayLabel(d)
  {
    var kept := Filter(keyOrder, d => IsAvailable(a, d));
    var days := Map(kept, d => DayLabel(d));
    assert forall i :: 0 <= i < |days| ==> IsAvailable(a, kept[i]) && days[i] == DayLabel(kept[i]);
    days
  }

  /** The labels keep the key order: they are the labels of `keyOrder` with the unavailable days deleted. */
  lemma AvailableDaysInKeyOrder(a: Availability, keyOrder: seq<Weekday>)
    ensures IsSubsequence(GetAvailableDays(a, keyOrder), Map(keyOrder, d => DayLabel(d)))
  {
    FilterIsSubsequence(keyOrder, d => IsAvailable(a, d));
    MapKeepsSubsequence(Filter(keyOrder, d => IsAvailable(a, d)), keyOrder, d => DayLabel(d));
  }

  /** Distinct days have distinct labels. */
  lemma DayLabelInjective(d: Weekday, e: Weekday)
    ensures DayLabel(d) == DayLabel(e) ==> d == e
  {
    if d != e {
      assert DayKey(d) != DayKey(e);
      assert DayLabel(d)[1..] == DayKey(d)[1..] && DayLabel(e)[1..] == DayKey(e)[1..];
    }
  }

  /** When every day is available, every key is listed, labelled, in the key order. */
  lemma EveryDayInKeyOrder(a: Availability, keyOrder: seq<Weekday>)
    requires forall d :: IsAvailable(a, d)
    ensures GetAvailableDays(a, keyOrder) == Map(keyOrder, d => DayLabel(d))
  {
    FilterAllPass(keyOrder, d => IsAvailable(a, d));
  }

  /** When every day is listed once, a day's label appears exactly when the day is available. */
  lemma AvailableDaysExact(a: Availability, keyOrder: seq<Weekday>, d: Weekday)
    requires d in keyOrder
    ensures DayLabel(d) in GetAvailableDays(a, keyOrder) <==> IsAvailable(a, d)
  {
    var p := (x: Weekday) => IsAvailable(a, x);
    var kept := Filter(keyOrder, p);
    var days := GetAvailableDays(a, keyOrder);
    FilterMembership(keyOrder, p, d);
    if IsAvailable(a, d) {
      var i :| 0 <= i < |kept| && kept[i] == d;
      assert days[i] == DayLabel(d);
    }
    if DayLabel(d) in days {
      var i :| 0 <= i < |days| && days[i] == DayLabel(d);
      assert days[i] == DayLabel(kept[i]) && IsAvailable(a, kept[i]);
      DayLabelInjective(d, kept[i]);
    }
  }

  /** `availability.notes || 'No additional notes'` */
  function Tooltip(a: Availability): (text: string)
    ensures Truthy(a.notes) ==> text == a.notes.value
    ensures !Truthy(a.notes) ==> text == "No additional notes"
  {
    OrElse(a.notes, "No additional notes")
  }

  /**
   * The separator as the file spells it: the three characters U+00E2, U+20AC
   * and U+00A2 between spaces. They are the UTF-8 bytes of the bullet U+2022
   * read as Windows-1252 text.
   */
  const Separator: string := " \U{E2}\U{20AC}\U{A2} "

  /** The chip label: preferred time, separator, then the days joined by ", ". */
  function ChipLabel(a: Availability, keyOrder: seq<Weekday>): (text: string)
    ensures |text| >= |PreferredName(a.preferredTimes)| + |Separator|
    ensures text[..|PreferredName(a.preferredTimes)|] == PreferredName(a.preferredTimes)
    ensures text[|PreferredName(a.preferredTimes)|..][..|Separator|] == Separator
    ensures text[|PreferredName(a.preferredTimes)| + |Separator|..] == Join(GetAvailableDays(a, keyOrder), ", ")
  {
    var text := PreferredName(a.preferredTimes) + Separator + Join(GetAvailableDays(a, keyOrder), ", ");
    assert text[..|PreferredName(a.preferredTimes)|] == PreferredName(a.preferredTimes);
    assert text[|PreferredName(a.preferredTimes)|..] == Separator + Join(GetAvailableDays(a, keyOrder), ", ");
    text
  }

  /** Every available day of the key order is named in the chip label. */
  lemma AvailableDayNamedInChip(a: Availability, keyOrder: seq<Weekday>, d: Weekday)
    requires d in keyOrder && IsAvailable(a, d)
    ensures Contains(ChipLabel(a, keyOrder), DayLabel(d))
  {
    var days := GetAvailableDays(a, keyOrder);
    AvailableDaysExact(a, keyOrder, d);
    JoinContainsPart(days, ", ", DayLabel(d));
    ContainsAppendLeft(PreferredName(a.preferredTimes) + Separator, Join(days, ", "), DayLabel(d));
  }

  /** With no available day the label ends right after the separator. */
  lemma NoDaysLabel(a: Availability, keyOrder: seq<Weekday>)
    requires forall d :: d in keyOrder ==> !IsAvailable(a, d)
    ensures GetAvailableDays(a, keyOrder) == []
    ensures ChipLabel(a, keyOrder) == PreferredName(a.preferredTimes) + Separator
  {
    FilterNonePass(keyOrder, d => IsAvailable(a, d));
  }

  /** A new profile's chip reads "flexible", then the separator, and no day. */
  lemma DefaultChipLabel(keyOrder: seq<Weekday>)
    ensures ChipLabel(DefaultAvailability(), keyOrder) == "flexible" + Separator
    ensures Tooltip(DefaultAvailability()) == "No additional notes"
  {
    NoDaysLabel(DefaultAvailability(), keyOrder);
  }
}
