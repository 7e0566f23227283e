/**
 * The courts page: a sport selector over the listed courts.
 */
module Courts {
  import opened Common

  /** A listed court; `kind` is the record's `type` field. */
  datatype Court = Court(
    id: int,
    name: string,
    kind: Sport,
    location: string,
    distance: string,
    numberOfCourts: int,
    isFavorite: Option<bool>,
    amenities: seq<string>)

  /** The selector starts on every sport. */
  const InitialSelection: SportFilter := All

  predicate CourtMatches(f: SportFilter, c: Court)
  {
    f.All? || c.kind == f.sport
  }

  /** `filteredCourts`: the whole list under 'all', else the courts of the selected sport. */
  function FilteredCourts(courts: seq<Court>, f: SportFilter): (shown: seq<Court>)
    ensures f.All? ==> shown == courts
    ensures f.Only? ==> forall i :: 0 <= i < |shown| ==> shown[i].kind == f.sport
  {
    if f.All? then courts else Filter(courts, (c: Court) => c.kind == f.sport)
  }

  /**
   * No court of the selected sport is dropped, each keeps its number of
   * occurrences, and the list keeps its order.
   */
  lemma FilteredCourtsKeepMatches(courts: seq<Court>, f: SportFilter, c: Court)
    ensures c in FilteredCourts(courts, f) <==> c in courts && CourtMatches(f, c)
    ensures multiset(FilteredCourts(courts, f))[c] == if CourtMatches(f, c) then multiset(courts)[c] else 0
    ensures IsSubsequence(FilteredCourts(courts, f), courts)
  {
    if f.All? {
      SubsequenceReflexive(courts);
    } else {
      var p := (x: Court) => x.kind == f.sport;
      FilterMembership(courts, p, c);
      FilterCounts(courts, p, c);
      FilterIsSubsequence(courts, p);
    }
  }
}
