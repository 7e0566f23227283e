/**
 * The court search service: keyword classifiers that guess whether a
 * place is free, whether it is indoors and how many courts it has, and the
 * module-level result cache that answers a repeated search for 24 hours.
 */
module CourtService {
  import opened Common

  /** The fields of a places-search result that the classifiers read; any may be missing. */
  datatype Place = Place(name: Option<string>, vicinity: Option<string>, types: Option<seq<string>>)

  /** `place.types || []`: an array, even an empty one, is truthy. */
  function TypesOrEmpty(types: Option<seq<string>>): (r: seq<string>)
    ensures types.Some? ==> r == types.value
    ensures types.None? ==> r == []
  {
    match types
    case Some(ts) => ts
    case None => []
  }

  /** `text?.toLowerCase() || ''` */
  function LowerOrEmpty(text: Option<string>): (r: string)
    ensures text.None? ==> r == ""
    ensures text.Some? ==> r == ToLower(text.value)
  {
    match text
    case Some(s) => ToLower(s)
    case None => ""
  }

  // ---------------------------------------------------------------------
  // Price classification

  datatype PriceInfo = PriceInfo(isFree: bool, priceInfo: Option<string>)

  const MembershipFee: string := "Membership/Fee Required"
  const CallForRates: string := "Call for rates"

  function DeterminePriceInfo(place: Place): (r: PriceInfo)
    ensures r.isFree <==> r.priceInfo.None?
    ensures r.priceInfo.Some? ==> r.priceInfo.value == MembershipFee || r.priceInfo.value == CallForRates
  {
    var types := TypesOrEmpty(place.types);
    var name := LowerOrEmpty(place.name);
    var vicinity := LowerOrEmpty(place.vicinity);
    if "park" in types || "city_hall" in types || Contains(name, "public") ||
       Contains(name, "community") || Contains(vicinity, "park")
    then
      PriceInfo(true, None)
    else if "gym" in types || "health" in types || Contains(name, "club") ||
            Contains(name, "fitness") || Contains(name, "center")
    then
      PriceInfo(false, Some(MembershipFee))
    else
      PriceInfo(false, Some(CallForRates))
  }

  /** The free signals: a park or city-hall type, a public or community name, a park nearby. */
  predicate FreeSignal(place: Place)
  {
    var types := TypesOrEmpty(place.types);
    var name := LowerOrEmpty(place.name);
    "park" in types || "city_hall" in types || Contains(name, "public") ||
    Contains(name, "community") || Contains(LowerOrEmpty(place.vicinity), "park")
  }

  /** The paid signals: a gym or health type, or a club, fitness or center name. */
  predicate PaidSignal(place: Place)
  {
    var types := TypesOrEmpty(place.types);
    var name := LowerOrEmpty(place.name);
    "gym" in types || "health" in types || Contains(name, "club") ||
    Contains(name, "fitness") || Contains(name, "center")
  }

  /**
   * The three outcomes of the price classifier. The free test runs first, so a
   * place with both free and paid signals (a "Community Tennis Club") is free.
   */
  lemma PriceClassification(place: Place)
    ensures FreeSignal(place) ==> DeterminePriceInfo(place) == PriceInfo(true, None)
    ensures !FreeSignal(place) && PaidSignal(place) ==>
              DeterminePriceInfo(place) == PriceInfo(false, Some(MembershipFee))
    ensures !FreeSignal(place) && !PaidSignal(place) ==>
              DeterminePriceInfo(place) == PriceInfo(false, Some(CallForRates))
  {
  }

  /** A name mentioning both "community" and "club" is classified free. */
  lemma FreeBeforePaid(place: Place)
    requires Contains(LowerOrEmpty(place.name), "community")
    requires Contains(LowerOrEmpty(place.name), "club")
    ensures DeterminePriceInfo(place).isFree
    ensures PaidSignal(place)
  {
  }

  // ---------------------------------------------------------------------
  // Indoor / outdoor classification

  const IndoorKeywords: seq<string> :=
    ["gym", "fitness", "club", "center", "centre", "indoor",
     "recreation", "athletic", "sportsplex", "complex"]

  const OutdoorKeywords: seq<string> :=
    ["park", "public", "outdoor", "municipal", "playground",
     "recreation area", "community park"]

  /** `keywords.some(k => name.includes(k) || vicinity.includes(k))` */
  predicate MentionsAny(keywords: seq<string>, name: string, vicinity: string)
  {
    exists k :: k in keywords && (Contains(name, k) || Contains(vicinity, k))
  }

  /** `details?.types || place.types || []`: the detail record's types win when present. */
  function VenueTypes(place: Place, details: Option<Place>): (r: seq<string>)
    ensures details.Some? && details.value.types.Some? ==> r == details.value.types.value
    ensures (details.None? || details.value.types.None?) ==> r == TypesOrEmpty(place.types)
  {
    if details.Some? && details.value.types.Some? then details.value.types.value
    else TypesOrEmpty(place.types)
  }

  /** The decision procedure of the venue classifier, over given keyword lists. */
  function ClassifyVenue(name: string, vicinity: string, types: seq<string>,
                         indoor: seq<string>, outdoor: seq<string>): bool
  {
    if MentionsAny(indoor, name, vicinity) then true
    else if MentionsAny(outdoor, name, vicinity) then false
    else if "gym" in types || "health" in types then true
    else if "park" in types then false
    else false
  }

  /** True when the venue is judged to be indoors. */
  function DetermineVenueType(place: Place, details: Option<Place>): (indoor: bool)
    ensures MentionsAny(IndoorKeywords, LowerOrEmpty(place.name), LowerOrEmpty(place.vicinity)) ==> indoor
    ensures indoor ==>
              MentionsAny(IndoorKeywords, LowerOrEmpty(place.name), LowerOrEmpty(place.vicinity)) ||
              "gym" in VenueTypes(place, details) || "health" in VenueTypes(place, details)
  {
    ClassifyVenue(LowerOrEmpty(place.name), LowerOrEmpty(place.vicinity),
                  VenueTypes(place, details), IndoorKeywords, OutdoorKeywords)
  }

  /** Without a keyword hit, the types decide: gym or health is indoor, anything else outdoor. */
  lemma VenueTypeFallsBackOnTypes(place: Place, details: Option<Place>)
    requires !MentionsAny(IndoorKeywords, LowerOrEmpty(place.name), LowerOrEmpty(place.vicinity))
    requires !MentionsAny(OutdoorKeywords, LowerOrEmpty(place.name), LowerOrEmpty(place.vicinity))
    ensures DetermineVenueType(place, details) <==>
              "gym" in VenueTypes(place, details) || "health" in VenueTypes(place, details)
  {
  }

  /** An outdoor keyword hit without an indoor one makes the venue outdoors, whatever the types say. */
  lemma OutdoorKeywordBeatsTypes(place: Place, details: Option<Place>)
    requires !MentionsAny(IndoorKeywords, LowerOrEmpty(place.name), LowerOrEmpty(place.vicinity))
    requires MentionsAny(OutdoorKeywords, LowerOrEmpty(place.name), LowerOrEmpty(place.vicinity))
    ensures !DetermineVenueType(place, details)
  {
  }

  /** Any text containing "recreation area" also contains the indoor keyword "recreation". */
  lemma RecreationAreaIsIndoor(place: Place, details: Option<Place>)
    requires Contains(LowerOrEmpty(place.name), "recreation area") ||
             Contains(LowerOrEmpty(place.vicinity), "recreation area")
    ensures DetermineVenueType(place, details)
  {
    var name, vicinity := LowerOrEmpty(place.name), LowerOrEmpty(place.vicinity);
    assert StartsWith("recreation area", "recreation");
    if Contains(name, "recreation area") {
      ContainsPrefixOf(name, "recreation area", "recreation");
    } else {
      ContainsPrefixOf(vicinity, "recreation area", "recreation");
    }
    assert IndoorKeywords[6] == "recreation";
  }

  /**
   * The outdoor keywords "recreation area" and "community park" never decide:
   * the first always implies the indoor keyword "recreation", the second the
   * outdoor keyword "park". Dropping both leaves every classification unchanged.
   */
  lemma RedundantOutdoorKeywords(place: Place, details: Option<Place>)
    ensures DetermineVenueType(place, details) ==
            ClassifyVenue(LowerOrEmpty(place.name), LowerOrEmpty(place.vicinity),
                          VenueTypes(place, details), IndoorKeywords, OutdoorKeywords[..5])
  {
    var name, vicinity := LowerOrEmpty(place.name), LowerOrEmpty(place.vicinity);
    if MentionsAny(OutdoorKeywords, name, vicinity) {
      OutdoorHitReduces(place);
    }
  }

  /** An outdoor hit is an indoor hit or a hit on one of the first five outdoor keywords. */
  lemma OutdoorHitReduces(place: Place)
    requires MentionsAny(OutdoorKeywords, LowerOrEmpty(place.name), LowerOrEmpty(place.vicinity))
    ensures MentionsAny(IndoorKeywords, LowerOrEmpty(place.name), LowerOrEmpty(place.vicinity)) ||
            MentionsAny(OutdoorKeywords[..5], LowerOrEmpty(place.name), LowerOrEmpty(place.vicinity))
  {
    var name, vicinity := LowerOrEmpty(place.name), LowerOrEmpty(place.vicinity);
    var short := OutdoorKeywords[..5];
    var k :| k in OutdoorKeywords && (Contains(name, k) || Contains(vicinity, k));
    if k !in short {
      assert k == "recreation area" || k == "community park";
      if k == "recreation area" {
        RecreationAreaIsIndoor(place, None);
      } else {
        assert StartsWith("community park"[10..], "park");
        if Contains(name, k) {
          ContainsLater(name, "community park", 10, "park");
        } else {
          ContainsLater(vicinity, "community park", 10, "park");
        }
        assert short[0] == "park";
      }
    }
  }

  /** Whatever contains `longer` contains every piece that starts at offset `j` of `longer`. */
  lemma {:induction false} ContainsLater(s: string, longer: string, j: nat, piece: string)
    requires j <= |longer| && StartsWith(longer[j..], piece)
    requires Contains(s, longer)
    ensures Contains(s, piece)
    decreases |s|
  {
    if StartsWith(s, longer) {
      assert s[j..][..|piece|] == longer[j..][..|piece|];
      assert StartsWith(s[j..], piece) && j <= |s| - |piece|;
      ContainsIffOccurs(s, piece);
    } else {
      ContainsLater(s[1..], longer, j, piece);
    }
  }

  // ---------------------------------------------------------------------
  // Court count estimate

  /**
   * `place.types.includes(...)` on the raw place: a place without a `types`
   * array makes the call throw, which is `None` here.
   */
  function EstimateCourtCount(place: Place): (count: Option<nat>)
    ensures count.Some? <==> place.types.Some?
    ensures count.Some? ==> count.value == 2 || count.value == 4 || count.value == 8
    ensures count == Some(8) <==> place.types.Some? && "stadium" in place.types.value
    ensures count == Some(4) <==>
              place.types.Some? && "stadium" !in place.types.value && "park" in place.types.value
  {
    match place.types
    case None => None
    case Some(types) =>
      if "stadium" in types then Some(8)
      else if "park" in types then Some(4)
      else Some(2)
  }

  // ---------------------------------------------------------------------
  // One search result

  /** The classified part of a court record built from a place and its details. */
  datatype CourtDetails = CourtDetails(
    location: string,
    sport: Sport,
    numberOfCourts: nat,
    isIndoor: bool,
    isFree: bool,
    priceInfo: Option<string>)

  /**
   * The record built for each place. `None` when the court count cannot be
   * estimated: the callback then throws and the place never resolves.
   */
  function BuildCourt(place: Place, details: Option<Place>, sport: Sport): (r: Option<CourtDetails>)
    ensures r.Some? <==> place.types.Some?
    ensures r.Some? ==> (r.value.isFree <==> r.value.priceInfo.None?)
    ensures r.Some? ==> r.value.location == (if place.vicinity.Some? then place.vicinity.value
                                              else "Location not available")
    ensures r.Some? ==> r.value.sport == sport
  {
    var price := DeterminePriceInfo(place);
    match EstimateCourtCount(place)
    case None => None
    case Some(count) =>
      Some(CourtDetails(
        if place.vicinity.Some? then place.vicinity.value else "Location not available",
        sport, count, DetermineVenueType(place, details), price.isFree, price.priceInfo))
  }

  // ---------------------------------------------------------------------
  // The result cache

  /** 24 hours in milliseconds. */
  const CacheDuration: int := 24 * 60 * 60 * 1000

  datatype CacheItem<D> = CacheItem(data: D, timestamp: int)

  /** `${latitude}-${longitude}-${sport}`, given the coordinates already printed as text. */
  function CacheKey(latitude: string, longitude: string, sport: Sport): string
  {
    latitude + "-" + longitude + "-" + SportName(sport)
  }

  /** The two sports searched at the same coordinates never share a cache entry. */
  lemma SportsHaveSeparateEntries(latitude: string, longitude: string)
    ensures CacheKey(latitude, longitude, Tennis) != CacheKey(latitude, longitude, Pickleball)
  {
    assert |CacheKey(latitude, longitude, Tennis)| != |CacheKey(latitude, longitude, Pickleball)|;
  }

  /** An entry exists for `key` and is younger than 24 hours at time `now`. */
  predicate IsFresh<D>(entries: map<string, CacheItem<D>>, key: string, now: int)
  {
    key in entries && now - entries[key].timestamp < CacheDuration
  }

  /** An entry stored at `t` is served exactly until 24 hours after `t`, and storing leaves other keys alone. */
  lemma StoredEntryLifetime<D>(entries: map<string, CacheItem<D>>, key: string, data: D, t: int,
                               other: string, now: int)
    ensures IsFresh(entries[key := CacheItem(data, t)], key, now) <==> now < t + 86_400_000
    ensures other != key ==> (IsFresh(entries[key := CacheItem(data, t)], other, now) <==>
                              IsFresh(entries, other, now))
  {
  }

  /** Once an entry has expired it stays expired as time moves on. */
  lemma ExpiryIsPermanent<D>(entries: map<string, CacheItem<D>>, key: string, now: int, later: int)
    requires now <= later
    requires !IsFresh(entries, key, now)
    ensures !IsFresh(entries, key, later)
  {
  }

  /** One nearby-search result with the detail record fetched for it. */
  datatype PlaceResult = PlaceResult(place: Place, details: Option<Place>)

  /** What the places search returns on a cache miss, in order of distance. */
  datatype PlacesOutcome = Found(results: seq<PlaceResult>) | Failed

  /**
   * How the returned promise settles. `Unsettled` is a promise that never
   * settles: a detail callback threw before resolving its place, so
   * `Promise.all` over the places waits for ever.
   */
  datatype SearchResult = Resolved(courts: seq<CourtDetails>) | Rejected(message: string) | Unsettled

  /**
   * The records built for the places, in order; `None` when a callback throws
   * for one of them, which happens exactly when a place has no types.
   */
  function BuildCourts(results: seq<PlaceResult>, sport: Sport): (courts: Option<seq<CourtDetails>>)
    ensures courts.Some? <==> forall i :: 0 <= i < |results| ==> results[i].place.types.Some?
    ensures courts.Some? ==> |courts.value| == |results|
    ensures courts.Some? ==> forall i :: 0 <= i < |results| ==>
              Some(courts.value[i]) == BuildCourt(results[i].place, results[i].details, sport)
  {
    MapAll(results, (r: PlaceResult) => BuildCourt(r.place, r.details, sport))
  }

  /** Every court of a completed search is of the searched sport and priced consistently. */
  lemma BuiltCourtsAreOfTheSport(results: seq<PlaceResult>, sport: Sport, c: CourtDetails)
    requires BuildCourts(results, sport).Some? && c in BuildCourts(results, sport).value
    ensures c.sport == sport && (c.isFree <==> c.priceInfo.None?)
  {
    var courts := BuildCourts(results, sport).value;
    var i :| 0 <= i < |courts| && courts[i] == c;
    assert Some(c) == BuildCourt(results[i].place, results[i].details, sport);
  }

  /** The module-level `cache` object of the court service. */
  class CourtCache {
    var entries: map<string, CacheItem<seq<CourtDetails>>>

    constructor ()
      ensures entries == map[]
    {
      entries := map[];
    }

    /** The cache check at the top of `searchNearbyCourts`. */
    method Lookup(key: string, now: int) returns (hit: Option<seq<CourtDetails>>)
      ensures hit.Some? <==> IsFresh(entries, key, now)
      ensures hit.Some? ==> hit.value == entries[key].data
    {
      if key in entries && now - entries[key].timestamp < CacheDuration {
        hit := Some(entries[key].data);
      } else {
        hit := None;
      }
    }

    /** `cache[cacheKey] = { data, timestamp: now }` */
    method Store(key: string, data: seq<CourtDetails>, now: int)
      modifies this
      ensures entries == old(entries)[key := CacheItem(data, now)]
    {
      entries := entries[key := CacheItem(data, now)];
    }

    /**
     * `searchNearbyCourts`: a fresh entry answers without searching. Otherwise
     * the places found (an input here) are built into courts, stored with the
     * time the search completed and returned; a failed search rejects; and a
     * place without types leaves the promise unsettled. The cache changes only
     * when courts are returned.
     */
    method Search(latitude: string, longitude: string, sport: Sport, now: int,
                  outcome: PlacesOutcome, completedAt: int)
      returns (r: SearchResult)
      modifies this
      ensures var key := CacheKey(latitude, longitude, sport);
              IsFresh(old(entries), key, now) ==>
                r == Resolved(old(entries)[key].data) && entries == old(entries)
      ensures var key := CacheKey(latitude, longitude, sport);
              !IsFresh(old(entries), key, now) && outcome.Found? &&
              BuildCourts(outcome.results, sport).Some? ==>
                r == Resolved(BuildCourts(outcome.results, sport).value) &&
                entries == old(entries)[key := CacheItem(r.courts, completedAt)]
      ensures !IsFresh(old(entries), CacheKey(latitude, longitude, sport), now) && outcome.Found? &&
              BuildCourts(outcome.results, sport).None? ==>
                r == Unsettled && entries == old(entries)
      ensures !IsFresh(old(entries), CacheKey(latitude, longitude, sport), now) && outcome.Failed? ==>
                r == Rejected("Failed to fetch courts") && entries == old(entries)
      ensures r.Resolved? <==> IsFresh(old(entries), CacheKey(latitude, longitude, sport), now) ||
                               (outcome.Found? && forall p :: p in outcome.results ==> p.place.types.Some?)
    {
      var key := CacheKey(latitude, longitude, sport);
      var hit := Lookup(key, now);
      if hit.Some? {
        return Resolved(hit.value);
      }
      match outcome
      case Found(results) =>
        var courts := BuildCourts(results, sport);
        if courts.Some? {
          Store(key, courts.value, completedAt);
          r := Resolved(courts.value);
        } else {
          r := Unsettled;
        }
      case Failed =>
        r := Rejected("Failed to fetch courts");
    }
  }
}
