/**
 * The profile page: a record of profile fields edited through `setProfile`
 * updaters, the sport chips (including 'Both'), the merge of the signed-in
 * account's fields, saving, and the incomplete-profile alert. The sport
 * toggle defined here is the one the onboarding form uses as well.
 */
module Profile {
  import opened Common
  import opened AvailabilityEditor
  import opened Defaults

  datatype Level = Beginner | Intermediate | Advanced

  /** The text of a level as stored and compared. */
  function LevelName(l: Level): (name: string)
    ensures name != ""
  {
    match l
    case Beginner => "Beginner"
    case Intermediate => "Intermediate"
    case Advanced => "Advanced"
  }

  // ---------------------------------------------------------------------
  // The sport toggle

  /** `sports.includes(sport) ? sports.filter(s => s !== sport) : [...sports, sport]` */
  function ToggleSport(sports: seq<Sport>, sport: Sport): (r: seq<Sport>)
    ensures sport !in sports ==> r == sports + [sport]
    ensures sport in sports ==> |r| < |sports| && forall i :: 0 <= i < |r| ==> r[i] != sport
  {
    if sport in sports then
      FilterShrinks(sports, s => s != sport, sport);
      Filter(sports, s => s != sport)
    else sports + [sport]
  }

  /** A toggle flips the membership of its sport and keeps every other sport's. */
  lemma ToggleSportMembership(sports: seq<Sport>, sport: Sport, x: Sport)
    ensures x in ToggleSport(sports, sport) <==> if x == sport then sport !in sports else x in sports
  {
    if sport in sports {
      FilterMembership(sports, s => s != sport, x);
    }
  }

  /** Removing keeps the others in order; adding keeps the old list as a prefix. */
  lemma ToggleSportKeepsOrder(sports: seq<Sport>, sport: Sport)
    ensures IsSubsequence(sports, ToggleSport(sports, sport)) || IsSubsequence(ToggleSport(sports, sport), sports)
    ensures sport in sports ==> IsSubsequence(ToggleSport(sports, sport), sports)
  {
    if sport in sports {
      FilterIsSubsequence(sports, s => s != sport);
    } else {
      PrefixIsSubsequence(sports, [sport]);
    }
  }

  lemma {:induction false} PrefixIsSubsequence<T>(a: seq<T>, b: seq<T>)
    ensures IsSubsequence(a, a + b)
  {
    if a != [] {
      PrefixIsSubsequence(a[1..], b);
      assert (a + b)[1..] == a[1..] + b;
    }
  }

  /** Toggling never introduces a repeat. */
  lemma ToggleKeepsDistinct(sports: seq<Sport>, sport: Sport)
    requires Distinct(sports)
    ensures Distinct(ToggleSport(sports, sport))
  {
    if sport in sports {
      FilterKeepsDistinct(sports, s => s != sport);
    }
  }

  /** Toggling the same sport twice restores which sports are selected. */
  lemma ToggleTwiceRestoresMembership(sports: seq<Sport>, sport: Sport, x: Sport)
    ensures x in ToggleSport(ToggleSport(sports, sport), sport) <==> x in sports
  {
    ToggleSportMembership(sports, sport, x);
    ToggleSportMembership(ToggleSport(sports, sport), sport, x);
    ToggleSportMembership(sports, sport, sport);
  }

  /** Without repeats there are at most two sports, as only two exist. */
  lemma AtMostTwoSports(sports: seq<Sport>)
    requires Distinct(sports)
    ensures |sports| <= 2
  {
    if |sports| > 2 {
      ThreeSportsRepeat(sports[0], sports[1], sports[2]);
    }
  }

  lemma ThreeSportsRepeat(a: Sport, b: Sport, c: Sport)
    ensures a == b || a == c || b == c
  {
  }

  // ---------------------------------------------------------------------
  // Profile record and page state

  datatype UserProfile = UserProfile(
    displayName: string,
    email: string,
    photoURL: Option<string>,
    bio: string,
    level: Level,
    sports: seq<Sport>,
    zipCode: string,
    phoneNumber: string,
    availability: Availability)

  datatype ProfileState = ProfileState(
    profile: UserProfile,
    isEditing: bool,
    error: string,
    success: string,
    loading: bool)

  /** The state the page starts in, seeded from the signed-in account when there is one. */
  function InitialState(user: Option<AuthUser>): (s: ProfileState)
    ensures s.profile.level == Beginner && s.profile.sports == [] && s.profile.bio == "" && s.profile.zipCode == ""
    ensures s.profile.availability == DefaultAvailability()
    ensures user.None? ==> s.profile.displayName == "" && s.profile.email == "" &&
                           s.profile.photoURL.None? && s.profile.phoneNumber == ""
    ensures user.Some? ==> s.profile.displayName == OrElse(user.value.displayName, "") &&
                           s.profile.email == OrElse(user.value.email, "") &&
                           s.profile.phoneNumber == OrElse(user.value.phoneNumber, "")
    ensures user.Some? && Truthy(user.value.photoURL) ==> s.profile.photoURL == user.value.photoURL
    ensures user.Some? && !Truthy(user.value.photoURL) ==> s.profile.photoURL.None?
    ensures !s.isEditing && s.error == "" && s.success == "" && !s.loading
  {
    var u: Option<AuthUser> := user;
    ProfileState(
      UserProfile(
        if u.Some? then OrElse(u.value.displayName, "") else "",
        if u.Some? then OrElse(u.value.email, "") else "",
        if u.Some? && Truthy(u.value.photoURL) then u.value.photoURL else None,
        "", Beginner, [], "",
        if u.Some? then OrElse(u.value.phoneNumber, "") else "",
        DefaultAvailability()),
      false, "", "", false)
  }

  /** The effect run when the signed-in account changes: only truthy account fields overwrite. */
  function MergeCurrentUser(prev: UserProfile, user: Option<AuthUser>): (next: UserProfile)
    ensures user.None? ==> next == prev
    ensures user.Some? ==>
              next.displayName == OrElse(user.value.displayName, prev.displayName) &&
              next.email == OrElse(user.value.email, prev.email) &&
              next.phoneNumber == OrElse(user.value.phoneNumber, prev.phoneNumber) &&
              next.photoURL == (if Truthy(user.value.photoURL) then user.value.photoURL else prev.photoURL)
    ensures next.bio == prev.bio && next.level == prev.level && next.sports == prev.sports &&
            next.zipCode == prev.zipCode && next.availability == prev.availability
  {
    match user
    case None => prev
    case Some(u) =>
      prev.(displayName := OrElse(u.displayName, prev.displayName),
            email := OrElse(u.email, prev.email),
            photoURL := if Truthy(u.photoURL) then u.photoURL else prev.photoURL,
            phoneNumber := OrElse(u.phoneNumber, prev.phoneNumber))
  }

  /** Merging the same account twice changes nothing more than merging it once. */
  lemma MergeIsIdempotent(prev: UserProfile, user: Option<AuthUser>)
    ensures MergeCurrentUser(MergeCurrentUser(prev, user), user) == MergeCurrentUser(prev, user)
  {
  }

  /** A merge never blanks a field the profile already had. */
  lemma MergeNeverBlanks(prev: UserProfile, user: Option<AuthUser>)
    ensures prev.displayName != "" ==> MergeCurrentUser(prev, user).displayName != ""
    ensures prev.email != "" ==> MergeCurrentUser(prev, user).email != ""
    ensures prev.phoneNumber != "" ==> MergeCurrentUser(prev, user).phoneNumber != ""
    ensures prev.photoURL.Some? ==> MergeCurrentUser(prev, user).photoURL.Some?
  {
  }

  // ---------------------------------------------------------------------
  // Sport chips

  datatype Chip = TennisChip | PickleballChip | BothChip

  /** The chip's click handler; nothing happens unless the page is in edit mode. */
  function ClickChip(s: ProfileState, chip: Chip): (next: ProfileState)
    ensures !s.isEditing ==> next == s
    ensures s.isEditing && chip == BothChip ==> next.profile.sports == [Tennis, Pickleball]
    ensures s.isEditing && chip == TennisChip ==> next.profile.sports == ToggleSport(s.profile.sports, Tennis)
    ensures s.isEditing && chip == PickleballChip ==> next.profile.sports == ToggleSport(s.profile.sports, Pickleball)
    ensures next.profile == s.profile.(sports := next.profile.sports)
    ensures next.isEditing == s.isEditing && next.error == s.error && next.success == s.success && next.loading == s.loading
  {
    if !s.isEditing then s
    else
      match chip
      case BothChip => s.(profile := s.profile.(sports := [Tennis, Pickleball]))
      case TennisChip => s.(profile := s.profile.(sports := ToggleSport(s.profile.sports, Tennis)))
      case PickleballChip => s.(profile := s.profile.(sports := ToggleSport(s.profile.sports, Pickleball)))
  }

  /** A chip is drawn filled in the primary colour. */
  predicate Highlighted(sports: seq<Sport>, chip: Chip)
  {
    match chip
    case TennisChip => Tennis in sports
    case PickleballChip => Pickleball in sports
    case BothChip => Tennis in sports && Pickleball in sports
  }

  /** 'Both' is highlighted exactly when each single chip is. */
  lemma BothHighlightIffEach(sports: seq<Sport>)
    ensures Highlighted(sports, BothChip) <==> Highlighted(sports, TennisChip) && Highlighted(sports, PickleballChip)
  {
  }

  /** In edit mode, clicking 'Both' highlights every chip; clicking a single chip flips its own highlight only. */
  lemma ClickFlipsHighlight(s: ProfileState, chip: Chip)
    requires s.isEditing
    ensures chip == BothChip ==> forall c :: Highlighted(ClickChip(s, chip).profile.sports, c)
    ensures chip == TennisChip ==>
              (Highlighted(ClickChip(s, chip).profile.sports, TennisChip) <==> !Highlighted(s.profile.sports, TennisChip)) &&
              (Highlighted(ClickChip(s, chip).profile.sports, PickleballChip) <==> Highlighted(s.profile.sports, PickleballChip))
    ensures chip == PickleballChip ==>
              (Highlighted(ClickChip(s, chip).profile.sports, PickleballChip) <==> !Highlighted(s.profile.sports, PickleballChip)) &&
              (Highlighted(ClickChip(s, chip).profile.sports, TennisChip) <==> Highlighted(s.profile.sports, TennisChip))
  {
    ToggleSportMembership(s.profile.sports, Tennis, Tennis);
    ToggleSportMembership(s.profile.sports, Tennis, Pickleball);
    ToggleSportMembership(s.profile.sports, Pickleball, Tennis);
    ToggleSportMembership(s.profile.sports, Pickleball, Pickleball);
  }

  /** Chip clicks keep the sports free of repeats. */
  lemma ClickKeepsDistinct(s: ProfileState, chip: Chip)
    requires Distinct(s.profile.sports)
    ensures Distinct(ClickChip(s, chip).profile.sports)
  {
    if s.isEditing && chip == TennisChip {
      ToggleKeepsDistinct(s.profile.sports, Tennis);
    } else if s.isEditing && chip == PickleballChip {
      ToggleKeepsDistinct(s.profile.sports, Pickleball);
    }
  }

  // ---------------------------------------------------------------------
  // Save and the incomplete-profile alert

  const SavedMessage := "Profile updated successfully!"

  /**
   * `handleSave`: the store update is not made, so the try block cannot
   * fail; edit mode ends with the success message and the profile as it was.
   */
  function HandleSave(s: ProfileState): (next: ProfileState)
    ensures next.profile == s.profile
    ensures !next.isEditing && next.success == "Profile updated successfully!"
    ensures next.error == "" && !next.loading
  {
    s.(isEditing := false, error := "", success := SavedMessage, loading := false)
  }

  /** `!profile.level && !profile.sports.length`: the level is never empty, so the alert never shows. */
  function ShowsIncompleteAlert(p: UserProfile): (shown: bool)
    ensures !shown
  {
    LevelName(p.level) == "" && |p.sports| == 0
  }
}
