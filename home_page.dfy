/**
 * The home page: a players/communities view switch and a sport filter over
 * the nearby players and groups.
 */
module HomePage {
  import opened Common
  import opened AvailabilityEditor
  import opened Profile

  datatype View = Players | Communities

  datatype HomeState = HomeState(view: View, selectedSport: SportFilter)

  const InitialState := HomeState(Players, All)

  /** `handleViewChange`: a null selection (clicking the active button) keeps the view. */
  function HandleViewChange(s: HomeState, newView: Option<View>): (next: HomeState)
    ensures newView.None? ==> next == s
    ensures newView.Some? ==> next.view == newView.value
    ensures next.selectedSport == s.selectedSport
  {
    match newView
    case None => s
    case Some(v) => s.(view := v)
  }

  function HandleSportChange(s: HomeState, f: SportFilter): (next: HomeState)
    ensures next.selectedSport == f && next.view == s.view
  {
    s.(selectedSport := f)
  }

  datatype Player = Player(
    id: int,
    name: string,
    sports: seq<Sport>,
    level: Level,
    distance: string,
    availability: Option<Availability>)

  datatype Member = Member(id: int, name: string, avatar: Option<string>)

  /** A `Group` record: it has a `sport` and no `type` field. */
  datatype Group = Group(
    id: int,
    name: string,
    sport: Sport,
    memberCount: int,
    location: string,
    lastActive: string,
    members: seq<Member>)

  // ---------------------------------------------------------------------
  // Players

  predicate PlayerMatches(f: SportFilter, p: Player)
  {
    f.All? || f.sport in p.sports
  }

  /** The player list under the current filter. */
  function FilterPlayers(players: seq<Player>, f: SportFilter): (shown: seq<Player>)
    ensures f.All? ==> shown == players
    ensures forall i :: 0 <= i < |shown| ==> PlayerMatches(f, shown[i])
  {
    if f.All? then
      FilterAllPass(players, p => PlayerMatches(f, p));
      Filter(players, p => PlayerMatches(f, p))
    else Filter(players, p => PlayerMatches(f, p))
  }

  /** A player is listed exactly when listed nearby and playing the selected sport; the order is kept. */
  lemma FilterPlayersExact(players: seq<Player>, f: SportFilter, p: Player)
    ensures p in FilterPlayers(players, f) <==> p in players && (f.All? || f.sport in p.sports)
    ensures IsSubsequence(FilterPlayers(players, f), players)
  {
    FilterMembership(players, p => PlayerMatches(f, p), p);
    FilterIsSubsequence(players, p => PlayerMatches(f, p));
  }

  // ---------------------------------------------------------------------
  // Groups

  /** `group.type`: a `Group` carries no such field, so reading it gives `undefined`. */
  function GroupTypeField(g: Group): (t: Option<string>)
    ensures t.None?
  {
    None
  }

  /** The group filter as written: `selectedSport === 'all' || group.type === selectedSport`. */
  predicate GroupMatchesAsWritten(f: SportFilter, g: Group)
  {
    f.All? || GroupTypeField(g) == Some(SportName(f.sport))
  }

  function FilterGroupsAsWritten(groups: seq<Group>, f: SportFilter): (shown: seq<Group>)
    ensures f.All? ==> shown == groups
    ensures forall i :: 0 <= i < |shown| ==> GroupMatchesAsWritten(f, shown[i])
  {
    if f.All? then
      FilterAllPass(groups, g => GroupMatchesAsWritten(f, g));
      Filter(groups, g => GroupMatchesAsWritten(f, g))
    else Filter(groups, g => GroupMatchesAsWritten(f, g))
  }

  /** Choosing tennis or pickleball on the communities view lists no group at all. */
  lemma SportFilterHidesEveryGroup(groups: seq<Group>, s: Sport)
    ensures FilterGroupsAsWritten(groups, Only(s)) == []
  {
    var shown := FilterGroupsAsWritten(groups, Only(s));
    assert shown != [] ==> GroupMatchesAsWritten(Only(s), shown[0]);
  }

  /** The intended group filter, on the field groups do have. */
  predicate GroupMatches(f: SportFilter, g: Group)
  {
    f.All? || g.sport == f.sport
  }

  function FilterGroups(groups: seq<Group>, f: SportFilter): (shown: seq<Group>)
    ensures f.All? ==> shown == groups
    ensures forall i :: 0 <= i < |shown| ==> GroupMatches(f, shown[i])
  {
    if f.All? then
      FilterAllPass(groups, g => GroupMatches(f, g));
      Filter(groups, g => GroupMatches(f, g))
    else Filter(groups, g => GroupMatches(f, g))
  }

  /** A group is listed exactly when listed nearby and of the selected sport; the order is kept. */
  lemma FilterGroupsExact(groups: seq<Group>, f: SportFilter, g: Group)
    ensures g in FilterGroups(groups, f) <==> g in groups && (f.All? || g.sport == f.sport)
    ensures IsSubsequence(FilterGroups(groups, f), groups)
  {
    FilterMembership(groups, g => GroupMatches(f, g), g);
    FilterIsSubsequence(groups, g => GroupMatches(f, g));
  }

  /** The two group filters differ on any list holding a group of the selected sport. */
  lemma GroupFiltersDiffer(groups: seq<Group>, g: Group)
    requires g in groups
    ensures g in FilterGroups(groups, Only(g.sport))
    ensures g !in FilterGroupsAsWritten(groups, Only(g.sport))
  {
    FilterMembership(groups, x => GroupMatches(Only(g.sport), x), g);
  }

  // ---------------------------------------------------------------------
  // Group cards

  /** What a group card prints: its name, the sport caption, the location and the member count. */
  datatype GroupCard = GroupCard(id: int, name: string, caption: string, location: string, memberCount: int)

  /**
   * `renderGroupCard` as written: the caption reads `group.type.charAt(0)`,
   * and `type` is undefined on every group, so the call throws (`None`).
   */
  function RenderGroupCardAsWritten(g: Group): (card: Option<GroupCard>)
    ensures card.None?
  {
    match GroupTypeField(g)
    case None => None
    case Some(t) => Some(GroupCard(g.id, g.name, Capitalize(t), g.location, g.memberCount))
  }

  /**
   * The card as intended: the caption from `sport`, and the member count in
   * place of the `members` array of objects, which React refuses to render.
   */
  function RenderGroupCard(g: Group): (card: GroupCard)
    ensures card.id == g.id && card.name == g.name && card.location == g.location
    ensures card.caption == Capitalize(SportName(g.sport)) && card.memberCount == g.memberCount
  {
    GroupCard(g.id, g.name, Capitalize(SportName(g.sport)), g.location, g.memberCount)
  }

  // ---------------------------------------------------------------------
  // What the page lists

  /** The cards under the toggle, or a render that throws and leaves the page blank. */
  datatype Listing = PlayerCards(players: seq<Player>) | GroupCards(cards: seq<GroupCard>) | Crashed

  /**
   * The cards under the toggle as written. On the communities view every
   * group that passes the filter reaches the failing card render.
   */
  function Shown(s: HomeState, players: seq<Player>, groups: seq<Group>): (l: Listing)
    ensures s.view == Players <==> l.PlayerCards?
    ensures l.PlayerCards? ==> l.players == FilterPlayers(players, s.selectedSport)
    ensures s.view == Communities ==> (l.Crashed? <==> FilterGroupsAsWritten(groups, s.selectedSport) != [])
    ensures l.GroupCards? ==> l.cards == []
  {
    if s.view == Players then PlayerCards(FilterPlayers(players, s.selectedSport))
    else
      var shown := FilterGroupsAsWritten(groups, s.selectedSport);
      assert shown != [] ==> RenderGroupCardAsWritten(shown[0]).None?;
      match MapAll(shown, RenderGroupCardAsWritten)
      case None => Crashed
      case Some(cards) => GroupCards(cards)
  }

  /**
   * The communities view never shows a group: with a sport selected the
   * filter lets none through, and with 'all' any group crashes the render.
   */
  lemma CommunitiesViewShowsNoGroup(s: HomeState, players: seq<Player>, groups: seq<Group>)
    requires s.view == Communities
    ensures Shown(s, players, groups) == Crashed || Shown(s, players, groups) == GroupCards([])
    ensures s.selectedSport.All? ==> (Shown(s, players, groups) == Crashed <==> groups != [])
    ensures s.selectedSport.Only? ==> Shown(s, players, groups) == GroupCards([])
  {
    if s.selectedSport.Only? {
      SportFilterHidesEveryGroup(groups, s.selectedSport.sport);
    }
  }

  /** The cards under the toggle with both group defects corrected. */
  function ShownCorrected(s: HomeState, players: seq<Player>, groups: seq<Group>): (l: Listing)
    ensures s.view == Players <==> l.PlayerCards?
    ensures l.PlayerCards? ==> l.players == FilterPlayers(players, s.selectedSport)
    ensures !l.Crashed?
    ensures l.GroupCards? ==> l.cards == Map(FilterGroups(groups, s.selectedSport), RenderGroupCard)
  {
    if s.view == Players then PlayerCards(FilterPlayers(players, s.selectedSport))
    else GroupCards(Map(FilterGroups(groups, s.selectedSport), RenderGroupCard))
  }

  /**
   * With the corrections, the communities view shows a card for every group
   * of the selected sport, and every card it shows is such a group's.
   */
  lemma CorrectedCommunitiesView(s: HomeState, players: seq<Player>, groups: seq<Group>,
                                 g: Group, c: GroupCard)
    requires s.view == Communities
    ensures g in groups && GroupMatches(s.selectedSport, g) ==>
              RenderGroupCard(g) in ShownCorrected(s, players, groups).cards
    ensures c in ShownCorrected(s, players, groups).cards ==>
              exists h :: h in groups && GroupMatches(s.selectedSport, h) && c == RenderGroupCard(h)
  {
    var shown := FilterGroups(groups, s.selectedSport);
    assert ShownCorrected(s, players, groups) == GroupCards(Map(shown, RenderGroupCard));
    FilterGroupsExact(groups, s.selectedSport, g);
    if g in groups && GroupMatches(s.selectedSport, g) {
      MapContains(shown, RenderGroupCard, g);
    }
    if c in Map(shown, RenderGroupCard) {
      MapMembers(shown, RenderGroupCard, c);
      var h :| h in shown && c == RenderGroupCard(h);
      FilterGroupsExact(groups, s.selectedSport, h);
    }
  }

  /** The page opens on every nearby player. */
  lemma InitialListing(players: seq<Player>, groups: seq<Group>)
    ensures Shown(InitialState, players, groups) == PlayerCards(players)
  {
  }
}
