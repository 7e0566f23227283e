/**
 * The group details page: the join-status state machine, the join button it
 * selects, and which alert, tabs and chat panel the page shows.
 */
module GroupDetails {

  /** `joinStatus`: 'none' | 'pending' | 'member'. */
  datatype JoinStatus = NotRequested | Pending | Member

  const InitialStatus := NotRequested

  /** `handleJoin`: the request itself is not sent, so the status always becomes pending. */
  function HandleJoin(status: JoinStatus): (next: JoinStatus)
    ensures next == Pending
  {
    Pending
  }

  datatype ClickAction = CallsHandleJoin | NoAction

  datatype JoinButton = JoinButton(caption: string, disabled: bool, onClick: ClickAction)

  /** `renderJoinButton`: the switch on the status, with 'none' as the default case. */
  function RenderJoinButton(status: JoinStatus): (b: JoinButton)
    ensures b.onClick == CallsHandleJoin <==> status == NotRequested
    ensures b.disabled <==> status == Pending
    ensures status == Pending ==> b.caption == "Request Pending"
    ensures status == Member ==> b.caption == "Open Chat"
    ensures status == NotRequested ==> b.caption == "Request to Join"
  {
    match status
    case Pending => JoinButton("Request Pending", true, NoAction)
    case Member => JoinButton("Open Chat", false, NoAction)
    case NotRequested => JoinButton("Request to Join", false, CallsHandleJoin)
  }

  /** What the user can do on the page: press the join button or pick a tab. */
  datatype PageEvent = PressJoinButton | SelectTab(index: int)

  datatype PageState = PageState(status: JoinStatus, tabValue: int)

  const InitialPage := PageState(InitialStatus, 0)

  /** A press runs the button's handler, if it has one and is enabled; a tab choice sets the tab. */
  function Step(s: PageState, e: PageEvent): (next: PageState)
    ensures e.SelectTab? ==> next == s.(tabValue := e.index)
    ensures e.PressJoinButton? && s.status == NotRequested ==> next == s.(status := Pending)
    ensures e.PressJoinButton? && s.status != NotRequested ==> next == s
  {
    match e
    case SelectTab(i) => s.(tabValue := i)
    case PressJoinButton =>
      var b := RenderJoinButton(s.status);
      if !b.disabled && b.onClick == CallsHandleJoin then s.(status := HandleJoin(s.status)) else s
  }

  function Run(s: PageState, events: seq<PageEvent>): PageState
    decreases |events|
  {
    if events == [] then s else Run(Step(s, events[0]), events[1..])
  }

  /** Nothing sets 'member': from the initial page only 'none' and 'pending' are reachable. */
  lemma {:induction false} NeverMember(s: PageState, events: seq<PageEvent>)
    requires s.status != Member
    ensures Run(s, events).status != Member
    ensures s.status == Pending ==> Run(s, events).status == Pending
    decreases |events|
  {
    if events != [] {
      NeverMember(Step(s, events[0]), events[1..]);
    }
  }

  lemma ReachableStatuses(events: seq<PageEvent>)
    ensures Run(InitialPage, events).status in {NotRequested, Pending}
  {
    NeverMember(InitialPage, events);
  }

  /** The info alert under the button. */
  predicate ShowsPendingAlert(status: JoinStatus)
  {
    status == Pending
  }

  /** The tab labels: the Chat tab is listed for members only. */
  function TabLabels(status: JoinStatus): (labels: seq<string>)
    ensures |labels| >= 3 && labels[..3] == ["About", "Members", "Schedule"]
    ensures "Chat" in labels <==> status == Member
  {
    ["About", "Members", "Schedule"] + (if status == Member then ["Chat"] else [])
  }

  /** The chat panel sits outside the tab panels and every condition, so it is always rendered. */
  const ChatAlwaysRendered: bool := true

  /**
   * In every reachable state the Chat tab is missing while the chat panel is
   * on the page, and the alert shows exactly after a join request.
   */
  lemma ChatShownWithoutTab(events: seq<PageEvent>)
    ensures var s := Run(InitialPage, events);
            "Chat" !in TabLabels(s.status) && ChatAlwaysRendered &&
            (ShowsPendingAlert(s.status) <==> PressJoinButton in events)
  {
    NeverMember(InitialPage, events);
    PendingIffPressed(InitialPage, events);
  }

  lemma {:induction false} PendingIffPressed(s: PageState, events: seq<PageEvent>)
    requires s.status != Member
    ensures Run(s, events).status == Pending <==> s.status == Pending || PressJoinButton in events
    decreases |events|
  {
    if events != [] {
      PendingIffPressed(Step(s, events[0]), events[1..]);
      NeverMember(Step(s, events[0]), events[1..]);
      assert events == [events[0]] + events[1..];
    }
  }
}
