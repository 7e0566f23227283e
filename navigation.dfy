/**
 * The bottom navigation bar: the selected index and the route each index
 * leads to.
 */
module Navigation {

  const InitialValue: int := 0

  /** The `switch` in `handleChange`; any index other than 0 to 3 falls to the default. */
  function RouteFor(index: int): (path: string)
    ensures index == 0 ==> path == "/"
    ensures index == 1 ==> path == "/groups"
    ensures index == 2 ==> path == "/courts"
    ensures index == 3 ==> path == "/profile"
    ensures !(0 <= index <= 3) ==> path == "/"
  {
    match index
    case 1 => "/groups"
    case 2 => "/courts"
    case 3 => "/profile"
    case _ => "/"
  }

  datatype NavState = NavState(value: int)

  datatype ChangeOutcome = ChangeOutcome(next: NavState, navigations: seq<string>)

  /** `handleChange`: the value is set first, whatever it is, then one navigation happens. */
  function HandleChange(s: NavState, newValue: int): (o: ChangeOutcome)
    ensures o.next.value == newValue
    ensures |o.navigations| == 1 && o.navigations[0] == RouteFor(newValue)
  {
    ChangeOutcome(NavState(newValue), [RouteFor(newValue)])
  }

  /** The four tabs lead to four different pages. */
  lemma TabsLeadToDistinctRoutes(i: int, j: int)
    requires 0 <= i <= 3 && 0 <= j <= 3
    ensures RouteFor(i) == RouteFor(j) <==> i == j
  {
  }

  /** Every route the bar leads to is one of the four tab routes. */
  lemma EveryRouteIsATab(index: int)
    ensures RouteFor(index) in ["/", "/groups", "/courts", "/profile"]
  {
  }
}
