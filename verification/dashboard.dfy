/** The dashboard: which lists each role asks the server for, how the
    settled answers are merged into the four figures the page keeps, the
    statistic cards each role sees, and the quick-action buttons. */
module Dashboard {
  import opened Wrappers
  import opened Types
  import Routes
  import Api
  import Text

  /** The requests the dashboard can issue. */
  datatype Source = MetersList | UsersList | SummaryFetch | ReadingsList

  /** The requests issued for a role, in the order their answers are read. */
  function Requests(role: Option<Role>): (sources: seq<Source>)
    ensures role.None? ==> sources == []
    ensures forall i, j :: 0 <= i < j < |sources| ==> sources[i] != sources[j]
    ensures UsersList in sources <==> role == Some(Admin)
    ensures SummaryFetch in sources <==> role == Some(Admin) || role == Some(Landlord)
    ensures ReadingsList in sources <==> role == Some(Admin) || role == Some(Technician)
    ensures MetersList in sources <==> role.Some?
  {
    match role
    case Some(Admin) => [MetersList, UsersList, SummaryFetch, ReadingsList]
    case Some(Landlord) => [MetersList, SummaryFetch]
    case Some(Technician) => [ReadingsList, MetersList]
    case None => []
  }

  /** The body a request resolves with. A list may be absent from it. */
  datatype Reply =
    | MetersReply(meters: Option<seq<Meter>>)
    | UsersReply(users: Option<seq<User>>)
    | SummaryReply(summary: Option<BillingSummary>)
    | ReadingsReply(data: Option<seq<MeterReading>>)

  /** One entry of the settled results: the reply, or a rejection. */
  datatype Settled = Fulfilled(reply: Reply) | Rejected

  /** `reply.meters?.length || 0`; a reply without the field counts 0. */
  function MeterCount(reply: Reply): nat
  {
    if reply.MetersReply? && reply.meters.Some? then |reply.meters.value| else 0
  }

  function UserCount(reply: Reply): nat
  {
    if reply.UsersReply? && reply.users.Some? then |reply.users.value| else 0
  }

  function ReadingCount(reply: Reply): nat
  {
    if reply.ReadingsReply? && reply.data.Some? then |reply.data.value| else 0
  }

  function SummaryOf(reply: Reply): Option<BillingSummary>
  {
    if reply.SummaryReply? then reply.summary else None
  }

  /** The figures the page keeps. */
  datatype DashboardData = DashboardData(
    totalMeters: nat,
    totalUsers: nat,
    totalReadings: nat,
    billingSummary: Option<BillingSummary>)

  /** The figures before any answer is read. */
  const Initial := DashboardData(0, 0, 0, None)

  /** The merge as the page writes it: per role, each fulfilled result at
      its position sets one figure; a rejected one leaves the figure at its
      initial value. `Promise.allSettled` yields one result per request. */
  function Merge(role: Option<Role>, results: seq<Settled>): (d: DashboardData)
    requires |results| == |Requests(role)|
  {
    match role
    case Some(Admin) =>
      DashboardData(
        if results[0].Fulfilled? then MeterCount(results[0].reply) else 0,
        if results[1].Fulfilled? then UserCount(results[1].reply) else 0,
        if results[3].Fulfilled? then ReadingCount(results[3].reply) else 0,
        if results[2].Fulfilled? then SummaryOf(results[2].reply) else None)
    case Some(Landlord) =>
      DashboardData(
        if results[0].Fulfilled? then MeterCount(results[0].reply) else 0,
        0,
        0,
        if results[1].Fulfilled? then SummaryOf(results[1].reply) else None)
    case Some(Technician) =>
      DashboardData(
        if results[1].Fulfilled? then MeterCount(results[1].reply) else 0,
        0,
        if results[0].Fulfilled? then ReadingCount(results[0].reply) else 0,
        None)
    case None => Initial
  }

  /** Reference reading of one answer: a fulfilled answer to a request sets
      the figure that request is for. */
  function Apply(d: DashboardData, source: Source, result: Settled): DashboardData
  {
    match result
    case Rejected => d
    case Fulfilled(reply) =>
      match source
      case MetersList => d.(totalMeters := MeterCount(reply))
      case UsersList => d.(totalUsers := UserCount(reply))
      case SummaryFetch => d.(billingSummary := SummaryOf(reply))
      case ReadingsList => d.(totalReadings := ReadingCount(reply))
  }

  /** Reference merge: every request's answer applied in turn. */
  function Fold(d: DashboardData, sources: seq<Source>, results: seq<Settled>): DashboardData
    requires |sources| == |results|
    decreases |sources|
  {
    if |sources| == 0 then d else Fold(Apply(d, sources[0], results[0]), sources[1..], results[1..])
  }

  /** The page's positional merge is the same as applying each answer to
      the figure its request is for. */
  lemma MergeIsFold(role: Option<Role>, results: seq<Settled>)
    requires |results| == |Requests(role)|
    ensures Merge(role, results) == Fold(Initial, Requests(role), results)
  {
    var s := Requests(role);
    var n := |s|;
    if n > 0 {
      assert Fold(Initial, s, results) == Fold(Apply(Initial, s[0], results[0]), s[1..], results[1..]);
    }
    if n > 1 {
      var d1 := Apply(Initial, s[0], results[0]);
      assert Fold(d1, s[1..], results[1..])
          == Fold(Apply(d1, s[1], results[1]), s[2..], results[2..]);
    }
    if n > 2 {
      var d2 := Apply(Apply(Initial, s[0], results[0]), s[1], results[1]);
      assert Fold(d2, s[2..], results[2..])
          == Fold(Apply(d2, s[2], results[2]), s[3..], results[3..]);
    }
    if n > 3 {
      var d3 := Apply(Apply(Apply(Initial, s[0], results[0]), s[1], results[1]), s[2], results[2]);
      assert Fold(d3, s[3..], results[3..])
          == Fold(Apply(d3, s[3], results[3]), s[4..], results[4..]);
    }
  }

  /** Each figure comes from the answer to its own request, wherever that
      request sits in the role's list, and stays at zero (or absent) when
      the role does not ask for it. */
  lemma MergeReadsOwnAnswer(role: Option<Role>, results: seq<Settled>, i: nat)
    requires |results| == |Requests(role)| && i < |results|
    ensures Requests(role)[i] == MetersList ==>
              Merge(role, results).totalMeters == (if results[i].Fulfilled? then MeterCount(results[i].reply) else 0)
    ensures Requests(role)[i] == UsersList ==>
              Merge(role, results).totalUsers == (if results[i].Fulfilled? then UserCount(results[i].reply) else 0)
    ensures Requests(role)[i] == ReadingsList ==>
              Merge(role, results).totalReadings == (if results[i].Fulfilled? then ReadingCount(results[i].reply) else 0)
    ensures Requests(role)[i] == SummaryFetch ==>
              Merge(role, results).billingSummary == (if results[i].Fulfilled? then SummaryOf(results[i].reply) else None)
  {
  }

  /** Figures for requests a role does not make keep their initial value. */
  lemma UnrequestedStayInitial(role: Option<Role>, results: seq<Settled>)
    requires |results| == |Requests(role)|
    ensures UsersList !in Requests(role) ==> Merge(role, results).totalUsers == 0
    ensures ReadingsList !in Requests(role) ==> Merge(role, results).totalReadings == 0
    ensures SummaryFetch !in Requests(role) ==> Merge(role, results).billingSummary.None?
    ensures MetersList !in Requests(role) ==> Merge(role, results).totalMeters == 0
  {
  }

  /** When every request fails, the page shows the initial figures. */
  lemma AllRejectedGivesInitial(role: Option<Role>, results: seq<Settled>)
    requires |results| == |Requests(role)|
    requires forall i :: 0 <= i < |results| ==> results[i] == Rejected
    ensures Merge(role, results) == Initial
  {
    if role.Some? {
      assert results[0] == Rejected && results[1] == Rejected;
    }
    if role == Some(Admin) {
      assert results[2] == Rejected && results[3] == Rejected;
    }
  }

  /** How the dashboard receives a readings list: `readingsAPI.getAll()`
      hands on the server's page under `data`. */
  function ReadingsAnswer(reply: Api.ReadingsReply): (r: Reply)
    ensures ReadingCount(r) == |reply.readings|
  {
    ReadingsReply(Some(Api.ReadingsPage(reply).data))
  }

  /** As written, "Total Readings" (and the technician's "My Readings") is
      the length of the one page the dashboard asks for. The request names
      no page size, so it asks for 20; a server that honours the request
      sends at most 20, and whenever more readings exist the figure is not
      their number. */
  lemma ReadingsFigureIsOnePage(reply: Api.ReadingsReply)
    requires |reply.readings| <= Api.DefaultLimit
    ensures Text.ParseDecimal(Api.ReadingsQuery(None, None, None)["limit"]) == Some(20)
    ensures ReadingCount(ReadingsAnswer(reply)) <= 20
    ensures reply.pagination.total > 20 ==> ReadingCount(ReadingsAnswer(reply)) != reply.pagination.total
  {
    Api.PagingRoundTrip(None, None, None, None, None);
  }

  /** The readings figure read from the pagination total the server sends
      with the page (`pagination?.total || 0`). */
  function ReadingsTotal(page: PaginatedResponse<MeterReading>): nat
  {
    if page.pagination.total > 0 then page.pagination.total else 0
  }

  /** Read from the pagination total, the figure is the number of readings
      the server holds whatever page size was asked for: two pages of the
      same listing give the same figure, and it is never below the length
      of the page actually sent. */
  lemma TotalCountsEveryReading(reply: Api.ReadingsReply, other: Api.ReadingsReply)
    requires |reply.readings| <= reply.pagination.total
    requires other.pagination.total == reply.pagination.total
    ensures ReadingsTotal(Api.ReadingsPage(reply)) == reply.pagination.total
    ensures ReadingsTotal(Api.ReadingsPage(other)) == ReadingsTotal(Api.ReadingsPage(reply))
    ensures ReadingsTotal(Api.ReadingsPage(reply)) >= ReadingCount(ReadingsAnswer(reply))
  {
  }

  /** The figure shown on a statistic card. */
  datatype Figure = Count(n: nat) | Amount(a: real)

  datatype StatCard = StatCard(title: string, figure: Figure)

  /** `billingSummary?.field || 0` for a count field. */
  function SummaryCount(d: DashboardData, field: BillingSummary -> nat): nat
  {
    if d.billingSummary.Some? then field(d.billingSummary.value) else 0
  }

  /** The statistic cards a role sees once loading has finished. */
  function Cards(role: Option<Role>, d: DashboardData): (cards: seq<StatCard>)
    ensures role.None? <==> cards == []
    ensures role.Some? ==> |cards| == if role == Some(Technician) then 3 else 4
  {
    match role
    case Some(Admin) =>
      [ StatCard("Total Users", Count(d.totalUsers)),
        StatCard("Total Meters", Count(d.totalMeters)),
        StatCard("Total Readings", Count(d.totalReadings)),
        StatCard("Total Bills", Count(SummaryCount(d, (s: BillingSummary) => s.totalBills))) ]
    case Some(Landlord) =>
      [ StatCard("My Meters", Count(d.totalMeters)),
        StatCard("Paid Bills", Count(SummaryCount(d, (s: BillingSummary) => s.paidBills))),
        StatCard("Pending Bills", Count(SummaryCount(d, (s: BillingSummary) => s.pendingBills))),
        StatCard("Total Amount", Amount(if d.billingSummary.Some? then d.billingSummary.value.totalAmount else 0.0)) ]
    case Some(Technician) =>
      [ StatCard("Available Meters", Count(d.totalMeters)),
        StatCard("My Readings", Count(d.totalReadings)),
        StatCard("Today's Readings", Count(0)) ]
    case None => []
  }

  /** The administrator's cards show the merged user, meter and reading
      figures, and the summary's bill count, or 0 when no summary arrived
      (`billingSummary?.totalBills || 0`). */
  lemma AdminCardsFromMerge(results: seq<Settled>)
    requires |results| == 4
    ensures var cards := Cards(Some(Admin), Merge(Some(Admin), results));
            && cards[0].figure == Count(if results[1].Fulfilled? then UserCount(results[1].reply) else 0)
            && cards[1].figure == Count(if results[0].Fulfilled? then MeterCount(results[0].reply) else 0)
            && cards[2].figure == Count(if results[3].Fulfilled? then ReadingCount(results[3].reply) else 0)
            && cards[3].figure == Count(if results[2].Fulfilled? && SummaryOf(results[2].reply).Some?
                                        then SummaryOf(results[2].reply).value.totalBills else 0)
  {
  }

  /** A landlord whose summary arrived sees its paid and pending counts and
      its total; one whose summary request failed sees zeros. */
  lemma LandlordCardsFromSummary(results: seq<Settled>)
    requires |results| == 2
    ensures var cards := Cards(Some(Landlord), Merge(Some(Landlord), results));
            && cards[0].figure == Count(if results[0].Fulfilled? then MeterCount(results[0].reply) else 0)
            && (results[1] == Rejected ==>
                  cards[1].figure == Count(0) && cards[2].figure == Count(0) && cards[3].figure == Amount(0.0))
            && (results[1].Fulfilled? && SummaryOf(results[1].reply).Some? ==>
                  var s := SummaryOf(results[1].reply).value;
                  cards[1].figure == Count(s.paidBills) && cards[2].figure == Count(s.pendingBills)
                  && cards[3].figure == Amount(s.totalAmount))
  {
  }

  /** The technician's "Today's Readings" card shows zero whatever the
      server answered; "My Readings" counts the readings list. */
  lemma TechnicianTodayIsZero(results: seq<Settled>)
    requires |results| == 2
    ensures Cards(Some(Technician), Merge(Some(Technician), results))[2].figure == Count(0)
    ensures Cards(Some(Technician), Merge(Some(Technician), results))[1].figure
              == Count(if results[0].Fulfilled? then ReadingCount(results[0].reply) else 0)
  {
  }

  /** A quick-action button and the page it opens (none for "Contact Support"). */
  datatype QuickAction = QuickAction(caption: string, target: Option<string>)

  function QuickActions(role: Option<Role>): seq<QuickAction>
  {
    match role
    case Some(Admin) =>
      [ QuickAction("Manage Meters", Some("/meters")),
        QuickAction("Manage Users", Some("/users")),
        QuickAction("View All Bills", Some("/bills")) ]
    case Some(Technician) =>
      [ QuickAction("Record Readings", Some("/readings")),
        QuickAction("View My Readings", Some("/readings")) ]
    case Some(Landlord) =>
      [ QuickAction("View My Bills", Some("/bills")),
        QuickAction("Contact Support", None) ]
    case None => []
  }

  /** Every page a quick action opens lets the user's role through its guard. */
  lemma QuickActionsReachable(role: Role)
    ensures forall a :: a in QuickActions(Some(role)) && a.target.Some? ==>
              Routes.AdmittedRoles(a.target.value).Some? && role in Routes.AdmittedRoles(a.target.value).value
  {
    Routes.RouteTableFacts();
  }

  /** The greeting names the user, or their phone number when the name is
      missing or empty. */
  function Greeting(user: User): (text: string)
    ensures Truthy(user.name) ==> text == "Welcome back, " + user.name.value + "!"
    ensures !Truthy(user.name) ==> text == "Welcome back, " + user.phoneNumber + "!"
  {
    "Welcome back, " + OrElse(user.name, user.phoneNumber) + "!"
  }
}
