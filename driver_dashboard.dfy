/**
 * The driver dashboard page: the status flow a driver steps an order
 * through, the classification of the orders on screen, the page's own copy
 * of the available-order prioritiser, its statistics view and the
 * notification watermark kept in component state.
 *
 * `Date.now()` is a parameter `now` (milliseconds); the JSON bodies the page
 * fetches are parameters, `None` standing for a body that is missing or is
 * not of the expected shape.
 */
module DriverDashboard {
  import opened Wrappers
  import opened Seqs
  import opened Sorting
  import opened Schema
  import opened DriverRoutes

  // ---------------------------------------------------------------------
  // The next-status flow

  /** The statuses an order passes through once confirmed, in order. */
  const StatusFlow: seq<string> := [Confirmed, Preparing, Ready, PickedUp, OnWay, Delivered]

  /** `getNextStatus`'s `statusFlow` table. */
  const NextStatusTable: map<string, string> :=
    map[Confirmed := Preparing, Preparing := Ready, Ready := PickedUp,
        PickedUp := OnWay, OnWay := Delivered]

  /**
   * `getNextStatus`: the successor of a status on the flow, `None` (the
   * source's `undefined`) for the last status and for every status off it.
   */
  function NextStatus(status: string): (r: Option<string>)
    ensures r.Some? <==> status in StatusFlow && status != Delivered
    ensures forall i :: 0 <= i < |StatusFlow| - 1 && StatusFlow[i] == status ==>
      r == Some(StatusFlow[i + 1])
  {
    if status in NextStatusTable then Some(NextStatusTable[status]) else None
  }

  /** The status reached after pressing "next" `k` times, `None` once the flow has ended. */
  function Advance(status: string, k: nat): Option<string>
    decreases k
  {
    if k == 0 then Some(status)
    else match NextStatus(status)
      case None => None
      case Some(next) => Advance(next, k - 1)
  }

  /** From position `i` of the flow, `k` steps lead to position `i + k`, or past its end. */
  lemma {:induction false} AdvanceAlongFlow(i: nat, k: nat)
    requires i < |StatusFlow|
    ensures Advance(StatusFlow[i], k) ==
      if i + k < |StatusFlow| then Some(StatusFlow[i + k]) else None
    decreases k
  {
    if k > 0 {
      if i + 1 < |StatusFlow| {
        assert NextStatus(StatusFlow[i]) == Some(StatusFlow[i + 1]);
        AdvanceAlongFlow(i + 1, k - 1);
      } else {
        assert NextStatus(StatusFlow[i]) == None;
      }
    }
  }

  /**
   * Starting from `confirmed`, the flow reaches `delivered` after exactly
   * five steps, not before, and stops there.
   */
  lemma ConfirmedReachesDelivered()
    ensures Advance(Confirmed, 5) == Some(Delivered)
    ensures forall k :: 0 <= k < 5 ==> Advance(Confirmed, k) != Some(Delivered)
    ensures forall k :: k > 5 ==> Advance(Confirmed, k) == None
  {
    AdvanceAlongFlow(0, 5);
    forall k | 0 <= k < 5 ensures Advance(Confirmed, k) != Some(Delivered) {
      AdvanceAlongFlow(0, k);
    }
    forall k | k > 5 ensures Advance(Confirmed, k) == None {
      AdvanceAlongFlow(0, k);
    }
  }

  /** Pressing "next" one or more times never returns to the status started from. */
  lemma NoCycle(status: string, k: nat)
    requires k >= 1
    ensures Advance(status, k) != Some(status)
  {
    if status in StatusFlow {
      var i :| 0 <= i < |StatusFlow| && StatusFlow[i] == status;
      AdvanceAlongFlow(i, k);
    } else {
      assert NextStatus(status) == None;
    }
  }

  // ---------------------------------------------------------------------
  // Status text

  /** `getStatusText`'s table of display labels. */
  const StatusText: map<string, string> :=
    map[Pending := "في الانتظار", Confirmed := "مؤكد", Preparing := "قيد التحضير",
        Ready := "جاهز للاستلام", PickedUp := "تم الاستلام", OnWay := "في الطريق",
        Delivered := "تم التسليم", Cancelled := "ملغي"]

  /**
   * `getStatusText`: the label of one of the eight statuses, the status
   * itself for anything else. A known status is always translated, and no
   * two known statuses share a label.
   */
  function GetStatusText(status: string): (r: string)
    ensures r == status <==> status !in StatusText
    ensures forall other :: other in StatusText && other != status && status in StatusText ==>
      StatusText[other] != r
  {
    if status in StatusText then StatusText[status] else status
  }

  /** The table has a label for exactly the eight statuses of the order flow. */
  lemma StatusTextKeys()
    ensures StatusText.Keys == {Pending, Confirmed, Preparing, Ready, PickedUp, OnWay, Delivered, Cancelled}
  {
  }

  // ---------------------------------------------------------------------
  // Order categories

  /** `order.driverId === currentDriver?.id` for the signed-in driver `me`. */
  function MineIn(me: string, statuses: set<string>): Order -> bool {
    o => OwnedBy(o, me) && o.status in statuses
  }

  datatype Categories = Categories(
    available: seq<Order>, accepted: seq<Order>, inProgress: seq<Order>, completed: seq<Order>)

  /**
   * `categorizeOrders`: the orders open for pickup, and the signed-in
   * driver's orders being prepared, on the road, and delivered.
   */
  function Categorize(orders: seq<Order>, me: string): (c: Categories)
    ensures forall o :: o in c.available <==> o in orders && o.status == Confirmed && Unassigned(o)
    ensures forall o :: o in c.accepted <==> o in orders && OwnedBy(o, me) && o.status in {Preparing, Ready}
    ensures forall o :: o in c.inProgress <==> o in orders && OwnedBy(o, me) && o.status in {PickedUp, OnWay}
    ensures forall o :: o in c.completed <==> o in orders && OwnedBy(o, me) && o.status == Delivered
  {
    FilterMembership(orders, OpenForPickup);
    FilterMembership(orders, MineIn(me, {Preparing, Ready}));
    FilterMembership(orders, MineIn(me, {PickedUp, OnWay}));
    FilterMembership(orders, MineIn(me, {Delivered}));
    Categories(
      available := Filter(orders, OpenForPickup),
      accepted := Filter(orders, MineIn(me, {Preparing, Ready})),
      inProgress := Filter(orders, MineIn(me, {PickedUp, OnWay})),
      completed := Filter(orders, MineIn(me, {Delivered})))
  }

  /** No order is shown in two categories. */
  lemma CategoriesDisjoint(orders: seq<Order>, me: string, o: Order)
    ensures var c := Categorize(orders, me);
      var n := (if o in c.available then 1 else 0) + (if o in c.accepted then 1 else 0)
             + (if o in c.inProgress then 1 else 0) + (if o in c.completed then 1 else 0);
      n <= 1
  {
  }

  /** The page categorises its available list and the driver's own list together. */
  lemma CategorizeConcat(available: seq<Order>, mine: seq<Order>, me: string, o: Order)
    ensures var c := Categorize(available + mine, me);
      && (o in c.available <==> o in Categorize(available, me).available || o in Categorize(mine, me).available)
      && (o in c.accepted <==> o in Categorize(available, me).accepted || o in Categorize(mine, me).accepted)
      && (o in c.inProgress <==> o in Categorize(available, me).inProgress || o in Categorize(mine, me).inProgress)
      && (o in c.completed <==> o in Categorize(available, me).completed || o in Categorize(mine, me).completed)
  {
  }

  // ---------------------------------------------------------------------
  // The page's copy of the prioritiser

  /** `Math.round(x)` on a real number: floor(x + 1/2). */
  function RoundReal(x: real): (r: int)
    ensures r as real <= x + 0.5 < r as real + 1.0
  {
    (x + 0.5).Floor
  }

  /** The floor of an exact quotient is the integer quotient. */
  lemma FloorOfQuotient(a: int, b: int)
    requires b > 0
    ensures (a as real / b as real).Floor == a / b
  {
    var q := a / b;
    var m := a % b;
    var x := a as real / b as real;
    assert a as real == q as real * b as real + m as real;
    assert x == q as real + m as real / b as real;
    assert m as real < b as real;
    assert m as real / b as real < 1.0;
  }

  lemma RealMulCancel(a: real, b: real, d: real)
    requires d > 0.0 && a * d == b * d
    ensures a == b
  {
  }

  lemma DivTimes(n: real, d: real)
    requires d != 0.0
    ensures (n / d) * d == n
  {
  }

  lemma HalfDistrib(x: real, d: real)
    ensures (x + 0.5) * (2.0 * d) == 2.0 * (x * d) + d
  {
  }

  /** num/den + 1/2 == (2 num + den) / (2 den) over the reals. */
  lemma HalfStep(num: int, den: int)
    requires den > 0
    ensures num as real / den as real + 0.5 == (2 * num + den) as real / (2 * den) as real
  {
    var n := num as real;
    var d := den as real;
    var x := n / d;
    var y := (2.0 * n + d) / (2.0 * d);
    assert (2 * num + den) as real == 2.0 * n + d;
    assert (2 * den) as real == 2.0 * d;
    DivTimes(n, d);
    DivTimes(2.0 * n + d, 2.0 * d);
    HalfDistrib(x, d);
    RealMulCancel(x + 0.5, y, 2.0 * d);
  }

  /** Rounding the exact quotient agrees with the integer rounding the server model uses. */
  lemma RoundRealOfQuotient(num: int, den: int)
    requires den > 0
    ensures RoundReal(num as real / den as real) == RoundHalfUp(num, den)
  {
    HalfStep(num, den);
    FloorOfQuotient(2 * num + den, 2 * den);
  }

  /**
   * The page's priority rule, on the amount in currency units and the age in
   * minutes as fractional numbers.
   */
  function ClientPriority(totalCents: int, ageMs: int): (p: Priority)
    ensures p == PriorityOf(totalCents, ageMs)
  {
    var totalAmount := totalCents as real / 100.0;
    var ageInMinutes := ageMs as real / (1000.0 * 60.0);
    if totalAmount > 100.0 || ageInMinutes > 15.0 then High
    else if totalAmount < 50.0 && ageInMinutes < 5.0 then Low
    else Medium
  }

  /**
   * `Math.round(parseFloat(order.totalAmount || '0') * 0.15)`: a missing total
   * reads as 0; the result equals the server's estimate.
   */
  function ClientEarnings(o: Order): (e: int)
    ensures o.totalAmount == None ==> e == 0
    ensures e == EstimatedEarnings(AmountOf(o))
  {
    var totalAmount := AmountOf(o) as real / 100.0;
    RoundRealOfQuotient(15 * AmountOf(o), 10000);
    assert totalAmount * 0.15 == (15 * AmountOf(o)) as real / 10000 as real;
    RoundReal(totalAmount * 0.15)
  }

  /** The order card's `order.estimatedEarnings || Math.round(totalAmount * 0.15)`. */
  function CardEarnings(o: Order, estimatedEarnings: Option<int>): (e: int)
    ensures estimatedEarnings.Some? && estimatedEarnings.value != 0 ==> e == estimatedEarnings.value
    ensures estimatedEarnings == None ==> e == EstimatedEarnings(AmountOf(o))
    ensures estimatedEarnings == Some(0) ==> e == EstimatedEarnings(AmountOf(o))
    ensures estimatedEarnings == Some(ClientEarnings(o)) ==> e == ClientEarnings(o)
  {
    if estimatedEarnings.Some? && estimatedEarnings.value != 0 then estimatedEarnings.value
    else ClientEarnings(o)
  }

  /** An entry of the page's available list (the display-only fields left out). */
  datatype EnhancedOrder = EnhancedOrder(order: Order, estimatedEarnings: int, priority: Priority)

  /**
   * The page's per-order `.map`: the order with its earnings and priority,
   * computed on fractional amounts and minutes; both agree with the
   * server's integer rule.
   */
  function Enhance(o: Order, now: int): (e: EnhancedOrder)
    ensures e.order == o
    ensures e.estimatedEarnings == EstimatedEarnings(AmountOf(o))
    ensures e.priority == PriorityOf(AmountOf(o), now - o.createdAt)
    ensures e.estimatedEarnings == Annotate(o, now).estimatedEarnings && e.priority == Annotate(o, now).priority
  {
    EnhancedOrder(o, ClientEarnings(o), ClientPriority(AmountOf(o), now - o.createdAt))
  }

  function EnhanceAt(now: int): Order -> EnhancedOrder {
    o => Enhance(o, now)
  }

  function EnhancedKey(e: EnhancedOrder): Key {
    PriorityKey(e.priority, e.order.createdAt)
  }

  /**
   * The `availableOrders` query: the fetched orders without a driver,
   * annotated and sorted by rank (descending) then `createdAt` (ascending);
   * a body that is not an array gives the empty list.
   */
  function ClientAvailableOrders(data: Option<seq<Order>>, now: int): (r: seq<EnhancedOrder>)
    ensures data == None ==> r == []
    ensures data.Some? ==> |r| == |Filter(data.value, Unassigned)|
    ensures data.Some? ==> multiset(r) == multiset(Map(EnhanceAt(now), Filter(data.value, Unassigned)))
    ensures forall i :: 0 <= i < |r| ==>
      data.Some? && r[i].order in data.value && Unassigned(r[i].order) && r[i] == Enhance(r[i].order, now)
    ensures forall i, j :: 0 <= i < j < |r| ==>
      Rank(r[i].priority) > Rank(r[j].priority) ||
      (r[i].priority == r[j].priority && r[i].order.createdAt <= r[j].order.createdAt)
  {
    match data
    case None => []
    case Some(orders) =>
      ClientSortFacts(orders, now);
      ClientRanked(orders, now)
  }

  function ClientRanked(orders: seq<Order>, now: int): seq<EnhancedOrder> {
    SortBy(Map(EnhanceAt(now), Filter(orders, Unassigned)), EnhancedKey)
  }

  lemma ClientSortFacts(orders: seq<Order>, now: int)
    ensures var r := ClientRanked(orders, now);
      && |r| == |Filter(orders, Unassigned)|
      && multiset(r) == multiset(Map(EnhanceAt(now), Filter(orders, Unassigned)))
      && (forall i :: 0 <= i < |r| ==>
            r[i].order in orders && Unassigned(r[i].order) && r[i] == Enhance(r[i].order, now))
      && (forall i, j :: 0 <= i < j < |r| ==>
            Rank(r[i].priority) > Rank(r[j].priority) ||
            (r[i].priority == r[j].priority && r[i].order.createdAt <= r[j].order.createdAt))
  {
    var enhanced := Map(EnhanceAt(now), Filter(orders, Unassigned));
    var r := ClientRanked(orders, now);
    assert r == SortBy(enhanced, EnhancedKey);
    assert |r| == |enhanced| == |Filter(orders, Unassigned)|;
    forall i | 0 <= i < |r|
      ensures r[i].order in orders && Unassigned(r[i].order) && r[i] == Enhance(r[i].order, now)
    {
      ClientMember(orders, now, i);
    }
    ClientRankThenOldest(orders, now);
  }

  lemma ClientMember(orders: seq<Order>, now: int, i: int)
    requires 0 <= i < |ClientRanked(orders, now)|
    ensures var e := ClientRanked(orders, now)[i];
      e.order in orders && Unassigned(e.order) && e == Enhance(e.order, now)
  {
    var enhanced := Map(EnhanceAt(now), Filter(orders, Unassigned));
    var r := SortBy(enhanced, EnhancedKey);
    assert r == ClientRanked(orders, now);
    EnhancedMember(enhanced, orders, now, r[i]);
  }

  /** Sorting by `EnhancedKey` puts higher ranks first and, within a rank, older orders first. */
  lemma ClientRankThenOldest(orders: seq<Order>, now: int)
    ensures var r := ClientRanked(orders, now);
      forall i, j :: 0 <= i < j < |r| ==>
        Rank(r[i].priority) > Rank(r[j].priority) ||
        (r[i].priority == r[j].priority && r[i].order.createdAt <= r[j].order.createdAt)
  {
    var r := ClientRanked(orders, now);
    SortBySorted(Map(EnhanceAt(now), Filter(orders, Unassigned)), EnhancedKey);
    forall i, j | 0 <= i < j < |r|
      ensures Rank(r[i].priority) > Rank(r[j].priority) ||
              (r[i].priority == r[j].priority && r[i].order.createdAt <= r[j].order.createdAt)
    {
      assert KeyLe(EnhancedKey(r[i]), EnhancedKey(r[j]));
    }
  }

  lemma EnhancedMember(enhanced: seq<EnhancedOrder>, orders: seq<Order>, now: int, e: EnhancedOrder)
    requires enhanced == Map(EnhanceAt(now), Filter(orders, Unassigned))
    requires e in SortBy(enhanced, EnhancedKey)
    ensures e.order in orders && Unassigned(e.order) && e == Enhance(e.order, now)
  {
    SortedPipelineMember(EnhanceAt(now), orders, Unassigned, EnhancedKey, e);
    var x :| x in orders && Unassigned(x) && e == EnhanceAt(now)(x);
    assert e.order == x;
  }

  /** The page's entry for one of the server's available orders. */
  function Summary(a: AvailableOrder): EnhancedOrder {
    EnhancedOrder(a.order, a.estimatedEarnings, a.priority)
  }

  /**
   * When every fetched order is confirmed (the page asks for
   * `status=confirmed`), the server's available list is the first ten
   * entries of the page's list: the two copies of the rule agree.
   */
  lemma ClientAgreesWithServer(orders: seq<Order>, now: int)
    requires forall i :: 0 <= i < |orders| ==> orders[i].status == Confirmed
    ensures var client := ClientAvailableOrders(Some(orders), now);
      Map(Summary, AvailableOrders(orders, now)) == client[..Min(10, |client|)]
  {
    var open := Filter(orders, OpenForPickup);
    FilterAgree(orders, OpenForPickup, Unassigned);
    forall o ensures EnhanceAt(now)(o) == Summary(AnnotateAt(now)(o)) {
    }
    MapMap(AnnotateAt(now), Summary, EnhanceAt(now), open);
    var c := Candidates(orders, now);
    SortByMap(Summary, c, AvailableKey, EnhancedKey);
    var t := RankedCandidates(orders, now);
    MapPrefix(Summary, t, Min(10, |t|));
  }

  // ---------------------------------------------------------------------
  // Statistics view

  /** The page's `DriverStats`, built from the four `/stats` responses. */
  datatype ClientStats = ClientStats(
    todayOrders: int, todayEarnings: int,
    weeklyOrders: int, weeklyEarnings: int,
    monthlyOrders: int, monthlyEarnings: int,
    totalOrders: int, totalEarnings: int,
    completedOrders: int, cancelledOrders: int,
    averageRating: real, averageDeliveryTime: int, successRate: int)

  /** `stats?.totalOrders || 0`. */
  function OrdersOr0(s: Option<PeriodStats>): int {
    if s.Some? then s.value.totalOrders else 0
  }

  /** `stats?.totalEarnings || 0`. */
  function EarningsOr0(s: Option<PeriodStats>): int {
    if s.Some? then s.value.totalEarnings else 0
  }

  /**
   * `totalStats?.totalOrders > 0 ? Math.round(completed / total * 100) : 0`,
   * computed on the fractional quotient as the page does.
   */
  function ClientSuccessRate(total: Option<PeriodStats>): (r: int)
    ensures total == None ==> r == 0
    ensures total.Some? ==> r == SuccessRate(total.value.completedOrders, total.value.totalOrders)
  {
    if total.Some? && total.value.totalOrders > 0 then
      var t := total.value;
      RoundRealOfQuotient(100 * t.completedOrders, t.totalOrders);
      assert (t.completedOrders as real / t.totalOrders as real) * 100.0
          == (100 * t.completedOrders) as real / t.totalOrders as real;
      RoundReal((t.completedOrders as real / t.totalOrders as real) * 100.0)
    else 0
  }

  /** The page's statistics: each figure is the matching server figure, or 0 when that response is missing. */
  function ClientStatsOf(today: Option<PeriodStats>, week: Option<PeriodStats>,
                         month: Option<PeriodStats>, total: Option<PeriodStats>): (c: ClientStats)
    ensures c.todayOrders == (if today.Some? then today.value.totalOrders else 0)
    ensures c.todayEarnings == (if today.Some? then today.value.totalEarnings else 0)
    ensures c.weeklyOrders == (if week.Some? then week.value.totalOrders else 0)
    ensures c.weeklyEarnings == (if week.Some? then week.value.totalEarnings else 0)
    ensures c.monthlyOrders == (if month.Some? then month.value.totalOrders else 0)
    ensures c.monthlyEarnings == (if month.Some? then month.value.totalEarnings else 0)
    ensures c.totalOrders == (if total.Some? then total.value.totalOrders else 0)
    ensures c.totalEarnings == (if total.Some? then total.value.totalEarnings else 0)
    ensures c.completedOrders == (if total.Some? then total.value.completedOrders else 0)
    ensures c.cancelledOrders == (if total.Some? then total.value.cancelledOrders else 0)
    ensures total.Some? ==> c.successRate == SuccessRate(total.value.completedOrders, total.value.totalOrders)
    ensures total == None ==> c.successRate == 0
    ensures c.averageRating == DefaultRating && c.averageDeliveryTime == 28
  {
    ClientStats(
      todayOrders := OrdersOr0(today), todayEarnings := EarningsOr0(today),
      weeklyOrders := OrdersOr0(week), weeklyEarnings := EarningsOr0(week),
      monthlyOrders := OrdersOr0(month), monthlyEarnings := EarningsOr0(month),
      totalOrders := OrdersOr0(total), totalEarnings := EarningsOr0(total),
      completedOrders := if total.Some? then total.value.completedOrders else 0,
      cancelledOrders := if total.Some? then total.value.cancelledOrders else 0,
      averageRating := DefaultRating,
      averageDeliveryTime := 28,
      successRate := ClientSuccessRate(total))
  }

  /** Fed the server's whole-history statistics, the page shows the server's success rate. */
  lemma ClientRateMatchesServer(driverOrders: seq<Order>, now: int,
                                today: Option<PeriodStats>, week: Option<PeriodStats>, month: Option<PeriodStats>)
    ensures var s := Stats(driverOrders, 0, now);
      ClientStatsOf(today, week, month, Some(s)).successRate == s.successRate
  {
  }

  // ---------------------------------------------------------------------
  // Component state: the driver's status and the notification watermark

  datatype DriverStatus = Available | Busy | Offline

  /** The newest creation time in a non-empty list of available orders. */
  function NewestCreatedAt(s: seq<EnhancedOrder>): (m: int)
    requires |s| > 0
    ensures exists i :: 0 <= i < |s| && s[i].order.createdAt == m
    ensures forall i :: 0 <= i < |s| ==> s[i].order.createdAt <= m
  {
    if |s| == 1 then s[0].order.createdAt
    else
      var rest := NewestCreatedAt(s[1..]);
      if s[0].order.createdAt >= rest then s[0].order.createdAt else rest
  }

  class DashboardState {
    var driverStatus: DriverStatus
    var lastNotificationTime: int

    /** The page starts offline with no order announced yet. */
    constructor ()
      ensures driverStatus == Offline && lastNotificationTime == 0
    {
      driverStatus := Offline;
      lastNotificationTime := 0;
    }

    /** Sign-in and the availability switch: available or offline. */
    method SetAvailability(isAvailable: bool)
      modifies this
      ensures driverStatus == (if isAvailable then Available else Offline)
      ensures lastNotificationTime == old(lastNotificationTime)
    {
      driverStatus := if isAvailable then Available else Offline;
    }

    /** A successful accept makes the driver busy. */
    method AcceptSucceeded()
      modifies this
      ensures driverStatus == Busy
      ensures lastNotificationTime == old(lastNotificationTime)
    {
      driverStatus := Busy;
    }

    /** A successful status update frees the driver only when the order was delivered. */
    method StatusUpdateSucceeded(status: string)
      modifies this
      ensures driverStatus == (if status == Delivered then Available else old(driverStatus))
      ensures lastNotificationTime == old(lastNotificationTime)
    {
      if status == Delivered {
        driverStatus := Available;
      }
    }

    /**
     * The new-order effect: while the driver is available and the list is
     * non-empty, a newest order strictly newer than the watermark is
     * announced and becomes the watermark. The watermark never decreases.
     */
    method ObserveAvailable(available: seq<EnhancedOrder>) returns (announce: bool)
      modifies this
      ensures announce <==> |available| > 0 && driverStatus == Available
                            && NewestCreatedAt(available) > old(lastNotificationTime)
      ensures announce ==> lastNotificationTime == NewestCreatedAt(available)
      ensures !announce ==> lastNotificationTime == old(lastNotificationTime)
      ensures lastNotificationTime >= old(lastNotificationTime)
      ensures driverStatus == old(driverStatus)
    {
      announce := false;
      if |available| > 0 && driverStatus == Available {
        var latestOrderTime := NewestCreatedAt(available);
        if latestOrderTime > lastNotificationTime {
          lastNotificationTime := latestOrderTime;
          announce := true;
        }
      }
    }
  }
}
