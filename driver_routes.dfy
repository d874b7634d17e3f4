/**
 * The driver REST routes: the available-order prioritiser, the statistics
 * over a driver's orders, and the handlers that read and update the order
 * and driver stores.
 *
 * `Date.now()` / `new Date()` become a parameter `now` (milliseconds), the
 * calendar boundaries ("midnight today", "a week ago", "a month ago") become
 * parameters, and `storage.getOrders()` becomes a parameter `allOrders` in the
 * order the store lists them. Point reads and writes go through the maps of
 * the `DriverStore` class.
 */
module DriverRoutes {
  import opened Wrappers
  import opened Seqs
  import opened Sorting
  import opened Schema

  const MsPerMinute: int := 60000

  /**
   * `Math.round(num / den)`: JavaScript rounds half-way cases up, so the
   * result is floor(num / den + 1/2).
   */
  function RoundHalfUp(num: int, den: int): (r: int)
    requires den > 0
    ensures den * (2 * r - 1) <= 2 * num < den * (2 * r + 1)
  {
    (2 * num + den) / (2 * den)
  }

  /** Cancelling a positive factor on both sides of an inequality. */
  lemma MulCancel(n: int, a: int, b: int)
    requires n > 0 && n * a <= n * b
    ensures a <= b
  {
  }

  // ---------------------------------------------------------------------
  // Priority and estimated earnings of an unassigned order

  datatype Priority = High | Medium | Low

  /** The comparator's `priorityOrder` table. */
  function Rank(p: Priority): int {
    match p
    case High => 3
    case Medium => 2
    case Low => 1
  }

  /**
   * High when the total exceeds 100 or the order is older than 15 minutes,
   * else low when the total is under 50 and the order is younger than
   * 5 minutes, else medium. Amounts in cents, age in milliseconds.
   */
  function PriorityOf(totalCents: int, ageMs: int): (p: Priority)
    ensures p == High <==> totalCents > 10000 || ageMs > 15 * MsPerMinute
    ensures p == Low <==> totalCents < 5000 && ageMs < 5 * MsPerMinute
  {
    if totalCents > 10000 || ageMs > 15 * MsPerMinute then High
    else if totalCents < 5000 && ageMs < 5 * MsPerMinute then Low
    else Medium
  }

  /** A larger or older order never gets a lower priority. */
  lemma PriorityMonotone(t1: int, a1: int, t2: int, a2: int)
    requires t1 <= t2 && a1 <= a2
    ensures Rank(PriorityOf(t1, a1)) <= Rank(PriorityOf(t2, a2))
  {
  }

  /** `Math.round(totalAmount * 0.15)`: 15 % of the total, in whole currency units. */
  function EstimatedEarnings(totalCents: int): (e: int)
    ensures 10000 * e - 5000 <= 15 * totalCents < 10000 * e + 5000
  {
    RoundHalfUp(15 * totalCents, 10000)
  }

  /** An entry of the dashboard's `availableOrders`. */
  datatype AvailableOrder = AvailableOrder(
    order: Order, estimatedEarnings: int, priority: Priority, ageInMinutes: int)

  /** The `.map` step: earnings, priority and rounded age of one order at time `now`. */
  function Annotate(o: Order, now: int): (a: AvailableOrder)
    ensures a.order == o
    ensures a.estimatedEarnings == EstimatedEarnings(AmountOf(o))
    ensures a.priority == PriorityOf(AmountOf(o), now - o.createdAt)
    ensures MsPerMinute * (2 * a.ageInMinutes - 1) <= 2 * (now - o.createdAt)
                                                  < MsPerMinute * (2 * a.ageInMinutes + 1)
  {
    var ageMs := now - o.createdAt;
    AvailableOrder(o, EstimatedEarnings(AmountOf(o)), PriorityOf(AmountOf(o), ageMs),
                   RoundHalfUp(ageMs, MsPerMinute))
  }

  /** Higher rank first, then older (smaller `createdAt`) first. */
  function PriorityKey(p: Priority, createdAt: int): Key {
    Key(-Rank(p), createdAt)
  }

  function AvailableKey(a: AvailableOrder): Key {
    PriorityKey(a.priority, a.order.createdAt)
  }

  /** The `.filter` step: confirmed and not assigned to any driver. */
  predicate OpenForPickup(o: Order) {
    o.status == Confirmed && Unassigned(o)
  }

  function AnnotateAt(now: int): Order -> AvailableOrder {
    o => Annotate(o, now)
  }

  function Candidates(allOrders: seq<Order>, now: int): seq<AvailableOrder> {
    Map(AnnotateAt(now), Filter(allOrders, OpenForPickup))
  }

  function RankedCandidates(allOrders: seq<Order>, now: int): seq<AvailableOrder> {
    SortBy(Candidates(allOrders, now), AvailableKey)
  }

  /** Every ranked candidate is an open order of the store, annotated at `now`. */
  lemma RankedMember(allOrders: seq<Order>, now: int, i: int)
    requires 0 <= i < |RankedCandidates(allOrders, now)|
    ensures var a := RankedCandidates(allOrders, now)[i];
      a.order in allOrders && OpenForPickup(a.order) && a == Annotate(a.order, now)
  {
    var a := RankedCandidates(allOrders, now)[i];
    SortedPipelineMember(AnnotateAt(now), allOrders, OpenForPickup, AvailableKey, a);
    var x :| x in allOrders && OpenForPickup(x) && a == AnnotateAt(now)(x);
    assert a.order == x;
  }

  /** The ranked candidates put higher ranks first and, within a rank, older orders first. */
  lemma RankThenOldest(allOrders: seq<Order>, now: int)
    ensures var t := RankedCandidates(allOrders, now);
      forall i, j :: 0 <= i < j < |t| ==>
        Rank(t[i].priority) > Rank(t[j].priority) ||
        (t[i].priority == t[j].priority && t[i].order.createdAt <= t[j].order.createdAt)
  {
    var t := RankedCandidates(allOrders, now);
    SortBySorted(Candidates(allOrders, now), AvailableKey);
    forall i, j | 0 <= i < j < |t|
      ensures Rank(t[i].priority) > Rank(t[j].priority) ||
              (t[i].priority == t[j].priority && t[i].order.createdAt <= t[j].order.createdAt)
    {
      assert KeyLe(AvailableKey(t[i]), AvailableKey(t[j]));
    }
  }

  /** The first ten ranked candidates (all of them when there are fewer). */
  function TopTen(allOrders: seq<Order>, now: int): seq<AvailableOrder> {
    var t := RankedCandidates(allOrders, now);
    t[..Min(10, |t|)]
  }

  /**
   * The dashboard's `availableOrders`: the first ten confirmed, unassigned
   * orders by priority rank (descending) and then age (oldest first).
   */
  function AvailableOrders(allOrders: seq<Order>, now: int): (r: seq<AvailableOrder>)
    ensures |r| == Min(10, |Filter(allOrders, OpenForPickup)|)
    ensures forall i :: 0 <= i < |r| ==>
      r[i].order in allOrders && OpenForPickup(r[i].order) && r[i] == Annotate(r[i].order, now)
    ensures forall i, j :: 0 <= i < j < |r| ==>
      Rank(r[i].priority) > Rank(r[j].priority) ||
      (r[i].priority == r[j].priority && r[i].order.createdAt <= r[j].order.createdAt)
    ensures forall x, y :: x in multiset(Candidates(allOrders, now)) - multiset(r) && y in r ==>
      KeyLe(AvailableKey(y), AvailableKey(x))
    ensures multiset(r) <= multiset(Candidates(allOrders, now))
  {
    TopTenMembers(allOrders, now);
    TopTenOrder(allOrders, now);
    TopTenIsTop(allOrders, now);
    TopTenSubMultiset(allOrders, now);
    TopTen(allOrders, now)
  }

  lemma TopTenMembers(allOrders: seq<Order>, now: int)
    ensures var r := TopTen(allOrders, now);
      && |r| == Min(10, |Filter(allOrders, OpenForPickup)|)
      && (forall i :: 0 <= i < |r| ==>
            r[i].order in allOrders && OpenForPickup(r[i].order) && r[i] == Annotate(r[i].order, now))
  {
    var t := RankedCandidates(allOrders, now);
    var r := TopTen(allOrders, now);
    assert |t| == |Candidates(allOrders, now)| == |Filter(allOrders, OpenForPickup)|;
    forall i | 0 <= i < |r|
      ensures r[i].order in allOrders && OpenForPickup(r[i].order) && r[i] == Annotate(r[i].order, now)
    {
      assert r[i] == t[i];
      RankedMember(allOrders, now, i);
    }
  }

  /** The first ten take each candidate at most as often as it occurs: no order is listed twice. */
  lemma TopTenSubMultiset(allOrders: seq<Order>, now: int)
    ensures multiset(TopTen(allOrders, now)) <= multiset(Candidates(allOrders, now))
  {
    var t := RankedCandidates(allOrders, now);
    SplitMultiset(t, Min(10, |t|));
  }

  lemma TopTenOrder(allOrders: seq<Order>, now: int)
    ensures var r := TopTen(allOrders, now);
      forall i, j :: 0 <= i < j < |r| ==>
        Rank(r[i].priority) > Rank(r[j].priority) ||
        (r[i].priority == r[j].priority && r[i].order.createdAt <= r[j].order.createdAt)
  {
    var t := RankedCandidates(allOrders, now);
    var r := TopTen(allOrders, now);
    RankThenOldest(allOrders, now);
    assert forall i :: 0 <= i < |r| ==> r[i] == t[i];
  }

  lemma TopTenIsTop(allOrders: seq<Order>, now: int)
    ensures var r := TopTen(allOrders, now);
      forall x, y :: x in multiset(Candidates(allOrders, now)) - multiset(r) && y in r ==>
        KeyLe(AvailableKey(y), AvailableKey(x))
  {
    var t := RankedCandidates(allOrders, now);
    SortedPrefixIsTop(Candidates(allOrders, now), AvailableKey, Min(10, |t|));
  }

  // ---------------------------------------------------------------------
  // Statistics

  /**
   * `total > 0 ? Math.round(delivered / total * 100) : 0`, the success rate
   * in percent.
   */
  function SuccessRate(delivered: nat, total: nat): (r: int)
    ensures total == 0 ==> r == 0
    ensures total > 0 ==> total * (2 * r - 1) <= 200 * delivered < total * (2 * r + 1)
    ensures delivered <= total ==> 0 <= r <= 100
  {
    if total > 0 then
      var r := RoundHalfUp(100 * delivered, total);
      RateBounds(delivered, total, r);
      r
    else 0
  }

  lemma RateBounds(d: nat, n: nat, r: int)
    requires n > 0 && n * (2 * r - 1) <= 200 * d < n * (2 * r + 1)
    ensures d <= n ==> 0 <= r <= 100
  {
    if d <= n {
      assert n * (2 * r - 1) <= n * 200;
      MulCancel(n, 2 * r - 1, 200);
      assert n * 0 < n * (2 * r + 1);
      if 2 * r + 1 <= 0 {
        MulCancel(n, 0, 2 * r + 1);
      }
    }
  }

  /**
   * `avgOrderValue`: the delivered earnings shared equally among the delivered
   * orders, 0 when none was delivered.
   */
  function AverageOrderValue(earnings: int, delivered: nat): (v: real)
    ensures delivered == 0 ==> v == 0.0
    ensures delivered > 0 ==> v * (delivered as real) == earnings as real
  {
    if delivered > 0 then earnings as real / delivered as real else 0.0
  }

  /** The sum of `driverEarnings` over the delivered orders among `s`. */
  function DeliveredEarnings(s: seq<Order>): int {
    SumBy(Filter(s, IsDelivered), EarningsOf)
  }

  predicate InWindow(o: Order, start: int, end: int) {
    start <= o.createdAt <= end
  }

  function Window(start: int, end: int): Order -> bool {
    o => InWindow(o, start, end)
  }

  function DeliveredInWindow(start: int, end: int): Order -> bool {
    o => InWindow(o, start, end) && IsDelivered(o)
  }

  /** The earnings an order contributes to a period: its own if delivered in the window, else 0. */
  function PeriodEarning(start: int, end: int): Order -> int {
    o => if InWindow(o, start, end) && IsDelivered(o) then EarningsOf(o) else 0
  }

  /** The orders created inside [start, end]. */
  function PeriodOrders(driverOrders: seq<Order>, start: int, end: int): (r: seq<Order>)
    ensures forall i :: 0 <= i < |r| ==> r[i] in driverOrders && start <= r[i].createdAt <= end
    ensures forall o :: o in driverOrders && start <= o.createdAt <= end ==> o in r
  {
    Filter(driverOrders, Window(start, end))
  }

  datatype PeriodStats = PeriodStats(
    totalOrders: nat, completedOrders: nat, cancelledOrders: nat,
    totalEarnings: int, avgOrderValue: real, successRate: int)

  /** The `/stats` aggregate over the driver's orders created in [start, end]. */
  function Stats(driverOrders: seq<Order>, start: int, end: int): (s: PeriodStats)
    ensures s.totalOrders == |PeriodOrders(driverOrders, start, end)|
    ensures s.completedOrders == |Filter(driverOrders, DeliveredInWindow(start, end))|
    ensures s.cancelledOrders == |Filter(PeriodOrders(driverOrders, start, end), IsCancelled)|
    ensures s.successRate == SuccessRate(s.completedOrders, s.totalOrders)
    ensures s.totalOrders <= |driverOrders|
    ensures s.completedOrders + s.cancelledOrders <= s.totalOrders
    ensures s.totalEarnings == SumBy(driverOrders, PeriodEarning(start, end))
    ensures s.completedOrders == 0 ==> s.totalEarnings == 0
    ensures s.avgOrderValue == AverageOrderValue(s.totalEarnings, s.completedOrders)
    ensures s.totalOrders == 0 ==> s.successRate == 0
    ensures 0 <= s.successRate <= 100
  {
    var period := PeriodOrders(driverOrders, start, end);
    var delivered := Filter(period, IsDelivered);
    var cancelled := Filter(period, IsCancelled);
    var earnings := DeliveredEarnings(period);
    DisjointFiltersFit(period, IsDelivered, IsCancelled);
    FilterFilter(driverOrders, Window(start, end), IsDelivered, DeliveredInWindow(start, end));
    SumByFilter(driverOrders, DeliveredInWindow(start, end), EarningsOf, PeriodEarning(start, end));
    PeriodStats(
      totalOrders := |period|,
      completedOrders := |delivered|,
      cancelledOrders := |cancelled|,
      totalEarnings := earnings,
      avgOrderValue := AverageOrderValue(earnings, |delivered|),
      successRate := SuccessRate(|delivered|, |period|))
  }

  predicate HasDeliveryTimes(o: Order) {
    o.acceptedAt.Some? && o.deliveredAt.Some?
  }

  /** Milliseconds from acceptance to delivery (0 when either stamp is missing). */
  function DeliveryMs(o: Order): int {
    if HasDeliveryTimes(o) then o.deliveredAt.value - o.acceptedAt.value else 0
  }

  /**
   * `Math.round(averageDeliveryTime)`: the mean acceptance-to-delivery time
   * in minutes over the given orders that carry both stamps, rounded; 0 when
   * there are none.
   */
  function AverageDeliveryMinutes(completed: seq<Order>): (m: int)
    ensures var timed := Filter(completed, HasDeliveryTimes);
      var n, totalMs := |timed|, SumBy(timed, DeliveryMs);
      && (n == 0 ==> m == 0)
      && (n > 0 ==> RoundsTo(m, totalMs, n * MsPerMinute))
  {
    var timed := Filter(completed, HasDeliveryTimes);
    MeanMinutes(SumBy(timed, DeliveryMs), |timed|)
  }

  /** m is num/den rounded to the nearest integer, halves up: the bracket `Math.round` meets. */
  predicate RoundsTo(m: int, num: int, den: int) {
    den * (2 * m - 1) <= 2 * num < den * (2 * m + 1)
  }

  /** `Math.round(totalMs / n / 60000)`, and 0 for no deliveries. */
  function MeanMinutes(totalMs: int, n: nat): (m: int)
    ensures n == 0 ==> m == 0
    ensures n > 0 ==> RoundsTo(m, totalMs, n * MsPerMinute)
  {
    if n > 0 then
      MinutesPositive(n);
      RoundHalfUp(totalMs, n * MsPerMinute)
    else 0
  }

  lemma MinutesPositive(n: int)
    requires n > 0
    ensures n * MsPerMinute > 0
  {
  }

  /** When every timed delivery took between lo and hi minutes, so does the average. */
  lemma AverageDeliveryWithin(completed: seq<Order>, lo: int, hi: int)
    requires forall o :: o in completed && HasDeliveryTimes(o) ==>
      lo * MsPerMinute <= DeliveryMs(o) <= hi * MsPerMinute
    ensures Filter(completed, HasDeliveryTimes) != [] ==> lo <= AverageDeliveryMinutes(completed) <= hi
  {
    var timed := Filter(completed, HasDeliveryTimes);
    if timed != [] {
      var n := |timed|;
      var total := SumBy(timed, DeliveryMs);
      forall i | 0 <= i < n
        ensures lo * MsPerMinute <= DeliveryMs(timed[i]) <= hi * MsPerMinute
      {
        assert timed[i] in completed && HasDeliveryTimes(timed[i]);
      }
      SumByBounds(timed, DeliveryMs, lo * MsPerMinute, hi * MsPerMinute);
      MulAssoc(n, MsPerMinute, lo);
      MulAssoc(n, MsPerMinute, hi);
      RoundedMeanWithin(total, n * MsPerMinute, AverageDeliveryMinutes(completed), lo, hi);
    }
  }

  lemma MulAssoc(a: int, b: int, c: int)
    ensures a * (b * c) == (a * b) * c
  {
  }

  /** Multiplying both sides of an inequality by a positive factor. */
  lemma MulMono(n: int, a: int, b: int)
    requires n > 0 && a <= b
    ensures n * a <= n * b
  {
  }

  lemma MulTwice(d: int, x: int)
    ensures d * (2 * x) == 2 * (d * x)
  {
  }

  /** A rounded quotient of a sum lying between d * lo and d * hi lies between lo and hi. */
  lemma RoundedMeanWithin(total: int, d: int, m: int, lo: int, hi: int)
    requires d > 0
    requires d * (2 * m - 1) <= 2 * total < d * (2 * m + 1)
    requires d * lo <= total <= d * hi
    ensures lo <= m <= hi
  {
    MulTwice(d, hi);
    MulTwice(d, lo);
    MulCancel(d, 2 * m - 1, 2 * hi);
    if 2 * m + 1 <= 2 * lo {
      MulMono(d, 2 * m + 1, 2 * lo);
    }
  }

  /** The dashboard's calendar boundaries, computed from the clock outside the model. */
  datatype CalendarWindow = CalendarWindow(
    dayStart: int,       // local midnight of today
    nextDayStart: int,   // local midnight of tomorrow
    weekStart: int,      // now minus 7 days
    monthStart: int)     // now minus one calendar month

  datatype DashboardStats = DashboardStats(
    todayOrders: nat, todayEarnings: int,
    weeklyOrders: nat, weeklyEarnings: int,
    monthlyOrders: nat, monthlyEarnings: int,
    completedToday: nat,
    totalOrders: nat, totalEarnings: int,
    completedOrders: nat, cancelledOrders: nat,
    averageRating: real, averageDeliveryTime: int, successRate: int)

  /** `createdAt.toDateString() === today`: created on the current local calendar day. */
  predicate CreatedToday(o: Order, w: CalendarWindow) {
    w.dayStart <= o.createdAt < w.nextDayStart
  }

  const DefaultRating: real := 4.8

  function TodayIn(w: CalendarWindow): Order -> bool {
    o => CreatedToday(o, w)
  }

  /** `order.createdAt >= since`, with no upper bound. */
  function Since(since: int): Order -> bool {
    (o: Order) => o.createdAt >= since
  }

  /** The dashboard's `stats` object over all of one driver's orders. */
  function DashboardStatsOf(driverOrders: seq<Order>, w: CalendarWindow): (d: DashboardStats)
    ensures d.totalOrders == |driverOrders|
    ensures d.todayOrders == |Filter(driverOrders, TodayIn(w))|
    ensures d.weeklyOrders == |Filter(driverOrders, Since(w.weekStart))|
    ensures d.monthlyOrders == |Filter(driverOrders, Since(w.monthStart))|
    ensures d.completedToday == |Filter(Filter(driverOrders, TodayIn(w)), IsDelivered)|
    ensures d.completedOrders == |Filter(driverOrders, IsDelivered)|
    ensures d.cancelledOrders == |Filter(driverOrders, IsCancelled)|
    ensures d.todayEarnings == DeliveredEarnings(Filter(driverOrders, TodayIn(w)))
    ensures d.weeklyEarnings == DeliveredEarnings(Filter(driverOrders, Since(w.weekStart)))
    ensures d.monthlyEarnings == DeliveredEarnings(Filter(driverOrders, Since(w.monthStart)))
    ensures d.totalEarnings == DeliveredEarnings(driverOrders)
    ensures d.averageDeliveryTime == AverageDeliveryMinutes(Filter(driverOrders, IsDelivered))
    ensures d.successRate == SuccessRate(d.completedOrders, d.totalOrders)
    ensures d.completedToday <= d.todayOrders <= d.totalOrders
    ensures d.weeklyOrders <= d.totalOrders && d.monthlyOrders <= d.totalOrders
    ensures d.completedOrders + d.cancelledOrders <= d.totalOrders
    ensures 0 <= d.successRate <= 100
    ensures d.averageRating == DefaultRating
  {
    var today := Filter(driverOrders, TodayIn(w));
    var weekly := Filter(driverOrders, Since(w.weekStart));
    var monthly := Filter(driverOrders, Since(w.monthStart));
    var completed := Filter(driverOrders, IsDelivered);
    var cancelled := Filter(driverOrders, IsCancelled);
    DisjointFiltersFit(driverOrders, IsDelivered, IsCancelled);
    DashboardStats(
      todayOrders := |today|,
      todayEarnings := DeliveredEarnings(today),
      weeklyOrders := |weekly|,
      weeklyEarnings := DeliveredEarnings(weekly),
      monthlyOrders := |monthly|,
      monthlyEarnings := DeliveredEarnings(monthly),
      completedToday := |Filter(today, IsDelivered)|,
      totalOrders := |driverOrders|,
      totalEarnings := DeliveredEarnings(driverOrders),
      completedOrders := |completed|,
      cancelledOrders := |cancelled|,
      averageRating := DefaultRating,
      averageDeliveryTime := AverageDeliveryMinutes(completed),
      successRate := SuccessRate(|completed|, |driverOrders|))
  }

  /**
   * The dashboard's success rate and earnings are those of the `/stats`
   * period "total" whenever every order of the driver lies between the epoch
   * and now.
   */
  lemma DashboardAgreesWithTotalPeriod(driverOrders: seq<Order>, w: CalendarWindow, now: int)
    requires forall o :: o in driverOrders ==> 0 <= o.createdAt <= now
    ensures var d := DashboardStatsOf(driverOrders, w);
      var s := Stats(driverOrders, 0, now);
      && d.totalOrders == s.totalOrders
      && d.completedOrders == s.completedOrders
      && d.cancelledOrders == s.cancelledOrders
      && d.totalEarnings == s.totalEarnings
      && d.successRate == s.successRate
  {
    FilterKeepsAll(driverOrders, Window(0, now));
    assert PeriodOrders(driverOrders, 0, now) == driverOrders;
  }

  /** The dashboard's `currentOrders`: the driver's orders still in progress. */
  predicate InProgress(o: Order) {
    o.status in [Preparing, Ready, PickedUp, OnWay]
  }

  function Owner(driverId: string): Order -> bool {
    o => OwnedBy(o, driverId)
  }

  function DriverOrders(allOrders: seq<Order>, driverId: string): (r: seq<Order>)
    ensures forall i :: 0 <= i < |r| ==> r[i] in allOrders && OwnedBy(r[i], driverId)
    ensures forall o :: o in allOrders && OwnedBy(o, driverId) ==> o in r
  {
    Filter(allOrders, Owner(driverId))
  }

  // ---------------------------------------------------------------------
  // Listing a driver's orders

  predicate Listed(o: Order, driverId: string, status: string) {
    OwnedBy(o, driverId) && (status == "" || o.status == status)
  }

  function ListedBy(driverId: string, status: string): Order -> bool {
    o => Listed(o, driverId, status)
  }

  function HasStatus(status: string): Order -> bool {
    (o: Order) => o.status == status
  }

  function NewestFirstKey(o: Order): Key {
    Key(-o.createdAt, 0)
  }

  // ---------------------------------------------------------------------
  // Errors and responses

  datatype ApiError =
    | MissingDriverId     // 400: driverId missing or empty
    | MissingFields       // 400: driverId or status missing
    | DriverNotFound      // 404
    | OrderNotFound       // 404
    | CannotAccept        // 400: order not confirmed or already assigned
    | NotOwner            // 403: the order belongs to another driver
    | InvalidStatus       // 400: status outside the allow-list

  /** The HTTP status code each error is answered with. */
  function HttpStatus(e: ApiError): int {
    match e
    case MissingDriverId => 400
    case MissingFields => 400
    case DriverNotFound => 404
    case OrderNotFound => 404
    case CannotAccept => 400
    case NotOwner => 403
    case InvalidStatus => 400
  }

  datatype Response<+T> = Ok(value: T) | Fail(error: ApiError)

  /** A stored driver record: field name to value. */
  type DriverRecord = map<string, Json>

  // ---------------------------------------------------------------------
  // Accepting an order

  /** The earnings placeholder written on acceptance, the string "10.00", in cents. */
  const AcceptEarningsCents: int := 1000

  predicate Acceptable(o: Order) {
    o.status == Confirmed && Unassigned(o)
  }

  /** The one update an acceptance makes: driver, status "ready", flat earnings. */
  function Accepted(o: Order, driverId: string): Order {
    o.(driverId := Some(driverId), status := Ready, driverEarnings := Some(AcceptEarningsCents))
  }

  /**
   * What `POST /orders/:id/accept` answers and what the order map becomes.
   * The checks run in order: driver id present, driver known, order known,
   * order acceptable.
   */
  function AcceptOutcome(orders: map<string, Order>, drivers: map<string, DriverRecord>,
                         id: string, driverId: string): (out: (Response<Order>, map<string, Order>))
    ensures out.0.Ok? <==>
      driverId != "" && driverId in drivers && id in orders && Acceptable(orders[id])
    ensures out.0.Fail? ==> out.1 == orders
    ensures out.0.Ok? ==> out.1 == orders[id := Accepted(orders[id], driverId)] && out.0.value == out.1[id]
    ensures driverId == "" ==> out.0 == Fail(MissingDriverId)
    ensures driverId != "" && driverId !in drivers ==> out.0 == Fail(DriverNotFound)
    ensures driverId != "" && driverId in drivers && id !in orders ==> out.0 == Fail(OrderNotFound)
    ensures driverId != "" && driverId in drivers && id in orders && !Acceptable(orders[id]) ==>
      out.0 == Fail(CannotAccept)
  {
    if driverId == "" then (Fail(MissingDriverId), orders)
    else if driverId !in drivers then (Fail(DriverNotFound), orders)
    else if id !in orders then (Fail(OrderNotFound), orders)
    else if orders[id].status != Confirmed || !Unassigned(orders[id]) then (Fail(CannotAccept), orders)
    else
      var updated := orders[id := Accepted(orders[id], driverId)];
      (Ok(updated[id]), updated)
  }

  /**
   * An accepted order can be accepted by no one again: a second request, by
   * any known driver, is refused with 400 and changes nothing. The accepted
   * order has also left the pool of orders open for pickup.
   */
  lemma AcceptIsOnce(orders: map<string, Order>, drivers: map<string, DriverRecord>,
                     id: string, d1: string, d2: string)
    requires AcceptOutcome(orders, drivers, id, d1).0.Ok?
    requires d2 != "" && d2 in drivers
    ensures var after := AcceptOutcome(orders, drivers, id, d1).1;
      && !OpenForPickup(after[id])
      && AcceptOutcome(after, drivers, id, d2) == (Fail(CannotAccept), after)
  {
  }

  // ---------------------------------------------------------------------
  // Updating an order's status

  /** The flat allow-list; it does not depend on the current status. */
  const AllowedStatuses: seq<string> := [Ready, PickedUp, Delivered]

  /** Sets the status; a delivery also stamps `actualDeliveryTime` with `now`. */
  function WithStatus(o: Order, status: string, now: int): Order {
    if status == Delivered then o.(status := status, actualDeliveryTime := Some(now))
    else o.(status := status)
  }

  /**
   * What `PUT /orders/:id/status` answers and what the order map becomes.
   * The checks run in order: fields present, order known, caller owns the
   * order, status allowed.
   */
  function UpdateStatusOutcome(orders: map<string, Order>, id: string, driverId: string,
                               status: string, now: int): (out: (Response<Order>, map<string, Order>))
    ensures out.0.Ok? <==>
      (driverId != "" && status != "" && id in orders && OwnedBy(orders[id], driverId)
       && status in AllowedStatuses)
    ensures out.0.Fail? ==> out.1 == orders
    ensures out.0.Ok? ==> out.1 == orders[id := out.0.value]
    ensures out.0.Ok? ==>
      && out.0.value.status == status
      && (status == Delivered ==> out.0.value.actualDeliveryTime == Some(now))
      && out.0.value.(status := orders[id].status,
                      actualDeliveryTime := orders[id].actualDeliveryTime) == orders[id]
    ensures (driverId == "" || status == "") ==> out.0 == Fail(MissingFields)
    ensures driverId != "" && status != "" && id !in orders ==> out.0 == Fail(OrderNotFound)
    ensures driverId != "" && status != "" && id in orders && !OwnedBy(orders[id], driverId) ==>
      out.0 == Fail(NotOwner)
    ensures (driverId != "" && status != "" && id in orders && OwnedBy(orders[id], driverId)
             && status !in AllowedStatuses) ==> out.0 == Fail(InvalidStatus)
  {
    if driverId == "" || status == "" then (Fail(MissingFields), orders)
    else if id !in orders then (Fail(OrderNotFound), orders)
    else if orders[id].driverId != Some(driverId) then (Fail(NotOwner), orders)
    else if status !in AllowedStatuses then (Fail(InvalidStatus), orders)
    else
      var updated := orders[id := WithStatus(orders[id], status, now)];
      (Ok(updated[id]), updated)
  }

  /**
   * The allow-list is flat: the driver who accepted an order may then set any
   * allowed status, in any order, including going back from "delivered" to
   * "ready"; any other driver is refused with 403 and nothing changes.
   */
  lemma StatusAfterAccept(orders: map<string, Order>, drivers: map<string, DriverRecord>,
                          id: string, d: string, other: string, s1: string, s2: string, t1: int, t2: int)
    requires AcceptOutcome(orders, drivers, id, d).0.Ok?
    requires s1 in AllowedStatuses && s2 in AllowedStatuses
    requires other != "" && other != d
    ensures var m0 := AcceptOutcome(orders, drivers, id, d).1;
      var m1 := UpdateStatusOutcome(m0, id, d, s1, t1).1;
      && UpdateStatusOutcome(m0, id, d, s1, t1).0.Ok?
      && UpdateStatusOutcome(m1, id, d, s2, t2).0.Ok?
      && UpdateStatusOutcome(m1, id, other, s2, t2) == (Fail(NotOwner), m1)
  {
  }

  // ---------------------------------------------------------------------
  // Driver profile

  /** The fields a driver may change on their own profile. */
  const AllowedProfileFields: seq<string> := ["name", "phone", "email", "currentLocation", "isAvailable"]

  /** The allow-listed part of a profile update, values untouched. */
  function Sanitized(update: map<string, Json>): map<string, Json> {
    map f | f in update && f in AllowedProfileFields :: update[f]
  }

  /**
   * The profile sanitiser loop: copies every allow-listed field the request
   * defines (a JSON null is defined) and nothing else.
   */
  method SanitizeProfile(update: map<string, Json>) returns (s: map<string, Json>)
    ensures s.Keys == update.Keys * (set f | f in AllowedProfileFields)
    ensures forall f :: f in s ==> s[f] == update[f]
    ensures s == Sanitized(update)
  {
    s := map[];
    for i := 0 to |AllowedProfileFields|
      invariant s.Keys == update.Keys * (set j | 0 <= j < i :: AllowedProfileFields[j])
      invariant forall f :: f in s ==> f in update && s[f] == update[f]
    {
      var field := AllowedProfileFields[i];
      if field in update {
        s := s[field := update[field]];
      }
    }
    assert (set j | 0 <= j < |AllowedProfileFields| :: AllowedProfileFields[j])
        == (set f | f in AllowedProfileFields);
  }

  /** Response of `/stats`: the aggregate plus the echoed period and window. */
  datatype StatsView = StatsView(
    stats: PeriodStats, averageRating: real, period: string, startDate: int, endDate: int)

  /** `period = 'today'` when the query omits it. */
  function PeriodName(period: Option<string>): string {
    period.GetOr("today")
  }

  /**
   * The window start for a period: the given calendar boundary for "today",
   * "week" and "month", the epoch for "total" and for any other value.
   */
  function WindowStart(period: string, todayStart: int, weekStart: int, monthStart: int): (s: int)
    ensures period == "today" ==> s == todayStart
    ensures period == "week" ==> s == weekStart
    ensures period == "month" ==> s == monthStart
    ensures period !in ["today", "week", "month"] ==> s == 0
  {
    match period
    case "today" => todayStart
    case "week" => weekStart
    case "month" => monthStart
    case _ => 0
  }

  /** Response of `/dashboard`. */
  datatype DashboardView = DashboardView(
    stats: DashboardStats,
    availableOrders: seq<AvailableOrder>,
    currentOrders: seq<Order>,
    driverLocation: Option<Json>,
    lastActiveAt: int)

  // ---------------------------------------------------------------------
  // The stores and the handlers

  /** `driver.currentLocation`: the stored field, or nothing when the record has none. */
  function CurrentLocation(driver: DriverRecord): Option<Json> {
    if "currentLocation" in driver then Some(driver["currentLocation"]) else None
  }

  /** The dashboard's `currentOrders`: exactly the driver's orders that are under way. */
  lemma CurrentOrdersOf(allOrders: seq<Order>, driverId: string)
    ensures forall o :: o in Filter(DriverOrders(allOrders, driverId), InProgress) <==>
      o in allOrders && OwnedBy(o, driverId) && InProgress(o)
  {
    FilterMembership(DriverOrders(allOrders, driverId), InProgress);
  }

  /** `ids` lists every key of the order store exactly once. */
  predicate Enumerates(ids: seq<string>, orders: map<string, Order>) {
    && (forall i :: 0 <= i < |ids| ==> ids[i] in orders)
    && (forall k :: k in orders ==> k in ids)
    && (forall i, j :: 0 <= i < j < |ids| ==> ids[i] != ids[j])
  }

  /** `storage.getOrders()`: the stored orders in the store's own order of keys. */
  function Listing(orders: map<string, Order>, ids: seq<string>): (r: seq<Order>)
    requires forall i :: 0 <= i < |ids| ==> ids[i] in orders
    ensures |r| == |ids|
    ensures forall i :: 0 <= i < |r| ==> r[i] == orders[ids[i]]
  {
    if ids == [] then [] else [orders[ids[0]]] + Listing(orders, ids[1..])
  }

  /**
   * After a successful accept, the next listing of the store shows the
   * accepted order among the driver's current orders and no longer offers
   * it to anyone.
   */
  lemma AcceptLeavesAvailable(orders: map<string, Order>, drivers: map<string, DriverRecord>,
                              ids: seq<string>, id: string, driverId: string, now: int)
    requires Enumerates(ids, orders)
    requires AcceptOutcome(orders, drivers, id, driverId).0.Ok?
    ensures var after := AcceptOutcome(orders, drivers, id, driverId).1;
      && Enumerates(ids, after)
      && after[id] in Listing(after, ids)
      && after[id] in Filter(DriverOrders(Listing(after, ids), driverId), InProgress)
      && forall a :: a in AvailableOrders(Listing(after, ids), now) ==> a.order != after[id]
  {
    var after := AcceptOutcome(orders, drivers, id, driverId).1;
    assert after == orders[id := Accepted(orders[id], driverId)];
    var o := after[id];
    assert OwnedBy(o, driverId) && InProgress(o) && !OpenForPickup(o);
    ListingHas(after, ids, id);
    var listing := Listing(after, ids);
    FilterMembership(listing, Owner(driverId));
    FilterMembership(DriverOrders(listing, driverId), InProgress);
    NeverAvailable(listing, now, o);
  }

  lemma ListingHas(orders: map<string, Order>, ids: seq<string>, id: string)
    requires Enumerates(ids, orders) && id in orders
    ensures orders[id] in Listing(orders, ids)
  {
    var i :| 0 <= i < |ids| && ids[i] == id;
    assert Listing(orders, ids)[i] == orders[id];
  }

  /** An order that is not open for pickup is never among the available orders. */
  lemma NeverAvailable(allOrders: seq<Order>, now: int, o: Order)
    requires !OpenForPickup(o)
    ensures forall a :: a in AvailableOrders(allOrders, now) ==> a.order != o
  {
    var available := AvailableOrders(allOrders, now);
    forall a | a in available ensures a.order != o {
      var j :| 0 <= j < |available| && available[j] == a;
      assert OpenForPickup(available[j].order);
    }
  }

  /**
   * The order and driver stores as in-memory maps keyed by id; `ids` is the
   * order in which the store lists its orders.
   */
  class DriverStore {
    var orders: map<string, Order>
    var ids: seq<string>
    var drivers: map<string, DriverRecord>

    ghost predicate Valid()
      reads this
    {
      Enumerates(ids, orders)
    }

    /** Every stored order, as the handlers that list orders read them. */
    function AllOrders(): seq<Order>
      reads this
      requires Valid()
    {
      Listing(orders, ids)
    }

    constructor (orders0: map<string, Order>, ids0: seq<string>, drivers0: map<string, DriverRecord>)
      requires Enumerates(ids0, orders0)
      ensures Valid()
      ensures orders == orders0 && ids == ids0 && drivers == drivers0
    {
      orders := orders0;
      ids := ids0;
      drivers := drivers0;
    }

    /** `POST /orders/:id/accept`. */
    method AcceptOrder(id: string, driverId: string) returns (r: Response<Order>)
      requires Valid()
      modifies this
      ensures Valid()
      ensures drivers == old(drivers) && ids == old(ids)
      ensures (r, orders) == AcceptOutcome(old(orders), old(drivers), id, driverId)
      ensures r.Fail? ==> orders == old(orders)
    {
      if driverId == "" {
        return Fail(MissingDriverId);
      }
      if driverId !in drivers {
        return Fail(DriverNotFound);
      }
      if id !in orders {
        return Fail(OrderNotFound);
      }
      var order := orders[id];
      if order.status != Confirmed || !Unassigned(order) {
        return Fail(CannotAccept);
      }
      orders := orders[id := Accepted(order, driverId)];
      r := Ok(orders[id]);
    }

    /** `PUT /orders/:id/status`; `now` is the time of the request. */
    method UpdateStatus(id: string, driverId: string, status: string, now: int)
      returns (r: Response<Order>)
      requires Valid()
      modifies this
      ensures Valid()
      ensures drivers == old(drivers) && ids == old(ids)
      ensures (r, orders) == UpdateStatusOutcome(old(orders), id, driverId, status, now)
      ensures r.Fail? ==> orders == old(orders)
    {
      if driverId == "" || status == "" {
        return Fail(MissingFields);
      }
      if id !in orders {
        return Fail(OrderNotFound);
      }
      var order := orders[id];
      if order.driverId != Some(driverId) {
        return Fail(NotOwner);
      }
      if status !in AllowedStatuses {
        return Fail(InvalidStatus);
      }
      var updateData := order.(status := status);
      if status == Delivered {
        updateData := updateData.(actualDeliveryTime := Some(now));
      }
      orders := orders[id := updateData];
      r := Ok(orders[id]);
    }

    /** `GET /orders/:id`: only the assigned driver may read an order. */
    method GetOrder(id: string, driverId: string) returns (r: Response<Order>)
      ensures r.Ok? <==> driverId != "" && id in orders && OwnedBy(orders[id], driverId)
      ensures r.Ok? ==> r.value == orders[id]
      ensures driverId == "" ==> r == Fail(MissingDriverId)
      ensures driverId != "" && id !in orders ==> r == Fail(OrderNotFound)
      ensures driverId != "" && id in orders && !OwnedBy(orders[id], driverId) ==> r == Fail(NotOwner)
    {
      if driverId == "" {
        return Fail(MissingDriverId);
      }
      if id !in orders {
        return Fail(OrderNotFound);
      }
      var order := orders[id];
      if order.driverId != Some(driverId) {
        return Fail(NotOwner);
      }
      r := Ok(order);
    }

    /** `PUT /profile`: applies the sanitised fields to a known driver. */
    method UpdateProfile(driverId: string, updateData: map<string, Json>) returns (r: Response<DriverRecord>)
      modifies this
      ensures orders == old(orders) && ids == old(ids)
      ensures driverId == "" ==> r == Fail(MissingDriverId)
      ensures driverId != "" && driverId !in old(drivers) ==> r == Fail(DriverNotFound)
      ensures r.Fail? ==> drivers == old(drivers)
      ensures driverId != "" && driverId in old(drivers) ==>
        && r == Ok(old(drivers)[driverId] + Sanitized(updateData))
        && drivers == old(drivers)[driverId := r.value]
    {
      if driverId == "" {
        return Fail(MissingDriverId);
      }
      var sanitizedData := SanitizeProfile(updateData);
      if driverId !in drivers {
        return Fail(DriverNotFound);
      }
      var updatedDriver := drivers[driverId] + sanitizedData;
      drivers := drivers[driverId := updatedDriver];
      r := Ok(updatedDriver);
    }

    /** `GET /dashboard`. */
    method Dashboard(driverId: string, now: int, w: CalendarWindow)
      returns (r: Response<DashboardView>)
      requires Valid()
      ensures r.Ok? <==> driverId != "" && driverId in drivers
      ensures driverId == "" ==> r == Fail(MissingDriverId)
      ensures driverId != "" && driverId !in drivers ==> r == Fail(DriverNotFound)
      ensures r.Ok? ==>
        && r.value.stats == DashboardStatsOf(DriverOrders(AllOrders(), driverId), w)
        && r.value.availableOrders == AvailableOrders(AllOrders(), now)
        && r.value.currentOrders == Filter(DriverOrders(AllOrders(), driverId), InProgress)
        && (forall o :: o in r.value.currentOrders <==>
              o in AllOrders() && OwnedBy(o, driverId) && InProgress(o))
        && r.value.driverLocation == CurrentLocation(drivers[driverId])
        && r.value.lastActiveAt == now
    {
      if driverId == "" {
        return Fail(MissingDriverId);
      }
      if driverId !in drivers {
        return Fail(DriverNotFound);
      }
      var driver := drivers[driverId];
      var allOrders := AllOrders();
      var driverOrders := DriverOrders(allOrders, driverId);
      var stats := DashboardStatsOf(driverOrders, w);
      var available := AvailableOrders(allOrders, now);
      var current := Filter(driverOrders, InProgress);
      CurrentOrdersOf(allOrders, driverId);
      var location := CurrentLocation(driver);
      r := Ok(DashboardView(stats, available, current, location, now));
    }

    /**
     * `GET /stats`; `now` is the end of the window and the three calendar
     * boundaries are computed from the clock outside the model.
     */
    method GetStats(driverId: string, period: Option<string>,
                    todayStart: int, weekStart: int, monthStart: int, now: int)
      returns (r: Response<StatsView>)
      requires Valid()
      ensures r.Ok? <==> driverId != "" && driverId in drivers
      ensures driverId == "" ==> r == Fail(MissingDriverId)
      ensures driverId != "" && driverId !in drivers ==> r == Fail(DriverNotFound)
      ensures r.Ok? ==>
        var start := WindowStart(PeriodName(period), todayStart, weekStart, monthStart);
        && r.value.stats == Stats(DriverOrders(AllOrders(), driverId), start, now)
        && r.value.startDate == start && r.value.endDate == now
        && r.value.period == PeriodName(period)
        && r.value.averageRating == DefaultRating
    {
      if driverId == "" {
        return Fail(MissingDriverId);
      }
      if driverId !in drivers {
        return Fail(DriverNotFound);
      }
      var driverOrders := DriverOrders(AllOrders(), driverId);
      var name := PeriodName(period);
      var startDate := WindowStart(name, todayStart, weekStart, monthStart);
      var stats := Stats(driverOrders, startDate, now);
      r := Ok(StatsView(stats, DefaultRating, name, startDate, now));
    }

    /**
     * `GET /orders`: the driver's orders, optionally only those with the given
     * status, newest first. It does not check that the driver exists.
     */
    method ListDriverOrders(driverId: string, status: string)
      returns (r: Response<seq<Order>>)
      requires Valid()
      ensures r.Ok? <==> driverId != ""
      ensures driverId == "" ==> r == Fail(MissingDriverId)
      ensures r.Ok? ==>
        && (forall o :: o in r.value <==> o in AllOrders() && Listed(o, driverId, status))
        && multiset(r.value) == multiset(Filter(AllOrders(), ListedBy(driverId, status)))
        && (forall i, j :: 0 <= i < j < |r.value| ==> r.value[i].createdAt >= r.value[j].createdAt)
    {
      if driverId == "" {
        return Fail(MissingDriverId);
      }
      var allOrders := AllOrders();
      var driverOrders := DriverOrders(allOrders, driverId);
      if status != "" {
        driverOrders := Filter(driverOrders, HasStatus(status));
        FilterFilter(allOrders, Owner(driverId), HasStatus(status), ListedBy(driverId, status));
      } else {
        FilterAgree(allOrders, Owner(driverId), ListedBy(driverId, status));
      }
      var listed := Filter(allOrders, ListedBy(driverId, status));
      assert driverOrders == listed;
      driverOrders := SortBy(driverOrders, NewestFirstKey);
      NewestFirstFacts(listed);
      FilterMembership(allOrders, ListedBy(driverId, status));
      r := Ok(driverOrders);
    }
  }

  /** Sorting newest first keeps the same elements and orders them by descending `createdAt`. */
  lemma NewestFirstFacts(s: seq<Order>)
    ensures var t := SortBy(s, NewestFirstKey);
      && (forall o :: o in t <==> o in s)
      && (forall i, j :: 0 <= i < j < |t| ==> t[i].createdAt >= t[j].createdAt)
  {
    var t := SortBy(s, NewestFirstKey);
    SortBySorted(s, NewestFirstKey);
    forall o ensures o in t <==> o in s {
      assert o in t <==> o in multiset(t);
      assert o in s <==> o in multiset(s);
    }
    forall i, j | 0 <= i < j < |t| ensures t[i].createdAt >= t[j].createdAt {
      assert KeyLe(NewestFirstKey(t[i]), NewestFirstKey(t[j]));
    }
  }
}
