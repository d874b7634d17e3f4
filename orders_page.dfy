/**
 * The customer's order history page: the restaurant-name fallback applied
 * to each fetched order, the four tabs and their counts, the status labels
 * and the item count shown on each card.
 *
 * The order's `items` are the already parsed list; a list that fails to
 * parse is the empty list, as the page's `catch` leaves it.
 */
module OrdersPage {
  import opened Seqs
  import opened Schema

  /** The placeholder shown when no restaurant name can be found. */
  const UnknownRestaurant: string := "مطعم غير معروف"

  /**
   * The restaurant name the page shows: the order's own, else the first
   * item's, else the placeholder. It is never empty.
   */
  function RestaurantName(o: Order): (name: string)
    ensures o.restaurantName != "" ==> name == o.restaurantName
    ensures o.restaurantName == "" && |o.items| > 0 && o.items[0].restaurantName != "" ==>
      name == o.items[0].restaurantName
    ensures o.restaurantName == "" && (|o.items| == 0 || o.items[0].restaurantName == "") ==>
      name == UnknownRestaurant
    ensures name != ""
  {
    var restaurantName := o.restaurantName;
    if restaurantName == "" && |o.items| > 0 && o.items[0].restaurantName != "" then
      o.items[0].restaurantName
    else if restaurantName == "" then
      UnknownRestaurant
    else
      restaurantName
  }

  /** The processed order: the fallback name written back into the record. */
  function Processed(o: Order): (p: Order)
    ensures p.restaurantName == RestaurantName(o)
    ensures p.(restaurantName := o.restaurantName) == o
  {
    o.(restaurantName := RestaurantName(o))
  }

  /** Processing is idempotent: a processed order keeps its name. */
  lemma ProcessedIdempotent(o: Order)
    ensures Processed(Processed(o)) == Processed(o)
  {
  }

  // ---------------------------------------------------------------------
  // Status labels

  const StatusLabels: map<string, string> :=
    map[Pending := "قيد المراجعة", Confirmed := "مؤكد", Preparing := "قيد التحضير",
        OnWay := "في الطريق", Delivered := "تم التوصيل", Cancelled := "ملغي"]

  /** `getStatusLabel`: the label of one of six statuses, the status itself otherwise. */
  function GetStatusLabel(status: string): (r: string)
    ensures r == status <==> status !in StatusLabels
    ensures forall other :: other in StatusLabels && other != status && status in StatusLabels ==>
      StatusLabels[other] != r
  {
    if status in StatusLabels then StatusLabels[status] else status
  }

  /** The table labels exactly six statuses: every status but `ready` and `picked_up`. */
  lemma StatusLabelsKeys()
    ensures StatusLabels.Keys == {Pending, Confirmed, Preparing, OnWay, Delivered, Cancelled}
  {
  }

  // ---------------------------------------------------------------------
  // Tabs

  datatype Tab = All | Active | Completed | CancelledTab

  const ActiveStatuses: seq<string> := [Pending, Confirmed, Preparing, OnWay]

  predicate IsActive(o: Order) { o.status in ActiveStatuses }

  /** The predicate behind each tab. */
  function InTab(tab: Tab): Order -> bool {
    match tab
    case All => (o: Order) => true
    case Active => IsActive
    case Completed => IsDelivered
    case CancelledTab => IsCancelled
  }

  /** `filteredOrders`: the orders of the selected tab, in their original order. */
  function TabOrders(orders: seq<Order>, tab: Tab): (r: seq<Order>)
    ensures tab == All ==> r == orders
    ensures forall o :: o in r <==> o in orders && InTab(tab)(o)
  {
    FilterMembership(orders, InTab(tab));
    if tab == All then FilterKeepsAll(orders, InTab(tab)); Filter(orders, InTab(tab))
    else Filter(orders, InTab(tab))
  }

  /** The `count` of each tab, as the `tabs` table computes it. */
  function TabCount(orders: seq<Order>, tab: Tab): (n: nat)
    ensures n == |TabOrders(orders, tab)|
  {
    match tab
    case All => |orders|
    case Active => |Filter(orders, IsActive)|
    case Completed => |Filter(orders, IsDelivered)|
    case CancelledTab => |Filter(orders, IsCancelled)|
  }

  /**
   * The active, completed and cancelled tabs share no order, and an order
   * whose status is none of their six appears under "all" only.
   */
  lemma TabsDisjoint(o: Order)
    ensures !(InTab(Active)(o) && InTab(Completed)(o))
    ensures !(InTab(Active)(o) && InTab(CancelledTab)(o))
    ensures !(InTab(Completed)(o) && InTab(CancelledTab)(o))
    ensures o.status !in ActiveStatuses + [Delivered, Cancelled] ==>
      !InTab(Active)(o) && !InTab(Completed)(o) && !InTab(CancelledTab)(o)
  {
  }

  /** A status among the six the page knows. */
  predicate KnownStatus(o: Order) {
    o.status in ActiveStatuses + [Delivered, Cancelled]
  }

  /**
   * The three narrow tab counts never exceed the "all" count, and add up to
   * it exactly when every order has one of the six statuses.
   */
  lemma {:induction false} TabCountsAddUp(orders: seq<Order>)
    ensures TabCount(orders, Active) + TabCount(orders, Completed) + TabCount(orders, CancelledTab)
            <= TabCount(orders, All)
    ensures (forall i :: 0 <= i < |orders| ==> KnownStatus(orders[i])) <==>
      TabCount(orders, Active) + TabCount(orders, Completed) + TabCount(orders, CancelledTab)
      == TabCount(orders, All)
  {
    if orders != [] {
      TabCountsAddUp(orders[1..]);
      FilterStep(orders, IsActive);
      FilterStep(orders, IsDelivered);
      FilterStep(orders, IsCancelled);
      AllKnownStep(orders);
      StatusClass(orders[0]);
    }
  }

  /** Each order passes at most one narrow tab, and exactly one when its status is known. */
  lemma StatusClass(o: Order)
    ensures (if IsActive(o) then 1 else 0) + (if IsDelivered(o) then 1 else 0) + (if IsCancelled(o) then 1 else 0)
            == (if KnownStatus(o) then 1 else 0)
  {
  }

  /** A filter's length grows by one exactly for a head element that passes. */
  lemma FilterStep(orders: seq<Order>, p: Order -> bool)
    requires orders != []
    ensures |Filter(orders, p)| == |Filter(orders[1..], p)| + (if p(orders[0]) then 1 else 0)
  {
  }

  lemma AllKnownStep(orders: seq<Order>)
    requires orders != []
    ensures (forall i :: 0 <= i < |orders| ==> KnownStatus(orders[i])) <==>
      KnownStatus(orders[0]) && (forall i :: 0 <= i < |orders[1..]| ==> KnownStatus(orders[1..][i]))
  {
    forall i | 1 <= i < |orders| ensures orders[i] == orders[1..][i - 1] { }
  }

  // ---------------------------------------------------------------------
  // Item count

  function Quantity(item: OrderItem): int { item.quantity }

  /** `parsedItems.reduce((sum, item) => sum + item.quantity, 0) || 0`. */
  function ItemCount(items: seq<OrderItem>): (n: int)
    ensures items == [] ==> n == 0
    ensures items != [] ==>
      n == SumBy(items[..|items| - 1], Quantity) + items[|items| - 1].quantity
  {
    if items != [] then
      var k := |items| - 1;
      assert items == items[..k] + [items[k]];
      SumByConcat(items[..k], [items[k]], Quantity);
      SumBy(items, Quantity)
    else 0
  }

  /** The count of two lists shown together is the sum of their counts. */
  lemma ItemCountConcat(a: seq<OrderItem>, b: seq<OrderItem>)
    ensures ItemCount(a + b) == ItemCount(a) + ItemCount(b)
  {
    SumByConcat(a, b, Quantity);
  }

  /** Every line orders at least one unit, so the count is at least the number of lines. */
  lemma ItemCountAtLeastLines(items: seq<OrderItem>, most: int)
    requires forall i :: 0 <= i < |items| ==> 1 <= items[i].quantity <= most
    ensures |items| <= ItemCount(items) <= |items| * most
  {
    SumByBounds(items, Quantity, 1, most);
  }
}
