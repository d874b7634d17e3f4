/**
 * The customer's live tracking page: the fetched orders still in progress,
 * projected onto the short records the page lists, and the status labels
 * it shows.
 */
module TrackOrdersPage {
  import opened Wrappers
  import opened Seqs
  import opened Schema
  import OrdersPage

  /** `activeStatuses`. */
  const ActiveStatuses: seq<string> := [Pending, Confirmed, Preparing, OnWay]

  predicate IsTracked(o: Order) { o.status in ActiveStatuses }

  /** One entry of the tracking list (the driver's name and phone left out). */
  datatype QuickOrder = QuickOrder(
    id: string,
    orderNumber: string,
    restaurantName: string,
    status: string,
    estimatedTime: string,
    totalAmount: Option<int>,
    deliveryAddress: string,
    customerPhone: string)

  /** `order.orderNumber || order.id.slice(0, 8)`. */
  function OrderNumberOrId(o: Order): (n: string)
    ensures o.orderNumber != "" ==> n == o.orderNumber
    ensures o.orderNumber == "" ==> |n| == Min(8, |o.id|) && n <= o.id
  {
    if o.orderNumber != "" then o.orderNumber else o.id[..Min(8, |o.id|)]
  }

  /** `order.restaurantName || 'مطعم غير معروف'`. */
  function RestaurantOrUnknown(o: Order): (name: string)
    ensures name != ""
    ensures o.restaurantName != "" ==> name == o.restaurantName
    ensures o.restaurantName == "" ==> name == OrdersPage.UnknownRestaurant
  {
    if o.restaurantName != "" then o.restaurantName else OrdersPage.UnknownRestaurant
  }

  /** The record the page keeps for one order. */
  function Quick(o: Order): (q: QuickOrder)
    ensures q.id == o.id && q.status == o.status
    ensures q.orderNumber == OrderNumberOrId(o) && q.restaurantName == RestaurantOrUnknown(o)
    ensures q.estimatedTime == o.estimatedTime && q.totalAmount == o.totalAmount
    ensures q.deliveryAddress == o.deliveryAddress && q.customerPhone == o.customerPhone
  {
    QuickOrder(o.id, OrderNumberOrId(o), RestaurantOrUnknown(o), o.status, o.estimatedTime,
               o.totalAmount, o.deliveryAddress, o.customerPhone)
  }

  /**
   * The `activeOrders` query: one record per fetched order whose status is
   * still active, in the fetched order.
   */
  function ActiveOrders(data: seq<Order>): (r: seq<QuickOrder>)
    ensures |r| == |Filter(data, IsTracked)|
    ensures forall i :: 0 <= i < |r| ==> r[i] == Quick(Filter(data, IsTracked)[i])
    ensures forall i :: 0 <= i < |r| ==> r[i].status in ActiveStatuses
  {
    Map(Quick, Filter(data, IsTracked))
  }

  /** Every fetched order with an active status has its record in the list. */
  lemma EveryActiveOrderListed(data: seq<Order>, o: Order)
    requires o in data && IsTracked(o)
    ensures exists i :: 0 <= i < |ActiveOrders(data)| && ActiveOrders(data)[i] == Quick(o)
  {
    var kept := Filter(data, IsTracked);
    FilterMembership(data, IsTracked);
    var i :| 0 <= i < |kept| && kept[i] == o;
    assert ActiveOrders(data)[i] == Quick(o);
  }

  /** The tracking list shows exactly the orders of the history page's "active" tab, in the same order. */
  lemma TrackedAreActiveTab(data: seq<Order>)
    ensures |ActiveOrders(data)| == OrdersPage.TabCount(data, OrdersPage.Active)
    ensures forall i :: 0 <= i < |ActiveOrders(data)| ==>
      ActiveOrders(data)[i].id == OrdersPage.TabOrders(data, OrdersPage.Active)[i].id
  {
    FilterAgree(data, IsTracked, OrdersPage.IsActive);
  }

  // ---------------------------------------------------------------------
  // Status labels

  const StatusLabels: map<string, string> :=
    map[Pending := "قيد المراجعة", Confirmed := "مؤكد", Preparing := "قيد التحضير",
        OnWay := "في الطريق", Delivered := "تم التوصيل"]

  /** `getStatusLabel`: the label of one of five statuses, the status itself otherwise. */
  function GetStatusLabel(status: string): (r: string)
    ensures r == status <==> status !in StatusLabels
  {
    if status in StatusLabels then StatusLabels[status] else status
  }

  /** The table labels the five statuses of a live order and `delivered`. */
  lemma StatusLabelsKeys()
    ensures StatusLabels.Keys == {Pending, Confirmed, Preparing, OnWay, Delivered}
  {
  }

  /**
   * The tracking page labels every status as the history page does, except
   * `cancelled`, which it shows untranslated.
   */
  lemma LabelsAgreeWithHistoryPage(status: string)
    ensures status != Cancelled ==> GetStatusLabel(status) == OrdersPage.GetStatusLabel(status)
    ensures GetStatusLabel(Cancelled) == Cancelled != OrdersPage.GetStatusLabel(Cancelled)
  {
  }
}
