/**
 * The order record shared by the server routes and the client pages.
 * Amounts are integer cents, timestamps integer milliseconds since the epoch,
 * and a string field that is empty stands for one that is unset (JavaScript
 * treats both as falsy).
 */
module Schema {
  import opened Wrappers

  /** One line of an order's parsed item list. */
  datatype OrderItem = OrderItem(name: string, quantity: int, price: int, restaurantName: string)

  datatype Order = Order(
    id: string,
    orderNumber: string,
    customerName: string,
    customerPhone: string,
    deliveryAddress: string,
    restaurantName: string,
    status: string,
    totalAmount: Option<int>,        // cents; None when the stored amount is missing
    driverId: Option<string>,        // None when no driver is assigned
    createdAt: int,
    acceptedAt: Option<int>,
    deliveredAt: Option<int>,
    actualDeliveryTime: Option<int>,
    driverEarnings: Option<int>,     // cents; the stored decimal string, parsed
    estimatedTime: string,
    items: seq<OrderItem>)

  /** A JSON value in a request body (profile fields, driver records). */
  datatype Json = JNull | JBool(b: bool) | JNum(n: int) | JStr(s: string)

  const Pending: string := "pending"
  const Confirmed: string := "confirmed"
  const Preparing: string := "preparing"
  const Ready: string := "ready"
  const PickedUp: string := "picked_up"
  const OnWay: string := "on_way"
  const Delivered: string := "delivered"
  const Cancelled: string := "cancelled"

  /** `!order.driverId`: no driver, or an empty driver id. */
  predicate Unassigned(o: Order) {
    o.driverId == None || o.driverId == Some("")
  }

  /** `order.driverId === driverId` for a request's driver id. */
  predicate OwnedBy(o: Order, driverId: string) {
    o.driverId == Some(driverId)
  }

  /** `parseFloat(order.totalAmount || '0')`, in cents. */
  function AmountOf(o: Order): int {
    o.totalAmount.GetOr(0)
  }

  /** `parseFloat(order.driverEarnings || "0")`, in cents. */
  function EarningsOf(o: Order): int {
    o.driverEarnings.GetOr(0)
  }

  predicate IsDelivered(o: Order) { o.status == Delivered }

  predicate IsCancelled(o: Order) { o.status == Cancelled }
}
