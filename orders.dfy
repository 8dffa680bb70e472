/**
 * The "My Orders" page: the signed-in user's orders, newest first, each with the
 * item rows stored under its id, and the badge and label rules of each card.
 * Dates are instants in milliseconds; their formatting is not modelled.
 */
module OrderHistory {
  import opened Wrappers
  import opened Seqs
  import opened Sorting
  import opened Text
  import opened CartEngine
  import opened AddressDirectory
  import opened Checkout

  const YellowBadge := "bg-yellow-100 text-yellow-800"
  const BlueBadge := "bg-blue-100 text-blue-800"
  const GreenBadge := "bg-green-100 text-green-800"
  const GrayBadge := "bg-gray-100 text-gray-800"

  /** `getStatusColor`: three known order statuses, gray for anything else. */
  function StatusColor(status: string): (c: string)
    ensures c == YellowBadge <==> status == "Processing"
    ensures c == BlueBadge <==> status == "Shipped"
    ensures c == GreenBadge <==> status == "Delivered"
    ensures c == GrayBadge <==> status != "Processing" && status != "Shipped" && status != "Delivered"
  {
    if status == "Processing" then YellowBadge
    else if status == "Shipped" then BlueBadge
    else if status == "Delivered" then GreenBadge
    else GrayBadge
  }

  /** `getPaymentStatusColor`: paid is green, pending yellow, anything else gray. */
  function PaymentStatusColor(status: string): (c: string)
    ensures c == GreenBadge <==> status == "Paid"
    ensures c == YellowBadge <==> status == "Pending"
    ensures c == GrayBadge <==> status != "Paid" && status != "Pending"
    ensures c != BlueBadge
  {
    if status == "Paid" then GreenBadge
    else if status == "Pending" then YellowBadge
    else GrayBadge
  }

  /** `isDelivered`: the current instant is past the estimated delivery. */
  predicate IsDelivered(now: int, estimatedDelivery: int)
  {
    now > estimatedDelivery
  }

  datatype Badge = Badge(text: string, color: string)

  /** The status badge: "Delivered" once the estimate has passed, otherwise "In Transit" in the stored status's colour. */
  function StatusBadge(now: int, estimatedDelivery: int, status: string): (b: Badge)
    ensures b.text == "Delivered" <==> IsDelivered(now, estimatedDelivery)
    ensures b.text == "Delivered" || b.text == "In Transit"
    ensures b.text == "Delivered" ==> b.color == GreenBadge
    ensures b.text == "In Transit" ==> b.color == StatusColor(status)
  {
    if IsDelivered(now, estimatedDelivery) then Badge("Delivered", StatusColor("Delivered"))
    else Badge("In Transit", StatusColor(status))
  }

  /** The words before the formatted delivery date; they agree with the badge. */
  function DeliveryNote(now: int, estimatedDelivery: int): (s: string)
    ensures s == "Delivered on " <==> StatusBadge(now, estimatedDelivery, "").text == "Delivered"
    ensures s == "Delivered on " || s == "Estimated delivery by "
  {
    if IsDelivered(now, estimatedDelivery) then "Delivered on " else "Estimated delivery by "
  }

  /**
   * An order just placed at `placedAt` shows "In Transit" in yellow for at least
   * three days and "Delivered" in green after five; its payment badge is yellow
   * for cash on delivery and green otherwise.
   */
  lemma PlacedOrderBadges(id: string, u: UserId, addressId: AddressId, lines: seq<CartItem>,
                          paymentMethod: string, placedAt: int, createdAt: int, draw: real, now: int)
    requires 0.0 <= draw < 1.0
    ensures var o := NewOrder(id, u, addressId, lines, paymentMethod, placedAt, createdAt, draw);
      && (now <= placedAt + 3 * DayMs ==> StatusBadge(now, o.estimatedDelivery, o.orderStatus) == Badge("In Transit", YellowBadge))
      && (now > placedAt + 5 * DayMs ==> StatusBadge(now, o.estimatedDelivery, o.orderStatus) == Badge("Delivered", GreenBadge))
      && PaymentStatusColor(o.paymentStatus) == (if paymentMethod == "cod" then YellowBadge else GreenBadge)
  {
  }

  /** The payment method label. */
  function MethodLabel(paymentMethod: string): (s: string)
    ensures s == "Cash on Delivery" <==> paymentMethod == "cod"
    ensures s == "Cash on Delivery" || s == "Online Payment"
  {
    if paymentMethod == "cod" then "Cash on Delivery" else "Online Payment"
  }

  /** The accordion's noun: singular exactly for one item. */
  function CountLabel(n: nat): (s: string)
    ensures s == "item" <==> n == 1
    ensures s == "item" || s == "items"
  {
    if n == 1 then "item" else "items"
  }

  /** The card header's `order.id.slice(0, 8)`. */
  function ShortId(id: string): (s: string)
    ensures |s| == if |id| < 8 then |id| else 8
    ensures StartsWith(id, s)
  {
    SlicePrefix(id, 8)
  }

  /** An item as the page shows it. */
  datatype ItemView = ItemView(
    productId: int,
    name: string,
    price: int,
    quantity: int,
    image: string,
    color: Option<string>,
    size: Option<string>)

  /** The stand-in name `Product #<product_id>`. */
  function ProductLabel(productId: int): (name: string)
    ensures |name| > 9 && name[..9] == "Product #"
    ensures productId < 0 <==> name[9] == '-'
  {
    "Product #" + IntToDecimal(productId)
  }

  /** The stand-in name keeps the product id: its digits after "Product #" read back as the id. */
  lemma ProductLabelNamesId(productId: nat)
    ensures var name := ProductLabel(productId);
      && |name| > 9 && name[..9] == "Product #"
      && (forall i :: 9 <= i < |name| ==> IsDigit(name[i]))
      && DecimalValue(name[9..]) == productId
  {
    var name := ProductLabel(productId);
    assert name[9..] == NatToDecimal(productId);
    DecimalRoundTrip(productId);
  }

  /** The mapping of one fetched item row; `value || undefined` drops null and "". */
  function ViewItem(row: OrderItemRow): (v: ItemView)
    ensures v.productId == row.productId && v.price == row.price && v.quantity == row.quantity
    ensures v.image == "/placeholder.svg" && v.name == ProductLabel(row.productId)
    ensures v.color.Some? ==> v.color == row.color && v.color.value != ""
    ensures v.size.Some? ==> v.size == row.size && v.size.value != ""
    ensures row.color.Some? && row.color.value != "" ==> v.color == row.color
    ensures row.size.Some? && row.size.value != "" ==> v.size == row.size
  {
    ItemView(row.productId, ProductLabel(row.productId), row.price, row.quantity, "/placeholder.svg",
             NullIfEmpty(row.color), NullIfEmpty(row.size))
  }

  /**
   * A cart line written at checkout and fetched back shows the line's product id,
   * unit price and quantity, and its colour and size exactly when they were
   * non-empty.
   */
  lemma CartLineShownBack(orderId: string, line: CartItem)
    ensures var v := ViewItem(ItemRow(orderId, line));
      && v.productId == line.product.id && v.price == line.product.price && v.quantity == line.quantity
      && (v.color.Some? <==> line.selectedColor.Some? && line.selectedColor.value != "")
      && (v.color.Some? ==> v.color == line.selectedColor)
      && (v.size.Some? <==> line.selectedSize.Some? && line.selectedSize.value != "")
      && (v.size.Some? ==> v.size == line.selectedSize)
  {
  }

  function ViewItems(rows: seq<OrderItemRow>): (r: seq<ItemView>)
    ensures |r| == |rows|
    ensures forall i :: 0 <= i < |rows| ==> r[i] == ViewItem(rows[i])
  {
    seq(|rows|, i requires 0 <= i < |rows| => ViewItem(rows[i]))
  }

  /** `.eq("order_id", order.id)`. */
  function OfOrder(orderId: string): OrderItemRow -> bool
  {
    (row: OrderItemRow) => row.orderId == orderId
  }

  /** An order as the page shows it; the joined shipping address is not modelled. */
  datatype OrderView = OrderView(
    id: string,
    items: seq<ItemView>,
    totalPrice: int,
    date: int,
    status: string,
    estimatedDelivery: int,
    paymentMethod: string,
    paymentStatus: string)

  function ViewOrder(o: OrderRow, itemTable: seq<OrderItemRow>): (v: OrderView)
    ensures v.id == o.id && v.date == o.createdAt && v.totalPrice == o.totalPrice
    ensures v.status == o.orderStatus && v.estimatedDelivery == o.estimatedDelivery
    ensures v.paymentMethod == o.paymentMethod && v.paymentStatus == o.paymentStatus
    ensures v.items == ViewItems(Filter(itemTable, OfOrder(o.id)))
  {
    OrderView(o.id, ViewItems(Filter(itemTable, OfOrder(o.id))), o.totalPrice, o.createdAt,
              o.orderStatus, o.estimatedDelivery, o.paymentMethod, o.paymentStatus)
  }

  /** The rows the service lets the user read: their own. */
  function PlacedBy(u: UserId): OrderRow -> bool
  {
    (o: OrderRow) => o.userId == u
  }

  /** `.order('created_at', { ascending: false })` as a sort key. */
  function NewestFirst(o: OrderRow): int
  {
    -o.createdAt
  }

  /** The user's orders, newest first. */
  function UserOrders(orders: seq<OrderRow>, u: UserId): (r: seq<OrderRow>)
    ensures multiset(r) == multiset(Filter(orders, PlacedBy(u)))
    ensures forall o :: o in r <==> o in orders && o.userId == u
    ensures forall i, j :: 0 <= i < j < |r| ==> r[i].createdAt >= r[j].createdAt
  {
    var r := SortBy(Filter(orders, PlacedBy(u)), NewestFirst);
    NewestFirstDescends(r);
    SameMultisetSameMembers(r, Filter(orders, PlacedBy(u)));
    r
  }

  lemma NewestFirstDescends(r: seq<OrderRow>)
    requires SortedBy(r, NewestFirst)
    ensures forall i, j :: 0 <= i < j < |r| ==> r[i].createdAt >= r[j].createdAt
  {
    forall i, j | 0 <= i < j < |r|
      ensures r[i].createdAt >= r[j].createdAt
    {
      assert NewestFirst(r[i]) <= NewestFirst(r[j]);
    }
  }

  /** The list `setOrders` receives when every read succeeds: one view per order of the user, in that order. */
  function LoadedOrders(orders: seq<OrderRow>, itemTable: seq<OrderItemRow>, u: UserId): (r: seq<OrderView>)
    ensures |r| == |UserOrders(orders, u)|
    ensures forall i :: 0 <= i < |r| ==> r[i] == ViewOrder(UserOrders(orders, u)[i], itemTable)
  {
    var sorted := UserOrders(orders, u);
    seq(|sorted|, i requires 0 <= i < |sorted| => ViewOrder(sorted[i], itemTable))
  }

  /**
   * The page shows one card per order of the user, newest first, and each card
   * carries the views of exactly the item rows stored under its id.
   */
  lemma LoadedOrdersNewestFirst(orders: seq<OrderRow>, itemTable: seq<OrderItemRow>, u: UserId)
    ensures var r := LoadedOrders(orders, itemTable, u);
      && |r| == |Filter(orders, PlacedBy(u))|
      && (forall i, j :: 0 <= i < j < |r| ==> r[i].date >= r[j].date)
      && (forall i :: 0 <= i < |r| ==> r[i].items == ViewItems(Filter(itemTable, OfOrder(r[i].id))))
  {
    var sorted := UserOrders(orders, u);
    assert |multiset(sorted)| == |multiset(Filter(orders, PlacedBy(u)))|;
  }

  /** Every order of the user is shown. */
  lemma LoadedOrdersComplete(orders: seq<OrderRow>, itemTable: seq<OrderItemRow>, u: UserId, o: OrderRow)
    requires o in orders && o.userId == u
    ensures ViewOrder(o, itemTable) in LoadedOrders(orders, itemTable, u)
  {
    var sorted := UserOrders(orders, u);
    var r := LoadedOrders(orders, itemTable, u);
    var k :| 0 <= k < |sorted| && sorted[k] == o;
    assert r[k] == ViewOrder(o, itemTable);
  }

  /** Every card shown is the view of an order of the user. */
  lemma LoadedOrdersSound(orders: seq<OrderRow>, itemTable: seq<OrderItemRow>, u: UserId, k: int)
    requires 0 <= k < |LoadedOrders(orders, itemTable, u)|
    ensures var o := UserOrders(orders, u)[k];
      && o in orders && o.userId == u
      && LoadedOrders(orders, itemTable, u)[k] == ViewOrder(o, itemTable)
  {
    var sorted := UserOrders(orders, u);
    assert sorted[k] in sorted;
  }

  /** The order checkout inserts is shown on its buyer's orders page. */
  lemma PlacedOrderShown(orders: seq<OrderRow>, itemTable: seq<OrderItemRow>, id: string, u: UserId,
                         addressId: AddressId, lines: seq<CartItem>, paymentMethod: string,
                         now: int, createdAt: int, draw: real)
    requires 0.0 <= draw < 1.0
    ensures var o := NewOrder(id, u, addressId, lines, paymentMethod, now, createdAt, draw);
      ViewOrder(o, itemTable) in LoadedOrders(orders + [o], itemTable, u)
  {
    var o := NewOrder(id, u, addressId, lines, paymentMethod, now, createdAt, draw);
    assert o in orders + [o];
    LoadedOrdersComplete(orders + [o], itemTable, u, o);
  }

  /**
   * After checkout appended an order's item rows, the order's card shows exactly
   * those rows, one view per cart line, provided no earlier row already carried
   * the new order id. The item query has no ordering, so only which rows come
   * back, and how often, is stated.
   */
  lemma PlacedItemsShownWithOrder(itemTable: seq<OrderItemRow>, orderId: string, lines: seq<CartItem>)
    requires forall i :: 0 <= i < |itemTable| ==> itemTable[i].orderId != orderId
    ensures multiset(Filter(itemTable + ItemRows(orderId, lines), OfOrder(orderId))) == multiset(ItemRows(orderId, lines))
    ensures var shown := ViewItems(Filter(itemTable + ItemRows(orderId, lines), OfOrder(orderId)));
      && |shown| == |lines|
      && (forall i :: 0 <= i < |lines| ==> ViewItem(ItemRow(orderId, lines[i])) in shown)
      && forall v :: v in shown ==> exists i :: 0 <= i < |lines| && v == ViewItem(ItemRow(orderId, lines[i]))
  {
    var rows := ItemRows(orderId, lines);
    FilterAppend(itemTable, rows, OfOrder(orderId));
    FilterKeepsNone(itemTable, OfOrder(orderId));
    FilterKeepsAll(rows, OfOrder(orderId));
    assert Filter(itemTable + rows, OfOrder(orderId)) == [] + rows;
    assert [] + rows == rows;
    var shown := ViewItems(rows);
    forall i | 0 <= i < |lines|
      ensures ViewItem(ItemRow(orderId, lines[i])) in shown
    {
      assert shown[i] == ViewItem(ItemRow(orderId, lines[i]));
    }
  }

  /** The page's list: empty until a load succeeds, and left empty when a read fails. */
  function OrdersShown(ordersReadOk: bool, itemsReadOk: bool, orders: seq<OrderRow>,
                       itemTable: seq<OrderItemRow>, u: Option<UserId>): (r: seq<OrderView>)
    ensures u.None? || !ordersReadOk || !itemsReadOk ==> r == []
  {
    if u.Some? && ordersReadOk && itemsReadOk then LoadedOrders(orders, itemTable, u.value) else []
  }
}
