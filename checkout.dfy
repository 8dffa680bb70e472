/**
 * The cart page's checkout: address preselection, the quantity buttons, placing
 * an order (one order row, then one item row per cart line) and finishing it.
 * The `orders` and `order_items` tables are sequences; each remote write is
 * accepted or rejected as a whole, and which one happened is a parameter.
 */
module Checkout {
  import opened Wrappers
  import opened Catalog
  import opened CartEngine
  import opened AddressDirectory

  /** Milliseconds in a day: `setDate(getDate() + k)` moves the instant by `k` days. */
  const DayMs := 86400000

  /** A row of the `orders` table. `createdAt` is stamped by the service at insertion. */
  datatype OrderRow = OrderRow(
    id: string,
    userId: UserId,
    addressId: AddressId,
    totalPrice: int,
    paymentMethod: string,
    paymentStatus: string,
    orderStatus: string,
    estimatedDelivery: int,
    createdAt: int)

  /** A row of the `order_items` table; a missing colour or size is `null`, here `None`. */
  datatype OrderItemRow = OrderItemRow(
    orderId: string,
    productId: int,
    quantity: int,
    price: int,
    color: Option<string>,
    size: Option<string>)

  /** `Math.floor(Math.random() * 3) + 3` for a draw `r` in [0, 1). */
  function DeliveryOffsetDays(r: real): (days: int)
    requires 0.0 <= r < 1.0
    ensures 3 <= days <= 5
  {
    (r * 3.0).Floor + 3
  }

  /** Every offset of three, four and five days is reachable. */
  lemma DeliveryOffsetsReachable()
    ensures DeliveryOffsetDays(0.0) == 3
    ensures DeliveryOffsetDays(0.5) == 4
    ensures DeliveryOffsetDays(0.9) == 5
  {
    assert (0.5 * 3.0).Floor == 1 by {
      assert 1.0 <= 0.5 * 3.0 < 2.0;
    }
    assert (0.9 * 3.0).Floor == 2 by {
      assert 2.0 <= 0.9 * 3.0 < 3.0;
    }
  }

  /** Cash on delivery is pending; any other method is paid. */
  function PaymentStatus(paymentMethod: string): (s: string)
    ensures s == "Pending" <==> paymentMethod == "cod"
    ensures s == "Pending" || s == "Paid"
  {
    if paymentMethod == "cod" then "Pending" else "Paid"
  }

  /**
   * The row `handlePlaceOrder` inserts. The estimate is computed from the
   * browser's clock `now`; the service assigns `id` and stamps `createdAt`.
   */
  function NewOrder(id: string, user: UserId, addressId: AddressId, lines: seq<CartItem>,
                    paymentMethod: string, now: int, createdAt: int, draw: real): (o: OrderRow)
    requires 0.0 <= draw < 1.0
    ensures o.id == id && o.userId == user && o.addressId == addressId
    ensures o.paymentMethod == paymentMethod
    ensures o.totalPrice == TotalPrice(lines)
    ensures o.paymentStatus == PaymentStatus(paymentMethod) && o.orderStatus == "Processing"
    ensures o.estimatedDelivery == now + DeliveryOffsetDays(draw) * DayMs
    ensures now + 3 * DayMs <= o.estimatedDelivery <= now + 5 * DayMs
    ensures o.createdAt == createdAt
  {
    OrderRow(id, user, addressId, TotalPrice(lines), paymentMethod, PaymentStatus(paymentMethod),
             "Processing", now + DeliveryOffsetDays(draw) * DayMs, createdAt)
  }

  /** `value || null` on an optional string: absent and empty both become `null`. */
  function NullIfEmpty(o: Option<string>): (r: Option<string>)
    ensures r.None? <==> o.None? || o.value == ""
    ensures r.Some? ==> r == o
  {
    if o.Some? && o.value != "" then o else None
  }

  /** The item row of one cart line. */
  function ItemRow(orderId: string, item: CartItem): (r: OrderItemRow)
    ensures r.orderId == orderId && r.productId == item.product.id
    ensures r.quantity == item.quantity && r.price == item.product.price
    ensures r.color == NullIfEmpty(item.selectedColor) && r.size == NullIfEmpty(item.selectedSize)
  {
    OrderItemRow(orderId, item.product.id, item.quantity, item.product.price,
                 NullIfEmpty(item.selectedColor), NullIfEmpty(item.selectedSize))
  }

  /** `cartItems.map(...)`: one item row per cart line, in cart order. */
  function ItemRows(orderId: string, lines: seq<CartItem>): (r: seq<OrderItemRow>)
    ensures |r| == |lines|
    ensures forall i :: 0 <= i < |lines| ==> r[i] == ItemRow(orderId, lines[i])
  {
    seq(|lines|, i requires 0 <= i < |lines| => ItemRow(orderId, lines[i]))
  }

  /**
   * Sum of unit price times quantity over stored item rows: the counterpart of
   * `TotalPrice` on cart lines, related to it by `ItemsTotalIsCartTotal`.
   */
  function ItemsTotal(rows: seq<OrderItemRow>): int
    decreases |rows|
  {
    if rows == [] then 0 else ItemsTotal(rows[..|rows| - 1]) + rows[|rows| - 1].price * rows[|rows| - 1].quantity
  }

  /** The order's stored total equals what its item rows add up to. */
  lemma {:induction false} ItemsTotalIsCartTotal(orderId: string, lines: seq<CartItem>)
    ensures ItemsTotal(ItemRows(orderId, lines)) == TotalPrice(lines)
    decreases |lines|
  {
    if lines != [] {
      var init := lines[..|lines| - 1];
      ItemsTotalIsCartTotal(orderId, init);
      assert ItemRows(orderId, lines)[..|lines| - 1] == ItemRows(orderId, init);
    }
  }

  /** `addresses.find(addr => addr.is_default)`. */
  function FirstDefault(addresses: seq<Address>): (r: Option<Address>)
    ensures r.None? <==> forall i :: 0 <= i < |addresses| ==> !addresses[i].isDefault
    ensures r.Some? ==> exists i :: && 0 <= i < |addresses| && addresses[i] == r.value && r.value.isDefault
                                    && forall j :: 0 <= j < i ==> !addresses[j].isDefault
    decreases |addresses|
  {
    if addresses == [] then None
    else if addresses[0].isDefault then Some(addresses[0])
    else
      var r := FirstDefault(addresses[1..]);
      if r.Some? then
        assert exists i :: && 0 <= i < |addresses| && addresses[i] == r.value && r.value.isDefault
                           && forall j :: 0 <= j < i ==> !addresses[j].isDefault by {
          var k :| && 0 <= k < |addresses[1..]| && addresses[1..][k] == r.value
                   && forall j :: 0 <= j < k ==> !addresses[1..][j].isDefault;
          assert addresses[k + 1] == r.value;
          assert forall j :: 1 <= j < k + 1 ==> addresses[j] == addresses[1..][j - 1];
        }
        r
      else r
  }

  /** The address the preselection effect picks: the first default row, else the first row. */
  function PreselectedId(addresses: seq<Address>): (id: AddressId)
    requires |addresses| > 0
    ensures exists i :: && 0 <= i < |addresses| && addresses[i].id == id
                        && (forall j :: 0 <= j < i ==> !addresses[j].isDefault)
                        && (addresses[i].isDefault || (i == 0 && forall j :: 0 <= j < |addresses| ==> !addresses[j].isDefault))
  {
    var d := FirstDefault(addresses);
    if d.Some? then d.value.id else addresses[0].id
  }

  /** On a listing read from the table (defaults first), the preselection is its first row. */
  lemma PreselectsFirstOfListing(t: seq<Address>, u: UserId)
    requires |Listing(t, u)| > 0
    ensures PreselectedId(Listing(t, u)) == Listing(t, u)[0].id
  {
    var l := Listing(t, u);
    if !l[0].isDefault {
      assert forall j :: 0 <= j < |l| ==> !l[j].isDefault;
    }
  }

  /** "-" on line `i`: `item.quantity > 1 && updateQuantity(item.id, item.quantity - 1)`. */
  function MinusClick(lines: seq<CartItem>, i: int): (r: seq<CartItem>)
    requires 0 <= i < |lines|
    ensures |r| == |lines|
    ensures lines[i].quantity > 1 ==> r[i] == lines[i].(quantity := lines[i].quantity - 1)
    ensures lines[i].quantity > 1 ==>
      forall j :: 0 <= j < |lines| && lines[j].product.id == lines[i].product.id ==>
        r[j] == lines[j].(quantity := lines[i].quantity - 1)
    ensures lines[i].quantity <= 1 ==> r == lines
    ensures forall j :: 0 <= j < |lines| && lines[j].product.id != lines[i].product.id ==> r[j] == lines[j]
  {
    if lines[i].quantity > 1 then SetQuantity(lines, lines[i].product.id, lines[i].quantity - 1) else lines
  }

  /** "+" on line `i`: `updateQuantity(item.id, item.quantity + 1)`. */
  function PlusClick(lines: seq<CartItem>, i: int): (r: seq<CartItem>)
    requires 0 <= i < |lines|
    ensures |r| == |lines|
    ensures r[i] == lines[i].(quantity := lines[i].quantity + 1)
    ensures forall j :: 0 <= j < |lines| && lines[j].product.id == lines[i].product.id ==>
      r[j] == lines[j].(quantity := lines[i].quantity + 1)
    ensures forall j :: 0 <= j < |lines| && lines[j].product.id != lines[i].product.id ==> r[j] == lines[j]
  {
    SetQuantity(lines, lines[i].product.id, lines[i].quantity + 1)
  }

  /** The buttons never take a quantity below one. */
  lemma ClicksKeepQuantitiesPositive(lines: seq<CartItem>, i: int)
    requires 0 <= i < |lines| && AllPositive(lines)
    ensures AllPositive(MinusClick(lines, i)) && AllPositive(PlusClick(lines, i))
    ensures MinusClick(lines, i) == lines <==> lines[i].quantity == 1 || lines[i].quantity <= 0
  {
    if lines[i].quantity > 1 {
      var r := MinusClick(lines, i);
      assert r[i].quantity == lines[i].quantity - 1;
    }
  }

  /**
   * The buttons act on the product id, so a click on one variant also sets the
   * quantity of the other variants of that product.
   */
  lemma PlusOverwritesSiblingVariant(p: Product)
    ensures var lines := [CartItem(p, 3, Some("Black"), Some("M")), CartItem(p, 1, Some("Red"), Some("S"))];
      PlusClick(lines, 1) == [CartItem(p, 2, Some("Black"), Some("M")), CartItem(p, 2, Some("Red"), Some("S"))]
  {
    var lines := [CartItem(p, 3, Some("Black"), Some("M")), CartItem(p, 1, Some("Red"), Some("S"))];
    var r := PlusClick(lines, 1);
    assert r[0] == lines[0].(quantity := 2) && r[1] == lines[1].(quantity := 2);
  }

  /** What the service answers to the order insert: the new row's id, an error, or no row. */
  datatype OrderReply = Created(id: string) | Rejected | NoRow

  /** How `handlePlaceOrder` ends. */
  datatype PlaceOutcome = SignInRequired | AddressRequired | OrderFailed | ItemsFailed | Placed

  /** The `orders` and `order_items` tables. */
  class OrderTables {
    var orders: seq<OrderRow>
    var orderItems: seq<OrderItemRow>

    constructor (o: seq<OrderRow>, items: seq<OrderItemRow>)
      ensures orders == o && orderItems == items
    {
      orders := o;
      orderItems := items;
    }
  }

  /** The cart page's own state and the route it navigates to. */
  class CartPage {
    var isProcessing: bool
    var showConfirmation: bool
    var selectedAddressId: Option<AddressId>
    var route: Option<string>

    constructor ()
      ensures !isProcessing && !showConfirmation && selectedAddressId.None? && route.None?
    {
      isProcessing := false;
      showConfirmation := false;
      selectedAddressId := None;
      route := None;
    }

    /** The effect on `[addresses, addressesLoading]`. */
    method PreselectAddress(addresses: seq<Address>, loading: bool)
      modifies this`selectedAddressId
      ensures !loading && |addresses| > 0 ==> selectedAddressId == Some(PreselectedId(addresses))
      ensures loading || |addresses| == 0 ==> selectedAddressId == old(selectedAddressId)
    {
      if !loading && |addresses| > 0 {
        var d := FirstDefault(addresses);
        if d.Some? {
          selectedAddressId := Some(d.value.id);
        } else {
          selectedAddressId := Some(addresses[0].id);
        }
      }
    }

    /**
     * `handlePlaceOrder`. The cart is only read: it is not in the frame, so the
     * cart is never cleared here.
     */
    method PlaceOrder(user: Option<UserId>, cart: CartStore, db: OrderTables,
                      now: int, createdAt: int, draw: real, reply: OrderReply, itemsOk: bool)
      returns (outcome: PlaceOutcome)
      requires 0.0 <= draw < 1.0
      modifies this`isProcessing, this`showConfirmation, this`route, db
      ensures user.None? ==> outcome == SignInRequired && route == Some("/auth")
      ensures outcome != SignInRequired ==> route == old(route)
      ensures user.Some? && (selectedAddressId.None? || selectedAddressId.value == "") ==> outcome == AddressRequired
      ensures outcome in {SignInRequired, AddressRequired} ==>
        && db.orders == old(db.orders) && db.orderItems == old(db.orderItems)
        && isProcessing == old(isProcessing) && showConfirmation == old(showConfirmation)
      ensures outcome in {OrderFailed, ItemsFailed, Placed} ==> !isProcessing
      ensures outcome == OrderFailed <==> user.Some? && selectedAddressId.Some? && selectedAddressId.value != ""
                                          && !reply.Created?
      ensures outcome == OrderFailed ==> db.orders == old(db.orders) && db.orderItems == old(db.orderItems)
      ensures outcome in {ItemsFailed, Placed} ==>
        && user.Some? && selectedAddressId.Some? && reply.Created?
        && db.orders == old(db.orders) + [NewOrder(reply.id, user.value, selectedAddressId.value,
                                                   cart.cartItems, cart.paymentMethod, now, createdAt, draw)]
      ensures outcome == Placed <==> user.Some? && selectedAddressId.Some? && selectedAddressId.value != ""
                                     && reply.Created? && itemsOk
      ensures outcome == Placed ==> db.orderItems == old(db.orderItems) + ItemRows(reply.id, cart.cartItems)
      ensures outcome == ItemsFailed ==> db.orderItems == old(db.orderItems)
      ensures showConfirmation == (outcome == Placed || old(showConfirmation))
    {
      if user.None? {
        route := Some("/auth");
        return SignInRequired;
      }
      if selectedAddressId.None? || selectedAddressId.value == "" {
        return AddressRequired;
      }
      isProcessing := true;
      var days := DeliveryOffsetDays(draw);
      if !reply.Created? {
        isProcessing := false;
        return OrderFailed;
      }
      var order := NewOrder(reply.id, user.value, selectedAddressId.value,
                            cart.cartItems, cart.paymentMethod, now, createdAt, draw);
      db.orders := db.orders + [order];
      if !itemsOk {
        isProcessing := false;
        return ItemsFailed;
      }
      db.orderItems := db.orderItems + ItemRows(reply.id, cart.cartItems);
      showConfirmation := true;
      isProcessing := false;
      return Placed;
    }

    /** `handleFinishOrder`: the only place the cart is cleared, then the orders page. */
    method FinishOrder(cart: CartStore)
      modifies cart, this`route
      ensures cart.cartItems == [] && cart.Persisted() && cart.paymentMethod == old(cart.paymentMethod)
      ensures route == Some("/orders")
    {
      cart.ClearCart();
      route := Some("/orders");
    }

    method MinusClicked(cart: CartStore, i: int)
      requires 0 <= i < |cart.cartItems|
      modifies cart
      ensures cart.cartItems == MinusClick(old(cart.cartItems), i)
      ensures cart.paymentMethod == old(cart.paymentMethod)
      ensures old(cart.cartItems[i].quantity) > 1 ==> cart.Persisted()
      ensures old(cart.cartItems[i].quantity) <= 1 ==> cart.slot == old(cart.slot)
    {
      var item := cart.cartItems[i];
      if item.quantity > 1 {
        cart.UpdateQuantity(item.product.id, item.quantity - 1);
      }
    }

    method PlusClicked(cart: CartStore, i: int)
      requires 0 <= i < |cart.cartItems|
      modifies cart
      ensures cart.cartItems == PlusClick(old(cart.cartItems), i)
      ensures cart.paymentMethod == old(cart.paymentMethod) && cart.Persisted()
    {
      var item := cart.cartItems[i];
      cart.UpdateQuantity(item.product.id, item.quantity + 1);
    }
  }
}
