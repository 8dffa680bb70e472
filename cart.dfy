/**
 * The cart engine (`CartProvider`): a sequence of cart lines kept in component
 * state and mirrored into the `cart` slot of local storage after every change.
 * The pure functions below are the state updaters the provider hands to
 * `setCartItems`; `CartStore` holds the state and the storage slot.
 */
module CartEngine {
  import opened Wrappers
  import opened Catalog
  import Seqs

  /**
   * A cart line: the product fields spread into the line, the quantity and the
   * chosen variant. An omitted colour or size (`undefined`) is `None`.
   */
  datatype CartItem = CartItem(
    product: Product,
    quantity: int,
    selectedColor: Option<string>,
    selectedSize: Option<string>)

  /** The merge key of `addToCart`: product id, colour and size all equal. */
  predicate HasKey(item: CartItem, id: int, color: Option<string>, size: Option<string>)
  {
    item.product.id == id && item.selectedColor == color && item.selectedSize == size
  }

  /** No two lines share (id, colour, size). */
  predicate DistinctKeys(lines: seq<CartItem>)
  {
    forall i, j :: 0 <= i < j < |lines| ==>
      !HasKey(lines[j], lines[i].product.id, lines[i].selectedColor, lines[i].selectedSize)
  }

  /** `findIndex` on the merge key: the first matching index, or -1 when there is none. */
  function FindKey(lines: seq<CartItem>, id: int, color: Option<string>, size: Option<string>): (r: int)
    ensures -1 <= r < |lines|
    ensures r == -1 <==> forall i :: 0 <= i < |lines| ==> !HasKey(lines[i], id, color, size)
    ensures 0 <= r ==> HasKey(lines[r], id, color, size)
    ensures forall i :: 0 <= i < r ==> !HasKey(lines[i], id, color, size)
    decreases |lines|
  {
    if lines == [] then -1
    else if HasKey(lines[0], id, color, size) then 0
    else
      var k := FindKey(lines[1..], id, color, size);
      if k == -1 then -1 else k + 1
  }

  /** Which toast `addToCart` shows: "Cart updated!" or "Added to cart!". */
  datatype AddOutcome = Updated | Added

  /**
   * The updater of `addToCart`: merge `quantity` into the first line with the same
   * (id, colour, size), or append a new line.
   */
  function AddLine(lines: seq<CartItem>, product: Product, quantity: int,
                   color: Option<string>, size: Option<string>): (r: (seq<CartItem>, AddOutcome))
    ensures r.1 == Updated <==> exists i :: 0 <= i < |lines| && HasKey(lines[i], product.id, color, size)
    ensures |r.0| == if r.1 == Updated then |lines| else |lines| + 1
    ensures forall j :: 0 <= j < |lines| && !HasKey(lines[j], product.id, color, size) ==> r.0[j] == lines[j]
    ensures r.1 == Added ==> r.0[|lines|] == CartItem(product, quantity, color, size)
    ensures r.1 == Updated ==>
      exists i :: && 0 <= i < |lines| && HasKey(lines[i], product.id, color, size)
                  && r.0[i] == lines[i].(quantity := lines[i].quantity + quantity)
                  && forall j :: 0 <= j < |lines| && j != i ==> r.0[j] == lines[j]
  {
    var i := FindKey(lines, product.id, color, size);
    if i != -1 then
      (lines[i := lines[i].(quantity := lines[i].quantity + quantity)], Updated)
    else
      (lines + [CartItem(product, quantity, color, size)], Added)
  }

  /** With a matching line, the quantity goes to the FIRST match and nothing else changes. */
  lemma AddMergesIntoFirstMatch(lines: seq<CartItem>, product: Product, quantity: int,
                                color: Option<string>, size: Option<string>, i: int)
    requires 0 <= i < |lines| && HasKey(lines[i], product.id, color, size)
    requires forall j :: 0 <= j < i ==> !HasKey(lines[j], product.id, color, size)
    ensures AddLine(lines, product, quantity, color, size)
         == (lines[i := lines[i].(quantity := lines[i].quantity + quantity)], Updated)
  {
  }

  /** Without a matching line, exactly one line is appended and the earlier lines are kept. */
  lemma AddAppendsNewLine(lines: seq<CartItem>, product: Product, quantity: int,
                          color: Option<string>, size: Option<string>)
    requires forall j :: 0 <= j < |lines| ==> !HasKey(lines[j], product.id, color, size)
    ensures AddLine(lines, product, quantity, color, size)
         == (lines + [CartItem(product, quantity, color, size)], Added)
  {
  }

  /** `addToCart` keeps the merge keys of the lines distinct. */
  lemma AddKeepsKeysDistinct(lines: seq<CartItem>, product: Product, quantity: int,
                             color: Option<string>, size: Option<string>)
    requires DistinctKeys(lines)
    ensures DistinctKeys(AddLine(lines, product, quantity, color, size).0)
  {
    var r := AddLine(lines, product, quantity, color, size);
    var n := |lines|;
    forall i, j | 0 <= i < j < |r.0|
      ensures !HasKey(r.0[j], r.0[i].product.id, r.0[i].selectedColor, r.0[i].selectedSize)
    {
      assert forall k :: 0 <= k < n ==>
        && r.0[k].product.id == lines[k].product.id
        && r.0[k].selectedColor == lines[k].selectedColor
        && r.0[k].selectedSize == lines[k].selectedSize;
    }
  }

  /** `removeFromCart`'s filter: drop every line of the product, whatever its colour or size. */
  function OtherProduct(id: int): CartItem -> bool
  {
    (item: CartItem) => item.product.id != id
  }

  function RemoveProduct(lines: seq<CartItem>, id: int): (r: seq<CartItem>)
    ensures forall x :: x in r <==> x in lines && x.product.id != id
    ensures forall x :: multiset(r)[x] == if x.product.id != id then multiset(lines)[x] else 0
    ensures Seqs.IsSubsequence(r, lines)
  {
    Seqs.FilterIsSubsequence(lines, OtherProduct(id));
    forall x
      ensures multiset(Seqs.Filter(lines, OtherProduct(id)))[x] == if x.product.id != id then multiset(lines)[x] else 0
    {
      Seqs.FilterCount(lines, OtherProduct(id), x);
    }
    Seqs.Filter(lines, OtherProduct(id))
  }

  /** The "Item removed from cart" toast appears exactly when some line of the product existed. */
  lemma RemoveSignalsIffPresent(lines: seq<CartItem>, id: int)
    ensures |RemoveProduct(lines, id)| < |lines| <==> exists x :: x in lines && x.product.id == id
  {
    Seqs.FilterShrinks(lines, OtherProduct(id));
  }

  /** A second `removeFromCart` of the same id changes nothing. */
  lemma RemoveIsIdempotent(lines: seq<CartItem>, id: int)
    ensures RemoveProduct(RemoveProduct(lines, id), id) == RemoveProduct(lines, id)
  {
    Seqs.FilterIdempotent(lines, OtherProduct(id));
  }

  /** The updater of `updateQuantity`: every line with that id, in any variant, gets the quantity. */
  function SetQuantity(lines: seq<CartItem>, id: int, quantity: int): (r: seq<CartItem>)
    ensures |r| == |lines|
    ensures forall i :: 0 <= i < |lines| && lines[i].product.id == id ==> r[i] == lines[i].(quantity := quantity)
    ensures forall i :: 0 <= i < |lines| && lines[i].product.id != id ==> r[i] == lines[i]
    decreases |lines|
  {
    if lines == [] then []
    else
      [if lines[0].product.id == id then lines[0].(quantity := quantity) else lines[0]]
        + SetQuantity(lines[1..], id, quantity)
  }

  /** `getTotalItems`: the reduce that adds up the quantities; with positive quantities it is at least the number of lines. */
  function TotalItems(lines: seq<CartItem>): (n: int)
    ensures AllPositive(lines) ==> n >= |lines|
    decreases |lines|
  {
    if lines == [] then 0 else TotalItems(lines[..|lines| - 1]) + lines[|lines| - 1].quantity
  }

  /** `getTotalPrice`: the reduce that adds up price times quantity, in cents; never negative for non-negative prices and quantities. */
  function TotalPrice(lines: seq<CartItem>): (total: int)
    ensures (forall i :: 0 <= i < |lines| ==> lines[i].quantity >= 0 && lines[i].product.price >= 0) ==> total >= 0
    decreases |lines|
  {
    if lines == [] then 0
    else TotalPrice(lines[..|lines| - 1]) + lines[|lines| - 1].product.price * lines[|lines| - 1].quantity
  }

  lemma {:induction false} TotalsOfAppend(a: seq<CartItem>, b: seq<CartItem>)
    ensures TotalItems(a + b) == TotalItems(a) + TotalItems(b)
    ensures TotalPrice(a + b) == TotalPrice(a) + TotalPrice(b)
    decreases |b|
  {
    if b == [] {
      assert a + b == a;
    } else {
      var b' := b[..|b| - 1];
      assert (a + b)[..|a + b| - 1] == a + b';
      assert (a + b)[|a + b| - 1] == b[|b| - 1];
      TotalsOfAppend(a, b');
    }
  }

  /** The totals of a cart cut around one line. */
  lemma TotalsAround(pre: seq<CartItem>, x: CartItem, post: seq<CartItem>)
    ensures TotalItems(pre + [x] + post) == TotalItems(pre) + x.quantity + TotalItems(post)
    ensures TotalPrice(pre + [x] + post) == TotalPrice(pre) + x.product.price * x.quantity + TotalPrice(post)
  {
    TotalsOfAppend(pre + [x], post);
    TotalsOfAppend(pre, [x]);
    assert [x][..0] == [];
  }

  lemma Distribute(a: int, b: int, c: int)
    ensures a * (b - c) == a * b - a * c
  {
  }

  /** Changing one line's quantity moves the totals by the difference. */
  lemma TotalsOfUpdate(lines: seq<CartItem>, i: int, quantity: int)
    requires 0 <= i < |lines|
    ensures TotalItems(lines[i := lines[i].(quantity := quantity)])
         == TotalItems(lines) - lines[i].quantity + quantity
    ensures TotalPrice(lines[i := lines[i].(quantity := quantity)])
         == TotalPrice(lines) + lines[i].product.price * (quantity - lines[i].quantity)
  {
    var x := lines[i];
    var y := x.(quantity := quantity);
    var pre, post := lines[..i], lines[i + 1..];
    assert lines == pre + [x] + post;
    assert lines[i := y] == pre + [y] + post;
    TotalsAround(pre, x, post);
    TotalsAround(pre, y, post);
    Distribute(x.product.price, quantity, x.quantity);
  }

  /**
   * Every `addToCart` raises the item count by `quantity` and the price by
   * `quantity` units of the price of the line it lands in (a merged line keeps
   * its own price snapshot).
   */
  lemma AddLineTotals(lines: seq<CartItem>, product: Product, quantity: int,
                      color: Option<string>, size: Option<string>)
    ensures var r := AddLine(lines, product, quantity, color, size);
      && TotalItems(r.0) == TotalItems(lines) + quantity
      && (r.1 == Added ==> TotalPrice(r.0) == TotalPrice(lines) + product.price * quantity)
      && (r.1 == Updated ==> var i := FindKey(lines, product.id, color, size);
            TotalPrice(r.0) == TotalPrice(lines) + lines[i].product.price * quantity)
  {
    var i := FindKey(lines, product.id, color, size);
    if i != -1 {
      var merged := lines[i := lines[i].(quantity := lines[i].quantity + quantity)];
      assert AddLine(lines, product, quantity, color, size) == (merged, Updated);
      MergedTotals(lines, i, quantity);
    } else {
      var x := CartItem(product, quantity, color, size);
      assert AddLine(lines, product, quantity, color, size) == (lines + [x], Added);
      AppendedTotals(lines, x);
    }
  }

  lemma MergedTotals(lines: seq<CartItem>, i: int, quantity: int)
    requires 0 <= i < |lines|
    ensures var merged := lines[i := lines[i].(quantity := lines[i].quantity + quantity)];
      && TotalItems(merged) == TotalItems(lines) + quantity
      && TotalPrice(merged) == TotalPrice(lines) + lines[i].product.price * quantity
  {
    var q := lines[i].quantity + quantity;
    TotalsOfUpdate(lines, i, q);
    assert q - lines[i].quantity == quantity;
  }

  lemma AppendedTotals(lines: seq<CartItem>, x: CartItem)
    ensures TotalItems(lines + [x]) == TotalItems(lines) + x.quantity
    ensures TotalPrice(lines + [x]) == TotalPrice(lines) + x.product.price * x.quantity
  {
    TotalsOfAppend(lines, [x]);
    assert [x][..0] == [];
  }

  /** A line of $20.00 twice and a line of $50.00 once: 3 items costing $90.00. */
  lemma TotalsExample(a: Product, b: Product)
    requires a.price == 2000 && b.price == 5000
    ensures var lines := [CartItem(a, 2, None, None), CartItem(b, 1, None, None)];
      TotalItems(lines) == 3 && TotalPrice(lines) == 9000
  {
    var lines := [CartItem(a, 2, None, None), CartItem(b, 1, None, None)];
    assert lines[..1] == [lines[0]];
    assert lines[..1][..0] == [];
    assert TotalItems(lines[..1]) == 2;
    assert TotalPrice(lines[..1]) == 4000;
  }

  /** `addToCart` applied once per quantity in `qs`, in order, with the same product and variant. */
  function AddRepeatedly(lines: seq<CartItem>, product: Product, qs: seq<int>,
                         color: Option<string>, size: Option<string>): seq<CartItem>
    decreases |qs|
  {
    if qs == [] then lines
    else AddLine(AddRepeatedly(lines, product, qs[..|qs| - 1], color, size), product, qs[|qs| - 1], color, size).0
  }

  function Sum(qs: seq<int>): int
    decreases |qs|
  {
    if qs == [] then 0 else Sum(qs[..|qs| - 1]) + qs[|qs| - 1]
  }

  /**
   * Repeated adds of one (id, colour, size) that is not yet in the cart leave
   * exactly one new line for it, at the end, holding the sum of the quantities.
   */
  lemma {:induction false} RepeatedAddsAccumulate(lines: seq<CartItem>, product: Product, qs: seq<int>,
                                                  color: Option<string>, size: Option<string>)
    requires |qs| > 0
    requires forall j :: 0 <= j < |lines| ==> !HasKey(lines[j], product.id, color, size)
    ensures AddRepeatedly(lines, product, qs, color, size) == lines + [CartItem(product, Sum(qs), color, size)]
    decreases |qs|
  {
    var init := qs[..|qs| - 1];
    var q := qs[|qs| - 1];
    assert AddRepeatedly(lines, product, qs, color, size)
        == AddLine(AddRepeatedly(lines, product, init, color, size), product, q, color, size).0;
    assert Sum(qs) == Sum(init) + q;
    if init == [] {
      assert AddRepeatedly(lines, product, init, color, size) == lines;
      AddAppendsNewLine(lines, product, q, color, size);
    } else {
      RepeatedAddsAccumulate(lines, product, init, color, size);
      MergeIntoLast(lines, CartItem(product, Sum(init), color, size), product, q);
    }
  }

  /** Adding to a cart whose only line with the key is the last one merges into that last line. */
  lemma MergeIntoLast(lines: seq<CartItem>, last: CartItem, product: Product, quantity: int)
    requires HasKey(last, product.id, last.selectedColor, last.selectedSize)
    requires forall j :: 0 <= j < |lines| ==> !HasKey(lines[j], product.id, last.selectedColor, last.selectedSize)
    ensures AddLine(lines + [last], product, quantity, last.selectedColor, last.selectedSize).0
         == lines + [last.(quantity := last.quantity + quantity)]
  {
    var prev := lines + [last];
    assert forall j :: 0 <= j < |lines| ==> prev[j] == lines[j];
    AddMergesIntoFirstMatch(prev, product, quantity, last.selectedColor, last.selectedSize, |lines|);
    assert prev[|lines| := last.(quantity := last.quantity + quantity)]
        == lines + [last.(quantity := last.quantity + quantity)];
  }

  /** Page-level invariant: every line has a quantity of at least one. */
  predicate AllPositive(lines: seq<CartItem>)
  {
    forall i :: 0 <= i < |lines| ==> lines[i].quantity >= 1
  }

  /** What the `cart` slot of local storage holds: the JSON text of a cart, or text that does not parse. */
  datatype StoredCart = CartJson(lines: seq<CartItem>) | Unparseable(text: string)

  /** `JSON.stringify(cartItems)`. */
  function Serialize(lines: seq<CartItem>): (s: StoredCart)
    ensures s.CartJson?
  {
    CartJson(lines)
  }

  /** `JSON.parse`, with `None` for the exception it throws on malformed text. */
  function Parse(s: StoredCart): (r: Option<seq<CartItem>>)
    ensures r.None? <==> s.Unparseable?
  {
    match s
    case CartJson(lines) => Some(lines)
    case Unparseable(_) => None
  }

  lemma ParseSerialize(lines: seq<CartItem>)
    ensures Parse(Serialize(lines)) == Some(lines)
  {
  }

  /** `if (storedCart)`: the empty string is falsy and is neither parsed nor removed. */
  predicate Truthy(s: StoredCart)
  {
    !(s.Unparseable? && s.text == "")
  }

  /** The cart the mount effect starts from, given what `localStorage.getItem("cart")` returned. */
  function Rehydrate(slot: Option<StoredCart>): (r: seq<CartItem>)
    ensures slot.Some? && Parse(slot.value).Some? ==> r == Parse(slot.value).value
    ensures slot.None? || Parse(slot.value).None? ==> r == []
  {
    if slot.Some? && Truthy(slot.value) then
      match Parse(slot.value)
      case Some(lines) => lines
      case None => []
    else []
  }

  /** Reloading after a save restores the very same cart. */
  lemma RehydrateAfterSave(lines: seq<CartItem>)
    ensures Rehydrate(Some(Serialize(lines))) == lines
  {
  }

  /** The state held by `CartProvider`: the lines, the payment method and the storage slot. */
  class CartStore {
    var cartItems: seq<CartItem>
    var paymentMethod: string
    /** The `cart` key of local storage; `None` when the key is absent. */
    var slot: Option<StoredCart>

    /** The save effect has caught up: the slot holds the serialisation of the current lines. */
    ghost predicate Persisted()
      reads this
    {
      slot == Some(Serialize(cartItems))
    }

    /** The provider's first render: an empty cart, "cod", and whatever storage already held. */
    constructor (stored: Option<StoredCart>)
      ensures cartItems == [] && paymentMethod == "cod" && slot == stored
    {
      cartItems := [];
      paymentMethod := "cod";
      slot := stored;
    }

    /** The load effect: a parseable value becomes the cart; an unparseable one is removed. */
    method LoadEffect()
      modifies this
      ensures paymentMethod == old(paymentMethod)
      ensures old(slot).Some? && Truthy(old(slot).value) && Parse(old(slot).value).Some? ==>
        cartItems == Parse(old(slot).value).value && slot == old(slot)
      ensures old(slot).Some? && Truthy(old(slot).value) && Parse(old(slot).value).None? ==>
        cartItems == old(cartItems) && slot == None
      ensures old(slot).None? || !Truthy(old(slot).value) ==>
        cartItems == old(cartItems) && slot == old(slot)
    {
      if slot.Some? && Truthy(slot.value) {
        match Parse(slot.value)
        case Some(lines) =>
          cartItems := lines;
        case None =>
          slot := None;
      }
    }

    /** The save effect: `localStorage.setItem("cart", JSON.stringify(cartItems))`. */
    method SaveEffect()
      modifies this`slot
      ensures Persisted()
    {
      slot := Some(Serialize(cartItems));
    }

    /** Mounting runs the load effect and then the save effect. */
    method Mount()
      requires cartItems == []
      modifies this
      ensures cartItems == Rehydrate(old(slot)) && Persisted()
      ensures paymentMethod == old(paymentMethod)
    {
      LoadEffect();
      SaveEffect();
    }

    method AddToCart(product: Product, quantity: int, color: Option<string>, size: Option<string>)
      returns (outcome: AddOutcome)
      modifies this
      ensures (cartItems, outcome) == AddLine(old(cartItems), product, quantity, color, size)
      ensures paymentMethod == old(paymentMethod) && Persisted()
    {
      var r := AddLine(cartItems, product, quantity, color, size);
      cartItems, outcome := r.0, r.1;
      SaveEffect();
    }

    /** Returns whether the "Item removed from cart" toast is shown. */
    method RemoveFromCart(productId: int) returns (removed: bool)
      modifies this
      ensures cartItems == RemoveProduct(old(cartItems), productId)
      ensures removed <==> |cartItems| < |old(cartItems)|
      ensures paymentMethod == old(paymentMethod) && Persisted()
    {
      var updated := RemoveProduct(cartItems, productId);
      removed := |updated| < |cartItems|;
      cartItems := updated;
      SaveEffect();
    }

    method UpdateQuantity(productId: int, quantity: int)
      modifies this
      ensures cartItems == SetQuantity(old(cartItems), productId, quantity)
      ensures paymentMethod == old(paymentMethod) && Persisted()
    {
      cartItems := SetQuantity(cartItems, productId, quantity);
      SaveEffect();
    }

    method ClearCart()
      modifies this
      ensures cartItems == [] && TotalItems(cartItems) == 0 && TotalPrice(cartItems) == 0
      ensures paymentMethod == old(paymentMethod) && Persisted()
    {
      cartItems := [];
      SaveEffect();
    }

    method SetPaymentMethod(m: string)
      modifies this`paymentMethod
      ensures paymentMethod == m
    {
      paymentMethod := m;
    }
  }
}
