/**
 * The product detail page: the lookup by route id, the related products, the
 * initial colour, size and quantity, the quantity buttons and "Add to Cart".
 */
module ProductDetail {
  import opened Wrappers
  import opened Seqs
  import opened Catalog
  import opened CartEngine
  import opened Checkout

  /** The position of the first product with id `id`, or `|catalog|` when there is none. */
  function FirstWithId(catalog: seq<Product>, id: int): (i: nat)
    ensures i <= |catalog|
    ensures i < |catalog| ==> catalog[i].id == id
    ensures forall j :: 0 <= j < i ==> catalog[j].id != id
    decreases |catalog|
  {
    if catalog == [] || catalog[0].id == id then 0 else 1 + FirstWithId(catalog[1..], id)
  }

  /**
   * `productsData.find(p => p.id === Number(id))`. The route parameter as a number
   * is `routeId`; `None` stands for a parameter that is not a whole number, which
   * no id equals.
   */
  function FindById(catalog: seq<Product>, routeId: Option<int>): (r: Option<Product>)
    ensures r.Some? <==> routeId.Some? && exists i :: 0 <= i < |catalog| && catalog[i].id == routeId.value
    ensures r.Some? ==> r.value in catalog && r.value.id == routeId.value
  {
    if routeId.None? then None
    else
      var i := FirstWithId(catalog, routeId.value);
      if i < |catalog| then Some(catalog[i]) else None
  }

  /** With distinct ids the lookup returns the one product carrying the id. */
  lemma FindByIdIsUnique(catalog: seq<Product>, p: Product)
    requires DistinctIds(catalog)
    requires p in catalog
    ensures FindById(catalog, Some(p.id)) == Some(p)
  {
    var k :| 0 <= k < |catalog| && catalog[k] == p;
    var i := FirstWithId(catalog, p.id);
    assert i <= k;
  }

  /** In the shipped catalog exactly the ids 1 to 12 lead to a product, and to the one with that id. */
  lemma ShippedLookup(n: int)
    ensures FindById(ProductsData, Some(n)).Some? <==> 1 <= n <= 12
    ensures FindById(ProductsData, Some(n)).Some? ==> FindById(ProductsData, Some(n)).value == ProductsData[n - 1]
  {
    CatalogIds();
    LookupByPosition(ProductsData, n);
  }

  lemma LookupByPosition(catalog: seq<Product>, n: int)
    requires forall i :: 0 <= i < |catalog| ==> catalog[i].id == i + 1
    ensures FindById(catalog, Some(n)).Some? <==> 1 <= n <= |catalog|
    ensures FindById(catalog, Some(n)).Some? ==> FindById(catalog, Some(n)).value == catalog[n - 1]
  {
    if 1 <= n <= |catalog| {
      assert catalog[n - 1].id == n;
      assert FirstWithId(catalog, n) == n - 1;
    }
  }

  /** The related-products test: same category, another id. */
  function SameCategoryOther(p: Product): Product -> bool
  {
    (q: Product) => q.category == p.category && q.id != p.id
  }

  /** `relatedProducts`: up to four other products of the same category, or none without a product. */
  function RelatedProducts(catalog: seq<Product>, product: Option<Product>): (r: seq<Product>)
    ensures |r| <= 4
    ensures product.None? ==> r == []
    ensures product.Some? ==>
      forall q :: q in r ==> q in catalog && q.category == product.value.category && q.id != product.value.id
  {
    if product.None? then [] else Take(Filter(catalog, SameCategoryOther(product.value)), 4)
  }

  /**
   * The related products are the first min(4, n) of the n qualifying products,
   * in catalog order; the product itself is never among them.
   */
  lemma RelatedProductsInCatalogOrder(catalog: seq<Product>, p: Product)
    ensures var all := Filter(catalog, SameCategoryOther(p));
      var r := RelatedProducts(catalog, Some(p));
      && |r| == (if |all| < 4 then |all| else 4)
      && r == all[..|r|]
      && IsSubsequence(r, catalog)
      && p !in r
  {
    var all := Filter(catalog, SameCategoryOther(p));
    FilterIsSubsequence(catalog, SameCategoryOther(p));
    TakeOfSubsequence(all, catalog, 4);
  }

  /** `list?.[0] || ""`: the first entry, or "" when the list is absent or empty. */
  function FirstOrEmpty(list: Option<seq<string>>): (r: string)
    ensures list.Some? && |list.value| > 0 ==> r == list.value[0]
    ensures r != "" ==> list.Some? && r in list.value
  {
    if list.Some? && |list.value| > 0 then list.value[0] else ""
  }

  /** `useState(product?.colors?.[0] || "")`. */
  function InitialColor(product: Option<Product>): string
  {
    if product.Some? then FirstOrEmpty(product.value.colors) else ""
  }

  /** `useState(product?.sizes?.[0] || "")`. */
  function InitialSize(product: Option<Product>): string
  {
    if product.Some? then FirstOrEmpty(product.value.sizes) else ""
  }

  /** A choice is "" or one of the product's listed values. */
  predicate ListedOrEmpty(choice: string, list: Option<seq<string>>)
  {
    choice == "" || (list.Some? && choice in list.value)
  }

  /**
   * A product without sizes enters the cart with size "" and its item row stores
   * no size; one with sizes enters with its first size, which the row keeps.
   */
  lemma InitialSizeReachesOrder(p: Product, quantity: int, color: string, orderId: string)
    ensures var line := CartItem(p, quantity, Some(color), Some(InitialSize(Some(p))));
      var row := ItemRow(orderId, line);
      && (p.sizes.None? ==> line.selectedSize == Some("") && row.size.None?)
      && (p.sizes.Some? && |p.sizes.value| > 0 && p.sizes.value[0] != "" ==> row.size == Some(p.sizes.value[0]))
  {
  }

  /** The page's state: the product found, the related products, and the three choices. */
  class ProductDetailPage {
    var product: Option<Product>
    var related: seq<Product>
    var selectedColor: string
    var selectedSize: string
    var quantity: int

    /**
     * The quantity is at least 1. The choices are not guarded: after a route
     * change they may still hold the previous product's values.
     */
    predicate Valid()
      reads this
    {
      quantity >= 1
    }

    /** The colour and size choices are "" or values the shown product lists. */
    predicate ChoicesListed()
      reads this
    {
      product.Some? ==> ListedOrEmpty(selectedColor, product.value.colors)
                        && ListedOrEmpty(selectedSize, product.value.sizes)
    }

    /** The first render for route id `routeId`. */
    constructor (catalog: seq<Product>, routeId: Option<int>)
      ensures product == FindById(catalog, routeId)
      ensures related == RelatedProducts(catalog, product)
      ensures selectedColor == InitialColor(product) && selectedSize == InitialSize(product)
      ensures quantity == 1
      ensures Valid() && ChoicesListed()
    {
      product := FindById(catalog, routeId);
      related := RelatedProducts(catalog, FindById(catalog, routeId));
      selectedColor := InitialColor(FindById(catalog, routeId));
      selectedSize := InitialSize(FindById(catalog, routeId));
      quantity := 1;
    }

    /** "-": decrements only a quantity above 1. */
    method Decrement()
      requires Valid()
      modifies this`quantity
      ensures quantity == if old(quantity) > 1 then old(quantity) - 1 else old(quantity)
      ensures Valid()
    {
      if quantity > 1 {
        quantity := quantity - 1;
      }
    }

    /** "+": increments. */
    method Increment()
      requires Valid()
      modifies this`quantity
      ensures quantity == old(quantity) + 1
      ensures Valid()
    {
      quantity := quantity + 1;
    }

    /** A colour button; the buttons show exactly the product's colours. */
    method SelectColor(color: string)
      requires Valid()
      requires product.Some? && product.value.colors.Some? && color in product.value.colors.value
      modifies this`selectedColor
      ensures selectedColor == color
      ensures Valid() && ListedOrEmpty(selectedColor, product.value.colors)
    {
      selectedColor := color;
    }

    /** A size button; the buttons show exactly the product's sizes. */
    method SelectSize(size: string)
      requires Valid()
      requires product.Some? && product.value.sizes.Some? && size in product.value.sizes.value
      modifies this`selectedSize
      ensures selectedSize == size
      ensures Valid() && ListedOrEmpty(selectedSize, product.value.sizes)
    {
      selectedSize := size;
    }

    /**
     * A link to another `/products/:id` (a related product's card) while the
     * page is mounted: the lookups are recomputed from the new id, but the
     * `useState` choices and the quantity keep their values.
     */
    method RouteChanged(catalog: seq<Product>, routeId: Option<int>)
      requires Valid()
      modifies this`product, this`related
      ensures product == FindById(catalog, routeId)
      ensures related == RelatedProducts(catalog, product)
      ensures selectedColor == old(selectedColor) && selectedSize == old(selectedSize)
      ensures quantity == old(quantity)
      ensures Valid()
    {
      product := FindById(catalog, routeId);
      related := RelatedProducts(catalog, product);
    }

    /**
     * `handleAddToCart`: the product, quantity, colour and size, exactly as
     * chosen, go to `addToCart`. Without a product the page shows "Product Not
     * Found" and offers no button, so nothing reaches the cart.
     */
    method HandleAddToCart(cart: CartStore) returns (outcome: Option<AddOutcome>)
      requires Valid()
      modifies cart
      ensures product.None? ==> outcome.None? && cart.cartItems == old(cart.cartItems) && cart.slot == old(cart.slot)
      ensures product.Some? ==> outcome.Some?
      ensures product.Some? && outcome.Some? ==>
        (cart.cartItems, outcome.value)
          == AddLine(old(cart.cartItems), product.value, quantity, Some(selectedColor), Some(selectedSize))
      ensures product.Some? ==> quantity >= 1 && cart.Persisted()
      ensures cart.paymentMethod == old(cart.paymentMethod)
    {
      if product.None? {
        outcome := None;
      } else {
        var r := cart.AddToCart(product.value, quantity, Some(selectedColor), Some(selectedSize));
        outcome := Some(r);
      }
    }
  }

  /**
   * Following a link from a product listing `color` to one that does not list
   * it sends the stale colour to `addToCart`.
   */
  method StaleColorReachesCart(catalog: seq<Product>, fromId: int, toId: int, color: string, cart: CartStore)
      returns (page: ProductDetailPage)
    requires FindById(catalog, Some(fromId)).Some? && FindById(catalog, Some(toId)).Some?
    requires FindById(catalog, Some(fromId)).value.colors.Some?
    requires color in FindById(catalog, Some(fromId)).value.colors.value
    modifies cart
    ensures page.product == FindById(catalog, Some(toId))
    ensures page.selectedColor == color
    ensures exists k :: 0 <= k < |cart.cartItems| && cart.cartItems[k].product.id == toId
                        && cart.cartItems[k].selectedColor == Some(color)
  {
    page := new ProductDetailPage(catalog, Some(fromId));
    page.SelectColor(color);
    page.RouteChanged(catalog, Some(toId));
    var lines := cart.cartItems;
    var outcome := page.HandleAddToCart(cart);
    var p := page.product.value;
    assert p.id == toId;
    if outcome.value == Updated {
      var i :| 0 <= i < |lines| && HasKey(lines[i], p.id, Some(color), Some(page.selectedSize))
               && cart.cartItems[i] == lines[i].(quantity := lines[i].quantity + page.quantity);
      assert cart.cartItems[i].product.id == toId;
    } else {
      assert cart.cartItems[|lines|] == CartItem(p, page.quantity, Some(color), Some(page.selectedSize));
    }
  }

  /** In the shipped catalog, product 3 lists "Natural" and product 4 does not. */
  lemma NaturalIsStaleOnFour()
    ensures var from := FindById(ProductsData, Some(3));
      var to := FindById(ProductsData, Some(4));
      && from.Some? && to.Some? && from.value.colors.Some? && "Natural" in from.value.colors.value
      && !ListedOrEmpty("Natural", to.value.colors)
  {
    CatalogIds();
    CatalogColorsOfThreeAndFour();
    NaturalIsStaleAt(ProductsData);
  }

  lemma NaturalIsStaleAt(catalog: seq<Product>)
    requires |catalog| >= 4 && forall i :: 0 <= i < |catalog| ==> catalog[i].id == i + 1
    requires catalog[2].colors == Some(["Natural", "Terracotta", "Indigo"])
    requires catalog[3].colors == Some(["Blue", "Earth", "Mixed"])
    ensures var from := FindById(catalog, Some(3));
      var to := FindById(catalog, Some(4));
      && from.Some? && to.Some? && from.value.colors.Some? && "Natural" in from.value.colors.value
      && !ListedOrEmpty("Natural", to.value.colors)
  {
    LookupByPosition(catalog, 3);
    LookupByPosition(catalog, 4);
  }
}
