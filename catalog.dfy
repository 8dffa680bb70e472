/**
 * The product catalog: the `Product` record and the constant `productsData` list.
 * Prices are integer cents and ratings are tenths of a star (the source uses
 * JavaScript numbers such as 189.99 and 4.8).
 */
module Catalog {
  import opened Wrappers
  import opened Seqs

  datatype Product = Product(
    id: int,
    name: string,
    price: int,
    description: string,
    image: string,
    category: string,
    tags: seq<string>,
    featured: bool,
    inStock: bool,
    colors: Option<seq<string>>,
    sizes: Option<seq<string>>,
    rating: int,
    reviews: int)

  predicate Featured(p: Product)
  {
    p.featured
  }

  predicate NotFeatured(p: Product)
  {
    !p.featured
  }

  /** The ids of a list of products, in list order. */
  function Ids(ps: seq<Product>): (r: seq<int>)
    ensures |r| == |ps|
    ensures forall i :: 0 <= i < |ps| ==> r[i] == ps[i].id
  {
    if ps == [] then [] else [ps[0].id] + Ids(ps[1..])
  }

  /** Lookup by id can find at most one entry. */
  predicate DistinctIds(ps: seq<Product>)
  {
    forall i, j :: 0 <= i < j < |ps| ==> ps[i].id != ps[j].id
  }

  const ProductsData: seq<Product> := [
    Product(
      id := 1,
      name := "Embroidered Maxi Dress",
      price := 18999,
      description := "Hand-embroidered maxi dress with floral details. Made from 100% organic cotton with adjustable waist ties for the perfect fit.",
      image := "https://images.unsplash.com/photo-1618932260643-eee4a2f652a6?q=80&w=3080&auto=format&fit=crop",
      category := "dresses",
      tags := ["maxi", "summer", "embroidered", "floral"],
      featured := true,
      inStock := true,
      colors := Some(["Ivory", "Rose", "Sage"]),
      sizes := Some(["XS", "S", "M", "L", "XL"]),
      rating := 48,
      reviews := 24),
    Product(
      id := 2,
      name := "Vintage-Inspired Cocktail Dress",
      price := 15999,
      description := "A timeless piece with vintage-inspired details and modern silhouette. Perfect for special occasions and evening events.",
      image := "https://images.unsplash.com/photo-1566174053879-31528523f8ae?q=80&w=2051&auto=format&fit=crop",
      category := "dresses",
      tags := ["cocktail", "vintage", "evening", "party"],
      featured := true,
      inStock := true,
      colors := Some(["Burgundy", "Navy", "Black"]),
      sizes := Some(["S", "M", "L", "XL"]),
      rating := 47,
      reviews := 18),
    Product(
      id := 3,
      name := "Hand-Woven Wall Hanging",
      price := 8999,
      description := "Intricately hand-woven wall hanging made with sustainable materials. Each piece features unique patterns and natural color variations.",
      image := "https://images.unsplash.com/photo-1586023492125-27b2c045efd7?q=80&w=2158&auto=format&fit=crop",
      category := "decor",
      tags := ["wall art", "woven", "bohemian", "handmade"],
      featured := true,
      inStock := true,
      colors := Some(["Natural", "Terracotta", "Indigo"]),
      sizes := None,
      rating := 49,
      reviews := 32),
    Product(
      id := 4,
      name := "Hand-Painted Ceramic Vase",
      price := 6850,
      description := "Each vase is carefully hand-painted with artistic designs inspired by nature. Perfect as a statement piece for any room.",
      image := "https://images.unsplash.com/photo-1578913071428-342d790e5388?q=80&w=3074&auto=format&fit=crop",
      category := "decor",
      tags := ["vase", "ceramic", "handpainted", "home"],
      featured := false,
      inStock := true,
      colors := Some(["Blue", "Earth", "Mixed"]),
      sizes := None,
      rating := 46,
      reviews := 15),
    Product(
      id := 5,
      name := "Handcrafted Leather Tote",
      price := 12999,
      description := "Sustainable leather tote bag, handcrafted by skilled artisans. Features inner pockets and durable stitching for everyday use.",
      image := "https://images.unsplash.com/photo-1590874103328-eac38a683ce7?q=80&w=3026&auto=format&fit=crop",
      category := "accessories",
      tags := ["bag", "leather", "tote", "everyday"],
      featured := false,
      inStock := true,
      colors := Some(["Tan", "Brown", "Black"]),
      sizes := None,
      rating := 48,
      reviews := 27),
    Product(
      id := 6,
      name := "Boho Linen Wrap Dress",
      price := 14500,
      description := "Flowing linen wrap dress with bohemian-inspired details. Perfect for warm weather and comfortable for all-day wear.",
      image := "https://images.unsplash.com/photo-1515372039744-b8f02a3ae446?q=80&w=3026&auto=format&fit=crop",
      category := "dresses",
      tags := ["linen", "boho", "casual", "summer"],
      featured := true,
      inStock := true,
      colors := Some(["Natural", "Sage", "Terracotta"]),
      sizes := Some(["XS", "S", "M", "L", "XL"]),
      rating := 49,
      reviews := 22),
    Product(
      id := 7,
      name := "Hand-Knit Throw Blanket",
      price := 11500,
      description := "Cozy throw blanket hand-knit from premium sustainable yarn. Perfect for adding warmth and texture to any living space.",
      image := "https://images.unsplash.com/photo-1631222413336-44e87f11d4a9?q=80&w=3024&auto=format&fit=crop",
      category := "decor",
      tags := ["blanket", "knit", "cozy", "home"],
      featured := false,
      inStock := true,
      colors := Some(["Cream", "Gray", "Rust"]),
      sizes := None,
      rating := 47,
      reviews := 19),
    Product(
      id := 8,
      name := "Macramé Plant Hanger",
      price := 4299,
      description := "Intricately crafted macramé plant hanger made from 100% cotton rope. Adds bohemian charm to your indoor garden.",
      image := "https://images.unsplash.com/photo-1615226858046-a40206907ad8?q=80&w=3024&auto=format&fit=crop",
      category := "decor",
      tags := ["macrame", "plant", "boho", "hanging"],
      featured := false,
      inStock := true,
      colors := Some(["Natural", "White"]),
      sizes := None,
      rating := 48,
      reviews := 14),
    Product(
      id := 9,
      name := "Artisanal Beaded Necklace",
      price := 7850,
      description := "Hand-beaded statement necklace featuring unique patterns. Each piece is crafted individually and carries its own character.",
      image := "https://images.unsplash.com/photo-1599643478518-a784e5dc4c8f?q=80&w=3087&auto=format&fit=crop",
      category := "accessories",
      tags := ["jewelry", "beaded", "statement", "handmade"],
      featured := false,
      inStock := true,
      colors := Some(["Multi"]),
      sizes := None,
      rating := 49,
      reviews := 28),
    Product(
      id := 10,
      name := "Hand-Embroidered Cushion Cover",
      price := 5499,
      description := "Decorative cushion cover with intricate hand embroidery. Adds a touch of artisanal elegance to your home decor.",
      image := "https://images.unsplash.com/photo-1616627052149-22c4f8a6a5a7?q=80&w=3131&auto=format&fit=crop",
      category := "decor",
      tags := ["cushion", "embroidered", "home", "decorative"],
      featured := false,
      inStock := true,
      colors := Some(["Natural", "Blue", "Terracotta"]),
      sizes := None,
      rating := 47,
      reviews := 16),
    Product(
      id := 11,
      name := "Patchwork Linen Kimono",
      price := 13500,
      description := "Lightweight kimono featuring a unique patchwork of handwoven linen fabrics. Perfect as a layering piece for all seasons.",
      image := "https://images.unsplash.com/photo-1539008835657-9e8e9680c956?q=80&w=3087&auto=format&fit=crop",
      category := "dresses",
      tags := ["kimono", "linen", "patchwork", "layering"],
      featured := false,
      inStock := true,
      colors := Some(["Mixed Natural"]),
      sizes := Some(["One Size"]),
      rating := 48,
      reviews := 21),
    Product(
      id := 12,
      name := "Hand-Carved Wooden Serving Bowl",
      price := 8900,
      description := "Beautiful serving bowl hand-carved from sustainable wood. Each piece showcases the natural grain and unique characteristics of the wood.",
      image := "https://images.unsplash.com/photo-1614632538393-32e4685bfcf0?q=80&w=3024&auto=format&fit=crop",
      category := "decor",
      tags := ["wood", "bowl", "kitchen", "serving"],
      featured := false,
      inStock := true,
      colors := Some(["Natural Wood"]),
      sizes := None,
      rating := 49,
      reviews := 17)
  ]

  /** Ids run 1..12 in catalog order, so they are distinct and strictly increasing. */
  lemma CatalogIds()
    ensures |ProductsData| == 12
    ensures forall i :: 0 <= i < |ProductsData| ==> ProductsData[i].id == i + 1
    ensures forall i, j :: 0 <= i < j < |ProductsData| ==> ProductsData[i].id < ProductsData[j].id
    ensures DistinctIds(ProductsData)
  {
  }

  /** Every price is positive and every product is in stock. */
  lemma CatalogPricesAndStock()
    ensures forall i :: 0 <= i < |ProductsData| ==> ProductsData[i].price > 0 && ProductsData[i].inStock
  {
  }

  /** Every category is one of the three the storefront lists. */
  lemma CatalogCategories()
    ensures forall i :: 0 <= i < |ProductsData| ==>
      ProductsData[i].category in {"dresses", "decor", "accessories"}
  {
  }

  /** Exactly the products with ids 1, 2, 3 and 6 are featured. */
  lemma CatalogFeatured()
    ensures forall i :: 0 <= i < |ProductsData| ==> (ProductsData[i].featured <==> ProductsData[i].id in {1, 2, 3, 6})
  {
  }

  /** Every product lists at least one colour. */
  lemma CatalogColors()
    ensures forall i :: 0 <= i < |ProductsData| ==> ProductsData[i].colors.Some? && |ProductsData[i].colors.value| > 0
  {
  }

  /** Only ids 1, 2, 6 and 11 list sizes. */
  lemma CatalogSizes()
    ensures forall i :: 0 <= i < |ProductsData| ==> (ProductsData[i].sizes.Some? <==> ProductsData[i].id in {1, 2, 6, 11})
  {
  }

  /** Every price lies within the listing page's initial $0-$200 range. */
  lemma CatalogPricesWithinRange()
    ensures forall i :: 0 <= i < |ProductsData| ==> 0 <= ProductsData[i].price <= 20000
  {
  }

  /** The colours of the third and fourth products. */
  lemma CatalogColorsOfThreeAndFour()
    ensures ProductsData[2].colors == Some(["Natural", "Terracotta", "Indigo"])
    ensures ProductsData[3].colors == Some(["Blue", "Earth", "Mixed"])
  {
  }

  /** The featured flags by position: positions 0, 1, 2 and 5. */
  lemma CatalogFeaturedAt()
    ensures forall i :: 0 <= i < |ProductsData| ==> (ProductsData[i].featured <==> i in {0, 1, 2, 5})
  {
  }

  /** The catalog has the featured-flag shape the `Featured...` lemmas below start from. */
  lemma CatalogHasFeaturedShape()
    ensures FeaturedShape(ProductsData)
  {
    CatalogFeaturedAt();
  }

  /** The featured products, in catalog order, are the ones with ids 1, 2, 3 and 6. */
  lemma CatalogFeaturedInOrder()
    ensures var r := Filter(ProductsData, Featured);
      |r| == 4 && r[0].id == 1 && r[1].id == 2 && r[2].id == 3 && r[3].id == 6
  {
    CatalogHasFeaturedShape();
    CatalogIds();
    FeaturedIds(ProductsData);
  }

  lemma FeaturedIds(s: seq<Product>)
    requires FeaturedShape(s)
    requires forall i :: 0 <= i < |s| ==> s[i].id == i + 1
    ensures var r := Filter(s, Featured);
      |r| == 4 && r[0].id == 1 && r[1].id == 2 && r[2].id == 3 && r[3].id == 6
  {
    FeaturedPrefix(s);
  }

  /** The products that are not featured, in catalog order: ids 4 and 5, then ids 7 to 12. */
  lemma CatalogNotFeaturedInOrder()
    ensures Filter(ProductsData, NotFeatured) == [ProductsData[3], ProductsData[4]] + ProductsData[6..]
  {
    CatalogHasFeaturedShape();
    NotFeaturedPrefix(ProductsData);
  }

  /** One step of `Filter` on the suffix starting at `i`. */
  lemma FilterSplitAt(s: seq<Product>, i: int, p: Product -> bool)
    requires 0 <= i < |s|
    ensures Filter(s[i..], p) == (if p(s[i]) then [s[i]] else []) + Filter(s[i + 1..], p)
  {
    assert s[i..] == [s[i]] + s[i + 1..];
    FilterCons(s[i], s[i + 1..], p);
  }

  /** The shape of the catalog's featured flags: positions 0, 1, 2 and 5 of twelve. */
  predicate FeaturedShape(s: seq<Product>)
  {
    |s| == 12 && forall i :: 0 <= i < |s| ==> (s[i].featured <==> i in {0, 1, 2, 5})
  }

  lemma FeaturedTail(s: seq<Product>)
    requires FeaturedShape(s)
    ensures Filter(s[5..], Featured) == [s[5]]
  {
    FilterKeepsNone(s[6..], Featured);
    FilterSplitAt(s, 5, Featured);
  }

  lemma NotFeaturedTail(s: seq<Product>)
    requires FeaturedShape(s)
    ensures Filter(s[5..], NotFeatured) == s[6..]
  {
    FilterKeepsAll(s[6..], NotFeatured);
    FilterSplitAt(s, 5, NotFeatured);
  }

  lemma FeaturedSuffix(s: seq<Product>)
    requires FeaturedShape(s)
    ensures Filter(s[3..], Featured) == [s[5]]
  {
    FeaturedTail(s);
    FilterSplitAt(s, 4, Featured);
    FilterSplitAt(s, 3, Featured);
  }

  lemma FeaturedMiddle(s: seq<Product>)
    requires FeaturedShape(s)
    ensures Filter(s[2..], Featured) == [s[2], s[5]]
  {
    FeaturedSuffix(s);
    FilterSplitAt(s, 2, Featured);
  }

  lemma FeaturedFromOne(s: seq<Product>)
    requires FeaturedShape(s)
    ensures Filter(s[1..], Featured) == [s[1], s[2], s[5]]
  {
    FeaturedMiddle(s);
    FilterSplitAt(s, 1, Featured);
  }

  lemma FeaturedPrefix(s: seq<Product>)
    requires FeaturedShape(s)
    ensures Filter(s, Featured) == [s[0], s[1], s[2], s[5]]
  {
    var t := Filter(s[1..], Featured);
    FeaturedFromOne(s);
    assert s == [s[0]] + s[1..];
    assert Featured(s[0]);
    FilterCons(s[0], s[1..], Featured);
    assert Filter(s, Featured) == [s[0]] + t;
  }

  lemma NotFeaturedFromFour(s: seq<Product>)
    requires FeaturedShape(s)
    ensures Filter(s[4..], NotFeatured) == [s[4]] + s[6..]
  {
    NotFeaturedTail(s);
    FilterSplitAt(s, 4, NotFeatured);
  }

  lemma NotFeaturedSuffix(s: seq<Product>)
    requires FeaturedShape(s)
    ensures Filter(s[3..], NotFeatured) == [s[3], s[4]] + s[6..]
  {
    NotFeaturedFromFour(s);
    FilterSplitAt(s, 3, NotFeatured);
  }

  lemma NotFeaturedMiddle(s: seq<Product>)
    requires FeaturedShape(s)
    ensures Filter(s[2..], NotFeatured) == [s[3], s[4]] + s[6..]
  {
    NotFeaturedSuffix(s);
    FilterSplitAt(s, 2, NotFeatured);
  }

  lemma NotFeaturedPrefix(s: seq<Product>)
    requires FeaturedShape(s)
    ensures Filter(s, NotFeatured) == [s[3], s[4]] + s[6..]
  {
    NotFeaturedMiddle(s);
    FilterSplitAt(s, 1, NotFeatured);
    FilterSplitAt(s, 0, NotFeatured);
    assert s[0..] == s;
  }
}
