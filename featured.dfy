/**
 * The home page's "Our Signature Collection": the catalog's featured products,
 * cut to the first four. Despite the word "random" next to it in the page, the
 * choice is deterministic: catalog order decides.
 */
module FeaturedSection {
  import opened Seqs
  import opened Catalog

  /** `productsData.filter(product => product.featured).slice(0, 4)`. */
  function FeaturedProducts(catalog: seq<Product>): (r: seq<Product>)
    ensures |r| <= 4
    ensures forall p :: p in r ==> p in catalog && p.featured
  {
    Take(Filter(catalog, Featured), 4)
  }

  /**
   * The section shows the first min(4, number of featured products) featured
   * products, in catalog order: it is a prefix of the catalog's featured
   * products and a subsequence of the catalog.
   */
  lemma FeaturedProductsAreFirstFeatured(catalog: seq<Product>)
    ensures var all := Filter(catalog, Featured);
      var r := FeaturedProducts(catalog);
      && |r| == (if |all| < 4 then |all| else 4)
      && r == all[..|r|]
      && IsSubsequence(r, catalog)
  {
    var all := Filter(catalog, Featured);
    FilterIsSubsequence(catalog, Featured);
    TakeOfSubsequence(all, catalog, 4);
  }

  /** With fewer than four featured products, every one of them is shown. */
  lemma FewFeaturedAllShown(catalog: seq<Product>)
    requires |Filter(catalog, Featured)| <= 4
    ensures forall p :: p in FeaturedProducts(catalog) <==> p in catalog && p.featured
  {
    var all := Filter(catalog, Featured);
    assert Take(all, 4) == all;
  }

  /** With the shipped catalog the section shows ids 1, 2, 3 and 6, in that order. */
  lemma ShippedFeaturedProducts()
    ensures var r := FeaturedProducts(ProductsData);
      |r| == 4 && r[0].id == 1 && r[1].id == 2 && r[2].id == 3 && r[3].id == 6
  {
    CatalogFeaturedInOrder();
    FourFeaturedAllShown(ProductsData);
  }

  lemma FourFeaturedAllShown(catalog: seq<Product>)
    requires var f := Filter(catalog, Featured);
      |f| == 4 && f[0].id == 1 && f[1].id == 2 && f[2].id == 3 && f[3].id == 6
    ensures var r := FeaturedProducts(catalog);
      |r| == 4 && r[0].id == 1 && r[1].id == 2 && r[2].id == 3 && r[3].id == 6
  {
  }
}
