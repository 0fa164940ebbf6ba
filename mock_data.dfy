/** The built-in catalogue of `src/data/mockData.ts`: the category, brand and
    product tables and the lookups the static pages run over them. */
module MockData {
  import opened Common
  import opened Seqs

  datatype Category = Category(id: string, name: string, slug: string, productCount: int)

  datatype Brand = Brand(id: string, name: string, slug: string, productCount: int)

  /** A catalogue product; prices are whole amounts, as every price in the table is. */
  datatype Product = Product(id: string, name: string, slug: string, price: int, originalPrice: Option<int>,
                             imageCount: nat, categoryId: string, brandId: string, sizes: seq<string>,
                             inStock: bool, featured: bool, createdAt: string)

  // ---------------------------------------------------------------------------
  // The tables

  const CATEGORIES: seq<Category> := [
    Category("cat-1", "Women", "women", 24),
    Category("cat-2", "Men", "men", 18),
    Category("cat-3", "Accessories", "accessories", 12),
    Category("cat-4", "Footwear", "footwear", 15)
  ]

  const BRANDS: seq<Brand> := [
    Brand("brand-1", "Atelier Noir", "atelier-noir", 12),
    Brand("brand-2", "Nordic Essence", "nordic-essence", 15),
    Brand("brand-3", "Casa Milano", "casa-milano", 10),
    Brand("brand-4", "Terra Studio", "terra-studio", 8)
  ]

  const P1 := Product("prod-1", "Oversized Wool Coat", "oversized-wool-coat", 485, Some(650), 2,
                      "cat-1", "brand-1", ["XS", "S", "M", "L", "XL"], true, true, "2024-01-15")
  const P2 := Product("prod-2", "Cashmere Crew Sweater", "cashmere-crew-sweater", 295, None, 2,
                      "cat-1", "brand-2", ["XS", "S", "M", "L"], true, true, "2024-01-20")
  const P3 := Product("prod-3", "Tailored Wool Trousers", "tailored-wool-trousers", 225, None, 2,
                      "cat-1", "brand-3", ["24", "26", "28", "30", "32"], true, false, "2024-01-25")
  const P4 := Product("prod-4", "Cotton Oxford Shirt", "cotton-oxford-shirt", 125, None, 2,
                      "cat-2", "brand-4", ["S", "M", "L", "XL", "XXL"], true, true, "2024-02-01")
  const P5 := Product("prod-5", "Leather Tote Bag", "leather-tote-bag", 395, None, 2,
                      "cat-3", "brand-1", ["One Size"], true, true, "2024-02-05")
  const P6 := Product("prod-6", "Minimalist Leather Sneakers", "minimalist-leather-sneakers", 245, None, 2,
                      "cat-4", "brand-2", ["36", "37", "38", "39", "40", "41", "42", "43", "44", "45"],
                      true, false, "2024-02-10")
  const P7 := Product("prod-7", "Silk Blend Scarf", "silk-blend-scarf", 145, None, 1,
                      "cat-3", "brand-3", ["One Size"], true, false, "2024-02-15")
  const P8 := Product("prod-8", "Double-Breasted Blazer", "double-breasted-blazer", 425, Some(525), 2,
                      "cat-2", "brand-1", ["S", "M", "L", "XL"], true, true, "2024-02-20")

  const PRODUCTS: seq<Product> := [P1, P2, P3, P4, P5, P6, P7, P8]

  // ---------------------------------------------------------------------------
  // The integrity of the tables

  predicate DistinctProductIds(ps: seq<Product>) {
    forall i, j :: 0 <= i < j < |ps| ==> ps[i].id != ps[j].id
  }

  predicate DistinctProductSlugs(ps: seq<Product>) {
    forall i, j :: 0 <= i < j < |ps| ==> ps[i].slug != ps[j].slug
  }

  predicate DistinctCategoryKeys(cs: seq<Category>) {
    forall i, j :: 0 <= i < j < |cs| ==> cs[i].id != cs[j].id && cs[i].slug != cs[j].slug
  }

  predicate DistinctBrandKeys(bs: seq<Brand>) {
    forall i, j :: 0 <= i < j < |bs| ==> bs[i].id != bs[j].id && bs[i].slug != bs[j].slug
  }

  /** Every product's category and brand exist. */
  predicate ReferencesResolve(ps: seq<Product>, cs: seq<Category>, bs: seq<Brand>) {
    forall i :: 0 <= i < |ps| ==>
      (exists c :: 0 <= c < |cs| && cs[c].id == ps[i].categoryId)
      && (exists b :: 0 <= b < |bs| && bs[b].id == ps[i].brandId)
  }

  /** A struck-through price is always above the price asked. */
  predicate DiscountsAreReductions(ps: seq<Product>) {
    forall i :: 0 <= i < |ps| && ps[i].originalPrice.Some? ==> ps[i].originalPrice.value > ps[i].price
  }

  lemma ProductIdsDistinct()
    ensures DistinctProductIds(PRODUCTS)
  {
    forall i, j | 0 <= i < j < |PRODUCTS|
      ensures PRODUCTS[i].id != PRODUCTS[j].id
    {
      assert PRODUCTS[i].id[5] != PRODUCTS[j].id[5];
    }
  }

  lemma ProductSlugsDistinct()
    ensures DistinctProductSlugs(PRODUCTS)
  {
    forall i, j | 0 <= i < j < |PRODUCTS|
      ensures PRODUCTS[i].slug != PRODUCTS[j].slug
    {
      // no two slugs agree in both length and first letter
      assert |PRODUCTS[i].slug| != |PRODUCTS[j].slug| || PRODUCTS[i].slug[0] != PRODUCTS[j].slug[0];
    }
  }

  lemma TableKeysDistinct()
    ensures DistinctCategoryKeys(CATEGORIES) && DistinctBrandKeys(BRANDS)
  {
    forall i, j | 0 <= i < j < |CATEGORIES|
      ensures CATEGORIES[i].id != CATEGORIES[j].id && CATEGORIES[i].slug != CATEGORIES[j].slug
    {
      assert CATEGORIES[i].id[4] != CATEGORIES[j].id[4];
      assert CATEGORIES[i].slug[0] != CATEGORIES[j].slug[0];
    }
    forall i, j | 0 <= i < j < |BRANDS|
      ensures BRANDS[i].id != BRANDS[j].id && BRANDS[i].slug != BRANDS[j].slug
    {
      assert BRANDS[i].id[6] != BRANDS[j].id[6];
      assert BRANDS[i].slug[0] != BRANDS[j].slug[0];
    }
  }

  lemma CatalogueIntegrity()
    ensures ReferencesResolve(PRODUCTS, CATEGORIES, BRANDS)
    ensures DiscountsAreReductions(PRODUCTS)
  {
    forall i | 0 <= i < |PRODUCTS|
      ensures exists c :: 0 <= c < |CATEGORIES| && CATEGORIES[c].id == PRODUCTS[i].categoryId
      ensures exists b :: 0 <= b < |BRANDS| && BRANDS[b].id == PRODUCTS[i].brandId
    {
      if i == 0 {
        assert CATEGORIES[0].id == PRODUCTS[0].categoryId && BRANDS[0].id == PRODUCTS[0].brandId;
      } else if i == 1 {
        assert CATEGORIES[0].id == PRODUCTS[1].categoryId && BRANDS[1].id == PRODUCTS[1].brandId;
      } else if i == 2 {
        assert CATEGORIES[0].id == PRODUCTS[2].categoryId && BRANDS[2].id == PRODUCTS[2].brandId;
      } else if i == 3 {
        assert CATEGORIES[1].id == PRODUCTS[3].categoryId && BRANDS[3].id == PRODUCTS[3].brandId;
      } else if i == 4 {
        assert CATEGORIES[2].id == PRODUCTS[4].categoryId && BRANDS[0].id == PRODUCTS[4].brandId;
      } else if i == 5 {
        assert CATEGORIES[3].id == PRODUCTS[5].categoryId && BRANDS[1].id == PRODUCTS[5].brandId;
      } else if i == 6 {
        assert CATEGORIES[2].id == PRODUCTS[6].categoryId && BRANDS[2].id == PRODUCTS[6].brandId;
      } else {
        assert CATEGORIES[1].id == PRODUCTS[7].categoryId && BRANDS[0].id == PRODUCTS[7].brandId;
      }
    }
    assert forall i :: 0 <= i < |PRODUCTS| ==>
      (exists c :: 0 <= c < |CATEGORIES| && CATEGORIES[c].id == PRODUCTS[i].categoryId)
      && (exists b :: 0 <= b < |BRANDS| && BRANDS[b].id == PRODUCTS[i].brandId);
    forall i | 0 <= i < |PRODUCTS| && PRODUCTS[i].originalPrice.Some?
      ensures PRODUCTS[i].originalPrice.value > PRODUCTS[i].price
    {
      assert i == 0 || i == 1 || i == 2 || i == 3 || i == 4 || i == 5 || i == 6 || i == 7;
    }
  }

  // ---------------------------------------------------------------------------
  // Lookups

  function HasProductId(id: string): Product -> bool {
    (p: Product) => p.id == id
  }

  function HasProductSlug(slug: string): Product -> bool {
    (p: Product) => p.slug == slug
  }

  function HasCategoryId(id: string): Category -> bool {
    (c: Category) => c.id == id
  }

  function HasCategorySlug(slug: string): Category -> bool {
    (c: Category) => c.slug == slug
  }

  function HasBrandId(id: string): Brand -> bool {
    (b: Brand) => b.id == id
  }

  function HasBrandSlug(slug: string): Brand -> bool {
    (b: Brand) => b.slug == slug
  }

  /** `getProductById`: the first product with the id, or none. */
  function ProductById(id: string): (r: Option<Product>)
    ensures r.Some? ==> r.value in PRODUCTS && r.value.id == id
    ensures r.None? <==> forall i :: 0 <= i < |PRODUCTS| ==> PRODUCTS[i].id != id
  {
    Find(PRODUCTS, HasProductId(id))
  }

  function ProductBySlug(slug: string): (r: Option<Product>)
    ensures r.Some? ==> r.value in PRODUCTS && r.value.slug == slug
    ensures r.None? <==> forall i :: 0 <= i < |PRODUCTS| ==> PRODUCTS[i].slug != slug
  {
    Find(PRODUCTS, HasProductSlug(slug))
  }

  function CategoryById(id: string): (r: Option<Category>)
    ensures r.Some? ==> r.value in CATEGORIES && r.value.id == id
    ensures r.None? <==> forall i :: 0 <= i < |CATEGORIES| ==> CATEGORIES[i].id != id
  {
    Find(CATEGORIES, HasCategoryId(id))
  }

  function CategoryBySlug(slug: string): (r: Option<Category>)
    ensures r.Some? ==> r.value in CATEGORIES && r.value.slug == slug
    ensures r.None? <==> forall i :: 0 <= i < |CATEGORIES| ==> CATEGORIES[i].slug != slug
  {
    Find(CATEGORIES, HasCategorySlug(slug))
  }

  function BrandById(id: string): (r: Option<Brand>)
    ensures r.Some? ==> r.value in BRANDS && r.value.id == id
    ensures r.None? <==> forall i :: 0 <= i < |BRANDS| ==> BRANDS[i].id != id
  {
    Find(BRANDS, HasBrandId(id))
  }

  function BrandBySlug(slug: string): (r: Option<Brand>)
    ensures r.Some? ==> r.value in BRANDS && r.value.slug == slug
    ensures r.None? <==> forall i :: 0 <= i < |BRANDS| ==> BRANDS[i].slug != slug
  {
    Find(BRANDS, HasBrandSlug(slug))
  }

  /** Because ids and slugs are distinct, looking up a product's own id or slug finds
      that very product. */
  lemma ProductLookupsRoundTrip(i: nat)
    requires i < |PRODUCTS|
    ensures ProductById(PRODUCTS[i].id) == Some(PRODUCTS[i])
    ensures ProductBySlug(PRODUCTS[i].slug) == Some(PRODUCTS[i])
  {
    ProductIdsDistinct();
    ProductSlugsDistinct();
    FindUnique(PRODUCTS, HasProductId(PRODUCTS[i].id), i);
    FindUnique(PRODUCTS, HasProductSlug(PRODUCTS[i].slug), i);
  }

  /** Likewise for categories and brands. */
  lemma CategoryLookupsRoundTrip(i: nat)
    requires i < |CATEGORIES|
    ensures CategoryById(CATEGORIES[i].id) == Some(CATEGORIES[i])
    ensures CategoryBySlug(CATEGORIES[i].slug) == Some(CATEGORIES[i])
  {
    TableKeysDistinct();
    FindUnique(CATEGORIES, HasCategoryId(CATEGORIES[i].id), i);
    FindUnique(CATEGORIES, HasCategorySlug(CATEGORIES[i].slug), i);
  }

  lemma BrandLookupsRoundTrip(i: nat)
    requires i < |BRANDS|
    ensures BrandById(BRANDS[i].id) == Some(BRANDS[i])
    ensures BrandBySlug(BRANDS[i].slug) == Some(BRANDS[i])
  {
    TableKeysDistinct();
    FindUnique(BRANDS, HasBrandId(BRANDS[i].id), i);
    FindUnique(BRANDS, HasBrandSlug(BRANDS[i].slug), i);
  }

  /** Every product's category and brand can be looked up by the product's ids. */
  lemma ProductReferencesLookUp(i: nat)
    requires i < |PRODUCTS|
    ensures CategoryById(PRODUCTS[i].categoryId).Some? && BrandById(PRODUCTS[i].brandId).Some?
  {
    CatalogueIntegrity();
  }

  // ---------------------------------------------------------------------------
  // Filters

  function InCategory(categoryId: string): Product -> bool {
    (p: Product) => p.categoryId == categoryId
  }

  function OfBrand(brandId: string): Product -> bool {
    (p: Product) => p.brandId == brandId
  }

  function IsFeatured(): Product -> bool {
    (p: Product) => p.featured
  }

  function ProductsByCategory(categoryId: string): (r: seq<Product>)
    ensures forall i :: 0 <= i < |r| ==> r[i] in PRODUCTS && r[i].categoryId == categoryId
    ensures forall i :: 0 <= i < |PRODUCTS| && PRODUCTS[i].categoryId == categoryId ==> PRODUCTS[i] in r
  {
    FilterMembers(PRODUCTS, InCategory(categoryId));
    Filter(PRODUCTS, InCategory(categoryId))
  }

  function ProductsByBrand(brandId: string): (r: seq<Product>)
    ensures forall i :: 0 <= i < |r| ==> r[i] in PRODUCTS && r[i].brandId == brandId
    ensures forall i :: 0 <= i < |PRODUCTS| && PRODUCTS[i].brandId == brandId ==> PRODUCTS[i] in r
  {
    FilterMembers(PRODUCTS, OfBrand(brandId));
    Filter(PRODUCTS, OfBrand(brandId))
  }

  function FeaturedProducts(): (r: seq<Product>)
    ensures forall i :: 0 <= i < |r| ==> r[i] in PRODUCTS && r[i].featured
    ensures forall i :: 0 <= i < |PRODUCTS| && PRODUCTS[i].featured ==> PRODUCTS[i] in r
  {
    FilterMembers(PRODUCTS, IsFeatured());
    Filter(PRODUCTS, IsFeatured())
  }

  /** No product occurs twice in the table. */
  lemma ProductsOccurOnce(x: Product)
    ensures multiset(PRODUCTS)[x] <= 1
  {
    ProductIdsDistinct();
    DistinctOnce(PRODUCTS, x);
  }

  /** Each matching product appears exactly once, and no other product appears. */
  lemma FiltersListEachMatchOnce(categoryId: string, brandId: string, x: Product)
    ensures multiset(ProductsByCategory(categoryId))[x] == if x.categoryId == categoryId then multiset(PRODUCTS)[x] else 0
    ensures multiset(ProductsByBrand(brandId))[x] == if x.brandId == brandId then multiset(PRODUCTS)[x] else 0
    ensures multiset(FeaturedProducts())[x] == if x.featured then multiset(PRODUCTS)[x] else 0
  {
    FilterMultiplicity(PRODUCTS, InCategory(categoryId), x);
    FilterMultiplicity(PRODUCTS, OfBrand(brandId), x);
    FilterMultiplicity(PRODUCTS, IsFeatured(), x);
  }

  /** The filters keep table order: whatever the table holds before a position is
      listed before whatever it holds after it. */
  lemma FiltersKeepTableOrder(k: nat, p: Product -> bool)
    requires k <= |PRODUCTS|
    ensures Filter(PRODUCTS, p) == Filter(PRODUCTS[..k], p) + Filter(PRODUCTS[k..], p)
  {
    assert PRODUCTS == PRODUCTS[..k] + PRODUCTS[k..];
    FilterAppend(PRODUCTS[..k], PRODUCTS[k..], p);
  }
}
