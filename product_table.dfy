/**
 * The pricing grid: products that are not coming soon, reordered so that the
 * first most-popular product sits in the middle column, each rendered with an
 * eyebrow line, a price block, a features list and a call-to-action whose
 * style and link follow from the product's tags and links.
 */
module ProductTable {
  import opened Js
  import opened Sequences
  import opened ProductOverviewCard

  predicate IsMostPopular(p: Product) {
    HasTag(p, MostPopularTag)
  }

  predicate IsPremium(p: Product) {
    HasTag(p, PremiumTag)
  }

  predicate NotComingSoon(p: Product) {
    !IsComingSoon(p)
  }

  /** `items.filter((item) => item.status !== "coming-soon")`. */
  function Available(items: seq<Product>): (r: seq<Product>)
    ensures forall i :: 0 <= i < |r| ==> r[i] in items && !IsComingSoon(r[i])
    ensures forall i :: 0 <= i < |items| && !IsComingSoon(items[i]) ==> items[i] in r
  {
    Filter(items, NotComingSoon)
  }

  /** The filter keeps each available product as often as it occurs, in its order. */
  lemma AvailableKeepsOrder(items: seq<Product>, p: Product)
    ensures IsSubsequence(Available(items), items)
    ensures multiset(Available(items))[p] == if IsComingSoon(p) then 0 else multiset(items)[p]
  {
    FilterOrdered(items, NotComingSoon);
    FilterCount(items, NotComingSoon, p);
  }

  /** `products.findIndex((p) => p.tags?.includes("most-popular"))`, `None` for -1. */
  function MostPopularIndex(products: seq<Product>): (r: Option<nat>)
    ensures r.None? <==> forall i :: 0 <= i < |products| ==> !IsMostPopular(products[i])
    ensures r.Some? ==> r.value < |products| && IsMostPopular(products[r.value])
    ensures r.Some? ==> forall i :: 0 <= i < r.value ==> !IsMostPopular(products[i])
  {
    FindIndex(products, IsMostPopular)
  }

  /**
   * What `reorderWithMostPopularInMiddle(products)` promises of its result `r`:
   * a permutation that, with three or more products whose first most-popular
   * one is not already second, takes that product out and puts it back at
   * index 1; in every other case the list as it was.
   */
  predicate PopularInMiddle(products: seq<Product>, r: seq<Product>) {
    && |r| == |products| && multiset(r) == multiset(products)
    && (|products| < 3 || MostPopularIndex(products).None? || MostPopularIndex(products) == Some(1) ==>
          r == products)
    && (|products| >= 3 && MostPopularIndex(products).Some? && MostPopularIndex(products) != Some(1) ==>
          var k := MostPopularIndex(products).value;
          r[1] == products[k] && IsMostPopular(r[1]) && RemoveAt(r, 1) == RemoveAt(products, k))
  }

  method ReorderWithMostPopularInMiddle(products: seq<Product>) returns (r: seq<Product>)
    ensures PopularInMiddle(products, r)
  {
    if |products| < 3 {
      return products;
    }
    var mostPopularIndex := MostPopularIndex(products);
    if mostPopularIndex.None? || mostPopularIndex.value == 1 {
      return products;
    }
    var k := mostPopularIndex.value;
    var reordered := products;
    var mostPopular := reordered[k];
    reordered := RemoveAt(reordered, k);
    reordered := InsertAt(reordered, 1, mostPopular);
    return reordered;
  }

  /** The promise leaves no freedom: at most one list meets it. */
  lemma ReorderDetermined(products: seq<Product>, r1: seq<Product>, r2: seq<Product>)
    requires PopularInMiddle(products, r1) && PopularInMiddle(products, r2)
    ensures r1 == r2
  {
    if |products| >= 3 && MostPopularIndex(products).Some? && MostPopularIndex(products) != Some(1) {
      var k := MostPopularIndex(products).value;
      forall i | 0 <= i < |r1| ensures r1[i] == r2[i] {
        if i > 1 {
          assert r1[i] == RemoveAt(r1, 1)[i - 1] && r2[i] == RemoveAt(r2, 1)[i - 1];
        } else if i == 0 {
          assert r1[0] == RemoveAt(r1, 1)[0] && r2[0] == RemoveAt(r2, 1)[0];
        }
      }
    }
  }

  /** The line above the title: the first rule that applies wins. */
  function Eyebrow(p: Product): (r: string)
    ensures r == "Free Download" <==> p.status == Some(FreeStatus)
    ensures r == "Full Access" <==> p.status != Some(FreeStatus) && IsMostPopular(p)
    ensures r == "Application Required" <==>
      p.status != Some(FreeStatus) && !IsMostPopular(p) && p.price == Some("Apply")
    ensures r == "Amazon Bestseller" <==>
      p.status != Some(FreeStatus) && !IsMostPopular(p) && p.price != Some("Apply") && MentionsBook(p)
    ensures r == "" <==>
      p.status != Some(FreeStatus) && !IsMostPopular(p) && p.price != Some("Apply") && !MentionsBook(p)
  {
    if p.status == Some(FreeStatus) then "Free Download"
    else if IsMostPopular(p) then "Full Access"
    else if p.price == Some("Apply") then "Application Required"
    else if MentionsBook(p) then "Amazon Bestseller"
    else ""
  }

  /** The call-to-action button's style. */
  function ButtonVariant(p: Product): (r: Variant)
    ensures r == Primary <==> IsMostPopular(p)
    ensures r == Tertiary <==> !IsMostPopular(p) && IsPremium(p)
    ensures r == Secondary <==> !IsMostPopular(p) && !IsPremium(p)
  {
    if IsMostPopular(p) then Primary else if IsPremium(p) then Tertiary else Secondary
  }

  /**
   * The call to action: the primary link (`newTab` for `target="_blank"` and
   * `rel="noopener noreferrer"`) and, when the product has both a link and a
   * page of its own, a second "Learn More" link to that page.
   */
  datatype Cta = Cta(href: string, variant: Variant, newTab: bool, text: string, learnMore: Option<string>)

  datatype Row = Row(
    featured: bool,
    eyebrow: string,
    price: Option<string>,
    priceNote: Option<string>,
    features: seq<string>,
    cta: Option<Cta>)

  function CtaOf(p: Product): (r: Option<Cta>)
    ensures r.Some? <==> Truthy(p.link) || Truthy(p.url)
    ensures r.Some? ==> Some(r.value.href) == Href(p) && r.value.variant == ButtonVariant(p)
    ensures r.Some? ==> (r.value.newTab <==> StartsWith(r.value.href, "http"))
    ensures r.Some? ==> r.value.text == if Truthy(p.ctaText) then p.ctaText.value else "Learn More"
    ensures r.Some? ==> (r.value.learnMore.Some? <==> Truthy(p.link) && Truthy(p.url))
    ensures r.Some? && r.value.learnMore.Some? ==> r.value.learnMore == p.url
  {
    var href := Href(p);
    if !Truthy(href) then None
    else
      var showLearnMore := Truthy(p.link) && Truthy(p.url);
      Some(Cta(href.value, ButtonVariant(p), IsExternalLink(href), Or(p.ctaText, Some("Learn More")).value,
               if showLearnMore then p.url else None))
  }

  /** One card of the grid. */
  function RowOf(p: Product): (r: Row)
    ensures r.featured <==> IsMostPopular(p)
    ensures r.eyebrow == Eyebrow(p) && r.cta == CtaOf(p)
    ensures r.price.Some? <==> Truthy(p.price)
    ensures r.priceNote.Some? <==> Truthy(p.price) && Truthy(p.priceNote)
    ensures r.price.Some? ==> r.price == p.price
    ensures r.priceNote.Some? ==> r.priceNote == p.priceNote
    ensures p.features.Some? ==> r.features == p.features.value
    ensures p.features.None? ==> r.features == []
  {
    Row(IsMostPopular(p), Eyebrow(p),
        if Truthy(p.price) then p.price else None,
        if Truthy(p.price) && Truthy(p.priceNote) then p.priceNote else None,
        if p.features.Some? then p.features.value else [],
        CtaOf(p))
  }

  function Rows(products: seq<Product>): (r: seq<Row>)
    ensures |r| == |products|
    ensures forall i :: 0 <= i < |products| ==> r[i] == RowOf(products[i])
  {
    seq(|products|, i requires 0 <= i < |products| => RowOf(products[i]))
  }

  /**
   * `ProductTable({ items })`: nothing when every product is coming soon;
   * otherwise one card per available product, in the reordered order, which
   * `shown` returns.
   */
  method RenderTable(items: seq<Product>) returns (shown: seq<Product>, rows: Option<seq<Row>>)
    ensures rows.None? <==> Available(items) == []
    ensures rows.None? ==> shown == []
    ensures rows.Some? ==> rows.value == Rows(shown)
    ensures PopularInMiddle(Available(items), shown)
  {
    var availableProducts := Available(items);
    if |availableProducts| == 0 {
      return [], None;
    }
    shown := ReorderWithMostPopularInMiddle(availableProducts);
    rows := Some(Rows(shown));
  }
}
