/**
 * A product entry as the product templates read it (`ProductOverviewItem`:
 * every field optional), the derivations every template shares (the link a
 * product points at, whether that link leaves the site, the tags), and the
 * overview card that renders one product: coming-soon badge, price line,
 * price note and call-to-action.
 */
module ProductOverviewCard {
  import opened Js

  datatype Product = Product(
    slug: Option<string>,
    title: Option<string>,
    description: Option<string>,
    price: Option<string>,
    priceNote: Option<string>,
    features: Option<seq<string>>,
    tags: Option<seq<string>>,
    ctaText: Option<string>,
    link: Option<string>,
    url: Option<string>,
    status: Option<string>)

  const ComingSoonStatus := "coming-soon"
  const FreeStatus := "free"
  const MostPopularTag := "most-popular"
  const PremiumTag := "premium-offering"

  /** `item.status === "coming-soon"`. */
  predicate IsComingSoon(p: Product) {
    p.status == Some(ComingSoonStatus)
  }

  /** `item.tags?.includes(tag)`: false when there are no tags. */
  predicate HasTag(p: Product, tag: string) {
    p.tags.Some? && tag in p.tags.value
  }

  /** `item.title?.toLowerCase().includes("book")`. */
  predicate MentionsBook(p: Product) {
    p.title.Some? && Includes(ToLower(p.title.value), "book")
  }

  /** `item.link || item.url`: the link when it is a non-empty string, the url otherwise. */
  function Href(p: Product): (r: Option<string>)
    ensures Truthy(p.link) ==> r == p.link
    ensures !Truthy(p.link) ==> r == p.url
    ensures Truthy(r) <==> Truthy(p.link) || Truthy(p.url)
  {
    Or(p.link, p.url)
  }

  /**
   * `isExternalLink(href)`: a string starting with `http`, which is never the
   * empty string, so an external link always renders as a link.
   */
  function IsExternalLink(href: Option<string>): (r: bool)
    ensures r <==> href.Some? && StartsWith(href.value, "http")
    ensures r ==> Truthy(href) && href.value[0] == 'h'
  {
    href.Some? && StartsWith(href.value, "http")
  }

  /**
   * `item.status === "free" || item.price?.toUpperCase() === "FREE"`: the
   * status, or a price that spells "free" in any mix of letter case.
   */
  function IsFree(p: Product): (r: bool)
    ensures r <==> (p.status == Some(FreeStatus) ||
      (p.price.Some? && |p.price.value| == 4 && p.price.value[0] in "fF" && p.price.value[1] in "rR" &&
       p.price.value[2] in "eE" && p.price.value[3] in "eE"))
  {
    if p.price.Some? then
      FreePrice(p.price.value);
      p.status == Some(FreeStatus) || ToUpper(p.price.value) == "FREE"
    else p.status == Some(FreeStatus)
  }

  /** The price test ignores the case of each letter of "free", and only that. */
  lemma FreePrice(s: string)
    ensures ToUpper(s) == "FREE" <==>
      |s| == 4 && s[0] in "fF" && s[1] in "rR" && s[2] in "eE" && s[3] in "eE"
  {
    if |s| == 4 {
      assert ToUpper(s) == [UpperChar(s[0]), UpperChar(s[1]), UpperChar(s[2]), UpperChar(s[3])];
    }
  }

  /** The button label: the item's own text, else a default that depends on availability. */
  function CtaText(p: Product): (r: string)
    ensures r != ""
    ensures Truthy(p.ctaText) ==> r == p.ctaText.value
    ensures !Truthy(p.ctaText) ==> r == if IsComingSoon(p) then "Join Waitlist" else "Learn More"
  {
    var t := Or(p.ctaText, Some(if IsComingSoon(p) then "Join Waitlist" else "Learn More"));
    t.value
  }

  datatype Variant = Primary | Secondary | Tertiary

  /** The price block: "Price TBA", or an optional "From " and the amount. */
  datatype PriceLine = PriceTba | Priced(from: bool, amount: string)

  /**
   * The call to action: a link button (`newTab` stands for both
   * `target="_blank"` and `rel="noopener noreferrer"`), or a disabled button
   * when there is nowhere to go.
   */
  datatype Action =
    | LinkButton(href: string, variant: Variant, newTab: bool, text: string)
    | DisabledButton(text: string)

  datatype Card = Card(comingSoonBadge: bool, priceLine: PriceLine, priceNote: Option<string>, action: Action)

  function PriceLineOf(p: Product): (r: PriceLine)
    ensures r == PriceTba <==> IsComingSoon(p)
    ensures r.Priced? ==> (r.from <==> MentionsBook(p) && Truthy(p.price))
    ensures r.Priced? ==> r.amount != "" && (Truthy(p.price) ==> r.amount == p.price.value)
    ensures r.Priced? && !Truthy(p.price) ==> r.amount == "Learn More"
  {
    if IsComingSoon(p) then PriceTba
    else Priced(MentionsBook(p) && Truthy(p.price), Or(p.price, Some("Learn More")).value)
  }

  function ActionOf(p: Product): (r: Action)
    ensures r.LinkButton? <==> Truthy(p.link) || Truthy(p.url)
    ensures r.LinkButton? ==> Some(r.href) == Href(p)
    ensures r.LinkButton? ==> (r.variant == Primary <==> IsFree(p)) && r.variant != Tertiary
    ensures r.LinkButton? ==> (r.newTab <==> StartsWith(r.href, "http"))
    ensures r.text == CtaText(p)
  {
    var href := Href(p);
    if Truthy(href) then
      LinkButton(href.value, if IsFree(p) then Primary else Secondary, IsExternalLink(href), CtaText(p))
    else DisabledButton(CtaText(p))
  }

  /** What `ProductOverviewCard` shows for one product. */
  function RenderCard(p: Product): (r: Card)
    ensures r.comingSoonBadge <==> IsComingSoon(p)
    ensures r.priceLine == PriceLineOf(p) && r.action == ActionOf(p)
    ensures r.priceNote.Some? <==> Truthy(p.priceNote) && !IsComingSoon(p)
    ensures r.priceNote.Some? ==> r.priceNote == p.priceNote
  {
    Card(IsComingSoon(p), PriceLineOf(p), if Truthy(p.priceNote) && !IsComingSoon(p) then p.priceNote else None,
         ActionOf(p))
  }

  /** A coming-soon product shows neither a price nor its price note. */
  lemma ComingSoonHidesPrice(p: Product)
    requires IsComingSoon(p)
    ensures RenderCard(p).priceLine == PriceTba && RenderCard(p).priceNote.None?
    ensures RenderCard(p).action.text == if Truthy(p.ctaText) then p.ctaText.value else "Join Waitlist"
  {
  }

  /** Every card labels its button, and a shown price is never blank. */
  lemma CardNeverBlank(p: Product)
    ensures RenderCard(p).action.text != ""
    ensures RenderCard(p).priceLine.Priced? ==> RenderCard(p).priceLine.amount != ""
  {
  }
}
