/**
 * The products showcase: one featured product (the first available
 * most-popular one, else the first available one) with its price block and
 * feature list, and up to four other products as overview cards. The price
 * block's period and details come from the featured product's price note,
 * a `•`-separated list such as "/month • Cancel anytime".
 */
module ProductsShowcase {
  import opened Js
  import opened Sequences
  import opened ProductOverviewCard
  import opened ProductTable

  const Bullet: char := '•'
  /** The separator the parts are joined back with: a bullet between two spaces. */
  const Separator: string := [' ', Bullet, ' ']

  const DefaultPeriod := "/month"
  const DefaultDetails: string := "Cancel anytime" + Separator + "30-day guarantee"
  const DefaultFeatures := ["Daily market analysis & insights", "Weekly live Q&A sessions with Arold",
                            "Private community of wealth builders"]
  const DefaultPrice := "$49"

  datatype PriceMeta = PriceMeta(period: string, details: string)

  const DefaultMeta := PriceMeta(DefaultPeriod, DefaultDetails)

  /** `parts.map((part) => part.trim())`. */
  function TrimAll(parts: seq<string>): (r: seq<string>)
    ensures |r| == |parts|
    ensures forall i {:trigger r[i]} :: 0 <= i < |parts| ==> r[i] == Trim(parts[i])
  {
    seq(|parts|, i requires 0 <= i < |parts| => Trim(parts[i]))
  }

  predicate NonEmpty(s: string) {
    s != ""
  }

  /** A part of a note as `parsePriceNote` keeps it. */
  predicate CleanPart(s: string) {
    s != "" && Trimmed(s) && Bullet !in s
  }

  /** `note.split("•").map((part) => part.trim()).filter(Boolean)`. */
  function PriceParts(note: string): (r: seq<string>)
    ensures forall i :: 0 <= i < |r| ==> CleanPart(r[i])
  {
    var split := Split(note, Bullet);
    var trimmed := TrimAll(split);
    assert forall i :: 0 <= i < |trimmed| ==> Bullet !in trimmed[i] by {
      forall i | 0 <= i < |trimmed| ensures Bullet !in trimmed[i] {
        assert Bullet !in split[i];
      }
    }
    Filter(trimmed, NonEmpty)
  }

  /** `parsePriceNote(priceNote)`. */
  function ParsePriceNote(note: Option<string>): (r: PriceMeta)
    ensures !Truthy(note) || PriceParts(note.value) == [] ==> r == DefaultMeta
    ensures r.period == "" || StartsWith(r.period, "/")
    ensures r.period != DefaultPeriod && r.period != "" ==> CleanPart(r.period)
  {
    if !Truthy(note) then DefaultMeta
    else
      var parts := PriceParts(note.value);
      if |parts| == 0 then DefaultMeta
      else if StartsWith(parts[0], "/") then PriceMeta(parts[0], Join(parts[1..], Separator))
      else PriceMeta("", Join(parts, Separator))
  }

  /** `filter(Boolean)` keeps every part once none of the trimmed parts is empty. */
  lemma PricePartsOf(note: string, ps: seq<string>)
    requires TrimAll(Split(note, Bullet)) == ps
    requires forall i :: 0 <= i < |ps| ==> NonEmpty(ps[i])
    ensures PriceParts(note) == ps
  {
    FilterAll(ps, NonEmpty);
  }

  /**
   * The pieces `split("•")` cuts a " • "-joined note into: each part with the
   * space the separator puts before it (all but the first) and after it (all
   * but the last).
   */
  function Pad(ps: seq<string>, lead: bool): (r: seq<string>)
    ensures |r| == |ps|
    decreases |ps|
  {
    if |ps| == 0 then []
    else
      var l := if lead then " " else "";
      if |ps| == 1 then [l + ps[0]] else [l + ps[0] + " "] + Pad(ps[1..], true)
  }

  /** Joining with " • " is joining the padded pieces with the bare bullet. */
  lemma {:induction false} JoinPad(ps: seq<string>, lead: bool)
    requires |ps| > 0
    ensures (if lead then " " else "") + Join(ps, Separator) == Join(Pad(ps, lead), [Bullet])
    decreases |ps|
  {
    if |ps| > 1 {
      JoinPad(ps[1..], true);
      var l := if lead then " " else "";
      assert l + Join(ps, Separator) == (l + ps[0] + " ") + [Bullet] + (" " + Join(ps[1..], Separator));
    }
  }

  /** `trim` takes the separator's spaces back off a clean part. */
  lemma PadBoth(p: string)
    requires CleanPart(p)
    ensures Trim(" " + p + " ") == p && Bullet !in " " + p + " "
  {
    TrimPadded(" ", p, " ");
  }

  lemma PadLead(p: string)
    requires CleanPart(p)
    ensures Trim(" " + p) == p && Bullet !in " " + p
  {
    TrimPadded(" ", p, "");
    assert " " + p + "" == " " + p;
  }

  lemma PadTrail(p: string)
    requires CleanPart(p)
    ensures Trim(p + " ") == p && Bullet !in p + " "
  {
    TrimPadded("", p, " ");
    assert "" + p + " " == p + " ";
  }

  /** The first padded part trims back to the first part and has no bullet. */
  lemma PadHead(ps: seq<string>, lead: bool)
    requires |ps| > 0 && CleanPart(ps[0])
    ensures Trim(Pad(ps, lead)[0]) == ps[0] && Bullet !in Pad(ps, lead)[0]
  {
    var p := ps[0];
    if |ps| == 1 {
      if lead { PadLead(p); } else { assert "" + p == p; }
    } else {
      if lead { PadBoth(p); } else { PadTrail(p); assert "" + p + " " == p + " "; }
    }
  }

  /** Trimming the padded pieces gives the parts back. */
  lemma {:induction false} TrimPad(ps: seq<string>, lead: bool)
    requires |ps| > 0 && forall i :: 0 <= i < |ps| ==> CleanPart(ps[i])
    ensures TrimAll(Pad(ps, lead)) == ps
    decreases |ps|
  {
    PadHead(ps, lead);
    if |ps| == 1 {
      TrimPadOne(ps, lead);
    } else {
      TrimPad(ps[1..], true);
      TrimPadStep(ps, lead);
    }
  }

  lemma TrimPadOne(ps: seq<string>, lead: bool)
    requires |ps| == 1 && Trim(Pad(ps, lead)[0]) == ps[0]
    ensures TrimAll(Pad(ps, lead)) == ps
  {
  }

  lemma TrimPadStep(ps: seq<string>, lead: bool)
    requires |ps| > 1 && Trim(Pad(ps, lead)[0]) == ps[0] && TrimAll(Pad(ps[1..], true)) == ps[1..]
    ensures TrimAll(Pad(ps, lead)) == ps
  {
    PadTail(ps, lead);
    TrimCons(Pad(ps, lead), Pad(ps[1..], true), ps);
  }

  lemma TrimCons(xs: seq<string>, rest: seq<string>, ys: seq<string>)
    requires |xs| > 0 && |ys| > 0 && xs == [xs[0]] + rest
    requires Trim(xs[0]) == ys[0] && TrimAll(rest) == ys[1..]
    ensures TrimAll(xs) == ys
  {
    var t := TrimAll(xs);
    forall i | 0 <= i < |xs| ensures t[i] == ys[i] {
      if i > 0 {
        assert xs[i] == rest[i - 1];
        assert TrimAll(rest)[i - 1] == Trim(rest[i - 1]);
      }
    }
  }

  /** No padded piece holds a bullet. */
  lemma {:induction false} PadNoBullet(ps: seq<string>, lead: bool)
    requires forall i :: 0 <= i < |ps| ==> CleanPart(ps[i])
    ensures forall i :: 0 <= i < |ps| ==> Bullet !in Pad(ps, lead)[i]
    decreases |ps|
  {
    if |ps| > 0 {
      PadHead(ps, lead);
      if |ps| > 1 {
        PadNoBullet(ps[1..], true);
        PadTail(ps, lead);
        NoBulletCons(Pad(ps, lead)[0], Pad(ps[1..], true));
      }
    }
  }

  lemma NoBulletCons(x: string, rest: seq<string>)
    requires Bullet !in x && forall i :: 0 <= i < |rest| ==> Bullet !in rest[i]
    ensures forall i :: 0 <= i < |[x] + rest| ==> Bullet !in ([x] + rest)[i]
  {
  }

  lemma PadTail(ps: seq<string>, lead: bool)
    requires |ps| > 1
    ensures Pad(ps, lead) == [Pad(ps, lead)[0]] + Pad(ps[1..], true)
  {
  }

  /** A note written as clean parts joined with " • " yields exactly those parts. */
  lemma PricePartsJoin(ps: seq<string>)
    requires |ps| > 0 && forall i :: 0 <= i < |ps| ==> CleanPart(ps[i])
    ensures PriceParts(Join(ps, Separator)) == ps
  {
    var pad := Pad(ps, false);
    JoinPad(ps, false);
    assert "" + Join(ps, Separator) == Join(ps, Separator);
    TrimPad(ps, false);
    PadNoBullet(ps, false);
    SplitJoin(pad, Bullet);
    PricePartsOf(Join(ps, Separator), ps);
  }

  /** Reading such a note: a leading "/..." part is the period, the rest are the details. */
  lemma ParseJoined(ps: seq<string>)
    requires |ps| > 0 && forall i :: 0 <= i < |ps| ==> CleanPart(ps[i])
    ensures ParsePriceNote(Some(Join(ps, Separator))) ==
      if StartsWith(ps[0], "/") then PriceMeta(ps[0], Join(ps[1..], Separator)) else PriceMeta("", Join(ps, Separator))
  {
    PricePartsJoin(ps);
    JoinStart(ps, Separator);
    ParseParts(Join(ps, Separator), ps);
  }

  /** The last two branches of `parsePriceNote`, for a note whose cleaned parts are known. */
  lemma ParseParts(note: string, ps: seq<string>)
    requires note != "" && PriceParts(note) == ps && |ps| > 0
    ensures ParsePriceNote(Some(note)) ==
      if StartsWith(ps[0], "/") then PriceMeta(ps[0], Join(ps[1..], Separator)) else PriceMeta("", Join(ps, Separator))
  {
  }

  /**
   * `parsePriceNote` on any note, described by the bullet-separated pieces
   * after trimming: only the first piece that is not blank decides the period;
   * the details are the non-blank pieces after it, or all of them.
   */
  lemma NoteByPieces(note: string)
    ensures var pieces := TrimAll(Split(note, Bullet));
      var j := FindIndex(pieces, NonEmpty);
      var meta := ParsePriceNote(Some(note));
      && (j.None? ==> meta == DefaultMeta)
      && (j.Some? && StartsWith(pieces[j.value], "/") ==>
            meta == PriceMeta(pieces[j.value], Join(Filter(pieces[j.value + 1..], NonEmpty), Separator)))
      && (j.Some? && !StartsWith(pieces[j.value], "/") ==>
            meta == PriceMeta("", Join([pieces[j.value]] + Filter(pieces[j.value + 1..], NonEmpty), Separator)))
  {
    var pieces := TrimAll(Split(note, Bullet));
    var j := FindIndex(pieces, NonEmpty);
    assert PriceParts(note) == Filter(pieces, NonEmpty);
    if note == "" {
      EmptyNoteBlank();
    } else if j.None? {
      FilterNone(pieces, NonEmpty);
    } else {
      FilterFirst(pieces, NonEmpty, j.value);
      ParseParts(note, PriceParts(note));
    }
  }

  /** The empty note splits into one blank piece. */
  lemma EmptyNoteBlank()
    ensures TrimAll(Split("", Bullet)) == [""]
  {
    assert Split("", Bullet) == [""];
    assert Trimmed("");
  }

  /** A join starts with its first part. */
  lemma JoinStart(ps: seq<string>, sep: string)
    requires |ps| > 0
    ensures ps[0] <= Join(ps, sep)
  {
    if |ps| > 1 {
      assert Join(ps, sep) == ps[0] + (sep + Join(ps[1..], sep));
    }
  }

  /**
   * A note without a leading "/..." part yields the period "", which the price
   * box replaces by "/month": such a note is shown as a monthly price.
   */
  lemma NoPeriodShowsMonth(p: Product, note: string)
    requires p.priceNote == Some(note) && PriceParts(note) != [] && !StartsWith(PriceParts(note)[0], "/")
    ensures FeaturedBlockOf(p).period == DefaultPeriod
    ensures FeaturedBlockOf(p).details == Join(PriceParts(note), Separator)
  {
    var ps := PriceParts(note);
    assert note != "";
    ParseParts(note, ps);
    JoinStart(ps, Separator);
    assert |ps[0]| > 0;
    NoPeriodBlock(p, Join(ps, Separator));
  }

  lemma NoPeriodBlock(p: Product, details: string)
    requires ParsePriceNote(p.priceNote) == PriceMeta("", details) && details != ""
    ensures FeaturedBlockOf(p).period == DefaultPeriod && FeaturedBlockOf(p).details == details
  {
  }

  predicate PopularAndAvailable(p: Product) {
    !IsComingSoon(p) && IsMostPopular(p)
  }

  /** The first available most-popular product, else the first available one. */
  function Featured(items: seq<Product>): (r: Option<Product>)
    ensures r.None? <==> forall i :: 0 <= i < |items| ==> IsComingSoon(items[i])
    ensures r.Some? ==> r.value in items && !IsComingSoon(r.value)
    ensures (exists i :: 0 <= i < |items| && PopularAndAvailable(items[i])) ==>
      r.Some? && (exists i :: 0 <= i < |items| && items[i] == r.value && PopularAndAvailable(items[i]) &&
                    forall j :: 0 <= j < i ==> !PopularAndAvailable(items[j]))
    ensures (forall i :: 0 <= i < |items| ==> !PopularAndAvailable(items[i])) && r.Some? ==>
      exists i :: 0 <= i < |items| && items[i] == r.value && forall j :: 0 <= j < i ==> IsComingSoon(items[j])
  {
    var popular := Find(items, PopularAndAvailable);
    if popular.Some? then popular else Find(items, NotComingSoon)
  }

  /** `featured?.slug`. */
  function FeaturedSlug(featured: Option<Product>): Option<string> {
    if featured.Some? then featured.value.slug else None
  }

  /** `items.filter((item) => item.slug !== featured?.slug).slice(0, 4)`. */
  function SecondaryItems(items: seq<Product>, featured: Option<Product>): (r: seq<Product>)
    ensures |r| <= 4
    ensures forall i :: 0 <= i < |r| ==> r[i] in items && r[i].slug != FeaturedSlug(featured)
    ensures featured.Some? ==> featured.value !in r
  {
    var key := FeaturedSlug(featured);
    Take(Filter(items, (p: Product) => p.slug != key), 4)
  }

  /** The secondary products are the first four others, in the order of the list. */
  lemma SecondaryFirstFour(items: seq<Product>, featured: Option<Product>)
    ensures var others := Filter(items, (p: Product) => p.slug != FeaturedSlug(featured));
      SecondaryItems(items, featured) <= others && |SecondaryItems(items, featured)| == Min(4, |others|)
    ensures IsSubsequence(SecondaryItems(items, featured), items)
  {
    var key := FeaturedSlug(featured);
    var keep := (p: Product) => p.slug != key;
    var others := Filter(items, keep);
    FilterOrdered(items, keep);
    PrefixSubsequence(SecondaryItems(items, featured), others, items);
  }

  /** A prefix of a subsequence is a subsequence. */
  lemma {:induction false} PrefixSubsequence<T>(r: seq<T>, s: seq<T>, xs: seq<T>)
    requires r <= s && IsSubsequence(s, xs)
    ensures IsSubsequence(r, xs)
    decreases |xs|
  {
    if |r| > 0 && |xs| > 0 {
      if s[0] == xs[0] {
        PrefixSubsequence(r[1..], s[1..], xs[1..]);
      } else {
        PrefixSubsequence(r, s, xs[1..]);
      }
    }
  }

  /** The featured product's first six features, or the defaults when it lists none. */
  function FeaturedFeatures(featured: Option<Product>): (r: seq<string>)
    ensures 1 <= |r| <= 6
    ensures featured.Some? && featured.value.features.Some? && featured.value.features.value != [] ==>
      r <= featured.value.features.value && |r| == Min(6, |featured.value.features.value|)
    ensures !(featured.Some? && featured.value.features.Some? && featured.value.features.value != []) ==>
      r == DefaultFeatures
  {
    if featured.Some? && featured.value.features.Some? && |featured.value.features.value| > 0 then
      Take(featured.value.features.value, 6)
    else DefaultFeatures
  }

  /** The featured block: title, features, call-to-action and price box. */
  datatype FeaturedBlock = FeaturedBlock(
    product: Product,
    features: seq<string>,
    cta: Option<(string, bool, string)>,
    price: string,
    period: string,
    details: string)

  datatype Showcase = Showcase(featured: Option<FeaturedBlock>, secondary: seq<Card>)

  function FeaturedBlockOf(p: Product): (r: FeaturedBlock)
    ensures r.cta.Some? <==> Truthy(Href(p))
    ensures r.cta.Some? ==> Some(r.cta.value.0) == Href(p) && (r.cta.value.1 <==> StartsWith(r.cta.value.0, "http"))
    ensures r.price != "" && r.period != "" && r.details != ""
    ensures r.features == FeaturedFeatures(Some(p))
    ensures r.price == if Truthy(p.price) then p.price.value else DefaultPrice
    ensures r.cta.Some? ==> r.cta.value.2 == if Truthy(p.ctaText) then p.ctaText.value else "Learn More"
    ensures r.period == (if ParsePriceNote(p.priceNote).period == "" then DefaultPeriod else ParsePriceNote(p.priceNote).period)
    ensures r.details == (if ParsePriceNote(p.priceNote).details == "" then DefaultDetails else ParsePriceNote(p.priceNote).details)
  {
    var href := Href(p);
    var meta := ParsePriceNote(p.priceNote);
    FeaturedBlock(p, FeaturedFeatures(Some(p)),
      if Truthy(href) then Some((href.value, IsExternalLink(href), Or(p.ctaText, Some("Learn More")).value)) else None,
      Or(p.price, Some(DefaultPrice)).value,
      Or(Some(meta.period), Some(DefaultPeriod)).value,
      Or(Some(meta.details), Some(DefaultDetails)).value)
  }

  /** `ProductsShowcase({ items })`: nothing for an empty list. */
  function RenderShowcase(items: seq<Product>): (r: Option<Showcase>)
    ensures r.None? <==> items == []
    ensures r.Some? ==> (r.value.featured.Some? <==> Featured(items).Some?)
    ensures r.Some? && r.value.featured.Some? ==> r.value.featured.value.product == Featured(items).value
    ensures r.Some? ==> |r.value.secondary| == |SecondaryItems(items, Featured(items))| <= 4
    ensures r.Some? ==> forall i :: 0 <= i < |r.value.secondary| ==>
      r.value.secondary[i] == RenderCard(SecondaryItems(items, Featured(items))[i])
  {
    if |items| == 0 then None
    else
      var featured := Featured(items);
      var secondary := SecondaryItems(items, featured);
      Some(Showcase(if featured.Some? then Some(FeaturedBlockOf(featured.value)) else None,
                    seq(|secondary|, i requires 0 <= i < |secondary| => RenderCard(secondary[i]))))
  }
}
