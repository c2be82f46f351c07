# CertifiedBagChasers core, modelled in Dafny

This project models the logic of the CertifiedBagChasers site that stands apart from its markup.

- **Consent-gated script loader.** Third-party scripts are shipped inert, as `<script type="text/plain" data-consent="...">`. Each one is promoted to a live copy once the visitor's cookie-consent record grants its category.
- **Consent reader.** It reads and interprets the `cookie-consent` cookie.
- **Security-header middleware.** It picks one of three header sets by request path: the Partytown sandbox page, any other Partytown file, or every other page.
- **Product templates.** There are three: the product overview card, the pricing table with its most-popular-in-the-middle reordering, and the products showcase with its price-note parser.
- **Testimonial carousel.** It deals social-media posts into slides of seven cards in three columns, and its arrows and timer step the current slide with wrap-around.

## Modules

- **`ScriptManager`** (`script_manager.dfy`): imperative.
  - The page's document is a `Document` object that holds the sequence of its `Dom.Script` elements in document order.
  - A `Dom.Script` element is an object with an attribute list and text content.
  - `EnableScript`, `EnableScriptsForCategory` and `EnableConsentedScripts` mutate the elements and the document.
  - Each is proved against the value-level function `PromoteSet`. The lemmas about `PromoteSet` carry the loader's promises:
    - no duplicate execution;
    - idempotence;
    - one pass per category is one pass for all;
    - exactly one live copy per pending script.
- **`Consent`** (`consent.dfy`): pure functions over an environment.
  - The environment is either "no document" or a browser cookie jar.
  - `JSON.parse` is passed in as a parameter.
- **`SecurityHeaders`** (`security_headers.dfy`): a `Headers` object whose header map `set` updates in place.
  - `SetSecurityHeaders` is proved equal to the map update `Apply` of a per-route table `Policy`.
- **`ProductOverviewCard`, `ProductTable`, `ProductsShowcase`** (`product_overview_card.dfy`, `product_table.dfy`, `products_showcase.dfy`): what each template renders, as data.
  - The reordering in the pricing table is a method on immutable sequences, as the source copies its array.
  - The showcase's price-note parser is proved to recover the parts of any note written as clean parts joined by `" • "`.
- **`SocialProofCarousel`** (`social_proof_carousel.dfy`):
  - `CreateSlides` keeps the source's loop and its column-dealing inner loop (`Deal`). It is proved equal to the function `Slides`, whose slide layout is then characterised card by card.
  - The navigation arithmetic uses JavaScript's `%` (`Js.Rem`). Its wrap-around is proved.
- **`Js`, `Sequences`, `Dom`**: the library semantics the code relies on.
  - `Js` holds truthiness, `||` on optional strings, `startsWith`, `includes`, `trim`, `split`, `join`, `toLowerCase`/`toUpperCase` and `%`.
  - `Sequences` holds `filter`, `find`, `findIndex`, `slice` and `splice`.
  - `Dom` holds `getAttribute`/`setAttribute` on an ordered attribute list.

## Model

| member | source | states |
|---|---|---|
| Consent.GetConsent | src/utils/consent/consent.ts:18-30 | no record without a document; otherwise no record exactly when the lookup throws, finds no (or an empty) cookie, the parse throws or yields `null`; a record returned is exactly what the parser returned for the cookie's value |
| Consent.HasConsentFor | src/utils/consent/consent.ts:35-45 | false without a document; `necessary` always granted in a browser; any other category granted exactly when the record exists and its property is the literal `true` |
| Consent.HasConsented | src/utils/consent/consent.ts:50-53 | true exactly when a consent record is present |
| Consent.HasConsentCookie | src/utils/consent/consent.ts:59-62 | false without a document; otherwise true exactly when `cookie-consent=` occurs somewhere in the raw cookie string |
| Consent.NoDocumentDeniesAll | src/utils/consent/consent.ts:18-62 | during server rendering every query answers "no" |
| Consent.OnlyTrueGrants | src/utils/consent/consent.ts:41-44 | for an object record, a non-necessary category is granted iff its key maps to `true` — no other truthy value grants it |
| Consent.NonObjectGrantsNothing | src/utils/consent/consent.ts:41-44 | a record that is not an object grants nothing but `necessary` |
| Consent.CookieWithoutConsent | src/utils/consent/consent.ts:50-62 | the cookie can be present while `hasConsented` is false (its value does not parse) |
| Dom.SetAttr | src/utils/scriptManager.ts:38 | after `setAttribute(n, v)` the attribute `n` reads `v` and every other attribute reads as before |
| Dom.SetAttrUnique | src/utils/scriptManager.ts:38 | `setAttribute` keeps attribute names unique |
| Dom.Script.SetAttribute | src/utils/scriptManager.ts:38 | the element's attribute list becomes `SetAttr` of the old one; its text is unchanged |
| ScriptManager.GateOf | src/utils/scriptManager.ts:67-69 | an element matches the selector of category `c` iff its `type` is `text/plain` in any ASCII letter case (as an HTML attribute selector on `type` compares) and its `data-consent` is exactly `c`'s name |
| ScriptManager.Promoted | src/utils/scriptManager.ts:36-53 | the live copy has every attribute of the original except `type`, a runnable `type` (`text/partytown` when `data-partytown="true"`, else `text/javascript`), the same text, and matches no gate selector |
| ScriptManager.MarkEnabled | src/utils/scriptManager.ts:56 | the original gains `data-consent-enabled="true"`, keeps every other attribute, its text and its gate |
| ScriptManager.LiveCopy | src/utils/scriptManager.ts:33-53 | the attribute-by-attribute copy built on a fresh element equals `Promoted` of the original |
| ScriptManager.Document.FindBlockedScripts | src/utils/scriptManager.ts:67-70 | returns exactly the document's elements matching the category's selector, in document order |
| ScriptManager.Document.EnableScript | src/utils/scriptManager.ts:26-62 | an already-enabled element is left alone; otherwise it is flagged and, when it is in the document, its live copy is inserted right after it and nothing else changes; a detached element gets only the flag |
| ScriptManager.Document.PromoteAt | src/utils/scriptManager.ts:56-59 | flags the element at position `i` and splices its live copy in at `i + 1` |
| ScriptManager.Document.EnableScriptsForCategory | src/utils/scriptManager.ts:75-90 | the document afterwards is `PromoteSet` of the document before, for that one category, although each insertion shifts later positions during the loop |
| ScriptManager.Document.EnableConsentedScripts | src/utils/scriptManager.ts:96-106 | the document afterwards is `PromoteSet` of the document before, for exactly the categories `hasConsentFor` grants |
| ScriptManager.InitScriptManager | src/utils/scriptManager.ts:111-124 | no effect without a document; deferred (document unchanged) while loading; otherwise one consented pass |
| ScriptManager.ReconcileTwice | src/utils/scriptManager.ts:92-106 | running the pass again with unchanged consent ("on page load and when consent changes") leaves what one pass left |
| ScriptManager.PromoteSetIdempotent | src/utils/scriptManager.ts:27-30 | promoting twice with the same categories equals promoting once: no script is executed twice |
| ScriptManager.SequentialPasses | src/utils/scriptManager.ts:101-105 | a pass for `a` followed by a pass for `b` equals one pass for `a + b` |
| ScriptManager.PassesCommute | src/utils/scriptManager.ts:101-105 | the order in which categories are visited does not change the result |
| ScriptManager.PromoteSetClears | src/utils/scriptManager.ts:28-30 | after a pass no element gated on one of its categories is still pending |
| ScriptManager.PromoteSetLength | src/utils/scriptManager.ts:59 | a pass adds exactly one live copy per pending element, nothing else |
| ScriptManager.PromoteSetNoop | src/utils/scriptManager.ts:80-83 | a document with nothing pending is left unchanged |
| ScriptManager.ConsentedCategories | src/utils/scriptManager.ts:99-105 | the set of categories visited is exactly the set `hasConsentFor` grants |
| SecurityHeaders.RouteOf | src/utils/securityHeaders.ts:2-16 | the exact sandbox path first, then the `/~partytown/` prefix, else a page: the three branches partition all paths |
| SecurityHeaders.Apply | src/utils/securityHeaders.ts:1-33 | afterwards the header names are the old ones plus the branch's, the branch's headers carry its values and every other header keeps its value |
| SecurityHeaders.Headers.Set | src/utils/securityHeaders.ts:4 | `set` replaces or adds exactly one header |
| SecurityHeaders.SetSecurityHeaders | src/utils/securityHeaders.ts:1-33 | the sequence of `set` calls leaves exactly `Apply` of the old headers |
| SecurityHeaders.SandboxHeaders | src/utils/securityHeaders.ts:2-7 | the sandbox page gets its policy and `nosniff`, nothing more |
| SecurityHeaders.ExactMatchFirst | src/utils/securityHeaders.ts:2-8 | the sandbox path also has the Partytown prefix, yet gets the sandbox set, which differs from the Partytown set |
| SecurityHeaders.PartytownHeaders | src/utils/securityHeaders.ts:8-15 | any other Partytown file gets exactly the policy and the three cross-origin headers, with their values |
| SecurityHeaders.PageHeaderNames | src/utils/securityHeaders.ts:16-31 | every other page gets exactly the ten default headers |
| SecurityHeaders.PageHeaderValues | src/utils/securityHeaders.ts:18-31 | with the page policy, `DENY`, `nosniff`, `unsafe-none` and the HSTS value |
| SecurityHeaders.DefaultSrcNone | src/utils/securityHeaders.ts:4-19 | every branch's policy starts with `default-src 'none'` |
| SecurityHeaders.ApplyIdempotent | src/utils/securityHeaders.ts:1-33 | applying the headers twice for one path equals applying them once |
| SecurityHeaders.SetTwice | src/utils/securityHeaders.ts:1-33 | two calls of `setSecurityHeaders` leave what one call leaves |
| SecurityHeaders.SandboxWrites | src/utils/securityHeaders.ts:4-7 | the sandbox branch's `set` calls write exactly its table |
| SecurityHeaders.PartytownWrites | src/utils/securityHeaders.ts:10-15 | the Partytown branch's `set` calls write exactly its table |
| SecurityHeaders.PageWrites | src/utils/securityHeaders.ts:18-31 | the page branch's `set` calls write exactly its table |
| ProductOverviewCard.Href | src/components/LoopComponents/ProductOverviewCard.tsx:31 | the link when it is non-empty, else the url; truthy iff either is |
| ProductOverviewCard.IsExternalLink | src/components/LoopComponents/ProductOverviewCard.tsx:24-25 | a link is external exactly when it is present and starts with `http`; an external link is never empty, so it always renders as a link |
| ProductOverviewCard.IsFree | src/components/LoopComponents/ProductOverviewCard.tsx:33 | free iff the status is `free` or the price spells "free" in any mix of letter case |
| ProductOverviewCard.FreePrice | src/components/LoopComponents/ProductOverviewCard.tsx:33 | the price reads as free iff it is "free" in any mix of letter case |
| ProductOverviewCard.CtaText | src/components/LoopComponents/ProductOverviewCard.tsx:34 | the item's own text when non-empty, else "Join Waitlist" for coming-soon and "Learn More" otherwise; never empty |
| ProductOverviewCard.PriceLineOf | src/components/LoopComponents/ProductOverviewCard.tsx:61-68 | "Price TBA" iff coming soon; "From " iff the title mentions "book" and there is a price; the amount is the price, else "Learn More" |
| ProductOverviewCard.ActionOf | src/components/LoopComponents/ProductOverviewCard.tsx:74-92 | a link button iff there is a link or url, primary iff free, opening a new tab iff external; a disabled button otherwise; both labelled with the CTA text |
| ProductOverviewCard.RenderCard | src/components/LoopComponents/ProductOverviewCard.tsx:40-92 | coming-soon badge iff coming soon; price note shown iff present and not coming soon |
| ProductOverviewCard.ComingSoonHidesPrice | src/components/LoopComponents/ProductOverviewCard.tsx:61-71 | a coming-soon card shows neither price nor note, and its button reads "Join Waitlist" unless overridden |
| ProductOverviewCard.CardNeverBlank | src/components/LoopComponents/ProductOverviewCard.tsx:66-90 | the button label and a shown price are never empty |
| ProductTable.Available | src/components/LoopTemplates/ProductTable.tsx:22-24 | keeps exactly the products that are not coming soon |
| ProductTable.AvailableKeepsOrder | src/components/LoopTemplates/ProductTable.tsx:22-24 | the kept products stay in order, each as many times as it occurs |
| ProductTable.MostPopularIndex | src/components/LoopTemplates/ProductTable.tsx:176 | the first position tagged most-popular, or none iff no product is |
| ProductTable.ReorderWithMostPopularInMiddle | src/components/LoopTemplates/ProductTable.tsx:173-187 | meets `PopularInMiddle`: always a permutation; unchanged below three products, without a most-popular product or with it already second; otherwise the first most-popular product is at index 1 and the rest keep their relative order |
| ProductTable.ReorderDetermined | src/components/LoopTemplates/ProductTable.tsx:173-187 | at most one list meets `PopularInMiddle`, so the reorder's contract fixes its result completely |
| ProductTable.Eyebrow | src/components/LoopTemplates/ProductTable.tsx:45-54 | each of the five labels holds exactly when its rule is the first that applies |
| ProductTable.ButtonVariant | src/components/LoopTemplates/ProductTable.tsx:144 | primary iff most-popular, tertiary iff premium and not most-popular, secondary otherwise |
| ProductTable.CtaOf | src/components/LoopTemplates/ProductTable.tsx:141-162 | a button iff there is a link or url, to that href, new tab iff external, with the CTA text; a second "Learn More" link to the url iff there are both a link and a url |
| ProductTable.RowOf | src/components/LoopTemplates/ProductTable.tsx:110-138 | featured styling iff most-popular; the price iff present, its note iff both are present; the features shown are exactly the product's own, none when it has none |
| ProductTable.RenderTable | src/components/LoopTemplates/ProductTable.tsx:20-35 | nothing iff every product is coming soon; otherwise one row per product of `shown`, which is the available products reordered as `PopularInMiddle` fixes |
| ProductsShowcase.TrimAll | src/components/LoopTemplates/ProductsShowcase.tsx:26 | each part trimmed, position by position |
| ProductsShowcase.PriceParts | src/components/LoopTemplates/ProductsShowcase.tsx:24-27 | every kept part is non-empty, trimmed and free of the bullet |
| ProductsShowcase.ParsePriceNote | src/components/LoopTemplates/ProductsShowcase.tsx:16-47 | the defaults for a missing, empty or all-blank note; the period is empty or starts with "/" |
| ProductsShowcase.NoteByPieces | src/components/LoopTemplates/ProductsShowcase.tsx:16-47 | for any note: the defaults when every bullet-separated piece is blank after trimming; otherwise the first non-blank trimmed piece is the period when it starts with "/" (the details being the non-blank pieces after it), else the period is empty and the details are it and the non-blank pieces after it |
| ProductsShowcase.PricePartsJoin | src/components/LoopTemplates/ProductsShowcase.tsx:24-27 | splitting on the bullet undoes joining clean parts with `" • "` |
| ProductsShowcase.ParseJoined | src/components/LoopTemplates/ProductsShowcase.tsx:36-46 | for a note of clean parts joined with `" • "`, a leading "/..." part becomes the period and the rest the details; otherwise the period is empty and every part is in the details |
| ProductsShowcase.NoPeriodShowsMonth | src/components/LoopTemplates/ProductsShowcase.tsx:43-46 | any note whose first cleaned part does not start with "/" is displayed with the period "/month" — a monthly price, whatever the note says — and all its parts as details |
| ProductsShowcase.Featured | src/components/LoopTemplates/ProductsShowcase.tsx:52-58 | the first available most-popular product, else the first available one, none iff every product is coming soon |
| ProductsShowcase.SecondaryItems | src/components/LoopTemplates/ProductsShowcase.tsx:60-62 | at most four products from the list, none with the featured product's slug |
| ProductsShowcase.SecondaryFirstFour | src/components/LoopTemplates/ProductsShowcase.tsx:60-62 | they are the first four of the others, in list order |
| ProductsShowcase.FeaturedFeatures | src/components/LoopTemplates/ProductsShowcase.tsx:68-71 | the first six of the product's features, or the three defaults when it lists none |
| ProductsShowcase.FeaturedBlockOf | src/components/LoopTemplates/ProductsShowcase.tsx:105-129 | a CTA iff there is an href, new tab iff external; the first six features or the defaults; the price, else "$49"; the parsed period and details, each replaced by its default when empty |
| ProductsShowcase.RenderShowcase | src/components/LoopTemplates/ProductsShowcase.tsx:49-145 | nothing iff the list is empty; a featured block iff a product is available; one overview card per secondary product |
| SocialProofCarousel.SocialItems | src/components/LoopTemplates/SocialProofCarousel.tsx:41 | keeps exactly the testimonials with a post |
| SocialProofCarousel.CardFor | src/components/LoopTemplates/SocialProofCarousel.tsx:64-68 | the card shows the post, "<title> testimonial" and the size of the position in the seven-size pattern |
| SocialProofCarousel.SizePattern | src/components/LoopTemplates/SocialProofCarousel.tsx:50-67 | the card at position `i` is tall exactly when `i mod 7` is 1 or 5, medium exactly when it is 2 or 6, and short exactly when it is 0, 3 or 4 |
| SocialProofCarousel.FullSlideSizes | src/components/LoopTemplates/SocialProofCarousel.tsx:50-69 | a full slide of seven cards shows short, short, medium in its first column, tall, short in its second and medium, tall in its third |
| SocialProofCarousel.ColumnSizes | src/components/LoopTemplates/SocialProofCarousel.tsx:50-69 | column `c` of a slide holds `(n + 2 - c) / 3` cards and card `k` of it has the size of position `3k + c` |
| SocialProofCarousel.SlideCount | src/components/LoopTemplates/SocialProofCarousel.tsx:46-47 | the least number of seven-card slides holding every post |
| SocialProofCarousel.FlattenChunks | src/components/LoopTemplates/SocialProofCarousel.tsx:52-53 | the slides' items, read in order, are all the posts, each once |
| SocialProofCarousel.ChunkAt | src/components/LoopTemplates/SocialProofCarousel.tsx:52-53 | there are `SlideCount` slides and slide `s` holds `slice(7s, 7s + 7)` |
| SocialProofCarousel.ColumnLength | src/components/LoopTemplates/SocialProofCarousel.tsx:62-64 | column `c` gets the ceiling of (items − c) / 3 cards |
| SocialProofCarousel.ColumnAt | src/components/LoopTemplates/SocialProofCarousel.tsx:62-69 | card `k` of column `c` is the card of item `3k + c` |
| SocialProofCarousel.SlideNotEmpty | src/components/LoopTemplates/SocialProofCarousel.tsx:71-74 | a slide built from a non-empty chunk has a non-empty first column, so the "some" test never drops a slide |
| SocialProofCarousel.Deal | src/components/LoopTemplates/SocialProofCarousel.tsx:56-69 | the push loop deals the slide's items into exactly the three columns `SlideOf` describes |
| SocialProofCarousel.CreateSlides | src/components/LoopTemplates/SocialProofCarousel.tsx:39-78 | the loop builds exactly `Slides(items)` |
| SocialProofCarousel.SlideShape | src/components/LoopTemplates/SocialProofCarousel.tsx:43-75 | `SlideCount` slides, none iff no testimonial has a post, three columns each |
| SocialProofCarousel.SlideCard | src/components/LoopTemplates/SocialProofCarousel.tsx:52-69 | card `k` of column `c` on slide `s` shows post `7s + 3k + c` with the size of position `3k + c` |
| SocialProofCarousel.GoToSlide | src/components/LoopTemplates/SocialProofCarousel.tsx:84-86 | for any index from −len up, the result is a valid slide |
| SocialProofCarousel.GoToSlideWraps | src/components/LoopTemplates/SocialProofCarousel.tsx:84-86 | one step before the first slide goes to the last, one after the last to the first, others stay |
| SocialProofCarousel.GoNext | src/components/LoopTemplates/SocialProofCarousel.tsx:88 | from the last slide to the first, otherwise one slide on |
| SocialProofCarousel.GoPrev | src/components/LoopTemplates/SocialProofCarousel.tsx:89 | from the first slide to the last, otherwise one slide back |
| SocialProofCarousel.Navigation | src/components/LoopTemplates/SocialProofCarousel.tsx:88-89 | next and previous undo each other on every slide |
| SocialProofCarousel.AutoAdvance | src/components/LoopTemplates/SocialProofCarousel.tsx:91-98 | no timer with one slide or none; otherwise the next slide, in range |
| SocialProofCarousel.AdvanceIsNext | src/components/LoopTemplates/SocialProofCarousel.tsx:94-96 | a timer tick moves exactly as the next arrow does |
| SocialProofCarousel.TicksCycle | src/components/LoopTemplates/SocialProofCarousel.tsx:94-96 | `k` ticks from slide `p` reach slide `(p + k) mod len` |
| SocialProofCarousel.TicksReturn | src/components/LoopTemplates/SocialProofCarousel.tsx:94-96 | after `len` ticks the carousel is back where it started |
| SocialProofCarousel.RunInRange | src/components/LoopTemplates/SocialProofCarousel.tsx:81-96 | from slide 0, any sequence of arrow clicks and ticks keeps the current slide valid |
| Js.IncludesIff | src/utils/consent/consent.ts:61 | `includes` holds iff the substring occurs at some position |
| Js.SplitJoin | src/components/LoopTemplates/ProductsShowcase.tsx:24-25 | splitting on a separator undoes joining separator-free parts with it |
| Sequences.RemoveAt | src/components/LoopTemplates/ProductTable.tsx:183 | `splice(i, 1)` removes element `i`, closing up the rest |
| Sequences.InsertAt | src/components/LoopTemplates/ProductTable.tsx:184 | `splice(i, 0, x)` puts `x` at `i` and is undone by removing it |
| Sequences.FilterOrdered | src/components/LoopTemplates/ProductTable.tsx:22-24 | `filter` keeps its elements in their original order |

## Left out

- Console logging, the `DOMContentLoaded` listener, the 7-second timer, React state and effects, and all JSX markup and CSS classes are not modelled. The deferred pass of `initScriptManager` is reported by its `deferred` result, and one timer tick is `AutoAdvance`.
- `getCookie` is not part of this model; its outcome is part of the `CookieJar`. `JSON.parse` is a parameter that returns a value or throws.
- JSON numbers are integers.
- `toLowerCase` and `toUpperCase` map ASCII letters only.
- Header names are keys in their given spelling. The case-insensitive matching of the Fetch `Headers` object is not modelled, since the code always uses one spelling per header.
- The document is reduced to its script elements in document order. Other nodes, `nextSibling` of the last child, and the `typeof document` guards inside `enableScriptsForCategory` and `enableConsentedScripts` are not modelled. The missing-document case is modelled in `InitScriptManager` and in `Consent`.
- Running the promoted scripts is not modelled. Each pass assumes that the inserted code changes neither the document's scripts nor the consent cookie.
- An element that is not in the document's sequence stands for a detached one, whose `parentNode` is null. It receives only the flag.
- `newScript.type = …` is modelled as setting the `type` attribute, which is what the property does.
- SocialProofCarousel.GoToSlide: requires at least one slide, and guarantees the range only for indexes from −len up. The component renders nothing without slides, and the arrows only ever pass the current slide ± 1.
- SocialProofCarousel.CardFor: a testimonial's title is a string. A missing title would render as "undefined testimonial" and is not modelled.
- A product's icon, title and description are displayed as given, and this display is not modelled. React `key` props are not modelled either.
- ProductsShowcase.ParsePriceNote: its own contract states only the defaults and the shape of the result; `NoteByPieces` states the result for every note, and `ParseJoined` states it for a note written as clean parts joined with `" • "`.
- In the showcase, when no product is featured or the featured product has no slug, every product without a slug is left out of the secondary list, because `undefined !== undefined` is false. The model keeps this behaviour.
- The long header values are written as concatenations of their directives. They are the same strings as the single literals.
- `items?.length` on a missing list is not modelled; a list is a sequence.
