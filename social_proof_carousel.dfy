/**
 * The social-proof carousel: the testimonials that carry a screenshot are cut
 * into slides of seven, each slide dealing its screenshots round-robin into
 * three columns with a fixed pattern of card heights; the slide index wraps
 * around on manual navigation and on the timer.
 */
module SocialProofCarousel {
  import opened Js
  import opened Sequences

  /** An entry of the testimonials collection: its id, title and screenshot URL. */
  datatype Testimonial = Testimonial(id: string, title: string, post: Option<string>)

  datatype Size = Short | Medium | Tall

  datatype ReviewCard = ReviewCard(image: string, alt: string, size: Size)

  datatype Slide = Slide(columns: seq<seq<ReviewCard>>)

  const ItemsPerSlide: nat := 7
  const Sizes: seq<Size> := [Short, Tall, Medium, Short, Short, Tall, Medium]

  /** `items.filter(item => item.data.socialMediaPost)`. */
  predicate HasPost(t: Testimonial) {
    Truthy(t.post)
  }

  function SocialItems(items: seq<Testimonial>): (r: seq<Testimonial>)
    ensures forall i :: 0 <= i < |r| ==> HasPost(r[i]) && r[i] in items
    ensures forall i :: 0 <= i < |items| && HasPost(items[i]) ==> items[i] in r
  {
    Filter(items, HasPost)
  }

  /** The card for the item at position `i` of its slide. */
  function CardFor(item: Testimonial, i: nat): (r: ReviewCard)
    requires HasPost(item)
    ensures r.image == item.post.value && r.image != ""
    ensures r.alt == item.title + " testimonial"
    ensures r.size == Sizes[i % 7]
  {
    ReviewCard(item.post.value, item.title + " testimonial", Sizes[i % |Sizes|])
  }

  /** The card sizes by position: short, tall, medium, short, short, tall, medium. */
  lemma SizePattern(item: Testimonial, i: nat)
    requires HasPost(item)
    ensures CardFor(item, i).size == Tall <==> i % 7 == 1 || i % 7 == 5
    ensures CardFor(item, i).size == Medium <==> i % 7 == 2 || i % 7 == 6
    ensures CardFor(item, i).size == Short <==> i % 7 == 0 || i % 7 == 3 || i % 7 == 4
  {
  }

  /** `Math.ceil(n / 7)`. */
  function SlideCount(n: nat): (r: nat)
    ensures r * ItemsPerSlide >= n
    ensures n > 0 ==> (r - 1) * ItemsPerSlide < n
    ensures n == 0 <==> r == 0
  {
    (n + ItemsPerSlide - 1) / ItemsPerSlide
  }

  /** The items cut into consecutive runs of seven; the last run may be shorter. */
  function Chunks(xs: seq<Testimonial>): (r: seq<seq<Testimonial>>)
    ensures forall s :: 0 <= s < |r| ==> 0 < |r[s]| <= ItemsPerSlide
    decreases |xs|
  {
    if |xs| == 0 then []
    else if |xs| <= ItemsPerSlide then [xs]
    else [xs[..ItemsPerSlide]] + Chunks(xs[ItemsPerSlide..])
  }

  function Flatten(xss: seq<seq<Testimonial>>): seq<Testimonial>
    decreases |xss|
  {
    if |xss| == 0 then [] else xss[0] + Flatten(xss[1..])
  }

  /** The runs put back together are the items, each once and in order. */
  lemma {:induction false} FlattenChunks(xs: seq<Testimonial>)
    ensures Flatten(Chunks(xs)) == xs
    decreases |xs|
  {
    if |xs| > ItemsPerSlide {
      FlattenChunks(xs[ItemsPerSlide..]);
      assert Chunks(xs)[1..] == Chunks(xs[ItemsPerSlide..]);
      assert xs == xs[..ItemsPerSlide] + xs[ItemsPerSlide..];
    } else if |xs| > 0 {
      assert Chunks(xs)[1..] == [];
    }
  }

  /** There are `ceil(n / 7)` runs, and run `s` is `slice(7s, 7s + 7)`. */
  lemma {:induction false} ChunkAt(xs: seq<Testimonial>, s: nat)
    ensures |Chunks(xs)| == SlideCount(|xs|)
    ensures s < |Chunks(xs)| ==> Chunks(xs)[s] == Slice(xs, s * ItemsPerSlide, (s + 1) * ItemsPerSlide)
    decreases |xs|
  {
    if |xs| > ItemsPerSlide {
      var rest := xs[ItemsPerSlide..];
      if s > 0 {
        ChunkAt(rest, s - 1);
        SliceDrop(xs, s);
      } else {
        ChunkAt(rest, 0);
      }
    }
  }

  lemma SliceDrop(xs: seq<Testimonial>, s: nat)
    requires |xs| > ItemsPerSlide && s > 0
    ensures Slice(xs[ItemsPerSlide..], (s - 1) * ItemsPerSlide, s * ItemsPerSlide)
         == Slice(xs, s * ItemsPerSlide, (s + 1) * ItemsPerSlide)
  {
  }

  /**
   * Column `c` of a slide after its first `|chunk|` items were dealt: item `i`
   * goes to column `i % 3`, behind the cards already there.
   */
  function Column(chunk: seq<Testimonial>, c: nat): seq<ReviewCard>
    requires forall i :: 0 <= i < |chunk| ==> HasPost(chunk[i])
    decreases |chunk|
  {
    if |chunk| == 0 then []
    else
      var i := |chunk| - 1;
      Column(chunk[..i], c) + if i % 3 == c then [CardFor(chunk[i], i)] else []
  }

  /** Column `c` holds every third item starting at `c`... */
  lemma {:induction false} ColumnLength(chunk: seq<Testimonial>, c: nat)
    requires c < 3 && forall i :: 0 <= i < |chunk| ==> HasPost(chunk[i])
    ensures |Column(chunk, c)| == (|chunk| + 2 - c) / 3
    decreases |chunk|
  {
    if |chunk| > 0 {
      ColumnLength(chunk[..|chunk| - 1], c);
    }
  }

  /** ...its `k`-th card being the card of item `3k + c`. */
  lemma {:induction false} ColumnAt(chunk: seq<Testimonial>, c: nat, k: nat)
    requires c < 3 && forall i :: 0 <= i < |chunk| ==> HasPost(chunk[i])
    requires k < |Column(chunk, c)|
    ensures 3 * k + c < |chunk| && Column(chunk, c)[k] == CardFor(chunk[3 * k + c], 3 * k + c)
    decreases |chunk|
  {
    var n := |chunk| - 1;
    var prefix := chunk[..n];
    ColumnLength(prefix, c);
    if k < |Column(prefix, c)| {
      ColumnAt(prefix, c, k);
    } else {
      ColumnLength(chunk, c);
      assert 3 * k + c == n;
    }
  }

  /** `{ columns }` for a run of items. */
  function SlideOf(chunk: seq<Testimonial>): (r: Slide)
    requires forall i :: 0 <= i < |chunk| ==> HasPost(chunk[i])
    ensures |r.columns| == 3
  {
    Slide([Column(chunk, 0), Column(chunk, 1), Column(chunk, 2)])
  }

  function SizesOf(cards: seq<ReviewCard>): seq<Size> {
    seq(|cards|, k requires 0 <= k < |cards| => cards[k].size)
  }

  /**
   * A full slide always shows the same masonry: short, short, medium in the
   * first column; tall, short in the second; medium, tall in the third.
   */
  lemma FullSlideSizes(chunk: seq<Testimonial>)
    requires |chunk| == ItemsPerSlide && forall i :: 0 <= i < |chunk| ==> HasPost(chunk[i])
    ensures SizesOf(SlideOf(chunk).columns[0]) == [Short, Short, Medium]
    ensures SizesOf(SlideOf(chunk).columns[1]) == [Tall, Short]
    ensures SizesOf(SlideOf(chunk).columns[2]) == [Medium, Tall]
  {
    ColumnSizes(chunk, 0);
    ColumnSizes(chunk, 1);
    ColumnSizes(chunk, 2);
    FullColumns(Column(chunk, 0), Column(chunk, 1), Column(chunk, 2));
  }

  /** Card `k` of column `c` has the size of position `3k + c`. */
  lemma ColumnSizes(chunk: seq<Testimonial>, c: nat)
    requires c < 3 && forall i :: 0 <= i < |chunk| ==> HasPost(chunk[i])
    ensures |Column(chunk, c)| == (|chunk| + 2 - c) / 3
    ensures forall k :: 0 <= k < |Column(chunk, c)| ==> Column(chunk, c)[k].size == Sizes[(3 * k + c) % 7]
  {
    ColumnLength(chunk, c);
    forall k | 0 <= k < |Column(chunk, c)| ensures Column(chunk, c)[k].size == Sizes[(3 * k + c) % 7] {
      ColumnAt(chunk, c, k);
    }
  }

  lemma FullColumns(c0: seq<ReviewCard>, c1: seq<ReviewCard>, c2: seq<ReviewCard>)
    requires |c0| == 3 && |c1| == 2 && |c2| == 2
    requires forall k :: 0 <= k < |c0| ==> c0[k].size == Sizes[(3 * k) % 7]
    requires forall k :: 0 <= k < |c1| ==> c1[k].size == Sizes[(3 * k + 1) % 7]
    requires forall k :: 0 <= k < |c2| ==> c2[k].size == Sizes[(3 * k + 2) % 7]
    ensures SizesOf(c0) == [Short, Short, Medium]
    ensures SizesOf(c1) == [Tall, Short]
    ensures SizesOf(c2) == [Medium, Tall]
  {
    SizesAre(c0, [Sizes[0], Sizes[3], Sizes[6]], 0);
    SizesAre(c1, [Sizes[1], Sizes[4]], 1);
    SizesAre(c2, [Sizes[2], Sizes[5]], 2);
  }

  lemma SizesAre(col: seq<ReviewCard>, sizes: seq<Size>, c: nat)
    requires |col| == |sizes| && |sizes| <= 3
    requires forall k :: 0 <= k < |col| ==> col[k].size == Sizes[(3 * k + c) % 7]
    requires forall k :: 0 <= k < |sizes| ==> sizes[k] == Sizes[(3 * k + c) % 7]
    ensures SizesOf(col) == sizes
  {
  }

  /** A slide dealt from a non-empty run has a card in its first column. */
  lemma SlideNotEmpty(chunk: seq<Testimonial>)
    requires |chunk| > 0 && forall i :: 0 <= i < |chunk| ==> HasPost(chunk[i])
    ensures |SlideOf(chunk).columns[0]| > 0
  {
    ColumnLength(chunk, 0);
  }

  lemma ChunksHavePosts(xs: seq<Testimonial>, s: nat)
    requires forall i :: 0 <= i < |xs| ==> HasPost(xs[i])
    requires s < |Chunks(xs)|
    ensures forall i :: 0 <= i < |Chunks(xs)[s]| ==> HasPost(Chunks(xs)[s][i])
  {
    ChunkAt(xs, s);
  }

  /** The slides `createSlides(items)` builds: one per run of seven screenshots. */
  function Slides(items: seq<Testimonial>): (r: seq<Slide>)
  {
    var chunks := Chunks(SocialItems(items));
    seq(|chunks|, s requires 0 <= s < |chunks| =>
      ChunksHavePosts(SocialItems(items), s);
      SlideOf(chunks[s]))
  }

  lemma SlidesAt(items: seq<Testimonial>, s: nat)
    requires s < |Chunks(SocialItems(items))|
    ensures |Slides(items)| == |Chunks(SocialItems(items))|
    ensures forall i :: 0 <= i < |Chunks(SocialItems(items))[s]| ==> HasPost(Chunks(SocialItems(items))[s][i])
    ensures Slides(items)[s] == SlideOf(Chunks(SocialItems(items))[s])
  {
    ChunksHavePosts(SocialItems(items), s);
  }

  /** `slideItems.forEach(...)`: deals one run of items into three fresh columns. */
  method Deal(slideItems: seq<Testimonial>) returns (columns: seq<seq<ReviewCard>>)
    requires forall i :: 0 <= i < |slideItems| ==> HasPost(slideItems[i])
    ensures Slide(columns) == SlideOf(slideItems)
  {
    var cols := new seq<ReviewCard>[3](_ => []);
    for i := 0 to |slideItems|
      invariant forall c :: 0 <= c < 3 ==> cols[c] == Column(slideItems[..i], c)
    {
      assert slideItems[..i + 1][..i] == slideItems[..i];
      var colIndex := i % 3;
      cols[colIndex] := cols[colIndex] + [CardFor(slideItems[i], i)];
    }
    assert slideItems[..|slideItems|] == slideItems;
    columns := cols[..];
  }

  lemma SlidesStep(items: seq<Testimonial>, s: nat, slides: seq<Slide>, slide: Slide)
    requires s < |Slides(items)| && slides == Slides(items)[..s] && slide == Slides(items)[s]
    ensures slides + [slide] == Slides(items)[..s + 1]
  {
  }

  /** `createSlides(items)`. */
  method CreateSlides(items: seq<Testimonial>) returns (slides: seq<Slide>)
    ensures slides == Slides(items)
  {
    var social := Filter(items, HasPost);
    if |social| == 0 {
      return [];
    }
    var slideCount := SlideCount(|social|);
    ChunkAt(social, 0);
    slides := [];
    for s := 0 to slideCount
      invariant slides == Slides(items)[..s]
    {
      var slideItems := Slice(social, s * ItemsPerSlide, (s + 1) * ItemsPerSlide);
      ChunkAt(social, s);
      SlidesAt(items, s);
      var columns := Deal(slideItems);
      SlideNotEmpty(slideItems);
      if exists c :: 0 <= c < |columns| && |columns[c]| > 0 {
        SlidesStep(items, s, slides, Slide(columns));
        slides := slides + [Slide(columns)];
      }
    }
  }

  /** No screenshot, no slide; otherwise `ceil(n / 7)` slides of three columns each. */
  lemma SlideShape(items: seq<Testimonial>)
    ensures |Slides(items)| == SlideCount(|SocialItems(items)|)
    ensures Slides(items) == [] <==> SocialItems(items) == []
    ensures forall s :: 0 <= s < |Slides(items)| ==> |Slides(items)[s].columns| == 3
  {
    ChunkAt(SocialItems(items), 0);
  }

  /**
   * Card `k` of column `c` on slide `s` shows screenshot `7s + 3k + c` of the
   * list, sized by its position `3k + c` on the slide.
   */
  lemma SlideCard(items: seq<Testimonial>, s: nat, c: nat, k: nat)
    requires s < |Slides(items)| && c < 3
    requires k < |Slides(items)[s].columns[c]|
    ensures var social := SocialItems(items);
      var j := s * ItemsPerSlide + 3 * k + c;
      3 * k + c < ItemsPerSlide && j < |social| &&
      Slides(items)[s].columns[c][k] == CardFor(social[j], 3 * k + c)
  {
    var social := SocialItems(items);
    var chunk := Chunks(social)[s];
    ChunkAt(social, s);
    SlidesAt(items, s);
    ColumnAt(chunk, c, k);
  }

  /** `goToSlide(index)`: `(index + len) % len` with JavaScript's remainder. */
  function GoToSlide(index: int, len: nat): (r: int)
    requires len > 0
    ensures index >= -(len as int) ==> 0 <= r < len
  {
    Rem(index + len, len)
  }

  /** One step past either end comes back at the other; inside the range nothing moves. */
  lemma GoToSlideWraps(index: int, len: nat)
    requires len > 0 && -(len as int) <= index <= len
    ensures GoToSlide(index, len) == if index < 0 then index + len else if index == len then 0 else index
  {
    if index < 0 {
      ModUnique(index + len, len, 0, index + len);
    } else if index == len {
      ModUnique(index + len, len, 2, 0);
    } else {
      ModUnique(index + len, len, 1, index);
    }
  }

  /** `goNext()`: from the last slide back to the first. */
  function GoNext(current: int, len: nat): (r: int)
    requires len > 0
    ensures 0 <= current < len ==> r == if current == len - 1 then 0 else current + 1
  {
    if 0 <= current < len then
      GoToSlideWraps(current + 1, len);
      GoToSlide(current + 1, len)
    else GoToSlide(current + 1, len)
  }

  /** `goPrev()`: from the first slide round to the last. */
  function GoPrev(current: int, len: nat): (r: int)
    requires len > 0
    ensures 0 <= current < len ==> r == if current == 0 then len - 1 else current - 1
  {
    if 0 <= current < len then
      GoToSlideWraps(current - 1, len);
      GoToSlide(current - 1, len)
    else GoToSlide(current - 1, len)
  }

  /** The arrows undo each other. */
  lemma Navigation(current: int, len: nat)
    requires 0 <= current < len
    ensures GoPrev(GoNext(current, len), len) == current
    ensures GoNext(GoPrev(current, len), len) == current
  {
    GoToSlideWraps(current + 1, len);
    GoToSlideWraps(current - 1, len);
    var next := GoNext(current, len);
    var prev := GoPrev(current, len);
    GoToSlideWraps(next - 1, len);
    GoToSlideWraps(prev + 1, len);
  }

  /** One tick of the seven-second timer; with one slide or none no timer runs. */
  function AutoAdvance(prev: int, len: nat): (r: int)
    ensures len <= 1 ==> r == prev
    ensures len > 1 && prev >= 0 ==> 0 <= r < len
  {
    if len <= 1 then prev else Rem(prev + 1, len)
  }

  /** From a valid index the timer moves exactly like the next arrow. */
  lemma AdvanceIsNext(prev: int, len: nat)
    requires 1 < len && 0 <= prev < len
    ensures AutoAdvance(prev, len) == GoNext(prev, len)
  {
    GoToSlideWraps(prev + 1, len);
    if prev + 1 < len {
      ModUnique(prev + 1, len, 0, prev + 1);
    } else {
      ModUnique(prev + 1, len, 1, 0);
    }
  }

  function Ticks(prev: int, len: nat, k: nat): int
    decreases k
  {
    if k == 0 then prev else AutoAdvance(Ticks(prev, len, k - 1), len)
  }

  /** After `k` ticks the carousel shows slide `(prev + k) % len`: it cycles through every slide. */
  lemma {:induction false} TicksCycle(prev: int, len: nat, k: nat)
    requires 1 < len && 0 <= prev < len
    ensures Ticks(prev, len, k) == (prev + k) % len
    decreases k
  {
    if k == 0 {
      ModUnique(prev, len, 0, prev);
    } else {
      TicksCycle(prev, len, k - 1);
      ModStep(prev + k - 1, len);
    }
  }

  /** After `len` ticks the first slide is back. */
  lemma TicksReturn(prev: int, len: nat)
    requires 1 < len && 0 <= prev < len
    ensures Ticks(prev, len, len) == prev
  {
    TicksCycle(prev, len, len);
    ModUnique(prev + len, len, 1, prev);
  }

  /** What the user can do to the carousel. */
  datatype Event = Next | Prev | Tick

  function Step(current: int, len: nat, e: Event): int
  {
    if len == 0 then current
    else match e
      case Next => GoNext(current, len)
      case Prev => GoPrev(current, len)
      case Tick => AutoAdvance(current, len)
  }

  /** The slide shown after a run of events, starting from `useState(0)`. */
  function Run(len: nat, events: seq<Event>): int
    decreases |events|
  {
    if |events| == 0 then 0 else Step(Run(len, events[..|events| - 1]), len, events[|events| - 1])
  }

  /** Whatever the user and the timer do, the index names an existing slide. */
  lemma {:induction false} RunInRange(len: nat, events: seq<Event>)
    requires len > 0
    ensures 0 <= Run(len, events) < len
    decreases |events|
  {
    if |events| > 0 {
      RunInRange(len, events[..|events| - 1]);
    }
  }
}
