/**
 * The catalogue carousel: the product list is cut into pages of three,
 * every page after the first is padded with empty placeholder cards, one
 * CSS keyframe rule is generated for every ordered pair of distinct pages,
 * and a page change moves the carousel and names the keyframe to play.
 */
module ProductList {
  import opened Types

  /** Products shown on one page of the carousel. */
  const GroupSize := 3

  /** One card position on a page: a product, or an empty placeholder. */
  datatype Slot<P> = Card(product: P) | Placeholder

  /** The animation name `page{from}to{to}`, shared by a keyframe rule and
      the animation a page change starts. */
  datatype Transition = Transition(from: int, to: int)

  /** A keyframe rule: its name and the leftward shifts (in percent) it
      moves between. */
  datatype Keyframe = Keyframe(name: Transition, startShift: int, endShift: int)

  /** The carousel as rendered from a product list. */
  datatype Layout<P> = Layout(pages: seq<seq<Slot<P>>>, keyframes: seq<Keyframe>, pageCount: nat)

  /** Leftward translation, in percent of the carousel width, that brings
      page `p` into view: each page is one full width further along. */
  function ShiftPercent(p: int): (r: int)
    ensures r == 0 <==> p == 1
    ensures p >= 1 ==> r >= 0
  {
    (p - 1) * 100
  }

  /** Each page is one full width (100 percent) further along than the
      previous one, so later pages are always shifted further. */
  lemma ShiftOrdered(p: int, q: int)
    ensures ShiftPercent(q) - ShiftPercent(p) == (q - p) * 100
    ensures p < q <==> ShiftPercent(p) < ShiftPercent(q)
  {
  }

  /** The keyframe rule named `page{i}to{j}`. */
  function KeyframeFor(i: int, j: int): Keyframe
  {
    Keyframe(Transition(i, j), ShiftPercent(i), ShiftPercent(j))
  }

  // ---------------------------------------------------------------------
  // Grouping into pages

  /** Consecutive groups of three, the last one possibly shorter. */
  function Chunks<P>(s: seq<P>): seq<seq<P>>
    decreases |s|
  {
    if |s| == 0 then []
    else if |s| <= GroupSize then [s]
    else [s[..GroupSize]] + Chunks(s[GroupSize..])
  }

  function Flatten<P>(groups: seq<seq<P>>): seq<P>
    decreases |groups|
  {
    if groups == [] then [] else groups[0] + Flatten(groups[1..])
  }

  /** Cutting a list at a multiple of three cuts its grouping there too. */
  lemma {:induction false} ChunksAppend<P>(a: seq<P>, b: seq<P>)
    requires |a| % GroupSize == 0
    ensures Chunks(a + b) == Chunks(a) + Chunks(b)
    decreases |a|
  {
    if |a| == 0 {
      assert a + b == b;
    } else {
      assert (a + b)[..GroupSize] == a[..GroupSize];
      assert (a + b)[GroupSize..] == a[GroupSize..] + b;
      ChunksAppend(a[GroupSize..], b);
      if |a| == GroupSize {
        assert a[..GroupSize] == a;
        assert a[GroupSize..] == [];
        assert a[GroupSize..] + b == b;
        if |b| == 0 {
          assert a + b == a;
        }
      }
    }
  }

  /** Flushing a buffer of one to three products after whole pages adds
      exactly one page. */
  lemma ChunksFlush<P>(products: seq<P>, start: nat, end: nat)
    requires start % GroupSize == 0 && start < end <= |products| && end - start <= GroupSize
    ensures Chunks(products[..end]) == Chunks(products[..start]) + [products[start..end]]
  {
    assert products[..end] == products[..start] + products[start..end];
    ChunksAppend(products[..start], products[start..end]);
  }

  /** Concatenating the pages in order gives back the product list. */
  lemma {:induction false} FlattenChunks<P>(s: seq<P>)
    ensures Flatten(Chunks(s)) == s
    decreases |s|
  {
    if |s| == 0 {
    } else if |s| <= GroupSize {
      assert Flatten(Chunks(s)) == s + Flatten([]);
    } else {
      FlattenChunks(s[GroupSize..]);
      assert Chunks(s)[1..] == Chunks(s[GroupSize..]);
      assert s == s[..GroupSize] + s[GroupSize..];
    }
  }

  /** Every page holds one to three products, and every page but the last
      holds exactly three. */
  lemma {:induction false} ChunkSizes<P>(s: seq<P>)
    ensures forall i :: 0 <= i < |Chunks(s)| ==> 1 <= |Chunks(s)[i]| <= GroupSize
    ensures forall i :: 0 <= i < |Chunks(s)| - 1 ==> |Chunks(s)[i]| == GroupSize
    decreases |s|
  {
    if |s| > GroupSize {
      ChunkSizes(s[GroupSize..]);
      assert forall i :: 1 <= i < |Chunks(s)| ==> Chunks(s)[i] == Chunks(s[GroupSize..])[i - 1];
    }
  }

  /** The number of pages is the product count divided by three, rounded
      up; an empty list has no pages. */
  lemma {:induction false} ChunkCount<P>(s: seq<P>)
    ensures |Chunks(s)| == CeilDiv(|s|, GroupSize)
    decreases |s|
  {
    if |s| > GroupSize {
      ChunkCount(s[GroupSize..]);
    }
  }

  /** The source's grouping loop: a counter and a buffer, flushed every
      third product and once more at the end if non-empty. */
  method DivideIntoPages<P>(products: seq<P>) returns (dividedList: seq<seq<P>>)
    ensures dividedList == Chunks(products)
  {
    dividedList := [];
    var count := 0;
    var currentList: seq<P> := [];
    ghost var start := 0;
    for k := 0 to |products|
      invariant 0 <= start <= k && start % GroupSize == 0
      invariant count == k - start < GroupSize
      invariant currentList == products[start..k]
      invariant dividedList == Chunks(products[..start])
    {
      currentList := currentList + [products[k]];
      assert currentList == products[start..k + 1];
      count := count + 1;
      if count == GroupSize {
        ChunksFlush(products, start, k + 1);
        dividedList := dividedList + [currentList];
        start := k + 1;
        count := 0;
        currentList := [];
      }
    }
    if |currentList| > 0 {
      ChunksFlush(products, start, |products|);
      dividedList := dividedList + [currentList];
    }
    assert products[..|products|] == products;
  }

  // ---------------------------------------------------------------------
  // Padding a page with placeholders

  /** `slots` shows `group`'s products in order, followed by placeholders up
      to three slots when the page is not the first one. */
  ghost predicate PaddedFrom<P>(slots: seq<Slot<P>>, group: seq<P>, i: int)
  {
    && |slots| == (if i != 0 && |group| < GroupSize then GroupSize else |group|)
    && (forall k :: 0 <= k < |group| ==> slots[k] == Card(group[k]))
    && (forall k :: |group| <= k < |slots| ==> slots[k] == Placeholder)
  }

  /** The cards of page `i`, padded by the source's `while` loop. */
  method PadGroup<P>(group: seq<P>, i: int) returns (slots: seq<Slot<P>>)
    ensures PaddedFrom(slots, group, i)
  {
    slots := [];
    for k := 0 to |group|
      invariant |slots| == k
      invariant forall m :: 0 <= m < k ==> slots[m] == Card(group[m])
    {
      slots := slots + [Card(group[k])];
    }
    while |slots| < GroupSize && i != 0
      invariant |group| <= |slots| <= (if i != 0 && |group| < GroupSize then GroupSize else |group|)
      invariant forall m :: 0 <= m < |group| ==> slots[m] == Card(group[m])
      invariant forall m :: |group| <= m < |slots| ==> slots[m] == Placeholder
      decreases GroupSize - |slots|
    {
      slots := slots + [Placeholder];
    }
  }

  /** Pages of a grouped list: every page after the first has exactly three
      slots, and the first page has no placeholder. */
  lemma PaddedPageShape<P>(s: seq<P>, slots: seq<Slot<P>>, i: int)
    requires 0 <= i < |Chunks(s)|
    requires PaddedFrom(slots, Chunks(s)[i], i)
    ensures i != 0 ==> |slots| == GroupSize
    ensures i == 0 ==> forall k :: 0 <= k < |slots| ==> slots[k].Card?
  {
    ChunkSizes(s);
  }

  // ---------------------------------------------------------------------
  // Keyframe rules, one per ordered pair of distinct pages

  /** The rules `page{i}to{j}` for j = from..n, skipping j = i. */
  function Row(i: int, from: int, n: int): seq<Keyframe>
    decreases n - from
  {
    if from > n then []
    else (if from == i then [] else [KeyframeFor(i, from)]) + Row(i, from + 1, n)
  }

  /** The rules for source pages i..n, in the source's loop order. */
  function Table(i: int, n: int): seq<Keyframe>
    decreases n - i
  {
    if i > n then [] else Row(i, 1, n) + Table(i + 1, n)
  }

  function AllKeyframes(n: nat): seq<Keyframe>
  {
    Table(1, n)
  }

  lemma RowStep(i: int, j: int, n: int)
    requires j <= n
    ensures Row(i, j, n) == (if j == i then [] else [KeyframeFor(i, j)]) + Row(i, j + 1, n)
  {
  }

  lemma TableStep(i: int, n: int)
    requires i <= n
    ensures Table(i, n) == Row(i, 1, n) + Table(i + 1, n)
  {
  }

  /** The source's two nested loops with `continue` on i == j. */
  method GenerateKeyframes(pageCount: nat) returns (animationArr: seq<Keyframe>)
    ensures animationArr == AllKeyframes(pageCount)
  {
    animationArr := [];
    var i := 1;
    while i <= pageCount
      invariant 1 <= i <= pageCount + 1
      invariant animationArr + Table(i, pageCount) == AllKeyframes(pageCount)
    {
      ghost var before := animationArr;
      var j := 1;
      while j <= pageCount
        invariant 1 <= j <= pageCount + 1
        invariant animationArr + Row(i, j, pageCount) == before + Row(i, 1, pageCount)
      {
        RowStep(i, j, pageCount);
        if i == j {
          j := j + 1;
          continue;
        }
        animationArr := animationArr + [KeyframeFor(i, j)];
        j := j + 1;
      }
      assert Row(i, j, pageCount) == [];
      assert animationArr == before + Row(i, 1, pageCount);
      TableStep(i, pageCount);
      i := i + 1;
    }
    assert Table(i, pageCount) == [];
  }

  lemma {:induction false} RowLength(i: int, from: int, n: int)
    requires 1 <= i <= n && 1 <= from <= n + 1
    ensures |Row(i, from, n)| == (n - from + 1) - (if from <= i then 1 else 0)
    decreases n - from
  {
    if from <= n {
      RowLength(i, from + 1, n);
    }
  }

  lemma {:induction false} TableLength(i: int, n: int)
    requires 1 <= i <= n + 1
    ensures |Table(i, n)| == (n - i + 1) * (n - 1)
    decreases n - i
  {
    if i <= n {
      RowLength(i, 1, n);
      TableLength(i + 1, n);
      assert (n - i + 1) * (n - 1) == (n - 1) + (n - i) * (n - 1);
    }
  }

  /** pages * (pages - 1) keyframe rules in all. */
  lemma KeyframeCount(n: nat)
    ensures |AllKeyframes(n)| == n * (n - 1)
  {
    TableLength(1, n);
  }

  lemma {:induction false} RowMembers(i: int, from: int, n: int, kf: Keyframe)
    ensures kf in Row(i, from, n) <==> (kf.name.from == i && from <= kf.name.to <= n && kf.name.to != i && kf == KeyframeFor(i, kf.name.to))
    decreases n - from
  {
    if from <= n {
      RowMembers(i, from + 1, n, kf);
    }
  }

  lemma {:induction false} TableMembers(i: int, n: int, kf: Keyframe)
    ensures kf in Table(i, n) <==> (i <= kf.name.from <= n && 1 <= kf.name.to <= n && kf.name.from != kf.name.to && kf == KeyframeFor(kf.name.from, kf.name.to))
    decreases n - i
  {
    if i <= n {
      RowMembers(i, 1, n, kf);
      TableMembers(i + 1, n, kf);
    }
  }

  /** The generated rules are exactly `page{i}to{j}` for distinct pages i, j
      in 1..n, each moving from page i's shift to page j's. */
  lemma KeyframesExactly(n: nat, kf: Keyframe)
    ensures kf in AllKeyframes(n) <==>
      && 1 <= kf.name.from <= n && 1 <= kf.name.to <= n
      && kf.name.from != kf.name.to
      && kf.startShift == ShiftPercent(kf.name.from) && kf.endShift == ShiftPercent(kf.name.to)
  {
    TableMembers(1, n, kf);
  }

  // ---------------------------------------------------------------------
  // The rendered layout and the page state

  /** The component body: nothing at all for a missing product list, else
      the padded pages, the keyframe rules and the pager's page count. */
  method Render<P>(products: Option<seq<P>>) returns (layout: Option<Layout<P>>)
    ensures products.None? <==> layout.None?
    ensures products.Some? ==>
      var groups := Chunks(products.value);
      && layout.value.pageCount == |groups| == CeilDiv(|products.value|, GroupSize)
      && |layout.value.pages| == |groups|
      && (forall i :: 0 <= i < |groups| ==> PaddedFrom(layout.value.pages[i], groups[i], i))
      && (forall i :: 1 <= i < |groups| ==> |layout.value.pages[i]| == GroupSize)
      && layout.value.keyframes == AllKeyframes(|groups|)
  {
    if products.None? {
      return None;
    }
    var s := products.value;
    var groups := DivideIntoPages(s);
    ChunkCount(s);
    ChunkSizes(s);
    var keyframes := GenerateKeyframes(|groups|);
    var pages: seq<seq<Slot<P>>> := [];
    for i := 0 to |groups|
      invariant |pages| == i
      invariant forall m :: 0 <= m < i ==> PaddedFrom(pages[m], groups[m], m)
    {
      var slots := PadGroup(groups[i], i);
      pages := pages + [slots];
    }
    layout := Some(Layout(pages, keyframes, |groups|));
  }

  /** A page change names the keyframe `page{from}to{to}`; the rule with
      that name exists exactly when both pages exist and differ. */
  lemma TransitionHasKeyframe(n: nat, from: int, to: int)
    ensures KeyframeFor(from, to) in AllKeyframes(n) <==> 1 <= from <= n && 1 <= to <= n && from != to
  {
    KeyframesExactly(n, KeyframeFor(from, to));
  }

  /** The carousel's own state: the page shown and the animation last
      started. */
  class ProductListView {
    var currentPage: int
    var startAnimation: Option<Transition>

    constructor ()
      ensures currentPage == 1 && startAnimation == None
    {
      currentPage := 1;
      startAnimation := None;
    }

    /** Shift applied to every page for the page now shown. */
    function Shift(): (r: int)
      reads this
      ensures r == 0 <==> currentPage == 1
    {
      ShiftPercent(currentPage)
    }

    /** `handleChange`: show page `value` and play `page{old}to{value}`. */
    method HandleChange(value: int)
      modifies this
      ensures currentPage == value
      ensures startAnimation == Some(Transition(old(currentPage), value))
      ensures KeyframeFor(old(currentPage), value).endShift == Shift()
    {
      var previous := currentPage;
      currentPage := value;
      startAnimation := Some(Transition(previous, value));
    }
  }
}
