/**
 * What the two Portfolio sections share: the catalogue item record, the
 * `filteredItems` expression, and the section's `activeCategory` and
 * `isVisible` state with its one-shot reveal latch.
 */
module PortfolioFilter {

  /** The button that shows the whole catalogue. */
  const AllCategory := "All"

  datatype MediaKind = Video | Image

  /** One catalogue entry; `src` is the media path (`src` in one site, `image` in the other). */
  datatype Item<Id> = Item(id: Id, title: string, category: string, description: string,
                           src: string, kind: MediaKind)

  /** `a` can be obtained from `b` by deleting elements, so `a` keeps `b`'s order. */
  predicate IsSubsequence<T(==)>(a: seq<T>, b: seq<T>)
    decreases |b|
  {
    if a == [] then true
    else if b == [] then false
    else if a[0] == b[0] then IsSubsequence(a[1..], b[1..])
    else IsSubsequence(a, b[1..])
  }

  /** `items.filter((item) => item.category === category)`. */
  function ByCategory<Id(==)>(items: seq<Item<Id>>, category: string): (r: seq<Item<Id>>)
    ensures |r| <= |items|
    ensures forall i :: 0 <= i < |r| ==> r[i].category == category
    ensures forall x | x in r :: x in items
    ensures forall x {:trigger x in r} | x in items && x.category == category :: x in r
    ensures IsSubsequence(r, items)
  {
    if items == [] then []
    else
      assert items == [items[0]] + items[1..];
      if items[0].category == category then [items[0]] + ByCategory(items[1..], category)
      else ByCategory(items[1..], category)
  }

  /** The `filteredItems` expression for the selected category. */
  function Filtered<Id(==)>(items: seq<Item<Id>>, active: string): (r: seq<Item<Id>>)
    ensures active == AllCategory ==> r == items
    ensures IsSubsequence(r, items)
    ensures active != AllCategory ==> forall i :: 0 <= i < |r| ==> r[i].category == active
    ensures forall x | x in r :: x in items
    ensures forall x {:trigger x in r} | x in items && (active == AllCategory || x.category == active) :: x in r
  {
    if active == AllCategory then
      SubsequenceOfItself(items);
      items
    else ByCategory(items, active)
  }

  /**
   * The filter keeps every copy of a matching item and drops every other item:
   * with `IsSubsequence`, the result is exactly the matching items in catalogue order.
   */
  lemma {:induction false} ByCategoryCounts<Id>(items: seq<Item<Id>>, category: string, x: Item<Id>)
    ensures multiset(ByCategory(items, category))[x]
            == if x.category == category then multiset(items)[x] else 0
    decreases |items|
  {
    if items != [] {
      assert items == [items[0]] + items[1..];
      ByCategoryCounts(items[1..], category, x);
    }
  }

  lemma {:induction false} SubsequenceOfItself<T>(s: seq<T>)
    ensures IsSubsequence(s, s)
    decreases |s|
  {
    if s != [] {
      SubsequenceOfItself(s[1..]);
    }
  }

  /** No item matches a category that no item carries: the result is empty, not an error. */
  lemma {:induction false} UnusedCategoryIsEmpty<Id>(items: seq<Item<Id>>, category: string)
    requires forall i :: 0 <= i < |items| ==> items[i].category != category
    ensures ByCategory(items, category) == []
    decreases |items|
  {
    if items != [] {
      UnusedCategoryIsEmpty(items[1..], category);
    }
  }

  /** Filtering distributes over concatenation. */
  lemma {:induction false} ByCategoryAppend<Id>(a: seq<Item<Id>>, b: seq<Item<Id>>, category: string)
    ensures ByCategory(a + b, category) == ByCategory(a, category) + ByCategory(b, category)
    decreases |a|
  {
    if a == [] {
      assert a + b == b;
    } else {
      assert (a + b)[0] == a[0];
      assert (a + b)[1..] == a[1..] + b;
      ByCategoryAppend(a[1..], b, category);
    }
  }

  /** A run of items all of `category` passes the filter whole. */
  lemma {:induction false} ByCategoryKeepsRun<Id>(items: seq<Item<Id>>, category: string)
    requires forall i :: 0 <= i < |items| ==> items[i].category == category
    ensures ByCategory(items, category) == items
    decreases |items|
  {
    if items != [] {
      ByCategoryKeepsRun(items[1..], category);
    }
  }

  /** When the items of `category` are exactly `items[lo..hi]`, the filter returns that run. */
  lemma RunFilter<Id>(items: seq<Item<Id>>, category: string, lo: nat, hi: nat)
    requires lo <= hi <= |items|
    requires forall i :: lo <= i < hi ==> items[i].category == category
    requires forall i :: 0 <= i < lo ==> items[i].category != category
    requires forall i :: hi <= i < |items| ==> items[i].category != category
    ensures ByCategory(items, category) == items[lo..hi]
  {
    var before, run, after := items[..lo], items[lo..hi], items[hi..];
    assert items == (before + run) + after;
    assert ByCategory(items, category) == ByCategory(before, category) + ByCategory(run, category)
                                          + ByCategory(after, category) by {
      ByCategoryAppend(before + run, after, category);
      ByCategoryAppend(before, run, category);
    }
    assert ByCategory(before, category) == [] by {
      UnusedCategoryIsEmpty(before, category);
    }
    assert ByCategory(run, category) == run by {
      ByCategoryKeepsRun(run, category);
    }
    assert ByCategory(after, category) == [] by {
      UnusedCategoryIsEmpty(after, category);
    }
  }

  /** The filters over `categories`, concatenated in that order. */
  function Buckets<Id(==)>(items: seq<Item<Id>>, categories: seq<string>): seq<Item<Id>>
  {
    if categories == [] then []
    else ByCategory(items, categories[0]) + Buckets(items, categories[1..])
  }

  lemma FourBuckets<Id>(items: seq<Item<Id>>, a: string, b: string, c: string, d: string)
    ensures Buckets(items, [a, b, c, d])
            == ByCategory(items, a) + (ByCategory(items, b) + (ByCategory(items, c) + ByCategory(items, d)))
  {
    assert [a, b, c, d][1..] == [b, c, d];
    assert [b, c, d][1..] == [c, d];
    assert [c, d][1..] == [d];
    assert [d][1..] == [];
    assert Buckets(items, [d]) == ByCategory(items, d) + [];
    assert Buckets(items, [c, d]) == ByCategory(items, c) + Buckets(items, [d]);
    assert Buckets(items, [b, c, d]) == ByCategory(items, b) + Buckets(items, [c, d]);
  }

  predicate Distinct<T(==)>(s: seq<T>)
  {
    forall i, j :: 0 <= i < j < |s| ==> s[i] != s[j]
  }

  /** Over distinct categories an item falls in as many buckets as its category is listed: once or never. */
  lemma {:induction false} BucketsCount<Id>(items: seq<Item<Id>>, categories: seq<string>, x: Item<Id>)
    requires Distinct(categories)
    ensures multiset(Buckets(items, categories))[x]
            == if x.category in categories then multiset(items)[x] else 0
    decreases |categories|
  {
    if categories != [] {
      BucketsCount(items, categories[1..], x);
      ByCategoryCounts(items, categories[0], x);
      assert x.category in categories <==> x.category == categories[0] || x.category in categories[1..];
      assert x.category == categories[0] ==> x.category !in categories[1..];
    }
  }

  /** When the categories are distinct and cover every item, the buckets are a permutation of the catalogue. */
  lemma BucketsArePermutation<Id>(items: seq<Item<Id>>, categories: seq<string>)
    requires Distinct(categories)
    requires forall i :: 0 <= i < |items| ==> items[i].category in categories
    ensures multiset(Buckets(items, categories)) == multiset(items)
  {
    var buckets := Buckets(items, categories);
    forall x
      ensures multiset(buckets)[x] == multiset(items)[x]
    {
      BucketsCount(items, categories, x);
      if x in items {
        var i :| 0 <= i < |items| && items[i] == x;
        assert x.category in categories;
      } else {
        assert multiset(items)[x] == 0;
      }
    }
    MultisetsAgree(multiset(buckets), multiset(items));
  }

  lemma MultisetsAgree<T>(a: multiset<T>, b: multiset<T>)
    requires forall x :: a[x] == b[x]
    ensures a == b
  {
  }

  /** The items of `category` form one unbroken run of `items`. */
  predicate Contiguous<Id>(items: seq<Item<Id>>, category: string)
  {
    forall i, j, k ::
      (0 <= i < j < k < |items| && items[i].category == category && items[k].category == category)
      ==> items[j].category == category
  }

  /**
   * The value of `isVisible` after the IntersectionObserver has delivered
   * `events`, each telling whether the section is intersecting the viewport.
   */
  function RevealAfter(visible: bool, events: seq<bool>): bool
    decreases |events|
  {
    if events == [] then visible else RevealAfter(visible || events[0], events[1..])
  }

  /** Once revealed, the section stays revealed whatever events follow. */
  lemma {:induction false} RevealedStaysRevealed(events: seq<bool>)
    ensures RevealAfter(true, events)
    decreases |events|
  {
    if events != [] {
      RevealedStaysRevealed(events[1..]);
    }
  }

  /** From hidden, the section is revealed exactly when some event reports an intersection. */
  lemma {:induction false} RevealedIffIntersected(events: seq<bool>)
    ensures RevealAfter(false, events) <==> true in events
    decreases |events|
  {
    if events != [] {
      if events[0] {
        RevealedStaysRevealed(events[1..]);
      } else {
        RevealedIffIntersected(events[1..]);
        assert true in events <==> true in events[1..];
      }
    }
  }

  /** Delivering events in two batches is the same as delivering them at once. */
  lemma {:induction false} RevealComposes(visible: bool, first: seq<bool>, second: seq<bool>)
    ensures RevealAfter(visible, first + second) == RevealAfter(RevealAfter(visible, first), second)
    decreases |first|
  {
    if first == [] {
      assert first + second == second;
    } else {
      assert (first + second)[0] == first[0];
      assert (first + second)[1..] == first[1..] + second;
      RevealComposes(visible || first[0], first[1..], second);
    }
  }

  /** A Portfolio section's React state: the selected filter button and the reveal latch. */
  class PortfolioSection<Id(==)> {
    const catalogue: seq<Item<Id>>
    var activeCategory: string
    var isVisible: bool

    /** `useState(false)` and `useState("All")`. */
    constructor (catalogue: seq<Item<Id>>)
      ensures this.catalogue == catalogue
      ensures activeCategory == AllCategory && !isVisible
    {
      this.catalogue := catalogue;
      activeCategory := AllCategory;
      isVisible := false;
    }

    /** The items the grid renders. */
    function FilteredItems(): (r: seq<Item<Id>>)
      reads this
      ensures activeCategory == AllCategory ==> r == catalogue
      ensures IsSubsequence(r, catalogue)
      ensures activeCategory != AllCategory ==>
                forall i :: 0 <= i < |r| ==> r[i].category == activeCategory
      ensures forall x {:trigger x in r} | x in catalogue && (activeCategory == AllCategory || x.category == activeCategory) :: x in r
    {
      Filtered(catalogue, activeCategory)
    }

    /** A category button's `onClick`. */
    method SelectCategory(category: string)
      modifies this
      ensures activeCategory == category
      ensures isVisible == old(isVisible)
    {
      activeCategory := category;
    }

    /** The observer callback: an intersecting entry sets `isVisible`, nothing ever clears it. */
    method OnIntersection(isIntersecting: bool)
      modifies this
      ensures isVisible == RevealAfter(old(isVisible), [isIntersecting])
      ensures old(isVisible) ==> isVisible
      ensures activeCategory == old(activeCategory)
    {
      if isIntersecting {
        isVisible := true;
      }
    }
  }
}
