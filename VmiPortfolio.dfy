/** The Portfolio section of the English-only site: eight items in four categories of two. */
module VmiPortfolio {
  import opened PortfolioFilter

  /** The filter buttons, in the order they are rendered. */
  const Categories: seq<string> := ["All", "AR", "Music", "Events", "Web"]

  const Items: seq<Item<int>> := [
    Item(1, "AR Filter Campaign", "AR", "Interactive AR filter for social media engagement",
         "/images/portfolio/ar-1.jpg", Video),
    Item(2, "AR Brand Experience", "AR", "Immersive brand activation using augmented reality",
         "/images/portfolio/ar-2.jpg", Video),
    Item(3, "Music Video Promotion", "Music", "Viral marketing campaign for independent artist",
         "/images/portfolio/music-1.jpg", Video),
    Item(4, "Album Launch Campaign", "Music", "Strategic release campaign for new album",
         "/images/portfolio/music-2.jpg", Video),
    Item(5, "Corporate Event", "Events", "Full-scale corporate event management",
         "/images/portfolio/event-1.jpg", Image),
    Item(6, "Product Launch Event", "Events", "Exclusive product launch experience",
         "/images/portfolio/event-2.jpg", Image),
    Item(7, "E-commerce Website", "Web", "Modern e-commerce platform development",
         "/images/portfolio/web-1.jpg", Image),
    Item(8, "Corporate Website", "Web", "Professional corporate web presence",
         "/images/portfolio/web-2.jpg", Image)
  ]

  /** The grid's `transitionDelay` for the card at `index`, in milliseconds. */
  function CardDelay(index: nat): (ms: nat)
    ensures ms >= 300
    ensures ms % 100 == 0 && ms / 100 == index + 3
  {
    index * 100 + 300
  }

  /** Later cards start later. */
  lemma CardDelayIncreasing(i: nat, j: nat)
    requires i < j
    ensures CardDelay(i) < CardDelay(j)
  {
  }

  /** The filter buttons are distinct (they are the React keys) and "All" comes first. */
  lemma CategoriesAreDistinct()
    ensures Distinct(Categories) && Categories[0] == AllCategory
  {
  }

  /** "All" shows the eight items with ids 1 to 8, in that order. */
  lemma AllShowsCatalogue()
    ensures Filtered(Items, AllCategory) == Items
    ensures |Items| == 8 && forall i :: 0 <= i < |Items| ==> Items[i].id == i + 1
  {
    var shown := Filtered(Items, AllCategory);
    assert shown == Items;
    assert |Items| == 8 && forall i :: 0 <= i < |Items| ==> Items[i].id == i + 1 by {
      CatalogueRuns();
    }
  }

  /** The catalogue is four runs of two: AR, Music, Events, Web. */
  lemma CatalogueRuns()
    ensures |Items| == 8
    ensures forall i :: 0 <= i < 2 ==> Items[i].category == "AR"
    ensures forall i :: 2 <= i < 4 ==> Items[i].category == "Music"
    ensures forall i :: 4 <= i < 6 ==> Items[i].category == "Events"
    ensures forall i :: 6 <= i < 8 ==> Items[i].category == "Web"
  {
  }

  /** The AR button shows the two AR items. */
  lemma ArResult()
    ensures Filtered(Items, "AR") == Items[0..2]
  {
    CatalogueRuns();
    RunFilter(Items, "AR", 0, 2);
  }

  /** The Music button shows the two music items. */
  lemma MusicResult()
    ensures Filtered(Items, "Music") == Items[2..4]
  {
    CatalogueRuns();
    RunFilter(Items, "Music", 2, 4);
  }

  /** The Events button shows the two event items. */
  lemma EventsResult()
    ensures Filtered(Items, "Events") == Items[4..6]
  {
    CatalogueRuns();
    RunFilter(Items, "Events", 4, 6);
  }

  /** The Web button shows the two website items. */
  lemma WebResult()
    ensures Filtered(Items, "Web") == Items[6..8]
  {
    CatalogueRuns();
    RunFilter(Items, "Web", 6, 8);
  }

  /**
   * Concatenating the results of the category buttons, in button order, gives
   * back the whole catalogue.
   */
  lemma BucketsRebuildCatalogue()
    ensures Buckets(Items, Categories[1..]) == Items
  {
    assert Categories[1..] == ["AR", "Music", "Events", "Web"];
    FourBuckets(Items, "AR", "Music", "Events", "Web");
    ArResult();
    MusicResult();
    EventsResult();
    WebResult();
    CatalogueIsFourRuns();
  }

  lemma CatalogueIsFourRuns()
    ensures Items == Items[0..2] + (Items[2..4] + (Items[4..6] + Items[6..8]))
  {
  }

  /** Each category's items form one unbroken run of the catalogue. */
  lemma CategoriesAreRuns()
    ensures forall c :: c in Categories[1..] ==> Contiguous(Items, c)
  {
    CatalogueRuns();
  }

  /** Every item lands in exactly one category's bucket. */
  lemma EachItemInOneBucket()
    ensures forall i :: 0 <= i < |Items| ==> multiset(Categories[1..])[Items[i].category] == 1
    ensures multiset(Buckets(Items, Categories[1..])) == multiset(Items)
  {
    CatalogueRuns();
    assert Categories[1..] == ["AR", "Music", "Events", "Web"];
    CategoriesAreDistinct();
    assert Distinct(Categories[1..]);
    BucketsArePermutation(Items, Categories[1..]);
  }
}
