/** The Portfolio section of the localized site: its catalogue, filter buttons and card delays. */
module Portfolio {
  import opened PortfolioFilter

  /** The filter buttons, in the order they are rendered. */
  const Categories: seq<string> := ["All", "AR", "Music Marketing", "Event Organize", "Website Creation"]

  const Items: seq<Item<string>> := [
    Item("ar-1", "AR Experience 01", "AR", "Immersive AR Brand Activation", "/AR/video_01.mp4", Video),
    Item("ar-2", "AR Experience 02", "AR", "Interactive Social Media Filter", "/AR/video_02.mp4", Video),
    Item("ar-3", "AR Experience 03", "AR", "Product Visualization", "/AR/video_03.mp4", Video),
    Item("ar-4", "AR Experience 04", "AR", "Creative AR Campaign", "/AR/video_04.mp4", Video),
    Item("music-1", "Music Campaign 01", "Music Marketing", "Viral Music Video Promotion",
         "/Music_Marketing/video_01.mp4", Video),
    Item("music-2", "Music Campaign 02", "Music Marketing", "Artist Branding Strategy",
         "/Music_Marketing/video_02.mp4", Video),
    Item("music-3", "Music Campaign 03", "Music Marketing", "Album Launch Event",
         "/Music_Marketing/video_03.mp4", Video),
    Item("music-4", "Music Campaign 04", "Music Marketing", "Digital Streaming Campaign",
         "/Music_Marketing/video_04.mp4", Video),
    Item("music-5", "Music Campaign 05", "Music Marketing", "Fan Engagement Activity",
         "/Music_Marketing/video_05.mp4", Video),
    Item("music-6", "Music Campaign 06", "Music Marketing", "Cross-platform Promotion",
         "/Music_Marketing/video_06.mp4", Video),
    Item("music-7", "Music Campaign 07", "Music Marketing", "Integrated Marketing Strategy",
         "/Music_Marketing/video_07.mp4", Video),
    Item("event-1", "Event Job 01", "Event Organize", "Corporate Seminar & Workshop",
         "/Event_Organize/Job_01/image_01.jpg", Image),
    Item("event-2", "Event Job 02", "Event Organize", "Exclusive Product Launch",
         "/Event_Organize/Job_02/image_01.jpg", Image)
  ]

  /** The grid's `transitionDelay` for the card at `index`, in milliseconds. */
  function CardDelay(index: nat): (ms: nat)
    ensures ms % 50 == 0 && ms / 50 == index
  {
    index * 50
  }

  /** Later cards start later. */
  lemma CardDelayIncreasing(i: nat, j: nat)
    requires i < j
    ensures CardDelay(i) < CardDelay(j)
  {
  }

  /** The filter buttons are distinct (they are the React keys) and "All" comes first. */
  lemma CategoriesAreDistinct()
    ensures Distinct(Categories) && Categories[0] == AllCategory
  {
  }

  /** Every item is reachable from some filter button. */
  lemma EveryCategoryIsListed()
    ensures forall i :: 0 <= i < |Items| ==> Items[i].category in Categories[1..]
  {
  }

  /** Item ids are unique (they are the React keys of the grid). */
  lemma IdsAreUnique()
    ensures forall i, j :: 0 <= i < j < |Items| ==> Items[i].id != Items[j].id
  {
  }

  /** "All" shows the whole catalogue, in catalogue order. */
  lemma AllShowsCatalogue()
    ensures Filtered(Items, AllCategory) == Items && |Items| == 13
  {
  }

  /** The catalogue is three runs: AR, then Music Marketing, then Event Organize. */
  lemma CatalogueRuns()
    ensures Items == Items[..4] + Items[4..11] + Items[11..]
    ensures forall i :: 0 <= i < 4 ==> Items[i].category == "AR"
    ensures forall i :: 4 <= i < 11 ==> Items[i].category == "Music Marketing"
    ensures forall i :: 11 <= i < 13 ==> Items[i].category == "Event Organize"
  {
  }

  /** The AR button shows the four AR items, in catalogue order. */
  lemma ArResult()
    ensures Filtered(Items, "AR") == Items[..4]
  {
    CatalogueRuns();
    RunFilter(Items, "AR", 0, 4);
  }

  /** The Music Marketing button shows the seven music items, in catalogue order. */
  lemma MusicMarketingResult()
    ensures Filtered(Items, "Music Marketing") == Items[4..11]
  {
    CatalogueRuns();
    RunFilter(Items, "Music Marketing", 4, 11);
  }

  /** The Event Organize button shows the two event items, in catalogue order. */
  lemma EventOrganizeResult()
    ensures Filtered(Items, "Event Organize") == Items[11..]
  {
    CatalogueRuns();
    assert |Items| == 13 && Items[11..13] == Items[11..];
    RunFilter(Items, "Event Organize", 11, 13);
  }

  /** The Website Creation button has no items: the grid is empty, not an error. */
  lemma WebsiteCreationResult()
    ensures Filtered(Items, "Website Creation") == []
  {
    CatalogueRuns();
    UnusedCategoryIsEmpty(Items, "Website Creation");
  }
}
