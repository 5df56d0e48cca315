/** The in-page navigation links both headers render. */
module Navigation {

  /** One link; `text` is the source's `label` (a reserved word in Dafny). */
  datatype NavItem = NavItem(text: string, href: string)

  /** The anchors of the page's sections, in page order. */
  const SectionAnchors: seq<string> := ["#services", "#portfolio", "#about", "#contact"]

  function Hrefs(items: seq<NavItem>): (r: seq<string>)
    ensures |r| == |items|
    ensures forall i :: 0 <= i < |items| ==> r[i] == items[i].href
  {
    if items == [] then [] else [items[0].href] + Hrefs(items[1..])
  }

  function Labels(items: seq<NavItem>): (r: seq<string>)
    ensures |r| == |items|
    ensures forall i :: 0 <= i < |items| ==> r[i] == items[i].text
  {
    if items == [] then [] else [items[0].text] + Labels(items[1..])
  }

  /** The links' hrefs are their React keys, so no two may be equal. */
  predicate DistinctHrefs(items: seq<NavItem>)
  {
    forall i, j :: 0 <= i < j < |items| ==> items[i].href != items[j].href
  }
}
