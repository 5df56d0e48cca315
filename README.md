# VMI landing page: locale holder, portfolio filter and header controls

A model of the small amount of logic in the VMI Media landing page, which ships as two copies of
one site: a localized copy (`src/`) and an English-only copy (`vmi-landing/`). The model covers:

- **`LanguageContext`**: the locale state holder `LanguageProvider`.
  - The language starts as `"en"`.
  - On mount it takes any non-empty value stored under the local-storage key `"language"`.
    The value is copied as is, with no check.
  - `toggleLanguage` maps `"en"` to `"th"` and every other value to `"en"`, and writes the result to storage.
  - `setLanguage` writes its argument to the state and to storage.
  - `useLanguage` throws when there is no provider.
  - Local storage is a `BrowserStorage` object holding a `map`. It is shared by providers, so a
    second provider over the same storage is a new browser session.
  - Each class method is tied to a pure transition on `LocaleState` (language plus storage).
    The lemmas are proved about those transitions.
- **`PortfolioFilter`**: what both Portfolio sections share.
  - The item record.
  - The `filteredItems` expression: `"All"` returns the whole catalogue; any other category
    returns an order-preserving filter by equal category.
  - The section's `activeCategory` / `isVisible` state, as class `PortfolioSection`.
  - The one-way reveal latch, driven by a sequence of "intersecting?" events.
- **`Portfolio`** and **`VmiPortfolio`**: each copy's category list, its static catalogue, its
  card-delay formula, and the facts about that catalogue. These are unique ids, per-category
  results, and for the second copy the partition of the catalogue into per-category buckets.
- **`Navigation`**, **`Header`**, **`VmiHeader`**: the nav links and the drawer delays.
  - The TH/EN buttons use the guard `language !== X && toggleLanguage()`. When the language is
    `"en"` or `"th"` this acts as setting the button's language. For a corrupt value, both
    buttons select English.
  - The highlight rule for the TH/EN buttons.
  - The mobile-menu open/close state and the `isScrolled` threshold: 20 px in one copy, 50 px in the other.

The source's `Language` type names two values, `"en"` and `"th"`, but nothing enforces it at runtime:

- The mount effect casts any non-empty stored string to `Language` without a check
  (`src/context/LanguageContext.tsx:19-21`). A corrupt stored entry is therefore not treated as absent.
  The model keeps the language as a string.
- For that reason, toggling twice restores the language only from `"en"` or `"th"`.

## Model

| member | source | states |
|---|---|---|
| `LanguageContext.Lookup` | src/context/LanguageContext.tsx:19 | `getItem` yields the stored value exactly when the key is present, otherwise null (None) |
| `LanguageContext.Toggled` | src/context/LanguageContext.tsx:26 | the toggled language is always "en" or "th", and it is "th" exactly when the old one was "en", so a corrupt value toggles to "en" |
| `LanguageContext.AfterLoad` | src/context/LanguageContext.tsx:18-23 | a truthy (non-null, non-empty) stored value becomes the language verbatim; otherwise the language is kept |
| `LanguageContext.Loaded` | src/context/LanguageContext.tsx:18-23 | loading never writes storage; a non-empty stored entry replaces the language and leaves it persisted; a missing or empty entry changes nothing |
| `LanguageContext.AfterSet` | src/context/LanguageContext.tsx:31-34 | after `setLanguage(l)` the language is `l`, the stored "language" entry is `l`, and no other key is added, removed or changed |
| `LanguageContext.AfterToggle` | src/context/LanguageContext.tsx:25-29 | after a toggle the language is supported and persisted, it is "th" exactly when it was "en", and no other key changes |
| `LanguageContext.BrowserStorage.constructor` | src/context/LanguageContext.tsx:19 | local storage starts with the given entries |
| `LanguageContext.BrowserStorage.GetItem` | src/context/LanguageContext.tsx:19 | reading a key returns its value exactly when it is present and changes nothing |
| `LanguageContext.BrowserStorage.SetItem` | src/context/LanguageContext.tsx:28 | writing a key updates that entry only |
| `LanguageContext.LanguageProvider.constructor` | src/context/LanguageContext.tsx:15-16 | before any effect runs the language is "en" |
| `LanguageContext.LanguageProvider.LoadSavedLanguage` | src/context/LanguageContext.tsx:18-23 | the mount effect moves the provider and storage as `Loaded` says |
| `LanguageContext.LanguageProvider.ToggleLanguage` | src/context/LanguageContext.tsx:25-29 | the toggle moves the provider and storage as `AfterToggle` says |
| `LanguageContext.LanguageProvider.SetLanguage` | src/context/LanguageContext.tsx:31-34 | `handleSetLanguage` moves the provider and storage as `AfterSet` says |
| `LanguageContext.UseLanguage` | src/context/LanguageContext.tsx:45-50 | without a provider the hook fails with "useLanguage must be used within a LanguageProvider"; with one it returns that provider |
| `LanguageContext.ToggleTwice` | src/context/LanguageContext.tsx:25-29 | from "en" or "th", two toggles give back the original language, with that language persisted |
| `LanguageContext.SetIdempotent` | src/context/LanguageContext.tsx:31-34 | setting the same language twice equals setting it once |
| `LanguageContext.NextSessionReadsSetLanguage` | src/context/LanguageContext.tsx:18-34 | a non-empty language written by `setLanguage` is what a later session loads, whatever that session started with |
| `LanguageContext.FreshSessionScenario` | src/context/LanguageContext.tsx:15-29 | a fresh session with empty storage starts in "en"; a toggle stores "th"; a new provider over the same storage loads "th" |
| `PortfolioFilter.ByCategory` | src/components/sections/Portfolio.tsx:149 | the filter result is no longer than the catalogue, contains only catalogue items of that category and every catalogue item of that category, and is a subsequence, so catalogue order is kept |
| `PortfolioFilter.ByCategoryCounts` | src/components/sections/Portfolio.tsx:149 | every matching item is kept as many times as it occurs, and every other item is dropped |
| `PortfolioFilter.Filtered` | src/components/sections/Portfolio.tsx:146-149 | "All" returns the catalogue unchanged; any other category returns a subsequence of catalogue items all of that category that contains every catalogue item of that category |
| `PortfolioFilter.UnusedCategoryIsEmpty` | src/components/sections/Portfolio.tsx:149 | a category no item carries yields the empty list, not an error |
| `PortfolioFilter.ByCategoryAppend` | src/components/sections/Portfolio.tsx:149 | filtering distributes over concatenation of catalogues |
| `PortfolioFilter.ByCategoryKeepsRun` | src/components/sections/Portfolio.tsx:149 | a list whose items all have the category passes the filter whole |
| `PortfolioFilter.RunFilter` | src/components/sections/Portfolio.tsx:149 | when exactly `items[lo..hi]` carry the category, the filter returns that slice |
| `PortfolioFilter.BucketsCount` | vmi-landing/src/components/sections/Portfolio.tsx:97-100 | over distinct categories, an item appears in the concatenated buckets as often as in the catalogue if its category is listed, otherwise never |
| `PortfolioFilter.BucketsArePermutation` | vmi-landing/src/components/sections/Portfolio.tsx:97-100 | when the categories are distinct and cover every item, the concatenated buckets are a permutation of the catalogue |
| `PortfolioFilter.RevealedStaysRevealed` | src/components/sections/Portfolio.tsx:129-134 | once `isVisible` is true it stays true whatever intersection events follow |
| `PortfolioFilter.RevealedIffIntersected` | src/components/sections/Portfolio.tsx:129-134 | starting hidden, the section is revealed exactly when some event reported an intersection |
| `PortfolioFilter.RevealComposes` | src/components/sections/Portfolio.tsx:129-134 | delivering events in two batches gives the same latch value as delivering them together |
| `PortfolioFilter.PortfolioSection.constructor` | src/components/sections/Portfolio.tsx:122-123 | a mounted section starts with `activeCategory` "All" and `isVisible` false |
| `PortfolioFilter.PortfolioSection.FilteredItems` | src/components/sections/Portfolio.tsx:146-149 | the grid shows the whole catalogue under "All", otherwise an order-preserving selection holding exactly the catalogue items of the active category |
| `PortfolioFilter.PortfolioSection.SelectCategory` | src/components/sections/Portfolio.tsx:196 | a category button sets `activeCategory` to its category and leaves `isVisible` alone |
| `PortfolioFilter.PortfolioSection.OnIntersection` | src/components/sections/Portfolio.tsx:131-134 | an intersecting event sets `isVisible`, a non-intersecting one keeps it, and nothing ever clears it |
| `Portfolio.CardDelay` | src/components/sections/Portfolio.tsx:216 | the card delay is a multiple of 50 ms and is 50 ms per index |
| `Portfolio.CardDelayIncreasing` | src/components/sections/Portfolio.tsx:216 | later cards get strictly larger delays |
| `Portfolio.CategoriesAreDistinct` | src/components/sections/Portfolio.tsx:7 | the filter buttons, used as React keys, are distinct, and "All" is first |
| `Portfolio.EveryCategoryIsListed` | src/components/sections/Portfolio.tsx:7-119 | every item's category is one of the non-"All" buttons |
| `Portfolio.IdsAreUnique` | src/components/sections/Portfolio.tsx:9-119 | no two items share an id |
| `Portfolio.AllShowsCatalogue` | src/components/sections/Portfolio.tsx:146-148 | "All" shows all 13 items in catalogue order |
| `Portfolio.CatalogueRuns` | src/components/sections/Portfolio.tsx:9-119 | items 0-3 are AR, items 4-10 are Music Marketing, items 11-12 are Event Organize |
| `Portfolio.ArResult` | src/components/sections/Portfolio.tsx:11-42 | "AR" shows exactly the 4 AR items, in order |
| `Portfolio.MusicMarketingResult` | src/components/sections/Portfolio.tsx:45-100 | "Music Marketing" shows exactly the 7 music items, in order |
| `Portfolio.EventOrganizeResult` | src/components/sections/Portfolio.tsx:103-118 | "Event Organize" shows exactly the 2 event items, in order |
| `Portfolio.WebsiteCreationResult` | src/components/sections/Portfolio.tsx:7 | "Website Creation" shows nothing |
| `VmiPortfolio.CardDelay` | vmi-landing/src/components/sections/Portfolio.tsx:158 | the card delay is at least 300 ms and is 100 ms per index on top of 300 |
| `VmiPortfolio.CardDelayIncreasing` | vmi-landing/src/components/sections/Portfolio.tsx:158 | later cards get strictly larger delays |
| `VmiPortfolio.CategoriesAreDistinct` | vmi-landing/src/components/sections/Portfolio.tsx:6 | the filter buttons are distinct, and "All" is first |
| `VmiPortfolio.AllShowsCatalogue` | vmi-landing/src/components/sections/Portfolio.tsx:8-99 | "All" shows the 8 items, with ids 1 to 8 in order |
| `VmiPortfolio.CatalogueRuns` | vmi-landing/src/components/sections/Portfolio.tsx:8-73 | the catalogue is runs of two: AR, Music, Events, Web |
| `VmiPortfolio.ArResult` | vmi-landing/src/components/sections/Portfolio.tsx:100 | "AR" shows exactly items 1 and 2 |
| `VmiPortfolio.MusicResult` | vmi-landing/src/components/sections/Portfolio.tsx:100 | "Music" shows exactly items 3 and 4 |
| `VmiPortfolio.EventsResult` | vmi-landing/src/components/sections/Portfolio.tsx:100 | "Events" shows exactly items 5 and 6 |
| `VmiPortfolio.WebResult` | vmi-landing/src/components/sections/Portfolio.tsx:100 | "Web" shows exactly items 7 and 8 |
| `VmiPortfolio.BucketsRebuildCatalogue` | vmi-landing/src/components/sections/Portfolio.tsx:6-100 | concatenating the results of the non-"All" buttons, in button order, gives the catalogue back exactly |
| `VmiPortfolio.CatalogueIsFourRuns` | vmi-landing/src/components/sections/Portfolio.tsx:8-73 | the catalogue is the concatenation of its four two-item runs |
| `VmiPortfolio.CategoriesAreRuns` | vmi-landing/src/components/sections/Portfolio.tsx:6-73 | each category's items are contiguous in the catalogue |
| `VmiPortfolio.EachItemInOneBucket` | vmi-landing/src/components/sections/Portfolio.tsx:6-100 | each item's category is listed exactly once among the buttons, and the concatenated buckets are a permutation of the catalogue |
| `Header.NavItems` | src/components/sections/Header.tsx:15-20 | the links go to `#services`, `#portfolio`, `#about`, `#contact` in that order, with distinct hrefs and the translation's labels |
| `Header.NavItemDelay` | src/components/sections/Header.tsx:191 | a drawer link's delay is 0 while closed; while open it is 100 ms plus 75 ms per index |
| `Header.BottomSectionDelay` | src/components/sections/Header.tsx:217 | the drawer's bottom section waits 400 ms while open and 0 ms while closed |
| `Header.NavItemDelayIncreasing` | src/components/sections/Header.tsx:191 | while open, later links get strictly larger delays |
| `Header.BottomSectionStartsLast` | src/components/sections/Header.tsx:184-217 | while open, the bottom section starts after every nav link |
| `Header.HighlightMatchesLanguage` | src/components/sections/Header.tsx:90-99 | for "en" or "th" exactly one of TH/EN is highlighted; for any other value neither is |
| `Header.LanguageButtonClick` | src/components/sections/Header.tsx:89-98 | clicking the active button changes nothing; otherwise the language is toggled and persisted. From "en"/"th" the result is the button's language; from a corrupt value it is "en", so TH then selects English |
| `Header.LanguageButtonSetsLanguage` | src/components/sections/Header.tsx:89-98 | from "en" or "th", the guarded toggle is the same as setting the button's language, or is a no-op when that language is already active |
| `Header.HeaderState.constructor` | src/components/sections/Header.tsx:10-12 | the header starts unscrolled with the menu closed |
| `Header.HeaderState.HandleScroll` | src/components/sections/Header.tsx:23-25 | `isScrolled` is true exactly when `scrollY > 20`; the menu state is untouched |
| `Header.HeaderState.ToggleMobileMenu` | src/components/sections/Header.tsx:121 | the hamburger flips the menu state |
| `Header.HeaderState.CloseMobileMenu` | src/components/sections/Header.tsx:143-248 | the overlay, drawer logo, close button, drawer links and CTA all leave the menu closed, with `isScrolled` untouched |
| `Header.HeaderState.ClickLanguageButton` | src/components/sections/Header.tsx:88-105 | the desktop and drawer TH/EN buttons move the provider and storage as `LanguageButtonClick` says, and the drawer's buttons (lines 221-238) run the same handler |
| `VmiHeader.NavItemsAreSectionLinks` | vmi-landing/src/components/sections/Header.tsx:7-12 | the links go to the four sections in page order, with the labels Solutions, Portfolio, About, Contact and distinct hrefs |
| `VmiHeader.HeaderState.constructor` | vmi-landing/src/components/sections/Header.tsx:15-16 | the header starts unscrolled with the menu closed |
| `VmiHeader.HeaderState.HandleScroll` | vmi-landing/src/components/sections/Header.tsx:19-21 | `isScrolled` is true exactly when `scrollY > 50`; the menu state is untouched |
| `VmiHeader.HeaderState.ToggleMobileMenu` | vmi-landing/src/components/sections/Header.tsx:76 | the hamburger flips the menu state |
| `VmiHeader.HeaderState.CloseMobileMenu` | vmi-landing/src/components/sections/Header.tsx:113-127 | a menu link or the menu's CTA closes the menu, and nothing else changes |

## Left out

- Browser I/O is abstracted or dropped:
  - `localStorage` is the `BrowserStorage` map.
  - `window.scrollY` is a `real` parameter of `HandleScroll`.
  - Registering and removing the scroll listener is not modelled.
  - The `document.body.style.overflow` writes while the drawer is open (src/components/sections/Header.tsx:31-40) are not modelled.
  - Exceptions from `localStorage.getItem`/`setItem` are not modelled. For example, a `setItem` that throws after the state has already changed (src/context/LanguageContext.tsx:27-28) would leave state and storage out of step.
- IntersectionObserver: only setup, `disconnect` and the fractional thresholds (0.1) are left out.
  Each event is the `isIntersecting` flag of the first entry of one observer callback. The source
  destructures `([entry])` and ignores any later entries of the same batch
  (src/components/sections/Portfolio.tsx:131, vmi-landing/src/components/sections/Portfolio.tsx:82).
- Video hover play/pause and the rewind to time 0 (src/components/sections/Portfolio.tsx:151-162). This is a foreign media API whose failures are swallowed. The `videoRefs` map exists only for it.
- `useTranslation` and the translation tables: `src/data/translations` is not part of this model, so the header's labels are a `NavLabels` parameter.
- The About, Contact, Services and Hero sections. Their only logic is the same one-shot reveal latch, already modelled in `PortfolioFilter`. Footer, layouts and `page.tsx` are static markup.
- CSS class strings, the rendered DOM, Next.js `Image`/`Link` and in-page anchor scrolling.
- The second copy's `image` field and the first copy's `src` field are one `src` field of `Item`.
  The nav link `label` field is named `text`, because `label` is reserved in Dafny.
- React's asynchronous batching of state updates: each handler's updates are applied at once, in program order.
- `LanguageContext.LanguageProvider.SetLanguage`: the source's `Language` parameter type is not enforced at runtime. The model therefore accepts any string and does not restrict it to "en"/"th".
