/**
 * The header of the localized site: navigation links, the TH/EN language
 * switcher (desktop and mobile drawer), the mobile menu and the scrolled style.
 */
module Header {
  import opened LanguageContext
  import opened Navigation

  /** `isScrolled` holds once the page has scrolled strictly more than this many pixels. */
  const ScrollThreshold: real := 20.0

  /** The nav labels of the active translation: `t.nav.solutions`, `t.nav.portfolio`, ... */
  datatype NavLabels = NavLabels(solutions: string, portfolio: string, about: string, contact: string)

  /** `navItems`: one link per section, labelled from the active translation. */
  function NavItems(t: NavLabels): (items: seq<NavItem>)
    ensures Hrefs(items) == SectionAnchors
    ensures Labels(items) == [t.solutions, t.portfolio, t.about, t.contact]
    ensures DistinctHrefs(items)
  {
    [ NavItem(t.solutions, "#services"),
      NavItem(t.portfolio, "#portfolio"),
      NavItem(t.about, "#about"),
      NavItem(t.contact, "#contact") ]
  }

  /** The drawer's `transitionDelay` for the nav link at `index`, in milliseconds. */
  function NavItemDelay(isMobileMenuOpen: bool, index: nat): (ms: nat)
    ensures !isMobileMenuOpen ==> ms == 0
    ensures isMobileMenuOpen ==> ms >= 100 && (ms - 100) % 75 == 0 && (ms - 100) / 75 == index
  {
    if isMobileMenuOpen then index * 75 + 100 else 0
  }

  /** The drawer's bottom section (language switcher and CTA) `transitionDelay`, in milliseconds. */
  function BottomSectionDelay(isMobileMenuOpen: bool): (ms: nat)
    ensures isMobileMenuOpen ==> ms == 400
    ensures !isMobileMenuOpen ==> ms == 0
  {
    if isMobileMenuOpen then 400 else 0
  }

  /** When the drawer opens, the links slide in one after another. */
  lemma NavItemDelayIncreasing(i: nat, j: nat)
    requires i < j
    ensures NavItemDelay(true, i) < NavItemDelay(true, j)
  {
  }

  /** When the drawer opens, the bottom section starts after every nav link. */
  lemma BottomSectionStartsLast(t: NavLabels)
    ensures forall i :: 0 <= i < |NavItems(t)| ==> NavItemDelay(true, i) < BottomSectionDelay(true)
  {
  }

  /** A language button is highlighted when its language is the active one. */
  predicate IsHighlighted(language: string, button: string)
  {
    language == button
  }

  /** One of TH and EN is highlighted for a supported language; neither for any other value. */
  lemma HighlightMatchesLanguage(language: string)
    ensures IsSupported(language) ==> IsHighlighted(language, Thai) != IsHighlighted(language, English)
    ensures !IsSupported(language) ==> !IsHighlighted(language, Thai) && !IsHighlighted(language, English)
  {
  }

  /** A language button's `onClick`: `language !== button && toggleLanguage()`. */
  function LanguageButtonClick(s: LocaleState, button: string): (r: LocaleState)
    requires IsSupported(button)
    ensures s.language == button ==> r == s
    ensures s.language != button ==> Persisted(r) && r.storage - {LanguageKey} == s.storage - {LanguageKey}
    ensures IsSupported(s.language) ==> r.language == button
    ensures !IsSupported(s.language) ==> r.language == English
  {
    if s.language != button then AfterToggle(s) else s
  }

  /** From a supported language, the guarded toggle behaves as setting the button's language. */
  lemma LanguageButtonSetsLanguage(s: LocaleState, button: string)
    requires IsSupported(s.language) && IsSupported(button)
    ensures LanguageButtonClick(s, button) == if s.language == button then s else AfterSet(s, button)
  {
  }

  /** The header's React state; the language belongs to the enclosing provider. */
  class HeaderState {
    var isScrolled: bool
    var isMobileMenuOpen: bool
    const locale: LanguageProvider

    constructor (locale: LanguageProvider)
      ensures this.locale == locale
      ensures !isScrolled && !isMobileMenuOpen
    {
      this.locale := locale;
      isScrolled := false;
      isMobileMenuOpen := false;
    }

    /** The window's scroll listener. */
    method HandleScroll(scrollY: real)
      modifies this
      ensures isScrolled <==> scrollY > ScrollThreshold
      ensures isMobileMenuOpen == old(isMobileMenuOpen)
    {
      isScrolled := scrollY > ScrollThreshold;
    }

    /** The hamburger button. */
    method ToggleMobileMenu()
      modifies this
      ensures isMobileMenuOpen == !old(isMobileMenuOpen)
      ensures isScrolled == old(isScrolled)
    {
      isMobileMenuOpen := !isMobileMenuOpen;
    }

    /** The overlay, the drawer's logo and close button, every drawer nav link and the drawer's CTA. */
    method CloseMobileMenu()
      modifies this
      ensures !isMobileMenuOpen
      ensures isScrolled == old(isScrolled)
    {
      isMobileMenuOpen := false;
    }

    /** The TH or EN button, on the desktop bar or in the drawer: both run the same handler. */
    method ClickLanguageButton(button: string)
      requires IsSupported(button)
      modifies locale, locale.storage
      ensures locale.State() == LanguageButtonClick(old(locale.State()), button)
    {
      if locale.language != button {
        locale.ToggleLanguage();
      }
    }
  }
}
