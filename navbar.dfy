/** The fixed navigation bar: which entry is highlighted while the page
    scrolls (scroll-spy), what a click on an entry does, and the theme and
    mobile-menu buttons.

    The page itself is an input: a `Document` maps each selector that
    matches an element to the top of that element's bounding rectangle
    relative to the viewport, and the vertical scroll offset is a parameter
    of the scroll handler. */
module Navbar {
  import opened Wrappers
  import opened Themes

  datatype NavItem = NavItem(name: string, href: string)

  /** The entries of the bar, in page order. */
  const NavItems: seq<NavItem> := [
    NavItem("Home", "#"),
    NavItem("About", "#about"),
    NavItem("Skills", "#skills"),
    NavItem("Projects", "#projects"),
    NavItem("Contact", "#contact")
  ]

  /** The href of the "Home" entry, which stands for the top of the page. */
  const Home: string := "#"

  /** How far below the top of the viewport a section may start and still
      count as the one being read. */
  const SectionOffset: real := 100.0
  /** Scroll offset beyond which the bar gets its solid background. */
  const ScrolledOffset: real := 10.0

  /** `navItems.map((item) => item.href)`. */
  function Hrefs(items: seq<NavItem>): seq<string> {
    seq(|items|, i requires 0 <= i < |items| => items[i].href)
  }

  const NavHrefs: seq<string> := Hrefs(NavItems)

  /** `.filter((href) => href !== "#")`: the hrefs other than Home, each as
      often as it occurs in `hrefs`. */
  function WithoutHome(hrefs: seq<string>): (r: seq<string>)
    ensures |r| <= |hrefs|
    ensures forall h :: h in r <==> h in hrefs && h != Home
  {
    if hrefs == [] then []
    else
      var rest := WithoutHome(hrefs[..|hrefs| - 1]);
      var last := hrefs[|hrefs| - 1];
      assert hrefs == hrefs[..|hrefs| - 1] + [last];
      if last == Home then rest else rest + [last]
  }

  /** The filter keeps every href other than Home as often as it occurs. */
  lemma {:induction false} WithoutHomeCounts(hrefs: seq<string>)
    ensures multiset(WithoutHome(hrefs)) == multiset(hrefs)[Home := 0]
  {
    if hrefs != [] {
      var init, last := hrefs[..|hrefs| - 1], hrefs[|hrefs| - 1];
      assert hrefs == init + [last];
      WithoutHomeCounts(init);
    }
  }

  /** The sections the scroll-spy watches, in document order. */
  const Sections: seq<string> := WithoutHome(NavHrefs)

  lemma {:induction false} SectionsInDocumentOrder()
    ensures Sections == ["#about", "#skills", "#projects", "#contact"]
    ensures forall s :: s in Sections ==> s in NavHrefs && s != Home
  {
    var hs := NavHrefs;
    assert hs == ["#", "#about", "#skills", "#projects", "#contact"];
    assert hs[..1] == ["#"] && hs[..2] == ["#", "#about"] && hs[..3] == ["#", "#about", "#skills"];
    assert hs[..4] == ["#", "#about", "#skills", "#projects"];
    assert hs[..1][..0] == [] && hs[..2][..1] == hs[..1] && hs[..3][..2] == hs[..2];
    assert hs[..4][..3] == hs[..3] && hs[..4] == hs[..|hs| - 1];
    assert WithoutHome([]) == [];
    assert WithoutHome(hs[..1]) == [];
    assert WithoutHome(hs[..2]) == ["#about"];
    assert WithoutHome(hs[..3]) == ["#about", "#skills"];
    assert WithoutHome(hs[..4]) == ["#about", "#skills", "#projects"];
  }

  /** Selector -> top of the matching element's bounding rectangle. A
      selector absent from the map matches no element. */
  type Document = map<string, real>

  /** An id selector that `document.querySelector` accepts: '#' followed by
      a name. A lone "#" is a syntax error. */
  predicate ValidIdSelector(selector: string) {
    |selector| >= 2 && selector[0] == '#'
  }

  /** What `document.querySelector(selector)` gives. */
  datatype Lookup = Found(top: real) | Missing | SyntaxError

  function QuerySelector(doc: Document, selector: string): (r: Lookup)
    ensures r.SyntaxError? <==> !ValidIdSelector(selector)
    ensures r.Found? ==> selector in doc && r.top == doc[selector]
    ensures r.Missing? ==> selector !in doc
  {
    if !ValidIdSelector(selector) then SyntaxError
    else if selector in doc then Found(doc[selector])
    else Missing
  }

  /** A section that exists and whose top has come within 100 of the top
      of the viewport. */
  predicate Reached(doc: Document, section: string) {
    var element := QuerySelector(doc, section);
    element.Found? && element.top <= SectionOffset
  }

  /** The last of `sections` that has been reached, if any: the section
      being read. */
  function LastReached(sections: seq<string>, doc: Document): (r: Option<string>)
    ensures r.None? <==> forall s :: s in sections ==> !Reached(doc, s)
    ensures r.Some? ==>
      exists k :: 0 <= k < |sections| && sections[k] == r.value && Reached(doc, r.value) &&
        (forall j :: k < j < |sections| ==> !Reached(doc, sections[j]))
  {
    if sections == [] then None
    else
      var init, last := sections[..|sections| - 1], sections[|sections| - 1];
      assert sections == init + [last];
      if Reached(doc, last) then Some(last) else LastReached(init, doc)
  }

  /** Looking at one more section from the start of the list. */
  lemma LastReachedExtend(sections: seq<string>, i: nat, doc: Document)
    requires i < |sections|
    ensures LastReached(sections[..i + 1], doc) ==
      if Reached(doc, sections[i]) then Some(sections[i]) else LastReached(sections[..i], doc)
  {
    assert sections[..i + 1][..i] == sections[..i];
  }

  /** The highlighted entry after a scroll event: Home near the top of the
      page, otherwise the section being read, otherwise unchanged. */
  function ActiveAfterScroll(previous: string, scrollY: real, doc: Document): (r: string)
    ensures scrollY < SectionOffset ==> r == Home
    ensures scrollY >= SectionOffset && (forall s :: s in Sections ==> !Reached(doc, s)) ==> r == previous
    ensures scrollY >= SectionOffset && (exists s :: s in Sections && Reached(doc, s)) ==>
      exists k :: 0 <= k < |Sections| && Sections[k] == r && Reached(doc, r) &&
        (forall j :: k < j < |Sections| ==> !Reached(doc, Sections[j]))
  {
    if scrollY < SectionOffset then Home
    else
      match LastReached(Sections, doc)
      case Some(section) => section
      case None => previous
  }

  /** The highlighted entry is a nav href after any scroll event if it was
      one before. */
  lemma ActiveAfterScrollIsNavHref(previous: string, scrollY: real, doc: Document)
    requires previous in NavHrefs
    ensures ActiveAfterScroll(previous, scrollY, doc) in NavHrefs
  {
    SectionsInDocumentOrder();
    assert Home == NavHrefs[0];
  }

  /** What a click on an entry leads to, besides the state changes. */
  datatype ClickResult = ScrolledTo(selector: string) | ScrolledToTop | NotScrolled | Threw

  /** The scroll a click on `href` starts, as the handler is written: it
      looks `href` up as a selector and scrolls to the element if there is
      one. For Home the lookup is `querySelector("#")`, which throws. */
  function ClickScrollAsWritten(href: string, doc: Document): (r: ClickResult)
    ensures r == Threw <==> !ValidIdSelector(href)
    ensures r.ScrolledTo? ==> r.selector == href && href in doc
    ensures r != ScrolledToTop
  {
    match QuerySelector(doc, href)
    case SyntaxError => Threw
    case Found(_) => ScrolledTo(href)
    case Missing => NotScrolled
  }

  /** Clicking Home, as written, throws instead of scrolling, whatever the
      page holds. */
  lemma HomeClickThrows(doc: Document)
    ensures ClickScrollAsWritten(Home, doc) == Threw
    ensures ClickScrollAsWritten(NavHrefs[0], doc) == Threw
  {
  }

  /** The scroll a click on `href` should start: Home scrolls to the top of
      the page; any other entry scrolls to its section if it exists. */
  function ClickScroll(href: string, doc: Document): (r: ClickResult)
    ensures href == Home ==> r == ScrolledToTop
    ensures ValidIdSelector(href) ==> r == ClickScrollAsWritten(href, doc)
  {
    if href == Home then ScrolledToTop
    else
      match QuerySelector(doc, href)
      case SyntaxError => NotScrolled
      case Found(_) => ScrolledTo(href)
      case Missing => NotScrolled
  }

  /** No entry of the bar makes the corrected click handler throw, and an
      entry whose section exists is always scrolled to. */
  lemma ClickNeverThrows(href: string, doc: Document)
    requires href in NavHrefs
    ensures ClickScroll(href, doc) != Threw
    ensures href != Home && href in doc ==> ClickScroll(href, doc) == ScrolledTo(href)
  {
  }

  /** The bar's state: whether the page has scrolled, whether the mobile
      menu is open, which entry is highlighted, and the theme held by the
      theme provider. */
  class NavState {
    var isScrolled: bool
    var mobileMenuOpen: bool
    var activeItem: string
    var theme: Theme

    /** The highlighted entry is always one of the bar's hrefs. */
    ghost predicate Valid()
      reads this
    {
      activeItem in NavHrefs
    }

    constructor (theme: Theme)
      ensures Valid()
      ensures !isScrolled && !mobileMenuOpen && activeItem == Home && this.theme == theme
    {
      isScrolled := false;
      mobileMenuOpen := false;
      activeItem := Home;
      this.theme := theme;
      new;
      assert NavHrefs[0] == Home;
    }

    /** The scroll handler: records whether the page has scrolled past 10,
        scans the sections from the last to the first and highlights the
        first one found that has been reached, then highlights Home if the
        page is scrolled less than 100. */
    method HandleScroll(scrollY: real, doc: Document)
      requires Valid()
      modifies this
      ensures Valid()
      ensures isScrolled <==> scrollY > ScrolledOffset
      ensures activeItem == ActiveAfterScroll(old(activeItem), scrollY, doc)
      ensures mobileMenuOpen == old(mobileMenuOpen) && theme == old(theme)
    {
      isScrolled := scrollY > ScrolledOffset;
      var sections := Sections;
      ghost var scan: Option<string> := None;
      var i := |sections|;
      assert sections[..i] == sections;
      while i > 0
        invariant 0 <= i <= |sections|
        invariant activeItem == old(activeItem) && scan == None
        invariant LastReached(sections, doc) == LastReached(sections[..i], doc)
        invariant mobileMenuOpen == old(mobileMenuOpen) && theme == old(theme)
        invariant isScrolled <==> scrollY > ScrolledOffset
      {
        i := i - 1;
        var section := sections[i];
        LastReachedExtend(sections, i, doc);
        var element := QuerySelector(doc, section);
        if element.Found? {
          if element.top <= SectionOffset {
            activeItem := section;
            scan := Some(section);
            break;
          }
        }
      }
      assert scan == LastReached(Sections, doc);
      assert activeItem == if scan.Some? then scan.value else old(activeItem);
      if scrollY < SectionOffset {
        activeItem := Home;
      }
      ActiveAfterScrollIsNavHref(old(activeItem), scrollY, doc);
    }

    /** A click on an entry, as the handler is written: it highlights the
        entry and closes the mobile menu, then looks the href up as a
        selector, which throws for Home. Every caller passes one of the
        bar's hrefs. */
    method HandleNavClick(href: string, doc: Document) returns (result: ClickResult)
      requires Valid() && href in NavHrefs
      modifies this
      ensures Valid()
      ensures activeItem == href && !mobileMenuOpen
      ensures isScrolled == old(isScrolled) && theme == old(theme)
      ensures result == ClickScrollAsWritten(href, doc)
      ensures href == Home ==> result == Threw
    {
      activeItem := href;
      mobileMenuOpen := false;
      var element := QuerySelector(doc, href);
      match element
      case SyntaxError =>
        result := Threw;
      case Found(_) =>
        result := ScrolledTo(href);
      case Missing =>
        result := NotScrolled;
    }

    /** The corrected click handler: the same state changes, then Home
        scrolls to the top of the page and any other entry to its section
        if the page has it. */
    method HandleNavClickCorrected(href: string, doc: Document) returns (result: ClickResult)
      requires Valid() && href in NavHrefs
      modifies this
      ensures Valid()
      ensures activeItem == href && !mobileMenuOpen
      ensures isScrolled == old(isScrolled) && theme == old(theme)
      ensures result == ClickScroll(href, doc) && result != Threw
    {
      activeItem := href;
      mobileMenuOpen := false;
      if href == Home {
        result := ScrolledToTop;
      } else {
        var element := QuerySelector(doc, href);
        if element.Found? {
          result := ScrolledTo(href);
        } else {
          result := NotScrolled;
        }
      }
      ClickNeverThrows(href, doc);
    }

    /** Either theme button. */
    method ToggleTheme()
      requires Valid()
      modifies this
      ensures Valid()
      ensures theme == Toggle(old(theme))
      ensures isScrolled == old(isScrolled) && mobileMenuOpen == old(mobileMenuOpen) && activeItem == old(activeItem)
    {
      theme := Toggle(theme);
    }

    /** The menu button of the mobile layout. */
    method ToggleMobileMenu()
      requires Valid()
      modifies this
      ensures Valid()
      ensures mobileMenuOpen == !old(mobileMenuOpen)
      ensures isScrolled == old(isScrolled) && theme == old(theme) && activeItem == old(activeItem)
    {
      mobileMenuOpen := !mobileMenuOpen;
    }
  }
}
