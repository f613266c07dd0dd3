/** The shared page fragments: loading the navbar and footer markup into their placeholders,
  * the mobile menu's toggle and close handlers, and the highlighting of the current page's
  * navigation links. */
module LoadComponents {
  import opened Wrappers
  import opened Text
  import opened Dom

  /** The placeholder whose loading also wires the mobile menu and highlights the links. */
  const NAVBAR := "navbar-placeholder"
  /** The page a pathname ending in `/` stands for. */
  const DEFAULT_PAGE := "index.html"

  /** `window.location.pathname.split('/').pop() || 'index.html'`: the text after the last `/`,
    * or `index.html` when that text is empty. */
  function CurrentPage(pathname: string): (page: string)
    ensures page != [] && '/' !in page
    ensures pathname == [] || pathname[|pathname| - 1] == '/' ==> page == DEFAULT_PAGE
    ensures pathname != [] && pathname[|pathname| - 1] != '/' ==>
      && |page| <= |pathname| && pathname[|pathname| - |page|..] == page
      && (|page| == |pathname| || pathname[|pathname| - |page| - 1] == '/')
  {
    var parts := Split(pathname, '/');
    var last := parts[|parts| - 1];
    JoinEndsWithLast(parts, '/');
    if last == [] then DEFAULT_PAGE
    else
      assert last[|last| - 1] == pathname[|pathname| - 1];
      last
  }

  /** A `.nav-link` element: its `href` attribute, if any, and whether it has the `active` class. */
  datatype NavLink = NavLink(href: Option<string>, active: bool)

  /** `href && href.includes(currentPage)`: a missing or empty `href` never matches. */
  predicate ShouldMark(href: Option<string>, page: string) {
    href.Some? && href.value != [] && Contains(href.value, page)
  }

  /** The highlight step for one link: add `active` when it matches, otherwise leave it. */
  function Mark(link: NavLink, page: string): NavLink {
    if ShouldMark(link.href, page) then link.(active := true) else link
  }

  /** A link is active after highlighting exactly when it already was or its `href` contains
    * the current page's name somewhere; its `href` is untouched, so no link is ever un-marked. */
  lemma MarkActive(link: NavLink, pathname: string)
    ensures var page := CurrentPage(pathname);
      && Mark(link, page).href == link.href
      && (Mark(link, page).active <==>
            link.active || (link.href.Some? && exists k :: OccursAt(link.href.value, page, k)))
  {
    var page := CurrentPage(pathname);
    if link.href.Some? {
      ContainsAt(link.href.value, page);
      if exists k :: OccursAt(link.href.value, page, k) {
        var k :| OccursAt(link.href.value, page, k);
        assert |link.href.value| >= |page| > 0;
      }
    }
  }

  /** Highlighting twice marks the same links as highlighting once. */
  lemma MarkIdempotent(link: NavLink, page: string)
    ensures Mark(Mark(link, page), page) == Mark(link, page)
  {
  }

  /** The mobile menu as the handlers see it: the button's `aria-expanded` attribute (absent or
    * any text), whether the menu has the `active` class, and `document.body.style.overflow`. */
  datatype MenuState = MenuState(ariaExpanded: Option<string>, active: bool, overflow: string)

  /** Only the exact text `true` counts as expanded; a missing attribute counts as closed. */
  predicate Expanded(s: MenuState) {
    s.ariaExpanded == Some("true")
  }

  /** The menu button's click handler: flip `aria-expanded`, toggle `active`, and lock page
    * scrolling when opening, release it when closing. */
  function Toggle(s: MenuState): MenuState {
    var isExpanded := Expanded(s);
    MenuState(Some(BoolText(!isExpanded)), !s.active, if isExpanded then SCROLL_FREE else SCROLL_LOCKED)
  }

  /** A menu link's click handler: collapse, remove `active`, release the scroll lock. */
  function Close(s: MenuState): MenuState {
    MenuState(Some("false"), false, SCROLL_FREE)
  }

  /** A click opens a closed menu and closes an open one; the page scroll is locked exactly when
    * the menu was closed before the click, and `active` flips. */
  lemma ToggleFlips(s: MenuState)
    ensures Expanded(Toggle(s)) <==> !Expanded(s)
    ensures Toggle(s).overflow == SCROLL_LOCKED <==> !Expanded(s)
    ensures Toggle(s).active == !s.active
  {
  }

  /** A menu whose attribute, class and scroll lock agree: open and locked, or closed and free. */
  predicate Consistent(s: MenuState) {
    s.ariaExpanded.Some? && s.ariaExpanded.value in {"true", "false"}
    && s.active == Expanded(s) && s.overflow == (if Expanded(s) then SCROLL_LOCKED else SCROLL_FREE)
  }

  /** Toggling keeps a consistent menu consistent, and two clicks bring it back. */
  lemma ToggleTwice(s: MenuState)
    requires Consistent(s)
    ensures Consistent(Toggle(s))
    ensures Toggle(Toggle(s)) == s
  {
  }

  /** Closing lands in the consistent closed state, whatever came before, so closing twice is
    * closing once. */
  lemma CloseIdempotent(s: MenuState)
    ensures Consistent(Close(s)) && !Expanded(Close(s))
    ensures Close(Close(s)) == Close(s)
  {
  }

  /** How `fetch` ended: a rejected promise (or a failed body read), or a response. */
  datatype FetchOutcome = NetworkError | Response(ok: bool, text: Option<string>)

  /** What the loader did, in order; kept only to state the order of the effects. */
  datatype Effect = Replaced(elementId: string) | MenuInitialised | LinksHighlighted

  /** The page the script runs in. */
  class Page {
    /** The placeholder elements present, by id, with their `innerHTML`. */
    var placeholders: map<string, string>
    /** Whether `#mobileMenuBtn` and `#mobileMenu` exist once the navbar is in place. */
    const menuButtonPresent: bool
    const mobileMenuPresent: bool
    /** Whether the menu's click listeners have been registered. */
    var menuWired: bool
    var ariaExpanded: Option<string>
    var menuActive: bool
    const body: Body
    /** The `.nav-link` elements of the page, in document order. */
    const navLinks: array<NavLink>
    const pathname: string
    ghost var effects: seq<Effect>

    /** The mobile menu's state as `MenuState`. */
    function Menu(): MenuState
      reads this, body
    {
      MenuState(ariaExpanded, menuActive, body.overflow)
    }

    constructor (placeholders: map<string, string>, menuButtonPresent: bool, mobileMenuPresent: bool,
                 ariaExpanded: Option<string>, menuActive: bool, body: Body, navLinks: array<NavLink>,
                 pathname: string)
      ensures this.placeholders == placeholders && !menuWired && effects == []
      ensures this.menuButtonPresent == menuButtonPresent && this.mobileMenuPresent == mobileMenuPresent
      ensures this.ariaExpanded == ariaExpanded && this.menuActive == menuActive
      ensures this.body == body && this.navLinks == navLinks && this.pathname == pathname
    {
      this.placeholders := placeholders;
      this.menuButtonPresent, this.mobileMenuPresent := menuButtonPresent, mobileMenuPresent;
      this.menuWired := false;
      this.ariaExpanded, this.menuActive := ariaExpanded, menuActive;
      this.body, this.navLinks, this.pathname := body, navLinks, pathname;
      this.effects := [];
    }

    /** `initMobileMenu()`: with both the button and the menu present, register the click
      * handlers; otherwise do nothing. */
    method InitMobileMenu()
      modifies this`menuWired, this`effects
      ensures menuWired == (old(menuWired) || (menuButtonPresent && mobileMenuPresent))
      ensures effects == old(effects) + [MenuInitialised]
    {
      effects := effects + [MenuInitialised];
      if !menuButtonPresent || !mobileMenuPresent {
        return;
      }
      menuWired := true;
    }

    /** `highlightActivePage()`: every link whose `href` contains the current page gets `active`;
      * all matching links are marked, and no other link changes. */
    method HighlightActivePage()
      modifies navLinks, this`effects
      ensures forall j :: 0 <= j < navLinks.Length ==> navLinks[j] == Mark(old(navLinks[j]), CurrentPage(pathname))
      ensures effects == old(effects) + [LinksHighlighted]
    {
      var currentPage := CurrentPage(pathname);
      for i := 0 to navLinks.Length
        invariant forall j :: 0 <= j < i ==> navLinks[j] == Mark(old(navLinks[j]), currentPage)
        invariant forall j :: i <= j < navLinks.Length ==> navLinks[j] == old(navLinks[j])
        invariant effects == old(effects)
      {
        var href := navLinks[i].href;
        if href.Some? && href.value != [] && Contains(href.value, currentPage) {
          navLinks[i] := navLinks[i].(active := true);
        }
      }
      effects := effects + [LinksHighlighted];
    }

    /** `loadComponent(elementId, path)`: a missing placeholder, a rejected fetch, a response that
      * is not ok or a failed body read leave everything as it was; otherwise the markup replaces
      * the placeholder's content, and for the navbar the menu is wired and the links highlighted
      * after that. */
    method LoadComponent(elementId: string, outcome: FetchOutcome)
      modifies this`placeholders, this`menuWired, this`effects, navLinks
      ensures var loaded := elementId in old(placeholders) && outcome.Response? && outcome.ok && outcome.text.Some?;
        var navbar := loaded && elementId == NAVBAR;
        && placeholders == (if loaded then old(placeholders)[elementId := outcome.text.value] else old(placeholders))
        && menuWired == (old(menuWired) || (navbar && menuButtonPresent && mobileMenuPresent))
        && (forall j :: 0 <= j < navLinks.Length ==>
              navLinks[j] == if navbar then Mark(old(navLinks[j]), CurrentPage(pathname)) else old(navLinks[j]))
        && effects == old(effects) + (if !loaded then [] else if navbar
             then [Replaced(elementId), MenuInitialised, LinksHighlighted] else [Replaced(elementId)])
    {
      if elementId !in placeholders {
        return;
      }
      match outcome
      case NetworkError =>
        return;
      case Response(ok, text) =>
        if !ok || text.None? {
          return;
        }
        placeholders := placeholders[elementId := text.value];
        effects := effects + [Replaced(elementId)];
        if elementId == NAVBAR {
          InitMobileMenu();
          HighlightActivePage();
        }
    }

    /** A click on the menu button: once the handler is registered, the menu toggles. */
    method OnMenuButtonClick()
      modifies this`ariaExpanded, this`menuActive, body`overflow
      ensures Menu() == if menuWired then Toggle(old(Menu())) else old(Menu())
    {
      if menuWired {
        var isExpanded := ariaExpanded == Some("true");
        ariaExpanded := Some(BoolText(!isExpanded));
        menuActive := !menuActive;
        body.overflow := if isExpanded then SCROLL_FREE else SCROLL_LOCKED;
      }
    }

    /** A click on a link inside the mobile menu: once the handler is registered, the menu closes. */
    method OnMenuLinkClick()
      modifies this`ariaExpanded, this`menuActive, body`overflow
      ensures Menu() == if menuWired then Close(old(Menu())) else old(Menu())
    {
      if menuWired {
        ariaExpanded := Some("false");
        menuActive := false;
        body.overflow := SCROLL_FREE;
      }
    }
  }
}
