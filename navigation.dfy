/**
 * The site header: which section is highlighted, driven by scroll
 * (intersection callbacks), by the URL's `section` query value and by clicks
 * on the links, plus the mobile menu's open flag.
 */
module Navigation {
  import opened Wrappers

  /** One header link: where it navigates, what it says, which section it names. */
  datatype NavLink = NavLink(href: string, caption: string, id: string)

  const NAV_LINKS: seq<NavLink> := [
    NavLink("/", "Home", "home"),
    NavLink("/?section=projects", "Projects", "projects"),
    NavLink("/?section=education", "Education", "education"),
    NavLink("/?section=experience", "Experience", "experience"),
    NavLink("/?section=skills", "Skills", "skills"),
    NavLink("/?section=leadership", "Leadership & Activities", "leadership"),
    NavLink("/?section=certifications", "Certifications", "certifications"),
    NavLink("/?section=contact", "Contact", "contact")
  ]

  const HOME := "home"
  const CONTACT := "contact"
  /** The prefix of every link's href except home's. */
  const SECTION_QUERY := "/?section="

  /** No two links name the same section. */
  predicate IdsDistinct(links: seq<NavLink>) {
    forall i, j :: 0 <= i < j < |links| ==> links[i].id != links[j].id
  }

  lemma NavLinkIdsDistinct()
    ensures IdsDistinct(NAV_LINKS)
  {
  }

  // ---------------------------------------------------------------------------
  // Intersection callback
  // ---------------------------------------------------------------------------

  /** What the observer reports for one watched section. */
  datatype Entry = Entry(targetId: string, isIntersecting: bool)

  /**
   * The section left active after a batch of entries is applied in order to
   * `current`: every intersecting entry overwrites it, the others do nothing.
   */
  function AfterEntries(current: string, entries: seq<Entry>): string
  {
    if entries == [] then current
    else
      var last := entries[|entries| - 1];
      if last.isIntersecting then last.targetId
      else AfterEntries(current, entries[..|entries| - 1])
  }

  /** Entry `i` intersects and none after it does. */
  predicate LastIntersectingAt(entries: seq<Entry>, i: int) {
    0 <= i < |entries| && entries[i].isIntersecting &&
    forall j :: i < j < |entries| ==> !entries[j].isIntersecting
  }

  /** No entry of the batch intersects. */
  predicate NoneIntersecting(entries: seq<Entry>) {
    forall j :: 0 <= j < |entries| ==> !entries[j].isIntersecting
  }

  /**
   * The last intersecting entry wins; a batch where nothing intersects leaves
   * the active section as it was.
   */
  lemma {:induction false} LastIntersectingWins(current: string, entries: seq<Entry>)
    ensures NoneIntersecting(entries) ==> AfterEntries(current, entries) == current
    ensures forall i :: LastIntersectingAt(entries, i) ==> AfterEntries(current, entries) == entries[i].targetId
    ensures NoneIntersecting(entries) || exists i :: LastIntersectingAt(entries, i)
  {
    if entries != [] {
      var n := |entries| - 1;
      var init := entries[..n];
      if entries[n].isIntersecting {
        assert LastIntersectingAt(entries, n);
        forall i | LastIntersectingAt(entries, i)
          ensures i == n
        {
        }
      } else {
        LastIntersectingWins(current, init);
        forall j | 0 <= j < |init|
          ensures init[j] == entries[j]
        {
        }
        forall i | LastIntersectingAt(entries, i)
          ensures LastIntersectingAt(init, i)
        {
        }
        if !NoneIntersecting(init) {
          var i :| LastIntersectingAt(init, i);
          assert LastIntersectingAt(entries, i);
        }
      }
    }
  }

  // ---------------------------------------------------------------------------
  // URL section
  // ---------------------------------------------------------------------------

  /** `searchParams.get('section') || 'home'`: a missing or empty value means home. */
  function SectionFromQuery(query: Option<string>): (section: string)
    ensures section != ""
    ensures query.Some? && query.value != "" ==> section == query.value
    ensures query.None? || query.value == "" ==> section == HOME
  {
    if query.Some? && query.value != "" then query.value else HOME
  }

  /** The `section` query value of a URL of the form `/` or `/?section=<value>`. */
  function SectionParam(url: string): (query: Option<string>)
    ensures query.Some? <==> |url| >= |SECTION_QUERY| && url[..|SECTION_QUERY|] == SECTION_QUERY
    ensures query.Some? ==> url == SECTION_QUERY + query.value
  {
    if |url| >= |SECTION_QUERY| && url[..|SECTION_QUERY|] == SECTION_QUERY
    then Some(url[|SECTION_QUERY|..])
    else None
  }

  /** Home's href is `/`; every other link's href is the section query on its own id. */
  predicate HrefNamesId(link: NavLink) {
    if link.id == HOME then link.href == "/" else link.href == SECTION_QUERY + link.id
  }

  lemma EveryHrefNamesItsId()
    ensures forall link :: link in NAV_LINKS ==> HrefNamesId(link)
  {
  }

  /** Navigating to a link's href and reading the URL back selects that link's section. */
  lemma {:induction false} HrefLeadsToId(link: NavLink)
    requires HrefNamesId(link) && link.id != ""
    ensures SectionFromQuery(SectionParam(link.href)) == link.id
  {
    if link.id == HOME {
      assert SectionParam("/") == None;
    } else {
      assert link.href[..|SECTION_QUERY|] == SECTION_QUERY;
      assert link.href[|SECTION_QUERY|..] == link.id;
    }
  }

  // ---------------------------------------------------------------------------
  // Which link is active
  // ---------------------------------------------------------------------------

  /** `activeSection === id` */
  predicate IsActive(activeSection: string, link: NavLink) {
    activeSection == link.id
  }

  /** How many of `links` are drawn as active. */
  function ActiveCount(links: seq<NavLink>, activeSection: string): nat
  {
    if links == [] then 0
    else (if IsActive(activeSection, links[0]) then 1 else 0) + ActiveCount(links[1..], activeSection)
  }

  /**
   * With distinct ids, exactly one link is active when the section is one of
   * theirs and none otherwise.
   */
  lemma {:induction false} ActiveCountOfDistinct(links: seq<NavLink>, activeSection: string)
    requires IdsDistinct(links)
    ensures ActiveCount(links, activeSection) <= 1
    ensures ActiveCount(links, activeSection) == 1 <==> exists i :: 0 <= i < |links| && links[i].id == activeSection
  {
    if links != [] {
      var rest := links[1..];
      assert IdsDistinct(rest) by {
        forall i, j | 0 <= i < j < |rest|
          ensures rest[i].id != rest[j].id
        {
          assert rest[i] == links[i + 1] && rest[j] == links[j + 1];
        }
      }
      ActiveCountOfDistinct(rest, activeSection);
      if links[0].id == activeSection {
        forall i | 0 <= i < |rest|
          ensures rest[i].id != activeSection
        {
          assert rest[i] == links[i + 1];
        }
      } else {
        if exists i :: 0 <= i < |links| && links[i].id == activeSection {
          var i :| 0 <= i < |links| && links[i].id == activeSection;
          assert rest[i - 1] == links[i];
        }
        if exists i :: 0 <= i < |rest| && rest[i].id == activeSection {
          var i :| 0 <= i < |rest| && rest[i].id == activeSection;
          assert links[i + 1] == rest[i];
        }
      }
    }
  }

  /**
   * In the header, one link is active when the section is known and none when
   * the URL named a section that is not a link.
   */
  lemma HeaderActiveLinks(activeSection: string)
    ensures ActiveCount(NAV_LINKS, activeSection) <= 1
    ensures ActiveCount(NAV_LINKS, activeSection) == 1 <==>
      exists i :: 0 <= i < |NAV_LINKS| && NAV_LINKS[i].id == activeSection
  {
    NavLinkIdsDistinct();
    ActiveCountOfDistinct(NAV_LINKS, activeSection);
  }

  /** One header button: its text, whether it is highlighted, the contact icon, the pulse dot. */
  datatype Button = Button(caption: string, active: bool, mailIcon: bool, pulseDot: bool)

  /** The desktop buttons, one per link in link order. */
  function DesktopButtons(links: seq<NavLink>, activeSection: string): (buttons: seq<Button>)
    ensures |buttons| == |links|
    ensures forall i :: 0 <= i < |links| ==>
      buttons[i].caption == links[i].caption &&
      (buttons[i].active <==> IsActive(activeSection, links[i])) &&
      (buttons[i].mailIcon <==> links[i].id == CONTACT) &&
      (buttons[i].pulseDot <==> links[i].id != CONTACT && IsActive(activeSection, links[i]))
  {
    if links == [] then []
    else
      var link := links[0];
      var isActive := IsActive(activeSection, link);
      var isContact := link.id == CONTACT;
      [Button(link.caption, isActive, isContact, !isContact && isActive)] + DesktopButtons(links[1..], activeSection)
  }

  /** The mobile menu: the same buttons without the pulse dot, shown only while the menu is open. */
  function MobileButtons(links: seq<NavLink>, activeSection: string, isMenuOpen: bool): (buttons: seq<Button>)
    ensures !isMenuOpen ==> buttons == []
    ensures isMenuOpen ==> |buttons| == |links|
    ensures isMenuOpen ==> forall i :: 0 <= i < |links| ==>
      buttons[i] == Button(links[i].caption, IsActive(activeSection, links[i]), links[i].id == CONTACT, false)
  {
    if !isMenuOpen || links == [] then []
    else
      var link := links[0];
      [Button(link.caption, IsActive(activeSection, link), link.id == CONTACT, false)]
        + MobileButtons(links[1..], activeSection, isMenuOpen)
  }

  // ---------------------------------------------------------------------------
  // The component's state
  // ---------------------------------------------------------------------------

  /** The header's state, with the router's current URL beside it. */
  class NavigationBar {
    var activeSection: string
    var isMenuOpen: bool
    var url: string

    /**
     * Mounting at `url`: the state starts at `home` with the menu closed, and the URL effect's
     * first run, which React makes on mount, then takes the section from the query.
     */
    constructor (url: string)
      ensures !isMenuOpen && this.url == url
      ensures activeSection == SectionFromQuery(SectionParam(url))
      ensures url == "/" ==> activeSection == HOME
      ensures SectionParam(url).Some? && SectionParam(url).value != "" ==> activeSection == SectionParam(url).value
    {
      activeSection := HOME;
      isMenuOpen := false;
      this.url := url;
      activeSection := SectionFromQuery(SectionParam(url));
    }

    /** `handleIntersection`: the entries are applied in order, each intersecting one taking over. */
    method HandleIntersection(entries: seq<Entry>)
      modifies this`activeSection
      ensures activeSection == AfterEntries(old(activeSection), entries)
      ensures NoneIntersecting(entries) ==> activeSection == old(activeSection)
      ensures forall i :: LastIntersectingAt(entries, i) ==> activeSection == entries[i].targetId
    {
      for k := 0 to |entries|
        invariant activeSection == AfterEntries(old(activeSection), entries[..k])
      {
        assert entries[..k + 1][..k] == entries[..k];
        if entries[k].isIntersecting {
          activeSection := entries[k].targetId;
        }
      }
      assert entries[..|entries|] == entries;
      LastIntersectingWins(old(activeSection), entries);
    }

    /** The effect that runs when the URL's query changes. */
    method UrlChanged()
      modifies this`activeSection
      ensures activeSection == SectionFromQuery(SectionParam(url))
    {
      activeSection := SectionFromQuery(SectionParam(url));
    }

    /** `handleNavClick`: push the href and close the menu. */
    method NavClick(href: string)
      modifies this`url, this`isMenuOpen
      ensures url == href && !isMenuOpen
    {
      url := href;
      isMenuOpen := false;
    }

    /** The hamburger button. */
    method ToggleMenu()
      modifies this`isMenuOpen
      ensures isMenuOpen == !old(isMenuOpen)
    {
      isMenuOpen := !isMenuOpen;
    }

    /**
     * Clicking a header link (the brand button is the home link): the menu
     * closes and, when the URL changed, the URL effect selects the link's section.
     */
    method ClickLink(link: NavLink)
      requires link in NAV_LINKS
      modifies this
      ensures url == link.href && !isMenuOpen
      ensures old(url) != link.href ==> activeSection == link.id
      ensures old(url) == link.href ==> activeSection == old(activeSection)
    {
      var before := url;
      NavClick(link.href);
      if url != before {
        UrlChanged();
        EveryHrefNamesItsId();
        HrefLeadsToId(link);
      }
    }
  }

  /** Two presses of the menu button leave it as it was. */
  method ToggleMenuTwice(bar: NavigationBar)
    modifies bar`isMenuOpen
    ensures bar.isMenuOpen == old(bar.isMenuOpen)
  {
    bar.ToggleMenu();
    bar.ToggleMenu();
  }
}
