/**
 * The root application shell of the portfolio site: the section dispatch of
 * `App.renderContent`, the fixed navigation menu, and the navigation state
 * (the active tab id held by `App` and the mobile-menu flag held by
 * `Navigation`), changed only by tab clicks and the burger button.
 */
module App {
  import opened Options

  /** The eight content sections the dispatch can render. */
  datatype Section =
    | Home | Projects | Research | Experience
    | Volunteering | Achievements | Contact | Blog

  /** The tab id string whose `case` selects each section. */
  function SectionId(s: Section): string
  {
    match s
    case Home => "home"
    case Projects => "projects"
    case Research => "research"
    case Experience => "experience"
    case Volunteering => "volunteering"
    case Achievements => "achievements"
    case Contact => "contact"
    case Blog => "blog"
  }

  /** `renderContent`: a switch on the active tab id with a default of Home. */
  function RenderContent(activeTab: string): Section
  {
    match activeTab
    case "home" => Home
    case "projects" => Projects
    case "research" => Research
    case "experience" => Experience
    case "volunteering" => Volunteering
    case "achievements" => Achievements
    case "contact" => Contact
    case "blog" => Blog
    case _ => Home
  }

  /** True when some case of the dispatch names `id` (the default branch is not taken). */
  predicate HasCase(id: string)
  {
    exists s: Section {:trigger SectionId(s)} :: SectionId(s) == id
  }

  /** Every section's own id is dispatched back to that section. */
  lemma RenderContentOfId(s: Section)
    ensures RenderContent(SectionId(s)) == s
  {
  }

  /** Distinct sections have distinct case labels. */
  lemma {:induction false} SectionIdInjective(a: Section, b: Section)
    ensures SectionId(a) == SectionId(b) <==> a == b
  {
    if SectionId(a) == SectionId(b) {
      RenderContentOfId(a);
      RenderContentOfId(b);
    }
  }

  /**
   * The dispatch exactly: `id` renders section `s` iff `id` is the case label
   * of `s`, or `s` is Home and no case names `id` (the default branch).
   */
  lemma {:induction false} RenderContentExact(id: string, s: Section)
    ensures RenderContent(id) == s <==> id == SectionId(s) || (s == Home && !HasCase(id))
  {
    RenderContentOfId(s);
    if HasCase(id) {
      var t: Section :| SectionId(t) == id;
      RenderContentOfId(t);
      SectionIdInjective(s, t);
    } else {
      assert id != SectionId(Home) && id != SectionId(Projects) && id != SectionId(Research)
        && id != SectionId(Experience) && id != SectionId(Volunteering)
        && id != SectionId(Achievements) && id != SectionId(Contact) && id != SectionId(Blog);
    }
  }

  /** An id no case names falls to the default branch, Home. */
  lemma DefaultIsHome(id: string)
    requires !HasCase(id)
    ensures RenderContent(id) == Home
  {
    RenderContentExact(id, Home);
  }

  /** A menu entry: its tab id and its caption (the icon is presentational). */
  datatype MenuTab = MenuTab(id: string, caption: string)

  /** The `tabs` list of `Navigation`, in menu order. */
  const Tabs: seq<MenuTab> := [
    MenuTab("projects", "Projects"),
    MenuTab("research", "Research & Patents"),
    MenuTab("experience", "Experience"),
    MenuTab("volunteering", "Volunteering"),
    MenuTab("achievements", "Achievements"),
    MenuTab("contact", "Contact")
  ]

  /** The tab id the logo (the site owner's name) selects. */
  const LogoTabId: string := "home"

  predicate IsMenuId(id: string)
  {
    exists i :: 0 <= i < |Tabs| && Tabs[i].id == id
  }

  /** Menu ids are pairwise distinct, as their use as React keys needs. */
  lemma MenuIdsDistinct()
    ensures forall i, j :: 0 <= i < |Tabs| && 0 <= j < |Tabs| && Tabs[i].id == Tabs[j].id ==> i == j
  {
  }

  /**
   * Every menu id is the case label of its own section, which is not Home,
   * so no menu entry reaches the default branch.
   */
  lemma MenuIdsDispatch()
    ensures forall i :: 0 <= i < |Tabs| ==>
      RenderContent(Tabs[i].id) != Home && SectionId(RenderContent(Tabs[i].id)) == Tabs[i].id
  {
  }

  /** The logo selects Home through its own case; "blog" is dispatched but no menu entry names it. */
  lemma LogoAndBlog()
    ensures RenderContent(LogoTabId) == Home && !IsMenuId(LogoTabId)
    ensures !IsMenuId(SectionId(Blog)) && RenderContent(SectionId(Blog)) == Blog
  {
  }

  /** A desktop or mobile menu button is highlighted when its id is the active tab. */
  predicate IsHighlighted(activeTab: string, i: nat)
    requires i < |Tabs|
  {
    Tabs[i].id == activeTab
  }

  /** At most one menu button is highlighted, and none while Home is shown through the logo. */
  lemma {:induction false} AtMostOneHighlighted(activeTab: string, i: nat, j: nat)
    requires i < |Tabs| && j < |Tabs|
    ensures IsHighlighted(activeTab, i) && IsHighlighted(activeTab, j) ==> i == j
    ensures activeTab == LogoTabId ==> !IsHighlighted(activeTab, i)
  {
    MenuIdsDistinct();
  }

  /** The navigation state: the active tab id and whether the mobile menu is open. */
  datatype NavState = NavState(activeTab: string, menuOpen: bool)

  /** `useState('home')` in App and `useState(false)` in Navigation. */
  const Initial: NavState := NavState("home", false)

  /** A tab click (`handleTabClick(id)`) or a press of the burger button. */
  datatype NavEvent = TabClick(id: string) | Toggle

  /** The effect of one event. */
  function Step(s: NavState, e: NavEvent): NavState
  {
    match e
    case TabClick(id) => NavState(id, false)
    case Toggle => s.(menuOpen := !s.menuOpen)
  }

  /** The state after a sequence of events, the last event applied last. */
  function Run(s: NavState, evs: seq<NavEvent>): NavState
    decreases |evs|
  {
    if evs == [] then s else Step(Run(s, evs[..|evs| - 1]), evs[|evs| - 1])
  }

  /** The id of the most recent tab click in `evs`, if any. */
  function LastClicked(evs: seq<NavEvent>): Option<string>
    decreases |evs|
  {
    if evs == [] then None
    else match evs[|evs| - 1]
      case TabClick(id) => Some(id)
      case Toggle => LastClicked(evs[..|evs| - 1])
  }

  /** The number of burger presses after the most recent tab click. */
  function TogglesSinceClick(evs: seq<NavEvent>): nat
    decreases |evs|
  {
    if evs == [] then 0
    else match evs[|evs| - 1]
      case TabClick(_) => 0
      case Toggle => 1 + TogglesSinceClick(evs[..|evs| - 1])
  }

  /**
   * After any events, the active tab is the most recently clicked id (or the
   * starting one when nothing was clicked), and the menu is open iff an odd
   * number of burger presses followed the last click (starting from the
   * initial flag when nothing was clicked): a tab click always closes the
   * menu, the burger flips it, and nothing else changes it.
   */
  lemma {:induction false} RunNav(s: NavState, evs: seq<NavEvent>)
    ensures Run(s, evs).activeTab == (if LastClicked(evs).Some? then LastClicked(evs).value else s.activeTab)
    ensures Run(s, evs).menuOpen == ((LastClicked(evs).None? && s.menuOpen) != (TogglesSinceClick(evs) % 2 == 1))
    decreases |evs|
  {
    if evs != [] {
      RunNav(s, evs[..|evs| - 1]);
    }
  }

  /** The events the page can produce: the logo, a menu button, or the burger. */
  predicate FromUi(e: NavEvent)
  {
    e.Toggle? || e.id == LogoTabId || IsMenuId(e.id)
  }

  /**
   * From the initial state, events the page can produce keep the active tab
   * on the logo's id or a menu id: the default branch of the dispatch is
   * never taken and the Blog section is never shown.
   */
  lemma {:induction false} UiReachesOnlyMenuSections(evs: seq<NavEvent>)
    requires forall k :: 0 <= k < |evs| ==> FromUi(evs[k])
    ensures var t := Run(Initial, evs).activeTab;
      (t == LogoTabId || IsMenuId(t)) && HasCase(t) && RenderContent(t) != Blog
    decreases |evs|
  {
    if evs != [] {
      UiReachesOnlyMenuSections(evs[..|evs| - 1]);
    }
    var t := Run(Initial, evs).activeTab;
    MenuIdsDispatch();
    LogoAndBlog();
    assert SectionId(RenderContent(t)) == t;
  }

  /** The navigation state, as one object: `App`'s active tab and `Navigation`'s menu flag. */
  class Navigation {
    var activeTab: string
    var menuOpen: bool

    function State(): NavState
      reads this
    {
      NavState(activeTab, menuOpen)
    }

    constructor ()
      ensures State() == Initial
      ensures activeTab == "home" && !menuOpen
    {
      activeTab := "home";
      menuOpen := false;
    }

    /** `handleTabClick`: select the tab and force the mobile menu closed, in one transition. */
    method HandleTabClick(id: string)
      modifies this
      ensures State() == Step(old(State()), TabClick(id))
      ensures activeTab == id && !menuOpen
    {
      activeTab := id;
      menuOpen := false;
    }

    /** The burger button: flip the menu, leave the tab. */
    method ToggleMenu()
      modifies this
      ensures State() == Step(old(State()), Toggle)
      ensures activeTab == old(activeTab) && menuOpen == !old(menuOpen)
    {
      menuOpen := !menuOpen;
    }

    /** A click on the logo selects Home. */
    method ClickLogo()
      modifies this
      ensures State() == Step(old(State()), TabClick(LogoTabId))
      ensures RenderContent(activeTab) == Home && !menuOpen
    {
      HandleTabClick(LogoTabId);
    }

    /** A click on the `i`-th desktop or mobile menu button. */
    method ClickMenuTab(i: nat)
      requires i < |Tabs|
      modifies this
      ensures State() == Step(old(State()), TabClick(Tabs[i].id))
      ensures activeTab == Tabs[i].id && !menuOpen
      ensures SectionId(RenderContent(activeTab)) == Tabs[i].id && RenderContent(activeTab) != Home
    {
      MenuIdsDispatch();
      HandleTabClick(Tabs[i].id);
    }
  }
}
