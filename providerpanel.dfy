/**
 * The provider sidebar of the dashboard (js/api-service.js): the provider list sorted by first
 * name and filtered by the search box, and the hover preview panel with its open/closed state.
 */
module ProviderPanel {
  import opened Common
  import opened Text
  import opened Sorting
  import opened Js
  import opened PrefRender
  import PinBoard

  /** A provider row: the id its dataset attribute holds and the name it shows. */
  datatype Provider = Provider(id: string, name: string)

  /** The sort key: `name.split(' ')[0].toLowerCase()`. */
  function FirstNameKey(p: Provider): string {
    Lower(FirstSpaceWord(p.name))
  }

  /** `allProviders.sort(...)` with the comparator of js/api-service.js (and script.js): a stable
      sort by the first-name key under JavaScript's `<` on strings. */
  function SortProviders(ps: seq<Provider>): seq<Provider> {
    SortBy(ps, FirstNameKey, LexLess)
  }

  lemma LexLessIsStrictOrder()
    ensures StrictOrder(LexLess)
  {
    forall a ensures !LexLess(a, a) { LexLessIrreflexive(a); }
    forall a, b, c | LexLess(a, b) && LexLess(b, c) ensures LexLess(a, c) { LexLessTransitive(a, b, c); }
  }

  /** The sorted list holds the same providers, ordered by first name; rows with the same first
      name keep their order. */
  lemma SortProvidersCorrect(ps: seq<Provider>, k: string)
    ensures multiset(SortProviders(ps)) == multiset(ps)
    ensures forall i, j :: 0 <= i < j < |SortProviders(ps)| ==>
      !LexLess(FirstNameKey(SortProviders(ps)[j]), FirstNameKey(SortProviders(ps)[i]))
    ensures WithKey(SortProviders(ps), FirstNameKey, k) == WithKey(ps, FirstNameKey, k)
  {
    LexLessIsStrictOrder();
    SortByPermutes(ps, FirstNameKey, LexLess);
    SortBySorted(ps, FirstNameKey, LexLess);
    SortByStable(ps, FirstNameKey, LexLess, k);
  }

  /** Sorted by the first-name key in the strong sense: the keys never decrease. */
  lemma SortedKeysNonDecreasing(ps: seq<Provider>, i: nat, j: nat)
    requires i < j < |SortProviders(ps)|
    ensures var s := SortProviders(ps);
      FirstNameKey(s[i]) == FirstNameKey(s[j]) || LexLess(FirstNameKey(s[i]), FirstNameKey(s[j]))
  {
    var s := SortProviders(ps);
    SortProvidersCorrect(ps, "");
    if FirstNameKey(s[i]) != FirstNameKey(s[j]) {
      LexLessTotal(FirstNameKey(s[i]), FirstNameKey(s[j]));
    }
  }

  /** The query the search box handler uses: the value trimmed and lower-cased. */
  function SearchQuery(value: string): string {
    Lower(Trim(value, JavaScript))
  }

  predicate NameMatches(p: Provider, query: string) {
    Contains(Lower(p.name), query)
  }

  /** `providers.filter(provider => provider.name.toLowerCase().includes(query))` */
  function Matching(all: seq<Provider>, query: string): seq<Provider> {
    Filter(all, p => NameMatches(p, query))
  }

  /** The providers the search box shows for input `value`, out of the sorted list `all`. */
  function Search(all: seq<Provider>, value: string): (r: seq<Provider>)
    ensures SearchQuery(value) == [] ==> r == all
  {
    var query := SearchQuery(value);
    if query != [] then Matching(all, query) else all
  }

  /** A non-empty query shows exactly the providers whose lower-cased name contains it, in list order. */
  lemma SearchShowsMatches(all: seq<Provider>, value: string)
    ensures var r := Search(all, value);
      (forall p :: p in r <==> p in all && NameMatches(p, SearchQuery(value))) &&
      IsSubsequence(r, all)
  {
    var query := SearchQuery(value);
    if query != [] {
      FilterKeepsAllPassing(all, p => NameMatches(p, query));
      FilterIsSubsequence(all, p => NameMatches(p, query));
    } else {
      forall p | p in all ensures NameMatches(p, query) {
        assert OccursAt(Lower(p.name), query, 0);
      }
      SubsequenceOfItself(all);
    }
  }

  /** What the list div shows. */
  datatype ListView = NotLoaded | LoadFailed | Rows(rows: seq<Provider>)

  /** fetchAndDisplayProviders: the sorted providers and the list they render. */
  class ProviderList {
    var all: seq<Provider>
    var view: ListView

    constructor ()
      ensures all == [] && view == NotLoaded
    {
      all := [];
      view := NotLoaded;
    }

    /** The /providers response arrived: None for a non-OK status or a failed request. */
    method Load(response: Option<seq<Provider>>)
      modifies this
      ensures response.Some? ==> all == SortProviders(response.value) && view == Rows(all)
      ensures response.None? ==> all == old(all) && view == LoadFailed
    {
      if response.Some? {
        all := SortProviders(response.value);
        view := Rows(all);
      } else {
        view := LoadFailed;
      }
    }

    /** The `input` handler of the search box, installed only once the list is loaded. */
    method Input(value: string)
      modifies this`view
      ensures old(view).Rows? ==> view == Rows(Search(all, value))
      ensures !old(view).Rows? ==> view == old(view)
    {
      if view.Rows? {
        var query := SearchQuery(value);
        if query != [] {
          view := Rows(Matching(all, query));
        } else {
          view := Rows(all);
        }
      }
    }
  }

  // ----- The preview panel -----

  datatype PanelContent =
    | Preview(title: string, details: seq<Token>)  // "<name> Preferences" and the details
    | LoadError(message: string)                   // the error paragraph

  /**
   * The #preferencesPanel element: whether it has the class `open`, what it shows, and whether
   * its mouseleave listener is attached (only a panel created by a successful preview gets one).
   */
  datatype Panel = Panel(openClass: bool, content: PanelContent, closesOnLeave: bool)

  datatype PanelState = PanelState(
    currentProviderId: JsValue,
    panelOpen: bool,
    panel: Option<Panel>,
    sidebarOpen: bool)

  /** The flag panelOpen mirrors the panel's `open` class, and there is no open flag without a panel. */
  predicate PanelConsistent(s: PanelState) {
    match s.panel
    case None => !s.panelOpen
    case Some(p) => p.openClass == s.panelOpen
  }

  function ErrorMessage(name: string): string {
    "Failed to load preferences for " + name + "."
  }

  /** mouseenter on a provider row: remember its id and open the panel if there is one. */
  function EnterStep(s: PanelState, rowId: string): (r: PanelState)
    ensures r.currentProviderId == Text(rowId) && r.sidebarOpen == s.sidebarOpen
    ensures r.panel.Some? == s.panel.Some?
    ensures r.panel.Some? ==>
      r.panelOpen && r.panel.value.openClass &&
      r.panel.value.content == s.panel.value.content && r.panel.value.closesOnLeave == s.panel.value.closesOnLeave
    ensures r.panel.None? ==> r.panelOpen == s.panelOpen
  {
    match s.panel
    case None => s.(currentProviderId := Text(rowId))
    case Some(p) => s.(currentProviderId := Text(rowId), panel := Some(p.(openClass := true)), panelOpen := true)
  }

  /** click on a provider row: remember its id, close the sidebar, and close the panel if it is open. */
  function ClickStep(s: PanelState, rowId: string): (r: PanelState)
    ensures r.currentProviderId == Text(rowId) && !r.sidebarOpen
    ensures r.panel.Some? == s.panel.Some?
    ensures r.panel.Some? ==>
      !r.panel.value.openClass &&
      r.panel.value.content == s.panel.value.content && r.panel.value.closesOnLeave == s.panel.value.closesOnLeave
    ensures s.panel.Some? && s.panel.value.openClass ==> !r.panelOpen
    ensures !(s.panel.Some? && s.panel.value.openClass) ==> r.panelOpen == s.panelOpen
  {
    var t := s.(currentProviderId := Text(rowId), sidebarOpen := false);
    match s.panel
    case Some(p) => if p.openClass then t.(panel := Some(p.(openClass := false)), panelOpen := false) else t
    case None => t
  }

  /** mouseleave on the panel, `relatedInSidebar` telling whether the cursor went into #sidebar. */
  function LeaveStep(s: PanelState, relatedInSidebar: bool): (r: PanelState)
    ensures r.currentProviderId == s.currentProviderId && r.sidebarOpen == s.sidebarOpen
    ensures r.panel.Some? == s.panel.Some?
    ensures r.panel.Some? ==>
      r.panel.value.content == s.panel.value.content && r.panel.value.closesOnLeave == s.panel.value.closesOnLeave
    ensures r.panelOpen ==> s.panelOpen
    ensures r != s <==> s.panel.Some? && s.panel.value.closesOnLeave && s.panelOpen && !relatedInSidebar
    ensures r != s ==> !r.panelOpen && !r.panel.value.openClass
  {
    match s.panel
    case Some(p) =>
      if p.closesOnLeave && s.panelOpen && !relatedInSidebar then
        s.(panel := Some(p.(openClass := false)), panelOpen := false)
      else s
    case None => s
  }

  /** The preview request for `name` answered OK with the preferences. */
  function LoadedStep(s: PanelState, name: string, prefs: PreferenceSet): (r: PanelState)
    ensures r.panel.Some? && r.panel.value.content == Preview(name + " Preferences", Rendered(prefs, HtmlVariant))
    ensures r.panelOpen == s.panelOpen && r.currentProviderId == s.currentProviderId && r.sidebarOpen == s.sidebarOpen
    ensures s.panel.None? ==> !r.panel.value.openClass && r.panel.value.closesOnLeave
    ensures s.panel.Some? ==>
      r.panel.value.openClass == s.panel.value.openClass && r.panel.value.closesOnLeave == s.panel.value.closesOnLeave
  {
    var content := Preview(name + " Preferences", Rendered(prefs, HtmlVariant));
    match s.panel
    case None => s.(panel := Some(Panel(false, content, true)))
    case Some(p) => s.(panel := Some(p.(content := content)))
  }

  /** The preview request for `name` answered with an error status or failed. */
  function FailedStep(s: PanelState, name: string): (r: PanelState)
    ensures !r.panelOpen && r.panel.Some? && r.panel.value.content == LoadError(ErrorMessage(name))
    ensures r.currentProviderId == s.currentProviderId && r.sidebarOpen == s.sidebarOpen
    ensures r.panel.value.closesOnLeave <==> s.panel.Some? && s.panel.value.closesOnLeave
    ensures PanelConsistent(s) ==> !r.panel.value.openClass
  {
    var content := LoadError(ErrorMessage(name));
    match s.panel
    case None => s.(panel := Some(Panel(false, content, false)), panelOpen := false)
    case Some(p) => s.(panel := Some(p.(content := content, openClass := if s.panelOpen then false else p.openClass)), panelOpen := false)
  }

  lemma StepsKeepConsistent(s: PanelState, id: string, inSidebar: bool, name: string, prefs: PreferenceSet)
    requires PanelConsistent(s)
    ensures PanelConsistent(EnterStep(s, id)) && PanelConsistent(ClickStep(s, id))
    ensures PanelConsistent(LeaveStep(s, inSidebar))
    ensures PanelConsistent(LoadedStep(s, name, prefs)) && PanelConsistent(FailedStep(s, name))
  {
  }

  /** Hovering a row opens the panel exactly when the panel exists. */
  lemma EnterOpensExistingPanel(s: PanelState, id: string)
    ensures EnterStep(s, id).panelOpen <==> s.panel.Some? || s.panelOpen
    ensures EnterStep(s, id).currentProviderId == Text(id)
  {
  }

  /** After a click on a row the panel is closed and the sidebar too, and the clicked id is current. */
  lemma ClickClosesPanel(s: PanelState, id: string)
    requires PanelConsistent(s)
    ensures var t := ClickStep(s, id);
      !t.panelOpen && !t.sidebarOpen && t.currentProviderId == Text(id) &&
      (t.panel.Some? <==> s.panel.Some?) && (t.panel.Some? ==> !t.panel.value.openClass)
  {
  }

  /** A failed preview leaves the panel closed and showing the error message. */
  lemma FailureLeavesClosed(s: PanelState, name: string)
    requires PanelConsistent(s)
    ensures var t := FailedStep(s, name);
      !t.panelOpen && t.panel.Some? && !t.panel.value.openClass &&
      t.panel.value.content == LoadError("Failed to load preferences for " + name + ".")
  {
  }

  /** Leaving the panel closes it only when it is open, has its listener and the cursor does not go
      into the sidebar; otherwise nothing changes. */
  lemma LeaveClosesOnlyWhenOpen(s: PanelState, inSidebar: bool)
    ensures LeaveStep(s, inSidebar) != s ==>
      s.panelOpen && !inSidebar && s.panel.Some? && s.panel.value.closesOnLeave
    ensures s.panelOpen && !inSidebar && s.panel.Some? && s.panel.value.closesOnLeave ==>
      !LeaveStep(s, inSidebar).panelOpen
  {
  }

  /** A panel first created by a failed preview never gets the mouseleave listener: once hovered
      open it stays open when the cursor leaves, until a click closes it. */
  lemma FailedPanelIgnoresLeave(s: PanelState, name: string, id: string, inSidebar: bool, name2: string, prefs: PreferenceSet)
    requires s.panel.None?
    ensures var t := EnterStep(FailedStep(s, name), id);
      t.panelOpen && LeaveStep(t, inSidebar) == t &&
      LeaveStep(LoadedStep(t, name2, prefs), inSidebar) == LoadedStep(t, name2, prefs)
    ensures !ClickStep(EnterStep(FailedStep(s, name), id), id).panelOpen
  {
  }

  /** The hover panel and the current provider id of js/api-service.js. */
  class PanelController {
    var currentProviderId: JsValue
    var panelOpen: bool
    var panel: Option<Panel>
    var sidebarOpen: bool

    function State(): PanelState
      reads this
    {
      PanelState(currentProviderId, panelOpen, panel, sidebarOpen)
    }

    ghost predicate Valid()
      reads this
    {
      PanelConsistent(State())
    }

    /** The globals of js/main.js: `currentProviderId = null`, `preferencesPanel = null`, `panelOpen = false`. */
    constructor (sidebarOpen: bool)
      ensures Valid() && State() == PanelState(Null, false, None, sidebarOpen)
    {
      currentProviderId := Null;
      panelOpen := false;
      panel := None;
      this.sidebarOpen := sidebarOpen;
    }

    method MouseEnter(rowId: string)
      requires Valid()
      modifies this
      ensures Valid() && State() == EnterStep(old(State()), rowId)
    {
      currentProviderId := Text(rowId);
      if panel.Some? {
        panel := Some(panel.value.(openClass := true));
        panelOpen := true;
      }
    }

    method Click(rowId: string)
      requires Valid()
      modifies this
      ensures Valid() && State() == ClickStep(old(State()), rowId)
    {
      currentProviderId := Text(rowId);
      sidebarOpen := false;
      if panel.Some? && panel.value.openClass {
        panel := Some(panel.value.(openClass := false));
        panelOpen := false;
      }
    }

    method PanelMouseLeave(relatedInSidebar: bool)
      requires Valid()
      modifies this
      ensures Valid() && State() == LeaveStep(old(State()), relatedInSidebar)
    {
      if panel.Some? && panel.value.closesOnLeave && panelOpen && !relatedInSidebar {
        panel := Some(panel.value.(openClass := false));
        panelOpen := false;
      }
    }

    method PreviewLoaded(name: string, prefs: PreferenceSet)
      requires Valid()
      modifies this
      ensures Valid() && State() == LoadedStep(old(State()), name, prefs)
    {
      var details := Render(prefs, HtmlVariant);
      var content := Preview(name + " Preferences", details);
      if panel.None? {
        panel := Some(Panel(false, content, true));
      } else {
        panel := Some(panel.value.(content := content));
      }
    }

    method PreviewFailed(name: string)
      requires Valid()
      modifies this
      ensures Valid() && State() == FailedStep(old(State()), name)
    {
      var content := LoadError(ErrorMessage(name));
      if panel.None? {
        panel := Some(Panel(false, content, false));
      } else {
        panel := Some(panel.value.(content := content));
      }
      if panelOpen {
        panel := Some(panel.value.(openClass := false));
      }
      panelOpen := false;
    }
  }

  /**
   * fetchProviderPreferencesAndPin: pin only when the request answered OK (`response` is the
   * decoded preferences); `windowId` is what pinCurrentPreferences reads as window.currentProviderId.
   */
  method PinAfterFetch(board: PinBoard.Board, response: Option<PreferenceSet>, windowId: JsValue, name: string)
    requires board.Valid()
    modifies board
    ensures board.Valid()
    ensures response.Some? ==> board.State() == PinBoard.PinStep(old(board.State()), windowId, name, response.value)
    ensures response.None? ==> board.State() == old(board.State())
  {
    if response.Some? {
      board.Pin(windowId, name, response.value);
    }
  }
}
