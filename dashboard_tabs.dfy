/** The dashboard's tab strip (`src/components/DashboardTabs.tsx`): the
    active tab, the keyboard navigation between tabs, and the per-tab data
    cache with its five-minute freshness. The `dashboardTabSwitch` event a
    switch dispatches is returned; the clock is an input. */
module DashboardTabs {
  import opened Wrappers

  datatype Tab = DashboardTab | WellnessTab | SampleTab

  /** The element a key press happened on: one of the tab buttons, or
      anything else on the page. */
  datatype KeyTarget = TabButton(tab: Tab) | Elsewhere

  const CacheLifetimeMs: int := 300000

  datatype TabData<D> = TabData(lastRefresh: int, data: D)

  /** `isCacheFresh`: refreshed less than five minutes ago. */
  predicate IsCacheFresh<D>(tabData: Option<TabData<D>>, now: int)
  {
    tabData.Some? && now - tabData.value.lastRefresh < CacheLifetimeMs
  }

  /** Data stored now is fresh for exactly five minutes. */
  lemma FreshForFiveMinutes<D>(data: D, stored: int, now: int)
    ensures IsCacheFresh(Some(TabData(stored, data)), now) <==> now < stored + 300000
    ensures !IsCacheFresh<D>(None, now)
  {
  }

  /** The tab a key asks for, if any. ArrowLeft and ArrowRight step along
      dashboard, wellness, sample without wrapping; Home and End jump to the
      ends. Keys are only listened to on the dashboard and wellness
      buttons. */
  function KeyTargetTab(target: KeyTarget, key: string, active: Tab): (r: Option<Tab>)
    ensures !(target == TabButton(DashboardTab) || target == TabButton(WellnessTab)) ==> r == None
    ensures (target == TabButton(DashboardTab) || target == TabButton(WellnessTab)) ==>
      (key == "Home" ==> r == Some(DashboardTab)) &&
      (key == "End" ==> r == Some(SampleTab)) &&
      (key == "ArrowRight" ==> r == (if active == DashboardTab then Some(WellnessTab) else if active == WellnessTab then Some(SampleTab) else None)) &&
      (key == "ArrowLeft" ==> r == (if active == SampleTab then Some(WellnessTab) else if active == WellnessTab then Some(DashboardTab) else None)) &&
      (!(key in {"Home", "End", "ArrowLeft", "ArrowRight"}) ==> r == None)
  {
    if !(target == TabButton(DashboardTab) || target == TabButton(WellnessTab)) then None
    else if key == "ArrowLeft" then
      (if active == WellnessTab then Some(DashboardTab) else if active == SampleTab then Some(WellnessTab) else None)
    else if key == "ArrowRight" then
      (if active == DashboardTab then Some(WellnessTab) else if active == WellnessTab then Some(SampleTab) else None)
    else if key == "Home" then Some(DashboardTab)
    else if key == "End" then Some(SampleTab)
    else None
  }

  function Position(t: Tab): nat
  {
    match t
    case DashboardTab => 0
    case WellnessTab => 1
    case SampleTab => 2
  }

  /** The arrows move exactly one step, never past either end. */
  lemma ArrowsStepByOne(target: KeyTarget, active: Tab)
    requires target == TabButton(DashboardTab) || target == TabButton(WellnessTab)
    ensures var r := KeyTargetTab(target, "ArrowRight", active);
      (r.Some? <==> active != SampleTab) && (r.Some? ==> Position(r.value) == Position(active) + 1)
    ensures var l := KeyTargetTab(target, "ArrowLeft", active);
      (l.Some? <==> active != DashboardTab) && (l.Some? ==> Position(l.value) + 1 == Position(active))
  {
  }

  /** `aria-selected` and `tabIndex` of a tab button. */
  function TabIndex(active: Tab, t: Tab): (i: int)
    ensures i == 0 <==> t == active
    ensures i == 0 || i == -1
  {
    if t == active then 0 else -1
  }

  /** Exactly one tab is selected and focusable. */
  lemma ExactlyOneSelected(active: Tab)
    ensures exists t :: TabIndex(active, t) == 0
    ensures forall t, u :: TabIndex(active, t) == 0 && TabIndex(active, u) == 0 ==> t == u
  {
    assert TabIndex(active, active) == 0;
  }

  class Tabs<D> {
    var activeTab: Tab
    var dashboardData: Option<TabData<D>>
    var wellnessData: Option<TabData<D>>
    var sampleData: Option<TabData<D>>

    /** The default tab is the dashboard; the caches start empty. */
    constructor (defaultTab: Option<Tab>)
      ensures activeTab == defaultTab.GetOr(DashboardTab)
      ensures dashboardData == None && wellnessData == None && sampleData == None
    {
      activeTab := defaultTab.GetOr(DashboardTab);
      dashboardData, wellnessData, sampleData := None, None, None;
    }

    /** `handleTabSwitch`: the active tab is a no-op; any other becomes
        active and is announced in a `dashboardTabSwitch` event. The caches
        are untouched. */
    method SwitchTo(tab: Tab) returns (event: Option<Tab>)
      modifies this
      ensures tab == old(activeTab) ==> event == None && activeTab == old(activeTab)
      ensures tab != old(activeTab) ==> event == Some(tab) && activeTab == tab
      ensures dashboardData == old(dashboardData) && wellnessData == old(wellnessData) && sampleData == old(sampleData)
    {
      if tab == activeTab {
        event := None;
      } else {
        activeTab := tab;
        event := Some(tab);
      }
    }

    /** The keyboard handler: the key's tab, if any, is switched to. */
    method KeyDown(target: KeyTarget, key: string) returns (event: Option<Tab>)
      modifies this
      ensures var r := KeyTargetTab(target, key, old(activeTab));
        (r.None? ==> event == None && activeTab == old(activeTab)) &&
        (r.Some? ==> activeTab == r.value && (event.Some? <==> r.value != old(activeTab)))
      ensures dashboardData == old(dashboardData) && wellnessData == old(wellnessData) && sampleData == old(sampleData)
    {
      var r := KeyTargetTab(target, key, activeTab);
      if r.Some? {
        event := SwitchTo(r.value);
      } else {
        event := None;
      }
    }

    /** `updateTabData`: only the given tab's cache entry is replaced. */
    method UpdateTabData(tab: Tab, data: D, now: int)
      modifies this
      ensures tab == DashboardTab ==> dashboardData == Some(TabData(now, data))
      ensures tab != DashboardTab ==> dashboardData == old(dashboardData)
      ensures tab == WellnessTab ==> wellnessData == Some(TabData(now, data))
      ensures tab != WellnessTab ==> wellnessData == old(wellnessData)
      ensures tab == SampleTab ==> sampleData == Some(TabData(now, data))
      ensures tab != SampleTab ==> sampleData == old(sampleData)
      ensures activeTab == old(activeTab)
    {
      match tab
      case DashboardTab => dashboardData := Some(TabData(now, data));
      case WellnessTab => wellnessData := Some(TabData(now, data));
      case SampleTab => sampleData := Some(TabData(now, data));
    }
  }
}
