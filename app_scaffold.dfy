/**
 * AppScaffold.kt: the two bottom-bar tabs, the tab derived from the top of
 * the back stack, and what a tab tap does. The back stack is a field of
 * `AppNavigator`, top last; `GoTo` and `ResetRoot` state only what the
 * template relies on Circuit's navigator to do. `HomePresenter`'s one event
 * and the haptic navigation listener are the other two callers.
 */
module AppScaffold {
  import opened Wrappers
  import SearchScreen
  import HapticFeedback

  /** The screens on the back stack: `HomeScreen`, `SearchScreen(initialQuery)` and `SettingsScreen`. */
  datatype AppScreen = HomeRoot | SearchRoot(screen: SearchScreen.Screen) | SettingsRoot

  datatype NavigationTab = Home | Search

  /** Each tab's root screen; the search tab starts with an empty query. */
  function TabScreen(tab: NavigationTab): (screen: AppScreen)
    ensures tab == Home <==> screen == HomeRoot
    ensures tab == Search <==> screen == SearchRoot(SearchScreen.Screen(""))
  {
    match tab
    case Home => HomeRoot
    case Search => SearchRoot(SearchScreen.Screen())
  }

  /** `NavigationTab.entries`, in declaration order. */
  const Entries: seq<NavigationTab> := [Home, Search]

  /** `firstOrNull { it.screen == top }` over `tabs`. */
  function FirstMatching(tabs: seq<NavigationTab>, top: AppScreen): (found: Option<NavigationTab>)
    ensures found.None? <==> forall i :: 0 <= i < |tabs| ==> TabScreen(tabs[i]) != top
    ensures found.Some? ==>
              exists i :: 0 <= i < |tabs| && tabs[i] == found.value && TabScreen(tabs[i]) == top &&
                          forall j :: 0 <= j < i ==> TabScreen(tabs[j]) != top
  {
    if tabs == [] then None
    else if TabScreen(tabs[0]) == top then Some(tabs[0])
    else
      var rest := FirstMatching(tabs[1..], top);
      assert forall i :: 1 <= i < |tabs| ==> tabs[i] == tabs[1..][i - 1];
      assert rest.Some? ==> exists i :: 0 <= i < |tabs| && tabs[i] == rest.value && TabScreen(tabs[i]) == top &&
                                        forall j :: 0 <= j < i ==> TabScreen(tabs[j]) != top by {
        if rest.Some? {
          var k :| 0 <= k < |tabs[1..]| && tabs[1..][k] == rest.value && TabScreen(tabs[1..][k]) == top &&
                   forall j :: 0 <= j < k ==> TabScreen(tabs[1..][j]) != top;
          assert tabs[k + 1] == rest.value && TabScreen(tabs[k + 1]) == top;
          assert forall j :: 0 <= j < k + 1 ==> TabScreen(tabs[j]) != top;
        }
      }
      rest
  }

  /** The selected tab: the one whose root screen is on top of the stack, none for an empty stack or another screen. */
  function SelectedTabFor(top: Option<AppScreen>): (selected: Option<NavigationTab>)
    ensures selected.Some? <==> top.Some? && (top.value == HomeRoot || top.value == SearchRoot(SearchScreen.Screen("")))
    ensures selected.Some? ==> TabScreen(selected.value) == top.value
  {
    match top
    case None => None
    case Some(screen) => FirstMatching(Entries, screen)
  }

  /** The bottom bar is shown exactly while some tab is selected. */
  function BottomBarVisible(selected: Option<NavigationTab>): bool {
    selected.Some?
  }

  /** A tab shows its filled icon exactly while it is the selected one. */
  function IconFilled(tab: NavigationTab, selected: Option<NavigationTab>): bool {
    selected == Some(tab)
  }

  /** Each tab's root screen selects that tab, and only its filled icon is shown. */
  lemma TabRootSelectsTab(tab: NavigationTab)
    ensures SelectedTabFor(Some(TabScreen(tab))) == Some(tab)
    ensures forall other :: IconFilled(other, Some(tab)) <==> other == tab
  {
  }

  /** A search screen opened with a query is not the search tab's root, so it hides the bottom bar. */
  lemma SearchWithQuerySelectsNoTab(initialQuery: string)
    requires initialQuery != ""
    ensures !BottomBarVisible(SelectedTabFor(Some(SearchRoot(SearchScreen.Screen(initialQuery)))))
  {
  }

  class AppNavigator {
    /** `rememberSaveableBackStack`, top last. */
    var backStack: seq<AppScreen>
    /** The haptic kinds requested from `LocalHapticFeedbackManager`, in order. */
    var requested: seq<HapticFeedback.HapticFeedbackType>

    function Top(): Option<AppScreen>
      reads this
    {
      if backStack == [] then None else Some(backStack[|backStack| - 1])
    }

    function SelectedTab(): Option<NavigationTab>
      reads this
    {
      SelectedTabFor(Top())
    }

    /** The stack starts at `HomeScreen`, so the Home tab is selected and the bar shown. */
    constructor ()
      ensures backStack == [HomeRoot] && requested == []
      ensures SelectedTab() == Some(Home) && BottomBarVisible(SelectedTab())
    {
      backStack := [HomeRoot];
      requested := [];
    }

    /** `goTo` through the intercepting navigator: the listener requests a Navigation haptic, then the screen is pushed. */
    method GoTo(screen: AppScreen)
      modifies this
      ensures backStack == old(backStack) + [screen]
      ensures requested == old(requested) + [HapticFeedback.Navigation]
    {
      requested := requested + [HapticFeedback.Navigation];
      backStack := backStack + [screen];
    }

    /** `resetRoot`: the stack is replaced by the one screen; the listener does not react. */
    method ResetRoot(screen: AppScreen)
      modifies this
      ensures backStack == [screen] && requested == old(requested)
    {
      backStack := [screen];
    }

    /** A tap on a tab: always a TabClick haptic, and a reset to the tab's root only when it is not already selected. */
    method OnTabClick(tab: NavigationTab)
      modifies this
      ensures requested == old(requested) + [HapticFeedback.TabClick]
      ensures backStack == if old(SelectedTab()) == Some(tab) then old(backStack) else [TabScreen(tab)]
      ensures SelectedTab() == Some(tab)
    {
      var selected := SelectedTab() == Some(tab);
      requested := requested + [HapticFeedback.TabClick];
      if !selected {
        ResetRoot(TabScreen(tab));
        TabRootSelectsTab(tab);
      }
    }

    /** `HomePresenter`'s `ClickSettings`: the settings screen is pushed, which hides the bottom bar. */
    method ClickSettings()
      modifies this
      ensures backStack == old(backStack) + [SettingsRoot]
      ensures requested == old(requested) + [HapticFeedback.Navigation]
      ensures !BottomBarVisible(SelectedTab())
    {
      GoTo(SettingsRoot);
    }
  }

  /** From the start: open settings, then tap Search; the search tab is selected with a fresh root. */
  method SettingsThenSearchTab() returns (barShownOnSettings: bool, backStack: seq<AppScreen>,
                                          requested: seq<HapticFeedback.HapticFeedbackType>)
    ensures !barShownOnSettings
    ensures backStack == [SearchRoot(SearchScreen.Screen(""))]
    ensures requested == [HapticFeedback.Navigation, HapticFeedback.TabClick]
  {
    var nav := new AppNavigator();
    nav.ClickSettings();
    barShownOnSettings := BottomBarVisible(nav.SelectedTab());
    nav.OnTabClick(Search);
    backStack := nav.backStack;
    requested := nav.requested;
  }
}
