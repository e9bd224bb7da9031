/** NoDecentDiary's main layout: the bottom navigation bar, shown only on
    the pages its buttons lead to, with the selected button's filled icon. */
module MainLayout {
  import opened Text

  datatype NavigationButton = NavigationButton(Id: int, Title: string, Icon: string, SelectIcon: string, Href: string)

  /** The three buttons of the bar: diaries, history and the user's page.
      Each id is the button's position, and no target holds a query. */
  function NavigationButtons(): (r: seq<NavigationButton>)
    ensures |r| == 3
    ensures forall i :: 0 <= i < |r| ==> r[i].Id == i && '?' !in r[i].Href
  {
    NoQueryInTargets();
    [
      NavigationButton(0, "Main.Diary", "mdi-notebook-outline", "mdi-notebook", ""),
      NavigationButton(1, "Main.History", "mdi-clock-outline", "mdi-clock", "History"),
      NavigationButton(2, "Main.Mine", "mdi-account-outline", "mdi-account", "Mine")
    ]
  }

  lemma NoQueryInTargets()
    ensures '?' !in "" && '?' !in "History" && '?' !in "Mine"
  {
  }

  /** The icon of a button: filled when it is the selected one. */
  function GetIcon(selectedItem: int, button: NavigationButton): (icon: string)
    ensures selectedItem == button.Id ==> icon == button.SelectIcon
    ensures selectedItem != button.Id ==> icon == button.Icon
  {
    if selectedItem == button.Id then button.SelectIcon else button.Icon
  }

  /** Whether `path` is the page `href`, with or without a query string. */
  predicate IsPageOf(path: string, href: string) {
    path == href || href + "?" <= path
  }

  /** Whether the bar is shown for a path relative to the app's base: when
      its part before the query string is some button's target, that is,
      when the path is a button's page, with or without a query. */
  function ShowBottomNavigation(relativePath: string): (shown: bool)
    ensures shown <==> exists i :: 0 <= i < |NavigationButtons()| && IsPageOf(relativePath, NavigationButtons()[i].Href)
  {
    var buttons := NavigationButtons();
    forall i | 0 <= i < |buttons| ensures buttons[i].Href == BeforeFirst(relativePath, '?') <==> IsPageOf(relativePath, buttons[i].Href) {
      BeforeQueryIsPage(relativePath, buttons[i].Href);
    }
    exists i :: 0 <= i < |buttons| && buttons[i].Href == BeforeFirst(relativePath, '?')
  }

  /** The part of a path before its query is a page exactly when the path
      is that page, with or without a query. */
  lemma BeforeQueryIsPage(path: string, href: string)
    requires '?' !in href
    ensures BeforeFirst(path, '?') == href <==> IsPageOf(path, href)
  {
    if href + "?" <= path {
      var rest := path[|href| + 1..];
      assert path == href + ['?'] + rest;
      SplitConcat(href, rest, '?');
      SplitNone(href, '?');
    } else if path == href {
      SplitNone(href, '?');
    }
  }

  /** The bar is shown exactly on the three pages of its buttons. */
  lemma ShownOnButtonPages(relativePath: string)
    ensures ShowBottomNavigation(relativePath) <==> BeforeFirst(relativePath, '?') in {"", "History", "Mine"}
  {
    var p := BeforeFirst(relativePath, '?');
    if p == "" { assert NavigationButtons()[0].Href == p; }
    if p == "History" { assert NavigationButtons()[1].Href == p; }
    if p == "Mine" { assert NavigationButtons()[2].Href == p; }
  }

  /** A query string never changes whether the bar is shown. */
  lemma {:induction false} QueryIgnored(path: string, query: string)
    ensures ShowBottomNavigation(path + "?" + query) == ShowBottomNavigation(path)
  {
    SplitConcat(path, query, '?');
    assert (Split(path, '?') + Split(query, '?'))[0] == Split(path, '?')[0];
  }

  /** The application's root shows the bar with the diary button, and so
      do the other two pages. */
  lemma ShownOnRootAndButtons()
    ensures ShowBottomNavigation("") && ShowBottomNavigation("History") && ShowBottomNavigation("Mine")
  {
    BeforeQueryOfPlainPath("");
    BeforeQueryOfPlainPath("History");
    BeforeQueryOfPlainPath("Mine");
    assert NavigationButtons()[0].Href == "" && NavigationButtons()[1].Href == "History" && NavigationButtons()[2].Href == "Mine";
  }

  /** A path without a query string is its own part before the query. */
  lemma BeforeQueryOfPlainPath(path: string)
    requires '?' !in path
    ensures BeforeFirst(path, '?') == path
  {
    SplitNone(path, '?');
  }

  /** The buttons' ids are their positions, so at most one is selected. */
  lemma OneButtonSelected(selectedItem: int, i: int, j: int)
    requires 0 <= i < j < |NavigationButtons()|
    ensures GetIcon(selectedItem, NavigationButtons()[i]) == NavigationButtons()[i].Icon
         || GetIcon(selectedItem, NavigationButtons()[j]) == NavigationButtons()[j].Icon
  {
  }
}
