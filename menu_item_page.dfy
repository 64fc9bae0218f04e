/**
 * The menu-item page: the menu of one meal at one dining commons on one
 * date. From the route it builds one backend request; from the request's
 * current snapshot it picks a spinner, the menu-item table, or the message
 * that nothing is offered today. Its heading is the meal name with the
 * first letter capitalised.
 */
module MenuItemPage {
  import opened FetchState
  import RequestPath

  /** The route parameters `date-time`, `dining-commons-code` and `meal`. */
  datatype Params = Params(date: string, diningCommons: string, meal: string)

  /** What the menu-item table is handed: the signed-in user and the list. */
  datatype MenuItemTableProps<U, T> = MenuItemTableProps(currentUser: U, menuItems: seq<T>)

  /** One render of the page: its heading and the view below it. */
  datatype Screen<U, T> = Screen(heading: string, view: View<MenuItemTableProps<U, T>>)

  const LoadingText: string := "Loading menu items..."
  const EmptyText: string := "No menu items offered today."

  // ---------------------------------------------------------------------
  // Request URL and cache key

  function RequestUrl(p: Params): string
  {
    RequestPath.ApiRoot + p.date + "/" + p.diningCommons + "/" + p.meal
  }

  /** The URL is the '/'-join of the API path and the three route segments. */
  lemma UrlIsJoin(p: Params)
    ensures RequestUrl(p) == RequestPath.Join(["", "api", "diningcommons", p.date, p.diningCommons, p.meal])
  {
    var root := ["", "api", "diningcommons"];
    RequestPath.ApiRootIsJoin();
    RequestPath.JoinAppend(root, p.date);
    RequestPath.JoinAppend(root + [p.date], p.diningCommons);
    RequestPath.JoinAppend(root + [p.date] + [p.diningCommons], p.meal);
    assert root + [p.date] + [p.diningCommons] + [p.meal] == ["", "api", "diningcommons", p.date, p.diningCommons, p.meal];
  }

  /** The backend request: a GET of the page's URL, cached under a key that
      is the one-element list holding that same URL. */
  function Call(p: Params): (c: BackendCall)
    ensures c.queryKey == [c.url]
    ensures c.httpMethod == Some("GET")
    ensures |c.url| > |RequestPath.ApiRoot| && c.url[..|RequestPath.ApiRoot|] == RequestPath.ApiRoot
  {
    var url := RequestUrl(p);
    BackendCall([url], Some("GET"), url)
  }

  /** The URL splits back into the API path and the route, when no route
      segment holds a '/'. */
  lemma UrlSplitsIntoRoute(p: Params)
    requires RequestPath.SlashFree([p.date, p.diningCommons, p.meal])
    ensures RequestPath.Split(Call(p).url) == ["", "api", "diningcommons", p.date, p.diningCommons, p.meal]
  {
    UrlIsJoin(p);
    var segs := ["", "api", "diningcommons", p.date, p.diningCommons, p.meal];
    assert RequestPath.SlashFree(segs) by {
      forall i | 0 <= i < |segs| ensures '/' !in segs[i] {
        if i >= 3 { assert segs[i] == [p.date, p.diningCommons, p.meal][i - 3]; }
      }
    }
    RequestPath.SplitJoin(segs);
  }

  /** Routes whose segments hold no '/' get distinct cache keys. */
  lemma KeyInjectiveOnSlashFreeParams(p1: Params, p2: Params)
    requires RequestPath.SlashFree([p1.date, p1.diningCommons, p1.meal])
    requires RequestPath.SlashFree([p2.date, p2.diningCommons, p2.meal])
    ensures Call(p1).queryKey == Call(p2).queryKey <==> p1 == p2
  {
    if Call(p1).queryKey == Call(p2).queryKey {
      assert Call(p1).url == Call(p2).url;
      UrlSplitsIntoRoute(p1);
      UrlSplitsIntoRoute(p2);
    }
  }

  /** Without that restriction the key is not one-to-one: moving a '/'
      across a segment boundary gives the same key for different routes. */
  lemma KeyCollidesAcrossSlash(date: string, a: string, b: string, meal: string)
    ensures Params(date + "/" + a, b, meal) != Params(date, a + "/" + b, meal)
    ensures Call(Params(date + "/" + a, b, meal)).queryKey == Call(Params(date, a + "/" + b, meal)).queryKey
  {
    assert |date + "/" + a| != |date|;
    assert RequestUrl(Params(date + "/" + a, b, meal)) == RequestUrl(Params(date, a + "/" + b, meal));
  }

  // ---------------------------------------------------------------------
  // Heading

  /** `toUpperCase` on one character, for ASCII letters. */
  function UpperAscii(c: char): (u: char)
    ensures !('a' <= u <= 'z')
    ensures !('a' <= c <= 'z') ==> u == c
    ensures ('a' <= c <= 'z') ==> u as int + 32 == c as int
  {
    if 'a' <= c <= 'z' then (c as int - 32) as char else c
  }

  /** The heading `meal.at(0).toUpperCase() + meal.substring(1)`. On an
      empty meal `at(0)` yields undefined and the render throws: None. */
  function MealHeading(meal: string): (h: Option<string>)
    ensures h.Some? <==> |meal| > 0
    ensures h.Some? ==> |h.value| == |meal| && h.value[1..] == meal[1..]
    ensures h.Some? ==> h.value[0] == UpperAscii(meal[0])
    ensures h.Some? ==> !('a' <= h.value[0] <= 'z')
    ensures h.Some? && !('a' <= meal[0] <= 'z') ==> h.value == meal
  {
    if |meal| == 0 then None
    else
      assert [meal[0]] + meal[1..] == meal;
      Some([UpperAscii(meal[0])] + meal[1..])
  }

  /** A heading is already capitalised: capitalising it again changes nothing. */
  lemma HeadingIdempotent(meal: string)
    requires |meal| > 0
    ensures MealHeading(MealHeading(meal).value) == MealHeading(meal)
  {
  }

  /** The route `breakfast` is headed "Breakfast". */
  lemma BreakfastHeading()
    ensures MealHeading("breakfast") == Some("Breakfast")
  {
    var h := MealHeading("breakfast").value;
    assert h[0] == UpperAscii('b') == 'B';
    assert h == [h[0]] + h[1..];
    assert "breakfast"[1..] == "reakfast";
    assert "Breakfast" == ['B'] + "reakfast";
  }

  // ---------------------------------------------------------------------
  // View choice

  /** Fetching while the list is absent or the empty placeholder. */
  function IsLoading<T>(menuItems: Option<seq<T>>, isFetching: bool): (b: bool)
    ensures b ==> isFetching
    ensures b <==> isFetching && !HasData(menuItems)
  {
    isFetching && (menuItems.None? || |menuItems.value| == 0)
  }

  /** A fetched list with at least one item. */
  function HasData<T>(menuItems: Option<seq<T>>): (b: bool)
    ensures b <==> menuItems.Some? && menuItems.value != []
  {
    menuItems.Some? && |menuItems.value| > 0
  }

  /** Spinner if loading, else the table if there is data, else the message.
      The table depends only on the list, never on whether a fetch is in
      flight. */
  function ChooseView<U, T>(currentUser: U, menuItems: Option<seq<T>>, isFetching: bool)
    : (v: View<MenuItemTableProps<U, T>>)
    ensures v.Loading? <==> isFetching && (menuItems.None? || menuItems.value == [])
    ensures v.Table? <==> menuItems.Some? && menuItems.value != []
    ensures v.Empty? <==> !isFetching && (menuItems.None? || menuItems.value == [])
    ensures v.Table? ==> v.props == MenuItemTableProps(currentUser, menuItems.value)
  {
    if IsLoading(menuItems, isFetching) then Loading
    else if HasData(menuItems) then Table(MenuItemTableProps(currentUser, menuItems.value))
    else Empty
  }

  /** The status line shown with a view, if any. */
  function StatusText<P>(v: View<P>): (t: Option<string>)
    ensures t.None? <==> v.Table?
    ensures v.Loading? ==> t == Some(LoadingText)
    ensures v.Empty? ==> t == Some(EmptyText)
  {
    match v
    case Loading => Some(LoadingText)
    case Table(_) => None
    case Empty => Some(EmptyText)
  }

  /** The status line in terms of the snapshot: the loading caption exactly
      while fetching without data, nothing exactly when there is data, and
      the empty message exactly when settled without data. */
  lemma StatusTextOfSnapshot<U, T>(u: U, menuItems: Option<seq<T>>, isFetching: bool)
    ensures StatusText(ChooseView(u, menuItems, isFetching)) == Some(LoadingText) <==> isFetching && !HasData(menuItems)
    ensures StatusText(ChooseView(u, menuItems, isFetching)) == None <==> HasData(menuItems)
    ensures StatusText(ChooseView(u, menuItems, isFetching)) == Some(EmptyText) <==> !isFetching && !HasData(menuItems)
  {
  }

  /** One render of the page for a route and a query snapshot; None when the
      heading throws. Neither the query's error nor its status is read. */
  function Render<U, T, E>(p: Params, currentUser: U, q: Query<T, E>): (r: Option<Screen<U, T>>)
    ensures r.Some? <==> |p.meal| > 0
    ensures r.Some? ==> Some(r.value.heading) == MealHeading(p.meal)
    ensures r.Some? ==> r.value.view == ChooseView(currentUser, q.data, q.isFetching)
  {
    match MealHeading(p.meal)
    case None => None
    case Some(h) => Some(Screen(h, ChooseView(currentUser, q.data, q.isFetching)))
  }

  // ---------------------------------------------------------------------
  // Scenarios

  /** A first fetch with no list yet, or with the empty placeholder, shows
      the spinner and its text. */
  lemma SpinnerBeforeFirstData<U, T>(u: U, menuItems: Option<seq<T>>)
    requires menuItems == None || menuItems == Some([])
    ensures ChooseView(u, menuItems, true) == Loading
    ensures StatusText(ChooseView(u, menuItems, true)) == Some("Loading menu items...")
  {
  }

  /** A non-empty list shows the table whether or not a refetch is in
      flight, so a background refetch never flashes the spinner. */
  lemma NoSpinnerDuringRefetch<U, T>(u: U, items: seq<T>)
    requires items != []
    ensures ChooseView(u, Some(items), true) == ChooseView(u, Some(items), false)
    ensures ChooseView(u, Some(items), true) == Table(MenuItemTableProps(u, items))
    ensures StatusText(ChooseView(u, Some(items), true)) == None
  {
  }

  /** A settled empty list shows the message, not the spinner or a table. */
  lemma SettledEmptyShowsMessage<U, T>(u: U)
    ensures ChooseView<U, T>(u, Some([]), false) == Empty
    ensures StatusText(ChooseView<U, T>(u, Some([]), false)) == Some("No menu items offered today.")
  {
  }

  /** With no list (after a timeout, say) there is no table, whether or not
      a retry is still in flight. */
  lemma NoTableWithoutData<U, T>(u: U, isFetching: bool)
    ensures !ChooseView<U, T>(u, None, isFetching).Table?
  {
  }

  /** Row i of the table is item i of the fetched list. */
  lemma TableRowsAreItems<U, T>(u: U, menuItems: Option<seq<T>>, isFetching: bool, i: nat)
    requires ChooseView(u, menuItems, isFetching).Table?
    requires i < |menuItems.value|
    ensures i < |ChooseView(u, menuItems, isFetching).props.menuItems|
    ensures ChooseView(u, menuItems, isFetching).props.menuItems[i] == menuItems.value[i]
  {
  }
}
