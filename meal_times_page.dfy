/**
 * The meal-times page: the meals served at one dining commons on one date.
 * From the route it builds one backend request and a header; from the
 * request's current snapshot it picks a spinner, the meal table, or the
 * message that no meals are offered today. The fetch error is bound but
 * never read.
 */
module MealTimesPage {
  import opened FetchState
  import RequestPath

  /** The route parameters `date-time` and `dining-commons-code`. */
  datatype Params = Params(dateTime: string, diningCommonsCode: string)

  /** What the meal table is handed: the list and both route parameters. */
  datatype MealTableProps<M> = MealTableProps(meals: seq<M>, dateTime: string, diningCommonsCode: string)

  /** One render of the page: its header and the view below it. */
  datatype Screen<M> = Screen(header: string, view: View<MealTableProps<M>>)

  const LoadingText: string := "Loading meals..."
  const EmptyText: string := "No meals offered today."

  // ---------------------------------------------------------------------
  // Request URL and cache key

  function RequestUrl(p: Params): string
  {
    RequestPath.ApiRoot + p.dateTime + "/" + p.diningCommonsCode
  }

  /** The URL is the '/'-join of the API path and the two route segments. */
  lemma UrlIsJoin(p: Params)
    ensures RequestUrl(p) == RequestPath.Join(["", "api", "diningcommons", p.dateTime, p.diningCommonsCode])
  {
    var root := ["", "api", "diningcommons"];
    RequestPath.ApiRootIsJoin();
    RequestPath.JoinAppend(root, p.dateTime);
    RequestPath.JoinAppend(root + [p.dateTime], p.diningCommonsCode);
    assert root + [p.dateTime] + [p.diningCommonsCode] == ["", "api", "diningcommons", p.dateTime, p.diningCommonsCode];
  }

  /** The backend request: the page's URL with the hook's default method,
      cached under a key that is the one-element list holding that URL. */
  function Call(p: Params): (c: BackendCall)
    ensures c.queryKey == [c.url]
    ensures c.httpMethod == None
    ensures |c.url| > |RequestPath.ApiRoot| && c.url[..|RequestPath.ApiRoot|] == RequestPath.ApiRoot
  {
    var url := RequestUrl(p);
    BackendCall([url], None, url)
  }

  /** The URL splits back into the API path and the route, when neither
      route segment holds a '/'. */
  lemma UrlSplitsIntoRoute(p: Params)
    requires RequestPath.SlashFree([p.dateTime, p.diningCommonsCode])
    ensures RequestPath.Split(Call(p).url) == ["", "api", "diningcommons", p.dateTime, p.diningCommonsCode]
  {
    UrlIsJoin(p);
    var segs := ["", "api", "diningcommons", p.dateTime, p.diningCommonsCode];
    assert RequestPath.SlashFree(segs) by {
      forall i | 0 <= i < |segs| ensures '/' !in segs[i] {
        if i >= 3 { assert segs[i] == [p.dateTime, p.diningCommonsCode][i - 3]; }
      }
    }
    RequestPath.SplitJoin(segs);
  }

  /** Routes whose segments hold no '/' get distinct cache keys. */
  lemma KeyInjectiveOnSlashFreeParams(p1: Params, p2: Params)
    requires RequestPath.SlashFree([p1.dateTime, p1.diningCommonsCode])
    requires RequestPath.SlashFree([p2.dateTime, p2.diningCommonsCode])
    ensures Call(p1).queryKey == Call(p2).queryKey <==> p1 == p2
  {
    if Call(p1).queryKey == Call(p2).queryKey {
      assert Call(p1).url == Call(p2).url;
      UrlSplitsIntoRoute(p1);
      UrlSplitsIntoRoute(p2);
    }
  }

  // ---------------------------------------------------------------------
  // Header

  /** The header text "Meals at <code> for <date>". */
  function Header(p: Params): (h: string)
    ensures |h| == 14 + |p.diningCommonsCode| + |p.dateTime|
    ensures h[..9] == "Meals at "
    ensures h[9..9 + |p.diningCommonsCode|] == p.diningCommonsCode
    ensures h[9 + |p.diningCommonsCode|..14 + |p.diningCommonsCode|] == " for "
    ensures h[14 + |p.diningCommonsCode|..] == p.dateTime
  {
    "Meals at " + p.diningCommonsCode + " for " + p.dateTime
  }

  /** The commons `portola` on 2024-11-25 is headed "Meals at portola for 2024-11-25". */
  lemma PortolaHeader()
    ensures Header(Params("2024-11-25", "portola")) == "Meals at portola for 2024-11-25"
  {
  }

  // ---------------------------------------------------------------------
  // View choice

  /** Fetching while the meals are absent or the empty placeholder. */
  function IsLoading<M>(meals: Option<seq<M>>, isFetching: bool): (b: bool)
    ensures b ==> isFetching
    ensures b <==> isFetching && !HasData(meals)
  {
    isFetching && (meals.None? || |meals.value| == 0)
  }

  /** A fetched list with at least one meal. */
  function HasData<M>(meals: Option<seq<M>>): (b: bool)
    ensures b <==> meals.Some? && meals.value != []
  {
    meals.Some? && |meals.value| > 0
  }

  /** Spinner if loading, else the table if there are meals, else the
      message. The table gets the meals and both route parameters as they
      are. */
  function ChooseView<M>(p: Params, meals: Option<seq<M>>, isFetching: bool)
    : (v: View<MealTableProps<M>>)
    ensures v.Loading? <==> isFetching && (meals.None? || meals.value == [])
    ensures v.Table? <==> meals.Some? && meals.value != []
    ensures v.Empty? <==> !isFetching && (meals.None? || meals.value == [])
    ensures v.Table? ==> v.props == MealTableProps(meals.value, p.dateTime, p.diningCommonsCode)
  {
    if IsLoading(meals, isFetching) then Loading
    else if HasData(meals) then Table(MealTableProps(meals.value, p.dateTime, p.diningCommonsCode))
    else Empty
  }

  /** The status line shown with a view, if any. */
  function StatusText<P>(v: View<P>): (t: Option<string>)
    ensures t.None? <==> v.Table?
    ensures v.Loading? ==> t == Some(LoadingText)
    ensures v.Empty? ==> t == Some(EmptyText)
  {
    match v
    case Loading => Some(LoadingText)
    case Table(_) => None
    case Empty => Some(EmptyText)
  }

  /** The status line in terms of the snapshot: the loading caption exactly
      while fetching without meals, nothing exactly when there are meals,
      and the empty message exactly when settled without meals. */
  lemma StatusTextOfSnapshot<M>(p: Params, meals: Option<seq<M>>, isFetching: bool)
    ensures StatusText(ChooseView(p, meals, isFetching)) == Some(LoadingText) <==> isFetching && !HasData(meals)
    ensures StatusText(ChooseView(p, meals, isFetching)) == None <==> HasData(meals)
    ensures StatusText(ChooseView(p, meals, isFetching)) == Some(EmptyText) <==> !isFetching && !HasData(meals)
  {
  }

  /** One render of the page for a route and a query snapshot. */
  function Render<M, E>(p: Params, q: Query<M, E>): (r: Screen<M>)
    ensures r.header == Header(p)
    ensures r.view == ChooseView(p, q.data, q.isFetching)
  {
    Screen(Header(p), ChooseView(p, q.data, q.isFetching))
  }

  // ---------------------------------------------------------------------
  // Scenarios

  /** The render depends on the snapshot only through its meals and its
      fetching flag: the error is never read. */
  lemma ErrorIsIgnored<M, E>(p: Params, q1: Query<M, E>, q2: Query<M, E>)
    requires q1.data == q2.data && q1.isFetching == q2.isFetching
    ensures Render(p, q1) == Render(p, q2)
  {
  }

  /** A settled failure with no meals shows the empty message. */
  lemma FailureWithoutDataShowsMessage<M, E>(p: Params, q: Query<M, E>)
    requires q.error.Some? && q.data == None && !q.isFetching
    ensures Render(p, q).view == Empty
    ensures StatusText(Render(p, q).view) == Some("No meals offered today.")
  {
  }

  /** A settled empty list shows "No meals offered today.". */
  lemma SettledEmptyShowsMessage<M>(p: Params)
    ensures ChooseView<M>(p, Some([]), false) == Empty
    ensures StatusText(ChooseView<M>(p, Some([]), false)) == Some("No meals offered today.")
  {
  }

  /** Before any meals arrive a fetch shows the spinner; once they arrive
      the table shows, whether or not another fetch is in flight. */
  lemma SpinnerThenTable<M>(p: Params, meals: seq<M>, stillFetching: bool)
    requires meals != []
    ensures ChooseView<M>(p, None, true) == Loading
    ensures StatusText(ChooseView<M>(p, None, true)) == Some("Loading meals...")
    ensures ChooseView(p, Some(meals), stillFetching) == Table(MealTableProps(meals, p.dateTime, p.diningCommonsCode))
  {
  }
}
