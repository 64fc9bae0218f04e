/**
 * The two dining pages decide what to show by the same rule; they differ
 * only in their texts and in what their tables are handed.
 */
module PageAgreement {
  import opened FetchState
  import MenuItemPage
  import MealTimesPage

  /** For the same list and fetching flag both pages show the same kind of
      view, and their tables hold the same list. */
  lemma SameViewChoice<U, T>(u: U, p: MealTimesPage.Params, data: Option<seq<T>>, isFetching: bool)
    ensures MenuItemPage.ChooseView(u, data, isFetching).Loading? == MealTimesPage.ChooseView(p, data, isFetching).Loading?
    ensures MenuItemPage.ChooseView(u, data, isFetching).Table? == MealTimesPage.ChooseView(p, data, isFetching).Table?
    ensures MenuItemPage.ChooseView(u, data, isFetching).Empty? == MealTimesPage.ChooseView(p, data, isFetching).Empty?
    ensures MenuItemPage.ChooseView(u, data, isFetching).Table? ==>
              MenuItemPage.ChooseView(u, data, isFetching).props.menuItems == MealTimesPage.ChooseView(p, data, isFetching).props.meals
    ensures MenuItemPage.IsLoading(data, isFetching) == MealTimesPage.IsLoading(data, isFetching)
    ensures MenuItemPage.HasData(data) == MealTimesPage.HasData(data)
  {
  }

  /** The menu of one meal is fetched from the meal-times URL of the same
      date and commons extended by the meal segment. */
  lemma MenuUrlExtendsMealTimesUrl(p: MenuItemPage.Params)
    ensures MenuItemPage.Call(p).url == MealTimesPage.Call(MealTimesPage.Params(p.date, p.diningCommons)).url + "/" + p.meal
  {
  }
}
