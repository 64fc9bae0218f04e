# Dining pages: request keys and view choice

This project models the two dining-commons pages of the dining front end:

- the **menu-item page** lists what one meal at one dining commons offers on one date;
- the **meal-times page** lists the meals one dining commons serves on one date.

Each page reads its route parameters and makes one backend request. The request's URL is also its cache key. Each render then sees one snapshot of that request: the fetched list (absent, empty or non-empty) and whether a fetch is in flight. From that snapshot the page decides what to show:

- a spinner while it is fetching and has no real data;
- otherwise, the table when the list is non-empty;
- otherwise, a "... offered today." message.

The menu-item page also capitalises the meal name for its heading. The meal-times page shows a "Meals at <code> for <date>" header.

Modules:

- `FetchState` (fetch_state.dfy): the snapshot a page receives (`Query`), the three views (`View`) and the request a page hands to the backend hook (`BackendCall`). The list is an `Option<seq<T>>`, so "absent" and "empty" are different values.
- `RequestPath` (request_path.dfy): `Join` and `Split` on '/', as JavaScript's `join("/")` and `split("/")`. It proves that splitting undoes joining when no segment holds a '/'.
- `MenuItemPage` (menu_item_page.dfy) and `MealTimesPage` (meal_times_page.dfy): one module per page. Each has its URL and cache key, its heading or header, `IsLoading`, `HasData`, `ChooseView` and `Render`, plus lemmas for the scenarios the pages' tests exercise.
- `PageAgreement` (page_agreement.dfy): both pages choose their view by the same rule.

The cache key is a plain '/'-concatenation of the route segments. It is one-to-one only for routes whose segments contain no '/' (`KeyInjectiveOnSlashFreeParams`). `MenuItemPage.KeyCollidesAcrossSlash` shows two different routes with the same key.

## Model

| member | source | states |
|---|---|---|
| RequestPath.SplitJoin | frontend/src/main/pages/MenuItem/MenuItemPage.jsx:20 | Splitting a '/'-joined list of '/'-free segments gives back exactly those segments |
| RequestPath.JoinInjective | frontend/src/main/pages/MenuItem/MenuItemPage.jsx:20 | On '/'-free segment lists, equal joins mean equal lists, and the reverse |
| MenuItemPage.UrlIsJoin | frontend/src/main/pages/MenuItem/MenuItemPage.jsx:20-24 | The request URL is the '/'-join of "", "api", "diningcommons", the date, the commons code and the meal |
| MenuItemPage.Call | frontend/src/main/pages/MenuItem/MenuItemPage.jsx:14-26 | The cache key is the one-element list holding exactly the URL that is fetched; the method is GET; the URL starts with the API root |
| MenuItemPage.UrlSplitsIntoRoute | frontend/src/main/pages/MenuItem/MenuItemPage.jsx:20-24 | When no route segment holds a '/', the URL splits back into the API path and the date, commons and meal |
| MenuItemPage.KeyInjectiveOnSlashFreeParams | frontend/src/main/pages/MenuItem/MenuItemPage.jsx:20 | For '/'-free routes, two routes share a cache key exactly when they are the same route |
| MenuItemPage.KeyCollidesAcrossSlash | frontend/src/main/pages/MenuItem/MenuItemPage.jsx:20 | Moving a '/' across a segment boundary gives a different route with the same cache key, so the key is not one-to-one in general |
| MenuItemPage.UpperAscii | frontend/src/main/pages/MenuItem/MenuItemPage.jsx:35 | The upper-cased character is never a lower-case letter; a character that is not a lower-case letter is unchanged; a lower-case letter maps to its capital |
| MenuItemPage.MealHeading | frontend/src/main/pages/MenuItem/MenuItemPage.jsx:35 | The heading exists exactly when the meal is non-empty (otherwise the render throws); it has the meal's length; its first character is the upper-cased first character of the meal, so never lower case; the rest is the meal unchanged |
| MenuItemPage.HeadingIdempotent | frontend/src/main/pages/MenuItem/MenuItemPage.jsx:35 | Capitalising a heading again leaves it unchanged |
| MenuItemPage.BreakfastHeading | frontend/src/main/pages/MenuItem/MenuItemPage.jsx:35 | The meal "breakfast" is headed "Breakfast" |
| MenuItemPage.IsLoading | frontend/src/main/pages/MenuItem/MenuItemPage.jsx:29 | Loading implies fetching; loading holds exactly when fetching and there is no non-empty list |
| MenuItemPage.ChooseView | frontend/src/main/pages/MenuItem/MenuItemPage.jsx:36-47 | Exactly one view: the spinner iff fetching with no list or an empty one; the table iff the list is non-empty, whatever the fetching flag; the message iff not fetching with no list or an empty one; the table gets the user and the list unchanged |
| MenuItemPage.StatusTextOfSnapshot | frontend/src/main/pages/MenuItem/MenuItemPage.jsx:36-47 | "Loading menu items..." shows exactly while fetching with no non-empty list; no status line shows exactly when the list is non-empty (the table); "No menu items offered today." shows exactly when settled with no non-empty list |
| MenuItemPage.Render | frontend/src/main/pages/MenuItem/MenuItemPage.jsx:32-50 | A render exists exactly when the meal is non-empty; its heading is the capitalised meal; its view depends on the snapshot only through the list and the fetching flag |
| MenuItemPage.SpinnerBeforeFirstData | frontend/src/tests/pages/MenuItem/MenuItemPage.test.jsx:170-208 | A fetch with no list yet, or with an empty one, shows the spinner and "Loading menu items..." |
| MenuItemPage.NoSpinnerDuringRefetch | frontend/src/tests/pages/MenuItem/MenuItemPage.test.jsx:291-347 | A non-empty list shows the same table whether or not a refetch is in flight, with no loading text |
| MenuItemPage.SettledEmptyShowsMessage | frontend/src/tests/pages/MenuItem/MenuItemPage.test.jsx:126-168 | A settled empty list shows "No menu items offered today.", not the spinner or a table |
| MenuItemPage.NoTableWithoutData | frontend/src/tests/pages/MenuItem/MenuItemPage.test.jsx:50-77 | With no list (after a timeout) there is no table, whether or not a retry is still in flight |
| MenuItemPage.TableRowsAreItems | frontend/src/main/pages/MenuItem/MenuItemPage.jsx:44 | Row i of the table is item i of the fetched list |
| MealTimesPage.UrlIsJoin | frontend/src/main/pages/Meal/MealTimesPage.jsx:17-18 | The request URL is the '/'-join of "", "api", "diningcommons", the date and the commons code |
| MealTimesPage.Call | frontend/src/main/pages/Meal/MealTimesPage.jsx:11-19 | The cache key is the one-element list holding exactly the URL that is fetched; no method is named; the URL starts with the API root |
| MealTimesPage.UrlSplitsIntoRoute | frontend/src/main/pages/Meal/MealTimesPage.jsx:17-18 | When neither route segment holds a '/', the URL splits back into the API path, the date and the commons code |
| MealTimesPage.KeyInjectiveOnSlashFreeParams | frontend/src/main/pages/Meal/MealTimesPage.jsx:17 | For '/'-free routes, two routes share a cache key exactly when they are the same route |
| MealTimesPage.Header | frontend/src/main/pages/Meal/MealTimesPage.jsx:29-31 | The header is "Meals at ", then the commons code, then " for ", then the date, each in its place |
| MealTimesPage.PortolaHeader | frontend/src/tests/pages/Meal/MealTimesPage.test.jsx:63-68 | Portola on 2024-11-25 is headed "Meals at portola for 2024-11-25" |
| MealTimesPage.IsLoading | frontend/src/main/pages/Meal/MealTimesPage.jsx:22 | Loading implies fetching; loading holds exactly when fetching and there are no meals |
| MealTimesPage.ChooseView | frontend/src/main/pages/Meal/MealTimesPage.jsx:32-47 | Exactly one view: the spinner iff fetching with no meals; the table iff the meal list is non-empty; the message iff not fetching with no meals; the table gets the meals, the date and the commons code unchanged |
| MealTimesPage.StatusTextOfSnapshot | frontend/src/main/pages/Meal/MealTimesPage.jsx:32-47 | "Loading meals..." shows exactly while fetching with no meals; no status line shows exactly when there are meals (the table); "No meals offered today." shows exactly when settled with no meals |
| MealTimesPage.Render | frontend/src/main/pages/Meal/MealTimesPage.jsx:25-50 | The header is the route's header and the view is chosen from the meals and the fetching flag alone |
| MealTimesPage.ErrorIsIgnored | frontend/src/main/pages/Meal/MealTimesPage.jsx:13 | Two snapshots that differ only in their error render the same page |
| MealTimesPage.FailureWithoutDataShowsMessage | frontend/src/main/pages/Meal/MealTimesPage.jsx:32-47 | A settled failure with no meals shows "No meals offered today." |
| MealTimesPage.SettledEmptyShowsMessage | frontend/src/tests/pages/Meal/MealTimesPage.test.jsx:105-122 | A settled empty list shows "No meals offered today." |
| MealTimesPage.SpinnerThenTable | frontend/src/tests/pages/Meal/MealTimesPage.test.jsx:76-103 | Before any meals arrive a fetch shows "Loading meals..."; once meals arrive the table shows, whether or not a fetch is in flight |
| PageAgreement.SameViewChoice | frontend/src/main/pages/Meal/MealTimesPage.jsx:22-23 | For the same list and fetching flag, both pages compute the same loading and data flags, choose the same kind of view, and give their tables the same list |
| PageAgreement.MenuUrlExtendsMealTimesUrl | frontend/src/main/pages/Meal/MealTimesPage.jsx:17-18 | A meal's menu URL is the meal-times URL of the same date and commons, then "/" and the meal |

## Left out

- The backend hook and its cache: `useBackend`, the query client, per-key de-duplication, stale-while-revalidate, retry, stale and cache times, and refetching. Their source is not part of this model. A page only reads one snapshot, which the model takes as a `Query` parameter.
- Transport, rendering and routing: axios and its mock, JSX and the DOM, `BasicLayout`, the internals of `MenuItemTable` and `MealTable`, `useParams`, `MemoryRouter` and `Navigate`, toasts, and the timers in the tests. The route parameters and the current user are plain parameters.
- The `status` binding of the menu-item page. It is never read, so there is nothing to model.
- The visually hidden "Loading..." label inside the spinner. `StatusText` covers only the visible caption.
- Route parameters that are absent. A template literal would turn them into the text "undefined". The model takes every parameter as a string.
- Fetched data that is not a list. The model's data is either absent or a list.
- MenuItemPage.UpperAscii: covers only ASCII letters. JavaScript's `toUpperCase` handles all of Unicode and can lengthen a character ('ß' becomes "SS").
- MenuItemPage.MealHeading: keeps the meal's length because it relies on the ASCII `UpperAscii`. With a full-Unicode upper-case, the heading could be longer than the meal.
