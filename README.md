# Recipe app page logic, modelled in Dafny

This project models the state logic of a small recipe-discovery web
application built on React and a hosted database client. Four pieces are
modelled:

- **Shopping cart context** (`context/ShoppingCartContext.tsx`). There is one
  `cart` cell of ingredient names. `addToCart` appends a batch in order and
  keeps duplicates. `clearCart` empties the cart. `useShoppingCart` fails
  outside a provider.
- **Settings page** (`pages/settings.tsx`). The page fetches the user's
  dietary-settings row, or creates one with every flag false. A click flips
  one flag at once and rolls back if the update fails. Each flag renders as a
  coloured button.
- **Recipes page** (`pages/recipes.tsx`). A blank-after-trim term runs the
  "suggested" listing (first ten by ascending id). Any other term runs a
  case-insensitive title search. A successful answer empties the other
  mode's list; an error empties only its own; a rejected await changes
  neither. Saved recipes load in two steps, falling back to `[]` on an error
  or an empty answer; a rejected await keeps the list. The render picks the
  section to show.
- **Route guard** (`pages/_app.tsx`, `SessionCheck`). `/signin` always
  renders. On every other route a freshly mounted guard shows its loading
  screen until a run of its effect finds a session. Without one the guard
  pushes `/signin` and keeps the loading screen. Once the children are shown,
  losing the session only pushes `/signin`; they stay rendered. Each
  navigation mounts a new guard, because `SessionCheck` is declared inside
  `App`, so the model fixes the route when the guard is built.

Every query answer is an input of type `Remote.Reply`: rows, a null
`data`, an `error`, or a rejected await. The update call, which returns only
`{ error }`, answers with a `Remote.Status`: succeeded, failed, or a
rejected await. The hook's session value is an
input too: `undefined` while resolving, `null` when signed out, or a session.
Each page is a class whose fields are its React state cells. Two more fields
record the store calls it made (`requests`) and the router targets it pushed
(`pushes`). Each effect or handler is a method that runs as one atomic step.
Where a step has a pure specification function (`QueryStep`, `SavedLoad`,
`AfterToggle`, `NextLoading`, `Appended`), the method's postcondition ties the
new state to it. The properties are lemmas about those functions.

The recipes page's key invariant is `Recipes.RunOneEmpty`. Start from any
state where one of the search results and the suggestions is empty. Then let
settled queries, for any terms, arrive in any order. At least one of the two
lists is still empty.

## Model

| member | source | states |
|---|---|---|
| `ShoppingCartContext.Appended` | context/ShoppingCartContext.tsx:15 | the new cart is the old cart followed by the batch: length is the sum, prefix is the old cart, suffix is the batch |
| `ShoppingCartContext.AppendedComposes` | context/ShoppingCartContext.tsx:14-16 | two successive adds equal one add of both batches concatenated, since each updater reads the previous cart |
| `ShoppingCartContext.AppendedNothing` | context/ShoppingCartContext.tsx:15 | adding an empty batch leaves the cart unchanged |
| `ShoppingCartContext.AppendedKeepsDuplicates` | context/ShoppingCartContext.tsx:15 | the new cart's multiset is the old cart's plus the batch's: no de-duplication |
| `ShoppingCartContext.ShoppingCartProvider.constructor` | context/ShoppingCartContext.tsx:12 | the cart starts empty |
| `ShoppingCartContext.ShoppingCartProvider.AddToCart` | context/ShoppingCartContext.tsx:14-16 | the cart becomes `Appended(old cart, items)` |
| `ShoppingCartContext.ShoppingCartProvider.ClearCart` | context/ShoppingCartContext.tsx:18-20 | the cart is empty whatever it held, so clearing twice equals clearing once |
| `ShoppingCartContext.UseShoppingCart` | context/ShoppingCartContext.tsx:29-35 | with no provider the result is the error carrying the source's message, never an empty cart; otherwise it is the provider |
| `Settings.Get` | pages/settings.tsx:84 | definition: `row[field]` for each of the five flags; `Set`, `Toggled` and `RenderSettingButton` are stated through it |
| `Settings.Set` | pages/settings.tsx:85 | the spread update sets field `f` to the value and keeps the owner and every other flag |
| `Settings.Toggled` | pages/settings.tsx:84-85 | field `f` is negated; the owner and every other flag are unchanged |
| `Settings.ToggledTwice` | pages/settings.tsx:84-85 | toggling the same flag twice gives back the original row |
| `Settings.DefaultRow` | pages/settings.tsx:49-56 | the created row belongs to the session user and has all five flags false |
| `Settings.AfterToggle` | pages/settings.tsx:81-97 | with no settings nothing happens; a failed update restores the exact pre-click row; otherwise only flag `f` is flipped and the owner is kept |
| `Settings.AfterToggleTwice` | pages/settings.tsx:84-96 | two clicks on one flag whose updates succeed restore the original settings |
| `Settings.RenderSettingButton` | pages/settings.tsx:99-103 | nothing renders iff settings are null; a true flag is `bg-green-500`/`✓`, a false one `bg-red-500`/`✕` (both directions) |
| `Settings.RenderPage` | pages/settings.tsx:117-131 | loading shows only the loading text; otherwise five buttons, each absent iff settings are null, in the order Dairy Free, Vegan, Nut Free, Vegetarian, Gluten Free, each with that label and its flag's colour and icon |
| `Settings.SettingsPage.constructor` | pages/settings.tsx:19-20 | settings start null and loading true; no calls and no redirects yet |
| `Settings.SettingsPage.FetchSettings` | pages/settings.tsx:23-75 | no session: push `/login`, no store call, loading unchanged. Fetch error: settings kept, loading false. Existing row: stored unchanged. No row: insert `DefaultRow(user)`, then an insert error keeps settings and clears loading, else the returned row is stored. A rejected await stops with loading true |
| `Settings.SettingsPage.HandleToggle` | pages/settings.tsx:81-97 | settings become `AfterToggle(old settings, f, update)`; with settings present one update call is recorded, carrying the owner, the field and the negated value |
| `Remote.RowsOrEmpty` | pages/recipes.tsx:105 | a null answer reads as `[]`; otherwise the rows themselves |
| `JsString.TrimStart` | pages/recipes.tsx:91 | the leading-whitespace cut of `trim`: a suffix of the input that does not start with whitespace, with only whitespace cut off |
| `JsString.TrimEnd` | pages/recipes.tsx:91 | the trailing-whitespace cut of `trim`: a prefix of the input that does not end with whitespace, with only whitespace cut off |
| `JsString.Trim` | pages/recipes.tsx:91 | `s.trim()`: a contiguous slice of `s` neither starting nor ending with whitespace, with only whitespace before and after it |
| `JsString.CutsLeaveSlice` | pages/recipes.tsx:91 | cutting a whitespace-only prefix and then a whitespace-only suffix leaves a slice of the input with only whitespace on either side |
| `JsString.Truthy` | pages/recipes.tsx:156 | definition: a string is truthy iff it is non-empty; used by `RenderQuerySection` |
| `JsString.TrimIsEmptyIff` | pages/recipes.tsx:91 | `s.trim() === ''` holds exactly when every character of `s` is ECMAScript whitespace or a line terminator |
| `Recipes.ModeFor` | pages/recipes.tsx:91 | definition: suggested mode iff `Trim(term)` is empty; its meaning is stated by `ModeForBlank` |
| `Recipes.ModeForBlank` | pages/recipes.tsx:91 | the query mode is suggested iff the term is all whitespace |
| `Recipes.QueryRequest` | pages/recipes.tsx:94-112 | definition of the request the query effect records; its meaning is stated by `QueryRequestFor` |
| `Recipes.QueryRequestFor` | pages/recipes.tsx:91-112 | a blank term requests the first 10 rows by ascending id; any other term requests an ilike on `%term%` with the untrimmed term |
| `Recipes.QueryStep` | pages/recipes.tsx:91-124 | definition of the lists after one settled query; its meaning is stated by `SuggestedQuerySettles`, `SearchQuerySettles` and `QueryStepOneEmpty` |
| `Recipes.SuggestedQuerySettles` | pages/recipes.tsx:91-106 | blank term: success makes suggestions the data (null gives `[]`) and empties the search results; an error empties only the suggestions; an exception changes neither |
| `Recipes.SearchQuerySettles` | pages/recipes.tsx:107-120 | non-blank term: success makes search results the data (null gives `[]`) and empties the suggestions; an error empties only the search results; an exception changes neither |
| `Recipes.QueryStepOneEmpty` | pages/recipes.tsx:100-120 | every settled query that did not throw leaves at least one list empty from any state; one that threw keeps an existing empty list |
| `Recipes.Run` | pages/recipes.tsx:86-126 | definition: the lists after a series of settled queries, handled in arrival order; its invariant is `RunOneEmpty` |
| `Recipes.RunOneEmpty` | pages/recipes.tsx:86-126 | from a state with one list empty (including the initial two empty lists), any sequence of settled queries, in any arrival order and for any terms, keeps at least one list empty |
| `Recipes.RecipeIds` | pages/recipes.tsx:61 | the id list has one entry per saved row, the row's `recipe_id`, in order |
| `Recipes.SavedLoad` | pages/recipes.tsx:43-81 | definition of the saved list after the two-step load; its meaning is stated by `SavedLoadOutcome` |
| `Recipes.SavedLoadOutcome` | pages/recipes.tsx:48-76 | saved is `[]` when the id query errors, returns null or no ids, or the record query errors or returns null; it is the fetched records when both answer; an exception leaves it unchanged |
| `Recipes.SavedRequests` | pages/recipes.tsx:43-67 | the id query is always issued; the record query is issued exactly when some ids came back, for exactly those ids |
| `Recipes.RenderQuerySection` | pages/recipes.tsx:156-194 | the search section is shown iff the untrimmed term is non-empty; each section shows its list, or its "none" message when the list is empty |
| `Recipes.ModeAndSection` | pages/recipes.tsx:156 | the query mode and the section shown disagree exactly for a non-empty, all-whitespace term |
| `Recipes.WhitespaceTermShowsNoResults` | pages/recipes.tsx:156-162 | for a whitespace-only term, a successful suggested query leads the render to "No recipes found." under the search heading |
| `Recipes.RenderSavedSection` | pages/recipes.tsx:197-215 | the loading text shows iff loading; "No saved recipes found." iff not loading and the list is empty; otherwise the list |
| `Recipes.RecipesPage.constructor` | pages/recipes.tsx:18-24 | empty term, three empty lists, loading true |
| `Recipes.RecipesPage.SetSearchTerm` | pages/recipes.tsx:151 | only the term changes |
| `Recipes.RecipesPage.SessionEffect` | pages/recipes.tsx:27-32 | a `null` session pushes `/login`; an unresolved or present session pushes nothing; no other state changes |
| `Recipes.RecipesPage.SavedRecipesEffect` | pages/recipes.tsx:35-83 | without a session nothing changes. With one, saved becomes `SavedLoad(old saved, ids, records)`, loading ends false on every path, and the calls made are `SavedRequests` |
| `Recipes.RecipesPage.QueryEffect` | pages/recipes.tsx:86-126 | without a session nothing changes. With one, the lists become `QueryStep` of the old lists and the current term, the mode's request is recorded, and saved, loading and the term stay |
| `App.Decide` | pages/_app.tsx:20-32 | access is allowed iff the route is in `noAuthNeeded` or a session is present |
| `App.SigninAlwaysAllowed` | pages/_app.tsx:12-25 | `/signin` is allowed whether or not a session exists |
| `App.NextLoading` | pages/_app.tsx:20-32 | after one run, loading is false iff it already was or access was allowed |
| `App.Render` | pages/_app.tsx:34-44 | the children render iff loading is false; otherwise only the loading screen |
| `App.SessionCheck.constructor` | pages/_app.tsx:16-18 | a guard is mounted for one route (a new one per navigation) with loading true, so nothing is rendered before the check has run |
| `App.SessionCheck.CheckAccess` | pages/_app.tsx:20-32 | loading becomes `NextLoading(old loading, route, session)` for the guard's own route; `/signin` is pushed exactly when the decision is a redirect |
| `App.LoadingAfter` | pages/_app.tsx:20-32 | loading of one guard after a series of effect runs, one per session value; once false it stays false |
| `App.ChildrenOnlyAfterAllow` | pages/_app.tsx:18-44 | for one mounted guard, after any series of session values the children show iff they already did or some run allowed access; once shown they stay shown |
| `App.GuardedRouteWithoutSessionLoads` | pages/_app.tsx:27-41 | a fresh guard on a route outside `noAuthNeeded` shows only the loading screen through any series of runs without a session |

## Left out

- Database semantics. The select/eq/in/order/limit/ilike/insert/update calls are recorded as request values only. Their answers are method inputs, so ordering, the 10-row limit and case-insensitive matching are not checked against stored data.
- Authentication library and router. The session is an input. `router.push` is recorded as a path in `pushes`, keeping the literal targets `/login` (recipes and settings pages) and `/signin` (guard).
- Overlapping async effects. Each effect runs as one atomic step. A query completion carries the term its effect read, so results that arrive late for an old term are covered by `Recipes.RunOneEmpty`'s arbitrary arrival order. Results for a stale term are not discarded, and the pages do not discard them either.
- `Settings.SettingsPage.HandleToggle`: the source rolls back to the `settings` value its render captured. The model restores the value current at the call. The two differ only when another settings update overlaps the await: a second click, or `fetchSettings` re-running on a session change and storing a row.
- `Settings.Field`: the handler's parameter type also admits `user_id`. Only the five flags are ever passed, so only they are modelled.
- Dietary-restriction filtering, save/unsave, and keeping saved recipes out of the search and suggested lists. None of the modelled pages does these things: the recipes page never reads the settings row, and nothing writes the saved-recipes table.
- JSX markup, Tailwind classes other than the two button colours, images, `RecipeCard` navigation, console logging, and the commented-out image-URL helper.
- `pages/signin.tsx`, `pages/index.tsx`, `pages/shoppingList.tsx`, `pages/recipes/[id].tsx`, `components/Layout.tsx`, `components/RecipeCard.tsx` and `next.config.ts` hold no modelled logic. Their work is auth-library dispatch, navigation, display and clearing of the cart (`pages/shoppingList.tsx`, the only caller of `clearCart`), fetching one recipe and passing its ingredients to `addToCart` (`pages/recipes/[id].tsx`, the only caller of `addToCart`), and static configuration.
