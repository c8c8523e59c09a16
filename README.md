# Credits, search and routing logic of the scraping dashboard

This project models the logic inside the client of a hosted data-extraction
service. It covers five parts of that client:

- the orders table: a case-insensitive search filter over extraction records,
  the per-row "Continue Scraping" offer, and the continue modal, whose start
  button deducts credits from the user's balance;
- the start-scraping page: the sign-up / sign-in form (when the submit button
  is enabled, the switch between modes, what each request outcome does) and
  the extraction settings form;
- the user context: the shared `credits`, `hasUsedFreeCredits` and `loading`
  state, refreshed from the backend's `users` table;
- the private-route guard: where visitors who are not signed in, or not
  verified, are sent;
- the site header: hidden on dashboard pages, with links that depend on
  whether the visitor is signed in.

Modules follow the source files: `OrdersHistory`, `StartScrapingPage`,
`UserContext`, `PrivateRoute` and `Header`. Two helper modules support them:
`Wrappers` holds `Option` and `Result`, and `Js` holds the JavaScript
built-ins the code relies on (`toLowerCase`, `startsWith`, `includes` and the
`parseInt(...) || 0` idiom).

Component state that React hooks update becomes a class, whose methods state
the new state in terms of the old one:

- `OrdersHistory.OrdersView` holds the orders table's state;
- `StartScrapingPage.ScrapingPage` holds the start-scraping page's state;
- `UserContext.UserProvider` holds the shared credit state.

The pure parts are functions with lemmas about them: the filter, the
`disabled` expressions, the settings updates written as `prev => ({...prev, …})`,
the route decision and the header.

Two handlers are split at their `await`:

- `handleStartExtraction` (orders table) becomes `HandleStartExtraction` and
  `CompleteStartExtraction`. The amount captured at click time is kept in
  `pendingDeductions` until the 2-second timer fires.
- `handleSubmit` (start-scraping page) becomes `SubmitForm` and
  `CompleteSubmit`. The outcome of the sign-up or sign-in call is a parameter.

With this split, `loading` is true between the two halves, so the guards that
read it (the Cancel button, the backdrop, the start and submit buttons) are
not vacuous. `StartExtractionUninterrupted` and `SubmitUninterrupted` run both
halves with nothing in between. `refreshCredits` is modelled as one step, with
the table lookup passed in as `Ok(row)` or `Err(message)`.

The guarded start path keeps the balance from going negative. `OrdersView.Valid()`
holds that any pending deduction is at least one credit and at most the
balance. `ClickStartButton` establishes it, and `CompleteStartExtraction`
keeps it and ends with `credits >= 0`. Calling `HandleStartExtraction` directly
skips the button's checks, and then this guarantee no longer holds.

## Model

| member | source | states |
|---|---|---|
| `Js.LowerChar` | src/components/dashboard/OrdersHistory.tsx:70 | `toLowerCase` on one character moves A-Z to a-z and leaves every other character as it is |
| `Js.Lower` | src/components/dashboard/OrdersHistory.tsx:70-74 | `toLowerCase` keeps the length and folds every character at its own position (ASCII letters go to lower case) |
| `Js.LowerIdempotent` | src/components/dashboard/OrdersHistory.tsx:70-74 | folding an already folded string changes nothing |
| `Js.LowerConcat` | src/components/dashboard/OrdersHistory.tsx:70 | folding a concatenation is the concatenation of the folded parts |
| `Js.StartsWith` | src/components/Header.tsx:15 | `startsWith` holds exactly when the prefix fits and equals the string's first characters |
| `Js.Includes` | src/components/dashboard/OrdersHistory.tsx:72-74 | `includes` holds exactly when the query occurs at some index of the string (`OccursIn`) |
| `Js.IncludesLonger` | src/components/dashboard/OrdersHistory.tsx:72-74 | whatever contains `q + more` contains `q` |
| `Js.IntOrZero` | src/components/StartScrapingPage.tsx:350 | `parseInt(v)`, falling back to 0, yields the parsed number, and yields 0 exactly when the entry is unparsable or zero |
| `UserContext.MinimumCredits` | src/components/dashboard/OrdersHistory.tsx:39 | the minimum is 500 exactly when the free credits are used, and at least 1 always |
| `UserContext.UserProvider.constructor` | src/contexts/UserContext.tsx:24-26 | the provider starts with 0 credits, free credits unused, and loading |
| `UserContext.UserProvider.UpdateCredits` | src/components/dashboard/OrdersHistory.tsx:51 | the functional `setCredits(prev => f(prev))` changes only the balance, to `f` of the old one |
| `UserContext.UserProvider.SetHasUsedFreeCredits` | src/contexts/UserContext.tsx:15 | only the free-credit flag changes, to the value given |
| `UserContext.UserProvider.RefreshCredits` | src/contexts/UserContext.tsx:28-49 | with no user nothing changes, not even `loading`; a found row sets both fields from its columns; a failed lookup keeps both fields; with a user, `loading` ends false |
| `UserContext.UserProvider.OnUserChanged` | src/contexts/UserContext.tsx:52-64 | when the user becomes null the state resets to 0 credits, flag false, not loading; otherwise as `RefreshCredits`; `loading` ends false |
| `UserContext.UseUser` | src/contexts/UserContext.tsx:80-86 | outside a provider the hook fails with its fixed message; inside one it yields that provider |
| `OrdersHistory.MatchesQuery` | src/components/dashboard/OrdersHistory.tsx:68-75 | an extraction passes the filter exactly when the query is empty or the lowercased query occurs in its lowercased id, target or type |
| `OrdersHistory.FilterExtractions` | src/components/dashboard/OrdersHistory.tsx:67-76 | the visible rows are no more than the extractions, and every one matches the query |
| `OrdersHistory.FilterEmptyQuery` | src/components/dashboard/OrdersHistory.tsx:68 | an empty query shows every extraction, in order |
| `OrdersHistory.FilterIsSubsequence` | src/components/dashboard/OrdersHistory.tsx:67 | the visible rows are an order-preserving subsequence of the extractions |
| `OrdersHistory.FilterMultiplicity` | src/components/dashboard/OrdersHistory.tsx:67-76 | each extraction is shown as many times as it is listed if its lowercased id, target or type contains the lowercased query, and never otherwise |
| `OrdersHistory.FilterMembership` | src/components/dashboard/OrdersHistory.tsx:67-76 | an extraction is visible if and only if it is listed and matches |
| `OrdersHistory.FilterIdempotent` | src/components/dashboard/OrdersHistory.tsx:67-76 | filtering the visible rows again with the same query changes nothing |
| `OrdersHistory.MatchesShorterQuery` | src/components/dashboard/OrdersHistory.tsx:70-75 | an extraction matching a query also matches every prefix of it |
| `OrdersHistory.FilterNarrows` | src/components/dashboard/OrdersHistory.tsx:67-76 | typing more into the search box leaves an ordered subsequence of the rows shown before |
| `OrdersHistory.QueryCaseInsensitive` | src/components/dashboard/OrdersHistory.tsx:70 | a query and its lowercased form select the same rows |
| `OrdersHistory.RemainingCount` | src/components/dashboard/OrdersHistory.tsx:271 | the remaining figure exists exactly when both counts do, and extracted plus remaining equals total |
| `OrdersHistory.ContinueOffered` | src/components/dashboard/OrdersHistory.tsx:174-208 | "Continue Scraping" is offered exactly for failed extractions and for completed ones with a positive remaining count; never for one in progress |
| `OrdersHistory.RemainingCredits` | src/components/dashboard/OrdersHistory.tsx:310 | the remaining-credits figure plus the amount to use gives the balance |
| `OrdersHistory.StartDisabled` | src/components/dashboard/OrdersHistory.tsx:326-331 | the start button is enabled if and only if not loading, terms agreed and minimum <= amount <= balance; an enabled start spends at least 1 (500 after the free credits) and leaves a balance that is not negative |
| `OrdersHistory.OrdersView.constructor` | src/components/dashboard/OrdersHistory.tsx:27-33 | empty query and list, modal closed, 500 credits preselected, terms not agreed, not loading |
| `OrdersHistory.OrdersView.SetSearchQuery` | src/components/dashboard/OrdersHistory.tsx:103 | only the query changes, and the page's invariant is kept |
| `OrdersHistory.OrdersView.HandleContinueScraping` | src/components/dashboard/OrdersHistory.tsx:35-40 | the chosen extraction is selected, the modal shows, and the amount becomes 500 if the free credits are used, else 1 |
| `OrdersHistory.OrdersView.SetCreditsToUse` | src/components/dashboard/OrdersHistory.tsx:284 | the amount becomes `parseInt(v)`, falling back to 0, and nothing else changes |
| `OrdersHistory.OrdersView.SetAgreedToTerms` | src/components/dashboard/OrdersHistory.tsx:318 | only the agreement changes |
| `OrdersHistory.OrdersView.HandleStartExtraction` | src/components/dashboard/OrdersHistory.tsx:42-45 | with no selection or no agreement nothing changes; otherwise `loading` is set and a deduction of the current amount is scheduled |
| `OrdersHistory.OrdersView.CompleteStartExtraction` | src/components/dashboard/OrdersHistory.tsx:46-64 | the balance drops by exactly the captured amount, the modal closes, the selection and agreement clear, the page navigates to the orders route, `loading` ends false; from a valid state the balance is not negative |
| `OrdersHistory.OrdersView.ClickStartButton` | src/components/dashboard/OrdersHistory.tsx:323-331 | a disabled button does nothing; an enabled one schedules exactly the shown amount and keeps the page's invariant |
| `OrdersHistory.OrdersView.StartExtractionUninterrupted` | src/components/dashboard/OrdersHistory.tsx:42-64 | an enabled start, run to completion, spends exactly the amount shown, leaves a balance that is not negative and resets the modal; a disabled one leaves balance, modal, selection, agreement, pending deductions and navigation as they were |
| `OrdersHistory.OrdersView.CloseContinueModal` | src/components/dashboard/OrdersHistory.tsx:239-245 | while loading nothing changes; otherwise the modal hides and the selection and agreement clear, with balance and amount untouched (the Cancel button at lines 346-352 runs the same code) |
| `StartScrapingPage.InitialConfig` | src/components/StartScrapingPage.tsx:57-64 | profile mode, empty URL and hashtag, followers only, and 500 credits if the free credits are used, else 1 |
| `StartScrapingPage.TargetValue` | src/components/StartScrapingPage.tsx:307 | the target input shows the hashtag in hashtag mode and the profile URL otherwise |
| `StartScrapingPage.WithHashtagMode` | src/components/StartScrapingPage.tsx:277 | the Profile and Hashtag buttons change `isHashtagMode` alone |
| `StartScrapingPage.WithTarget` | src/components/StartScrapingPage.tsx:305-311 | the input then shows what was typed; the mode, the other mode's text and all other settings are kept |
| `StartScrapingPage.WithExtractFollowers` | src/components/StartScrapingPage.tsx:325 | only `extractFollowers` changes |
| `StartScrapingPage.WithExtractFollowing` | src/components/StartScrapingPage.tsx:334 | only `extractFollowing` changes |
| `StartScrapingPage.WithCreditsInput` | src/components/StartScrapingPage.tsx:350 | an unparsable entry gives 0 credits, a parsed one its value, and nothing else changes |
| `StartScrapingPage.TargetSurvivesModeSwitch` | src/components/StartScrapingPage.tsx:277-311 | switching mode and back shows the same target again, even after typing in the other mode |
| `StartScrapingPage.SubmitDisabled` | src/components/StartScrapingPage.tsx:240 | the submit button is enabled if and only if not loading and, to register, terms agreed and both names non-empty; signing in is disabled by `loading` alone |
| `StartScrapingPage.SubmitBlocked` | src/components/StartScrapingPage.tsx:143-240 | a submission reaches `handleSubmit` if and only if the button is enabled and the `required` inputs on show are filled: email and password always, both names when registering |
| `StartScrapingPage.SuccessRoute` | src/components/StartScrapingPage.tsx:72-82 | success leads to the dashboard exactly for a verified sign-in, and to email verification in every other case |
| `StartScrapingPage.ScrapingPage.constructor` | src/components/StartScrapingPage.tsx:47-64 | the page opens in register mode with every field empty, nothing loading, and the initial settings |
| `StartScrapingPage.ScrapingPage.SetFirstName` | src/components/StartScrapingPage.tsx:163 | only the first name changes |
| `StartScrapingPage.ScrapingPage.SetLastName` | src/components/StartScrapingPage.tsx:179 | only the last name changes |
| `StartScrapingPage.ScrapingPage.SetEmail` | src/components/StartScrapingPage.tsx:198 | only the email changes |
| `StartScrapingPage.ScrapingPage.SetPassword` | src/components/StartScrapingPage.tsx:215 | only the password changes |
| `StartScrapingPage.ScrapingPage.ToggleShowPassword` | src/components/StartScrapingPage.tsx:221 | only the visibility flag flips |
| `StartScrapingPage.ScrapingPage.SetAgreedToTerms` | src/components/StartScrapingPage.tsx:233 | only the agreement changes |
| `StartScrapingPage.ScrapingPage.UpdateExtractionConfig` | src/components/StartScrapingPage.tsx:308-311 | the settings become the update applied to the previous settings, and nothing else changes |
| `StartScrapingPage.ScrapingPage.ToggleAuthMode` | src/components/StartScrapingPage.tsx:255-260 | the mode flips, both names and the error clear, and email and password are kept |
| `StartScrapingPage.ScrapingPage.SubmitForm` | src/components/StartScrapingPage.tsx:66-69 | a blocked submission (disabled button or empty required input) does nothing; otherwise `loading` is set, the error clears, and a request for the current mode is sent |
| `StartScrapingPage.ScrapingPage.CompleteSubmit` | src/components/StartScrapingPage.tsx:71-96 | success navigates to `SuccessRoute`; an authentication error shows its message and, for `user_already_exists`, switches to sign-in and clears the password; any other error shows the generic message; `loading` ends false |
| `StartScrapingPage.ScrapingPage.SubmitUninterrupted` | src/components/StartScrapingPage.tsx:66-97 | one submission run to completion: a blocked one changes nothing; otherwise the error clears first and stays clear on success, the outcome is applied, mode and password change only for `user_already_exists`, and `loading` ends false |
| `PrivateRoute.Decide` | src/components/PrivateRoute.tsx:8-16 | not signed in redirects to the start page whatever the verification; signed in but unverified redirects to email verification; children render if and only if signed in and verified |
| `PrivateRoute.DecisionTotal` | src/components/PrivateRoute.tsx:8-16 | every input gets one of the three outcomes, each redirect if and only if its condition holds |
| `Header.HiddenOnDashboardPaths` | src/components/Header.tsx:15-17 | the header is hidden if and only if the path begins with `/dashboard`, so also for `/dashboard` followed by anything |
| `Header.RenderHeader` | src/components/Header.tsx:15-77 | hidden exactly when the path starts with `/dashboard`; when shown, the home link is `/` and the community label key is `header.community` when signed in, else `header.joinCommunity` |
| `Header.ShownLinks` | src/components/Header.tsx:32-67 | when shown, signed-in visitors get exactly `/dashboard` and `/start-scraping`, others exactly `/features`, `/pricing` and `/start-scraping` |
| `Header.StartPageAlwaysLinked` | src/components/Header.tsx:40-66 | wherever the header shows, signed in or not, `/start-scraping` is linked |

## Left out

- Layout, styling, icons, copy text, the feature lists, and the titles chosen by `isAuthenticated` (StartScrapingPage.tsx lines 21-40 and 108-121): presentation only.
- The choice between the auth form and the extraction form (StartScrapingPage.tsx line 129) is not modelled as a function; each form's logic is modelled on its own.
- The extraction form's start button (StartScrapingPage.tsx line 364) has no handler in the source, so nothing is modelled for it.
- `src/lib/supabase.ts` is not part of this model: it only configures the backend client.
- The `users` table query (UserContext.tsx lines 33-37) and the `signUp`/`signIn` calls (StartScrapingPage.tsx lines 73 and 77) talk to the backend. They become the `lookup` and `outcome` parameters.
- `src/components/dashboard/DashboardHome.tsx` is not part of this model: its credit percentage is floating point, and the rest is navigation.
- Date formatting and every `t()` translation lookup depend on external libraries. Header labels are kept as their translation keys.
- The table's `extractions` list starts empty, and nothing in the modelled code fills it. The filter is proved for every list.
- `console.error` logging is not modelled. The `catch` in `handleStartExtraction` is not modelled either: the timer promise it guards never rejects.
- `OrdersHistory.OrdersView.CompleteStartExtraction`: the redirect target is recorded as `navigation`; the router's page change is not modelled.
- The `min` attribute of the number inputs is a browser hint and enforces nothing, so it is not modelled.
- StartScrapingPage.ScrapingPage.SubmitForm: the browser's `required` check is modelled as "non-empty", but its `type="email"` format check is not, so a non-empty email that is not an address still reaches `handleSubmit` in the model. Whatever the terms checkbox itself enforces is not modelled: it lives in `LegalNotices`, which is not part of this model.
- Js.Lower: folds ASCII letters only, because Unicode case mapping is out of reach; the filter's guarantees hold for this folding.
- Js.IntOrZero: takes `parseInt`'s result as `Some(n)` or `None` (for `NaN`); how `parseInt` reads a prefix of the text is not modelled.
- `Extraction.progress` and the counts are integers here. JavaScript numbers could also be fractional.
- `StartScrapingPage.ScrapingPage.CompleteSubmit`: `isVerified` is the value the component read before the sign-in call, passed in as a parameter. The live value after signing in is not modelled. For a visitor who was not signed in that value is presumably false, so a verified account would still be sent to `/verify-email`. The authentication context that sets it is not part of this model, so this is not confirmed.
- Interleavings other than the two `await` splits are not modelled: a refresh of the user context while a start is pending, and sign-in requests racing each other. `UserContext.UserProvider.RefreshCredits` is taken as one step.
- React's render batching and re-render timing are not modelled. Each handler, and each half of a split handler, is one sequential step.
