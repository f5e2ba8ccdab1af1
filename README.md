# Travelato — a verified model of the trip planner's local logic

Travelato is a single-page browser app for planning budget trips. A hosted text
model writes the itineraries and does currency conversions. The app itself
keeps:

- a list of saved trips, with set-by-id semantics;
- a router driven by the URL fragment;
- a planner form and a currency-converter form, each with ordered validation
  rules;
- a client that decodes the model's replies;
- an itinerary page with day tabs, a save toggle and a plain-text share
  summary.

This project models that logic in Dafny, one module per source file, and
proves what the code promises.

- `Types` (`types.dfy`) holds the record shapes: preferences, activities, day
  plans, itineraries, conversion results. It also holds a `Browser.Location`
  object standing for `window.location.hash`.
- `Text` (`text.dfy`) holds JavaScript's `trim` over the ECMAScript
  white-space and line-terminator set, and `join`.
- `Gemini` (`gemini.dfy`) holds the service client:
  - the fenced-block extraction, proved against a description of how the
    regular expression `/```(?:json)?\s*([\s\S]*?)\s*```/` matches;
  - the trip duration and the interests line of the prompt;
  - the two requests and the single error message each one reports.
- `Store` (`store.dfy`) holds the saved-trip list operations and their laws.
- `Navbar` (`navbar.dfy`) holds the link highlight test and the click
  handlers.
- `App` (`app.dfy`) holds the top-level controller:
  - a state value `AppState`;
  - one transition function per handler;
  - the router `RenderPage`;
  - a class `AppController` whose methods are proved to produce exactly those
    transitions on its fields;
  - lemmas about the transitions.
- `Home` (`home.dfy`) holds the interest toggle, the submit validation, the
  form class and the loading indicator's message list and index.
- `Converter` (`converter.dfy`) holds the converter's swap, its submit
  sequence and the result-panel condition, again as transition functions plus
  a class.
- `ItineraryPage` (`itinerary.dfy`) holds:
  - the category-to-icon table and the map link;
  - the save toggle and the day selection;
  - the share text, built by nested loops and proved equal to a functional
    layout.
- `SavedTrips` (`savedtrips.dfy`) holds the empty-versus-list rendering, the
  row summaries and the guarded delete.

### Modelling choices

- Effects outside the program are parameters:
  - the network reply is a function from the prompt's values to an optional
    text;
  - `JSON.parse` is a partial function;
  - the fresh id, the shuffled tips and the answer to the confirmation dialog
    are inputs;
  - JavaScript's number-to-text conversion (`numberText`) and
    `encodeURIComponent` are functions.
- Dates are integer milliseconds and costs are `real`.
- Each asynchronous handler runs to completion. Its settled outcome is an
  argument.
- Assigning `window.location.hash` fires `hashchange` only when the fragment
  changes. `App.Settle` models the browser's part: it runs the hash-change
  handler when the fragment no longer matches the current path.

## Model

| member | source | states |
|---|---|---|
| `Text.Join` | pages/Home.tsx:16 | Joining no strings gives the empty string and joining one gives that string; otherwise the result starts with the first element and ends with the last |
| `Text.JoinSnoc` | services/geminiService.ts:56 | One more element after a non-empty list adds one separator and then that element |
| `Text.JoinConcat` | services/geminiService.ts:56 | Joining two non-empty lists in sequence is joining each with one separator between, so the elements appear in order separated by `sep` |
| `Text.Trim` | services/geminiService.ts:11 | The trimmed text neither starts nor ends with white space and is no longer than the input |
| `Text.TrimSurrounded` | services/geminiService.ts:11 | Trimming a string with no edge white space, surrounded by white space, gives exactly that string |
| `Text.TrimUnchanged` | services/geminiService.ts:11 | A string with no edge white space is its own trim |
| `Gemini.FindFence` | services/geminiService.ts:9 | The result is a run of three backticks at or after the start point, and no such run comes before it; None means there is none |
| `Gemini.SkipWhitespace` | services/geminiService.ts:9 | Greedy `\s*`: everything skipped is white space and the character after it is not |
| `Gemini.TrimBack` | services/geminiService.ts:9 | The trailing `\s*` before the closing fence: the part cut off is white space and the capture does not end in white space |
| `Gemini.FirstFencedBlock` | services/geminiService.ts:9 | A reported match opens and closes with a fence, and its capture lies after the opening fence and its optional `json` tag, before the closing fence |
| `Gemini.ExtractJsonText` | services/geminiService.ts:9-11 | The string handed to `JSON.parse` never begins or ends with white space |
| `Gemini.FencedBlockIsDerivation` | services/geminiService.ts:9 | The reported block is a match of the regular expression: opening fence, optional `json`, white space, capture, white space, closing fence |
| `Gemini.FencedBlockLeftmost` | services/geminiService.ts:9 | Whenever any match exists, a block is reported, and it starts no later than any match |
| `Gemini.FencedBlockPriority` | services/geminiService.ts:9 | Among matches at that start the reported one takes the `json` tag when possible, the longest leading white space and the shortest capture |
| `Gemini.FencedBlockIffFencePair` | services/geminiService.ts:9-10 | A block is found exactly when one fence is followed, at least three characters on, by another |
| `Gemini.ExtractWithoutFences` | services/geminiService.ts:9-11 | With no fence pair the whole text, trimmed, is parsed |
| `Gemini.ExtractWithFences` | services/geminiService.ts:9-11 | With a fence pair exactly the capture of the first block is parsed, and the capture has no edge white space |
| `Gemini.JsonFencedFences` | services/geminiService.ts:9 | In a payload without backticks wrapped as a `json` block, the only fences are the wrapping ones and the tag follows the first |
| `Gemini.JsonFencedCapture` | services/geminiService.ts:9-10 | The first block of such a wrapped payload captures exactly the payload |
| `Gemini.PlainPayload` | services/geminiService.ts:10-11 | A payload without backticks or edge white space, given bare, is parsed as it is |
| `Gemini.WrappedPayload` | services/geminiService.ts:9-11 | The same payload wrapped in a `json` block is parsed as the payload |
| `Gemini.WrappedPayloadRoundTrip` | services/geminiService.ts:8-12 | Wrapped and bare payloads decode to the same string, the payload itself |
| `Gemini.CeilDiv` | services/geminiService.ts:64 | `Math.ceil(n / d)`: the least multiple count covering `n` |
| `Gemini.DurationInDays` | services/geminiService.ts:59-66 | Zero when the end is before the start; otherwise one more than the ceiling of the gap in days, fixed by two bounds |
| `Gemini.DurationOfWholeDays` | services/geminiService.ts:59-66 | An exact gap of n days gives n + 1, so equal dates give 1 |
| `Gemini.InterestsLine` | services/geminiService.ts:55-57 | Starts with the interests label; with interests, the rest is them joined by ", " in order; without, it is the fixed default sentence |
| `Gemini.PromptFor` | services/geminiService.ts:67-77 | The prompt carries the destination, dates, budget, computed duration and interests line of the preferences |
| `Gemini.KyotoPromptExample` | services/geminiService.ts:59-77 | Dates two whole days apart ask for three days, and no interests gives the default sentence |
| `Gemini.GenerateItinerary` | services/geminiService.ts:94-113 | Succeeds exactly when a reply came and parsed; the result keeps every parsed field and carries the fresh id in place of any parsed one; every failure carries the one fixed message |
| `Gemini.ConvertCurrency` | services/geminiService.ts:133-149 | Succeeds exactly when a reply came and parsed, with the parsed result unchanged; every failure carries the one fixed message |
| `Store.Save` | App.tsx:73-79 | After a save the id is stored; the earlier entries keep their places and at most one entry is added after them |
| `Store.Delete` | App.tsx:83 | Keeps exactly the entries with another id and is never longer than the list |
| `Store.SaveIdempotent` | App.tsx:74-77 | Saving an id already present changes nothing, so a second save is a no-op |
| `Store.SaveAppends` | App.tsx:78 | Saving a new id appends it as the last entry with the earlier entries unchanged and in order |
| `Store.SavePreservesDistinctIds` | App.tsx:73-80 | Saving keeps the ids pairwise distinct, and the saved id is then present |
| `Store.DeleteConcat` | App.tsx:83 | Deleting distributes over concatenation, so the kept entries stay in their original order |
| `Store.DeleteAbsent` | App.tsx:83 | Deleting an absent id leaves the list unchanged |
| `Store.DeleteRemovesId` | App.tsx:83 | After a delete no entry carries that id |
| `Store.DeletePreservesDistinctIds` | App.tsx:82-84 | Deleting keeps the ids pairwise distinct |
| `Store.DeleteUndoesSave` | App.tsx:73-84 | Deleting the id of an itinerary just saved under a new id restores the list |
| `Navbar.IsActive` | components/Navbar.tsx:5 | A link is highlighted on its own target and on no other path |
| `Navbar.ActiveCount` | components/Navbar.tsx:5 | The number of highlighted links is at most the number of links, and zero exactly when none matches the path |
| `Navbar.OneActiveLink` | components/Navbar.tsx:52-54 | On `#`, `#/saved` or `#/converter` exactly one link is highlighted; on any other path none is |
| `Navbar.ItineraryPathHasNoActiveLink` | components/Navbar.tsx:52-54 | On `#/itinerary` no link is highlighted |
| `Navbar.HandleClick` | components/Navbar.tsx:7-12 | Writes the fragment exactly when it differs from the link's target, and leaves it at the target either way |
| `Navbar.HandleLogoClick` | components/Navbar.tsx:32-37 | Writes the fragment exactly when it is not `#`, and leaves it at `#` |
| `App.Settle` | App.tsx:41-55 | After the browser has delivered any pending `hashchange`, the current path reflects the fragment; the fragment, saved list, loading flag and error are kept, the itinerary is kept or dropped, and an already settled state is unchanged |
| `App.RenderPage` | App.tsx:91-104 | Converter, saved list and itinerary screens each appear exactly on their path, the itinerary only when one is held; every other case is the planner with the loading flag and error |
| `App.HashChanged` | App.tsx:42-49 | After a hash change the current path matches the fragment; the held itinerary is kept or dropped, and dropped unless the path is the itinerary or the saved list; fragment, saved list, loading flag and error are unchanged |
| `App.ErrorText` | App.tsx:66 | A failed generation always shows a non-empty message, the failure's own whenever it has one |
| `App.Generated` | App.tsx:57-71 | A settled generation is no longer loading and keeps the saved list; an itinerary is held exactly on success, then with no error and the fragment `#/itinerary`; a failure leaves a non-empty error and the fragment `#` |
| `App.Loaded` | App.tsx:86-89 | Loading a trip holds exactly that trip and sets the fragment to `#/itinerary`, keeping the saved list, flags and current path until the hash change arrives |
| `App.HashChangeEffect` | App.tsx:42-49 | The fragment, with empty read as `#`, becomes the current path; the held itinerary is dropped unless the path is the itinerary or the saved list; nothing else changes |
| `App.LeavingDropsItineraryView` | App.tsx:42-49 | After leaving for a path other than the itinerary or the saved list, returning to the itinerary path shows the planner |
| `App.GenerateSuccessShowsItinerary` | App.tsx:57-71 | A successful generation ends not loading and without error, with the fragment `#/itinerary` and the new itinerary on screen |
| `App.GenerateFailureShowsHome` | App.tsx:57-71 | A failed generation ends on the planner, not loading, with the message (or the generic text when it is empty) and no itinerary held |
| `App.GenerationFailureMessage` | App.tsx:65-66 | Whatever made the service call fail, the planner shows the service's one message |
| `App.LoadShowsItinerary` | App.tsx:86-89 | Loading a saved trip shows it on the itinerary screen |
| `App.NavigationHighlightsLink` | components/Navbar.tsx:4-12 | After a click on a navigation link the current path is its target and exactly that link is highlighted; clicking the current link changes nothing |
| `App.StoreKeepsIdsDistinct` | App.tsx:73-84 | Saving and deleting both keep the saved ids distinct |
| `App.AppController.constructor` | App.tsx:13-30 | The path starts as the fragment (empty read as `#`), nothing is held, loading or erroneous, and the saved list is the stored one or empty |
| `App.AppController.HandleHashChange` | App.tsx:42-49 | The new state is the hash-change transition of the old |
| `App.AppController.HandleGenerateItinerary` | App.tsx:57-71 | The new state, fragment included, is the generation transition for the outcome |
| `App.AppController.HandleSaveItinerary` | App.tsx:73-80 | The new state is the old with the itinerary saved |
| `App.AppController.HandleDeleteItinerary` | App.tsx:82-84 | The new state is the old with the id deleted |
| `App.AppController.HandleLoadItinerary` | App.tsx:86-89 | The new state holds the itinerary with the fragment `#/itinerary` |
| `Home.RemoveInterest` | pages/Home.tsx:95 | The result holds exactly the entries other than the one removed and is no longer than the list |
| `Home.RemoveInterestConcat` | pages/Home.tsx:95 | Removal distributes over concatenation, so the other interests keep their order |
| `Home.RemoveAbsentInterest` | pages/Home.tsx:95 | Removing an absent interest changes nothing |
| `Home.ToggleInterest` | pages/Home.tsx:91-97 | The toggled interest is chosen afterwards exactly when it was not chosen before; every other interest keeps its membership |
| `Home.ToggleInterestEffect` | pages/Home.tsx:91-98 | An absent interest is appended; a present one loses all its occurrences with the others kept in order; no other interest changes membership |
| `Home.ToggleTwiceRestores` | pages/Home.tsx:91-98 | Toggling an interest not chosen twice restores the list |
| `Home.ValidationError` | pages/Home.tsx:100-111 | No message exactly when the destination is given and the end is not before the start; any message is one of the two rule texts |
| `Home.ValidationRules` | pages/Home.tsx:100-114 | A request is made exactly when the destination is given and the end is not before the start; a missing destination is reported first |
| `Home.PlannerForm.constructor` | pages/Home.tsx:72-88 | The form starts with no destination, a week from today, a budget of 500, no interests and no error |
| `Home.PlannerForm.HandleInterestChange` | pages/Home.tsx:91-98 | Only the interests change, by the toggle |
| `Home.PlannerForm.HandleSubmit` | pages/Home.tsx:100-114 | The error is the first failed rule; the form's preferences are passed on exactly when no rule fails |
| `Home.ProgressMessages` | pages/Home.tsx:14-21 | There are six progress messages |
| `Home.LoadingMessages` | pages/Home.tsx:13-38 | Fourteen messages: the six progress messages first, then the eight tips in some order |
| `Home.NextMessageIndex` | pages/Home.tsx:44 | The next index stays below the message count, moving on by one and wrapping to 0 after the last |
| `Home.IndexAfterIsModulo` | pages/Home.tsx:41-47 | After k ticks from 0 the index is k modulo the message count |
| `Home.DisplayedMessage` | pages/Home.tsx:56 | With no messages the text is "Initializing..."; otherwise it is the message at the current index |
| `Converter.Swapped` | pages/Converter.tsx:19-22 | The swap exchanges the two currencies and keeps the result, the loading flag and the error |
| `Converter.SwapExchanges` | pages/Converter.tsx:19-22 | Swapping exchanges the two currencies; swapping twice restores them |
| `Converter.SubmitError` | pages/Converter.tsx:26-34 | A submit passes the checks exactly when the amount is a number above zero and the currencies differ; a failed check reports one of the two check texts |
| `Converter.Submitted` | pages/Converter.tsx:24-47 | A submit never changes the currencies and never leaves an empty error; after a request the loading flag is off, and a result is held, and no error, exactly when the service succeeded |
| `Converter.ResultVisible` | pages/Converter.tsx:105 | The result panel appears only when there is a result, and never while a request is in flight |
| `Converter.SubmitChecks` | pages/Converter.tsx:24-35 | An invalid amount is reported before equal currencies; a failed check makes no request and keeps the loading flag, the result and the currencies |
| `Converter.SubmitOutcome` | pages/Converter.tsx:36-47 | After a request the loading flag is off; a success shows exactly the service's result without error; a failure shows no result and the message (or the generic text) |
| `Converter.ServiceFailureMessage` | pages/Converter.tsx:40-44 | A failed service call always shows the service's one conversion message |
| `Converter.CurrencyConverter.constructor` | pages/Converter.tsx:13-17 | The converter starts from USD to EUR with no result, not loading and no error |
| `Converter.CurrencyConverter.HandleSwapCurrencies` | pages/Converter.tsx:19-22 | The new state is the swap of the old |
| `Converter.CurrencyConverter.HandleSubmit` | pages/Converter.tsx:24-48 | The request made, if any, and the new state are those of the submit transition |
| `ItineraryPage.IconFor` | pages/Itinerary.tsx:16-30 | A key of the table gets its entry; any string outside the eight named categories gets the sightseeing icon |
| `ItineraryPage.IconLookup` | pages/Itinerary.tsx:16-30 | The lookup is exact and case-sensitive: each named category gets its own icon, and every other string, "Travel" and "food" among them, gets the default |
| `ItineraryPage.MapLink` | pages/Itinerary.tsx:49 | The link is as long as the search prefix plus the encoded location |
| `ItineraryPage.MapLinkQuery` | pages/Itinerary.tsx:49 | The link is the search prefix followed by the encoded location, so two links agree exactly when the encodings do |
| `ItineraryPage.IsSaved` | pages/Itinerary.tsx:63 | A trip counts as saved exactly when some stored trip carries its id |
| `ItineraryPage.SaveToggle` | pages/Itinerary.tsx:63-71 | The toggle deletes by id exactly when some saved trip has the itinerary's id, and saves the itinerary otherwise |
| `ItineraryPage.ToggleFlipsSaved` | pages/Itinerary.tsx:63-71 | A toggle flips whether the itinerary is saved |
| `ItineraryPage.ToggleTwiceRestores` | pages/Itinerary.tsx:65-71 | Two toggles starting from unsaved restore the saved list |
| `ItineraryPage.SelectedDay` | pages/Itinerary.tsx:60-61 | A selected day is one of the plans and has the active day number; there is none exactly when no plan has that number |
| `ItineraryPage.FindDayIndex` | pages/Itinerary.tsx:61 | The index found is the first plan with that day number; None exactly when no plan has it |
| `ItineraryPage.SelectedDayIsFirstMatch` | pages/Itinerary.tsx:60-61 | The selected day is the first matching plan, and nothing is selected exactly when no plan matches |
| `ItineraryPage.DayTabs` | pages/Itinerary.tsx:130-142 | One tab per day plan, in array order, labelled with its day number |
| `ItineraryPage.TabSelectsDay` | pages/Itinerary.tsx:130-133 | With distinct day numbers, clicking a tab shows exactly its plan |
| `ItineraryPage.ItineraryView.constructor` | pages/Itinerary.tsx:60 | The active day starts at 1 |
| `ItineraryPage.ItineraryView.SelectTab` | pages/Itinerary.tsx:133 | Clicking tab i makes its day number the active day, so a plan with that number is drawn; with distinct day numbers it is exactly the clicked plan |
| `ItineraryPage.ActivityLinesSnoc` | pages/Itinerary.tsx:79-81 | Adding an activity adds its line at the end |
| `ItineraryPage.ActivityLinesConcat` | pages/Itinerary.tsx:79-81 | The activity lines follow the activities in order |
| `ItineraryPage.DaysTextSnoc` | pages/Itinerary.tsx:77-83 | Adding a day adds its block at the end |
| `ItineraryPage.DaysTextConcat` | pages/Itinerary.tsx:77-83 | The day blocks follow the days in order |
| `ItineraryPage.ShareText` | pages/Itinerary.tsx:74-83 | The summary starts with the header (title, blank line, cost line) and is exactly as long as the header plus the day blocks |
| `ItineraryPage.ShareTextLayout` | pages/Itinerary.tsx:74-83 | The summary opens with the title and a blank line, then the cost line; each day's block (header, activity lines, blank line) sits between the blocks of the days before and after it |
| `ItineraryPage.AppendActivityLines` | pages/Itinerary.tsx:79-81 | The inner loop appends exactly the activity lines |
| `ItineraryPage.ShareItinerary` | pages/Itinerary.tsx:73-83 | The nested loops build exactly the summary text |
| `SavedTrips.Rows` | pages/SavedTrips.tsx:44 | One row per saved trip, in list order, each its trip's summary |
| `SavedTrips.View` | pages/SavedTrips.tsx:18-44 | The empty state appears exactly when nothing is saved; otherwise there is one row per trip in order |
| `SavedTrips.RowShowsItinerary` | pages/SavedTrips.tsx:44-50 | A row shows the trip's title, its number of day plans, its cost and its currency |
| `SavedTrips.RowsConcat` | pages/SavedTrips.tsx:44 | Rows follow the list order across concatenation |
| `SavedTrips.RowClicked` | pages/SavedTrips.tsx:46 | Clicking a row's title-and-summary button loads that trip |
| `SavedTrips.DeleteClicked` | pages/SavedTrips.tsx:52-58 | A delete of that trip's id is requested exactly when the confirmation is accepted |
| `SavedTrips.DeleteNeverLoads` | pages/SavedTrips.tsx:52-58 | The delete button never loads a trip, and without consent it calls nothing |
| `SavedTrips.PlanNewTrip` | pages/SavedTrips.tsx:13-16 | "Plan a New Trip" sets the fragment to `#` |

## Left out

- The calls to the hosted model: API-key setup, model and temperature settings, the schemas and the prompt prose. They are network and foreign-library behaviour. The reply is a parameter, and the prompt is modelled only by the values it interpolates.
- `JSON.parse` is a caller-supplied partial function, and the response schema is not checked locally.
- `crypto.randomUUID()` and the random shuffle of the tips: the fresh id and the shuffled order are inputs. Any permutation of the tips is accepted.
- `localStorage` reads and writes and `JSON.stringify`: the controller's constructor takes the stored list, or None when reading or parsing failed, which gives an empty list.
- Date parsing, `toISOString`, `setDate` and time zones: dates are integer milliseconds, so invalid (NaN) dates are not represented. `PlannerForm.constructor` takes today's value as a number.
- Timers and effect scheduling: only the message-index step and its iteration are modelled.
- The `console.error` logging (App.tsx:27 and :37, services/geminiService.ts:111 and :147, pages/Itinerary.tsx:92) is output to the developer console only, and it changes no state.
- The stale-response hazard of overlapping asynchronous requests is concurrency, which a sequential model does not capture.
- Float parsing and formatting (`parseFloat`, `toLocaleString`, `Intl.NumberFormat`, number-to-text in template strings) are parameters, or are left to the caller: the converter's submit takes the parsed amount as an option, None for NaN.
- `encodeURIComponent` is a caller-supplied function in `MapLink`.
- `navigator.share`, the clipboard, `alert`, `window.confirm` (its answer is a boolean input) and `window.print`.
- The JSX and CSS markup and the layout component are presentation only. This includes the fixed option lists the forms offer: the six interest checkboxes and the twenty currency choices.
- The budget field: it is read with `parseInt` (pages/Home.tsx:152), so a cleared field gives NaN, which the `budget: int` field cannot hold. The budget only reaches the prompt text.
- `ItineraryPage.IconFor`: a key inherited from JavaScript's object prototype, such as "constructor", is treated as a miss, which yields the default icon. In the browser such a key would find the inherited member.
- `App.NormalizeHash`: the model keeps the fragment as it was written. A browser reads an assigned `#` back as the empty string, so a click on the `#` link writes the fragment again without firing `hashchange`; the model does not capture this.
- `ItineraryPage.TabSelectsDay` assumes distinct day numbers; with repeated numbers, `SelectedDayIsFirstMatch` still gives the first plan with that number.
