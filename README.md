# Event views: list filtering and form state, modelled in Dafny

This project models the client-side logic of the two views of an event-management web application.

- **List view** (`src/pages/EventsPage.jsx`). It loads the events and the categories. A missing `categoryIds` is normalised to `[]`. It shows the events that pass a two-stage filter: a case-insensitive title search, then a category rule under which uncategorised events always pass. It also owns the "Add event" dialog: a draft edited field by field, posted with the fixed creator reference `1`, and appended to the list when the server confirms it.
- **Detail view** (`src/pages/EventPage.jsx`). It loads an event and then that event's creator, and shows "Loading..." until both are present. The edit dialog's inputs change the displayed event directly. The categories input is split on `","`, each piece is trimmed and passed to `parseInt`, and the list is shown joined by `", "`. The view also sends update and delete requests.

Each request is modelled as an abstract outcome, `Common.Outcome`, that is either `Success(record)` or `Failure`. `fetch` rejects only on a network failure, and `response.json()` only on a body that is not JSON. So a response with a failing HTTP status but a JSON body still reaches the success handler; for delete, which never reads the body, any response does. Such a response is a `Success` here. Toasts are recorded only by kind, in a `notices` list. Navigation is recorded as the path passed to `navigate`.

Files:

- `common.dfy`: the option, outcome and notice types, and the acting-user constant.
- `js_text.dfy`: the JavaScript primitives the views use (`toLowerCase`, `includes`, `trim`, `split`, `join`, `parseInt`, number to text).
- `filtering.dfy`: `Array.prototype.filter` and what it preserves.
- `events_page.dfy`: the list view, as pure functions and the class `EventsPageView`.
- `event_page.dfy`: the detail view, as pure functions and the class `EventPageView`.

The view state of each page is a class, with one field per piece of React state. Each handler is a method whose `modifies` clause names exactly the fields it sets, so every other field is unchanged by construction. Its `ensures` clauses state the new values.

## Model

| member | source | states |
|---|---|---|
| EventsPage.Normalise | src/pages/EventsPage.jsx:48-51 | the record keeps every field but `categoryIds`; a present `categoryIds` is kept and a missing one becomes `[]` |
| EventsPage.NormaliseAll | src/pages/EventsPage.jsx:48-52 | the loaded list keeps its length and order, and each record is normalised |
| EventsPage.NormaliseAllKeepsFields | src/pages/EventsPage.jsx:48-51 | at every index, id, title, description, image, location, times and creator are kept; `categoryIds` is the sent list, or `[]` when it was missing |
| EventsPage.NormaliseAllOfLifted | src/pages/EventsPage.jsx:48-51 | records that already carry `categoryIds` come through normalisation unchanged |
| EventsPage.TitleMatches | src/pages/EventsPage.jsx:132-134 | the search callback: `title.toLowerCase().includes(query.toLowerCase())`; its meaning is fixed by the contracts of `JsText.Lower` (each upper-case ASCII letter becomes its lower-case letter, every other character is kept) and `JsText.Includes` and by `JsText.IncludesIffOccurs`; `EventsPage.TitleMatchesIgnoresQueryCase` and `EventsPage.QueryCaseIgnored` state that the case of the query's letters makes no difference |
| EventsPage.CategoryPasses | src/pages/EventsPage.jsx:135-141 | the category callback: no selection, or `parseInt(selection)` is listed, or the list is empty; `EventsPage.UncategorisedAlwaysPasses` and `EventsPage.OtherCategoryExcluded` state its pass and fail cases |
| EventsPage.FilteredEvents | src/pages/EventsPage.jsx:131-142 | an event is shown iff it was loaded, its lower-cased title contains the lower-cased query, and it passes the category rule |
| EventsPage.FilteredEventsIsOneFilter | src/pages/EventsPage.jsx:131-142 | the title stage followed by the category stage equals one filter by both conditions |
| EventsPage.FilteredEventsIsSubsequence | src/pages/EventsPage.jsx:131-142 | the shown list is a subsequence of the loaded list in the original order, and each shown event occurs exactly as often as it was loaded |
| EventsPage.NoFilterShowsAll | src/pages/EventsPage.jsx:133-136 | an empty query with no category selected shows the loaded list unchanged |
| EventsPage.UncategorisedAlwaysPasses | src/pages/EventsPage.jsx:139-140 | an event with empty `categoryIds` whose title matches is shown, whatever category is selected |
| EventsPage.OtherCategoryExcluded | src/pages/EventsPage.jsx:136-141 | with a category selected, an event with non-empty `categoryIds` that lacks `parseInt(selected)` (or when that is NaN) is not shown |
| EventsPage.TitleMatchesIgnoresQueryCase | src/pages/EventsPage.jsx:132-134 | two queries that differ only in the case of their letters match exactly the same titles |
| EventsPage.QueryCaseIgnored | src/pages/EventsPage.jsx:133 | lower-casing the query first makes no difference to the search |
| EventsPage.SearchScenario | src/pages/EventsPage.jsx:132-134 | the query "Jazz" shows "Jazz Night" and hides "Rock Show" |
| EventsPage.CategoryScenario | src/pages/EventsPage.jsx:135-142 | with category "2" selected, events listing `[2]` and `[]` are shown and one listing `[3]` is hidden |
| EventsPage.SetField | src/pages/EventsPage.jsx:74-80 | the named draft field becomes the input's text and every other draft field is unchanged |
| EventsPage.PayloadOf | src/pages/EventsPage.jsx:87-96 | the create payload carries exactly the seven draft fields and `createdBy` 1 |
| EventsPage.EventsPageView.constructor | src/pages/EventsPage.jsx:27-41 | on mount: no events, no categories, empty query, no category, dialog closed, draft equal to `initialFormValues` |
| EventsPage.EventsPageView.ReceiveEvents | src/pages/EventsPage.jsx:44-57 | success replaces the events with the normalised list; failure changes nothing |
| EventsPage.EventsPageView.ReceiveCategories | src/pages/EventsPage.jsx:59-68 | success replaces the categories; failure changes nothing |
| EventsPage.EventsPageView.HandleInputChange | src/pages/EventsPage.jsx:70-72 | the search query becomes the input's text; nothing else changes |
| EventsPage.EventsPageView.HandleCategoryChange | src/pages/EventsPage.jsx:82-84 | the selected category becomes the option's value; nothing else changes |
| EventsPage.EventsPageView.Open | src/pages/EventsPage.jsx:193 | the dialog opens; nothing else changes |
| EventsPage.EventsPageView.Close | src/pages/EventsPage.jsx:273 | the dialog closes and the draft is kept |
| EventsPage.EventsPageView.HandleModalInputChange | src/pages/EventsPage.jsx:74-80 | the draft becomes `SetField` of the old draft; nothing else changes |
| EventsPage.EventsPageView.HandleAddEvent | src/pages/EventsPage.jsx:86-129 | sends the payload of the current draft. On success: events become the old events followed by the returned record, the dialog closes, the draft resets, a success toast is added. On failure: events, draft and dialog are untouched and an error toast is added |
| EventsPage.CreateThenList | src/pages/EventsPage.jsx:106-109 | after mount, with nothing filtered, a successful create lists exactly the returned record and resets the draft |
| Filtering.Filter | src/pages/EventsPage.jsx:131-142 | an element is kept iff it is in the input and satisfies the condition; the result is never longer than the input |
| Filtering.FilterIsSubsequence | src/pages/EventsPage.jsx:131-142 | a filter's result is a subsequence of its input |
| Filtering.FilterMultiplicity | src/pages/EventsPage.jsx:131-142 | a kept element occurs as often as in the input; a dropped one does not occur |
| Filtering.FilterTwice | src/pages/EventsPage.jsx:131-142 | two filters in a row equal one filter by the conjunction |
| Filtering.FilterKeepsAll | src/pages/EventsPage.jsx:136 | a condition every element meets removes nothing |
| JsText.Lower | src/pages/EventsPage.jsx:133 | `toLowerCase` keeps the length, turns each upper-case ASCII letter into its lower-case letter (32 code points up), and keeps every other character |
| JsText.Includes | src/pages/EventsPage.jsx:133 | `includes` never finds a text longer than the searched one, and always finds the empty text; `JsText.IncludesIffOccurs` is its reference definition |
| JsText.IncludesIffOccurs | src/pages/EventsPage.jsx:133 | `includes` holds iff the searched text occurs at some index |
| JsText.Split | src/pages/EventPage.jsx:233-234 | `split(",")` gives one more piece than there are commas, and no piece contains a comma |
| JsText.JoinSplit | src/pages/EventPage.jsx:233-234 | joining the pieces of a split with the separator gives the text back |
| JsText.Trim | src/pages/EventPage.jsx:235 | `trim` returns a piece of the text that has only white space before and after it in the text, and itself neither starts nor ends with white space |
| JsText.Join | src/pages/EventPage.jsx:152 | `join(sep)` places the separator between consecutive pieces; `JsText.JoinSplit` states that joining the pieces of a split with its separator gives the text back |
| JsText.NumberToString | src/pages/EventPage.jsx:152 | the text of a number (an integer in decimal, or `NaN`) is non-empty, has no comma and no white space at either end; `JsText.ParseIntNumberToString` states that `parseInt` reads it back |
| JsText.ParseInt | src/pages/EventsPage.jsx:139 | `parseInt` without a radix: skip leading white space, an optional sign, a `0x` prefix for base 16, then the longest digit run, NaN when there is none; `JsText.ParseIntNumberToString` and `EventPage.LeadingSpaceIgnored` state what it reads back |
| JsText.ParseIntNumberToString | src/pages/EventPage.jsx:235 | `parseInt` reads back the decimal text of any integer, and of NaN, when it is followed by nothing or by a non-digit other than `x` |
| EventPage.CategoryText | src/pages/EventPage.jsx:229 | `categoryIds.join(", ")`, the text the page and the categories input show; `EventPage.CategoryTextRoundTrip` states that the categories input parses it back to the same list |
| EventPage.ParsePieces | src/pages/EventPage.jsx:235 | `.map(id => parseInt(id.trim()))`: one number per piece, the one at each index read from that piece |
| EventPage.ParseCategoryText | src/pages/EventPage.jsx:233-235 | the parsed list has one entry per comma-separated piece: the comma count plus one |
| EventPage.CategoryTextRoundTrip | src/pages/EventPage.jsx:229-235 | parsing the `", "`-joined text of a non-empty list gives that list back, NaN entries included |
| EventPage.CommaAfterCategoryText | src/pages/EventPage.jsx:229-235 | a comma typed after the shown text keeps the list and appends the parse of what follows; a trailing comma appends NaN |
| EventPage.EmptyCategoryTextGivesNaN | src/pages/EventPage.jsx:229-235 | the empty list is shown as `""`, which parses to one NaN, so the empty list does not round-trip |
| EventPage.ApplyEdit | src/pages/EventPage.jsx:182-236 | the six `onChange` handlers: `{ ...event, <field>: value }`, with the parsed list for the categories input; `EventPage.ApplyEditChangesOneField` states that exactly that field changes |
| EventPage.ApplyEditChangesOneField | src/pages/EventPage.jsx:182-236 | an edit sets the field of its input (title, description, image, start, end, or the parsed categories) and every other field keeps its value |
| EventPage.ShownCategoriesReenteredUnchanged | src/pages/EventPage.jsx:229-236 | entering the shown categories text into a categorised event leaves the event unchanged |
| EventPage.EmptyCategoriesReenteredAsNaN | src/pages/EventPage.jsx:229-236 | entering the shown (empty) text into an uncategorised event gives it `categoryIds` `[NaN]` |
| EventPage.Render | src/pages/EventPage.jsx:132-135 | the details are shown iff both the event and the creator are set, and they show exactly those two; otherwise "Loading..." |
| EventPage.EventPageView.constructor | src/pages/EventPage.jsx:25-39 | on mount: no event, no creator, both dialogs closed, no navigation, no toasts |
| EventPage.EventPageView.Load | src/pages/EventPage.jsx:41-58 | the creator is requested only after the event arrives, by its `createdBy`; each stage's success sets its field and a failure leaves it as it was |
| EventPage.EventPageView.OpenEditModal | src/pages/EventPage.jsx:60-62 | the edit dialog opens; nothing else changes |
| EventPage.EventPageView.CloseEditModal | src/pages/EventPage.jsx:64-66 | Cancel closes the edit dialog and does not revert `event` |
| EventPage.EventPageView.OpenDeleteModal | src/pages/EventPage.jsx:167 | the delete dialog opens; nothing else changes |
| EventPage.EventPageView.CloseDeleteModal | src/pages/EventPage.jsx:265 | the delete dialog closes; nothing else changes |
| EventPage.EventPageView.HandleFieldChange | src/pages/EventPage.jsx:182-236 | the displayed event becomes `ApplyEdit` of itself; nothing else changes |
| EventPage.EventPageView.HandleUpdateEvent | src/pages/EventPage.jsx:68-99 | sends the whole displayed event to the route's id. Success replaces the event with the returned record, closes the dialog and adds a success toast. Failure keeps the edits and the open dialog and adds an error toast |
| EventPage.EventPageView.HandleDeleteEvent | src/pages/EventPage.jsx:101-130 | deletes the route's id. Success adds a success toast and navigates to `/`. Failure adds an error toast and does not navigate; the event is unchanged either way |
| EventPage.CreatorFailureScenario | src/pages/EventPage.jsx:44-53 | when the event arrives but the creator fetch fails, the event is set, the creator is not, and the page stays on "Loading..." |
| EventPage.DeleteFailureScenario | src/pages/EventPage.jsx:118-129 | a failed delete stays on the page with the event and creator shown, and one error toast |
| EventPage.UpdateFailureScenario | src/pages/EventPage.jsx:88-98 | a failed update after an edit keeps the edited event on screen and the dialog open |

## Left out

- Rendering (JSX, Chakra UI widgets, `useDisclosure`, toast text and duration), routing other than the recorded `navigate("/")`, and `console.error` logging.
- `fetch`, URLs, HTTP methods, headers and JSON encoding. Each request is an abstract `Outcome`, and its response record is a parameter. JSON's encoding of NaN as `null` is not modelled: a detail-view record returned by the server keeps its entries as given.
- Asynchronous interleaving: overlapping submits, stale closures over `events` or `event`, and state updates after unmount. Each handler runs to completion with its response.
- Re-running the detail load when `eventId` changes: a view is modelled for one route id.
- Date display (`new Date(...).toLocaleString()`), which depends on locale and time zone.
- The list view's created record is assumed to carry a list of integer `categoryIds`. A server echoing the category `<Select>`'s string value is not modelled. Neither is the list view's filter over it (`String.prototype.includes`), nor the detail view opening such a record: there `event.categoryIds.join(", ")` (src/pages/EventPage.jsx:152 and :229) throws on a string, where `EventPage.Render` yields `Details`.
- A response record without the expected fields is not modelled: in both views the record type always has every field. In the list view, a create answered with a failing status and a JSON error body is appended as is (src/pages/EventsPage.jsx:107, which does not normalise it); the next render then throws at `event.title.toLowerCase()` when the body has no title, and at `event.categoryIds.includes` when a category is selected and the body has no `categoryIds`. The model shows a normal append instead. In the detail view, an event loaded without `categoryIds` (the case src/pages/EventsPage.jsx:50 guards against, or a failing status with a body such as `{}`) makes `event.categoryIds.join` at src/pages/EventPage.jsx:152 throw, where `EventPage.Render` yields `Details`.
- JsText.Lower: ASCII letters only. Full Unicode `toLowerCase` (one character becoming several, locale-free special cases) is not modelled.
- JsText.IsSpace: the Unicode space separators other than U+00A0 are not treated as white space.
- JsText.ParseInt: integers are unbounded. Double-precision rounding above 2^53 and `-0` are not modelled.
- JsText.NumberToString: integers are written out in decimal at every size. JavaScript's exponent form from 10^21 up is not modelled.
- EventsPage.CategoryPasses: a NaN entry in a list-view `categoryIds` is not modelled; the list view holds integers only, so `includes(NaN)` is always false.
