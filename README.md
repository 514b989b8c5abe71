# cab-admin dashboard: client-side state of the Rates, Bookings and Notifications pages

This project models in Dafny the state logic of three pages of the cab-admin dashboard. It proves properties about that logic.

- **Rate sheet editor** (`src/pages/RatesPage.jsx`).
  - The built-in default rate sheet. When the server's saved sheet arrives, it is merged over the defaults.
  - The merge drops the retired "Aurangabad" bus city.
  - The page has editing handlers for the per-km, per-seat, bus and fixed-cab tables, the custom routes, and the sharing-route form.
  - It shows a status label.
  - Every change restarts a 500 ms debounce timer. When the timer fires, the whole sheet is sent to the server in one save.
- **Booking list** (`src/pages/BookingsPage.jsx`).
  - A case-insensitive search over five fields.
  - A local patch of one booking after a successful status update (allocate a driver, or reject).
  - The fare shown for shared and exclusive rides.
  - The stat cards and the driver search.
- **Notification list** (`src/pages/NotificationsPage.jsx`).
  - The mapping of polled server records.
  - The mark-as-read patch.
  - The all / unread / read tabs.

Layout:

- `collections.dfy` (module `Collections`): `Array.filter` (`Keep`), index removal, and the order-preserving subsequence relation, with their lemmas.
- `text.dfy` (module `Text`): lower-casing, `includes`, `substring(0, n)`, number printing and `Number(text)`.
- `rate_sheet.dfy` (module `RateSheet`): the rate sheet's data. It holds the defaults, the merge and the pure updaters.
  - `Merged` is the specification of the merge.
  - `MergeRates` is the merge as the source writes it: a loop over the default vehicles, then the two conditional deletes. It is proved equal to `Merged`.
- `rates_page.dfy` (module `RatesPage`): the class `RatesEditor`.
  - The timer is a deadline field; time arrives as `now` parameters.
  - `Tick(now)` fires the timer when its deadline has come.
  - Replies from the server arrive as result parameters.
- `bookings.dfy` (module `Bookings`): booking data, filter, patch and fares, and the class `BookingList`.
- `notifications.dfy` (module `Notifications`): the mapping, the patch and the filter, and the class `NotificationList`.

Behaviour of the code that is easy to misread:

- **"Auto Saving..." label.** The timer callback sets this label and then, in the same call, `saveRatesToBackend` replaces it with "Saving...". Under React 18's automatic batching both updates land in one render, so that label is never visible and the model goes straight to `Saving`.
- **More than one save in flight.** Several saves may be in flight at once, and nothing orders their replies (`inFlight` counts them).
- **Late replies.** No page ignores a reply that arrives late. Only the header's unread-count poll (`src/components/Header.jsx:55-69`, not part of this model) guards its reply, with a `cancelled` flag.
- **Retired city removal.** The clean-up deletes the retired city only when its rate is truthy. A saved rate of 0 for "Aurangabad" in a bus row therefore survives the merge.
- **Load schedules an autosave.** The autosave effect also runs after the load has set the working copy, whatever the outcome. This assumes React 18's automatic batching, so that the copy and the new label are committed in one render and the effect sees a label other than "Loading...". A successful load therefore sends the merged sheet back to the server 500 ms later. A failed load sends the defaults back, overwriting the server's sheet (`RatesEditor.Load` ensures a timer is armed in every case).

The main invariant is `RatesEditor.Valid`. Once loading is over, an unsaved change always has a timer armed. The timer is due 500 ms after the latest change. When it fires, the save carries the current sheet (`Tick`), so no edit is lost to coalescing. The ghost field `lastSent` records the sheet of the latest save, and `Valid` states the property directly: once loading is over and no timer is armed, the latest save sent is exactly the current sheet. `TwoQuickEditsOneSave` shows the coalescing on a concrete timeline: two edits at 0 and 100 ms give exactly one save, at 600 ms, and it carries both edits.

## Model

| member | source | states |
|---|---|---|
| RateSheet.DefaultVehiclesAreTheGridKeys | src/pages/RatesPage.jsx:19-72 | the three default vehicle names are exactly the vehicle keys of the default per-km table |
| RateSheet.DefaultRatesAreClean | src/pages/RatesPage.jsx:19-72 | the default sheet has no retired city in either bus row and no sharing routes |
| RateSheet.Spread | src/pages/RatesPage.jsx:77-80 | object spread: the result has the keys of both objects, the right-hand value wins on a shared key, left-hand values are kept elsewhere |
| RateSheet.IsEmptyObject | src/pages/RatesPage.jsx:147 | the server object has no keys at all (specification predicate used by `LoadOutcome`) |
| RateSheet.Merged | src/pages/RatesPage.jsx:75-110 | the merge as a value: each table spread over its default, per-km rows merged within the default vehicles, the retired city dropped from the two bus rows. Its properties are the `Merged*` lemmas below |
| RateSheet.MergeRates | src/pages/RatesPage.jsx:75-110 | the loop over the default vehicles and the two conditional deletes compute exactly the merge `Merged` |
| RateSheet.MergedFlatTables | src/pages/RatesPage.jsx:77-80 | merged per-seat and fixed-cab tables contain every default and every saved key, and the saved value wins on a shared key |
| RateSheet.MergedBusRows | src/pages/RatesPage.jsx:79-107 | merged bus rows: every default and saved row is present, and a saved row replaces the default row whole (not city by city), minus the retired city |
| RateSheet.MergedDropsLegacyCity | src/pages/RatesPage.jsx:94-107 | in the 40- and 50-seater rows of the merge the retired city is absent or has rate 0. A saved row whose retired-city rate is 0, and any saved row other than these two, is kept exactly |
| RateSheet.MergedPerKmRates | src/pages/RatesPage.jsx:86-91 | merged per-km vehicles are exactly the default vehicles. Within a vehicle the saved route value wins, and default routes missing from the saved data are kept |
| RateSheet.MergedRouteLists | src/pages/RatesPage.jsx:81-82 | custom routes are the saved list when present, otherwise the defaults. Sharing routes are the saved list when present, otherwise empty |
| RateSheet.MergeOfEmptyIsTemplate | src/pages/RatesPage.jsx:75-110 | merging an empty server object over a clean template gives the template back unchanged |
| RateSheet.SetNestedRate | src/pages/RatesPage.jsx:224-235 | sets one cell of a per-km or bus table. It creates the row if missing and leaves every other row, cell and category untouched |
| RateSheet.SetSimpleRate | src/pages/RatesPage.jsx:237-245 | sets one entry of a per-seat or fixed-cab table and leaves every other entry and category untouched |
| RateSheet.WithField | src/pages/RatesPage.jsx:250 | writing one field of a custom route changes that field only |
| RateSheet.SetCustomRouteField | src/pages/RatesPage.jsx:247-253 | only the route at the index changes, and only in that field. Length and all other routes and categories are unchanged |
| RateSheet.NewSharingRoute | src/pages/RatesPage.jsx:274-284 | a route is built exactly when all six form fields are non-empty, with the "from → to" label, the copied fields and the price read by `Number` |
| RateSheet.SharingRoutePriceRoundTrip | src/pages/RatesPage.jsx:283 | a price typed as the decimal text of an integer is stored as that integer |
| RateSheet.StepDown | src/pages/RatesPage.jsx:313 | the minus button never goes below zero, and otherwise subtracts exactly one step |
| RateSheet.StepUp | src/pages/RatesPage.jsx:326 | the plus button adds one step, with no upper bound (related to the minus button by `StepDownUndoesStepUp`) |
| RateSheet.StepDownUndoesStepUp | src/pages/RatesPage.jsx:309-330 | on a non-negative value, minus after plus restores the value |
| Collections.Keep | src/pages/BookingsPage.jsx:53-60 | `Array.filter`: no longer than the list, holding exactly the elements that satisfy the test, each as many times as in the list |
| Collections.KeepIsSubsequence | src/pages/BookingsPage.jsx:53-60 | `Array.filter` keeps list order: its result is a subsequence of the list |
| Collections.RemoveAt | src/pages/RatesPage.jsx:255-260 | `filter((_, i) => i !== index)`: one element shorter when the index is in range, unchanged otherwise, with the elements before the index kept in place and those after shifted down by one |
| Collections.RemoveAtLosesOne | src/pages/RatesPage.jsx:301-306 | removing an in-range index loses exactly the element at it (multisets) and keeps the order of the rest |
| Text.LowerCase | src/pages/BookingsPage.jsx:52-59 | same length, and each character is lower-cased |
| Text.Includes | src/pages/BookingsPage.jsx:55-59 | `String.includes` as a scan over the start positions (characterised by `IncludesIff`) |
| Text.IncludesIff | src/pages/BookingsPage.jsx:55-59 | the `includes` scan holds exactly when the query occurs at some position, in both directions |
| Text.Prefix | src/pages/RatesPage.jsx:165 | `substring(0, n)` is a prefix of length min(n, length) |
| Text.ShowNat | src/pages/RatesPage.jsx:142 | a number prints as a non-empty run of digits without a leading zero |
| Text.ParseNumber | src/pages/RatesPage.jsx:283 | empty text reads as 0. Any text read as a number is an optionally signed run of digits |
| Text.ParseNumberOfShowInt | src/pages/RatesPage.jsx:283 | reading back the printed text of an integer gives the integer |
| RatesPage.Label | src/pages/RatesPage.jsx:152-203 | the text each `setSaveStatus` call puts in the label (its properties are the two lemmas below) |
| RatesPage.LabelIsLoadingOnlyWhenLoading | src/pages/RatesPage.jsx:211 | the label text equals "Loading..." exactly in the loading state, so the effect's text test is a state test |
| RatesPage.LoadFailedHidesHttpStatus | src/pages/RatesPage.jsx:141-165 | an HTTP error cut to 15 characters reads "HTTP error! sta": the load-failure label never shows the status code |
| RatesPage.LoadOutcome | src/pages/RatesPage.jsx:137-166 | label "Ready" exactly when the server answers ok with an empty object, "Loaded" exactly when it answers ok with a non-empty one, a load failure otherwise, whose detail is the first 15 characters of the thrown message or of the "HTTP error! status" text. The copy is the merge when loaded, the defaults otherwise |
| RatesPage.LoadedCopyIsMerge | src/pages/RatesPage.jsx:147-158 | whenever the server answers ok, the working copy equals the merge of its object over the defaults, the empty object included |
| RatesPage.SaveOutcome | src/pages/RatesPage.jsx:172-205 | "Saved!" exactly on a 2xx reply. A 404 gives the fixed not-found message, checked first. Any other non-2xx reply is a save failure with the body's message cut to 20 characters, and a thrown error a save failure with its message cut to 20 characters |
| RatesPage.RatesEditor.constructor | src/pages/RatesPage.jsx:115-131 | the page mounts with the defaults, the "Loading..." label, an empty form and no timer |
| RatesPage.RatesEditor.RatesChanged | src/pages/RatesPage.jsx:209-220 | each change clears the timer and re-arms it 500 ms ahead, unless the page is loading |
| RatesPage.RatesEditor.Load | src/pages/RatesPage.jsx:136-169 | the working copy and label become `LoadOutcome`, and an autosave is armed whatever the outcome |
| RatesPage.RatesEditor.UpdateNestedRate | src/pages/RatesPage.jsx:224-235 | the copy becomes `SetNestedRate` of the old copy, and the autosave is re-armed for this change |
| RatesPage.RatesEditor.UpdateSimpleRate | src/pages/RatesPage.jsx:237-245 | the copy becomes `SetSimpleRate` of the old copy, and the autosave is re-armed |
| RatesPage.RatesEditor.UpdateCustomRoute | src/pages/RatesPage.jsx:247-253 | the copy becomes `SetCustomRouteField` of the old copy, and the autosave is re-armed |
| RatesPage.RatesEditor.DeleteCustomRoute | src/pages/RatesPage.jsx:255-260 | the custom route at the index is removed and the rest keep their order. The autosave is re-armed |
| RatesPage.RatesEditor.AddCustomRoute | src/pages/RatesPage.jsx:262-267 | a "New Route" / "Vehicle" / 0 row is appended, and the autosave is re-armed |
| RatesPage.RatesEditor.HandleChange | src/pages/RatesPage.jsx:270-272 | typing changes one form field and nothing else |
| RatesPage.RatesEditor.HandleAddRoute | src/pages/RatesPage.jsx:274-299 | with an incomplete form nothing changes. Otherwise the built route is appended, the form is cleared and the autosave is re-armed |
| RatesPage.RatesEditor.HandleDeleteRoute | src/pages/RatesPage.jsx:301-306 | the sharing route at the index is removed, and the autosave is re-armed |
| RatesPage.RatesEditor.Tick | src/pages/RatesPage.jsx:214-217 | when the deadline has come, the whole current copy is sent (and recorded as the latest save), the label is "Saving..." and the timer is disarmed. Otherwise nothing changes |
| RatesPage.RatesEditor.SaveCompleted | src/pages/RatesPage.jsx:184-205 | the label becomes `SaveOutcome`, and a failure arms the 5 s reset |
| RatesPage.RatesEditor.ResetStatus | src/pages/RatesPage.jsx:204 | the reset timer puts the label back to "Ready" and changes nothing else |
| RatesPage.TwoQuickEditsOneSave | src/pages/RatesPage.jsx:209-220 | edits at 0 and 100 ms give exactly one save, at 600 ms, and it carries both edits |
| Bookings.FilterBookings | src/pages/BookingsPage.jsx:51-62 | a booking is shown exactly when one of the name, phone, pickup or drop fields (or the driver's name, when present) contains the search text, ignoring case. The result is an order-preserving subsequence, and a matching booking appears as many times as in the list |
| Bookings.EmptyQueryKeepsAll | src/pages/BookingsPage.jsx:52-60 | an empty search shows every booking |
| Bookings.FilterIdempotent | src/pages/BookingsPage.jsx:53-60 | filtering the filtered list again with the same text changes nothing |
| Bookings.Patched | src/pages/BookingsPage.jsx:89 | one booking after the update: the new status, and the new driver only when one is given (stated by `ApplyStatusUpdate`) |
| Bookings.ApplyStatusUpdate | src/pages/BookingsPage.jsx:86-92 | the list keeps its length. Bookings with the id get the new status, and the new driver only when one is given. All other bookings are unchanged |
| Bookings.UpdateKeepsIds | src/pages/BookingsPage.jsx:86-92 | the update never changes which bookings are in the list |
| Bookings.UpdateIdempotent | src/pages/BookingsPage.jsx:86-92 | applying the same update twice equals applying it once |
| Bookings.RejectKeepsDriver | src/pages/BookingsPage.jsx:200 | reject makes the booking "Cancelled" and keeps its driver |
| Bookings.AllocateSetsDriver | src/pages/BookingsPage.jsx:393-395 | allocating a listed driver makes the booking "Confirmed" with that driver |
| Bookings.FilteredDrivers | src/pages/BookingsPage.jsx:111-113 | a driver is offered exactly when their name contains the search text, ignoring case, in list order |
| Bookings.EmptySearchKeepsAllDrivers | src/pages/BookingsPage.jsx:111-113 | an empty driver search offers all six drivers |
| Bookings.ComputeFareDetails | src/pages/BookingsPage.jsx:102-109 | shared rides give per-seat = fare or 0 and total = per-seat × (passengers or 1). Other rides give total = fare or 0 |
| Bookings.SharedSingleSeatCostsTheFare | src/pages/BookingsPage.jsx:102-109 | with a non-zero fare, a shared ride costs the same as an exclusive one exactly when one seat is charged |
| Bookings.SharedTotalCoversOneSeat | src/pages/BookingsPage.jsx:102-109 | with non-negative fare and passengers, the shared total is at least the per-seat price, which is non-negative |
| Bookings.ExclusiveBookingExample | src/pages/BookingsPage.jsx:108 | an exclusive booking with fare 3500 totals 3500 |
| Bookings.SharedBookingExample | src/pages/BookingsPage.jsx:103-106 | a shared booking at 2300 for two passengers totals 4600 |
| Bookings.FormatRupee | src/pages/BookingsPage.jsx:99-100 | zero and NaN show a dash; any other amount is shown as itself |
| Bookings.DetailTotalAsWritten | src/pages/BookingsPage.jsx:490-493 | the modal's product is a number exactly when both fare and passengers are present, and then it is fare × passengers |
| Bookings.DetailTotal | src/pages/BookingsPage.jsx:479-494 | the corrected modal total equals the list's total, and agrees with the written product when both fields are present and passengers is non-zero |
| Bookings.DetailTotalDisagreesWithList | src/pages/BookingsPage.jsx:479-494 | a shared booking with a fare and no passenger count shows ₹1200 in the list and a dash in the modal |
| Bookings.Statuses | src/pages/BookingsPage.jsx:142-150 | the list of booking statuses, one per booking, in order |
| Bookings.KeptCountIsMultiplicity | src/pages/BookingsPage.jsx:142-150 | the length of the status filter is the number of bookings with that status |
| Bookings.CountStatus | src/pages/BookingsPage.jsx:142-150 | a status count is the number of bookings with that status. It never exceeds the list length, and equals it when every booking has that status |
| Bookings.PendingPlusConfirmedAtMostTotal | src/pages/BookingsPage.jsx:136-150 | the Pending and Confirmed cards together never exceed the Total card |
| Bookings.BookingList.constructor | src/pages/BookingsPage.jsx:29-35 | the page mounts empty and loading, with no modal open |
| Bookings.BookingList.FetchCompleted | src/pages/BookingsPage.jsx:37-49 | fetched data replaces the list; a failure leaves it. Loading ends either way and the shown list is the search result |
| Bookings.BookingList.SetSearchQuery | src/pages/BookingsPage.jsx:51-62 | a new search text recomputes the shown list over the unchanged bookings |
| Bookings.BookingList.OpenDriverModal | src/pages/BookingsPage.jsx:199 | the modal opens on the chosen booking |
| Bookings.BookingList.CloseDriverModal | src/pages/BookingsPage.jsx:408 | the modal closes |
| Bookings.BookingList.SetDriverSearch | src/pages/BookingsPage.jsx:382 | the driver search takes the typed text |
| Bookings.BookingList.HandleStatusUpdate | src/pages/BookingsPage.jsx:77-97 | on success the list is patched by `ApplyStatusUpdate` and the modal closes. On failure nothing changes |
| Bookings.BookingList.Reject | src/pages/BookingsPage.jsx:343 | reject is the update to "Cancelled" with no driver: on success the booking is patched and the modal closes, on a thrown request the list and the modal are unchanged |
| Bookings.BookingList.Allocate | src/pages/BookingsPage.jsx:393-395 | allocate is the update of the modal's booking to "Confirmed" with the chosen driver |
| Bookings.BookingList.Stats | src/pages/BookingsPage.jsx:136-150 | the cards show the shown list's length, the number of shown bookings that are "Pending" and the number that are "Confirmed"; the two counts sum to at most the length |
| Notifications.FromServer | src/pages/NotificationsPage.jsx:14-19 | one record per server record, in order, with id, message and read copied and the date formatted |
| Notifications.FromServerKeepsUnreadCount | src/pages/NotificationsPage.jsx:14-19 | the mapping keeps the number of unread notifications |
| Notifications.MarkRead | src/pages/NotificationsPage.jsx:41-43 | records with the id become read, changing nothing else. All other records are unchanged |
| Notifications.MarkReadIdempotent | src/pages/NotificationsPage.jsx:41-43 | marking twice equals marking once |
| Notifications.MarkReadLeavesNoUnread | src/pages/NotificationsPage.jsx:41-54 | after marking, the unread tab shows nothing with that id |
| Notifications.MarkReadShrinksUnread | src/pages/NotificationsPage.jsx:41-54 | marking never lengthens the unread tab |
| Notifications.FilterNotifications | src/pages/NotificationsPage.jsx:50-54 | "unread" keeps exactly the unread records and "read" exactly the read ones, in order, each shown record as many times as in the list |
| Notifications.UnreadAndReadPartition | src/pages/NotificationsPage.jsx:50-54 | the unread and read tabs together hold every record exactly once (lengths and multisets) |
| Notifications.OtherFilterShowsAll | src/pages/NotificationsPage.jsx:53 | any tab value other than "unread" and "read" shows the whole list |
| Notifications.NotificationList.constructor | src/pages/NotificationsPage.jsx:6-7 | the page mounts with an empty list on the "all" tab |
| Notifications.NotificationList.PollCompleted | src/pages/NotificationsPage.jsx:10-23 | a successful poll replaces the list with the mapped records; a failed one leaves it |
| Notifications.NotificationList.MarkAsRead | src/pages/NotificationsPage.jsx:34-47 | the list is patched unless the request throws, including on an HTTP error status |
| Notifications.NotificationList.SetFilter | src/pages/NotificationsPage.jsx:63 | the tab takes the chosen value |
| Notifications.NotificationList.Visible | src/pages/NotificationsPage.jsx:50-54 | the shown list is the filter of the list by the current tab: an ordered subsequence holding exactly the unread (or read) records on those tabs, and the whole list otherwise |

## Left out

- Network I/O (`fetch`, `axios`): replies are result parameters. The model keeps the HTTP status where the page looks at it, and otherwise only success or failure.
- Timers (`setTimeout`, `setInterval`): time is a parameter. Expiry is the `Tick` and `ResetStatus` methods, and each poll is a `PollCompleted` call.
- Unmounting the pages (clearing timers and intervals) is not modelled.
- Rendering, styling, icons and the detail modal's other fields are not modelled. `getStatusColor` is not modelled.
- Text.LowerCase: folds only ASCII A–Z, while `toLowerCase` folds all of Unicode.
- Text.ParseNumber: reads only optionally signed decimal integers. `Number` also accepts decimals, exponents, surrounding white space and hex; the model treats those as NaN.
- RateSheet.SetNestedRate: rates are integers; fractional values are not modelled. Neither is a non-numeric rate loaded from the server, for which the minus button's `Math.max(0, value - step)` gives NaN (`src/pages/RatesPage.jsx:313`).
- RatesPage.RatesEditor.UpdateCustomRoute: the source copies the array but writes into the shared route object. That object can be shared with the previous state and with the built-in defaults. The model replaces the route by value, so this aliasing is not captured.
- RatesPage.SaveOutcome: the message taken from a non-2xx error body is a parameter. JSON parsing of the body and the "Failed to save rates" fallback are not modelled.
- RatesPage.RatesEditor.Tick: does not model the transient "Auto Saving..." label, which the same call overwrites with "Saving...".
- Object key order and the `rates && Object.keys(rates).length > 0` guard, which always holds, are not modelled.
- Notifications.FromServer: date formatting (`new Date(...).toLocaleString()`) depends on locale and time zone, so it is a parameter.
- Bookings.BookingList.SetSearchQuery, Bookings.BookingList.FetchCompleted, Bookings.BookingList.HandleStatusUpdate: the filter effect depends on both the search text and the bookings and runs after render, so for one render after each of these the shown list is stale (after the first fetch with an empty search the page briefly shows "No bookings found."). The model recomputes the shown list at once.
- Bookings.DetailTotalAsWritten: a fare or passenger count that is JSON `null` is read like a missing one (NaN, shown as "—"), while JavaScript's `x * null` is 0, also shown as "—". The shown text is the same either way, but the number differs.
- Bookings.Booking: other fields (trip type, vehicle type, times, contact details) only matter to rendering and are not modelled.
- `src/components/Header.jsx` (unread badge with the "99+" cap) is not part of this model; it repeats the unread filter.
- Earnings, Payments, Login, App, Sidebar, `src/data/mockData.js`, `src/types/index.js` and `vite.config.js` are not part of this model.

## Findings

| source | as written | input that shows it | evidently intended | confidence | as-written member | corrected member |
|---|---|---|---|---|---|---|
| src/pages/BookingsPage.jsx:479-494 | the details modal computes the shared total as `fare * passengers` without the `fare \|\| 0` and `passengers \|\| 1` defaults of `computeFareDetails` | shared booking, fare 1200, no passenger count: the list shows ₹1200, the modal shows "—" | the modal shows the same total as the list (`computeFareDetails(b).total`) | medium, not executed | Bookings.DetailTotalAsWritten, Bookings.DetailTotalDisagreesWithList | Bookings.DetailTotal |
