# Driver dispatch and order pages of a food-delivery platform

This project models the delivery-driver side of a food-delivery platform, and the two customer order pages, in Dafny. It covers:

- **The driver REST routes** (`server/routes/driver.ts`, module `DriverRoutes`):
  - the dashboard aggregate, which includes the prioritised list of the ten orders open for pickup;
  - accepting an order, updating its status, reading one order and listing a driver's orders;
  - the period statistics and the profile update with its field allow-list.

  The order and driver stores are the fields of the `DriverStore` class, which the handlers update in place. Pure computations are functions:
  - `AvailableOrders` (the priority rule);
  - `Stats` (period statistics), `DashboardStatsOf`, `AverageDeliveryMinutes`;
  - `AcceptOutcome` / `UpdateStatusOutcome` (answer plus new store).

  Each handler is proved against the function that specifies it.
- **The driver dashboard page** (`client/src/pages/DriverDashboard.tsx`, module `DriverDashboard`):
  - the next-status flow and the status labels;
  - the four order categories;
  - the page's own copy of the prioritiser, computed on fractional numbers as the page does;
  - the statistics view built from four `/stats` responses;
  - the component state (`driverStatus`, `lastNotificationTime`), as the class `DashboardState`.
- **The opening-hours banner** (`client/src/components/TimingBanner.tsx`, module `TimingBanner`):
  - parsing `"HH:MM"` into minutes of the day, with JavaScript's `NaN` made explicit;
  - the same-day and overnight open/closed rule;
  - the closing-soon band and the message and colour;
  - the settings lookup with its `11:00`/`23:00` defaults.
- **The order history page** (`client/src/pages/OrdersPage.tsx`, module `OrdersPage`): the restaurant-name fallback, the status labels, the four tabs with their counts, and the item count.
- **The live tracking page** (`client/src/pages/TrackOrdersPage.tsx`, module `TrackOrdersPage`): the active-order projection and its labels.

Shared pieces:
- `Schema` holds the order record. Money is in integer cents and times are in integer milliseconds. An empty string stands for an unset (falsy) field.
- `Seqs` holds `filter`, `map` and `reduce` over sequences.
- `Sorting` holds the comparator sorts. Each is a stable insertion sort on a `(major, minor)` integer key.
- `Wrappers` holds `Option`.

The clock is a parameter: `now` in milliseconds, the banner's `nowMinute`, and the calendar boundaries of the dashboard. So are the fetched JSON bodies. `storage.getOrders()` is `Listing`: the stored orders in the store's own sequence of keys, `ids`.

Where the documentation and the code disagree, the model follows the code:
- The status route's allow-list is flat: `ready`, `picked_up` and `delivered` in any order. It is not a state machine; `StatusAfterAccept` proves that a driver can go back from `delivered` to `ready`.
- Acceptance writes status `ready` (not `preparing`) and a flat earnings figure of `10.00`.
- The order listing does not check that the driver exists.

## Model

| member | source | states |
|---|---|---|
| DriverRoutes.RoundHalfUp | server/routes/driver.ts:68 | `Math.round(num/den)` on integers: the result r satisfies den(2r−1) ≤ 2·num < den(2r+1), i.e. the nearest integer with halves rounded up |
| DriverRoutes.PriorityOf | server/routes/driver.ts:72-78 | high exactly when the total exceeds 100.00 or the order is older than 15 minutes; low exactly when the total is under 50.00 and the order is younger than 5 minutes; medium otherwise |
| DriverRoutes.PriorityMonotone | server/routes/driver.ts:72-78 | a larger and older order never ranks lower |
| DriverRoutes.EstimatedEarnings | server/routes/driver.ts:67-68 | the estimate is 15 % of the total, rounded half up to a whole unit |
| DriverRoutes.RankedMember | server/routes/driver.ts:64-86 | every ranked candidate is a confirmed, unassigned order of the store annotated with its earnings, priority and age at `now` |
| DriverRoutes.RankThenOldest | server/routes/driver.ts:87-94 | the sorted candidates have non-increasing rank and, within a rank, non-decreasing creation time |
| DriverRoutes.Annotate | server/routes/driver.ts:66-86 | the entry keeps the order, its earnings are the 15 % estimate, its priority is the rule applied to the order's age at `now`, and its age is the age in whole minutes rounded half up |
| DriverRoutes.AvailableOrders | server/routes/driver.ts:64-95 | `availableOrders` has min(10, #open) entries; each is an open order annotated at `now`; no candidate is taken more often than it occurs; they are ordered by rank then age; and no left-out candidate sorts before a kept one |
| DriverRoutes.TopTenMembers | server/routes/driver.ts:95 | the first ten ranked candidates have the right length and are all open orders annotated at `now` |
| DriverRoutes.TopTenSubMultiset | server/routes/driver.ts:95 | the slice is a sub-multiset of the candidates: no order is listed twice unless it occurs twice |
| DriverRoutes.TopTenOrder | server/routes/driver.ts:87-95 | the slice keeps the rank-then-age order |
| DriverRoutes.TopTenIsTop | server/routes/driver.ts:87-95 | every candidate cut off by the slice has a key no smaller than any kept entry (top-10 selection) |
| Sorting.SortBy | server/routes/driver.ts:87-94 | sorting keeps the length and the multiset of elements |
| Sorting.SortBySorted | server/routes/driver.ts:87-94 | the sort result is ordered by the comparator's key |
| Sorting.SortedPrefixIsTop | server/routes/driver.ts:95 | after sorting, the prefix of length k and the rest partition the input, and the prefix holds the smallest keys |
| Sorting.SortByMap | client/src/pages/DriverDashboard.tsx:175-182 | sorting commutes with a projection that preserves the key |
| DriverRoutes.SuccessRate | server/routes/driver.ts:338-340 | 0 without orders; otherwise the percentage delivered/total rounded half up, within 0..100 when delivered ≤ total |
| DriverRoutes.AverageOrderValue | server/routes/driver.ts:334-336 | 0 without deliveries; otherwise the value times the number of deliveries gives back the earnings |
| DriverRoutes.PeriodOrders | server/routes/driver.ts:322-325 | exactly the driver's orders created inside [start, end] |
| DriverRoutes.Stats | server/routes/driver.ts:322-353 | the total is the number of the driver's orders in the window, the completed count the number delivered in it, the cancelled count the number cancelled in it; earnings are the sum over orders delivered inside the window; the success rate is `SuccessRate(completed, total)`, within 0..100; completed + cancelled ≤ total ≤ all orders |
| DriverRoutes.AverageDeliveryMinutes | server/routes/driver.ts:102-111 | 0 without timed deliveries; otherwise the rounded mean of acceptance-to-delivery times in minutes (bracketed as for `Math.round`) |
| DriverRoutes.MeanMinutes | server/routes/driver.ts:106-111 | 0 for no deliveries; otherwise the mean of the total over n deliveries in minutes, rounded half up (bracketed as for `Math.round`) |
| DriverRoutes.AverageDeliveryWithin | server/routes/driver.ts:102-111 | when every timed delivery took between lo and hi minutes, so does the rounded average |
| DriverRoutes.RoundedMeanWithin | server/routes/driver.ts:106-111 | a rounded mean of values between lo and hi lies between lo and hi |
| DriverRoutes.DashboardStatsOf | server/routes/driver.ts:30-61 | each count is the number of the driver's orders created today, since the week start, since the month start, delivered (today or overall) or cancelled; each earnings figure is the sum of the delivered earnings of that list; the average delivery time is that of the delivered orders and the rate is `SuccessRate(completed, total)`; the counts are ordered, the rate is within 0..100, and the rating is the fixed 4.8 |
| DriverRoutes.DashboardAgreesWithTotalPeriod | server/routes/driver.ts:113-131 | the dashboard's totals and success rate equal the `/stats` figures for the period "total" when every order lies between the epoch and now |
| DriverRoutes.DriverOrders | server/routes/driver.ts:28 | exactly the orders whose driver is the requesting driver |
| DriverRoutes.AcceptOutcome | server/routes/driver.ts:145-183 | acceptance succeeds iff the driver id is present, the driver and the order exist, and the order is confirmed and unassigned; each failure gets its own error in check order and leaves the store unchanged; success writes driver, `ready` and the flat earnings to that order only |
| DriverRoutes.AcceptIsOnce | server/routes/driver.ts:166-169 | once accepted, an order is no longer open for pickup, and any second acceptance is refused with 400 and changes nothing |
| DriverRoutes.UpdateStatusOutcome | server/routes/driver.ts:186-223 | success iff both fields are present, the order exists, the caller owns it and the status is allow-listed; failures have their errors in check order and leave the store unchanged; success changes only the status (and stamps the delivery time for `delivered`) |
| DriverRoutes.StatusAfterAccept | server/routes/driver.ts:205-209 | after acceptance the owner may set any allowed status, in any order, while any other driver gets 403 and no change |
| DriverRoutes.SanitizeProfile | server/routes/driver.ts:369-376 | the sanitised update holds exactly the allow-listed fields the request defines, with their values unchanged |
| DriverRoutes.WindowStart | server/routes/driver.ts:299-320 | "today", "week" and "month" start at the matching calendar boundary; an unknown or "total" period starts at the epoch |
| DriverRoutes.Listing | server/routes/driver.ts:27 | the listing has one entry per key of `ids`, the stored order under that key |
| DriverRoutes.AcceptLeavesAvailable | server/routes/driver.ts:145-183 | after a successful accept, the next listing of the store shows the accepted order among the driver's in-progress orders and no available-order entry is that order |
| DriverRoutes.NeverAvailable | server/routes/driver.ts:64-95 | an order that is not open for pickup is never among the available orders |
| DriverRoutes.DriverStore.AcceptOrder | server/routes/driver.ts:145-183 | the answer and the new order store are those of `AcceptOutcome`; the driver store and the key sequence are unchanged and the store stays consistent |
| DriverRoutes.DriverStore.UpdateStatus | server/routes/driver.ts:186-223 | the answer and the new order store are those of `UpdateStatusOutcome`; the driver store and the key sequence are unchanged and the store stays consistent |
| DriverRoutes.DriverStore.GetOrder | server/routes/driver.ts:226-250 | an order is returned iff the driver id is present, the order exists and the caller owns it; otherwise 400, 404 or 403 in that order |
| DriverRoutes.DriverStore.UpdateProfile | server/routes/driver.ts:361-389 | a missing id gives 400; an unknown driver gives 404 with no change; otherwise the record is merged with exactly the sanitised fields; the orders are untouched |
| DriverRoutes.CurrentOrdersOf | server/routes/driver.ts:98-100 | the current orders are exactly the driver's orders that are preparing, ready, picked up or on the way |
| DriverRoutes.DriverStore.Dashboard | server/routes/driver.ts:12-142 | succeeds iff the driver is known; over the store's own listing, the view holds the driver's statistics, the ten available orders, exactly the driver's in-progress orders, the driver record's `currentLocation` (none when absent), and `now` |
| DriverRoutes.DriverStore.GetStats | server/routes/driver.ts:281-358 | succeeds iff the driver is known; the view holds the statistics of the store's orders in the chosen window ("today" by default), the echoed period and window, and the rating 4.8 |
| DriverRoutes.NewestFirstFacts | server/routes/driver.ts:270-271 | sorting newest first keeps the same orders and makes creation times non-increasing |
| DriverRoutes.DriverStore.ListDriverOrders | server/routes/driver.ts:253-278 | a missing id gives 400; otherwise the result is exactly the store's orders of the driver (with the given status, when one is given), as a permutation of the filtered list, newest first |
| DriverDashboard.NextStatus | client/src/pages/DriverDashboard.tsx:514-523 | a next status exists iff the status is on the flow and not `delivered`, and it is the following status of the flow |
| DriverDashboard.AdvanceAlongFlow | client/src/pages/DriverDashboard.tsx:514-523 | k steps from position i of the flow reach position i+k, or nothing once past the end |
| DriverDashboard.ConfirmedReachesDelivered | client/src/pages/DriverDashboard.tsx:514-523 | from `confirmed`, `delivered` is reached after exactly five steps and the flow stops there |
| DriverDashboard.NoCycle | client/src/pages/DriverDashboard.tsx:514-523 | stepping one or more times never returns to the starting status |
| DriverDashboard.GetStatusText | client/src/pages/DriverDashboard.tsx:486-498 | a status is shown as is exactly when it is not in the table, and known statuses get pairwise distinct labels |
| DriverDashboard.StatusTextKeys | client/src/pages/DriverDashboard.tsx:486-498 | the table has a label for exactly the eight statuses of the order flow |
| DriverDashboard.Categorize | client/src/pages/DriverDashboard.tsx:594-612 | each category holds exactly the orders meeting its condition: open for pickup; mine and preparing/ready; mine and picked up/on the way; mine and delivered |
| DriverDashboard.CategoriesDisjoint | client/src/pages/DriverDashboard.tsx:594-612 | no order appears in two categories |
| DriverDashboard.CategorizeConcat | client/src/pages/DriverDashboard.tsx:614-615 | for each of the four categories, an order is in the category of the joined lists iff it is in that category of one of the two lists |
| DriverDashboard.RoundReal | client/src/pages/DriverDashboard.tsx:151 | `Math.round` on a real: the result r satisfies r ≤ x + ½ < r + 1 |
| DriverDashboard.RoundRealOfQuotient | client/src/pages/DriverDashboard.tsx:240-241 | rounding an exact quotient on the reals equals the integer half-up rounding |
| DriverDashboard.ClientPriority | client/src/pages/DriverDashboard.tsx:153-162 | the page's priority on fractional amounts and minutes equals the server's rule |
| DriverDashboard.ClientEarnings | client/src/pages/DriverDashboard.tsx:150-151 | a missing total gives 0, and the page's estimate equals the server's |
| DriverDashboard.CardEarnings | client/src/pages/DriverDashboard.tsx:621 | a non-zero given estimate is shown; a missing or zero estimate is recomputed from the total as the server's 15 % rule |
| DriverDashboard.Enhance | client/src/pages/DriverDashboard.tsx:149-173 | the entry keeps the order; its fractional earnings and priority equal the server's 15 % estimate and priority rule, i.e. those `Annotate` gives |
| DriverDashboard.ClientAvailableOrders | client/src/pages/DriverDashboard.tsx:138-186 | a non-array body gives the empty list; otherwise the list is a permutation of the unassigned fetched orders annotated at `now`, sorted by rank then age |
| DriverDashboard.ClientSortFacts | client/src/pages/DriverDashboard.tsx:175-182 | the page's list is a permutation of the annotated unassigned orders, each entry a fetched order annotated at `now`, sorted by rank then age |
| DriverDashboard.ClientAgreesWithServer | client/src/pages/DriverDashboard.tsx:138-186 | on confirmed orders, the server's ten available orders are exactly the first ten entries of the page's list |
| DriverDashboard.ClientSuccessRate | client/src/pages/DriverDashboard.tsx:240-241 | a missing response gives 0; otherwise the page's fractional rounding equals the server's success rate |
| DriverDashboard.ClientStatsOf | client/src/pages/DriverDashboard.tsx:214-246 | each of the ten counts and sums is the matching field of its response, or 0 when that response is missing; the success rate is the server's rate of the total response, 0 without it; the rating and delivery time are the fixed 4.8 and 28 |
| DriverDashboard.ClientRateMatchesServer | client/src/pages/DriverDashboard.tsx:239-241 | fed the server's whole-history statistics, the page shows the server's success rate |
| DriverDashboard.NewestCreatedAt | client/src/pages/DriverDashboard.tsx:411-413 | the maximum creation time: attained by an entry and bounding all of them |
| DriverDashboard.DashboardState.constructor | client/src/pages/DriverDashboard.tsx:78-81 | the page starts offline with watermark 0 |
| DriverDashboard.DashboardState.SetAvailability | client/src/pages/DriverDashboard.tsx:370-371 | availability sets the status to available or offline and keeps the watermark |
| DriverDashboard.DashboardState.AcceptSucceeded | client/src/pages/DriverDashboard.tsx:273-275 | a successful accept makes the driver busy |
| DriverDashboard.DashboardState.StatusUpdateSucceeded | client/src/pages/DriverDashboard.tsx:323-327 | only a delivery makes the driver available again; otherwise the status is kept |
| DriverDashboard.DashboardState.ObserveAvailable | client/src/pages/DriverDashboard.tsx:409-416 | a new order is announced iff the list is non-empty, the driver is available and the newest order is strictly newer than the watermark; the watermark then becomes that time, otherwise it is unchanged, and it never decreases |
| TimingBanner.ParseNumber | client/src/components/TimingBanner.tsx:63 | `Number` on digit text: "" is 0, digits give their decimal value, anything else is NaN |
| TimingBanner.LeadingZero | client/src/components/TimingBanner.tsx:63 | a leading zero does not change a number's value |
| TimingBanner.Split | client/src/components/TimingBanner.tsx:63 | splitting on ':' gives at least one part, and no part holds a colon |
| TimingBanner.SplitJoin | client/src/components/TimingBanner.tsx:63 | joining the parts with ':' gives back the original text |
| TimingBanner.TimeToMinutes | client/src/components/TimingBanner.tsx:62-65 | a number exactly when the text has a colon and the texts before the first colon and after it (up to any second colon) are digit strings; the number is their decimal values as hours · 60 + minutes |
| TimingBanner.SplitAtFirstColon | client/src/components/TimingBanner.tsx:63 | the first part of the split is the text before the first colon, and the rest is the split of what follows it |
| TimingBanner.TimeOfDigits | client/src/components/TimingBanner.tsx:62-65 | any digit texts h and m, padded or not and in range or not, give h·60 + m for "h:m", with or without a trailing ":…" |
| TimingBanner.UnpaddedHour | client/src/components/TimingBanner.tsx:62-65 | "9:30" reads as 570 |
| TimingBanner.UnpaddedMinute | client/src/components/TimingBanner.tsx:62-65 | "7:5" reads as 425, i.e. 7:05 |
| TimingBanner.HourOutOfRange | client/src/components/TimingBanner.tsx:62-65 | "24:00" reads as 1440, past the last minute of the day |
| TimingBanner.TwoDigits | client/src/components/TimingBanner.tsx:8 | a zero-padded two-digit text whose value is the number |
| TimingBanner.TimeRoundTrip | client/src/components/TimingBanner.tsx:62-65 | parsing the zero-padded "HH:MM" of a time of day gives back hours·60 + minutes |
| TimingBanner.CalculateStoreStatus | client/src/components/TimingBanner.tsx:6-60 | open exactly by the same-day/overnight rule; yellow iff open with at most 30 minutes left, green iff open with more, red iff closed; the message ends with the closing time when open and the opening time when closed |
| TimingBanner.SameDayWindow | client/src/components/TimingBanner.tsx:17-19 | a same-day window is open exactly from opening up to closing |
| TimingBanner.OvernightWindow | client/src/components/TimingBanner.tsx:20-23 | an overnight window is open from opening or before closing; equal times are always open |
| TimingBanner.UnparseableIsClosed | client/src/components/TimingBanner.tsx:15-23 | unparseable times leave the store closed |
| TimingBanner.MinutesUntilCloseBounds | client/src/components/TimingBanner.tsx:26-39 | while open, closing is between 1 and 1440 minutes away |
| TimingBanner.ColourBands | client/src/components/TimingBanner.tsx:25-59 | for parsed times, the colour bands partition the day as the rule says |
| TimingBanner.FirstIndexOf | client/src/components/TimingBanner.tsx:75 | the index of the first entry with the key, or the length when none has it |
| TimingBanner.FindSetting | client/src/components/TimingBanner.tsx:75-76 | the setting is found iff the list has an entry with the key, and it is the first such entry |
| TimingBanner.SettingOr | client/src/components/TimingBanner.tsx:75-76 | the found non-empty value, otherwise the fallback |
| TimingBanner.OpeningTime | client/src/components/TimingBanner.tsx:75 | the value of the first `opening_time` entry when it is non-empty; "11:00" without settings, without such an entry, or when its value is empty |
| TimingBanner.ClosingTime | client/src/components/TimingBanner.tsx:76 | the value of the first `closing_time` entry when it is non-empty; "23:00" without settings, without such an entry, or when its value is empty |
| TimingBanner.DefaultTimesParse | client/src/components/TimingBanner.tsx:75-76 | the defaults read as minutes 660 and 1380 |
| TimingBanner.DefaultHours | client/src/components/TimingBanner.tsx:6-76 | with no settings the store is open exactly from 11:00 up to 23:00 |
| OrdersPage.RestaurantName | client/src/pages/OrdersPage.tsx:74-80 | the order's own name, else the first item's, else the placeholder; never empty |
| OrdersPage.Processed | client/src/pages/OrdersPage.tsx:82-86 | processing changes only the restaurant name |
| OrdersPage.ProcessedIdempotent | client/src/pages/OrdersPage.tsx:74-86 | processing twice is processing once |
| OrdersPage.GetStatusLabel | client/src/pages/OrdersPage.tsx:99-109 | a status is shown as is exactly when it is not in the table; known statuses get distinct labels |
| OrdersPage.StatusLabelsKeys | client/src/pages/OrdersPage.tsx:99-109 | the table labels exactly six statuses, every status but `ready` and `picked_up` |
| OrdersPage.TabOrders | client/src/pages/OrdersPage.tsx:135-141 | "all" is the whole list; every other tab holds exactly the orders meeting its condition |
| OrdersPage.TabCount | client/src/pages/OrdersPage.tsx:154-159 | each tab's count is the length of that tab's list |
| OrdersPage.TabsDisjoint | client/src/pages/OrdersPage.tsx:135-141 | the active, completed and cancelled tabs share no order; an unknown status is shown under "all" only |
| OrdersPage.TabCountsAddUp | client/src/pages/OrdersPage.tsx:154-159 | the three narrow counts never exceed the "all" count, and add up to it exactly when every status is one of the six |
| OrdersPage.ItemCount | client/src/pages/OrdersPage.tsx:317 | the count of no items is 0; otherwise it is the count of all but the last line plus the last line's quantity, as the left fold of `reduce` adds them |
| OrdersPage.ItemCountConcat | client/src/pages/OrdersPage.tsx:317 | the item count is additive over item lists |
| OrdersPage.ItemCountAtLeastLines | client/src/pages/OrdersPage.tsx:317 | with quantities between 1 and most, the count lies between the number of lines and that number times most |
| TrackOrdersPage.OrderNumberOrId | client/src/pages/TrackOrdersPage.tsx:47 | the order number, or a prefix of the id of at most eight characters |
| TrackOrdersPage.RestaurantOrUnknown | client/src/pages/TrackOrdersPage.tsx:48 | the restaurant name or the placeholder; never empty |
| TrackOrdersPage.Quick | client/src/pages/TrackOrdersPage.tsx:45-56 | the projected record copies the id, status, time, amount, address and phone, with the two fallbacks |
| TrackOrdersPage.ActiveOrders | client/src/pages/TrackOrdersPage.tsx:39-56 | one record per active fetched order, in fetched order, each with an active status |
| TrackOrdersPage.EveryActiveOrderListed | client/src/pages/TrackOrdersPage.tsx:40-41 | every fetched order with an active status has its record in the list |
| TrackOrdersPage.TrackedAreActiveTab | client/src/pages/TrackOrdersPage.tsx:40-41 | the tracking list shows exactly the orders of the history page's "active" tab, in the same order |
| TrackOrdersPage.GetStatusLabel | client/src/pages/TrackOrdersPage.tsx:105-114 | a status is shown as is exactly when it is not in the table |
| TrackOrdersPage.StatusLabelsKeys | client/src/pages/TrackOrdersPage.tsx:105-114 | the table labels exactly `pending`, `confirmed`, `preparing`, `on_way` and `delivered` |
| TrackOrdersPage.LabelsAgreeWithHistoryPage | client/src/pages/TrackOrdersPage.tsx:105-114 | the labels agree with the history page except `cancelled`, which the tracking page leaves untranslated |

## Left out

- The storage layer is reduced to in-memory maps plus the sequence of order keys in which `storage.getOrders()` lists them. The concurrency between the read and the write of an order (two drivers accepting at once) is not modelled. `AcceptIsOnce` covers only requests handled one after the other.
- HTTP plumbing, `fetch`, React rendering and effects scheduling, toasts, sounds, browser notifications, geolocation and `localStorage` are left out. The component state changes those handlers make are modelled as `DashboardState` methods.
- The `500` answers of the `catch` blocks are not modelled, since the store cannot fail in the model.
- The `typeof driverId !== 'string'` checks on query parameters are not modelled. A missing or empty id is the empty string.
- Floating point is left out. `parseFloat` of amounts is exact integer cents, and sub-cent amounts are not represented. The client's fractional arithmetic is modelled on exact reals.
- `Number()` on text with whitespace, a sign, a decimal point, an exponent, a hexadecimal, binary or octal prefix (`"0x1e"` is 30) or the word `Infinity` is NaN in the model. JavaScript reads those as numbers.
- OrderNumberOrId: `id.slice(0, 8)` counts UTF-16 code units, while the model counts characters. The two differ for ids with characters outside the Basic Multilingual Plane.
- Calendar arithmetic (`toDateString`, `setDate(-7)`, `setMonth(-1)`, `setHours(0)`) is a set of parameters. "Today" on the dashboard is the half-open window [dayStart, nextDayStart), matching the date-string equality of the code.
- The status route's `location` body field is unused by the code. The tracking page's `driverName`/`driverPhone` fields are copies of absent fields. Neither is modelled.
- The page's accept and status mutations write to a different order endpoint (`/api/orders/:id`), whose handler is not part of this model. The page sends `preparing` on accept, while the driver route writes `ready`.
- The accept and status routes never write `acceptedAt`/`deliveredAt`, which the average delivery time reads. The model follows the code, so the average is 0 unless another writer sets both stamps.
- The hard-coded rating 4.8 and delivery time 28 are constants. The random distance and the placeholder restaurant name, phone and address the page attaches to each order are left out.
- `Categorize` is modelled only for a signed-in driver `me`. The case without a current driver is not modelled.
- Prototype keys of the label tables (`"constructor"` and the like) are ordinary unknown statuses in the model.
- Sorting.SortBy: its stability (equal keys keep their input order) is not proved. The contracts state sortedness and permutation only.
- A JSON parse failure of an order's items is modelled as the empty item list. The history page shows `ready` and `picked_up` orders only under "all".
- Non-string setting values are not modelled; a setting value is a string, and the empty string stands for a falsy value.
- `client/src/lib/supabase.ts` and `client/src/components/DriverCommunication.tsx` are not part of this model.
- ClientRateMatchesServer: assumes the page receives the `/stats` answer of the signed-in driver. The page's requests (`client/src/pages/DriverDashboard.tsx:220-225`) pass no `driverId` query parameter, which the modelled `/stats` handler requires (`server/routes/driver.ts:283-287`); how the id reaches the server is not part of this model.
