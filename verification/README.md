# Nuit d'Or booking backend — verified model

A Dafny model of the booking core of the "Nuit d'Or" lodging site. It covers:

- the price of a stay: the nightly rate by weekday, option surcharges, 15 % off from two nights on, whole cents, a one-euro minimum;
- the in-memory booking store (`server/db-vercel.js`), modelled as a class;
- the Redis-backed lists of blocked dates and cancelled bookings (`server/blocked-dates-store.js`), also a class;
- the decisions of the HTTP routes in `server.js`: the admin gate, the unavailable days, the admin edits, creating a reservation, confirming a paid session and the payment webhook;
- the booking page's own copy of the price rules, its recap, and its submit checks (`public/js/reservation.js`).

Calendar days are integer day numbers: day 0 is 1970-01-01, a Thursday. `Calendar.Weekday` is `getDay()`. `Calendar.DayKey` is `toISOString().slice(0, 10)` of a day's midnight. The server computes in UTC.

A date field is a `DateText`: the text received and the day it parses to, or `None` for an Invalid Date. Parsing the text itself is not modelled.

Modules:

- `Wrappers`: Option and Result.
- `Calendar`: weekdays, day keys and the YYYY-MM-DD pattern.
- `StringLists`: the default string sort, de-duplication, `indexOf` and `splice`.
- `Pricing`: the server's calculator.
- `MemoryDb`: the class `Store`.
- `RedisLists`: the class `ListStore`.
- `Server`: the routes.
- `ReservationClient`: the page script.

## Model

| member | source | states |
|---|---|---|
| `Calendar.Weekday` | server.js:24 | `getDay()` of a day is in 0..6 |
| `Calendar.WeekdayNext` | server.js:42 | the day after has the next weekday, Saturday wrapping to Sunday |
| `Calendar.WeekdayPeriodic` | server.js:24 | a day and the same day a week later share their weekday |
| `Calendar.Take10` | server/db-vercel.js:67 | `slice(0, 10)` keeps the first ten characters, or the whole text when shorter |
| `Calendar.Take10Idempotent` | server.js:225 | normalizing a date a second time, as the stores do after the route, changes nothing |
| `Calendar.DayKey` | server/db-vercel.js:25 | the key of a day has ten characters |
| `Calendar.DayKeyIsDateFormat` | server/db-vercel.js:25 | for years 0..9999 the key of a day matches /^\d{4}-\d{2}-\d{2}$/ |
| `Calendar.SampleDayKeys` | server/db-vercel.js:25 | day 19790 is "2024-03-08", a Friday; day 19875 is "2024-06-01" |
| `Calendar.SampleDayKeysAround` | server/db-vercel.js:25 | the days on either side of that Friday are "2024-03-07" and "2024-03-09" |
| `StringLists.LexLeTotal` | server/db-vercel.js:63 | the default string comparison orders any two strings |
| `StringLists.LexLeTransitive` | server/db-vercel.js:63 | the default string comparison is transitive |
| `StringLists.Sort` | server/db-vercel.js:63 | `sort()` gives a sorted permutation of the list |
| `StringLists.SortedUnique` | server/blocked-dates-store.js:76 | two sorted lists with the same elements are equal, so the result of `sort()` does not depend on the algorithm |
| `StringLists.SortAppend` | server/blocked-dates-store.js:75-76 | pushing onto a sorted list and sorting inserts the element in place |
| `StringLists.Dedup` | server.js:162 | `[...new Set(list)]` has no duplicates and the same elements as the list |
| `StringLists.LexLeAntisymmetric` | server/db-vercel.js:63 | two strings each ordered before the other are equal |
| `StringLists.SortOfSorted` | server/blocked-dates-store.js:76 | sorting a sorted list leaves it unchanged |
| `StringLists.DedupOfDistinct` | server.js:162 | a list without duplicates is unchanged by `[...new Set(list)]` |
| `StringLists.IndexOf` | server/db-vercel.js:76 | `indexOf` is -1 iff the element is absent, else the index of its first occurrence |
| `StringLists.RemoveAt` | server/db-vercel.js:78 | `splice(i, 1)` drops index i and shifts the rest down |
| `StringLists.RemoveFirstOccurrence` | server/db-vercel.js:76-78 | in a list without duplicates, splicing out the first occurrence removes that element and only it |
| `StringLists.MultisetRemoveAt` | server/blocked-dates-store.js:94 | splicing removes one copy of the element at that index |
| `StringLists.RemoveAtSorted` | server/blocked-dates-store.js:94 | splicing keeps a sorted list sorted |
| `StringLists.InsertThenRemove` | server/blocked-dates-store.js:75-94 | inserting a new element into a sorted list, then splicing out its first occurrence, gives the list back |
| `Pricing.NightPrice` | server.js:23-27 | a night costs 205 iff it is a Friday or Saturday, else 155 |
| `Pricing.ComputeBaseAmountEuros` | server.js:29-45 | the day-by-day walk returns the number of days in [arrivee, depart) and the sum of their prices; an unparsable date gives 0 nights and 0 euros |
| `Pricing.BaseBounds` | server.js:39-43 | 155 × nights ≤ base ≤ 205 × nights |
| `Pricing.BaseSplit` | server.js:39-43 | a stay split at an inner day costs the sum of its two parts |
| `Pricing.BaseWeekShift` | server.js:23-27 | moving a stay by a week keeps its price |
| `Pricing.FullWeek` | server.js:23-27 | any seven consecutive nights cost 5 × 155 + 2 × 205 |
| `Pricing.SampleWeekend` | server.js:23-44 | Friday 2024-03-08 to Sunday 2024-03-10 is 2 nights at 410 euros |
| `Pricing.OptionPrice` | server.js:49 | a key of the table adds its price, which is positive; any other key adds 0 |
| `Pricing.OptionsSum` | server.js:49 | the option sum is at most 80 per key |
| `Pricing.ComputeOptionsEuros` | server.js:47-50 | a non-array gives 0; an array gives the sum of its keys' prices |
| `Pricing.OptionsSumConcat` | server.js:49 | the option sum of two lists joined is the sum of their sums |
| `Pricing.OptionsSumPermutation` | server.js:47-50 | the option sum does not depend on key order |
| `Pricing.OptionsSumInsert` | server.js:49 | every occurrence of a key adds its price, duplicates included; an unknown key anywhere adds 0 |
| `Pricing.MathRound` | server.js:270 | `Math.round` gives the integer nearest its argument, halves rounded up |
| `Pricing.AmountCents` | server.js:266-270 | the amount in cents is (base + options) × 85 from two nights, else (base + options) × 100: the rounding never changes it |
| `Pricing.OptionKeys` | server.js:263 | `options` counts as its keys when it is an array, otherwise as no keys |
| `Pricing.QuoteOf` | server.js:264-270 | a date that does not parse gives no nights, no nights cost nothing, the options are the sum of the keys' prices, and the amount is the discounted total in cents |
| `Pricing.PriceReservation` | server.js:258-274 | missing date_arrivee, date_depart, nom or email → rejected before pricing; otherwise rejected iff the amount is under 100 cents; an accepted quote is at least 100 cents |
| `Pricing.AcceptedCharge` | server.js:264-270 | an accepted request is charged its nights walked day by day and its options, with the 15 % discount from two nights |
| `Pricing.ZeroNightsWithOptionAccepted` | server.js:259-274 | a stay of no nights with one option is accepted at 3000 cents: the check looks at the amount only |
| `Pricing.PrototypeKeyPassesCheck` | server.js:47-50 | as written, the key "constructor" turns the option sum into a string and the amount into NaN, which the `< 100` check lets through |
| `Pricing.LookupAsWritten` | server.js:49 | `OPTION_PRICES[key] \|\| 0` reads an inherited member exactly for a prototype member name that is not an option; otherwise it reads the own-property price |
| `Pricing.OptionsSumAsWritten` | server.js:47-50 | as written, the sum becomes a string exactly when some key reads an inherited member |
| `Pricing.AmountCentsAsWritten` | server.js:266-272 | as written, the amount is NaN exactly when the option sum is a string; otherwise it is the discounted total in cents |
| `Pricing.AsWrittenAgreesWithoutPrototypeKeys` | server.js:49 | without inherited member names among the keys, the lookup as written equals the model's own-property lookup |
| `Pricing.PrototypeKeyPricedZero` | server.js:49 | with an own-property lookup an inherited member name adds 0, and a one-night stay with it is charged its night |
| `MemoryDb.NewBooking` | server/db-vercel.js:33-46 | a new booking is pending with no session, `pack` defaults to 'aucun', and empty phone and message become null |
| `MemoryDb.OrNull` | server/db-vercel.js:40-41 | `value \|\| null`: null iff the text is empty, else the text |
| `MemoryDb.IndexOfId` | server/db-vercel.js:100 | `findIndex` by id: none iff no booking has the id, else the first match |
| `MemoryDb.IndexOfIdSameIds` | server/db-vercel.js:51 | the lookup by id depends on the ids alone |
| `MemoryDb.IndexOfIdAppend` | server/db-vercel.js:32-33 | a new id appended at the end is found there |
| `MemoryDb.BookingKeysMembers` | server/db-vercel.js:21-26 | a key belongs to a booking's nights iff it is the key of a day in [arrivee, depart) of a pending or paid booking |
| `MemoryDb.BookedKeysMembers` | server/db-vercel.js:18-29 | a key is booked iff some pending or paid booking occupies a night with that key |
| `MemoryDb.SortNewestFirst` | server/db-vercel.js:96 | the sort by `created_at` orders newest first and keeps every summary, ties included |
| `MemoryDb.Summaries` | server/db-vercel.js:84-95 | the listing maps each booking to its summary, which has no message or session |
| `MemoryDb.AddNights` | server/db-vercel.js:24-26 | the inner loop adds each night's key once, keeps what was listed, and creates no duplicates |
| `MemoryDb.Store.constructor` | server/db-vercel.js:6-8 | the store starts empty with next id 1 |
| `MemoryDb.Store.GetBookedDates` | server/db-vercel.js:18-29 | the result has no duplicates and holds exactly the booked keys |
| `MemoryDb.Store.CreateBooking` | server/db-vercel.js:31-48 | returns the old next id, increments it, appends the new booking, keeps ids unique and increasing, and the id then finds that booking |
| `MemoryDb.Store.SetBookingPaid` | server/db-vercel.js:50-56 | the booking with that id becomes paid with the session and nothing else changes; an unknown id changes nothing |
| `MemoryDb.Store.GetBookingById` | server/db-vercel.js:58-60 | returns a stored booking with that id, or null iff none has it |
| `MemoryDb.Store.GetBlockedDates` | server/db-vercel.js:62-64 | a sorted copy with the same elements; the store is not touched |
| `MemoryDb.Store.AddBlockedDate` | server/db-vercel.js:66-72 | true iff the first ten characters are YYYY-MM-DD and not yet blocked; only then appended; the list stays duplicate-free and well formed |
| `MemoryDb.Store.RemoveBlockedDate` | server/db-vercel.js:74-80 | true iff the first ten characters are blocked; then their first occurrence is spliced out; no format check |
| `MemoryDb.Store.GetAllBookings` | server/db-vercel.js:82-97 | every booking's summary, newest first |
| `MemoryDb.Store.DeleteBooking` | server/db-vercel.js:99-104 | true iff some booking has the id; then exactly it is removed, the rest keep their order, and the next id is untouched |
| `RedisLists.JsString` | server/blocked-dates-store.js:50 | `String(x)` of a text is the text; only the empty text gives "" |
| `RedisLists.Strings` | server/blocked-dates-store.js:50 | every element is turned into its string, in order |
| `RedisLists.StringsOfTexts` | server/blocked-dates-store.js:113 | a list of strings written as JSON reads back unchanged |
| `RedisLists.OrElse` | server/blocked-dates-store.js:14-15 | `a \|\| b` on texts: empty iff both are, and `a` whenever `a` is not empty |
| `RedisLists.ListStore.constructor` | server/blocked-dates-store.js:12-22 | the environment read at start-up and the stored values are given |
| `RedisLists.ListStore.UseRedis` | server/blocked-dates-store.js:123-125 | a client is in use iff a URL (Upstash's or KV's) and a token (Upstash's or KV's) were both set at start-up |
| `RedisLists.ListStore.GetBlockedDates` | server/blocked-dates-store.js:24-44 | [] without a client or when the stored value is not a list, else the stored list |
| `RedisLists.ListStore.GetCancelledBookings` | server/blocked-dates-store.js:46-66 | [] without a client or a list, else every element as a string |
| `RedisLists.ListStore.AddBlockedDate` | server/blocked-dates-store.js:68-85 | true iff the key is well formed, a client exists and the key is not listed; then the stored list is sorted and has the key added once; otherwise unchanged |
| `RedisLists.ListStore.RemoveBlockedDate` | server/blocked-dates-store.js:87-103 | true iff a client exists and the key is listed; then its first occurrence is spliced out and a sorted list stays sorted; otherwise unchanged |
| `RedisLists.ListStore.AddCancelledBooking` | server/blocked-dates-store.js:105-121 | true iff `String(id)` is non-empty, a client exists and the id is not listed; then it is appended at the end, unsorted, with no duplicate |
| `RedisLists.BlockThenUnblock` | server/blocked-dates-store.js:68-103 | blocking a new date into a sorted list and then unblocking it restores the list |
| `Server.RequireAdmin` | server.js:173-182 | 503 iff no password is configured; 401 iff the first token given differs from it; passes otherwise |
| `Server.SuppliedToken` | server.js:177 | the header password if given, else the body's if given, else the query's |
| `Server.AdminPassNeedsPassword` | server.js:173-182 | passing needs a configured password given in the header, the body or the query |
| `Server.WrongHeaderWins` | server.js:177 | a wrong header password is refused even when the body holds the right one |
| `Server.BlockedSource` | server.js:158-161 | the blocked dates come from Redis when a client is configured, else from the memory store |
| `Server.BookedDates` | server.js:155-168 | the answer has no duplicates and holds exactly the booked nights and the blocked dates |
| `Server.AddBlockedDate` | server.js:220-236 | after the gate: 400 iff the date is malformed, 409 iff already blocked, 200 iff newly blocked. On 200 the store in use gains exactly that key: Redis writes the sorted list with it, the memory store appends it. The store not in use is never touched |
| `Server.RemoveBlockedDate` | server.js:238-254 | after the gate: 400 iff the date is malformed, 404 iff not blocked, 200 iff blocked. On 200 the store in use splices out the first occurrence and keeps the order of the rest. The store not in use is never touched |
| `Server.AsBookingId` | server.js:195 | a number equals a booking id iff it is finite and integral; NaN and the infinities name none |
| `Server.DeleteBooking` | server.js:194-205 | after the gate: 400 iff the id is falsy (NaN or 0), 404 iff no booking has it, 200 iff that booking is removed and the rest keep their order |
| `Server.JoinComma` | server.js:280 | `join(',')`: empty for no keys, the key itself for one, a comma-separated text for more |
| `Server.SplitComma` | server.js:280 | `split(',')`, the inverse of the `join(',')` that builds `pack`: at least one piece, and a text without a comma is that text alone; `Server.SplitJoinComma` completes the round trip |
| `Server.SplitJoinComma` | server.js:280 | the stored pack splits on ',' back into the option keys, when there is at least one key and none holds a comma |
| `Server.BookingDataOf` | server.js:277-286 | the booking is given the request's dates, name and email and the priced amount; its `pack` is "" for no keys and otherwise splits back into the keys when none holds a comma |
| `Server.CreateReservation` | server.js:257-333 | rejected iff the pricing rejects, with no booking; otherwise exactly one pending booking is appended at the priced amount, before the payment provider is asked |
| `Server.AcceptedNightsHeld` | server.js:276-294 | once a request is accepted its nights are unavailable, whatever the payment provider answers |
| `Server.ForClient` | server.js:57-66 | the booking shown to the page carries the stored name, arrival and departure texts, pack and amount |
| `Server.FromMetadata` | server.js:130-139 | the fallback amount is the metadata's unless it is falsy (NaN or 0), then the session total |
| `Server.StoredBooking` | server.js:129 | the booking found is the first stored one with the metadata's id; none iff the id is not integral or no booking has it |
| `Server.ConfirmSession` | server.js:117-152 | 400 without a session, a provider, a payment or a booking id; 404 iff no booking and no email; an already-paid booking answers already:true and the store is untouched; a pending one becomes paid with this session, and no other booking changes |
| `Server.ConfirmTwice` | server.js:142-147 | the first call answers already:true iff the booking was paid; afterwards the booking is paid, the list is the one the first call left, and only that booking differs from before; the second call answers already:true with the same amount |
| `Server.Webhook` | server.js:81-111 | 500 unconfigured, 400 bad signature, else 200; only a completed checkout naming an integral booking id marks that booking paid |
| `ReservationClient.NightPrice` | public/js/reservation.js:75-82 | a night costs 205 iff Friday or Saturday, else 155 |
| `ReservationClient.NightPriceAgrees` | public/js/reservation.js:75-82 | the page's nightly price is the server's |
| `ReservationClient.OptionTableAgrees` | public/js/reservation.js:108-115 | the page's option table is the server's |
| `ReservationClient.OptionsTotal` | public/js/reservation.js:144-146 | the recap's option total is at most 80 per ticked key |
| `ReservationClient.OptionsTotalAgrees` | public/js/reservation.js:144-146 | the recap's option total equals the server's option sum for every list |
| `ReservationClient.ComputeBaseAmount` | public/js/reservation.js:84-97 | the page's walk gives the server's nights and base price |
| `ReservationClient.UpdateRecap` | public/js/reservation.js:127-150 | hidden iff a day is missing or there is no night; otherwise a 15 % discount is shown iff nights ≥ 2, and the final total × 100 is the server's amount |
| `ReservationClient.DisableDatesForFlatpickr` | public/js/reservation.js:32-35 | [] for a missing or empty list, else an element-wise copy |
| `ReservationClient.Trim` | public/js/reservation.js:216-217 | the result is an infix of the text with no white space at either end, and all that is cut off is white space |
| `ReservationClient.TrimEmpty` | public/js/reservation.js:218 | a trimmed text is empty iff the text is all white space |
| `ReservationClient.TrimIdempotent` | public/js/reservation.js:216 | trimming twice is trimming once |
| `ReservationClient.UtcDayShift` | public/js/reservation.js:213-214 | a local midnight falls on the same UTC day at or west of UTC, and on the day before east of it |
| `ReservationClient.SubmitAsWritten` | public/js/reservation.js:209-221 | as written: asks for the dates iff one is missing, for name and email iff either trims to empty; otherwise sends the UTC day of each local midnight |
| `ReservationClient.Submit` | public/js/reservation.js:209-236 | corrected: the same checks, sending the picked local days |
| `ReservationClient.AsWrittenAgreesWestOfUtc` | public/js/reservation.js:213-214 | at or west of UTC the as-written handler sends what the corrected one sends |
| `ReservationClient.AsWrittenSendsDayBefore` | public/js/reservation.js:213-214 | east of UTC the as-written handler sends each picked day as the day before |
| `ReservationClient.AsWrittenSamplePayload` | public/js/reservation.js:209-221 | in Paris in winter the handler as written sends Fri 2024-03-08 → Sun 2024-03-10 as "2024-03-07" → "2024-03-09" |
| `ReservationClient.TrimSamples` | public/js/reservation.js:216-217 | "n" and "e" trim to themselves and "" to "" |
| `ReservationClient.ThursdayAndFridayCharged` | server.js:264-270 | the server prices "2024-03-07" → "2024-03-09" with no option at two nights, 360 euros, 30600 cents |
| `ReservationClient.AsWrittenChargesOtherNights` | public/js/reservation.js:213-214 | in Paris in winter, Fri 2024-03-08 → Sun 2024-03-10 is recapped at 34850 cents, while the handler as written sends Thu → Sat and the server charges 30600 |
| `ReservationClient.ChargeMatchesRecap` | public/js/reservation.js:148-150 | with the corrected handler the server accepts iff the recap total is at least one euro, and charges the recap total in cents |

## Left out

- Express routing, static files, JSON body parsing and start-up. Status codes are returned, and no response bodies beyond the fields named in the model.
- Stripe. Session creation, retrieval and the webhook signature check are parameters: whether the provider is configured, the created URL or a failure, the retrieved session, and whether the signature is valid. A retrieval of the session that throws, answered with 500 (server.js:148-151), is not modelled: `Server.ConfirmSession` is always given a session. The text of the line item and the metadata strings are not modelled.
- The Redis client. Each key is a field holding what a read returns: nothing, a list, or another value. Upstash's automatic JSON decoding and the fallback `JSON.parse` both yield the list. Network and Redis errors, which the source turns into `[]` or `false`, are not modelled. Asynchrony and concurrent requests are not modelled either: each operation is atomic here. An environment variable that is unset reads as "" in `RedisLists.RedisEnv`; a failure to load the Redis package, which also leaves no client, is not modelled.
- Elements of the blocked-date list that are not strings are not modelled; the store itself only writes strings.
- `RedisLists.JsString` renders integers only; a non-integral number is not modelled.
- The routes in `Server` run against `server/db-vercel.js`, which `server/db.js` selects only when `VERCEL` is set. Otherwise `server/db.js` uses SQLite, which is not part of this model; its blocked-date, delete and confirmation behaviour may differ.
- `server/db.js` (the SQLite store) is not part of this model. Its `getBookedDates` counts only paid bookings, unlike `server/db-vercel.js`, which counts pending ones too.
- `server/mail.js` (sending mail) is not part of this model, and neither is the booking record the webhook rebuilds for it.
- The `Date` parse of a text (`DateText.day` is given), time of day, and daylight-saving changes. Both the server and the page are taken to step one calendar day at a time.
- Floating point. Amounts are exact reals, and `Math.round` is floor(x + 0.5). The recap's `toFixed(2)` text and its French formatting are not modelled.
- The DOM, flatpickr, the XHR calls and `alert`. The picked days, the ticked option keys and the form's field values are parameters.
- `created_at` is the clock's value, given as an integer, and `getAllBookings` compares these integers.
- `MemoryDb.SortNewestFirst`: `Array.prototype.sort` is stable, so bookings with the same `created_at` keep their stored order. The model's insertion places each booking ahead of the later ones with the same `created_at` and so keeps that order too, but the contract states only the ordering and the contents, not how ties are ordered.
- `MemoryDb.Store.GetBookedDates`: the first-met order of the keys is not stated, only that there are no duplicates and which keys are present.
- `Server.BookedDates`: the order of the answer is not stated, only that there are no duplicates and which keys are present.
- `Server.CreateReservation`: a request whose `options` is not an array is stored with no pack keys, as the source does. Fields that are not strings in the JSON body are not modelled.
- Strings are sequences of code points, while JavaScript compares and slices UTF-16 code units. The two agree on the ASCII dates and keys used here.

## Findings

| source | as written | input that shows it | evidently intended | confidence | as-written member | corrected member |
|---|---|---|---|---|---|---|
| server.js:47-50 | `OPTION_PRICES[key] \|\| 0` also reads members inherited from `Object.prototype` | options `["constructor"]`: the sum becomes a string, the amount NaN, `NaN < 100` is false, and a pending booking is created that holds the nights | keys the table does not define add 0 | high (not executed) | `Pricing.PrototypeKeyPassesCheck` | `Pricing.PrototypeKeyPricedZero` |
| public/js/reservation.js:213-214 | each picked day is sent as `toISOString().slice(0, 10)` of its local midnight, which is the UTC day | zone UTC+1, Fri 2024-03-08 → Sun 2024-03-10: the recap shows 348.50 €, the server receives 2024-03-07 → 2024-03-09, books Thursday and Friday, and charges 306 € | the server receives the local days picked, and charges the recap total | high (not executed) | `ReservationClient.AsWrittenChargesOtherNights` | `ReservationClient.ChargeMatchesRecap` |
