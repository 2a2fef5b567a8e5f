# EV charging station finder: route handlers and station filter in Dafny

This project models the server-side core of an EV charging station finder
and the list filter of its web client:

- **Bookings** (`bookings.dfy`). This is the booking table behind `/api/bookings`.
  - Create checks the required fields, checks that the station is active, and counts the station's active bookings (status `booked` or `in_progress`) against its `total_slots`. It then adds one `booked` row with the next slot number, a duration estimate, an arrival window, a token and two four-digit codes.
  - Cancel refuses a cancelled or completed booking.
  - Start compares the supplied code with `parseInt` and does not look at the prior status.
  - Availability reports `total_slots` minus the active count.
  - The per-user listing is ordered newest first.
- **Vehicles** (`vehicles.dfy`). This is the vehicle registry behind `/api/vehicles`. It has a listing ordered primary first and then newest first, a create that fills in defaults, and set-primary. Each user keeps at most one primary vehicle.
- **Stations** (`stations.dfy`). These are the derived station metrics:
  - a utilization that defaults to 0.3;
  - the waiting-time buckets and availability tiers;
  - the hour-of-day recommendation;
  - `Math.round` of the utilization percentage;
  - the two station handlers.
- **StationFilter** (`station_filter.dfy`). This is the client's `applyFilters`. It filters by tier, by power class and by an inclusive price range, then sorts a local copy in place by one of four keys. `getStatsForStatus` is modelled too.
- **AuthMiddleware** and **AuthRoute** (`auth_middleware.dfy`, `auth_route.dfy`). The middleware resolves a header to a user. The Google sign-in route upserts a user by email.
- Shared modules:
  - `Users` (`users.dfy`): the user table.
  - `Js` (`js.dfy`): the JavaScript built-ins whose behaviour the handlers depend on. These are truthiness, `parseInt`, number rendering, `Math.round` and ASCII `toLowerCase`.
  - `Ordering` (`ordering.dfy`): sorted insertion, used for the database's `orderBy`.
  - `Wrappers` and `Http` (`common.dfy`): `Option` and `Response = Ok | Err(status, message)`, with the three status codes the handlers use. Each handler's exact messages are constants in its own module.

The three tables the handlers write (bookings, vehicles, users) are classes
holding a `map` and the next id. The booking and vehicle handlers are methods
on their table. The Google sign-in handler and the middleware are module-level
methods that take the user table or the request object they change. The
station table is only read, so it is an input map, and the read-only handlers
(station listing and lookup, booking availability) are functions. Each handler
runs as one atomic step. The clock and the random draws are parameters. The
pure parts are functions, with lemmas relating them.

Some behaviours of the code are not what its comments and names suggest. The model follows the code:

- Start does not require the booking to be `booked`. A cancelled or completed booking can be started again, and at a full station that puts the station over its slots (`Bookings.StartCanOverfill`).
- The start code is compared through `parseInt`, not as an exact integer. "1234abc" starts a booking whose code is 1234 (`Bookings.CodeWithTrailingTextStarts`).
- A user's first vehicle does not automatically become primary.
- There are no vehicle update or delete handlers.
- The bookings router is not mounted in `apps/api/src/server.ts:28-30`. The handlers are modelled as written.

## Model

| member | source | states |
|---|---|---|
| Bookings.PredictedDuration | apps/api/src/routes/bookings.ts:88-90 | The duration is at least 60 minutes and is either 60 or 2·(target − current). It equals 2·(target − current) whenever the difference is at least 30, and is 60 when it is at most 30. |
| Bookings.SlotStart | apps/api/src/routes/bookings.ts:99-101 | The slot start is the supplied time when that is truthy, otherwise now + 30 minutes. |
| Bookings.ArrivalWindow | apps/api/src/routes/bookings.ts:103-105 | The window contains the slot start, starts 30 minutes before it and is 45 minutes long. |
| Bookings.Token | apps/api/src/routes/bookings.ts:92-93 | The token starts with "TK". |
| Bookings.NewBooking | apps/api/src/routes/bookings.ts:107-124 | The new row copies the request's user, station, model and battery levels. Its status is `booked` and its start code is unused. Its slot number is active + 1. Its duration is `PredictedDuration` of the battery levels (at least 60), its slot start is `SlotStart` of the supplied time and the clock, its window is `ArrivalWindow` of that slot start (so it contains it), and its token is `Token` of the clock and the drawn suffix. It keeps the drawn codes and the clock. |
| Bookings.InstructionsFor | apps/api/src/routes/bookings.ts:137-143 | The instructions echo the token, the codes and the window, and render the duration as "<n> minutes". |
| Bookings.StationAvailability | apps/api/src/routes/bookings.ts:275-293 | A missing station gives 404 "Station not found", and only then. Every stored station is answered `Ok`: the active count is the count of booked or in-progress rows at the station, and available = total − active. |
| Bookings.BookingTable.Create | apps/api/src/routes/bookings.ts:53-129 | A falsy field (a battery level of 0 included) gives 400 "Missing required fields". A missing or inactive station gives 404. A full station gives 400 "No available slots at this station". Every error leaves the table unchanged. A request with every field present, at an open station with a free slot, succeeds. On success exactly one `NewBooking` row is added, with 1 ≤ slot ≤ total_slots, and the station's active count rises by exactly one. |
| Bookings.BookingTable.Cancel | apps/api/src/routes/bookings.ts:161-188 | A missing booking gives 404. A cancelled or completed booking gives 400 "Booking already <status>" and nothing changes. An existing booked or in-progress booking is cancelled successfully, and only its status changes, to cancelled. |
| Bookings.BookingTable.Start | apps/api/src/routes/bookings.ts:212-230 | The call fails with 400 exactly when the booking is missing or `parseInt` of the code differs from its start code, and then nothing changes. When the booking exists and the code matches, the call succeeds and the row becomes in_progress with its code used, whatever its status was. |
| Bookings.BookingTable.ForUser | apps/api/src/routes/bookings.ts:14-20 | The listing holds exactly the user's bookings, each once, newest first. |
| Bookings.CollectForUser | apps/api/src/routes/bookings.ts:14-20 | The `findMany` with `orderBy booking_time desc`: sorted, only the user's rows, every one of them, as many as the user has. |
| Bookings.InsertNewerFirst | apps/api/src/routes/bookings.ts:19 | Insertion keeps the listing newest first and adds exactly the one row. |
| Bookings.ActiveCountInsert | apps/api/src/routes/bookings.ts:74-79 | Adding a row raises the active count of its own station by one if the row is active, and changes no other station's count. |
| Bookings.ActiveCountSetStatus | apps/api/src/routes/bookings.ts:180-188 | Changing one row's status moves only its station's active count: down by one if it was active, up by one if it becomes active. |
| Bookings.CreateKeepsCapacity | apps/api/src/routes/bookings.ts:74-86 | A create that passes the slot check keeps every station within its slots. |
| Bookings.CancelKeepsCapacity | apps/api/src/routes/bookings.ts:180-188 | A cancel keeps every station within its slots. |
| Bookings.StartCanOverfill | apps/api/src/routes/bookings.ts:212-230 | Starting a cancelled or completed booking at a full station leaves that station over capacity. |
| Bookings.StartOnActiveKeepsCount | apps/api/src/routes/bookings.ts:224-230 | Starting an already active booking leaves every active count unchanged. |
| Bookings.AvailabilityNonNegative | apps/api/src/routes/bookings.ts:286-293 | While every station is within its slots, availability is never negative. |
| Bookings.AvailabilityAfterCreate | apps/api/src/routes/bookings.ts:286-293 | A new `booked` row takes exactly one of the slots availability reports as free. |
| Bookings.CreateRefusesExactlyWhenFull | apps/api/src/routes/bookings.ts:81-86 | Create's capacity refusal happens exactly when availability reports no free slot. |
| Bookings.IssuedCodeStarts | apps/api/src/routes/bookings.ts:217 | The code as issued, in decimal, passes the start check. |
| Bookings.CodeWithTrailingTextStarts | apps/api/src/routes/bookings.ts:217 | The issued code followed by text that does not begin with a digit also passes. |
| Bookings.CodeWithoutDigitsRefused | apps/api/src/routes/bookings.ts:217 | A code without a decimal digit never passes. |
| Bookings.CancelTwice | apps/api/src/routes/bookings.ts:173-178 | Cancelling an active booking succeeds, and after a successful cancel, cancelling the same booking again gives 400 "Booking already cancelled". |
| Vehicles.ClearPrimary | apps/api/src/routes/vehicle.ts:124-131 | The `updateMany` leaves the user with no primary vehicle. It keeps every row and changes only the flag, and only on the user's rows. |
| Vehicles.SetPrimaryRows | apps/api/src/routes/vehicle.ts:223-238 | Clear then set: the target becomes the user's only primary, only flags change, and other users' rows are untouched. |
| Vehicles.SetPrimaryIdempotent | apps/api/src/routes/vehicle.ts:223-238 | Repeating set-primary on the same vehicle yields the same table. |
| Vehicles.SetPrimaryKeepsSinglePrimary | apps/api/src/routes/vehicle.ts:223-238 | Set-primary keeps every user at no more than one primary vehicle. |
| Vehicles.CreateKeepsSinglePrimary | apps/api/src/routes/vehicle.ts:123-149 | Create, with or without `is_primary`, keeps every user at no more than one primary vehicle. |
| Vehicles.NewVehicle | apps/api/src/routes/vehicle.ts:134-148 | The new row has the defaults 0.90, 50, 400 and "standard" for falsy optional values. An empty color or plate is stored as null. The row's primary flag is the request's. |
| Vehicles.ListedBeforeIsTotalPreorder | apps/api/src/routes/vehicle.ts:49-52 | Primary first, then newest first, is a total preorder. |
| Vehicles.InsertListed | apps/api/src/routes/vehicle.ts:49-52 | Insertion keeps the listing order and adds exactly the one row. |
| Vehicles.CollectOwned | apps/api/src/routes/vehicle.ts:47-53 | The `findMany` with its `orderBy`: sorted, only the caller's rows, every one of them, as many as the caller has. |
| Vehicles.VehicleTable.List | apps/api/src/routes/vehicle.ts:37-53 | No caller gives 401. Otherwise the result is exactly the caller's vehicles, each once, primary first and then newest first. |
| Vehicles.VehicleTable.Create | apps/api/src/routes/vehicle.ts:90-149 | No caller gives 401 and missing make, model, year or capacity gives 400, both with no change. An authenticated caller with all four fields succeeds: the flags are cleared when `is_primary` is set, and then `NewVehicle` is added. The new vehicle is then the only primary, or the old primaries stay. Other users' rows are unchanged, and the single-primary invariant is kept. |
| Vehicles.VehicleTable.SetPrimary | apps/api/src/routes/vehicle.ts:187-238 | No caller gives 401. An id `parseInt` cannot read gives 400. A vehicle the caller does not own gives 404. All of these leave the table unchanged. An owned vehicle with a readable id succeeds: the table is `SetPrimaryRows`, and the answer is the row with its flag set. |
| Stations.Utilization | apps/api/src/routes/stations.ts:58-60 | The logged utilization when there is one, else 0.3. |
| Stations.EstimatedWait | apps/api/src/routes/stations.ts:184-189 | Each bucket is returned if and only if the utilization lies in its interval: below 0.3, [0.3, 0.6), [0.6, 0.8) or at least 0.8. |
| Stations.EstimatedWaitMonotone | apps/api/src/routes/stations.ts:184-189 | A higher utilization never gives a shorter bucket. |
| Stations.AvailabilityStatus | apps/api/src/routes/stations.ts:191-195 | "Available", "Moderate" or "Busy" if and only if the utilization is below 0.5, in [0.5, 0.8), or at least 0.8. |
| Stations.AvailabilityStatusIsLabel | apps/api/src/routes/stations.ts:191 | The tier is always one of the three labels. |
| Stations.Recommendation | apps/api/src/routes/stations.ts:197-209 | Hours 18–21 give the peak message. Other hours ≥ 22 or ≤ 6 give the off-peak message. Hours 7–17 give the efficiency message with `Math.round(efficiency·100)`. |
| Stations.Describe | apps/api/src/routes/stations.ts:62-81 | The base fields are copied unchanged. `current_utilization` = round(u·100), and the bucket, tier and recommendation are those of u and the hour. |
| Stations.ListStations | apps/api/src/routes/stations.ts:56-82 | Exactly one description per station, in the stored order. |
| Stations.GetStation | apps/api/src/routes/stations.ts:102-164 | An id `parseInt` cannot read gives 400. An unknown id gives 404. The call succeeds exactly when `parseInt` reads an id of a stored station (" 7" and "7abc" included), and the answer is that station's description. |
| Stations.DefaultDescription | apps/api/src/routes/stations.ts:141-143 | With no log row a station shows 30, "Available" and "5-10 mins", since 0.3 is not below 0.3. |
| Stations.GetStationById | apps/api/src/routes/stations.ts:105-116 | A stored station is found by the decimal form of its id. |
| StationFilter.PowerClass | apps/web/src/app/stations/StationFilter.tsx:41-47 | Slow ≤ 25 < fast ≤ 75 < rapid: every power falls in exactly one class. |
| StationFilter.PowerOkIsClass | apps/web/src/app/stations/StationFilter.tsx:41-47 | A power filter keeps a station if and only if the filter is 'all' or names the station's class. |
| StationFilter.Select | apps/web/src/app/stations/StationFilter.tsx:51-53 | `.filter` keeps each element that satisfies the test, as often as it occurred, and drops every other. |
| StationFilter.FilteredKeepsPassing | apps/web/src/app/stations/StationFilter.tsx:31-53 | A station is kept if and only if it passes all three tests, as often as it was given. The result is a sub-multiset of the input. |
| StationFilter.StatusFilterMatchesTier | apps/web/src/app/stations/StationFilter.tsx:34-38 | For the three directory labels, the lower-cased comparison keeps exactly the stations of the chosen tier. |
| StationFilter.SortInPlace | apps/web/src/app/stations/StationFilter.tsx:56-69 | The in-place sort leaves the array ascending by the key and a permutation of what it held. |
| StationFilter.SortedCopy | apps/web/src/app/stations/StationFilter.tsx:31 | Sorting a fresh copy yields a sorted permutation of the filtered stations. |
| StationFilter.ApplyFilters | apps/web/src/app/stations/StationFilter.tsx:30-72 | The result is a permutation of the filtered stations, sorted by the chosen key. |
| StationFilter.ApplyFiltersResult | apps/web/src/app/stations/StationFilter.tsx:31-53 | The result is a sub-multiset of the input and holds exactly the stations passing all three tests. |
| StationFilter.SortedByMeaning | apps/web/src/app/stations/StationFilter.tsx:56-69 | The sort is ascending by price, descending by power, or ascending by current utilization. |
| StationFilter.StatsForStatus | apps/web/src/app/stations/StationFilter.tsx:74-76 | The count never exceeds the number of stations. |
| StationFilter.StatsForStatusIsFilterLength | apps/web/src/app/stations/StationFilter.tsx:74-76 | The count is the length of the filter on exactly that label. |
| StationFilter.StatsCoverAll | apps/web/src/app/stations/StationFilter.tsx:74-76 | When every label is a directory label, the three counts add up to the number of stations. |
| Users.FindByEmail | apps/api/src/middleware/auth.ts:37-39 | Finds the one row with that email, or reports that no row has it. |
| AuthMiddleware.SelectIdentity | apps/api/src/middleware/auth.ts:24-28 | `authorization` when it is non-empty. Otherwise `x-user-email` when it is non-empty, and nothing else. |
| AuthMiddleware.Authenticate | apps/api/src/middleware/auth.ts:21-60 | No identity gives 401 "Authentication required. Please login.". An unknown email gives 401 "User not found. Please login again.". The call succeeds if and only if the email is stored, and then yields that row's id, email, name, phone and created_at. |
| AuthMiddleware.AuthenticateUser | apps/api/src/middleware/auth.ts:21-60 | On success `req.user` is set and `next` is called exactly once. On refusal the request is unchanged and `next` is not called. |
| AuthRoute.Upsert | apps/api/src/routes/auth.ts:21-49 | An existing email keeps its row except for the name. A new email gets one row with id nextId, password "" and no phone. Other rows are unchanged. |
| AuthRoute.UpsertWellFormed | apps/api/src/routes/auth.ts:21-49 | After the upsert there is still one row per email and the ids are still distinct. |
| AuthRoute.UpsertIdempotent | apps/api/src/routes/auth.ts:21-49 | Repeating the same sign-in changes nothing more. |
| AuthRoute.UpsertSize | apps/api/src/routes/auth.ts:37-48 | The table grows by exactly one row exactly when the email was new. |
| AuthRoute.GoogleSignIn | apps/api/src/routes/auth.ts:8-61 | A missing email or name gives 400 with no change. Otherwise the table is the upsert's, and the answer echoes the stored row. |
| Js.ParseIntOfNumberToString | apps/api/src/routes/vehicle.ts:197 | `parseInt` reads any integer back from its decimal rendering. |
| Js.ParseIntWithoutDigits | apps/api/src/routes/vehicle.ts:197-205 | A value with no decimal digit is NaN, so it takes the 400 path. |
| Js.ParseIntIgnoresTail | apps/api/src/routes/bookings.ts:217 | A positive integer followed by text that does not begin with a digit still reads as that integer. |
| Js.Round | apps/api/src/routes/stations.ts:77 | `Math.round(x)` is the integer r with r ≤ x + 0.5 < r + 1. |
| Js.ToLowerCase | apps/web/src/app/stations/StationFilter.tsx:36 | The length is kept, and each character is lower-cased on its own. |
| Ordering.Insert | apps/api/src/routes/vehicle.ts:49-52 | Inserting into a sorted sequence keeps it sorted. The multiset gains exactly the new element. |

## Left out

- Prisma queries are modelled as single atomic steps on maps. Transactions, failures and every 500 "Failed to …" path are left out. This includes the foreign-key failure when a booking names a user that does not exist.
- Concurrency is not modelled. The count-then-create race in booking and the clear-then-set race in set-primary cannot occur because each handler runs as one step.
- The latest-utilization query is an input. Its date filter (since midnight, or the last 24 hours) and its ordering are not modelled; the model receives the row the query returns, if any.
- Prisma `Decimal` values and JavaScript floats are modelled as `real`.
- Stations.Utilization: keeps any logged value, a logged 0 included. This assumes the utilization column is a Prisma `Decimal`, whose non-null object is truthy. The Prisma schema is not part of this model; if the column were a `Float`, a logged 0 would be falsy and `apps/api/src/routes/stations.ts:58-60` would give 0.3.
- `Date.now()`, `new Date().getHours()` and `Math.random()` are parameters. The two reads of `Date.now()` in a booking create are taken as one instant. `toLocaleTimeString` is not modelled: the instructions carry the two window instants instead of the formatted string.
- Request values are modelled with their parsed types (`int`, `real`, `string`). String-typed numbers in a body, and `parseInt`/`parseFloat` applied to them, are not modelled. For `new Date(slotStartTime)` the slot start is taken as milliseconds.
- The path parameters of the bookings routes are taken as integers. A non-numeric id there gives `NaN` to Prisma, which is not modelled.
- `parseInt` on integers beyond 2^53 loses precision in JavaScript. The model reads exact integers.
- `toLowerCase` is modelled for ASCII letters only, which covers the three station labels.
- Vehicles.VehicleTable.List: the order among rows with equal sort keys is the database's choice, and the model states no order for ties.
- Bookings.BookingTable.ForUser: the order among bookings with equal booking times is the database's choice, and the model states no order for ties.
- StationFilter.ApplyFilters: sort stability is not stated. JavaScript's sort is stable, and the model only states that the result is sorted and is a permutation.
- The `include: { station, user }` parts of the booking responses, the `success`/`message` envelope and logging are not modelled.
- `GET /api/bookings/all` and the vehicle response mapping (`parseFloat` of `Decimal` fields) are not modelled.
- The `is_primary` body value is taken after `Boolean(...)`, as a `bool`.
- `apps/api/src/server.ts`, the React components and the HTTP clients are not part of this model.
