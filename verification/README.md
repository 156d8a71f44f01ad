# WhoAmI day-log accounting, modelled in Dafny

WhoAmI lets a user record how a 24-hour day is spent across roles such as
work, family or sport. Each user has one day log per calendar day. A log holds
fixed sleep and buffer allocations plus an ordered list of tracked segments.
The service reports what is left of the day ("other" minutes) and a
whole-percent summary of the four buckets. It refuses a segment that would push
the day past 1440 minutes.

This project models that core as pure Dafny functions over immutable values:

- `day_model.dfy` (module `DayModel`) holds the records `Segment`, `DayLog` and `Role`.
  Their field bounds are subset types: minutes in [0, 1440], percent in [0, 100].
  It also holds the defaults 480/120, the client errors with their HTTP statuses, and `Result`.
- `budget.dfy` (module `Budget`) is the calculator. It has the tracked sum, the
  remainder `Other`, the over-allocation guard as written, and Python's `round`
  of `mins * 100 / 1440` as exact integer rounding with ties to even.
  It also builds the four-bucket summary.
- `day_store.dfy` (module `DayStore`) holds the day logs in a `map<string, DayLog>`
  keyed by `userId + ":" + day`. It has the read path `GetToday` and the append path `AddSegment`.
- `role_registry.dfy` (module `RoleRegistry`) is the registry as a `seq<Role>`.
  It has `AddRole`, `DeleteRole` and the five seeded roles.

The module-level role list and the JSON-file day store become explicit values
that are passed in and returned. The calendar day is a parameter instead of a
clock read. An `HTTPException` becomes an `Err` carrying an `ApiError`.

Two behaviours follow the code where a looser reading is possible:

- Percent rounding. `pct` calls Python's `round`, which rounds half to even
  (37.5 becomes 38, 2.5 becomes 2), not half away from zero. `Budget.Pct` does the same.
- Saving. There is no separate save keyed by a log's own fields. The code
  writes only inside `add_segment`, under the key built from the request's
  `userId` and the day, and the model does the same.

## Model

| member | source | states |
|---|---|---|
| DayModel.ParseSegment | backend/app/main.py:24-27 | a segment is accepted exactly when its minutes lie in [0, 1440], keeping role id, minutes and note; otherwise a 422 error |
| DayModel.DefaultLog | backend/app/main.py:30-35 | a log created for a (user, day) has that user and day, sleep 480, buffer 120 and no segments |
| DayModel.ParseRole | backend/app/main.py:37-40 | a role is accepted exactly when its percent lies in [0, 100], keeping id and name; otherwise a 422 error |
| Budget.Tracked | backend/app/main.py:58 | the tracked total is at least every single segment's minutes and at most 1440 per segment |
| Budget.TrackedAppend | backend/app/main.py:161-165 | appending a segment raises the tracked total by exactly that segment's minutes |
| Budget.Other | backend/app/main.py:56-59 | the remainder is never negative and at most 1440; when the log fits in the day it completes the used minutes to exactly 1440, otherwise it is 0; it is 0 exactly when the log uses at least 1440 minutes |
| Budget.GuardIsOverflow | backend/app/main.py:164-167 | the guard as written (`OverAllocated`: remainder is 0 and used exceeds 1440) fires exactly when the log exceeds the day |
| Budget.Pct | backend/app/main.py:137-138 | the percentage is the whole number nearest to mins * 100 / 1440, ties going to the even one, and at most 100 for a duration within one day |
| Budget.PctUnique | backend/app/main.py:137-138 | any whole number that is nearest with ties to even is the percentage, so the rounding is fully determined |
| Budget.PctMonotone | backend/app/main.py:137-138 | more minutes never give a smaller percentage |
| Budget.SummaryOf | backend/app/main.py:140-148 | each of sleep, buffer, tracked and other is the nearest whole percent of its own minutes, exact halves going to the even neighbour (`NearestPercent`, so unique by `PctUnique`); sleep, buffer and other are at most 100, and tracked is too when the segments fit in a day |
| Budget.SummaryBucketsIndependent | backend/app/main.py:143-148 | the sleep and buffer percentages do not depend on the segments |
| Budget.SummaryExample | backend/app/main.py:134-148 | sleep 480, buffer 120 and one 300-minute segment leave 540 minutes and summarise as 33/8/21/38 |
| Budget.SummaryCanExceed100 | backend/app/main.py:143-148 | sleep 10, buffer 10 and one 10-minute segment summarise as 1/1/1/98, a total of 101 |
| DayStore.KeyShape | backend/app/main.py:154 | in a key with a colon-free day the user id is the text before the last colon and the day the text after it |
| DayStore.KeyInjective | backend/app/main.py:154 | two (user, colon-free day) pairs with the same key are the same pair |
| DayStore.GetToday | backend/app/main.py:124-149 | the read returns the stored log for the key, or the default log with 840 minutes left; the remainder completes a fitting log to 1440 and is 0 otherwise; the summary is the per-bucket rounding of the returned log's own sleep, buffer, tracked and other minutes, each within 100 |
| DayStore.AddSegment | backend/app/main.py:151-172 | the append is refused with 409 exactly when the loaded or default log plus the new minutes exceeds 1440; on success the log keeps user, day, sleep, buffer and earlier segments and gets the new segment last, fits in the day, and the returned remainder completes it to 1440; only the entry at the key is written and every other entry is unchanged |
| DayStore.AddSegmentKeepsAllWithinDay | backend/app/main.py:164-171 | if every stored log fits in its day, it still does after any append, accepted or refused |
| DayStore.RefusedAddChangesNothing | backend/app/main.py:164-168 | a refused append leaves the store, and every read of it, unchanged |
| DayStore.AddThenGet | backend/app/main.py:170-172 | reading a day after a successful append returns the saved log and the remainder the append reported |
| DayStore.AddSegmentIsolation | backend/app/main.py:153-170 | an append for one (user, day) does not change what any other (user, day) reads |
| DayStore.ExactFillSucceeds | backend/app/main.py:161-168 | an append that brings the day to exactly 1440 minutes succeeds with 0 minutes left |
| DayStore.FullDayRefusesOneMinute | backend/app/main.py:161-168 | a day at 480 + 120 + 840 refuses a further 1-minute segment and the store stays as it was |
| DayStore.DefaultDayView | backend/app/main.py:129-148 | an unknown (user, day) reads as sleep 480, buffer 120, no segments, 840 left and a summary of 33/8/0/58 |
| RoleRegistry.FirstIndex | backend/app/main.py:116 | the search finds nothing exactly when no role has the id; otherwise it finds a role with the id and none before it has the id |
| RoleRegistry.AddRole | backend/app/main.py:104-111 | adding is refused with 409 exactly when the id is taken; otherwise the role is appended last, earlier roles keep their positions, and unique ids stay unique |
| RoleRegistry.RemoveAtFacts | backend/app/main.py:120 | taking one role out keeps the others in order and as a multiset, and with unique ids leaves no role with the removed id |
| RoleRegistry.DeleteRole | backend/app/main.py:114-122 | deleting is refused with 404 exactly when no role has the id; otherwise the first role with the id is removed and returned, the rest keep their order, and with unique ids none with that id remains |
| RoleRegistry.AddThenDelete | backend/app/main.py:104-122 | deleting the role just added restores the registry exactly |
| RoleRegistry.DeleteThenAdd | backend/app/main.py:104-122 | with unique ids, re-adding a deleted role succeeds and restores the same multiset of roles |
| RoleRegistry.SeededRegistry | backend/app/main.py:62-73 | `LoadRoles` without a stored list gives five roles with unique ids 1 to 5, named as in the source, whose targets total 100; with a stored list it gives that list |
| RoleRegistry.SeedConflicts | backend/app/main.py:104-122 | adding id 1 to the seeded registry is refused and deleting id 99 is not found |

## Left out

- The FastAPI application, routing, the `/` page, `/health` and template rendering are web plumbing. HTTP errors appear only as `ApiError` values with their status codes.
- `list_roles` returns the registry unchanged, so it has no model of its own.
- JSON persistence is file I/O: `load_days`, `save_days`, the file branch of `load_roles` and `save_roles`. The store is an in-memory map and the registry a sequence. `LoadRoles` takes the stored list as an optional argument.
- `today_str` reads the clock, so the day is a parameter. The source reads the clock twice in one request, for the key and for a new log's `day`. Around midnight those two reads could differ; the model uses one day for both.
- `backend/app/db.py` sets up an SQLite schema that no core logic reads, and `bot/bot.py` is a chat front end calling the HTTP API. db.py and bot.py are not part of this model.
- Pydantic parsing of stored records is library behaviour. Stored logs are assumed well formed, which the subset types enforce. `ParseSegment` and `ParseRole` model only the field bounds of request bodies.
- Concurrent `add_segment` calls on one key can race in a read-modify-write, and the last writer wins. That is a concurrency matter; the model is sequential.
- Float arithmetic in `pct` is replaced by exact integers in `Budget.Pct`. For whole minutes the quotient `mins * 100 / 1440` is never within float error of a half except at exact halves, which floats represent exactly, so the result is the same.
- The `add_role` response echoes the role it was given; `AddRole` returns the new registry instead, since the echoed role is the argument itself.
- Segment role ids are not checked against the registry, as in the source.
