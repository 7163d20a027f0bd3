# Bus route/schedule catalogue, modelled in Dafny

This project models the route/schedule publisher of the bus system. It has
three tables, declared in `models.py`, and the admin handlers in `main.py`
that keep them consistent:

- `admins` holds username, email and password hash.
- `routes` holds route number, name and description.
- `schedules` holds the route it runs on, departure and arrival time and stop,
  the days of week, and an active flag.

`models.dfy` (module `Models`) has one datatype per table row. It also has
predicates for the declared column constraints: usernames, emails and route
numbers are unique, and `route_id` is a foreign key into `routes`. One more
predicate states the convention the `is_active` comment documents: the flag
is 0 or 1. That column is a plain integer, so the database does not enforce
this. It gives the format of `days_of_week` (Python's `split(",")` and
"comma-separated weekday tags") and the two relationship attributes
`Route.schedules` and `Schedule.route`.

`handlers.dfy` (module `Handlers`) has a `Store` class. Its fields are one
`map` from id to row per table, plus one autoincrement counter per table.
Each mutating handler is one method. It returns an `Outcome`: `Ok`,
`NotFound(Routes)`, `NotFound(Schedules)`, `Conflict` or `PrivacyNotAgreed`.

Each mutating method requires and ensures `Store.Valid()`. `Valid()` is
the declared constraints and the `is_active` convention
(`Models.Consistent`), plus the fact that every stored id is below
its table's counter. So the combined invariant holds in the empty store
built by the constructor, and every operation preserves it:

- route numbers are unique;
- usernames and emails are unique;
- no schedule is an orphan.

Each method states its whole new state:

- on success, exactly the insert, update or cascading delete the handler does;
- on an error outcome, the unchanged tables.

It also states the new value of every id counter: the touched table's
counter goes up by one on a successful insert and stays put otherwise, and
the other counters are unchanged. Every
method that touches schedules keeps `AllActive` (every schedule has
`is_active == 1`), because no handler writes anything else.

The public timetable (`view_schedule`) is `Store.ViewSchedule`. It is a loop
over the route rows, specified by the function `GroupSchedules`. It only
needs every stored id to be below its counter, not all of `Valid()`.

Modelling decisions:

- The queries at main.py:32-33 name no order. The model reads rows back in
  ascending primary-key order (`Listing`). This is an assumption of the
  model, not a promise of the program.
- New ids come from per-table counters, which the constructor sets to 1.
  The insert methods' contracts give the counter's value as the new id.
  `Valid()` keeps every id below its counter, and that is how
  `ViewSchedule` lists a table: `Listing` counts up to the counter.
- `get_password_hash` is the constant function `Store.hash`. The
  constructor receives it and the model does not interpret it.
- Strings are `seq<char>`.
- `days_of_week` stores the checked days joined with `","` in the order
  given, not as a set.
- `is_active` is an Integer column, and the handlers only ever write it as 1.
  `AddSchedule` writes the 1 itself, as main.py:305 does, so it does not rely
  on the column default.

## Model

| member | source | states |
|---|---|---|
| `Models.RouteOf` | models.py:41 | Under the foreign key, a schedule's `route` is the id of a stored route. |
| `Models.SchedulesOf` | models.py:25 | `Route.schedules` is a set of stored schedule ids; `BackPopulates` shows it holds exactly the schedules whose `route` is that route. |
| `Models.BackPopulates` | models.py:25-41 | With no orphans, a schedule is in route R's `schedules` exactly when its `route` is R's id. |
| `Models.Split` | models.py:36 | Splitting on `","` always gives at least one piece, and no piece contains a comma. |
| `Handlers.Listing` | main.py:32-33 | A table's rows, as `query(...).all()` returns them, are exactly its ids below the counter. The model lists them in strictly ascending order, which the source does not fix. |
| `Handlers.Active` | main.py:33 | The `is_active == 1` filter keeps exactly the active schedules and keeps ascending order. |
| `Handlers.OnRoute` | main.py:40 | The per-route comprehension keeps exactly the schedules whose `route_id` is that route and keeps ascending order. |
| `Handlers.GroupSchedules` | main.py:32-41 | There is one entry per route, including routes without schedules. Each entry holds that route and exactly its active schedules among the ids below `n`, in ascending id order. That order is the model's row-order assumption. `GroupSchedulesShowsAll` covers every schedule once `n` is past all ids. |
| `Handlers.GroupSchedulesShowsAll` | main.py:33-40 | Once the counter is past every schedule id, each entry lists every active schedule of its route. When all schedules are active, it lists every schedule of its route. |
| `Handlers.IncreasingUnique` | main.py:36-41 | Two ascending id lists with the same members are equal, so the membership and order facts fix each entry's schedule list completely. |
| `Handlers.JoinDays` | main.py:296 | `",".join(days_of_week)`, here and again at main.py:357. The stored string starts with the first checked day, and for comma-free days it contains a comma exactly when more than one day was checked. Its meaning is fixed by the `SplitJoin`/`JoinSplit` round trip. |
| `Handlers.SplitJoin` | main.py:296 | When no checked day contains a comma, splitting the stored `",".join(days)` string on `","` gives back exactly the checked days. |
| `Handlers.JoinSplit` | models.py:36 | Every `days_of_week` string is the `","` join of its own pieces: the other direction of the round trip. |
| `Handlers.DaysFromTags` | main.py:296 | When every checked day is a tag from mon..sun, the stored string is a well-formed comma-separated day list and splits back into the checked days. |
| `Handlers.Store.constructor` | main.py:15 | The empty database meets the declared constraints and the `is_active` convention, all of its (zero) schedules are active, and every id counter starts at 1. |
| `Handlers.Store.RegisterAdmin` | main.py:96-123 | An empty `agree_privacy` gives `PrivacyNotAgreed` and creates nothing. A username or email already used by some admin gives `Conflict` and creates nothing. Otherwise exactly one admin is added under a new id, with the hash of the password. Uniqueness of usernames and emails is kept. |
| `Handlers.Store.AddRoute` | main.py:156-171 | `Conflict`, with nothing changed, exactly when the route number is in use. Otherwise exactly one route is added under a new id. Route numbers stay unique. |
| `Handlers.Store.EditRoute` | main.py:201-221 | `NotFound` exactly for a missing id. `Conflict` exactly when a different route has the new number, so keeping the route's own number succeeds. On success only that route's number, name and description change. |
| `Handlers.Store.DeleteRoute` | main.py:232-241 | `NotFound` exactly for a missing id. Otherwise the route is removed, together with exactly the schedules with that `route_id`. The other routes and schedules are untouched and no schedule references the deleted id. |
| `Handlers.Store.AddSchedule` | main.py:292-310 | `NotFound` with nothing changed unless the route exists, so no orphan can be created. Otherwise one schedule is added under a new id, with `is_active = 1` and the checked days joined with `","`. |
| `Handlers.Store.EditSchedule` | main.py:349-365 | `NotFound(Routes)` for a missing route. `NotFound(Schedules)` unless a schedule with that id belongs to that route. On success only that schedule's five time/stop/days fields change, and `is_active` is kept. |
| `Handlers.Store.DeleteSchedule` | main.py:377-386 | Same guards as EditSchedule. On success exactly that one schedule is removed. |
| `Handlers.Store.ViewSchedule` | main.py:31-41 | The loop's result equals `GroupSchedules`. It has one entry per route, each listing exactly that route's active schedules in ascending id order, the model's row-order assumption. When every schedule is active, as the handlers keep it, that is every schedule of the route. |

## Left out

- Listing: the model fixes ascending-id row order where the source's SQL queries promise none, so "in order" facts about `GroupSchedules` and `ViewSchedule` hold under that assumption. The page's `route_schedules` dict keeps the routes in query order; the model's result is a `map` from route id, which has no order. `database.py`, which sets up the engine, is not part of this model.
- HTTP and templating are not modelled: routing, `TemplateResponse` pages, redirects, JSON bodies, static files and `uvicorn.run`. A handler's result is its `Outcome` only.
- The read-only admin pages (`admin_dashboard`, `admin_routes`, `edit_route_page`, `admin_route_schedules`, `add_schedule_page`, `edit_schedule_page`) are not modelled. They only look up rows (404 when missing) and render them.
- Login, sessions and logout are not modelled: `admin_login`, `admin_logout`, `authenticate_admin`, `create_access_token`, `get_current_admin`, the cookie and its attributes. The `auth` module is not part of this model. Every handler's caller is taken to be already authenticated.
- The password hash is an uninterpreted function given to the constructor, because its algorithm lives in the `auth` module.
- `created_at` and `updated_at` are not modelled, because the database server sets them.
- The SQL engine, sessions and commit/refresh are not modelled. Each handler is one atomic step on the store.
- Concurrency is not modelled. The check-then-write in `add_route`, `edit_route` and `admin_register` relies on the database's isolation and unique indexes. In this sequential model the check alone keeps uniqueness.
- FastAPI's validation of required form fields is not modelled. `AddSchedule` and `EditSchedule` accept any list of days, including an empty one, which joins to `""`. Form defaults are not modelled either: `description` defaults to `""` when the form omits it (main.py:151, main.py:197), and `AddRoute` and `EditRoute` take it as an explicit argument.
- The `HH:MM` format of the departure and arrival times is not enforced, because no handler checks it.
- The day-tag format of `days_of_week` is not enforced, because no handler checks it. `DaysFromTags` shows what holds when the checked days are tags.
- `fill_data.py` (sample data seeding) is not modelled. It only inserts literal rows, and does nothing when a route already exists.
