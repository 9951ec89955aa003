# SportsFusion activity logging, modelled in Dafny

SportsFusion is a Next.js application in which a signed-in user picks the
sports of a training session, fills in one form per chosen activity
(strength: series, repetitions and weight; duration: hours, minutes and
seconds), and then sees the logged activities on a dashboard with filters,
per-type counts and a per-day chart. This project models the logic under
that workflow and proves what it guarantees:

- **Datastore** (`Store`, `Schema`). The six tables of `server/db/schema.ts`
  are sequences of rows held by a `Database` class. The server actions are
  methods on it: creating a session with one activity row per distinct
  sport, the three append-only detail inserts, `deleteSession`'s chain of
  deletes and the email-unique `registerUser`.
  A `Context` value carries what a request sees from outside:
  - the environment flags (production, database host present);
  - the signed-in user;
  - the clock;
  - the number of the datastore statement that throws, if any.
- **Dashboard read side** (`SessionQuery`). `getAllSessions` is a pure
  function of a table snapshot. It returns the user's sessions, newest
  first, each with its activities and the first detail row of the
  activity's mode. Redirect, mock and rethrow are outcomes.
- **Dashboard view** (`Dashboard`). `formatTime`, the flattening of sessions
  into cards, the type and search filter, the per-type counts, the grouping
  by day (an imperative loop over a map of buckets) and the chart rows.
- **Wizard** (`Browser`, `RegistrarDuracion`, `RegistrarFuerza`,
  `FlujoRegistro`). Browser storage is a `Storage` object whose fields are
  the two sessionStorage keys and the localStorage completion map. Each page
  is a class whose fields are its React state and whose methods are its
  handlers. Navigation is the returned `Route`.
- **Route guard** (`Middleware`). The middleware decision is a pure function
  of the path, the token, the session cookie and the dev-without-database
  flag.

Identifiers from `createId()` are `FreshId(n)` for a counter `nextId`
held by the database. bcrypt is a function parameter. `Date.now()` and
`Math.random()` in mock ids are parameters too. Dates are day numbers and
timestamps are integers.

## Model

| member | source | states |
|---|---|---|
| Common.SortBy | app/dashboard/components/dashboard-content.tsx:139 | The result is sorted by the key and is a permutation of the input. |
| Strings.ContainsAt | app/dashboard/components/dashboard-content.tsx:101-103 | `includes` holds exactly when the searched text occurs at some index. |
| Schema.WhereCounts | app/dashboard/actions.ts:57-60 | A `where col = v` keeps each matching row as often as the table holds it and no other row, in both directions. |
| Schema.WithoutCounts | app/dashboard/registrar-actividades/actions.ts:284-294 | A `delete where col = v` removes every matching row and keeps every other row with its multiplicity. |
| Schema.FirstWhereIsHeadOfWhere | app/dashboard/actions.ts:76-80 | A `limit 1` lookup answers the first matching row in table order, or none when no row matches. |
| Schema.FirstWhereFindsMatch | app/dashboard/actions.ts:76-80 | In any row order, a `limit 1` lookup answers a matching row of the table, and answers nothing exactly when no row matches. |
| Sports.FirstIndex | app/dashboard/registrar-actividades/actions.ts:88-96 | The index returned holds the id and no earlier sport has it. |
| Sports.DedupDistinctIds | app/dashboard/registrar-actividades/actions.ts:88-96 | The de-duplicated sports have pairwise distinct ids, exactly the input's ids, one entry per distinct id. |
| Sports.DedupKeepsFirstOccurrence | app/dashboard/registrar-actividades/actions.ts:88-96 | Each kept sport is the first sport of the input with its id. |
| Sports.DedupEmpty | app/dashboard/registrar-actividades/actions.ts:88-96 | De-duplication is empty exactly when the selection is. |
| Sports.DedupKeepsOrder | app/dashboard/registrar-actividades/actions.ts:88-96 | Kept sports appear in the order of their first occurrences. |
| Store.UniqueSports | app/dashboard/registrar-actividades/actions.ts:88-96 | The accumulator-dictionary loop returns exactly the first-occurrence de-duplication. |
| Store.ActivityRowsMatchSports | app/dashboard/registrar-actividades/actions.ts:99-117 | One activity row per distinct sport id. Each row is tied to the new session with the sport's category title as `modo`. Each row's `deporte` is the sport's name. The answer lines up index by index with the rows (id) and with the first occurrence of each sport (sport id, name, category). |
| Store.Database.PersistSelectedActivities | app/dashboard/registrar-actividades/actions.ts:45-144 | Mock mode answers one mock activity per selected sport with no de-duplication and touches no table. Without a user the action refuses and nothing changes. Otherwise one session row (owner = user, note "registro") is appended, then the activity rows. "Failed to persist activities" is returned if either insert throws, including the activity insert of an empty selection (`values([])`), which leaves the session row stored. |
| Store.Database.PersistStrengthActivity | app/dashboard/registrar-actividades/actions.ts:146-183 | Mock: success, no change. No user: "No estás autenticado", no change. Otherwise exactly one strength row carrying the activity id and the values is appended, or the failure message is returned when the insert throws. |
| Store.Database.PersistDurationActivity | app/dashboard/registrar-actividades/actions.ts:185-220 | As above for the duration table. |
| Store.Database.PersistDistanceActivity | app/dashboard/registrar-actividades/actions.ts:222-259 | As above for the distance table. |
| Store.DetailInsertIsNotIdempotent | app/dashboard/registrar-actividades/actions.ts:202-206 | Two identical submissions leave two more rows for the activity. |
| Store.Database.DeleteSession | app/dashboard/registrar-actividades/actions.ts:261-308 | The lookup, then the detail deletes for the first activity id only, then the session's activities, then the session row. A session with no activities, or a statement that throws, stops the chain with "Failed to delete session", keeping the deletes already done. The whole new state is `AfterDeleteSession` of the old tables. |
| Store.DeleteSessionOrphansDetails | app/dashboard/registrar-actividades/actions.ts:284-294 | After a complete delete, no activity row and no session row with the session's id remain, while a strength, duration or distance row of any activity but the first one found survives. |
| Store.EmailLookup | app/register/actions.ts:26-30 | The email lookup finds a row exactly when some user has that email. |
| Store.Database.RegisterUser | app/register/actions.ts:15-57 | Mock: success, no change. A taken email is refused with the users table unchanged. Otherwise exactly one user with the given name, email and the bcrypt hash of the password (10 rounds) is appended. A thrown statement gives "Error al registrar usuario". Email uniqueness is preserved. |
| SessionQuery.GetAllSessions | app/dashboard/actions.ts:37-163 | Redirect to login exactly in production without a user; rethrow exactly in production when a read fails. A signed-in user with a database and no failing read, in any environment, gets their own sessions (`Sessions`). Outside production, no user, no database or a failing read gives the mock sessions. |
| SessionQuery.UserSessionsAreOwnNewestFirst | app/dashboard/actions.ts:57-61 | The listed sessions are exactly the user's rows, each as often as stored, ordered by `created_at` descending. |
| SessionQuery.SessionViewListsItsActivities | app/dashboard/actions.ts:67-147 | A session lists every activity row attached to it and only such rows, each as `{id, name = deporte, mode = modo}`. |
| SessionQuery.DetailsFromFirstRow | app/dashboard/actions.ts:74-131 | The data comes from the first row, in table order, of the activity's own mode table. A missing row or an unknown mode gives empty data. |
| SessionQuery.DetailsFromOwnRow | app/dashboard/actions.ts:74-131 | In any row order, a known mode shows empty data exactly when its table has no row for the activity, and otherwise the data of one of the activity's own rows. |
| SessionQuery.LaterDurationRowsHidden | app/dashboard/actions.ts:96-108 | With rows read in table order, a second duration row for an activity never changes what is shown. |
| Dashboard.FormatTimeOfNat | app/dashboard/components/dashboard-content.tsx:28-32 | For `n >= 0`, `hours = n div 60` and `mins = n mod 60` with `hours * 60 + mins == n`. The text is "Xh Ym" when hours > 0, "Ym" otherwise. |
| Dashboard.FormatTimeInjective | app/dashboard/components/dashboard-content.tsx:28-32 | Two non-negative inputs render alike only when they are equal. |
| Dashboard.HalfHourShownAsThirtyHours | app/dashboard/components/dashboard-content.tsx:49 | The 1800-second example duration reads "30h 0m" as written and "30m" once converted to minutes. |
| Dashboard.FormatSecondsShowsHoursAndMinutes | app/dashboard/components/dashboard-content.tsx:28-32 | A duration in seconds shows its whole hours and its leftover whole minutes. |
| Dashboard.FormatSecondsSameMinute | app/dashboard/components/dashboard-content.tsx:28-32 | Two durations in seconds display alike exactly when they agree to the minute. |
| Dashboard.ToActivity | app/dashboard/components/dashboard-content.tsx:36-70 | The card keeps id, name and the session's date. A known mode is its own type; an unknown mode becomes a duration card with "Sin detalles". |
| Dashboard.MapSessionToActivitiesLayout | app/dashboard/components/dashboard-content.tsx:34-74 | Activity `j` of session `k` is the card at the offset of the earlier sessions' activities plus `j`. |
| Dashboard.MapSessionToActivitiesLength | app/dashboard/components/dashboard-content.tsx:34-74 | There is exactly one card per activity. |
| Dashboard.FilterKeepsMatches | app/dashboard/components/dashboard-content.tsx:98-105 | The filter keeps each card passing both the type and the search test, as often as it occurs, and drops every other card. |
| Dashboard.EmptySearchFiltersByType | app/dashboard/components/dashboard-content.tsx:98-105 | With an empty search a card is shown exactly when it passes the type test. |
| Dashboard.EmptySearchKeepsAll | app/dashboard/components/dashboard-content.tsx:98-105 | With "todos" and an empty search every card is shown, in order. |
| Dashboard.CountsSumToTotal | app/dashboard/components/dashboard-content.tsx:108-113 | The three per-type counts add up to the number of cards. |
| Dashboard.ConteoActividades | app/dashboard/components/dashboard-content.tsx:108-113 | `total` is the number of cards and equals the sum of the three counts. |
| Dashboard.OnDateCounts | app/dashboard/components/dashboard-content.tsx:116-126 | Every card is in the bucket of its own day, once per occurrence, and in no other bucket. |
| Dashboard.DateKeysCount | app/dashboard/components/dashboard-content.tsx:116-126 | Each day with a card is a key exactly once; no other day is a key. |
| Dashboard.GroupingStep | app/dashboard/components/dashboard-content.tsx:119-123 | One more card extends its day's bucket, or opens a new bucket after the existing keys. |
| Dashboard.GroupByDate | app/dashboard/components/dashboard-content.tsx:116-126 | The reduce loop yields exactly the keys in first-appearance order and the per-day buckets. |
| Dashboard.BucketSizesSumToTotal | app/dashboard/components/dashboard-content.tsx:116-126 | The bucket sizes add up to the number of cards. |
| Dashboard.RowOf | app/dashboard/components/dashboard-content.tsx:130-138 | A row's total is its bucket's size and its three type counts add up to it. |
| Dashboard.ChartData | app/dashboard/components/dashboard-content.tsx:129-139 | The rows are sorted ascending by day and are a permutation of the per-bucket rows. |
| Dashboard.ChartDataOfGrouping | app/dashboard/components/dashboard-content.tsx:116-139 | On the grouping, the chart has one row per day with cards. Each row counts exactly that day's cards, and every day appears. |
| Middleware.Decide | middleware.ts:5-51 | Dev without a database never redirects; it sets the one-week mock cookie exactly on "/dashboard…" paths without a session cookie. Otherwise the decision is one of three, each stated as an if-and-only-if: the login redirect with callback, the dashboard redirect, or pass-through. |
| Middleware.RedirectsExclusive | middleware.ts:34-48 | No path that needs authentication is "/login" or "/register", so the two redirects never compete. |
| Middleware.DashboardSegmentBoundary | middleware.ts:31-36 | "/dashboard" and "/dashboard/…" need authentication; "/dashboardx" does not. |
| Middleware.MatcherIsTransparent | middleware.ts:53-55 | With authentication on, the route matcher changes no decision. |
| Browser.OrDefault | app/dashboard/registrar-actividades/registrar-fuerza/page.tsx:22-24 | A missing or empty query parameter takes the fallback; any other value is kept. |
| Browser.MissingParamsRedirect | app/dashboard/registrar-actividades/registrar-fuerza/page.tsx:35-39 | A form page redirects to sport selection exactly when the activity id or the session id is missing. |
| Browser.Storage.Record | app/dashboard/registrar-actividades/registrar-duracion/page.tsx:144-158 | The completion map gains or replaces one key; every other key keeps its value. |
| RegistrarDuracion.CanonicalAddsUp | app/dashboard/registrar-actividades/registrar-duracion/page.tsx:42-48 | The normalised fields convert back to the same number of seconds, an empty field counting 0. |
| RegistrarDuracion.CanonicalIsUnique | app/dashboard/registrar-actividades/registrar-duracion/page.tsx:91-100 | Fields with minutes and seconds below 60 are the only normalised form of their total. |
| RegistrarDuracion.DurationForm.constructor | app/dashboard/registrar-actividades/registrar-duracion/page.tsx:22-33 | The ids and the name come from the query with their fallbacks; all fields start empty with a total of 0. |
| RegistrarDuracion.DurationForm.HandleHorasChange | app/dashboard/registrar-actividades/registrar-duracion/page.tsx:51-56 | Hours change only to "" or a non-negative number; any other input leaves the field unchanged. |
| RegistrarDuracion.DurationForm.HandleMinutosChange | app/dashboard/registrar-actividades/registrar-duracion/page.tsx:58-66 | Minutes change only to "" or a number in 0..59. |
| RegistrarDuracion.DurationForm.HandleSegundosChange | app/dashboard/registrar-actividades/registrar-duracion/page.tsx:68-76 | Seconds change only to "" or a number in 0..59. |
| RegistrarDuracion.DurationForm.AddTime | app/dashboard/registrar-actividades/registrar-duracion/page.tsx:79-106 | The new total is the old one plus `3600h + 60m + s`. From valid fields with non-negative amounts, the result is the unique form with minutes and seconds in 0..59, the carry in hours. |
| RegistrarDuracion.DurationForm.Add5Minutes | app/dashboard/registrar-actividades/registrar-duracion/page.tsx:109 | Adds exactly 300 seconds and keeps the fields valid. |
| RegistrarDuracion.DurationForm.Add10Minutes | app/dashboard/registrar-actividades/registrar-duracion/page.tsx:110 | Adds exactly 600 seconds. |
| RegistrarDuracion.DurationForm.Add30Minutes | app/dashboard/registrar-actividades/registrar-duracion/page.tsx:111 | Adds exactly 1800 seconds. |
| RegistrarDuracion.DurationForm.Add1Hour | app/dashboard/registrar-actividades/registrar-duracion/page.tsx:112 | Adds exactly 3600 seconds. |
| RegistrarDuracion.DurationForm.HandleReset | app/dashboard/registrar-actividades/registrar-duracion/page.tsx:115-119 | All three fields become empty. |
| RegistrarDuracion.DurationForm.HandleSubmit | app/dashboard/registrar-actividades/registrar-duracion/page.tsx:122-173 | A zero total is refused before any request. Otherwise the total in seconds is persisted. Only on success the completion map gains `[activityId] = duration entry`, other keys kept, and the wizard is the next route. The error text follows the failure cause. |
| RegistrarFuerza.StrengthForm.constructor | app/dashboard/registrar-actividades/registrar-fuerza/page.tsx:22-33 | The ids and the name come from the query with their fallbacks; the fields start blank. |
| RegistrarFuerza.StrengthForm.HandleSubmit | app/dashboard/registrar-actividades/registrar-fuerza/page.tsx:41-93 | A blank field is refused before any request. Otherwise a row with the URL's activity id and the three values is persisted. Only on success the completion map gains the strength entry, other keys kept. A failed result gives "Error al guardar el registro: " + its error with the map not written. |
| RegistrarFuerza.StrengthForm.HandleReset | app/dashboard/registrar-actividades/registrar-fuerza/page.tsx:95-101 | The three fields, the success flag and the error are cleared. |
| FlujoRegistro.OrderKeepsKnownActivities | app/dashboard/registrar-actividades/flujo-registro/page.tsx:30-38 | Every stored activity of a known category is visited as often as stored; other categories are dropped. |
| FlujoRegistro.OrderIsGroupedByCategory | app/dashboard/registrar-actividades/flujo-registro/page.tsx:30-38 | Strength activities come first, then duration, then distance. |
| FlujoRegistro.OrderKeepsOrderWithinCategory | app/dashboard/registrar-actividades/flujo-registro/page.tsx:30-38 | Inside each category the stored order is kept. |
| FlujoRegistro.OrderHasOnlyKnownCategories | app/dashboard/registrar-actividades/flujo-registro/page.tsx:30-38 | Every visited activity has one of the three known categories. |
| FlujoRegistro.NextStep | app/dashboard/registrar-actividades/flujo-registro/page.tsx:66-84 | An incomplete current activity stays. A completed one moves to the nearest later incomplete activity, if any. Finishing happens exactly when every activity is completed. |
| FlujoRegistro.SkippedActivityBlocksFinish | app/dashboard/registrar-actividades/flujo-registro/page.tsx:79-82 | When an earlier activity was skipped and the current and every later activity are completed, the effect neither moves nor finishes: the wizard stays where it is. |
| FlujoRegistro.FinishRegistration | app/dashboard/registrar-actividades/flujo-registro/page.tsx:51-63 | The session id, the selection and the completion map are removed, and the next route is the dashboard. |
| FlujoRegistro.RegistrationFlow.Init | app/dashboard/registrar-actividades/flujo-registro/page.tsx:86-107 | A session id or a selection that is missing or the empty string sends back to sport selection with no state change. Otherwise the session id is set and loading ends. The selection is loaded, or the load error is set when it does not parse. |
| FlujoRegistro.RegistrationFlow.AdvanceEffect | app/dashboard/registrar-actividades/flujo-registro/page.tsx:66-84 | While loading or with no activities nothing happens. Otherwise the index moves, stays or the wizard finishes exactly as `NextStep` decides, and the index stays in range. |
| FlujoRegistro.RegistrationFlow.NavigateToActivityRegistration | app/dashboard/registrar-actividades/flujo-registro/page.tsx:110-139 | The form route follows the current activity's category, with its id, the session id and its name. An unknown category sets the error and stays. With no current activity the wizard finishes. |
| FlujoRegistro.RegistrationFlow.CancelRegistration | app/dashboard/registrar-actividades/flujo-registro/page.tsx:142-163 | Only a successful delete removes the session id and the selection and returns to sport selection. A failure sets the error and leaves storage untouched. The completion map is kept either way. The database is left as `DeleteSession` leaves it (`AfterDeleteSession`), including the deletes done before a failing statement, and is unchanged when the request never reaches the server. |
| FlujoRegistro.RegistrationFlow.MoveOn | app/dashboard/registrar-actividades/flujo-registro/page.tsx:237-244 | Continue and skip advance the index below the last activity and finish on the last one, so the index never leaves the list. |

## Left out

- Network, rendering and timing. JSX, styling and icons are not modelled. `setTimeout` delays and `router.push`/`replace` become the returned route; `useEffect` scheduling is not modelled.
- next-auth is not part of this model. `getServerSession` and `getToken` become `Context.user` and `Request.authenticated`. The catch-block mock answer of persistSelectedActivities is reached only when `getServerSession` throws, so it is not modelled.
- drizzle and SingleStore are replaced by in-memory sequences with no connection handling. A throwing statement is `Context.failAt`. The concurrent reads of getAllSessions (`Promise.all`) are reduced to one flag: any read failure is `failAt != 0`.
- cuid2 `createId` is a counter. Distinct ids are not assumed, and no property depends on them.
- bcrypt is a function parameter. The stored password is `bcrypt(password, 10)`; nothing about hashing itself is stated.
- Mock activity ids draw on `Date.now()` and `Math.random().toString(36)`. These become the `now` and `random` parameters.
- Dates become day numbers. `format(..., "yyyy-MM-dd")` and the `localeCompare` sort of the chart become integer keys and integer order. The `getTime` sort of the history list and the chart's relabelling in activity-chart.tsx are not modelled.
- Floating point (weight, distance, pace, progress bar) becomes integers.
- `Number.parseInt` becomes the `Input` datatype (empty, a number, or not a number). Quirks such as "12abc" reading as 12 are not modelled.
- Schema.FirstWhere, SessionQuery.DetailsFromFirstRow, SessionQuery.LaterDurationRowsHidden, Store.Database.DeleteSession: a `limit 1` select and the deleteSession id lookup have no `ORDER BY`, so SQL fixes no row order. The model reads rows in insertion order. LaterDurationRowsHidden and the choice of the "first" activity id in deleteSession rely on that; SessionQuery.DetailsFromOwnRow and Schema.FirstWhereFindsMatch hold in any order.
- SessionQuery.GetAllSessions, SessionQuery.UserSessions, SessionQuery.SessionView: `orderBy(desc(created_at))` has no tie-breaker, so SQL leaves sessions with the same `created_at` in no fixed order, and the select of a session's activities has no `ORDER BY` at all. The model sorts sessions stably, so ties keep insertion order, and lists each session's activities in insertion order; GetAllSessions' result is stated in those orders, which SQL does not fix. SessionQuery.UserSessionsAreOwnNewestFirst holds whatever the order of ties, and SessionQuery.SessionViewListsItsActivities holds in any order of activities.
- Store.Database.RegisterUser: emails are compared with exact string equality. SingleStore compares `varchar` columns under the column's collation, which by default ignores case, so the database also refuses "Ana@x.com" when "ana@x.com" exists. EmailsUnique is therefore weaker than the unique index. The `varchar(255)` length limit is not modelled either.
- Strings.Lower: folds only ASCII letters and the Spanish capitals Á, É, Í, Ó, Ú, Ü and Ñ, one character for one. JavaScript's `toLowerCase` folds all of Unicode and can change the length ("İ" becomes two characters), so the search filter's case-insensitivity is modelled for these letters only.
- Store.UniqueSports: the accumulator is a plain object, so `Object.values` lists integer-like keys first in numeric order, and `!acc[sport.id]` is already false for an id naming an inherited `Object.prototype` property ("constructor", "toString", "__proto__", ...), so the source drops such a sport. The model keeps insertion order and keeps every sport, assuming sport ids are neither canonical integers nor such names; the sport catalogue is not part of this model, and a server action accepts whatever ids the client posts.
- The distance form page (registrar-duracion-distancia) is not part of this model. Its route and its server action are.
- `isActivityCompleted` tests `typeof window` before reading localStorage. The model always reads the map.
- The completion map is assumed to parse. A malformed `registeredActivities` JSON, which would throw in the wizard, is not modelled. An empty or unparsable selection is modelled.
- FlujoRegistro.RegistrationFlow.Init: a stored selection is either empty text, a JSON array of activities, or text that does not parse. Valid JSON that is not an array ("null", a number, an object) is stored by `JSON.parse` and then breaks the category `filter` behind the activity order; the model has no such input.
- FlujoRegistro.RegistrationFlow.NavigateToActivityRegistration: the unknown-category branch is modelled but cannot be reached from a stored selection, per OrderHasOnlyKnownCategories.
- Dashboard.ToActivity: details use the corrected `FormatSeconds` (see Findings); `DetailsAsWritten` keeps the code as written.
- Login, register page glue, the sport-selection components and the wiring and config files have nothing to state.

## Findings

| source | as written | input that shows it | evidently intended | confidence | as-written member | corrected member |
|---|---|---|---|---|---|---|
| app/dashboard/components/dashboard-content.tsx:49 | Durations stored in seconds are passed to `formatTime`, which takes minutes, so the hours shown are really minutes. The same happens at line 54. | `duration = 1800` (the half-hour example session, and what the duration form stores for 30 minutes) renders "30h 0m". | Convert seconds to minutes first: "30m". | high, not executed | Dashboard.HalfHourShownAsThirtyHours | Dashboard.FormatSecondsShowsHoursAndMinutes |
