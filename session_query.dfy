/** getAllSessions of app/dashboard/actions.ts: the signed-in user's sessions,
    newest first, each with its activities and the detail row of each
    activity's mode. */
module SessionQuery {
  import opened Common
  import opened Schema
  import opened Store

  /** `ActivityData.data`: every field optional, filled from one detail row. */
  datatype Data = Data(
    series: Option<int>, repetitions: Option<int>, weight: Option<int>,
    duration: Option<int>,
    distance: Option<int>, time: Option<int>, ritmo: Option<int>)

  const NO_DATA: Data := Data(None, None, None, None, None, None, None)

  datatype ActivityData = ActivityData(id: Id, name: string, mode: string, data: Data)

  /** `date` is the session's `fecha` as a day number. */
  datatype SessionWithActivities = SessionWithActivities(id: Id, date: int, note: Option<string>, activities: seq<ActivityData>)

  /** The sessions, a redirect to /login, or the error rethrown to the error boundary. */
  datatype Load = Loaded(sessions: seq<SessionWithActivities>) | RedirectToLogin | Thrown

  function StrengthData(f: StrengthRow): Data {
    NO_DATA.(series := Some(f.series), repetitions := Some(f.repeticiones), weight := Some(f.peso))
  }

  function DurationData(d: DurationRow): Data {
    NO_DATA.(duration := Some(d.duracion))
  }

  function DistanceData(d: DistanceRow): Data {
    NO_DATA.(distance := Some(d.distancia), time := Some(d.tiempo), ritmo := Some(d.ritmo))
  }

  /** The `switch (activity.modo)`: a `limit 1` lookup in the table of the mode;
      no data for an unknown mode or a missing row. */
  function DetailsOf(t: Tables, a: ActivityRow): Data {
    if a.modo == FUERZA then
      match FirstWhere(t.fuerza, StrengthOwner, a.id)
      case Some(f) => StrengthData(f)
      case None => NO_DATA
    else if a.modo == DURACION then
      match FirstWhere(t.duracion, DurationOwner, a.id)
      case Some(d) => DurationData(d)
      case None => NO_DATA
    else if a.modo == DISTANCIA then
      match FirstWhere(t.distancia, DistanceOwner, a.id)
      case Some(d) => DistanceData(d)
      case None => NO_DATA
    else NO_DATA
  }

  function ActivityDataOf(t: Tables, a: ActivityRow): ActivityData {
    ActivityData(a.id, a.deporte, a.modo, DetailsOf(t, a))
  }

  function SessionView(t: Tables, s: SessionRow): SessionWithActivities {
    var rows := Where(t.actividades, ActivitySession, s.id);
    SessionWithActivities(s.id, s.fecha, s.nota,
      seq(|rows|, i requires 0 <= i < |rows| => ActivityDataOf(t, rows[i])))
  }

  /** `orderBy(desc(created_at))` is ascending order on the negated timestamp. */
  function NewestFirst(s: SessionRow): int {
    -s.createdAt
  }

  function UserSessions(t: Tables, userId: Id): seq<SessionRow> {
    SortBy(Where(t.sesiones, SessionOwner, userId), NewestFirst)
  }

  function Sessions(t: Tables, userId: Id): seq<SessionWithActivities> {
    var rows := UserSessions(t, userId);
    seq(|rows|, i requires 0 <= i < |rows| => SessionView(t, rows[i]))
  }

  /** The two example sessions of getMockSessions, dated today and yesterday. */
  function MockSessions(today: int): seq<SessionWithActivities> {
    [ SessionWithActivities("mock-session-1", today, Some("Sesión de ejemplo"), [
        ActivityData("mock-activity-1", "Musculación", FUERZA,
          NO_DATA.(series := Some(3), repetitions := Some(12), weight := Some(50))),
        ActivityData("mock-activity-2", "Yoga", DURACION, NO_DATA.(duration := Some(1800)))]),
      SessionWithActivities("mock-session-2", today - 1, Some("Sesión anterior"), [
        ActivityData("mock-activity-3", "Running", DISTANCIA,
          NO_DATA.(distance := Some(5), time := Some(1500), ritmo := Some(300)))]) ]
  }

  /** getAllSessions. `redirect("/login")` throws inside the `try`, so outside
      production the catch answers mock data instead; a failing read
      (`ctx.failAt != 0`) does the same. */
  function GetAllSessions(ctx: Context, t: Tables): (r: Load)
    ensures r == RedirectToLogin <==> ctx.production && ctx.user.None?
    ensures r == Thrown <==> ctx.production && ctx.user.Some? && ctx.failAt != 0
    ensures ctx.user.Some? && !ctx.DevWithoutDb() && ctx.failAt == 0 ==> r == Loaded(Sessions(t, ctx.user.value))
    ensures !ctx.production && (ctx.user.None? || ctx.DevWithoutDb() || ctx.failAt != 0) ==>
      r == Loaded(MockSessions(ctx.today))
  {
    if ctx.user.None? then
      if ctx.DevWithoutDb() || !ctx.production then Loaded(MockSessions(ctx.today)) else RedirectToLogin
    else if ctx.DevWithoutDb() then Loaded(MockSessions(ctx.today))
    else if ctx.failAt != 0 then
      if ctx.production then Thrown else Loaded(MockSessions(ctx.today))
    else Loaded(Sessions(t, ctx.user.value))
  }

  /** The listed sessions are exactly the user's rows, each as often as the
      table holds it, newest first. */
  lemma UserSessionsAreOwnNewestFirst(t: Tables, userId: Id, s: SessionRow)
    ensures var rows := UserSessions(t, userId);
      && (forall i :: 0 <= i < |rows| ==> rows[i].userId == userId)
      && (forall i, j :: 0 <= i < j < |rows| ==> rows[i].createdAt >= rows[j].createdAt)
      && multiset(rows)[s] == if s.userId == userId then multiset(t.sesiones)[s] else 0
  {
    var rows := UserSessions(t, userId);
    var mine := Where(t.sesiones, SessionOwner, userId);
    WhereCounts(t.sesiones, SessionOwner, userId, s);
    forall i | 0 <= i < |rows| ensures rows[i].userId == userId {
      assert rows[i] in multiset(mine);
      WhereCounts(t.sesiones, SessionOwner, userId, rows[i]);
    }
    forall i, j | 0 <= i < j < |rows| ensures rows[i].createdAt >= rows[j].createdAt {
      assert NewestFirst(rows[i]) <= NewestFirst(rows[j]);
    }
  }

  /** `x` is what the dashboard shows for some activity row of session `s`. */
  ghost predicate ShownFromSession(t: Tables, s: SessionRow, x: ActivityData) {
    exists b :: b in t.actividades && b.sesionId == s.id && x == ActivityDataOf(t, b)
  }

  /** A session lists every activity row attached to it, and only such rows. */
  lemma SessionViewListsItsActivities(t: Tables, s: SessionRow, a: ActivityRow)
    ensures a in t.actividades && a.sesionId == s.id ==> ActivityDataOf(t, a) in SessionView(t, s).activities
    ensures forall x :: x in SessionView(t, s).activities ==> ShownFromSession(t, s, x)
  {
    var rows := Where(t.actividades, ActivitySession, s.id);
    var v := SessionView(t, s);
    if a in t.actividades && a.sesionId == s.id {
      WhereCounts(t.actividades, ActivitySession, s.id, a);
      var i :| 0 <= i < |rows| && rows[i] == a;
      assert v.activities[i] == ActivityDataOf(t, a);
    }
    forall x | x in v.activities ensures ShownFromSession(t, s, x) {
      var i :| 0 <= i < |v.activities| && v.activities[i] == x;
      WhereCounts(t.actividades, ActivitySession, s.id, rows[i]);
      assert rows[i] in t.actividades && rows[i].sesionId == s.id && x == ActivityDataOf(t, rows[i]);
    }
  }

  /** The data shown for an activity comes from the first detail row, in
      table order, of its own mode's table; a mode with no detail row, or an
      unknown mode, shows no data. */
  lemma DetailsFromFirstRow(t: Tables, a: ActivityRow)
    ensures a.modo == FUERZA ==>
      DetailsOf(t, a) == (var rows := Where(t.fuerza, StrengthOwner, a.id); if rows == [] then NO_DATA else StrengthData(rows[0]))
    ensures a.modo == DURACION ==>
      DetailsOf(t, a) == (var rows := Where(t.duracion, DurationOwner, a.id); if rows == [] then NO_DATA else DurationData(rows[0]))
    ensures a.modo == DISTANCIA ==>
      DetailsOf(t, a) == (var rows := Where(t.distancia, DistanceOwner, a.id); if rows == [] then NO_DATA else DistanceData(rows[0]))
    ensures a.modo !in {FUERZA, DURACION, DISTANCIA} ==> DetailsOf(t, a) == NO_DATA
  {
    FirstWhereIsHeadOfWhere(t.fuerza, StrengthOwner, a.id);
    FirstWhereIsHeadOfWhere(t.duracion, DurationOwner, a.id);
    FirstWhereIsHeadOfWhere(t.distancia, DistanceOwner, a.id);
  }

  /** A second duration row for an activity (two submissions of the form) is
      never shown: the dashboard keeps reading the first one. */
  lemma LaterDurationRowsHidden(t: Tables, a: ActivityRow, later: DurationRow)
    requires a.modo == DURACION
    requires Where(t.duracion, DurationOwner, a.id) != []
    ensures DetailsOf(t.(duracion := t.duracion + [later]), a) == DetailsOf(t, a)
  {
    var t' := t.(duracion := t.duracion + [later]);
    DetailsFromFirstRow(t, a);
    DetailsFromFirstRow(t', a);
    WhereAppend(t.duracion, [later], DurationOwner, a.id);
  }

  /** Independently of the order in which the database returns rows: an
      activity of a known mode shows no data exactly when its mode's table has
      no row for it, and otherwise shows one of its own rows. */
  lemma DetailsFromOwnRow(t: Tables, a: ActivityRow)
    ensures a.modo == FUERZA ==>
      && (DetailsOf(t, a) == NO_DATA <==> forall f :: f in t.fuerza ==> f.actividadId != a.id)
      && (DetailsOf(t, a) != NO_DATA ==>
            exists f :: f in t.fuerza && f.actividadId == a.id && DetailsOf(t, a) == StrengthData(f))
    ensures a.modo == DURACION ==>
      && (DetailsOf(t, a) == NO_DATA <==> forall d :: d in t.duracion ==> d.actividadId != a.id)
      && (DetailsOf(t, a) != NO_DATA ==>
            exists d :: d in t.duracion && d.actividadId == a.id && DetailsOf(t, a) == DurationData(d))
    ensures a.modo == DISTANCIA ==>
      && (DetailsOf(t, a) == NO_DATA <==> forall x :: x in t.distancia ==> x.actividadId != a.id)
      && (DetailsOf(t, a) != NO_DATA ==>
            exists x :: x in t.distancia && x.actividadId == a.id && DetailsOf(t, a) == DistanceData(x))
  {
    FirstWhereFindsMatch(t.fuerza, StrengthOwner, a.id);
    FirstWhereFindsMatch(t.duracion, DurationOwner, a.id);
    FirstWhereFindsMatch(t.distancia, DistanceOwner, a.id);
  }
}
