/** The writing server actions of app/dashboard/registrar-actividades/actions.ts
    and app/register/actions.ts, run against an in-memory datastore whose
    fields are the tables of server/db/schema.ts. */
module Store {
  import opened Common
  import opened Strings
  import opened Schema
  import opened Sports

  const NOT_AUTHENTICATED: string := "No estás autenticado"
  const PERSIST_ACTIVITIES_FAILED: string := "Failed to persist activities"
  const PERSIST_STRENGTH_FAILED: string := "Failed to persist strength activity"
  const PERSIST_DURATION_FAILED: string := "Failed to persist duration activity"
  const PERSIST_DISTANCE_FAILED: string := "Failed to persist distance activity"
  const DELETE_SESSION_FAILED: string := "Failed to delete session"
  const EMAIL_TAKEN: string := "El email ya está registrado"
  const REGISTER_FAILED: string := "Error al registrar usuario"
  const MOCK_SESSION_ID: string := "mock-session-id"
  const SESSION_NOTE: string := "registro"
  const BCRYPT_ROUNDS: nat := 10

  /** What one request sees of the world outside the tables:
      - `production`: NODE_ENV is "production"; `dbHost`: SINGLESTORE_HOST is set;
      - `user`: the id of the authenticated user, if `getServerSession` found one;
      - `today`, `now`: `new Date()` as a day number (for `fecha`) and as a timestamp;
      - `failAt`: the 1-based number of the datastore statement that throws, 0 when none does. */
  datatype Context = Context(production: bool, dbHost: bool, user: Option<Id>, today: int, now: int, failAt: nat) {
    /** Development or preview without a database: the actions answer mock data. */
    predicate DevWithoutDb() {
      !production && !dbHost
    }
  }

  /** Datastore statement `k` of a request ran to completion. */
  predicate Completes(failAt: nat, k: nat) {
    failAt == 0 || failAt > k
  }

  /** The `n`-th identifier handed out by `createId()`. */
  function FreshId(n: nat): Id {
    "cuid-" + NatToString(n)
  }

  datatype StrengthActivity = StrengthActivity(id: string, activityId: Id, series: int, repetitions: int, weight: int)
  datatype DurationActivity = DurationActivity(id: string, activityId: Id, duration: int)
  datatype DistanceActivity = DistanceActivity(id: string, activityId: Id, distance: int, time: int, ritmo: int)
  datatype RegisterUserInput = RegisterUserInput(name: string, email: string, password: string)

  /** `{ success: true, sessionId, activities }` or `{ success: false, error }`. */
  datatype PersistResult = Created(sessionId: Id, activities: seq<SelectedActivity>) | NotCreated(error: string)

  /** The mock path answers one activity per selected sport, without
      de-duplication; `random(i)` stands for the `Math.random()` suffix drawn
      for the `i`-th sport. */
  function MockActivities(selected: seq<SelectedSport>, now: int, random: nat -> string): seq<SelectedActivity> {
    seq(|selected|, i requires 0 <= i < |selected| =>
      SelectedActivity("mock-activity-" + JsIntString(now) + "-" + random(i),
        selected[i].id, selected[i].name, selected[i].category))
  }

  function NewSession(sessionId: Id, ctx: Context): SessionRow
    requires ctx.user.Some?
  {
    SessionRow(sessionId, ctx.user.value, ctx.today, Some(SESSION_NOTE), ctx.now, ctx.now)
  }

  /** `activitiesToInsert`: one row per unique sport, ids taken from the supply from `firstId` on. */
  function ActivityRows(sessionId: Id, unique: seq<SelectedSport>, firstId: nat): seq<ActivityRow> {
    seq(|unique|, i requires 0 <= i < |unique| =>
      ActivityRow(FreshId(firstId + i), sessionId, unique[i].category.title, unique[i].name))
  }

  /** The returned `activities`: inserted row ids zipped with the unique sports. */
  function CreatedActivities(rows: seq<ActivityRow>, unique: seq<SelectedSport>): seq<SelectedActivity>
    requires |rows| == |unique|
  {
    seq(|rows|, i requires 0 <= i < |rows| =>
      SelectedActivity(rows[i].id, unique[i].id, unique[i].name, unique[i].category))
  }

  /** One activity row per distinct sport id, each attached to the new session
      with the sport's category title as `modo`; the answer lines up index by
      index with the inserted rows and with the first occurrence of each sport. */
  lemma ActivityRowsMatchSports(sessionId: Id, selected: seq<SelectedSport>, firstId: nat)
    ensures var unique := Dedup(selected);
      var rows := ActivityRows(sessionId, unique, firstId);
      && |rows| == |SportIds(selected)|
      && (forall i :: 0 <= i < |rows| ==>
            && rows[i].sesionId == sessionId
            && rows[i].modo == unique[i].category.title
            && rows[i].deporte == unique[i].name
            && unique[i].id in SportIds(selected)
            && selected[FirstIndex(selected, unique[i].id)] == unique[i])
      && (forall i :: 0 <= i < |rows| ==>
            && CreatedActivities(rows, unique)[i].id == rows[i].id
            && CreatedActivities(rows, unique)[i].sportId == unique[i].id
            && CreatedActivities(rows, unique)[i].name == unique[i].name
            && CreatedActivities(rows, unique)[i].category == unique[i].category)
  {
    var unique := Dedup(selected);
    var rows := ActivityRows(sessionId, unique, firstId);
    DedupDistinctIds(selected);
    forall i | 0 <= i < |rows|
      ensures rows[i].sesionId == sessionId && rows[i].modo == unique[i].category.title
      ensures rows[i].deporte == unique[i].name
      ensures unique[i].id in SportIds(selected) && selected[FirstIndex(selected, unique[i].id)] == unique[i]
    {
      DedupKeepsFirstOccurrence(selected, i);
    }
  }

  /** The `reduce` of lines 88-96: `acc` is the dictionary keyed by sport id and
      `unique` lists its values in insertion order (`Object.values`). */
  method UniqueSports(selected: seq<SelectedSport>) returns (unique: seq<SelectedSport>)
    ensures unique == Dedup(selected)
  {
    var acc: map<string, SelectedSport> := map[];
    unique := [];
    for i := 0 to |selected|
      invariant unique == Dedup(selected[..i])
      invariant acc.Keys == SportIds(unique)
    {
      var sport := selected[i];
      assert selected[..i + 1][..i] == selected[..i];
      if sport.id !in acc {
        acc := acc[sport.id := sport];
        unique := unique + [sport];
      }
    }
    assert selected[..|selected|] == selected;
  }

  /** `select id from actividades where sesion_id = sessionId`. */
  function SessionActivityIds(actividades: seq<ActivityRow>, sessionId: Id): seq<Id> {
    var rows := Where(actividades, ActivitySession, sessionId);
    seq(|rows|, i requires 0 <= i < |rows| => rows[i].id)
  }

  /** Statement `k` of deleteSession ran: the lookup found an activity (otherwise
      `actividad_id[0].id` throws) and no earlier statement threw. */
  predicate DeleteRan(failAt: nat, ids: seq<Id>, k: nat) {
    ids != [] && Completes(failAt, k)
  }

  /** The tables after deleteSession when statement `failAt` throws (0: none
      does): the lookup, the three detail deletes for the first activity id,
      the session's activities, the session. */
  function AfterDeleteSession(t: Tables, failAt: nat, sessionId: Id): Tables {
    var ids := if Completes(failAt, 1) then SessionActivityIds(t.actividades, sessionId) else [];
    var first := if ids == [] then "" else ids[0];
    t.(fuerza := if DeleteRan(failAt, ids, 2) then Without(t.fuerza, StrengthOwner, first) else t.fuerza,
       duracion := if DeleteRan(failAt, ids, 3) then Without(t.duracion, DurationOwner, first) else t.duracion,
       distancia := if DeleteRan(failAt, ids, 4) then Without(t.distancia, DistanceOwner, first) else t.distancia,
       actividades := if DeleteRan(failAt, ids, 5) then Without(t.actividades, ActivitySession, sessionId) else t.actividades,
       sesiones := if DeleteRan(failAt, ids, 6) then Without(t.sesiones, SessionKey, sessionId) else t.sesiones)
  }

  /** Every statement of deleteSession ran. */
  predicate DeleteSucceeds(t: Tables, failAt: nat, sessionId: Id) {
    DeleteRan(failAt, SessionActivityIds(t.actividades, sessionId), 6)
  }

  /** After a complete deleteSession no activity row and no session row with
      the session's id remain, yet a detail row (strength, duration or
      distance) of any activity but the first one found survives. */
  lemma DeleteSessionOrphansDetails(t: Tables, sessionId: Id, f: StrengthRow, d: DurationRow, x: DistanceRow)
    requires SessionActivityIds(t.actividades, sessionId) != []
    ensures var ids := SessionActivityIds(t.actividades, sessionId);
      var after := AfterDeleteSession(t, 0, sessionId);
      && (f in t.fuerza && f.actividadId in ids && f.actividadId != ids[0] ==> f in after.fuerza)
      && (d in t.duracion && d.actividadId in ids && d.actividadId != ids[0] ==> d in after.duracion)
      && (x in t.distancia && x.actividadId in ids && x.actividadId != ids[0] ==> x in after.distancia)
      && (forall a :: a in after.actividades ==> a.sesionId != sessionId)
      && (forall v :: v in after.sesiones ==> v.id != sessionId)
  {
    var ids := SessionActivityIds(t.actividades, sessionId);
    var after := AfterDeleteSession(t, 0, sessionId);
    WithoutCounts(t.fuerza, StrengthOwner, ids[0], f);
    WithoutCounts(t.duracion, DurationOwner, ids[0], d);
    WithoutCounts(t.distancia, DistanceOwner, ids[0], x);
    forall a | a in after.actividades ensures a.sesionId != sessionId {
      WithoutCounts(t.actividades, ActivitySession, sessionId, a);
    }
    forall v | v in after.sesiones ensures v.id != sessionId {
      WithoutCounts(t.sesiones, SessionKey, sessionId, v);
    }
  }

  ghost predicate EmailTaken(users: seq<UserRow>, email: string) {
    exists u :: u in users && u.email == email
  }

  ghost predicate EmailsUnique(users: seq<UserRow>) {
    forall i, j :: 0 <= i < j < |users| ==> users[i].email != users[j].email
  }

  /** The `where email = ... limit 1` lookup finds a row exactly when some user has that email. */
  lemma EmailLookup(users: seq<UserRow>, email: string)
    ensures FirstWhere(users, UserEmail, email).Some? <==> EmailTaken(users, email)
  {
    FirstWhereIsHeadOfWhere(users, UserEmail, email);
    var found := Where(users, UserEmail, email);
    if found != [] {
      WhereCounts(users, UserEmail, email, found[0]);
    }
    if u :| u in users && u.email == email {
      WhereCounts(users, UserEmail, email, u);
    }
  }

  class Database {
    var users: seq<UserRow>
    var sesiones: seq<SessionRow>
    var actividades: seq<ActivityRow>
    var fuerza: seq<StrengthRow>
    var duracion: seq<DurationRow>
    var distancia: seq<DistanceRow>
    /** How many identifiers `createId()` has handed out. */
    var nextId: nat

    constructor ()
      ensures Snapshot() == Tables([], [], [], [], [], []) && nextId == 0
    {
      users, sesiones, actividades := [], [], [];
      fuerza, duracion, distancia := [], [], [];
      nextId := 0;
    }

    function Snapshot(): Tables
      reads this
    {
      Tables(users, sesiones, actividades, fuerza, duracion, distancia)
    }

    /** persistSelectedActivities: one session row, then one activity row per
        distinct sport. An empty selection makes the activity insert throw,
        so the action fails with the session row already stored. */
    method PersistSelectedActivities(ctx: Context, selected: seq<SelectedSport>, random: nat -> string) returns (r: PersistResult)
      modifies this`sesiones, this`actividades, this`nextId
      ensures ctx.DevWithoutDb() ==> r == Created(MOCK_SESSION_ID, MockActivities(selected, ctx.now, random)) && unchanged(this)
      ensures !ctx.DevWithoutDb() && ctx.user.None? ==> r == NotCreated(NOT_AUTHENTICATED) && unchanged(this)
      ensures !ctx.DevWithoutDb() && ctx.user.Some? ==>
        var sessionId := FreshId(old(nextId));
        var unique := Dedup(selected);
        var rows := ActivityRows(sessionId, unique, old(nextId) + 1);
        var inserted := Completes(ctx.failAt, 2) && selected != [];
        && sesiones == old(sesiones) + (if Completes(ctx.failAt, 1) then [NewSession(sessionId, ctx)] else [])
        && actividades == old(actividades) + (if inserted then rows else [])
        && nextId == old(nextId) + (if Completes(ctx.failAt, 1) then 1 + |unique| else 1)
        && r == if inserted then Created(sessionId, CreatedActivities(rows, unique))
                else NotCreated(PERSIST_ACTIVITIES_FAILED)
    {
      if ctx.DevWithoutDb() {
        r := Created(MOCK_SESSION_ID, MockActivities(selected, ctx.now, random));
        return;
      }
      if ctx.user.None? {
        r := NotCreated(NOT_AUTHENTICATED);
        return;
      }
      var sessionId := FreshId(nextId);
      nextId := nextId + 1;
      if ctx.failAt == 1 {
        r := NotCreated(PERSIST_ACTIVITIES_FAILED);
        return;
      }
      sesiones := sesiones + [NewSession(sessionId, ctx)];
      var unique := UniqueSports(selected);
      DedupEmpty(selected);
      var rows := ActivityRows(sessionId, unique, nextId);
      nextId := nextId + |unique|;
      // `values([])` throws before any statement is sent, after the session row was written
      if ctx.failAt == 2 || unique == [] {
        r := NotCreated(PERSIST_ACTIVITIES_FAILED);
        return;
      }
      actividades := actividades + rows;
      r := Created(sessionId, CreatedActivities(rows, unique));
    }

    /** persistStrenghActivity: appends one `actividades_fuerza` row, with no check for an existing one. */
    method PersistStrengthActivity(ctx: Context, activity: StrengthActivity) returns (r: Outcome)
      modifies this`fuerza, this`nextId
      ensures ctx.DevWithoutDb() ==> r == Ok && unchanged(this)
      ensures !ctx.DevWithoutDb() && ctx.user.None? ==> r == Failed(NOT_AUTHENTICATED) && unchanged(this)
      ensures !ctx.DevWithoutDb() && ctx.user.Some? ==>
        && nextId == old(nextId) + 1
        && fuerza == old(fuerza) + (if Completes(ctx.failAt, 1) then
             [StrengthRow(FreshId(old(nextId)), activity.activityId, activity.series, activity.repetitions, activity.weight)]
           else [])
        && r == if Completes(ctx.failAt, 1) then Ok else Failed(PERSIST_STRENGTH_FAILED)
    {
      if ctx.DevWithoutDb() {
        return Ok;
      }
      if ctx.user.None? {
        return Failed(NOT_AUTHENTICATED);
      }
      var id := FreshId(nextId);
      nextId := nextId + 1;
      if ctx.failAt == 1 {
        return Failed(PERSIST_STRENGTH_FAILED);
      }
      fuerza := fuerza + [StrengthRow(id, activity.activityId, activity.series, activity.repetitions, activity.weight)];
      r := Ok;
    }

    /** persistDurationActivity: appends one `actividades_duracion` row. */
    method PersistDurationActivity(ctx: Context, activity: DurationActivity) returns (r: Outcome)
      modifies this`duracion, this`nextId
      ensures ctx.DevWithoutDb() ==> r == Ok && unchanged(this)
      ensures !ctx.DevWithoutDb() && ctx.user.None? ==> r == Failed(NOT_AUTHENTICATED) && unchanged(this)
      ensures !ctx.DevWithoutDb() && ctx.user.Some? ==>
        && nextId == old(nextId) + 1
        && duracion == old(duracion) + (if Completes(ctx.failAt, 1) then
             [DurationRow(FreshId(old(nextId)), activity.activityId, activity.duration)]
           else [])
        && r == if Completes(ctx.failAt, 1) then Ok else Failed(PERSIST_DURATION_FAILED)
    {
      if ctx.DevWithoutDb() {
        return Ok;
      }
      if ctx.user.None? {
        return Failed(NOT_AUTHENTICATED);
      }
      var id := FreshId(nextId);
      nextId := nextId + 1;
      if ctx.failAt == 1 {
        return Failed(PERSIST_DURATION_FAILED);
      }
      duracion := duracion + [DurationRow(id, activity.activityId, activity.duration)];
      r := Ok;
    }

    /** persistDistanceActivity: appends one `actividades_distancia` row. */
    method PersistDistanceActivity(ctx: Context, activity: DistanceActivity) returns (r: Outcome)
      modifies this`distancia, this`nextId
      ensures ctx.DevWithoutDb() ==> r == Ok && unchanged(this)
      ensures !ctx.DevWithoutDb() && ctx.user.None? ==> r == Failed(NOT_AUTHENTICATED) && unchanged(this)
      ensures !ctx.DevWithoutDb() && ctx.user.Some? ==>
        && nextId == old(nextId) + 1
        && distancia == old(distancia) + (if Completes(ctx.failAt, 1) then
             [DistanceRow(FreshId(old(nextId)), activity.activityId, activity.distance, activity.time, activity.ritmo)]
           else [])
        && r == if Completes(ctx.failAt, 1) then Ok else Failed(PERSIST_DISTANCE_FAILED)
    {
      if ctx.DevWithoutDb() {
        return Ok;
      }
      if ctx.user.None? {
        return Failed(NOT_AUTHENTICATED);
      }
      var id := FreshId(nextId);
      nextId := nextId + 1;
      if ctx.failAt == 1 {
        return Failed(PERSIST_DISTANCE_FAILED);
      }
      distancia := distancia + [DistanceRow(id, activity.activityId, activity.distance, activity.time, activity.ritmo)];
      r := Ok;
    }

    /** deleteSession: looks up the session's activity ids, deletes the detail
        rows of the first one only, then every activity of the session, then
        the session. Each statement may throw, leaving the earlier deletes done. */
    method DeleteSession(ctx: Context, sessionId: Id) returns (r: Outcome)
      modifies this`sesiones, this`actividades, this`fuerza, this`duracion, this`distancia
      ensures ctx.DevWithoutDb() ==> r == Ok && unchanged(this)
      ensures !ctx.DevWithoutDb() && ctx.user.None? ==> r == Failed(NOT_AUTHENTICATED) && unchanged(this)
      ensures !ctx.DevWithoutDb() && ctx.user.Some? ==>
        && Snapshot() == AfterDeleteSession(old(Snapshot()), ctx.failAt, sessionId)
        && r == if DeleteSucceeds(old(Snapshot()), ctx.failAt, sessionId) then Ok else Failed(DELETE_SESSION_FAILED)
    {
      if ctx.DevWithoutDb() {
        return Ok;
      }
      if ctx.user.None? {
        return Failed(NOT_AUTHENTICATED);
      }
      if ctx.failAt == 1 {
        return Failed(DELETE_SESSION_FAILED);
      }
      var ids := SessionActivityIds(actividades, sessionId);
      if ids == [] {
        return Failed(DELETE_SESSION_FAILED);
      }
      var first := ids[0];
      if ctx.failAt == 2 {
        return Failed(DELETE_SESSION_FAILED);
      }
      fuerza := Without(fuerza, StrengthOwner, first);
      if ctx.failAt == 3 {
        return Failed(DELETE_SESSION_FAILED);
      }
      duracion := Without(duracion, DurationOwner, first);
      if ctx.failAt == 4 {
        return Failed(DELETE_SESSION_FAILED);
      }
      distancia := Without(distancia, DistanceOwner, first);
      if ctx.failAt == 5 {
        return Failed(DELETE_SESSION_FAILED);
      }
      actividades := Without(actividades, ActivitySession, sessionId);
      if ctx.failAt == 6 {
        return Failed(DELETE_SESSION_FAILED);
      }
      sesiones := Without(sesiones, SessionKey, sessionId);
      r := Ok;
    }

    /** registerUser: refuses a known email, otherwise stores one user with the bcrypt hash of the password. */
    method RegisterUser(ctx: Context, input: RegisterUserInput, bcrypt: (string, nat) -> string) returns (r: Outcome)
      modifies this`users, this`nextId
      ensures ctx.DevWithoutDb() ==> r == Ok && unchanged(this)
      ensures !ctx.DevWithoutDb() && !Completes(ctx.failAt, 1) ==> r == Failed(REGISTER_FAILED) && unchanged(this)
      ensures !ctx.DevWithoutDb() && Completes(ctx.failAt, 1) && EmailTaken(old(users), input.email) ==>
        r == Failed(EMAIL_TAKEN) && unchanged(this)
      ensures !ctx.DevWithoutDb() && Completes(ctx.failAt, 1) && !EmailTaken(old(users), input.email) ==>
        && nextId == old(nextId) + 1
        && users == old(users) + (if Completes(ctx.failAt, 2) then
             [UserRow(FreshId(old(nextId)), input.name, input.email, bcrypt(input.password, BCRYPT_ROUNDS), ctx.now, ctx.now)]
           else [])
        && r == if Completes(ctx.failAt, 2) then Ok else Failed(REGISTER_FAILED)
      ensures EmailsUnique(old(users)) ==> EmailsUnique(users)
    {
      if ctx.DevWithoutDb() {
        return Ok;
      }
      if ctx.failAt == 1 {
        return Failed(REGISTER_FAILED);
      }
      var existingUser := FirstWhere(users, UserEmail, input.email);
      EmailLookup(users, input.email);
      if existingUser.Some? {
        return Failed(EMAIL_TAKEN);
      }
      var hashedPassword := bcrypt(input.password, BCRYPT_ROUNDS);
      var id := FreshId(nextId);
      nextId := nextId + 1;
      if ctx.failAt == 2 {
        return Failed(REGISTER_FAILED);
      }
      users := users + [UserRow(id, input.name, input.email, hashedPassword, ctx.now, ctx.now)];
      r := Ok;
    }
  }

  /** Submitting the same detail twice stores it twice: the detail inserts are not idempotent. */
  method DetailInsertIsNotIdempotent(db: Database, ctx: Context, activity: DurationActivity)
    requires !ctx.DevWithoutDb() && ctx.user.Some? && ctx.failAt == 0
    modifies db
    ensures |Where(db.duracion, DurationOwner, activity.activityId)| ==
            |Where(old(db.duracion), DurationOwner, activity.activityId)| + 2
  {
    var before := db.duracion;
    var first := db.PersistDurationActivity(ctx, activity);
    var middle := db.duracion;
    var second := db.PersistDurationActivity(ctx, activity);
    WhereAppend(before, middle[|before|..], DurationOwner, activity.activityId);
    assert middle == before + middle[|before|..];
    WhereAppend(middle, db.duracion[|middle|..], DurationOwner, activity.activityId);
    assert db.duracion == middle + db.duracion[|middle|..];
  }
}
