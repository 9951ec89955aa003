/** The six tables of server/db/schema.ts as sequences of rows, together with
    the three query shapes the server actions use on them:
    `select ... where col = v`, `delete ... where col = v` and
    `select ... where col = v limit 1`. */
module Schema {
  import opened Common

  /** Primary keys are client-generated strings (cuid2). */
  type Id = string

  /** The three values of the `modo` column. */
  const FUERZA: string := "Fuerza"
  const DURACION: string := "Duración"
  const DISTANCIA: string := "Distancia + Tiempo"

  /** `users`; `image` is never written by the application and is left out. */
  datatype UserRow = UserRow(id: Id, name: string, email: string, password: string, createdAt: int, updatedAt: int)

  /** `sesiones`: `fecha` is a day number, `createdAt` a timestamp. */
  datatype SessionRow = SessionRow(id: Id, userId: Id, fecha: int, nota: Option<string>, createdAt: int, updatedAt: int)

  /** `actividades`: `modo` is free text at the database level. */
  datatype ActivityRow = ActivityRow(id: Id, sesionId: Id, modo: string, deporte: string)

  datatype StrengthRow = StrengthRow(id: Id, actividadId: Id, series: int, repeticiones: int, peso: int)
  datatype DurationRow = DurationRow(id: Id, actividadId: Id, duracion: int)
  datatype DistanceRow = DistanceRow(id: Id, actividadId: Id, distancia: int, tiempo: int, ritmo: int)

  /** A snapshot of the whole datastore. */
  datatype Tables = Tables(
    users: seq<UserRow>,
    sesiones: seq<SessionRow>,
    actividades: seq<ActivityRow>,
    fuerza: seq<StrengthRow>,
    duracion: seq<DurationRow>,
    distancia: seq<DistanceRow>)

  // The columns the `where` clauses compare.
  function UserEmail(r: UserRow): string { r.email }
  function SessionKey(r: SessionRow): Id { r.id }
  function SessionOwner(r: SessionRow): Id { r.userId }
  function ActivitySession(r: ActivityRow): Id { r.sesionId }
  function StrengthOwner(r: StrengthRow): Id { r.actividadId }
  function DurationOwner(r: DurationRow): Id { r.actividadId }
  function DistanceOwner(r: DistanceRow): Id { r.actividadId }

  /** `select * where key = id`, in table order. */
  function Where<T>(rows: seq<T>, key: T -> Id, id: Id): seq<T> {
    if rows == [] then []
    else
      var last := rows[|rows| - 1];
      Where(rows[..|rows| - 1], key, id) + (if key(last) == id then [last] else [])
  }

  /** What `delete where key = id` leaves behind, in table order. */
  function Without<T>(rows: seq<T>, key: T -> Id, id: Id): seq<T> {
    if rows == [] then []
    else
      var last := rows[|rows| - 1];
      Without(rows[..|rows| - 1], key, id) + (if key(last) != id then [last] else [])
  }

  /** A `where` keeps every matching row as often as the table holds it, and nothing else. */
  lemma {:induction false} WhereCounts<T>(rows: seq<T>, key: T -> Id, id: Id, x: T)
    ensures multiset(Where(rows, key, id))[x] == if key(x) == id then multiset(rows)[x] else 0
    ensures x in Where(rows, key, id) <==> x in rows && key(x) == id
  {
    if rows != [] {
      var init, last := rows[..|rows| - 1], rows[|rows| - 1];
      assert rows == init + [last];
      WhereCounts(init, key, id, x);
    }
  }

  /** A `delete where` removes every matching row and keeps every other row as often as the table holds it. */
  lemma {:induction false} WithoutCounts<T>(rows: seq<T>, key: T -> Id, id: Id, x: T)
    ensures multiset(Without(rows, key, id))[x] == if key(x) != id then multiset(rows)[x] else 0
    ensures x in Without(rows, key, id) <==> x in rows && key(x) != id
  {
    if rows != [] {
      var init, last := rows[..|rows| - 1], rows[|rows| - 1];
      assert rows == init + [last];
      WithoutCounts(init, key, id, x);
    }
  }

  /** `select * where key = id limit 1`: the first matching row, scanning in table order. */
  function FirstWhere<T>(rows: seq<T>, key: T -> Id, id: Id): Option<T> {
    if rows == [] then None
    else if key(rows[0]) == id then Some(rows[0])
    else FirstWhere(rows[1..], key, id)
  }

  lemma {:induction false} WhereAppend<T>(a: seq<T>, b: seq<T>, key: T -> Id, id: Id)
    ensures Where(a + b, key, id) == Where(a, key, id) + Where(b, key, id)
  {
    if b != [] {
      var init := b[..|b| - 1];
      assert (a + b)[..|a + b| - 1] == a + init;
      WhereAppend(a, init, key, id);
    } else {
      assert a + b == a;
    }
  }

  /** The `limit 1` row is the head of the full `where` result, so it is the
      first matching row in table order. */
  lemma {:induction false} FirstWhereIsHeadOfWhere<T>(rows: seq<T>, key: T -> Id, id: Id)
    ensures FirstWhere(rows, key, id) ==
      (if Where(rows, key, id) == [] then None else Some(Where(rows, key, id)[0]))
  {
    if rows != [] {
      assert rows == [rows[0]] + rows[1..];
      WhereAppend([rows[0]], rows[1..], key, id);
      assert Where([rows[0]], key, id) == (if key(rows[0]) == id then [rows[0]] else []) by {
        assert [rows[0]][..0] == [];
      }
      FirstWhereIsHeadOfWhere(rows[1..], key, id);
    }
  }

  /** Whatever order the rows are read in, a `limit 1` lookup answers a row
      that matches, and answers nothing exactly when no row matches. */
  lemma FirstWhereFindsMatch<T>(rows: seq<T>, key: T -> Id, id: Id)
    ensures FirstWhere(rows, key, id).Some? ==>
      FirstWhere(rows, key, id).value in rows && key(FirstWhere(rows, key, id).value) == id
    ensures FirstWhere(rows, key, id).None? <==> forall x :: x in rows ==> key(x) != id
  {
    FirstWhereIsHeadOfWhere(rows, key, id);
    var found := Where(rows, key, id);
    if found != [] {
      WhereCounts(rows, key, id, found[0]);
    } else {
      forall x | x in rows ensures key(x) != id {
        WhereCounts(rows, key, id, x);
      }
    }
  }
}
