/** The client-side aggregation of app/dashboard/components/dashboard-content.tsx:
    flattening sessions into activity cards, the type/search filter, the
    per-type counts, the grouping by date and the chart rows. */
module Dashboard {
  import opened Common
  import opened Strings
  import opened Schema
  import opened SessionQuery

  datatype Tipo = Fuerza | Duracion | Distancia

  function TipoName(t: Tipo): string {
    match t
    case Fuerza => FUERZA
    case Duracion => DURACION
    case Distancia => DISTANCIA
  }

  /** A card of the activity list; `fecha` is the session's day number. */
  datatype Activity = Activity(id: Id, tipo: Tipo, nombre: string, fecha: int, detalles: string)

  /** JavaScript's `%`: the remainder takes the sign of the dividend. */
  function JsRem(a: int, b: int): int
    requires b > 0
  {
    if a >= 0 then a % b else -((-a) % b)
  }

  /** `formatTime(minutes)`: whole hours by `Math.floor`, the rest by `%`. */
  function FormatTime(minutes: int): string {
    var hours := minutes / 60;
    var mins := JsRem(minutes, 60);
    if hours > 0 then JsIntString(hours) + "h " + JsIntString(mins) + "m" else JsIntString(mins) + "m"
  }

  /** Index of the first non-digit of `s` (or `|s|`). */
  function FirstNonDigit(s: string): (n: nat)
    ensures n <= |s|
  {
    if s == [] || !IsDigit(s[0]) then 0 else 1 + FirstNonDigit(s[1..])
  }

  lemma {:induction false} FirstNonDigitAfterRun(a: string, c: char, rest: string)
    requires AllDigits(a) && !IsDigit(c)
    ensures FirstNonDigit(a + [c] + rest) == |a|
  {
    if a != [] {
      assert (a + [c] + rest)[1..] == a[1..] + [c] + rest;
      FirstNonDigitAfterRun(a[1..], c, rest);
    }
  }

  /** A run of digits followed by a marker splits a string in one way only. */
  lemma DigitRunsAgree(a: string, c1: char, r1: string, b: string, c2: char, r2: string)
    requires AllDigits(a) && AllDigits(b) && !IsDigit(c1) && !IsDigit(c2)
    requires a + [c1] + r1 == b + [c2] + r2
    ensures a == b && c1 == c2 && r1 == r2
  {
    var s := a + [c1] + r1;
    FirstNonDigitAfterRun(a, c1, r1);
    FirstNonDigitAfterRun(b, c2, r2);
    assert a == s[..|a|] && b == s[..|b|];
    assert c1 == s[|a|] && c2 == s[|b|];
    assert r1 == s[|a| + 1..] && r2 == s[|b| + 1..];
  }

  lemma NatToStringInjective(x: nat, y: nat)
    requires NatToString(x) == NatToString(y)
    ensures x == y
  {
    ParseNatToString(x);
    ParseNatToString(y);
  }

  /** On natural numbers the rendering is `"<n div 60>h <n mod 60>m"`, or
      `"<n mod 60>m"` below an hour, with `hours * 60 + mins == n`. */
  lemma FormatTimeOfNat(n: nat)
    ensures var hours, mins := n / 60, n % 60;
      && hours * 60 + mins == n && mins < 60
      && FormatTime(n) == if hours > 0 then NatToString(hours) + ['h'] + (" " + NatToString(mins) + "m")
                          else NatToString(mins) + ['m'] + []
  {
    var hours, mins := n / 60, n % 60;
    if hours > 0 {
      assert NatToString(hours) + "h " + NatToString(mins) + "m" == NatToString(hours) + ['h'] + (" " + NatToString(mins) + "m");
    } else {
      assert NatToString(mins) + "m" == NatToString(mins) + ['m'] + [];
    }
  }

  /** No two natural numbers render the same: the text determines the number. */
  lemma FormatTimeInjective(a: nat, b: nat)
    requires FormatTime(a) == FormatTime(b)
    ensures a == b
  {
    FormatTimeOfNat(a);
    FormatTimeOfNat(b);
    var ha, ma, hb, mb := a / 60, a % 60, b / 60, b % 60;
    if ha > 0 && hb > 0 {
      DigitRunsAgree(NatToString(ha), 'h', " " + NatToString(ma) + "m", NatToString(hb), 'h', " " + NatToString(mb) + "m");
      var ra, rb := " " + NatToString(ma) + "m", " " + NatToString(mb) + "m";
      assert NatToString(ma) == ra[1..|ra| - 1] && NatToString(mb) == rb[1..|rb| - 1];
      NatToStringInjective(ha, hb);
      NatToStringInjective(ma, mb);
    } else if ha > 0 {
      DigitRunsAgree(NatToString(ha), 'h', " " + NatToString(ma) + "m", NatToString(mb), 'm', []);
      assert false;
    } else if hb > 0 {
      DigitRunsAgree(NatToString(ma), 'm', [], NatToString(hb), 'h', " " + NatToString(mb) + "m");
      assert false;
    } else {
      DigitRunsAgree(NatToString(ma), 'm', [], NatToString(mb), 'm', []);
      NatToStringInjective(ma, mb);
    }
  }

  /** Durations are stored in seconds; converting to minutes before
      `formatTime` shows them as hours and minutes. */
  function FormatSeconds(seconds: int): string {
    FormatTime(seconds / 60)
  }

  /** A duration of `s` seconds shows its whole hours and its leftover whole
      minutes: 1800 seconds read "30m", 5400 seconds "1h 30m". */
  lemma FormatSecondsShowsHoursAndMinutes(s: nat)
    ensures var hours, mins := s / 3600, s / 60 % 60;
      FormatSeconds(s) == if hours > 0 then NatToString(hours) + "h " + NatToString(mins) + "m" else NatToString(mins) + "m"
  {
    var m := s / 60;
    FormatTimeOfNat(m);
    assert m / 60 == s / 3600;
  }

  /** Two durations display alike exactly when they agree to the minute. */
  lemma FormatSecondsSameMinute(a: nat, b: nat)
    ensures FormatSeconds(a) == FormatSeconds(b) <==> a / 60 == b / 60
  {
    if FormatSeconds(a) == FormatSeconds(b) {
      FormatTimeInjective(a / 60, b / 60);
    }
  }

  /** `${x}` of an optional number: a missing field renders as "undefined". */
  function OptNum(o: Option<int>): string {
    match o
    case Some(n) => JsIntString(n)
    case None => "undefined"
  }

  /** `formatTime(x!)` of a missing field is `"NaNm"`. */
  function OptTime(o: Option<int>, format: int -> string): string {
    match o
    case Some(n) => format(n)
    case None => "NaNm"
  }

  function StrengthDetails(d: Data): string {
    OptNum(d.series) + " series - " + OptNum(d.repetitions) + " repeticiones - " + OptNum(d.weight) + " kg"
  }

  /** The card details as written: seconds handed to `formatTime`. */
  function DetailsAsWritten(a: ActivityData): string {
    if a.mode == FUERZA then StrengthDetails(a.data)
    else if a.mode == DURACION then OptTime(a.data.duration, FormatTime)
    else if a.mode == DISTANCIA then
      OptNum(a.data.distance) + " km - " + OptTime(a.data.time, FormatTime) + " - " + OptNum(a.data.ritmo) + " km/min"
    else "Sin detalles"
  }

  /** The card details with durations converted from seconds. */
  function Details(a: ActivityData): string {
    if a.mode == FUERZA then StrengthDetails(a.data)
    else if a.mode == DURACION then OptTime(a.data.duration, FormatSeconds)
    else if a.mode == DISTANCIA then
      OptNum(a.data.distance) + " km - " + OptTime(a.data.time, FormatSeconds) + " - " + OptNum(a.data.ritmo) + " km/min"
    else "Sin detalles"
  }

  /** The example yoga activity lasts 1800 seconds, half an hour: as written
      its card reads "30h 0m", with the conversion it reads "30m". */
  lemma HalfHourShownAsThirtyHours()
    ensures DetailsAsWritten(ActivityData("mock-activity-2", "Yoga", DURACION, NO_DATA.(duration := Some(1800)))) == "30h 0m"
    ensures Details(ActivityData("mock-activity-2", "Yoga", DURACION, NO_DATA.(duration := Some(1800)))) == "30m"
  {
    assert NatToString(30) == "30" by {
      assert NatToString(3) == "3";
      assert NatToString(0) == "0";
    }
    assert NatToString(0) == "0";
  }

  /** Only the three known modes keep their type; anything else becomes a
      duration card without details. */
  function ToActivity(date: int, a: ActivityData): (r: Activity)
    ensures r.id == a.id && r.nombre == a.name && r.fecha == date && r.detalles == Details(a)
    ensures a.mode in {FUERZA, DURACION, DISTANCIA} ==> TipoName(r.tipo) == a.mode
    ensures a.mode !in {FUERZA, DURACION, DISTANCIA} ==> r.tipo == Duracion && r.detalles == "Sin detalles"
  {
    var tipo := if a.mode == FUERZA then Fuerza else if a.mode == DISTANCIA then Distancia else Duracion;
    Activity(a.id, tipo, a.name, date, Details(a))
  }

  function MapSession(s: SessionWithActivities): seq<Activity> {
    seq(|s.activities|, j requires 0 <= j < |s.activities| => ToActivity(s.date, s.activities[j]))
  }

  /** `Array.prototype.flatMap`: the lists `f(x)` of the elements in order, concatenated. */
  function FlatMap<S, T>(xs: seq<S>, f: S -> seq<T>): seq<T> {
    if xs == [] then [] else f(xs[0]) + FlatMap(xs[1..], f)
  }

  /** Length of the lists of the first `k` elements. */
  function FlatOffset<S, T>(xs: seq<S>, f: S -> seq<T>, k: nat): nat
    requires k <= |xs|
  {
    if k == 0 then 0 else |f(xs[0])| + FlatOffset(xs[1..], f, k - 1)
  }

  /** Element `j` of the list of `xs[k]` sits right after the lists of the elements before it. */
  lemma {:induction false} FlatMapAt<S, T>(xs: seq<S>, f: S -> seq<T>, k: nat, j: nat)
    requires k < |xs| && j < |f(xs[k])|
    ensures FlatOffset(xs, f, k) + j < |FlatMap(xs, f)|
    ensures FlatMap(xs, f)[FlatOffset(xs, f, k) + j] == f(xs[k])[j]
  {
    if k > 0 {
      var rest := xs[1..];
      assert xs[k] == rest[k - 1];
      FlatMapAt(rest, f, k - 1, j);
    }
  }

  lemma {:induction false} FlatMapLength<S, T>(xs: seq<S>, f: S -> seq<T>)
    ensures |FlatMap(xs, f)| == FlatOffset(xs, f, |xs|)
  {
    if xs != [] {
      FlatMapLength(xs[1..], f);
    }
  }

  /** `sessions.flatMap(session => session.activities.map(...))`. */
  function MapSessionToActivities(sessions: seq<SessionWithActivities>): seq<Activity> {
    FlatMap(sessions, MapSession)
  }

  /** Number of activities in the first `k` sessions. */
  function Offset(sessions: seq<SessionWithActivities>, k: nat): nat
    requires k <= |sessions|
  {
    if k == 0 then 0 else |sessions[0].activities| + Offset(sessions[1..], k - 1)
  }

  lemma {:induction false} OffsetCountsCards(sessions: seq<SessionWithActivities>, k: nat)
    requires k <= |sessions|
    ensures FlatOffset(sessions, MapSession, k) == Offset(sessions, k)
  {
    if k > 0 {
      OffsetCountsCards(sessions[1..], k - 1);
    }
  }

  /** One card per activity, sessions in order and activities in order within each. */
  lemma MapSessionToActivitiesLayout(sessions: seq<SessionWithActivities>, k: nat, j: nat)
    requires k < |sessions| && j < |sessions[k].activities|
    ensures Offset(sessions, k) + j < |MapSessionToActivities(sessions)|
    ensures MapSessionToActivities(sessions)[Offset(sessions, k) + j] ==
      ToActivity(sessions[k].date, sessions[k].activities[j])
  {
    var s := sessions[k];
    OffsetCountsCards(sessions, k);
    FlatMapAt(sessions, MapSession, k, j);
    assert MapSessionToActivities(sessions)[Offset(sessions, k) + j] == MapSession(s)[j];
    assert MapSession(s)[j] == ToActivity(s.date, s.activities[j]);
  }

  /** No card is added or lost. */
  lemma MapSessionToActivitiesLength(sessions: seq<SessionWithActivities>)
    ensures |MapSessionToActivities(sessions)| == Offset(sessions, |sessions|)
  {
    FlatMapLength(sessions, MapSession);
    OffsetCountsCards(sessions, |sessions|);
  }

  /** The filter of `actividadesFiltradas`. */
  predicate Matches(filtro: string, busqueda: string, a: Activity) {
    && (filtro == "todos" || TipoName(a.tipo) == filtro)
    && (Contains(Lower(a.nombre), Lower(busqueda)) || Contains(Lower(a.detalles), Lower(busqueda)))
  }

  function FilterActivities(acts: seq<Activity>, filtro: string, busqueda: string): seq<Activity> {
    if acts == [] then []
    else
      var last := acts[|acts| - 1];
      FilterActivities(acts[..|acts| - 1], filtro, busqueda) + (if Matches(filtro, busqueda, last) then [last] else [])
  }

  /** The filter keeps each matching card as often as it occurs and drops the rest. */
  lemma {:induction false} FilterKeepsMatches(acts: seq<Activity>, filtro: string, busqueda: string, x: Activity)
    ensures multiset(FilterActivities(acts, filtro, busqueda))[x] ==
      if Matches(filtro, busqueda, x) then multiset(acts)[x] else 0
  {
    if acts != [] {
      assert acts == acts[..|acts| - 1] + [acts[|acts| - 1]];
      FilterKeepsMatches(acts[..|acts| - 1], filtro, busqueda, x);
    }
  }

  /** An empty search filters by type alone. */
  lemma EmptySearchFiltersByType(acts: seq<Activity>, filtro: string, x: Activity)
    ensures x in FilterActivities(acts, filtro, "") <==> x in acts && (filtro == "todos" || TipoName(x.tipo) == filtro)
  {
    assert Lower("") == "";
    EverythingContainsEmpty(Lower(x.nombre));
    FilterKeepsMatches(acts, filtro, "", x);
    assert x in FilterActivities(acts, filtro, "") <==> x in multiset(FilterActivities(acts, filtro, ""));
  }

  /** With "todos" and an empty search every card is shown, in order. */
  lemma {:induction false} EmptySearchKeepsAll(acts: seq<Activity>)
    ensures FilterActivities(acts, "todos", "") == acts
  {
    if acts != [] {
      var init, last := acts[..|acts| - 1], acts[|acts| - 1];
      EmptySearchKeepsAll(init);
      assert Lower("") == "";
      EverythingContainsEmpty(Lower(last.nombre));
      assert acts == init + [last];
    }
  }

  function CountTipo(acts: seq<Activity>, t: Tipo): nat {
    if acts == [] then 0
    else CountTipo(acts[..|acts| - 1], t) + (if acts[|acts| - 1].tipo == t then 1 else 0)
  }

  lemma {:induction false} CountsSumToTotal(acts: seq<Activity>)
    ensures CountTipo(acts, Fuerza) + CountTipo(acts, Duracion) + CountTipo(acts, Distancia) == |acts|
  {
    if acts != [] {
      CountsSumToTotal(acts[..|acts| - 1]);
    }
  }

  datatype Conteo = Conteo(total: nat, fuerza: nat, duracion: nat, distancia: nat)

  /** `conteoActividades`: every card has exactly one of the three types. */
  function ConteoActividades(acts: seq<Activity>): (c: Conteo)
    ensures c.total == |acts|
    ensures c.fuerza + c.duracion + c.distancia == c.total
  {
    CountsSumToTotal(acts);
    Conteo(|acts|, CountTipo(acts, Fuerza), CountTipo(acts, Duracion), CountTipo(acts, Distancia))
  }

  /** The cards of one day, in list order. */
  function OnDate(acts: seq<Activity>, d: int): seq<Activity> {
    if acts == [] then []
    else
      var last := acts[|acts| - 1];
      OnDate(acts[..|acts| - 1], d) + (if last.fecha == d then [last] else [])
  }

  /** The days in order of first appearance: the key order of `actividadesPorFecha`. */
  function DateKeys(acts: seq<Activity>): seq<int> {
    if acts == [] then []
    else
      var keys := DateKeys(acts[..|acts| - 1]);
      var d := acts[|acts| - 1].fecha;
      if d in keys then keys else keys + [d]
  }

  function Buckets(acts: seq<Activity>): map<int, seq<Activity>> {
    map d | d in DateKeys(acts) :: OnDate(acts, d)
  }

  /** Each card lands in the bucket of its own day, once per occurrence. */
  lemma {:induction false} OnDateCounts(acts: seq<Activity>, d: int, x: Activity)
    ensures multiset(OnDate(acts, d))[x] == if x.fecha == d then multiset(acts)[x] else 0
  {
    if acts != [] {
      assert acts == acts[..|acts| - 1] + [acts[|acts| - 1]];
      OnDateCounts(acts[..|acts| - 1], d, x);
    }
  }

  /** Every day with a card is a key exactly once, and no other day is. */
  lemma {:induction false} DateKeysCount(acts: seq<Activity>, d: int)
    ensures multiset(DateKeys(acts))[d] == if OnDate(acts, d) == [] then 0 else 1
  {
    if acts != [] {
      DateKeysCount(acts[..|acts| - 1], d);
    }
  }

  /** One more card extends its day's bucket, or opens a bucket after the others. */
  lemma GroupingStep(prefix: seq<Activity>, x: Activity)
    ensures DateKeys(prefix + [x]) ==
      if x.fecha in Buckets(prefix) then DateKeys(prefix) else DateKeys(prefix) + [x.fecha]
    ensures Buckets(prefix + [x]) ==
      Buckets(prefix)[x.fecha := (if x.fecha in Buckets(prefix) then Buckets(prefix)[x.fecha] else []) + [x]]
  {
    var next := prefix + [x];
    assert next[..|prefix|] == prefix;
    DateKeysCount(prefix, x.fecha);
    var expected := Buckets(prefix)[x.fecha := (if x.fecha in Buckets(prefix) then Buckets(prefix)[x.fecha] else []) + [x]];
    forall d | d in expected ensures d in Buckets(next) && expected[d] == Buckets(next)[d] {
      assert OnDate(next, d) == OnDate(prefix, d) + (if d == x.fecha then [x] else []);
    }
    assert expected.Keys == Buckets(next).Keys;
  }

  /** `GroupingStep` at position `i` of a list. */
  lemma GroupingStepAt(acts: seq<Activity>, i: nat)
    requires i < |acts|
    ensures var x, prefix := acts[i], acts[..i];
      DateKeys(acts[..i + 1]) ==
        if x.fecha in Buckets(prefix) then DateKeys(prefix) else DateKeys(prefix) + [x.fecha]
    ensures var x, prefix := acts[i], acts[..i];
      Buckets(acts[..i + 1]) ==
        Buckets(prefix)[x.fecha := (if x.fecha in Buckets(prefix) then Buckets(prefix)[x.fecha] else []) + [x]]
  {
    assert acts[..i + 1] == acts[..i] + [acts[i]];
    GroupingStep(acts[..i], acts[i]);
  }

  /** `actividadesPorFecha`: the reduce that pushes each card into the bucket
      of its day, creating the bucket on first sight. */
  method GroupByDate(acts: seq<Activity>) returns (keys: seq<int>, buckets: map<int, seq<Activity>>)
    ensures keys == DateKeys(acts)
    ensures buckets == Buckets(acts)
  {
    keys, buckets := [], map[];
    for i := 0 to |acts|
      invariant keys == DateKeys(acts[..i])
      invariant buckets == Buckets(acts[..i])
    {
      var actividad := acts[i];
      var fecha := actividad.fecha;
      GroupingStepAt(acts, i);
      ghost var expected := buckets[fecha := (if fecha in buckets then buckets[fecha] else []) + [actividad]];
      if fecha !in buckets {
        buckets := buckets[fecha := []];
        keys := keys + [fecha];
      }
      buckets := buckets[fecha := buckets[fecha] + [actividad]];
      assert buckets == expected;
    }
    assert acts[..|acts|] == acts;
  }

  /** Total size of the buckets of the days `keys`. */
  function SizesOn(acts: seq<Activity>, keys: seq<int>): nat {
    if keys == [] then 0 else SizesOn(acts, keys[..|keys| - 1]) + |OnDate(acts, keys[|keys| - 1])|
  }

  lemma {:induction false} SizesOnAppend(acts: seq<Activity>, x: Activity, keys: seq<int>)
    ensures SizesOn(acts + [x], keys) == SizesOn(acts, keys) + multiset(keys)[x.fecha]
  {
    assert (acts + [x])[..|acts|] == acts;
    if keys != [] {
      assert keys == keys[..|keys| - 1] + [keys[|keys| - 1]];
      SizesOnAppend(acts, x, keys[..|keys| - 1]);
    }
  }

  /** The bucket sizes add up to the number of cards. */
  lemma {:induction false} BucketSizesSumToTotal(acts: seq<Activity>)
    ensures SizesOn(acts, DateKeys(acts)) == |acts|
  {
    if acts != [] {
      var init, x := acts[..|acts| - 1], acts[|acts| - 1];
      assert acts == init + [x];
      BucketSizesSumToTotal(init);
      DateKeysCount(init, x.fecha);
      SizesOnAppend(init, x, DateKeys(init));
      if x.fecha !in DateKeys(init) {
        assert OnDate(init, x.fecha) == [];
        var keys := DateKeys(init) + [x.fecha];
        assert keys[..|keys| - 1] == DateKeys(init);
      }
    }
  }

  /** One row of `chartData`. */
  datatype ChartRow = ChartRow(fecha: int, total: nat, fuerza: nat, duracion: nat, distancia: nat)

  function RowOf(fecha: int, acts: seq<Activity>): (r: ChartRow)
    ensures r.fecha == fecha && r.total == |acts|
    ensures r.fuerza + r.duracion + r.distancia == r.total
  {
    CountsSumToTotal(acts);
    ChartRow(fecha, |acts|, CountTipo(acts, Fuerza), CountTipo(acts, Duracion), CountTipo(acts, Distancia))
  }

  function RowDate(r: ChartRow): int {
    r.fecha
  }

  function Rows(keys: seq<int>, buckets: map<int, seq<Activity>>): seq<ChartRow>
    requires forall k :: k in keys ==> k in buckets
  {
    seq(|keys|, i requires 0 <= i < |keys| => RowOf(keys[i], buckets[keys[i]]))
  }

  /** `Object.entries(actividadesPorFecha).map(...).sort(...)`: one row per
      bucket, ascending by day. */
  function ChartData(keys: seq<int>, buckets: map<int, seq<Activity>>): (rows: seq<ChartRow>)
    requires forall k :: k in keys ==> k in buckets
    ensures SortedBy(rows, RowDate)
    ensures multiset(rows) == multiset(Rows(keys, buckets))
  {
    SortBy(Rows(keys, buckets), RowDate)
  }

  /** On the grouping of the cards, the chart has one row per day, each row
      counting exactly that day's cards, split by type. */
  lemma ChartDataOfGrouping(acts: seq<Activity>)
    ensures var rows := ChartData(DateKeys(acts), Buckets(acts));
      && |rows| == |DateKeys(acts)|
      && (forall r :: r in rows ==> r == RowOf(r.fecha, OnDate(acts, r.fecha)) && OnDate(acts, r.fecha) != [])
      && (forall d :: d in DateKeys(acts) ==> RowOf(d, OnDate(acts, d)) in rows)
  {
    var keys, buckets := DateKeys(acts), Buckets(acts);
    var unsorted := Rows(keys, buckets);
    var rows := ChartData(keys, buckets);
    assert |rows| == |multiset(rows)| == |multiset(unsorted)| == |unsorted|;
    forall r | r in rows ensures r == RowOf(r.fecha, OnDate(acts, r.fecha)) && OnDate(acts, r.fecha) != [] {
      assert r in multiset(unsorted);
      var i :| 0 <= i < |unsorted| && unsorted[i] == r;
      DateKeysCount(acts, keys[i]);
    }
    forall d | d in keys ensures RowOf(d, OnDate(acts, d)) in rows {
      var i :| 0 <= i < |keys| && keys[i] == d;
      assert unsorted[i] in multiset(rows);
    }
  }
}
