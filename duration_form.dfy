/** The duration form of app/dashboard/registrar-actividades/registrar-duracion/page.tsx:
    three time fields with their acceptance rules, the carry-normalising
    `addTime`, and the submit that stores the total in seconds. */
module RegistrarDuracion {
  import opened Common
  import opened Schema
  import opened Store
  import opened Browser

  const INVALID_TIME: string := "Por favor ingresa un tiempo válido"

  /** What `Number.parseInt` makes of the typed text, with "" kept apart. */
  datatype Input = Blank | Number(n: int) | NotANumber

  /** A field's state: "" or a number. */
  datatype Field = Empty | Value(n: int) {
    /** `field === "" ? 0 : parseInt(field)` */
    function Count(): int {
      if Empty? then 0 else n
    }
  }

  predicate AcceptsHours(input: Input) {
    input.Blank? || (input.Number? && input.n >= 0)
  }

  predicate AcceptsMinutesOrSeconds(input: Input) {
    input.Blank? || (input.Number? && 0 <= input.n <= 59)
  }

  function Stored(input: Input): Field
    requires !input.NotANumber?
  {
    if input.Blank? then Empty else Value(input.n)
  }

  function ConvertToSeconds(h: Field, m: Field, s: Field): int {
    h.Count() * 3600 + m.Count() * 60 + s.Count()
  }

  /** The one way to show `total` seconds with minutes and seconds below 60. */
  function Canonical(total: nat): (Field, Field, Field) {
    (Value(total / 3600), Value(total % 3600 / 60), Value(total % 60))
  }

  /** Canonical fields add back up to the total. */
  lemma CanonicalAddsUp(total: nat)
    ensures var (h, m, s) := Canonical(total); ConvertToSeconds(h, m, s) == total
  {
    var r := total % 3600;
    assert total == total / 3600 * 3600 + r;
    assert r == r / 60 * 60 + r % 60;
    assert r % 60 == total % 60 by {
      assert total == (total / 3600 * 60) * 60 + r;
      ModOfMultiplePlus(total / 3600 * 60, r);
    }
  }

  lemma ModOfMultiplePlus(q: nat, r: nat)
    ensures (q * 60 + r) % 60 == r % 60
  {
    var x := q * 60 + r;
    assert x == (q + r / 60) * 60 + r % 60;
  }

  /** Fields with minutes and seconds below 60 are the canonical ones for their total. */
  lemma CanonicalIsUnique(h: nat, m: nat, s: nat)
    requires m < 60 && s < 60
    ensures Canonical(h * 3600 + m * 60 + s) == (Value(h), Value(m), Value(s))
  {
    var total := h * 3600 + m * 60 + s;
    var r := m * 60 + s;
    assert r < 3600;
    assert total == h * 3600 + r;
    assert total / 3600 == h && total % 3600 == r;
    assert r / 60 == m && r % 60 == s;
    ModOfMultiplePlus(h * 60 + m, s);
    assert total == (h * 60 + m) * 60 + s;
  }

  class DurationForm {
    const activityId: string
    const sessionId: string
    const activityName: string
    var horas: Field
    var minutos: Field
    var segundos: Field
    var error: string
    var success: bool
    var isLoading: bool
    var showSuccessState: bool

    /** Fields as the change handlers admit them. */
    ghost predicate Valid()
      reads this
    {
      && (horas.Empty? || horas.n >= 0)
      && (minutos.Empty? || 0 <= minutos.n <= 59)
      && (segundos.Empty? || 0 <= segundos.n <= 59)
    }

    function Total(): int
      reads this
    {
      ConvertToSeconds(horas, minutos, segundos)
    }

    constructor (params: SearchParams)
      ensures activityId == OrDefault(params.activityId, "") && sessionId == OrDefault(params.sessionId, "")
      ensures activityName == OrDefault(params.name, "Actividad")
      ensures horas == Empty && minutos == Empty && segundos == Empty
      ensures error == "" && !success && !isLoading && !showSuccessState
      ensures Valid() && Total() == 0
    {
      activityId := OrDefault(params.activityId, "");
      sessionId := OrDefault(params.sessionId, "");
      activityName := OrDefault(params.name, "Actividad");
      horas, minutos, segundos := Empty, Empty, Empty;
      error, success, isLoading, showSuccessState := "", false, false, false;
    }

    function RedirectTarget(): Option<Route> {
      MissingParamsRedirect(activityId, sessionId)
    }

    method HandleHorasChange(value: Input)
      modifies this`horas
      ensures horas == if AcceptsHours(value) then Stored(value) else old(horas)
      ensures old(Valid()) ==> Valid()
    {
      if value.Blank? || (value.Number? && value.n >= 0) {
        horas := Stored(value);
      }
    }

    method HandleMinutosChange(value: Input)
      modifies this`minutos
      ensures minutos == if AcceptsMinutesOrSeconds(value) then Stored(value) else old(minutos)
      ensures old(Valid()) ==> Valid()
    {
      if value.Blank? || (value.Number? && value.n >= 0 && value.n <= 59) {
        minutos := Stored(value);
      }
    }

    method HandleSegundosChange(value: Input)
      modifies this`segundos
      ensures segundos == if AcceptsMinutesOrSeconds(value) then Stored(value) else old(segundos)
      ensures old(Valid()) ==> Valid()
    {
      if value.Blank? || (value.Number? && value.n >= 0 && value.n <= 59) {
        segundos := Stored(value);
      }
    }

    /** Adds to the fields, carrying whole minutes out of the seconds and
        whole hours out of the minutes. */
    method AddTime(horasToAdd: int, minutosToAdd: int, segundosToAdd: int)
      modifies this`horas, this`minutos, this`segundos
      ensures Total() == old(Total()) + 3600 * horasToAdd + 60 * minutosToAdd + segundosToAdd
      ensures old(Valid()) && horasToAdd >= 0 && minutosToAdd >= 0 && segundosToAdd >= 0 ==>
        Valid() && Total() >= 0 && (horas, minutos, segundos) == Canonical(Total())
    {
      var currentHoras := horas.Count();
      var currentMinutos := minutos.Count();
      var currentSegundos := segundos.Count();

      var newSegundos := currentSegundos + segundosToAdd;
      var newMinutos := currentMinutos + minutosToAdd;
      var newHoras := currentHoras + horasToAdd;

      if newSegundos > 59 {
        newMinutos := newMinutos + newSegundos / 60;
        newSegundos := newSegundos % 60;
      }
      if newMinutos > 59 {
        newHoras := newHoras + newMinutos / 60;
        newMinutos := newMinutos % 60;
      }

      horas, minutos, segundos := Value(newHoras), Value(newMinutos), Value(newSegundos);
      if old(Valid()) && horasToAdd >= 0 && minutosToAdd >= 0 && segundosToAdd >= 0 {
        CanonicalIsUnique(newHoras, newMinutos, newSegundos);
      }
    }

    method Add5Minutes()
      modifies this`horas, this`minutos, this`segundos
      ensures Total() == old(Total()) + 300
      ensures old(Valid()) ==> Valid()
    {
      AddTime(0, 5, 0);
    }

    method Add10Minutes()
      modifies this`horas, this`minutos, this`segundos
      ensures Total() == old(Total()) + 600
      ensures old(Valid()) ==> Valid()
    {
      AddTime(0, 10, 0);
    }

    method Add30Minutes()
      modifies this`horas, this`minutos, this`segundos
      ensures Total() == old(Total()) + 1800
      ensures old(Valid()) ==> Valid()
    {
      AddTime(0, 30, 0);
    }

    method Add1Hour()
      modifies this`horas, this`minutos, this`segundos
      ensures Total() == old(Total()) + 3600
      ensures old(Valid()) ==> Valid()
    {
      AddTime(1, 0, 0);
    }

    method HandleReset()
      modifies this`horas, this`minutos, this`segundos
      ensures horas == Empty && minutos == Empty && segundos == Empty
      ensures Valid() && Total() == 0
    {
      horas, minutos, segundos := Empty, Empty, Empty;
    }

    /** A total of zero is refused before any request; otherwise the total is
        sent to persistDurationActivity (`transportFails`: the call throws
        before reaching the server) and, once saved, recorded in the
        completion map before returning to the wizard. */
    method HandleSubmit(db: Database, ctx: Context, storage: Storage, transportFails: bool) returns (next: Option<Route>)
      modifies this`success, this`error, this`isLoading, this`showSuccessState
      modifies db`duracion, db`nextId, storage`registeredActivities
      ensures var total := old(Total());
        var called := total != 0 && !transportFails;
        var saved := called && (ctx.DevWithoutDb() || (ctx.user.Some? && Completes(ctx.failAt, 1)));
        && success == saved
        && showSuccessState == (saved || old(showSuccessState))
        && (saved ==> next == Some(Flow) && error == "" && isLoading)
        && (!saved ==> next == None && !isLoading)
        && (total == 0 ==> error == INVALID_TIME)
        && (total != 0 && transportFails ==> error == SAVE_FAILED)
        && (called && !saved ==>
              error == SAVE_FAILED_PREFIX + if ctx.user.None? then NOT_AUTHENTICATED else PERSIST_DURATION_FAILED)
        && storage.registeredActivities ==
             (if saved then Some(old(storage.Completed())[activityId := DurationEntry(activityName, total)])
              else old(storage.registeredActivities))
        && db.duracion == old(db.duracion) +
             (if saved && !ctx.DevWithoutDb() then [DurationRow(FreshId(old(db.nextId)), activityId, total)] else [])
        && db.nextId == old(db.nextId) + (if called && !ctx.DevWithoutDb() && ctx.user.Some? then 1 else 0)
    {
      success := false;
      error := "";
      isLoading := true;

      var totalSeconds := ConvertToSeconds(horas, minutos, segundos);
      if totalSeconds == 0 {
        error := INVALID_TIME;
        isLoading := false;
        return None;
      }
      if transportFails {
        error := SAVE_FAILED;
        isLoading := false;
        return None;
      }

      var result := db.PersistDurationActivity(ctx, DurationActivity("", activityId, totalSeconds));
      if result.Ok? {
        success := true;
        showSuccessState := true;
        storage.Record(activityId, DurationEntry(activityName, totalSeconds));
        next := Some(Flow);
      } else {
        error := SAVE_FAILED_PREFIX + result.error;
        isLoading := false;
        next := None;
      }
    }
  }
}
