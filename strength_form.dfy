/** The strength form of app/dashboard/registrar-actividades/registrar-fuerza/page.tsx:
    three text fields that must all be filled, a submit that persists them
    and records them in the completion map, and a reset. */
module RegistrarFuerza {
  import opened Common
  import opened Schema
  import opened Store
  import opened Browser

  const MISSING_FIELDS: string := "Por favor completa todos los campos."

  /** A text field: "" or text whose parse is `value`. */
  datatype TextField = Blank | Typed(value: int)

  class StrengthForm {
    const activityId: string
    const sessionId: string
    const activityName: string
    var series: TextField
    var repeticiones: TextField
    var peso: TextField
    var success: bool
    var error: string
    var isLoading: bool
    var showSuccessState: bool

    constructor (params: SearchParams)
      ensures activityId == OrDefault(params.activityId, "") && sessionId == OrDefault(params.sessionId, "")
      ensures activityName == OrDefault(params.name, "Actividad")
      ensures series == Blank && repeticiones == Blank && peso == Blank
      ensures !success && error == "" && !isLoading && !showSuccessState
    {
      activityId := OrDefault(params.activityId, "");
      sessionId := OrDefault(params.sessionId, "");
      activityName := OrDefault(params.name, "Actividad");
      series, repeticiones, peso := Blank, Blank, Blank;
      success, error, isLoading, showSuccessState := false, "", false, false;
    }

    function RedirectTarget(): Option<Route> {
      MissingParamsRedirect(activityId, sessionId)
    }

    predicate Complete()
      reads this
    {
      series.Typed? && repeticiones.Typed? && peso.Typed?
    }

    /** An incomplete form is refused before any request; otherwise the parsed
        values go to persistStrenghActivity under the URL's activity id and,
        once saved, into the completion map. */
    method HandleSubmit(db: Database, ctx: Context, storage: Storage, transportFails: bool) returns (next: Option<Route>)
      modifies this`success, this`error, this`isLoading, this`showSuccessState
      modifies db`fuerza, db`nextId, storage`registeredActivities
      ensures series == old(series) && repeticiones == old(repeticiones) && peso == old(peso)
      ensures var called := Complete() && !transportFails;
        var saved := called && (ctx.DevWithoutDb() || (ctx.user.Some? && Completes(ctx.failAt, 1)));
        && success == saved
        && showSuccessState == (saved || old(showSuccessState))
        && (saved ==> next == Some(Flow) && error == "" && isLoading)
        && (!saved ==> next == None && !isLoading)
        && (!Complete() ==> error == MISSING_FIELDS)
        && (Complete() && transportFails ==> error == SAVE_FAILED)
        && (called && !saved ==>
              error == SAVE_FAILED_PREFIX + if ctx.user.None? then NOT_AUTHENTICATED else PERSIST_STRENGTH_FAILED)
        && storage.registeredActivities ==
             (if saved then Some(old(storage.Completed())[activityId :=
                StrengthEntry(activityName, series.value, repeticiones.value, peso.value)])
              else old(storage.registeredActivities))
        && db.fuerza == old(db.fuerza) +
             (if saved && !ctx.DevWithoutDb() then
                [StrengthRow(FreshId(old(db.nextId)), activityId, series.value, repeticiones.value, peso.value)]
              else [])
        && db.nextId == old(db.nextId) + (if called && !ctx.DevWithoutDb() && ctx.user.Some? then 1 else 0)
    {
      success := false;
      error := "";
      isLoading := true;

      if series.Blank? || repeticiones.Blank? || peso.Blank? {
        error := MISSING_FIELDS;
        isLoading := false;
        return None;
      }
      if transportFails {
        error := SAVE_FAILED;
        isLoading := false;
        return None;
      }

      var result := db.PersistStrengthActivity(ctx,
        StrengthActivity("", activityId, series.value, repeticiones.value, peso.value));
      if result.Ok? {
        success := true;
        showSuccessState := true;
        storage.Record(activityId, StrengthEntry(activityName, series.value, repeticiones.value, peso.value));
        next := Some(Flow);
      } else {
        error := SAVE_FAILED_PREFIX + result.error;
        isLoading := false;
        next := None;
      }
    }

    method HandleReset()
      modifies this`series, this`repeticiones, this`peso, this`success, this`error
      ensures series == Blank && repeticiones == Blank && peso == Blank
      ensures !success && error == "" && !Complete()
    {
      series := Blank;
      repeticiones := Blank;
      peso := Blank;
      success := false;
      error := "";
    }
  }
}
