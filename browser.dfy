/** The browser state the registration wizard shares between its pages:
    the two sessionStorage keys, the localStorage completion map, the URL
    query of the form pages and the routes the pages navigate to. */
module Browser {
  import opened Common
  import opened Sports

  const SAVE_FAILED: string := "Error al guardar el registro"
  const SAVE_FAILED_PREFIX: string := "Error al guardar el registro: "

  /** A value of the completion map `registeredActivities`. */
  datatype Entry =
    | StrengthEntry(name: string, series: int, repetitions: int, weight: int)
    | DurationEntry(name: string, duration: int)
  {
    /** The `type` field of the stored object. */
    function Type(): string {
      if StrengthEntry? then "strength" else "duration"
    }
  }

  /** The text held under "selectedActivities": the empty string, a JSON
      array of activities, or text that does not parse. */
  datatype StoredList = EmptyText | Wellformed(activities: seq<SelectedActivity>) | Malformed

  datatype Route =
    | SportSelection                                          // /dashboard/registrar-actividades
    | Flow                                                    // .../flujo-registro
    | Dashboard                                               // /dashboard
    | StrengthForm(activityId: string, sessionId: string, name: string)
    | DurationForm(activityId: string, sessionId: string, name: string)
    | DistanceForm(activityId: string, sessionId: string, name: string)

  /** `searchParams.get(...)`: absent parameters are `None`. */
  datatype SearchParams = SearchParams(activityId: Option<string>, sessionId: Option<string>, name: Option<string>)

  /** `value || fallback`: a missing or empty parameter takes the fallback. */
  function OrDefault(value: Option<string>, fallback: string): (r: string)
    ensures r == fallback || (value == Some(r) && r != "")
    ensures value.Some? && value.value != "" ==> r == value.value
  {
    if value.None? || value.value == "" then fallback else value.value
  }

  /** The redirect effect of both form pages. */
  function MissingParamsRedirect(activityId: string, sessionId: string): (r: Option<Route>)
    ensures r.Some? <==> activityId == "" || sessionId == ""
    ensures r.Some? ==> r.value == SportSelection
  {
    if activityId == "" || sessionId == "" then Some(SportSelection) else None
  }

  class Storage {
    /** sessionStorage "currentSessionId" */
    var currentSessionId: Option<string>
    /** sessionStorage "selectedActivities" */
    var selectedActivities: Option<StoredList>
    /** localStorage "registeredActivities" */
    var registeredActivities: Option<map<string, Entry>>

    constructor (sessionId: Option<string>, selected: Option<StoredList>, registered: Option<map<string, Entry>>)
      ensures currentSessionId == sessionId && selectedActivities == selected && registeredActivities == registered
    {
      currentSessionId, selectedActivities, registeredActivities := sessionId, selected, registered;
    }

    /** `JSON.parse(localStorage.getItem("registeredActivities") || "{}")`. */
    function Completed(): map<string, Entry>
      reads this
    {
      registeredActivities.GetOr(map[])
    }

    /** Read the map, set one key, write the map back. */
    method Record(activityId: string, entry: Entry)
      modifies this`registeredActivities
      ensures registeredActivities == Some(old(Completed())[activityId := entry])
      ensures Completed()[activityId] == entry
      ensures forall id :: id != activityId ==> (id in Completed() <==> id in old(Completed()))
      ensures forall id :: id != activityId && id in old(Completed()) ==> Completed()[id] == old(Completed())[id]
    {
      var parsedData := Completed();
      parsedData := parsedData[activityId := entry];
      registeredActivities := Some(parsedData);
    }
  }
}
