/** The registration wizard of app/dashboard/registrar-actividades/flujo-registro/page.tsx:
    the visit order of the selected activities, the effect that skips
    completed ones, and the finish, cancel, skip and continue actions with
    their storage effects and destinations. */
module FlujoRegistro {
  import opened Common
  import opened Schema
  import opened Sports
  import opened Store
  import opened Browser

  const LOAD_FAILED: string := "Error al cargar los datos de la sesión. Por favor, inténtalo de nuevo."
  const UNKNOWN_TYPE: string := "Tipo de actividad no reconocido"
  const CANCEL_FAILED: string := "Error al cancelar el registro"
  const CANCEL_FAILED_PREFIX: string := "Error al cancelar el registro: "

  const STRENGTH: string := "strength"
  const DURATION: string := "duration"
  const DISTANCE: string := "distance"

  function CategoryOf(a: SelectedActivity): string {
    a.category.id
  }

  predicate Known(categoryId: string) {
    categoryId == STRENGTH || categoryId == DURATION || categoryId == DISTANCE
  }

  /** Position of a category's group in the visit order. */
  function Rank(a: SelectedActivity): nat {
    if CategoryOf(a) == STRENGTH then 0 else if CategoryOf(a) == DURATION then 1 else 2
  }

  /** `allActivitiesInOrder`: the three category filters, concatenated. */
  function OrderForRegistration(acts: seq<SelectedActivity>): seq<SelectedActivity> {
    Where(acts, CategoryOf, STRENGTH) + Where(acts, CategoryOf, DURATION) + Where(acts, CategoryOf, DISTANCE)
  }

  lemma {:induction false} WhereOfWhere<T>(rows: seq<T>, key: T -> Id, c: Id, d: Id)
    ensures Where(Where(rows, key, c), key, d) == if c == d then Where(rows, key, c) else []
  {
    if rows != [] {
      var init, last := rows[..|rows| - 1], rows[|rows| - 1];
      WhereOfWhere(init, key, c, d);
      var tail := if key(last) == c then [last] else [];
      WhereAppend(Where(init, key, c), tail, key, d);
      assert Where(tail, key, d) == (if key(last) == c && key(last) == d then [last] else []) by {
        if tail != [] {
          assert tail[..0] == [];
        }
      }
    }
  }

  lemma RankAt(acts: seq<SelectedActivity>, i: nat)
    requires i < |OrderForRegistration(acts)|
    ensures var s, d := Where(acts, CategoryOf, STRENGTH), Where(acts, CategoryOf, DURATION);
      Rank(OrderForRegistration(acts)[i]) == if i < |s| then 0 else if i < |s| + |d| then 1 else 2
  {
    var s, d, x := Where(acts, CategoryOf, STRENGTH), Where(acts, CategoryOf, DURATION), Where(acts, CategoryOf, DISTANCE);
    var order := OrderForRegistration(acts);
    if i < |s| {
      assert order[i] == s[i];
      WhereCounts(acts, CategoryOf, STRENGTH, s[i]);
    } else if i < |s| + |d| {
      assert order[i] == d[i - |s|];
      WhereCounts(acts, CategoryOf, DURATION, d[i - |s|]);
    } else {
      assert order[i] == x[i - |s| - |d|];
      WhereCounts(acts, CategoryOf, DISTANCE, x[i - |s| - |d|]);
    }
  }

  /** Every stored activity of a known category is visited, as often as it is
      stored; activities of any other category are dropped. */
  lemma OrderKeepsKnownActivities(acts: seq<SelectedActivity>, a: SelectedActivity)
    ensures multiset(OrderForRegistration(acts))[a] == if Known(CategoryOf(a)) then multiset(acts)[a] else 0
  {
    WhereCounts(acts, CategoryOf, STRENGTH, a);
    WhereCounts(acts, CategoryOf, DURATION, a);
    WhereCounts(acts, CategoryOf, DISTANCE, a);
  }

  /** Strength first, then duration, then distance. */
  lemma OrderIsGroupedByCategory(acts: seq<SelectedActivity>)
    ensures var order := OrderForRegistration(acts);
      forall i, j :: 0 <= i < j < |order| ==> Rank(order[i]) <= Rank(order[j])
  {
    var order := OrderForRegistration(acts);
    forall i, j | 0 <= i < j < |order| ensures Rank(order[i]) <= Rank(order[j]) {
      RankAt(acts, i);
      RankAt(acts, j);
    }
  }

  /** Inside each category's group the stored order is kept. */
  lemma OrderKeepsOrderWithinCategory(acts: seq<SelectedActivity>, c: string)
    requires Known(c)
    ensures Where(OrderForRegistration(acts), CategoryOf, c) == Where(acts, CategoryOf, c)
  {
    var s, d, x := Where(acts, CategoryOf, STRENGTH), Where(acts, CategoryOf, DURATION), Where(acts, CategoryOf, DISTANCE);
    WhereAppend(s + d, x, CategoryOf, c);
    WhereAppend(s, d, CategoryOf, c);
    WhereOfWhere(acts, CategoryOf, STRENGTH, c);
    WhereOfWhere(acts, CategoryOf, DURATION, c);
    WhereOfWhere(acts, CategoryOf, DISTANCE, c);
  }

  /** Every visited activity has a known category, so the wizard never meets
      the "unrecognised type" case. */
  lemma OrderHasOnlyKnownCategories(acts: seq<SelectedActivity>, i: nat)
    requires i < |OrderForRegistration(acts)|
    ensures Known(CategoryOf(OrderForRegistration(acts)[i]))
  {
    RankAt(acts, i);
    var a := OrderForRegistration(acts)[i];
    assert a in multiset(OrderForRegistration(acts));
    OrderKeepsKnownActivities(acts, a);
  }

  predicate IsActivityCompleted(completed: map<string, Entry>, activityId: string) {
    activityId in completed
  }

  predicate AllCompleted(order: seq<SelectedActivity>, completed: map<string, Entry>) {
    forall i :: 0 <= i < |order| ==> IsActivityCompleted(completed, order[i].id)
  }

  /** What the advance effect does: nothing, move the index, or finish. */
  datatype Advance = Stay | MoveTo(index: nat) | Finish

  /** The advance effect's decision: leave an incomplete current activity
      alone; from a completed one, jump to the nearest later incomplete
      activity; with none left, finish only if every activity is completed. */
  ghost predicate StepFits(order: seq<SelectedActivity>, completed: map<string, Entry>, current: nat, step: Advance)
    requires current < |order|
  {
    && (!IsActivityCompleted(completed, order[current].id) ==> step == Stay)
    && (step.MoveTo? <==>
          IsActivityCompleted(completed, order[current].id)
          && exists j :: current < j < |order| && !IsActivityCompleted(completed, order[j].id))
    && (step.MoveTo? ==>
          && current < step.index < |order|
          && !IsActivityCompleted(completed, order[step.index].id)
          && forall j :: current < j < step.index ==> IsActivityCompleted(completed, order[j].id))
    && (step == Finish <==> AllCompleted(order, completed))
  }

  /** The `for` loop of the advance effect and the `every` test after it. */
  method NextStep(order: seq<SelectedActivity>, completed: map<string, Entry>, current: nat) returns (step: Advance)
    requires current < |order|
    ensures StepFits(order, completed, current, step)
  {
    if !IsActivityCompleted(completed, order[current].id) {
      return Stay;
    }
    for i := current + 1 to |order|
      invariant forall j :: current < j < i ==> IsActivityCompleted(completed, order[j].id)
    {
      if !IsActivityCompleted(completed, order[i].id) {
        return MoveTo(i);
      }
    }
    var every := forall k :: 0 <= k < |order| ==> IsActivityCompleted(completed, order[k].id);
    if every {
      return Finish;
    }
    return Stay;
  }

  /** An activity skipped earlier keeps the wizard from finishing on its own,
      even when the current and every later activity are completed. */
  lemma SkippedActivityBlocksFinish(order: seq<SelectedActivity>, completed: map<string, Entry>, current: nat, skipped: nat, step: Advance)
    requires skipped < current < |order|
    requires !IsActivityCompleted(completed, order[skipped].id)
    requires forall j :: current <= j < |order| ==> IsActivityCompleted(completed, order[j].id)
    requires StepFits(order, completed, current, step)
    ensures step == Stay
  {
    assert !AllCompleted(order, completed);
  }

  /** Clears the two sessionStorage keys and the completion map. */
  method FinishRegistration(storage: Storage) returns (next: Route)
    modifies storage
    ensures storage.currentSessionId == None && storage.selectedActivities == None
    ensures storage.registeredActivities == None && storage.Completed() == map[]
    ensures next == Dashboard
  {
    storage.currentSessionId := None;
    storage.selectedActivities := None;
    storage.registeredActivities := None;
    next := Dashboard;
  }

  class RegistrationFlow {
    var isLoading: bool
    var sessionId: string
    var selectedActivities: seq<SelectedActivity>
    var currentActivityIndex: nat
    var error: string

    function Order(): seq<SelectedActivity>
      reads this
    {
      OrderForRegistration(selectedActivities)
    }

    /** The index points at an activity whenever there is one. */
    ghost predicate Valid()
      reads this
    {
      |Order()| == 0 || currentActivityIndex < |Order()|
    }

    function CurrentActivity(): Option<SelectedActivity>
      reads this
    {
      if currentActivityIndex < |Order()| then Some(Order()[currentActivityIndex]) else None
    }

    constructor ()
      ensures isLoading && sessionId == "" && selectedActivities == [] && currentActivityIndex == 0 && error == ""
      ensures Valid()
    {
      isLoading, sessionId, selectedActivities, currentActivityIndex, error := true, "", [], 0, "";
    }

    /** The mount effect: a session id or a selection that is absent or the
        empty string (both falsy) sends back to sport selection; an unparsable
        selection keeps the session id just set and reports the error. */
    method Init(storage: Storage) returns (next: Option<Route>)
      modifies this`sessionId, this`selectedActivities, this`isLoading, this`error
      ensures var missing := storage.currentSessionId.None? || storage.currentSessionId == Some("")
                          || storage.selectedActivities.None? || storage.selectedActivities == Some(EmptyText);
        && (missing ==> next == Some(SportSelection) && unchanged(this))
        && (!missing ==> next == None && sessionId == storage.currentSessionId.value && !isLoading)
        && (!missing && storage.selectedActivities.value.Wellformed? ==>
              selectedActivities == storage.selectedActivities.value.activities && error == old(error))
        && (!missing && storage.selectedActivities.value.Malformed? ==>
              selectedActivities == old(selectedActivities) && error == LOAD_FAILED)
      ensures currentActivityIndex == 0 ==> Valid()
    {
      var storedSessionId := storage.currentSessionId;
      var storedActivities := storage.selectedActivities;
      if storedSessionId.None? || storedSessionId.value == "" || storedActivities.None? || storedActivities.value.EmptyText? {
        return Some(SportSelection);
      }
      next := None;
      sessionId := storedSessionId.value;
      if storedActivities.value.Wellformed? {
        selectedActivities := storedActivities.value.activities;
        isLoading := false;
      } else {
        error := LOAD_FAILED;
        isLoading := false;
      }
    }

    /** The effect that moves past completed activities. */
    method AdvanceEffect(storage: Storage) returns (step: Advance, next: Option<Route>)
      requires Valid()
      modifies this`currentActivityIndex, storage
      ensures Valid()
      ensures |Order()| == 0 || isLoading ==> step == Stay
      ensures |Order()| > 0 && !isLoading ==> StepFits(Order(), old(storage.Completed()), old(currentActivityIndex), step)
      ensures step == Stay ==> currentActivityIndex == old(currentActivityIndex) && next == None && unchanged(storage)
      ensures step.MoveTo? ==> currentActivityIndex == step.index && next == None && unchanged(storage)
      ensures step == Finish ==>
        && currentActivityIndex == old(currentActivityIndex) && next == Some(Dashboard)
        && storage.currentSessionId == None && storage.selectedActivities == None && storage.registeredActivities == None
    {
      next := None;
      if |Order()| == 0 || isLoading {
        return Stay, None;
      }
      step := NextStep(Order(), storage.Completed(), currentActivityIndex);
      match step
      case Stay =>
      case MoveTo(i) =>
        currentActivityIndex := i;
      case Finish =>
        var route := FinishRegistration(storage);
        next := Some(route);
    }

    /** The destination for the current activity, by its category id. */
    method NavigateToActivityRegistration(storage: Storage) returns (next: Option<Route>)
      modifies this`error, storage
      ensures CurrentActivity().None? ==>
        && next == Some(Dashboard) && error == old(error)
        && storage.currentSessionId == None && storage.selectedActivities == None && storage.registeredActivities == None
      ensures CurrentActivity().Some? ==> unchanged(storage)
      ensures CurrentActivity().Some? ==> (
        var a := CurrentActivity().value;
        && (CategoryOf(a) == STRENGTH ==> next == Some(StrengthForm(a.id, sessionId, a.name)) && error == old(error))
        && (CategoryOf(a) == DURATION ==> next == Some(DurationForm(a.id, sessionId, a.name)) && error == old(error))
        && (CategoryOf(a) == DISTANCE ==> next == Some(DistanceForm(a.id, sessionId, a.name)) && error == old(error))
        && (!Known(CategoryOf(a)) ==> next == None && error == UNKNOWN_TYPE))
    {
      if currentActivityIndex >= |Order()| {
        var route := FinishRegistration(storage);
        return Some(route);
      }
      var currentActivity := Order()[currentActivityIndex];
      if currentActivity.category.id == STRENGTH {
        next := Some(StrengthForm(currentActivity.id, sessionId, currentActivity.name));
      } else if currentActivity.category.id == DURATION {
        next := Some(DurationForm(currentActivity.id, sessionId, currentActivity.name));
      } else if currentActivity.category.id == DISTANCE {
        next := Some(DistanceForm(currentActivity.id, sessionId, currentActivity.name));
      } else {
        error := UNKNOWN_TYPE;
        next := None;
      }
    }

    /** Deletes the session; only on success are the two sessionStorage keys
        removed, and the completion map is kept either way. */
    method CancelRegistration(db: Database, ctx: Context, storage: Storage, transportFails: bool) returns (next: Option<Route>)
      modifies this`isLoading, this`error
      modifies db`sesiones, db`actividades, db`fuerza, db`duracion, db`distancia
      modifies storage`currentSessionId, storage`selectedActivities
      ensures storage.registeredActivities == old(storage.registeredActivities)
      ensures transportFails || ctx.DevWithoutDb() || ctx.user.None? ==> unchanged(db)
      ensures !transportFails && !ctx.DevWithoutDb() && ctx.user.Some? ==>
        db.Snapshot() == AfterDeleteSession(old(db.Snapshot()), ctx.failAt, sessionId)
      ensures var deleted := !transportFails &&
          (ctx.DevWithoutDb() || (ctx.user.Some? && DeleteSucceeds(old(db.Snapshot()), ctx.failAt, sessionId)));
        && (deleted ==>
              && next == Some(SportSelection) && isLoading && error == old(error)
              && storage.currentSessionId == None && storage.selectedActivities == None)
        && (!deleted ==>
              && next == None && !isLoading && unchanged(storage)
              && error == if transportFails then CANCEL_FAILED
                          else CANCEL_FAILED_PREFIX + if ctx.user.None? then NOT_AUTHENTICATED else DELETE_SESSION_FAILED)
    {
      isLoading := true;
      if transportFails {
        error := CANCEL_FAILED;
        isLoading := false;
        return None;
      }
      var result := db.DeleteSession(ctx, sessionId);
      if !result.Ok? {
        error := CANCEL_FAILED_PREFIX + result.error;
        isLoading := false;
        return None;
      }
      storage.currentSessionId := None;
      storage.selectedActivities := None;
      next := Some(SportSelection);
    }

    /** The "continue" button of a completed activity and the "skip" button of
        an open one: next index, or finish after the last activity. */
    method MoveOn(storage: Storage) returns (next: Option<Route>)
      requires currentActivityIndex < |Order()|
      modifies this`currentActivityIndex, storage
      ensures currentActivityIndex < |Order()|
      ensures old(currentActivityIndex) < |Order()| - 1 ==>
        currentActivityIndex == old(currentActivityIndex) + 1 && next == None && unchanged(storage)
      ensures old(currentActivityIndex) == |Order()| - 1 ==>
        && currentActivityIndex == old(currentActivityIndex) && next == Some(Dashboard)
        && storage.currentSessionId == None && storage.selectedActivities == None && storage.registeredActivities == None
    {
      if currentActivityIndex < |Order()| - 1 {
        currentActivityIndex := currentActivityIndex + 1;
        next := None;
      } else {
        var route := FinishRegistration(storage);
        next := Some(route);
      }
    }
  }
}
