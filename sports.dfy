/** What the sport-selection screen hands to the server (`SelectedSport`) and
    what the server hands back to the wizard (`SelectedActivity`), with the
    de-duplication by sport id that persistSelectedActivities performs. */
module Sports {

  /** `id` ("strength", "duration", "distance") drives the wizard; `title`
      ("Fuerza", ...) becomes the activity's `modo`. */
  datatype Category = Category(id: string, title: string)

  datatype SelectedSport = SelectedSport(id: string, name: string, category: Category)

  /** An activity row as the wizard keeps it: database id plus the sport it came from. */
  datatype SelectedActivity = SelectedActivity(id: string, sportId: string, name: string, category: Category)

  function SportIds(s: seq<SelectedSport>): set<string> {
    if s == [] then {} else SportIds(s[..|s| - 1]) + {s[|s| - 1].id}
  }

  /** The `reduce` into `acc` followed by `Object.values(acc)`: a sport is
      kept when no earlier sport had its id, and kept sports stay in order. */
  function Dedup(s: seq<SelectedSport>): seq<SelectedSport> {
    if s == [] then []
    else
      var d := Dedup(s[..|s| - 1]);
      if s[|s| - 1].id in SportIds(d) then d else d + [s[|s| - 1]]
  }

  predicate DistinctIds(d: seq<SelectedSport>) {
    forall i, j :: 0 <= i < j < |d| ==> d[i].id != d[j].id
  }

  /** Position of the first sport carrying `id`. */
  function FirstIndex(s: seq<SelectedSport>, id: string): (r: nat)
    requires id in SportIds(s)
    ensures r < |s| && s[r].id == id
    ensures forall j :: 0 <= j < r ==> s[j].id != id
  {
    var init := s[..|s| - 1];
    if id in SportIds(init) then
      var r := FirstIndex(init, id);
      assert forall j :: 0 <= j < r ==> s[j] == init[j];
      r
    else
      SportIdsMembers(init, id);
      |s| - 1
  }

  lemma {:induction false} SportIdsMembers(s: seq<SelectedSport>, id: string)
    ensures id in SportIds(s) <==> exists i :: 0 <= i < |s| && s[i].id == id
  {
    if s != [] {
      var init := s[..|s| - 1];
      SportIdsMembers(init, id);
      if i :| 0 <= i < |s| && s[i].id == id {
        if i < |s| - 1 {
          assert init[i].id == id;
        }
      }
      if id in SportIds(init) {
        var i :| 0 <= i < |init| && init[i].id == id;
        assert s[i].id == id;
      }
    }
  }

  lemma {:induction false} DistinctIdsCount(d: seq<SelectedSport>)
    requires DistinctIds(d)
    ensures |SportIds(d)| == |d|
  {
    if d != [] {
      var init := d[..|d| - 1];
      DistinctIdsCount(init);
      SportIdsMembers(init, d[|d| - 1].id);
    }
  }

  /** The de-duplicated list has pairwise distinct ids, the same ids as the
      input, and so one entry per distinct id. */
  lemma {:induction false} DedupDistinctIds(s: seq<SelectedSport>)
    ensures DistinctIds(Dedup(s))
    ensures SportIds(Dedup(s)) == SportIds(s)
    ensures |Dedup(s)| == |SportIds(s)|
  {
    if s != [] {
      var init, last := s[..|s| - 1], s[|s| - 1];
      DedupDistinctIds(init);
      var d := Dedup(init);
      if last.id !in SportIds(d) {
        var d' := d + [last];
        forall i, j | 0 <= i < j < |d'| ensures d'[i].id != d'[j].id {
          if j == |d| {
            SportIdsMembers(d, last.id);
          }
        }
        DistinctIdsCount(d');
      }
    }
  }

  /** De-duplication leaves something exactly when there was something to de-duplicate. */
  lemma DedupEmpty(s: seq<SelectedSport>)
    ensures Dedup(s) == [] <==> s == []
  {
    DedupDistinctIds(s);
    if s != [] {
      assert s[|s| - 1].id in SportIds(s);
    }
  }

  /** Each kept sport is the first sport of the input with its id. */
  lemma {:induction false} DedupKeepsFirstOccurrence(s: seq<SelectedSport>, k: nat)
    requires k < |Dedup(s)|
    ensures Dedup(s)[k].id in SportIds(s) && Dedup(s)[k] == s[FirstIndex(s, Dedup(s)[k].id)]
  {
    var init, last := s[..|s| - 1], s[|s| - 1];
    var d := Dedup(init);
    if k < |d| {
      DedupKeepsFirstOccurrence(init, k);
      assert Dedup(s)[k] == d[k];
      assert s[FirstIndex(init, d[k].id)] == init[FirstIndex(init, d[k].id)];
    } else {
      DedupDistinctIds(init);
      assert last.id !in SportIds(init);
    }
  }

  /** Kept sports appear in the order of their first occurrence. */
  lemma {:induction false} DedupKeepsOrder(s: seq<SelectedSport>, i: nat, j: nat)
    requires i < j < |Dedup(s)|
    ensures Dedup(s)[i].id in SportIds(s) && Dedup(s)[j].id in SportIds(s)
    ensures FirstIndex(s, Dedup(s)[i].id) < FirstIndex(s, Dedup(s)[j].id)
  {
    var init, last := s[..|s| - 1], s[|s| - 1];
    var d := Dedup(init);
    DedupKeepsFirstOccurrence(init, i);
    assert Dedup(s)[i] == d[i];
    if j < |d| {
      DedupKeepsFirstOccurrence(init, j);
      DedupKeepsOrder(init, i, j);
      assert Dedup(s)[j] == d[j];
    } else {
      DedupDistinctIds(init);
      assert last.id !in SportIds(init);
    }
  }
}
