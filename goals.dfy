/** The savings-goals page (src/pages/treasury/Goals.jsx): the progress
    percentage of a goal card, the name search, deleting a goal from the
    loaded list, and the payload sent when a goal is saved. */
module Goals {
  import opened JsValue
  import opened JsText
  import opened JsNumber
  import opened JsArray
  import Dashboard

  /** `calculateProgress(current, target)`: 0 for a missing or zero target,
      else `Math.min(Math.round(current / target * 100), 100)`. */
  function CalculateProgress(current: JsVal, target: JsVal): (r: Num)
    ensures !Truthy(target) ==> r == Finite(0.0)
    ensures !r.NaN? ==> NumLe(r, Finite(100.0))
  {
    if !Truthy(target) then Finite(0.0)
    else Min(Round(Scale(Div(ToNumber(current), ToNumber(target)), 100.0)), Finite(100.0))
  }

  /** `isCompleted = progress >= 100`. */
  predicate IsCompleted(progress: Num)
  {
    AtLeast(progress, 100.0)
  }

  /** For numeric amounts and a non-zero target, the progress is the rounded
      percentage capped at 100, and a goal counts as completed from 99.5%
      funded on, because the percentage is rounded before the comparison. */
  lemma ProgressOfAmounts(current: JsVal, target: JsVal)
    requires Truthy(target) && ToNumber(current).Finite? && ToNumber(target).Finite?
    requires ToNumber(target).r != 0.0
    ensures var ratio := ToNumber(current).r / ToNumber(target).r * 100.0;
      var p := CalculateProgress(current, target);
      p.Finite? && p.r == p.r.Floor as real &&
      (p.r == 100.0 || ratio - 0.5 < p.r <= ratio + 0.5) &&
      (IsCompleted(p) <==> ratio >= 99.5)
  {
    var ratio := ToNumber(current).r / ToNumber(target).r * 100.0;
    assert Scale(Div(ToNumber(current), ToNumber(target)), 100.0) == Finite(ratio);
    RoundedCap(ratio);
  }

  /** `Math.min(Math.round(x), 100)` for a finite `x`. */
  lemma RoundedCap(x: real)
    ensures var p := Min(Round(Finite(x)), Finite(100.0));
      p.Finite? && p.r == p.r.Floor as real &&
      (p.r == 100.0 || x - 0.5 < p.r <= x + 0.5) &&
      (AtLeast(p, 100.0) <==> x >= 99.5)
  {
    var n := RoundHalfUp(x);
    assert Round(Finite(x)) == Finite(n as real);
    if n >= 100 {
      assert x >= 99.5;
    }
  }

  /** The goal card and the dashboard's goal bar disagree on a target of 0:
      the card shows 0%, the bar divides by 1 instead. */
  lemma ZeroTargetConventions()
    ensures var goal := Obj([Prop("currentAmount", Number(Finite(500.0))),
                             Prop("targetAmount", Number(Finite(0.0)))]);
      CalculateProgress(Get(goal, "currentAmount"), Get(goal, "targetAmount")) == Finite(0.0) &&
      Dashboard.GoalBarPercentage(goal) == 100.0
  {
    var goal := Obj([Prop("currentAmount", Number(Finite(500.0))),
                     Prop("targetAmount", Number(Finite(0.0)))]);
    assert Dashboard.GoalBarRatio(goal) == 50000.0;
  }

  /** The search callback `g => g.name?.toLowerCase().includes(q.toLowerCase())`:
      a missing name never matches; a name that is not a string throws. */
  function NameMatches(q: string): JsVal -> Option<bool>
  {
    (g: JsVal) =>
      if Nullish(g) then None
      else
        var name := Get(g, "name");
        if Nullish(name) then Some(false)
        else if name.Str? then Some(Includes(Lower(name.s), Lower(q)))
        else None
  }

  /** `filteredGoals`: the goals whose name contains the query, ignoring
      case, in their loaded order. */
  function FilteredGoals(goals: seq<JsVal>, q: string): Option<seq<JsVal>>
  {
    FilterBy(goals, NameMatches(q))
  }

  lemma SearchKeepsMatches(goals: seq<JsVal>, q: string)
    requires FilteredGoals(goals, q).Some?
    ensures forall g :: g in FilteredGoals(goals, q).value <==>
      g in goals && Get(g, "name").Str? && Includes(Lower(Get(g, "name").s), Lower(q))
  {
    FilterByMembers(goals, NameMatches(q));
  }

  /** An empty query keeps every goal that has a string name. */
  lemma {:induction false} EmptyQueryKeepsNamedGoals(goals: seq<JsVal>)
    requires forall i :: 0 <= i < |goals| ==> !Nullish(goals[i]) && Get(goals[i], "name").Str?
    ensures FilteredGoals(goals, "") == Some(goals)
  {
    if goals != [] {
      EmptyQueryKeepsNamedGoals(goals[1..]);
      assert OccursAt(Lower(Get(goals[0], "name").s), "", 0);
      assert [goals[0]] + goals[1..] == goals;
    }
  }

  /** `goals.filter(g => g.id !== id)`. */
  function RemoveById(goals: seq<JsVal>, id: JsVal): (r: seq<JsVal>)
    ensures |r| <= |goals|
    ensures forall g :: g in r ==> g in goals && !StrictEquals(Get(g, "id"), id)
    ensures forall g :: g in goals && !StrictEquals(Get(g, "id"), id) ==> g in r
  {
    if goals == [] then []
    else
      var rest := RemoveById(goals[1..], id);
      assert forall g :: g in goals <==> g == goals[0] || g in goals[1..];
      if StrictEquals(Get(goals[0], "id"), id) then rest else [goals[0]] + rest
  }

  /** Removal keeps the remaining goals in their order. */
  lemma {:induction false} RemoveByIdAppend(a: seq<JsVal>, b: seq<JsVal>, id: JsVal)
    ensures RemoveById(a + b, id) == RemoveById(a, id) + RemoveById(b, id)
  {
    if a == [] {
      assert a + b == b;
    } else {
      assert (a + b)[1..] == a[1..] + b;
      assert (a + b)[0] == a[0];
      RemoveByIdAppend(a[1..], b, id);
    }
  }

  /** The default stats when the server sends none. */
  function DefaultStats(): JsVal
  {
    Obj([Prop("totalGoals", Num0()), Prop("completedGoals", Num0()), Prop("totalTargetValue", Num0())])
  }

  /** `handleSubmit`'s payload: the form, with the target amount parsed and
      a blank current amount sent as 0. */
  function SubmitPayload(form: seq<Prop>): (r: seq<Prop>)
    ensures Lookup(r, "targetAmount") == Some(Number(ParseFloat(Get(Obj(form), "targetAmount"))))
    ensures !Truthy(Get(Obj(form), "currentAmount")) ==> Lookup(r, "currentAmount") == Some(Num0())
    ensures Truthy(Get(Obj(form), "currentAmount")) ==>
      Lookup(r, "currentAmount") == Some(Number(ParseFloat(Get(Obj(form), "currentAmount"))))
    ensures forall k :: k != "targetAmount" && k != "currentAmount" ==> Lookup(r, k) == Lookup(form, k)
  {
    var withTarget := Put(form, "targetAmount", Number(ParseFloat(Get(Obj(form), "targetAmount"))));
    var current := Or(Get(Obj(form), "currentAmount"), Num0());
    var r := Put(withTarget, "currentAmount", Number(ParseFloat(current)));
    LookupPutSame(form, "targetAmount", Number(ParseFloat(Get(Obj(form), "targetAmount"))));
    LookupPutOther(withTarget, "currentAmount", Number(ParseFloat(current)), "targetAmount");
    LookupPutSame(withTarget, "currentAmount", Number(ParseFloat(current)));
    forall k | k != "targetAmount" && k != "currentAmount"
      ensures Lookup(r, k) == Lookup(form, k)
    {
      LookupPutOther(withTarget, "currentAmount", Number(ParseFloat(current)), k);
      LookupPutOther(form, "targetAmount", Number(ParseFloat(Get(Obj(form), "targetAmount"))), k);
    }
    r
  }

  /** The goals page state the load and delete handlers write. */
  class GoalsPage {
    var goals: seq<JsVal>
    var stats: JsVal
    var deletingId: JsVal
    var deleteConfirmOpen: bool

    constructor()
      ensures goals == [] && stats == DefaultStats() && deletingId == Null && !deleteConfirmOpen
    {
      goals := [];
      stats := DefaultStats();
      deletingId := Null;
      deleteConfirmOpen := false;
    }

    /** `loadData`: both calls must succeed (`Promise.all`); the list body,
        or `[]`, becomes the goals and the stats body, or zero stats, the
        stats. A failure leaves both as they were, and a null response
        throws where its `data` is read, after the updates before it. The
        list body is an array: the page filters and maps it. */
    method LoadData(list: Outcome<JsVal>, statsRes: Outcome<JsVal>)
      requires list.Fulfilled? ==> Or(Get(list.value, "data"), Arr([])).Arr?
      modifies this
      ensures list.Fulfilled? && statsRes.Fulfilled? ==>
        goals == (if Nullish(list.value) then old(goals) else Or(Get(list.value, "data"), Arr([])).items) &&
        stats == (if Nullish(list.value) || Nullish(statsRes.value) then old(stats)
                  else Or(Get(statsRes.value, "data"), DefaultStats()))
      ensures list.Rejected? || statsRes.Rejected? ==> goals == old(goals) && stats == old(stats)
      ensures deletingId == old(deletingId) && deleteConfirmOpen == old(deleteConfirmOpen)
    {
      if list.Fulfilled? && statsRes.Fulfilled? && !Nullish(list.value) {
        goals := Or(Get(list.value, "data"), Arr([])).items;
        if !Nullish(statsRes.value) {
          stats := Or(Get(statsRes.value, "data"), DefaultStats());
        }
      }
    }

    /** `handleDelete`. With no goal marked for deletion nothing happens.
        Otherwise a successful delete drops every goal with that id and
        then reads fresh stats; if either call fails, or the stats response
        is null, the page reloads
        (`reloadList`, `reloadStats`). The confirmation closes. */
    method HandleDelete(deleted: Outcome<JsVal>, statsRes: Outcome<JsVal>,
                        reloadList: Outcome<JsVal>, reloadStats: Outcome<JsVal>)
      requires reloadList.Fulfilled? ==> Or(Get(reloadList.value, "data"), Arr([])).Arr?
      modifies this
      ensures !Truthy(old(deletingId)) ==>
        goals == old(goals) && stats == old(stats) && deleteConfirmOpen == old(deleteConfirmOpen)
      ensures Truthy(old(deletingId)) && deleted.Fulfilled? && statsRes.Fulfilled? && !Nullish(statsRes.value) ==>
        goals == RemoveById(old(goals), old(deletingId)) && stats == Get(statsRes.value, "data")
      ensures (Truthy(old(deletingId)) && deleted.Rejected? &&
                (reloadList.Rejected? || reloadStats.Rejected?)) ==>
        goals == old(goals) && stats == old(stats)
      ensures (Truthy(old(deletingId)) && deleted.Fulfilled? && (statsRes.Rejected? || Nullish(statsRes.value)) &&
                (reloadList.Rejected? || reloadStats.Rejected?)) ==>
        goals == RemoveById(old(goals), old(deletingId)) && stats == old(stats)
      ensures Truthy(old(deletingId)) && (deleted.Rejected? || statsRes.Rejected? || Nullish(statsRes.value)) &&
              reloadList.Fulfilled? && reloadStats.Fulfilled? ==>
                var before := if deleted.Fulfilled? then RemoveById(old(goals), old(deletingId)) else old(goals);
                goals == (if Nullish(reloadList.value) then before
                          else Or(Get(reloadList.value, "data"), Arr([])).items) &&
                stats == (if Nullish(reloadList.value) || Nullish(reloadStats.value) then old(stats)
                          else Or(Get(reloadStats.value, "data"), DefaultStats()))
      ensures Truthy(old(deletingId)) ==> !deleteConfirmOpen
      ensures deletingId == old(deletingId)
    {
      if !Truthy(deletingId) {
        return;
      }
      if deleted.Fulfilled? {
        goals := RemoveById(goals, deletingId);
        if statsRes.Fulfilled? && !Nullish(statsRes.value) {
          stats := Get(statsRes.value, "data");
        } else {
          LoadData(reloadList, reloadStats);
        }
      } else {
        LoadData(reloadList, reloadStats);
      }
      deleteConfirmOpen := false;
    }
  }
}
