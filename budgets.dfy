/** The budgets page (src/pages/treasury/Budgets.jsx): the summary totals
    folded over the loaded budgets, the fill of a budget card, the status
    colours, and the budget form. */
module Budgets {
  import opened JsValue
  import opened JsNumber

  /** The three summary cards. */
  datatype Summary = Summary(totalAllocated: Num, totalSpent: Num, totalRemaining: Num)

  function ZeroSummary(): Summary
  {
    Summary(Finite(0.0), Finite(0.0), Finite(0.0))
  }

  /** `curr[key] || 0` as an addend. A missing or falsy amount counts as 0,
      `true` as 1. None for a text, array or object amount, which `+` would
      concatenate as text (not modelled). */
  function Addend(curr: JsVal, key: string): (r: Option<Num>)
    ensures !Truthy(Get(curr, key)) ==> r == Some(Finite(0.0))
    ensures Get(curr, key).Number? && Truthy(Get(curr, key)) ==> r == Some(Get(curr, key).n)
  {
    var v := Get(curr, key);
    if !Truthy(v) then Some(Finite(0.0))
    else if v.Number? then Some(v.n)
    else if v.Bool? then Some(Finite(1.0))
    else None
  }

  /** One step of the `reduce`: add a budget's three amounts to the totals.
      None when the budget is null (reading a field of it throws) or an
      amount is not numeric. */
  function Step(acc: Summary, curr: JsVal): Option<Summary>
  {
    if Nullish(curr) then None
    else
      match (Addend(curr, "amountAllocated"), Addend(curr, "amountSpent"), Addend(curr, "remainingAmount"))
      case (Some(a), Some(s), Some(m)) =>
        Some(Summary(Add(acc.totalAllocated, a), Add(acc.totalSpent, s), Add(acc.totalRemaining, m)))
      case _ => None
  }

  /** `list.reduce(step, acc)`, from the left. */
  function SumFrom(acc: Summary, list: seq<JsVal>): Option<Summary>
    decreases |list|
  {
    if list == [] then Some(acc)
    else
      match Step(acc, list[0])
      case None => None
      case Some(next) => SumFrom(next, list[1..])
  }

  /** The summary of the loaded budgets, starting from all zeros. */
  function BudgetSummary(list: seq<JsVal>): (r: Option<Summary>)
    ensures list == [] ==> r == Some(ZeroSummary())
  {
    SumFrom(ZeroSummary(), list)
  }

  /** The fold can be split anywhere: summing a concatenation is summing the
      second part from the totals of the first. */
  lemma {:induction false} SumFromAppend(acc: Summary, a: seq<JsVal>, b: seq<JsVal>)
    ensures SumFrom(acc, a + b) ==
      if SumFrom(acc, a).Some? then SumFrom(SumFrom(acc, a).value, b) else None
    decreases |a|
  {
    if a == [] {
      assert a + b == b;
    } else {
      assert (a + b)[0] == a[0] && (a + b)[1..] == a[1..] + b;
      if Step(acc, a[0]).Some? {
        SumFromAppend(Step(acc, a[0]).value, a[1..], b);
      }
    }
  }

  /** An amount that is missing, falsy or a finite number. */
  predicate PlainAmount(v: JsVal)
  {
    !Truthy(v) || (v.Number? && v.n.Finite?)
  }

  /** A budget whose amounts are all finite numbers or missing. */
  predicate PlainBudget(b: JsVal)
  {
    !Nullish(b) && PlainAmount(Get(b, "amountAllocated")) &&
    PlainAmount(Get(b, "amountSpent")) && PlainAmount(Get(b, "remainingAmount"))
  }

  /** A plain budget's amount under `key`, 0 when missing. */
  function Amount(b: JsVal, key: string): real
  {
    var v := Get(b, key);
    if Truthy(v) && v.Number? && v.n.Finite? then v.n.r else 0.0
  }

  /** The sum of one amount over a list: the reference the fold is checked against. */
  function FieldSum(list: seq<JsVal>, key: string): real
  {
    if list == [] then 0.0 else Amount(list[0], key) + FieldSum(list[1..], key)
  }

  /** One step of the fold on a plain budget adds its three amounts. */
  lemma StepPlain(x: real, y: real, z: real, b: JsVal)
    requires PlainBudget(b)
    ensures Step(Summary(Finite(x), Finite(y), Finite(z)), b) ==
      Some(Summary(Finite(x + Amount(b, "amountAllocated")), Finite(y + Amount(b, "amountSpent")),
                   Finite(z + Amount(b, "remainingAmount"))))
  {
  }

  lemma {:induction false} SumFromPlain(x: real, y: real, z: real, list: seq<JsVal>)
    requires forall i :: 0 <= i < |list| ==> PlainBudget(list[i])
    ensures SumFrom(Summary(Finite(x), Finite(y), Finite(z)), list) ==
      Some(Summary(Finite(x + FieldSum(list, "amountAllocated")),
                   Finite(y + FieldSum(list, "amountSpent")),
                   Finite(z + FieldSum(list, "remainingAmount"))))
    decreases |list|
  {
    if list != [] {
      var b := list[0];
      assert PlainBudget(b);
      StepPlain(x, y, z, b);
      var x', y', z' := x + Amount(b, "amountAllocated"), y + Amount(b, "amountSpent"),
                        z + Amount(b, "remainingAmount");
      assert SumFrom(Summary(Finite(x), Finite(y), Finite(z)), list) ==
        SumFrom(Summary(Finite(x'), Finite(y'), Finite(z')), list[1..]);
      SumFromPlain(x', y', z', list[1..]);
    }
  }

  /** For budgets with numeric or missing amounts, the summary holds the
      three column sums, missing amounts counted as 0. */
  lemma SummaryIsColumnSums(list: seq<JsVal>)
    requires forall i :: 0 <= i < |list| ==> PlainBudget(list[i])
    ensures BudgetSummary(list) ==
      Some(Summary(Finite(FieldSum(list, "amountAllocated")),
                   Finite(FieldSum(list, "amountSpent")),
                   Finite(FieldSum(list, "remainingAmount"))))
  {
    assert BudgetSummary(list) == SumFrom(Summary(Finite(0.0), Finite(0.0), Finite(0.0)), list);
    SumFromPlain(0.0, 0.0, 0.0, list);
  }

  /** A card's fill: `allocated > 0 ? Math.min(spent / allocated * 100, 100) : 0`,
      not rounded. */
  function Percent(budget: JsVal): (r: Num)
    ensures !Above(ToNumber(Get(budget, "amountAllocated")), 0.0) ==> r == Finite(0.0)
    ensures !r.NaN? ==> NumLe(r, Finite(100.0))
  {
    var alloc := ToNumber(Get(budget, "amountAllocated"));
    if Above(alloc, 0.0) then
      Min(Scale(Div(ToNumber(Get(budget, "amountSpent")), alloc), 100.0), Finite(100.0))
    else Finite(0.0)
  }

  /** With a positive allocation and a non-negative spend, the fill is the
      spent share in percent, full exactly when the budget is used up. */
  lemma PercentOfAmounts(budget: JsVal)
    requires ToNumber(Get(budget, "amountAllocated")).Finite? && ToNumber(Get(budget, "amountAllocated")).r > 0.0
    requires ToNumber(Get(budget, "amountSpent")).Finite? && ToNumber(Get(budget, "amountSpent")).r >= 0.0
    ensures var a := ToNumber(Get(budget, "amountAllocated")).r;
      var s := ToNumber(Get(budget, "amountSpent")).r;
      Percent(budget).Finite? && 0.0 <= Percent(budget).r <= 100.0 &&
      (s <= a ==> Percent(budget).r == s / a * 100.0) &&
      (Percent(budget).r == 100.0 <==> s >= a)
  {
    FillOfAmounts(ToNumber(Get(budget, "amountSpent")).r, ToNumber(Get(budget, "amountAllocated")).r);
  }

  /** The fill formula on plain amounts. */
  lemma FillOfAmounts(s: real, a: real)
    requires a > 0.0 && s >= 0.0
    ensures var p := Min(Scale(Div(Finite(s), Finite(a)), 100.0), Finite(100.0));
      p.Finite? && 0.0 <= p.r <= 100.0 &&
      (s <= a ==> p.r == s / a * 100.0) &&
      (p.r == 100.0 <==> s >= a)
  {
    assert Scale(Div(Finite(s), Finite(a)), 100.0) == Finite(s / a * 100.0);
    if s >= a {
      RatioAtLeastOne(s, a);
    } else {
      RatioBelowOne(s, a);
    }
  }

  lemma RatioBelowOne(s: real, a: real)
    requires 0.0 <= s < a
    ensures 0.0 <= s / a < 1.0
  {
    var q := s / a;
    assert q * a == s;
  }

  lemma RatioAtLeastOne(s: real, a: real)
    requires 0.0 < a <= s
    ensures s / a >= 1.0
  {
    var q := s / a;
    assert q * a == s;
  }

  const SafeClass := "text-emerald-500 bg-emerald-500/10 border-emerald-500/20"
  const WarningClass := "text-orange-500 bg-orange-500/10 border-orange-500/20"
  const DangerClass := "text-red-500 bg-red-500/10 border-red-500/20"
  const NeutralClass := "text-zinc-500 bg-zinc-500/10 border-zinc-500/20"

  /** `getStatusColor(status)`: a switch, so strict equality on the text. */
  function StatusColor(status: JsVal): (r: string)
    ensures status == Str("SAFE") <==> r == SafeClass
    ensures status == Str("WARNING") <==> r == WarningClass
    ensures status == Str("DANGER") <==> r == DangerClass
    ensures r == NeutralClass <==> status !in {Str("SAFE"), Str("WARNING"), Str("DANGER")}
  {
    if status == Str("SAFE") then SafeClass
    else if status == Str("WARNING") then WarningClass
    else if status == Str("DANGER") then DangerClass
    else NeutralClass
  }

  /** `getProgressBarColor(status)`. */
  function ProgressBarColor(status: JsVal): (r: string)
    ensures status == Str("SAFE") <==> r == "bg-emerald-500"
    ensures status == Str("WARNING") <==> r == "bg-orange-500"
    ensures status == Str("DANGER") <==> r == "bg-red-500"
    ensures r == "bg-violet-500" <==> status !in {Str("SAFE"), Str("WARNING"), Str("DANGER")}
  {
    if status == Str("SAFE") then "bg-emerald-500"
    else if status == Str("WARNING") then "bg-orange-500"
    else if status == Str("DANGER") then "bg-red-500"
    else "bg-violet-500"
  }

  /** The badge and the bar tell the same statuses apart. */
  lemma ColoursAgree(s: JsVal, t: JsVal)
    ensures StatusColor(s) == StatusColor(t) <==> ProgressBarColor(s) == ProgressBarColor(t)
  {
  }

  /** The form of a new budget; the month's first and last day come from
      the clock and are parameters here. */
  function NewBudgetForm(firstDay: string, lastDay: string): seq<Prop>
  {
    [Prop("title", Str("")), Prop("category", Str("")), Prop("amountAllocated", Str("")),
     Prop("amountSpent", Num0()), Prop("startDate", Str(firstDay)), Prop("endDate", Str(lastDay)),
     Prop("recurring", Bool(true)), Prop("note", Str(""))]
  }

  /** A new budget starts blank, with nothing spent and recurring on. */
  lemma NewBudgetDefaults(firstDay: string, lastDay: string)
    ensures var r := NewBudgetForm(firstDay, lastDay);
      UniqueKeys(r) &&
      Lookup(r, "amountSpent") == Some(Num0()) && Lookup(r, "recurring") == Some(Bool(true)) &&
      Lookup(r, "title") == Some(Str("")) && Lookup(r, "category") == Some(Str("")) &&
      Lookup(r, "amountAllocated") == Some(Str("")) && Lookup(r, "note") == Some(Str("")) &&
      Lookup(r, "startDate") == Some(Str(firstDay)) && Lookup(r, "endDate") == Some(Str(lastDay))
  {
    var r := NewBudgetForm(firstDay, lastDay);
    LookupAt(r, 0); LookupAt(r, 1); LookupAt(r, 2); LookupAt(r, 3);
    LookupAt(r, 4); LookupAt(r, 5); LookupAt(r, 6); LookupAt(r, 7);
  }

  /** The form of an existing budget. */
  function EditBudgetForm(budget: JsVal): seq<Prop>
  {
    [Prop("title", Get(budget, "title")), Prop("category", Get(budget, "category")),
     Prop("amountAllocated", Get(budget, "amountAllocated")), Prop("amountSpent", Get(budget, "amountSpent")),
     Prop("startDate", Get(budget, "startDate")), Prop("endDate", Get(budget, "endDate")),
     Prop("recurring", Get(budget, "recurring")), Prop("note", Or(Get(budget, "note"), Str("")))]
  }

  /** Editing copies the budget's fields into the form, a missing note as ''. */
  lemma EditBudgetCopiesFields(budget: JsVal)
    ensures var r := EditBudgetForm(budget);
      UniqueKeys(r) &&
      (forall k :: k in {"title", "category", "amountAllocated", "amountSpent", "startDate", "endDate", "recurring"} ==>
        Lookup(r, k) == Some(Get(budget, k))) &&
      Lookup(r, "note") == Some(Or(Get(budget, "note"), Str("")))
  {
    var r := EditBudgetForm(budget);
    EditBudgetKeysUnique(budget);
    LookupAt(r, 0); LookupAt(r, 1); LookupAt(r, 2); LookupAt(r, 3);
    LookupAt(r, 4); LookupAt(r, 5); LookupAt(r, 6); LookupAt(r, 7);
  }

  /** `handleSubmit`'s payload: the form's fields in a fixed order, with
      both amounts read by `parseFloat`. */
  function BudgetPayload(form: seq<Prop>): seq<Prop>
  {
    var f := Obj(form);
    [Prop("title", Get(f, "title")), Prop("category", Get(f, "category")),
     Prop("amountAllocated", Number(ParseFloat(Get(f, "amountAllocated")))),
     Prop("amountSpent", Number(ParseFloat(Get(f, "amountSpent")))),
     Prop("startDate", Get(f, "startDate")), Prop("endDate", Get(f, "endDate")),
     Prop("recurring", Get(f, "recurring")), Prop("note", Get(f, "note"))]
  }

  /** The amounts are sent parsed and every other field as typed. */
  lemma BudgetPayloadFields(form: seq<Prop>)
    ensures var p := BudgetPayload(form);
      Lookup(p, "amountAllocated") == Some(Number(ParseFloat(Get(Obj(form), "amountAllocated")))) &&
      Lookup(p, "amountSpent") == Some(Number(ParseFloat(Get(Obj(form), "amountSpent")))) &&
      forall k :: k in {"title", "category", "startDate", "endDate", "recurring", "note"} ==>
        Lookup(p, k) == Some(Get(Obj(form), k))
  {
    var p := BudgetPayload(form);
    LookupAt(p, 0); LookupAt(p, 1); LookupAt(p, 2); LookupAt(p, 3);
    LookupAt(p, 4); LookupAt(p, 5); LookupAt(p, 6); LookupAt(p, 7);
  }

  /** Saving an edit left untouched sends the budget back: numeric amounts
      come back as they were, and a missing note as ''. */
  lemma SaveUnchangedBudget(budget: JsVal)
    requires Get(budget, "amountAllocated").Number? && Get(budget, "amountSpent").Number?
    ensures var p := BudgetPayload(EditBudgetForm(budget));
      Lookup(p, "amountAllocated") == Some(Get(budget, "amountAllocated")) &&
      Lookup(p, "amountSpent") == Some(Get(budget, "amountSpent")) &&
      Lookup(p, "title") == Some(Get(budget, "title")) &&
      Lookup(p, "note") == Some(Or(Get(budget, "note"), Str("")))
  {
    var form := EditBudgetForm(budget);
    EditBudgetCopiesFields(budget);
    assert Get(Obj(form), "amountAllocated") == Get(budget, "amountAllocated");
    assert Get(Obj(form), "amountSpent") == Get(budget, "amountSpent");
    assert Get(Obj(form), "title") == Get(budget, "title");
    assert Get(Obj(form), "note") == Or(Get(budget, "note"), Str(""));
    BudgetPayloadFields(form);
  }

  lemma EditBudgetKeysUnique(budget: JsVal)
    ensures UniqueKeys(EditBudgetForm(budget))
  {
  }

  /** The budgets page state the loader and the form handlers write. */
  class BudgetsPage {
    var budgets: seq<JsVal>
    var summary: Summary
    var loading: bool
    var formData: seq<Prop>
    var editingBudget: JsVal
    var modalOpen: bool

    constructor()
      ensures budgets == [] && summary == ZeroSummary() && loading && !modalOpen
      ensures editingBudget == Null && UniqueKeys(formData)
    {
      budgets := [];
      summary := ZeroSummary();
      loading := true;
      formData := [Prop("title", Str("")), Prop("category", Str("")), Prop("amountAllocated", Str("")),
                   Prop("amountSpent", Str("")), Prop("startDate", Str("")), Prop("endDate", Str("")),
                   Prop("recurring", Bool(false)), Prop("note", Str(""))];
      editingBudget := Null;
      modalOpen := false;
    }

    /** `loadData`: the list body, or `[]`, becomes the budgets, then the
        summary is folded over it; if the fold throws the old summary stays.
        A failed call, or a null response whose `data` read throws, keeps
        both. */
    method LoadData(list: Outcome<JsVal>)
      requires list.Fulfilled? ==> Or(Get(list.value, "data"), Arr([])).Arr?
      modifies this
      ensures list.Fulfilled? && !Nullish(list.value) ==> budgets == Or(Get(list.value, "data"), Arr([])).items
      ensures list.Fulfilled? && !Nullish(list.value) && BudgetSummary(budgets).Some? ==>
        summary == BudgetSummary(budgets).value
      ensures list.Rejected? || Nullish(list.value) || BudgetSummary(budgets).None? ==> summary == old(summary)
      ensures list.Rejected? || Nullish(list.value) ==> budgets == old(budgets)
      ensures !loading
      ensures formData == old(formData) && editingBudget == old(editingBudget) && modalOpen == old(modalOpen)
    {
      loading := true;
      if list.Fulfilled? && !Nullish(list.value) {
        budgets := Or(Get(list.value, "data"), Arr([])).items;
        var stats := BudgetSummary(budgets);
        if stats.Some? {
          summary := stats.value;
        }
      }
      loading := false;
    }

    /** `openModal(budget)`: an existing budget fills the form, no budget
        gives the new-budget defaults; the modal opens. A missing argument
        takes the default `null`. */
    method OpenModal(budget: JsVal, firstDay: string, lastDay: string)
      modifies this
      ensures editingBudget == (if budget.Undefined? then Null else budget) && modalOpen
      ensures Truthy(budget) ==> formData == EditBudgetForm(budget)
      ensures !Truthy(budget) ==> formData == NewBudgetForm(firstDay, lastDay)
      ensures budgets == old(budgets) && summary == old(summary) && loading == old(loading)
    {
      var form: seq<Prop>;
      if Truthy(budget) {
        form := EditBudgetForm(budget);
      } else {
        form := NewBudgetForm(firstDay, lastDay);
      }
      editingBudget, formData, modalOpen := if budget.Undefined? then Null else budget, form, true;
    }

    /** `handleInputChange`: the named field takes the box's `checked` flag
        for a checkbox and the input's value otherwise; nothing else moves. */
    method HandleInputChange(name: string, value: JsVal, inputType: string, checked: bool)
      modifies this
      ensures formData == Put(old(formData), name, if inputType == "checkbox" then Bool(checked) else value)
      ensures Lookup(formData, name) == Some(if inputType == "checkbox" then Bool(checked) else value)
      ensures forall k :: k != name ==> Lookup(formData, k) == Lookup(old(formData), k)
      ensures UniqueKeys(old(formData)) ==> UniqueKeys(formData)
      ensures budgets == old(budgets) && summary == old(summary) && modalOpen == old(modalOpen)
      ensures editingBudget == old(editingBudget) && loading == old(loading)
    {
      var v := if inputType == "checkbox" then Bool(checked) else value;
      LookupPutSame(formData, name, v);
      forall k | k != name ensures Lookup(Put(formData, name, v), k) == Lookup(formData, k) {
        LookupPutOther(formData, name, v, k);
      }
      if UniqueKeys(formData) {
        PutKeepsUniqueKeys(formData, name, v);
      }
      formData := Put(formData, name, v);
    }
  }
}
