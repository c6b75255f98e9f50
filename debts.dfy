/** The debts page (src/pages/wealth/Debts.jsx): the attribute fields of
    each debt category, the edit pre-fill with its date trimming, the save
    payload and the loaded stats. The change handlers are the shared ones
    of module CategoryForm. */
module Debts {
  import opened JsValue
  import opened JsText
  import opened JsNumber
  import opened CategoryForm

  /** `DEBT_CATEGORY_RULES[category]`. */
  function DebtCategoryRules(category: string): Option<seq<Field>>
  {
    match category
    case "CREDIT_CARD" => Some([
      Field("interestRate", "APR / Interest Rate (%)", NumberInput("e.g. 18.5")),
      Field("minPayment", "Min Payment", NumberInput("e.g. 5000"))])
    case "HOME_LOAN" => Some([
      Field("interestRate", "Interest Rate (%)", NumberInput("e.g. 8.5")),
      Field("tenure", "Tenure (Years)", NumberInput("e.g. 20"))])
    case "PERSONAL_LOAN" => Some([
      Field("interestRate", "Interest Rate (%)", NumberInput("e.g. 12.0")),
      Field("emi", "Monthly EMI", NumberInput("e.g. 15000"))])
    case "EMI" => Some([
      Field("emiAmount", "EMI Amount", NumberInput("e.g. 2500")),
      Field("duration", "Duration (Months)", NumberInput("e.g. 12"))])
    case _ => None
  }

  lemma DebtRuleKeysDistinct(category: string)
    requires DebtCategoryRules(category).Some?
    ensures DistinctKeys(DebtCategoryRules(category).value)
  {
  }

  /** The form of an existing debt: the due date cut to its date part, or
      '' when there is none; None where the cut throws. */
  function EditDebtForm(debt: JsVal): Option<seq<Prop>>
  {
    match DateOnly(Get(debt, "dueDate"), "")
    case None => None
    case Some(due) => Some([
      Prop("name", Get(debt, "name")), Prop("category", Get(debt, "category")),
      Prop("outstandingAmount", Get(debt, "outstandingAmount")), Prop("dueDate", Str(due)),
      Prop("attributes", Or(Get(debt, "attributes"), Obj([])))])
  }

  function NewDebtForm(): seq<Prop>
  {
    [Prop("name", Str("")), Prop("category", Str("")), Prop("outstandingAmount", Str("")),
     Prop("dueDate", Str("")), Prop("attributes", Obj([]))]
  }

  /** Editing a debt due at a timestamp `date` + "T" + time pre-fills the
      date alone; a debt without a due date pre-fills ''. */
  lemma EditDueDate(debt: JsVal, date: string, time: string)
    requires 'T' !in date
    ensures Get(debt, "dueDate") == Str(date + "T" + time) ==>
      EditDebtForm(debt).Some? && Lookup(EditDebtForm(debt).value, "dueDate") == Some(Str(date))
    ensures !Truthy(Get(debt, "dueDate")) ==>
      EditDebtForm(debt).Some? && Lookup(EditDebtForm(debt).value, "dueDate") == Some(Str(""))
  {
    if Get(debt, "dueDate") == Str(date + "T" + time) {
      DateOnlyOfTimestamp(date, time, "");
    }
    match EditDebtForm(debt)
    case Some(f) =>
      LookupAt(f, 3);
    case None =>
  }

  /** `handleSubmit`'s payload: the amount read as a number and a blank due
      date sent as null. */
  function DebtPayload(form: seq<Prop>): seq<Prop>
  {
    var f := Obj(form);
    [Prop("name", Get(f, "name")), Prop("category", Get(f, "category")),
     Prop("outstandingAmount", Number(ParseFloat(Get(f, "outstandingAmount")))),
     Prop("dueDate", Or(Get(f, "dueDate"), Null)), Prop("attributes", Get(f, "attributes"))]
  }

  lemma PayloadDueDate(form: seq<Prop>)
    ensures var p := DebtPayload(form);
      (!Truthy(Get(Obj(form), "dueDate")) ==> Lookup(p, "dueDate") == Some(Null)) &&
      (Truthy(Get(Obj(form), "dueDate")) ==> Lookup(p, "dueDate") == Some(Get(Obj(form), "dueDate"))) &&
      Lookup(p, "outstandingAmount") == Some(Number(ParseFloat(Get(Obj(form), "outstandingAmount"))))
  {
    var p := DebtPayload(form);
    LookupAt(p, 2); LookupAt(p, 3);
  }

  /** The new-debt form with only an amount typed in reads back that
      amount and a blank due date. */
  lemma NewFormReads(amount: JsVal)
    ensures var f := Obj(Put(NewDebtForm(), "outstandingAmount", amount));
      Get(f, "dueDate") == Str("") && Get(f, "outstandingAmount") == amount
  {
    var form := NewDebtForm();
    LookupAt(form, 3);
    LookupPutSame(form, "outstandingAmount", amount);
    LookupPutOther(form, "outstandingAmount", amount, "dueDate");
  }

  /** A new debt saved with a blank due date sends null, and an amount typed
      as digits is sent as that number. */
  lemma NewDebtPayload(n: nat)
    ensures var p := DebtPayload(Put(NewDebtForm(), "outstandingAmount", Str(NatText(n))));
      Lookup(p, "dueDate") == Some(Null) && Lookup(p, "outstandingAmount") == Some(Number(Finite(n as real)))
  {
    var form := Put(NewDebtForm(), "outstandingAmount", Str(NatText(n)));
    NewFormReads(Str(NatText(n)));
    PayloadDueDate(form);
    NatTextRoundTrip(n);
    assert ParseFloat(Str(NatText(n))) == Finite(n as real);
  }

  /** The stats shown when the server sends none. */
  function DefaultDebtStats(): JsVal
  {
    Obj([Prop("totalDebtAmount", Num0()), Prop("totalOutstandingAmount", Num0())])
  }

  /** The loaded list and stats. */
  datatype DebtsState = DebtsState(debts: JsVal, stats: JsVal)

  /** `loadData`: both calls must succeed; a missing list is empty and
      missing stats are zero totals. The list is set before the stats, so
      a null stats response keeps the old stats after the new list, and a
      null list response keeps both. */
  function Load(st: DebtsState, list: Outcome<JsVal>, stats: Outcome<JsVal>): (r: DebtsState)
    ensures list.Rejected? || stats.Rejected? ==> r == st
    ensures list.Fulfilled? && stats.Fulfilled? ==>
      r.debts == (if Nullish(list.value) then st.debts
                  else if Truthy(Get(list.value, "data")) then Get(list.value, "data") else Arr([])) &&
      r.stats == (if Nullish(list.value) || Nullish(stats.value) then st.stats
                  else if Truthy(Get(stats.value, "data")) then Get(stats.value, "data") else DefaultDebtStats())
  {
    if list.Rejected? || stats.Rejected? || Nullish(list.value) then st
    else
      var s1 := st.(debts := Or(Get(list.value, "data"), Arr([])));
      if Nullish(stats.value) then s1
      else s1.(stats := Or(Get(stats.value, "data"), DefaultDebtStats()))
  }
}
