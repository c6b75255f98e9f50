/** The dashboard page (src/pages/Dashboard.jsx): eight independent calls
    are combined into one view model. List calls that fail count as empty
    lists; a failed summary call makes the page fall back to a value derived
    from the lists; every amount read from a response goes through
    `safeNumber`. */
module Dashboard {
  import opened JsValue
  import opened JsText
  import opened JsNumber
  import opened JsArray

  /** `safeNumber`: `Number(v)`, with NaN read as 0. */
  function SafeNumber(v: JsVal): (r: real)
    ensures ToNumber(v).Finite? ==> r == ToNumber(v).r
    ensures ToNumber(v).NaN? ==> r == 0.0
    ensures v.Number? && v.n.Finite? ==> r == v.n.r
    ensures Nullish(v) || v.Obj? || (v.Number? && v.n.NaN?) ==> r == 0.0
  {
    match ToNumber(v)
    case Finite(x) => x
    case _ => 0.0
  }

  /** A number typed as decimal digits is read as that number. */
  lemma SafeNumberReadsDigits(n: nat)
    ensures SafeNumber(Str(NatText(n))) == n as real
  {
    NatTextRoundTrip(n);
  }

  /** `unwrap`: the response body when there is one, else the value itself,
      else an empty list. The result is never falsy. */
  function Unwrap(res: JsVal): (r: JsVal)
    ensures Truthy(r)
    ensures r == Get(res, "data") || r == res || r == Arr([])
    ensures Truthy(res) && Truthy(Get(res, "data")) ==> r == Get(res, "data")
    ensures Truthy(res) && !Truthy(Get(res, "data")) ==> r == res
    ensures !Truthy(res) ==> r == Arr([])
  {
    if Truthy(res) && Truthy(Get(res, "data")) then Get(res, "data") else Or(res, Arr([]))
  }

  /** The goal bar's unrounded percentage: a target of 0 divides by 1. */
  function GoalBarRatio(goal: JsVal): real
  {
    var current := SafeNumber(Pick(goal, ["currentAmount", "savedAmount"]));
    var target := SafeNumber(Get(goal, "targetAmount"));
    var safeTarget := if target == 0.0 then 1.0 else target;
    current / safeTarget * 100.0
  }

  /** `GoalBar`: `Math.min(100, Math.round(current / safeTarget * 100))`. The
      bar is drawn for a goal object from the loaded list. */
  function GoalBarPercentage(goal: JsVal): (r: real)
    requires !Nullish(goal)
    ensures r <= 100.0 && r == r.Floor as real
    ensures r < 100.0 ==> GoalBarRatio(goal) - 0.5 < r <= GoalBarRatio(goal) + 0.5
    ensures r == 100.0 <==> GoalBarRatio(goal) >= 99.5
    ensures GoalBarRatio(goal) < 99.5 ==> GoalBarRatio(goal) - 0.5 < r <= GoalBarRatio(goal) + 0.5
  {
    var p := RoundHalfUp(GoalBarRatio(goal)) as real;
    if 100.0 <= p then 100.0 else p
  }

  /** `items.reduce((acc, x) => acc + safeNumber(x.k1 || ... || x.kn), 0)`,
      None when an element is null or undefined (reading its field throws). */
  function Total(items: seq<JsVal>, keys: seq<string>): (r: Option<real>)
    requires keys != []
  {
    if items == [] then Some(0.0)
    else
      if Nullish(items[0]) then None
      else
        match Total(items[1..], keys)
        case None => None
        case Some(t) => Some(SafeNumber(Pick(items[0], keys)) + t)
  }

  /** A total throws exactly when the list holds null or undefined. */
  lemma {:induction false} TotalThrows(items: seq<JsVal>, keys: seq<string>)
    requires keys != []
    ensures Total(items, keys).None? <==> exists i :: 0 <= i < |items| && Nullish(items[i])
  {
    if items != [] {
      TotalThrows(items[1..], keys);
      assert forall i :: 1 <= i < |items| ==> items[i] == items[1..][i - 1];
    }
  }

  /** A total over two lists is the sum of their totals. */
  lemma {:induction false} TotalAppend(a: seq<JsVal>, b: seq<JsVal>, keys: seq<string>)
    requires keys != []
    ensures Total(a + b, keys) ==
      if Total(a, keys).Some? && Total(b, keys).Some?
      then Some(Total(a, keys).value + Total(b, keys).value)
      else None
  {
    if a == [] {
      assert a + b == b;
    } else {
      assert (a + b)[1..] == a[1..] + b;
      assert (a + b)[0] == a[0];
      TotalAppend(a[1..], b, keys);
    }
  }

  /** The total of a list value; a value that is not an array totals 0. */
  function ListTotal(v: JsVal, keys: seq<string>): (r: Option<real>)
    requires keys != []
    ensures !v.Arr? ==> r == Some(0.0)
  {
    Total(ItemsOf(v), keys)
  }

  /** A list call after `.catch(e => [])` and `unwrap`. */
  function ListValue(o: Outcome<JsVal>): (r: JsVal)
    ensures Truthy(r)
    ensures o.Rejected? ==> r == Arr([])
  {
    match o
    case Fulfilled(res) => Unwrap(res)
    case Rejected(_) => Arr([])
  }

  /** The net-worth body may be `{ netWorth: n }` or the bare number. */
  function ServerNetWorth(res: JsVal): (r: real)
    ensures Get(Unwrap(res), "netWorth") != Undefined ==> r == SafeNumber(Get(Unwrap(res), "netWorth"))
    ensures Get(Unwrap(res), "netWorth") == Undefined ==> r == SafeNumber(Unwrap(res))
  {
    var body := Unwrap(res);
    var raw := if Get(body, "netWorth") != Undefined then Get(body, "netWorth") else body;
    SafeNumber(raw)
  }

  /** The net-amount body: `balance` when present, a bare number as it is,
      anything else 0. */
  function ServerNetAmount(res: JsVal): (r: Num)
    ensures !Unwrap(res).Number? ==> r.Finite?
    ensures Get(Unwrap(res), "balance") != Undefined ==> r == Finite(SafeNumber(Get(Unwrap(res), "balance")))
    ensures Get(Unwrap(res), "balance") == Undefined && Unwrap(res).Number? ==> r == Unwrap(res).n
    ensures Get(Unwrap(res), "balance") == Undefined && !Unwrap(res).Number? ==> r == Finite(0.0)
  {
    var body := Unwrap(res);
    if Get(body, "balance") != Undefined then Finite(SafeNumber(Get(body, "balance")))
    else if body.Number? then body.n
    else Finite(0.0)
  }

  /** `(t.type || '').toLowerCase()`; None where it throws (a null element,
      or a truthy `type` that is not a string). */
  function TypeOf(t: JsVal): (r: Option<string>)
    ensures r.Some? ==> r.value == Lower(r.value)
  {
    if Nullish(t) then None
    else
      var ty := Or(Get(t, "type"), Str(""));
      if ty.Str? then LowerIdempotent(ty.s); Some(Lower(ty.s)) else None
  }

  /** The filter callback `t => (t.type || '').toLowerCase() === kind`. */
  function IsKind(kind: string): JsVal -> Option<bool>
  {
    (t: JsVal) => match TypeOf(t) case None => None case Some(s) => Some(s == kind)
  }

  /** The `amount` total of the elements `keep` accepts; None where the
      filter or the sum throws. */
  function KeptTotal(items: seq<JsVal>, keep: JsVal -> Option<bool>): Option<real>
  {
    match FilterBy(items, keep)
    case Some(kept) => Total(kept, ["amount"])
    case None => None
  }

  /** The total of the transactions of one kind. */
  function KindTotal(txns: seq<JsVal>, kind: string): Option<real>
  {
    KeptTotal(txns, IsKind(kind))
  }

  /** Income minus expense over the transaction list; None where a callback
      throws. */
  function CashFlowFromList(txns: seq<JsVal>): Option<real>
  {
    var income := KindTotal(txns, "income");
    var expense := KindTotal(txns, "expense");
    if income.Some? && expense.Some? then Some(income.value - expense.value) else None
  }

  /** An element the filter rejects leaves the kept total as it was. */
  lemma KeptTotalSkips(items: seq<JsVal>, t: JsVal, keep: JsVal -> Option<bool>)
    requires keep(t) == Some(false)
    ensures KeptTotal(items + [t], keep) == KeptTotal(items, keep)
  {
    FilterByAppend(items, [t], keep);
    FilterBySingle(t, keep);
    var kept := FilterBy(items, keep);
    if kept.Some? { assert kept.value + [] == kept.value; }
  }

  /** An element the filter accepts adds its amount to the kept total. */
  lemma KeptTotalAdds(items: seq<JsVal>, t: JsVal, keep: JsVal -> Option<bool>)
    requires keep(t) == Some(true) && !Nullish(t) && KeptTotal(items, keep).Some?
    ensures KeptTotal(items + [t], keep) == Some(KeptTotal(items, keep).value + SafeNumber(Get(t, "amount")))
  {
    FilterByAppend(items, [t], keep);
    FilterBySingle(t, keep);
    var kept := FilterBy(items, keep).value;
    assert FilterBy(items + [t], keep) == Some(kept + [t]);
    TotalAppend(kept, [t], ["amount"]);
    AmountTotalSingle(t);
  }

  /** A transaction of another kind leaves a kind's total as it was. */
  lemma KindTotalSkips(txns: seq<JsVal>, t: JsVal, kind: string)
    requires IsKind(kind)(t) == Some(false)
    ensures KindTotal(txns + [t], kind) == KindTotal(txns, kind)
  {
    KeptTotalSkips(txns, t, IsKind(kind));
  }

  /** A transaction of the kind adds its amount to that kind's total. */
  lemma KindTotalAdds(txns: seq<JsVal>, t: JsVal, kind: string)
    requires IsKind(kind)(t) == Some(true) && KindTotal(txns, kind).Some?
    ensures KindTotal(txns + [t], kind) == Some(KindTotal(txns, kind).value + SafeNumber(Get(t, "amount")))
  {
    assert !Nullish(t);
    KeptTotalAdds(txns, t, IsKind(kind));
  }

  lemma AmountTotalSingle(t: JsVal)
    requires !Nullish(t)
    ensures Total([t], ["amount"]) == Some(SafeNumber(Get(t, "amount")))
  {
    assert [t][1..] == [];
    assert Pick(t, ["amount"]) == Get(t, "amount");
  }

  /** The `active` filter over subscriptions. */
  function IsActive(s: JsVal): Option<bool>
  {
    if Nullish(s) then None else Some(Truthy(Get(s, "active")))
  }

  /** Every subscription the `active` filter keeps is an object, so the
      cost `reduce` over them cannot throw. */
  lemma ActiveCostDefined(subs: seq<JsVal>)
    requires FilterBy(subs, IsActive).Some?
    ensures Total(FilterBy(subs, IsActive).value, ["amount"]).Some?
  {
    FilterByMembers(subs, IsActive);
    var kept := FilterBy(subs, IsActive).value;
    TotalThrows(kept, ["amount"]);
    forall i | 0 <= i < |kept| ensures !Nullish(kept[i]) {
      assert kept[i] in kept;
    }
  }

  datatype DashboardData = DashboardData(
    netWorth: real,
    netAmount: Num,
    activeSubscriptions: nat,
    subscriptionCost: real,
    goalsCompleted: real,
    goalsTotal: real,
    recentTransactions: seq<JsVal>,
    goals: seq<JsVal>,
    assets: seq<JsVal>,
    debts: seq<JsVal>,
    grossAssets: real)

  /** The view model before the first load. */
  function InitialData(): DashboardData
  {
    DashboardData(0.0, Finite(0.0), 0, 0.0, 0.0, 0.0, [], [], [], [], 0.0)
  }

  /** The settled outcome of each call of one load. */
  datatype Responses = Responses(
    txns: Outcome<JsVal>,
    goals: Outcome<JsVal>,
    assets: Outcome<JsVal>,
    debts: Outcome<JsVal>,
    subs: Outcome<JsVal>,
    netWorth: Outcome<JsVal>,
    txnSummary: Outcome<JsVal>,
    goalStats: Outcome<JsVal>)

  const DebtKeys: seq<string> := ["amount", "value"]
  const AssetKeys: seq<string> := ["value", "amount", "currentValue"]

  function DebtTotal(rs: Responses): Option<real> { ListTotal(ListValue(rs.debts), DebtKeys) }
  function AssetTotal(rs: Responses): Option<real> { ListTotal(ListValue(rs.assets), AssetKeys) }

  /** Net worth: the server's value when that call succeeded, else the asset
      total minus the debt total. */
  function NetWorthOf(rs: Responses, assets: real, debts: real): real
  {
    match rs.netWorth
    case Fulfilled(res) => ServerNetWorth(res)
    case Rejected(_) => assets - debts
  }

  /** Gross assets: the asset total, unless it is 0 while the net worth is
      not, in which case net worth plus debts. */
  function GrossAssetsOf(assets: real, netWorth: real, debts: real): real
  {
    if assets == 0.0 && netWorth != 0.0 then netWorth + debts else assets
  }

  /** The cash flow the server reports; 0 when that call failed. */
  function ServerCashFlow(rs: Responses): Num
  {
    match rs.txnSummary
    case Fulfilled(res) => ServerNetAmount(res)
    case Rejected(_) => Finite(0.0)
  }

  /** The list fallback for cash flow applies when the server value is 0 and
      the transaction list is a non-empty array. */
  predicate UsesCashFlowFallback(rs: Responses)
  {
    ServerCashFlow(rs) == Finite(0.0) && ListValue(rs.txns).Arr? && |ListValue(rs.txns).items| > 0
  }

  /** The goal statistics: the unwrapped server response, or an empty object
      when that call failed. */
  function GoalStats(rs: Responses): JsVal
  {
    match rs.goalStats
    case Fulfilled(res) => Unwrap(res)
    case Rejected(_) => Obj([])
  }

  /** The body of `loadDashboardData` as one value: None when it throws
      (and the page keeps its previous data with zeroed totals). */
  function Aggregate(rs: Responses): (r: Option<DashboardData>)
    ensures r.Some? ==> |r.value.recentTransactions| <= 5 && r.value.recentTransactions <= ItemsOf(ListValue(rs.txns))
    ensures r.Some? ==> |r.value.goals| <= 3 && r.value.goals <= ItemsOf(ListValue(rs.goals))
    ensures r.Some? ==> |r.value.assets| <= 4 && r.value.assets <= ItemsOf(ListValue(rs.assets))
    ensures r.Some? ==> |r.value.debts| <= 4 && r.value.debts <= ItemsOf(ListValue(rs.debts))
    ensures r.Some? ==> r.value.activeSubscriptions <= |ItemsOf(ListValue(rs.subs))|
  {
    var txns := ListValue(rs.txns);
    var goals := ListValue(rs.goals);
    var subs := ListValue(rs.subs);
    var debtTotal := DebtTotal(rs);
    var assetTotal := AssetTotal(rs);
    var active := FilterBy(ItemsOf(subs), IsActive);
    var cash := if UsesCashFlowFallback(rs) then CashFlowFromList(txns.items) else Some(0.0);
    if debtTotal.None? || assetTotal.None? || active.None? || cash.None? then None
    else
      ActiveCostDefined(ItemsOf(subs));
      var netWorth := NetWorthOf(rs, assetTotal.value, debtTotal.value);
      var gStats := GoalStats(rs);
      var serverTotal := SafeNumber(Get(gStats, "totalGoals"));
      Some(DashboardData(
        netWorth := netWorth,
        netAmount := if UsesCashFlowFallback(rs) then Finite(cash.value) else ServerCashFlow(rs),
        activeSubscriptions := |active.value|,
        subscriptionCost := Total(active.value, ["amount"]).value,
        goalsCompleted := SafeNumber(Get(gStats, "completedGoals")),
        goalsTotal := if serverTotal != 0.0 then serverTotal else |ItemsOf(goals)| as real,
        recentTransactions := Take(ItemsOf(txns), 5),
        goals := Take(ItemsOf(goals), 3),
        assets := Take(ItemsOf(ListValue(rs.assets)), 4),
        debts := Take(ItemsOf(ListValue(rs.debts)), 4),
        grossAssets := GrossAssetsOf(assetTotal.value, netWorth, debtTotal.value)))
  }

  /** The page state that `loadDashboardData` writes. */
  class DashboardPage {
    var data: DashboardData
    var loading: bool

    constructor()
      ensures data == InitialData() && loading
    {
      data := InitialData();
      loading := true;
    }

    /** One load: the quantities are computed in turn, then written at once;
        a throw keeps the previous data with net worth and cash flow zeroed. */
    method LoadDashboardData(rs: Responses)
      modifies this
      ensures Aggregate(rs).Some? ==> data == Aggregate(rs).value
      ensures Aggregate(rs).None? ==> data == old(data).(netWorth := 0.0, netAmount := Finite(0.0))
      ensures !loading
    {
      loading := true;
      var txns := ListValue(rs.txns);
      var goals := ListValue(rs.goals);
      var assets := ListValue(rs.assets);
      var debts := ListValue(rs.debts);
      var subs := ListValue(rs.subs);

      var debtTotal := ListTotal(debts, DebtKeys);
      var assetTotal := ListTotal(assets, AssetKeys);
      assert debtTotal == DebtTotal(rs) && assetTotal == AssetTotal(rs);
      if debtTotal.None? || assetTotal.None? {
        data := data.(netWorth := 0.0, netAmount := Finite(0.0));
        loading := false;
        return;
      }

      var netWorth := 0.0;
      if rs.netWorth.Fulfilled? {
        netWorth := ServerNetWorth(rs.netWorth.value);
      } else {
        netWorth := assetTotal.value - debtTotal.value;
      }

      // safeNumber on the sum below is the identity on a finite number.
      var grossAssets := assetTotal.value;
      if grossAssets == 0.0 && netWorth != 0.0 {
        grossAssets := netWorth + debtTotal.value;
      }

      assert netWorth == NetWorthOf(rs, assetTotal.value, debtTotal.value);
      assert grossAssets == GrossAssetsOf(assetTotal.value, netWorth, debtTotal.value);

      var netAmount := Finite(0.0);
      if rs.txnSummary.Fulfilled? {
        netAmount := ServerNetAmount(rs.txnSummary.value);
      }
      assert netAmount == ServerCashFlow(rs);
      if netAmount == Finite(0.0) && txns.Arr? && |txns.items| > 0 {
        assert UsesCashFlowFallback(rs);
        var cash := CashFlowFromList(txns.items);
        if cash.None? {
          data := data.(netWorth := 0.0, netAmount := Finite(0.0));
          loading := false;
          return;
        }
        netAmount := Finite(cash.value);
      }

      var active := FilterBy(ItemsOf(subs), IsActive);
      if active.None? {
        data := data.(netWorth := 0.0, netAmount := Finite(0.0));
        loading := false;
        return;
      }
      ActiveCostDefined(ItemsOf(subs));
      var subscriptionCost := Total(active.value, ["amount"]).value;

      var gStats := Obj([]);
      if rs.goalStats.Fulfilled? {
        gStats := Unwrap(rs.goalStats.value);
      }
      var goalCompleted := SafeNumber(Get(gStats, "completedGoals"));
      var goalTotal := SafeNumber(Get(gStats, "totalGoals"));
      if goalTotal == 0.0 {
        goalTotal := |ItemsOf(goals)| as real;
      }

      assert goalTotal == (if SafeNumber(Get(gStats, "totalGoals")) != 0.0
        then SafeNumber(Get(gStats, "totalGoals")) else |ItemsOf(goals)| as real);
      data := DashboardData(
        netWorth := netWorth,
        netAmount := netAmount,
        activeSubscriptions := |active.value|,
        subscriptionCost := subscriptionCost,
        goalsCompleted := goalCompleted,
        goalsTotal := goalTotal,
        recentTransactions := Take(ItemsOf(txns), 5),
        goals := Take(ItemsOf(goals), 3),
        assets := Take(ItemsOf(assets), 4),
        debts := Take(ItemsOf(debts), 4),
        grossAssets := grossAssets);
      loading := false;
    }
  }

  /** A failed list call is indistinguishable from a response whose body is
      an empty list. */
  lemma FailedListIsEmptyList(o: Outcome<JsVal>, e: JsVal)
    requires o == Fulfilled(Obj([Prop("data", Arr([]))]))
    ensures ListValue(Rejected(e)) == ListValue(o)
  {
    assert Get(Obj([Prop("data", Arr([]))]), "data") == Arr([]);
  }

  /** Without the server's net worth, the page shows assets minus debts;
      and gross assets then always equals net worth plus debts, as the
      balance-sheet identity says. */
  lemma NetWorthFallback(rs: Responses)
    requires rs.netWorth.Rejected? && Aggregate(rs).Some?
    ensures Aggregate(rs).value.netWorth == AssetTotal(rs).value - DebtTotal(rs).value
    ensures Aggregate(rs).value.grossAssets == Aggregate(rs).value.netWorth + DebtTotal(rs).value
  {
  }

  /** When the asset list totals 0 but the net worth does not, gross assets
      are derived from the net worth; otherwise they are the asset total. */
  lemma GrossAssetsRule(rs: Responses)
    requires Aggregate(rs).Some?
    ensures var d := Aggregate(rs).value;
      if AssetTotal(rs).value == 0.0 && d.netWorth != 0.0
      then d.grossAssets == d.netWorth + DebtTotal(rs).value
      else d.grossAssets == AssetTotal(rs).value
  {
  }

  /** The cash flow differs from the server's figure only when that figure
      is 0 and the transaction list is a non-empty array. */
  lemma CashFlowFallbackOnlyOnZero(rs: Responses)
    requires Aggregate(rs).Some?
    ensures Aggregate(rs).value.netAmount != ServerCashFlow(rs) ==>
      ServerCashFlow(rs) == Finite(0.0) && ListValue(rs.txns).Arr? && |ListValue(rs.txns).items| > 0
  {
  }

  /** With the server's net worth, the page shows exactly that figure. */
  lemma NetWorthFromServer(rs: Responses)
    requires rs.netWorth.Fulfilled? && Aggregate(rs).Some?
    ensures Aggregate(rs).value.netWorth == ServerNetWorth(rs.netWorth.value)
  {
  }

  /** The cash flow shown: the list-derived figure (income minus expense)
      when the fallback applies, and the server's figure otherwise. */
  lemma CashFlowFigure(rs: Responses)
    requires Aggregate(rs).Some?
    ensures UsesCashFlowFallback(rs) ==>
      CashFlowFromList(ListValue(rs.txns).items).Some? &&
      Aggregate(rs).value.netAmount == Finite(CashFlowFromList(ListValue(rs.txns).items).value)
    ensures !UsesCashFlowFallback(rs) ==> Aggregate(rs).value.netAmount == ServerCashFlow(rs)
  {
  }

  /** The goal cards: completed goals as the server counts them, and total
      goals from the server unless it reports 0, then the length of the
      goal list. */
  lemma GoalFigures(rs: Responses)
    requires Aggregate(rs).Some?
    ensures var d := Aggregate(rs).value;
      var serverTotal := SafeNumber(Get(GoalStats(rs), "totalGoals"));
      d.goalsCompleted == SafeNumber(Get(GoalStats(rs), "completedGoals")) &&
      (serverTotal != 0.0 ==> d.goalsTotal == serverTotal) &&
      (serverTotal == 0.0 ==> d.goalsTotal == |ItemsOf(ListValue(rs.goals))| as real)
  {
  }

  /** The subscription cards: the active subscriptions are the ones the
      `isActive` filter keeps, and their cost is the sum of their amounts. */
  lemma SubscriptionFigures(rs: Responses)
    requires Aggregate(rs).Some?
    ensures var active := FilterBy(ItemsOf(ListValue(rs.subs)), IsActive);
      active.Some? && Aggregate(rs).value.activeSubscriptions == |active.value| &&
      Total(active.value, ["amount"]) == Some(Aggregate(rs).value.subscriptionCost)
  {
    ActiveCostDefined(ItemsOf(ListValue(rs.subs)));
  }

  /** The type test ignores letter case: "INCOME", "Income" and "income"
      all select the income filter. */
  lemma KindIgnoresCase(t: JsVal, s: string, kind: string)
    requires !Nullish(t) && Get(t, "type") == Str(s) && s != ""
    ensures IsKind(kind)(t) == Some(Lower(s) == kind)
  {
  }

  /** Transactions whose type is neither income nor expense do not move the
      list-derived cash flow. */
  lemma OtherTypesIgnored(txns: seq<JsVal>, t: JsVal)
    requires IsKind("income")(t) == Some(false) && IsKind("expense")(t) == Some(false)
    ensures CashFlowFromList(txns + [t]) == CashFlowFromList(txns)
  {
    KindTotalSkips(txns, t, "income");
    KindTotalSkips(txns, t, "expense");
  }

  /** The kind filters are disjoint: no transaction is counted as both
      income and expense. */
  lemma KindsDisjoint(t: JsVal, kind: string, other: string)
    requires IsKind(kind)(t) == Some(true) && kind != other
    ensures IsKind(other)(t) == Some(false)
  {
  }

  /** Inactive subscriptions cost nothing: adding one changes neither the
      active count nor the cost. */
  lemma {:induction false} InactiveSubscriptionIgnored(subs: seq<JsVal>, s: JsVal)
    requires IsActive(s) == Some(false)
    ensures FilterBy(subs + [s], IsActive) == FilterBy(subs, IsActive)
  {
    FilterByAppend(subs, [s], IsActive);
    assert FilterBy([s], IsActive) == Some([]);
    if FilterBy(subs, IsActive).Some? {
      assert FilterBy(subs, IsActive).value + [] == FilterBy(subs, IsActive).value;
    }
  }

  /** The subscription figures count and sum the active subscriptions only,
      and the goal total is the server's count unless that reads as 0, when
      it is the number of goals listed. */
  lemma SubscriptionAndGoalFigures(rs: Responses)
    requires Aggregate(rs).Some?
    ensures var d := Aggregate(rs).value;
      var subs := ItemsOf(ListValue(rs.subs));
      var active := FilterBy(subs, IsActive);
      active.Some? && d.activeSubscriptions == |active.value| &&
      (forall x :: x in active.value <==> x in subs && IsActive(x) == Some(true)) &&
      Total(active.value, ["amount"]) == Some(d.subscriptionCost)
    ensures var d := Aggregate(rs).value;
      var serverTotal := SafeNumber(Get(GoalStats(rs), "totalGoals"));
      (serverTotal != 0.0 ==> d.goalsTotal == serverTotal) &&
      (serverTotal == 0.0 ==> d.goalsTotal == |ItemsOf(ListValue(rs.goals))| as real)
  {
    FilterByMembers(ItemsOf(ListValue(rs.subs)), IsActive);
    ActiveCostDefined(ItemsOf(ListValue(rs.subs)));
  }

  /** The fallback scenario: the net-worth call fails, the asset list holds
      one asset worth 5000 and the debt list one debt of 2000; every other
      call fails. */
  function FallbackScenario(e: JsVal): Responses
  {
    var asset := Obj([Prop("value", Number(Finite(5000.0)))]);
    var debt := Obj([Prop("amount", Number(Finite(2000.0)))]);
    Responses(Rejected(e), Rejected(e),
      Fulfilled(Obj([Prop("data", Arr([asset]))])),
      Fulfilled(Obj([Prop("data", Arr([debt]))])),
      Rejected(e), Rejected(e), Rejected(e), Rejected(e))
  }

  lemma FallbackScenarioTotals(e: JsVal)
    ensures AssetTotal(FallbackScenario(e)) == Some(5000.0)
    ensures DebtTotal(FallbackScenario(e)) == Some(2000.0)
  {
    var asset := Obj([Prop("value", Number(Finite(5000.0)))]);
    var debt := Obj([Prop("amount", Number(Finite(2000.0)))]);
    assert Pick(asset, AssetKeys) == Number(Finite(5000.0));
    assert Pick(debt, DebtKeys) == Number(Finite(2000.0));
    assert Total([asset], AssetKeys) == Some(5000.0);
    assert Total([debt], DebtKeys) == Some(2000.0);
  }

  /** In the fallback scenario the page shows a net worth of 3000 and gross
      assets of 5000. */
  lemma NetWorthFallbackScenario(e: JsVal)
    ensures var r := Aggregate(FallbackScenario(e));
      r.Some? && r.value.netWorth == 3000.0 && r.value.grossAssets == 5000.0
  {
    FallbackScenarioTotals(e);
  }
}
