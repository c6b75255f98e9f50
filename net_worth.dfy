/** The net-worth page (src/pages/wealth/NetWorth.jsx): the totals read from
    three summary responses of varying shape, the asset and debt shares of
    the split bar, and the three largest assets and debts. */
module NetWorth {
  import opened JsValue
  import opened JsNumber
  import opened JsArray

  /** `calculatePercentage(part, total)`: 0 for a zero or NaN total, else
      `Math.round(part / total * 100)`. */
  function CalculatePercentage(part: JsVal, total: Num): (r: Num)
    ensures total == Finite(0.0) || total.NaN? ==> r == Finite(0.0)
    ensures ToNumber(part).Finite? && total.Finite? && total.r != 0.0 ==>
      r == Finite(RoundHalfUp(ToNumber(part).r / total.r * 100.0) as real)
  {
    if total == Finite(0.0) || total.NaN? then Finite(0.0)
    else Round(Scale(Div(ToNumber(part), total), 100.0))
  }

  /** The three totals the page shows. */
  datatype Financials = Financials(netWorth: JsVal, totalAssets: JsVal, totalDebt: JsVal)

  /** The asset share and the debt share of the split bar, both against
      `totalAssets + totalDebt`. None where `+` would concatenate text. */
  function Shares(f: Financials): (r: Option<(Num, Num)>)
    ensures r.Some? ==> (Plus(f.totalAssets, f.totalDebt).Some? &&
      r.value.0 == CalculatePercentage(f.totalAssets, Plus(f.totalAssets, f.totalDebt).value) &&
      r.value.1 == CalculatePercentage(f.totalDebt, Plus(f.totalAssets, f.totalDebt).value))
    ensures r.None? <==> Plus(f.totalAssets, f.totalDebt).None?
  {
    match Plus(f.totalAssets, f.totalDebt)
    case None => None
    case Some(volume) => Some((CalculatePercentage(f.totalAssets, volume), CalculatePercentage(f.totalDebt, volume)))
  }

  /** Two rounded shares of one whole add up to 100, or to 101 when both
      round a half upwards. */
  lemma RoundedSharesSum(p: real)
    ensures 100 <= RoundHalfUp(p) + RoundHalfUp(100.0 - p) <= 101
  {
  }

  /** For non-negative amounts not both zero, each share is a whole
      percentage between 0 and 100 and the two add up to 100 or 101. */
  lemma SharesOfAmounts(a: real, d: real)
    requires a >= 0.0 && d >= 0.0 && a + d > 0.0
    ensures var s := Shares(Financials(Num0(), Number(Finite(a)), Number(Finite(d))));
      s.Some? && s.value.0.Finite? && s.value.1.Finite? &&
      0.0 <= s.value.0.r <= 100.0 && 0.0 <= s.value.1.r <= 100.0 &&
      100.0 <= s.value.0.r + s.value.1.r <= 101.0
  {
    var t := a + d;
    var p := a / t * 100.0;
    assert a / t + d / t == t / t == 1.0;
    assert d / t * 100.0 == 100.0 - p;
    assert 0.0 <= a / t <= t / t;
    assert 0.0 <= p <= 100.0;
    RoundedSharesSum(p);
    var n, m := RoundHalfUp(p), RoundHalfUp(100.0 - p);
    assert 0 <= n <= 100 && 0 <= m <= 100;
  }

  /** An empty portfolio shows 0% for both. */
  lemma EmptyPortfolioShares()
    ensures Shares(Financials(Num0(), Num0(), Num0())) == Some((Finite(0.0), Finite(0.0)))
  {
  }

  /** `typeof data === 'object' ? data[key] : data`. `typeof null` is
      'object' too, so a null body throws (None). */
  function ShapeValue(data: JsVal, key: string): (r: Option<JsVal>)
    ensures data.Null? <==> r.None?
    ensures data.Obj? ==> r == Some(Get(data, key))
    ensures data.Number? || data.Str? || data.Bool? || data.Undefined? ==> r == Some(data)
  {
    if data.Null? then None
    else if data.Obj? || data.Arr? then Some(Get(data, key))
    else Some(data)
  }

  /** The order the sort comparators induce on numbers: larger first, with
      infinities at the ends. A NaN difference is "equal" to JavaScript,
      which no total order matches; the model puts NaN last. */
  function Tier(n: Num): nat
  {
    match n
    case NaN => 0
    case NegInf => 1
    case Finite(_) => 2
    case PosInf => 3
  }

  predicate RankLe(a: Num, b: Num)
  {
    Tier(a) < Tier(b) || (Tier(a) == Tier(b) && (a.Finite? ==> a.r <= b.r))
  }

  /** `(x.currentValue || x.value)`, the asset comparator's key. */
  function AssetKey(x: JsVal): Num
  {
    ToNumber(Or(Get(x, "currentValue"), Get(x, "value")))
  }

  /** `x.outstandingAmount`, the debt comparator's key. */
  function DebtKey(x: JsVal): Num
  {
    ToNumber(Get(x, "outstandingAmount"))
  }

  /** Non-increasing by key. */
  predicate SortedDesc(s: seq<JsVal>, key: JsVal -> Num)
  {
    forall i, j :: 0 <= i < j < |s| ==> RankLe(key(s[j]), key(s[i]))
  }

  /** Put `x` in front of the first element that does not outrank it. */
  function Insert(x: JsVal, s: seq<JsVal>, key: JsVal -> Num): (r: seq<JsVal>)
    ensures multiset(r) == multiset(s) + multiset{x}
    ensures |r| == |s| + 1
  {
    if s == [] || RankLe(key(s[0]), key(x)) then [x] + s
    else
      assert s == [s[0]] + s[1..];
      [s[0]] + Insert(x, s[1..], key)
  }

  lemma {:induction false} InsertSorted(x: JsVal, s: seq<JsVal>, key: JsVal -> Num)
    requires SortedDesc(s, key)
    ensures SortedDesc(Insert(x, s, key), key)
    ensures Insert(x, s, key) != [] && (Insert(x, s, key)[0] == x || Insert(x, s, key)[0] == s[0])
  {
    if s != [] && !RankLe(key(s[0]), key(x)) {
      InsertSorted(x, s[1..], key);
      var r := Insert(x, s[1..], key);
      HeadOutranksInsert(x, s, r, key);
      SortedCons(s[0], r, key);
    }
  }

  /** Every element of `s[1..]` with `x` inserted ranks no higher than
      `s[0]`, when `s` is sorted and `x` ranks below `s[0]`. */
  lemma HeadOutranksInsert(x: JsVal, s: seq<JsVal>, r: seq<JsVal>, key: JsVal -> Num)
    requires s != [] && SortedDesc(s, key) && !RankLe(key(s[0]), key(x))
    requires multiset(r) == multiset(s[1..]) + multiset{x}
    ensures forall j :: 0 <= j < |r| ==> RankLe(key(r[j]), key(s[0]))
  {
    forall j | 0 <= j < |r| ensures RankLe(key(r[j]), key(s[0])) {
      assert r[j] in multiset(r);
      if r[j] != x {
        assert r[j] in s[1..];
        var k :| 0 <= k < |s[1..]| && s[1..][k] == r[j];
        assert s[k + 1] == r[j];
      }
    }
  }

  /** A sorted list stays sorted under a head that outranks all of it. */
  lemma SortedCons(h: JsVal, r: seq<JsVal>, key: JsVal -> Num)
    requires SortedDesc(r, key)
    requires forall j :: 0 <= j < |r| ==> RankLe(key(r[j]), key(h))
    ensures SortedDesc([h] + r, key)
  {
    var t := [h] + r;
    forall i, j | 0 <= i < j < |t| ensures RankLe(key(t[j]), key(t[i])) {
      assert t[j] == r[j - 1];
      if i > 0 {
        assert t[i] == r[i - 1];
      }
    }
  }

  /** `items.sort(comparator)` for a comparator that never throws: an
      insertion sort, stable like the engine's. */
  function SortDesc(items: seq<JsVal>, key: JsVal -> Num): (r: seq<JsVal>)
    ensures multiset(r) == multiset(items)
    ensures |r| == |items|
  {
    if items == [] then []
    else
      assert items == [items[0]] + items[1..];
      Insert(items[0], SortDesc(items[1..], key), key)
  }

  lemma {:induction false} SortDescSorted(items: seq<JsVal>, key: JsVal -> Num)
    ensures SortedDesc(SortDesc(items, key), key)
  {
    if items != [] {
      SortDescSorted(items[1..], key);
      InsertSorted(items[0], SortDesc(items[1..], key), key);
    }
  }

  /** `(list || []).sort(comparator).slice(0, 3)`. None where it throws: a
      body that is not an array has no `sort`, and the comparator reads a
      field of each element, so a null element throws once there are two
      elements to compare. */
  function TopThree(list: JsVal, key: JsVal -> Num): Option<seq<JsVal>>
  {
    var arr := Or(list, Arr([]));
    if !arr.Arr? then None
    else if |arr.items| >= 2 && exists i :: 0 <= i < |arr.items| && Nullish(arr.items[i]) then None
    else Some(Take(SortDesc(arr.items, key), 3))
  }

  /** The top list holds at most three of the listed items, largest first,
      and none of the items left out is larger than the last one kept. */
  lemma TopThreeProperties(items: seq<JsVal>, key: JsVal -> Num)
    requires TopThree(Arr(items), key).Some?
    ensures var top := TopThree(Arr(items), key).value;
      |top| == (if |items| < 3 then |items| else 3) &&
      multiset(top) <= multiset(items) &&
      SortedDesc(top, key) &&
      forall x :: x in multiset(items) - multiset(top) ==> RankLe(key(x), key(top[|top| - 1]))
  {
    var s := SortDesc(items, key);
    SortDescSorted(items, key);
    var top := Take(s, 3);
    assert top == TopThree(Arr(items), key).value;
    SortedPrefix(s, |top|, key);
  }

  /** Cutting a sorted list after n items: the prefix is sorted, and every
      item of the rest ranks no higher than the prefix's last. */
  lemma SortedPrefix(s: seq<JsVal>, n: nat, key: JsVal -> Num)
    requires SortedDesc(s, key) && n <= |s|
    ensures multiset(s) == multiset(s[..n]) + multiset(s[n..])
    ensures SortedDesc(s[..n], key)
    ensures n > 0 ==> forall x :: x in multiset(s[n..]) ==> RankLe(key(x), key(s[n - 1]))
  {
    assert s == s[..n] + s[n..];
    if n > 0 {
      forall x | x in multiset(s[n..])
        ensures RankLe(key(x), key(s[n - 1]))
      {
        var k :| 0 <= k < |s[n..]| && s[n..][k] == x;
        assert s[n + k] == x;
      }
    }
  }

  /** The page's state after a load. */
  datatype NetWorthState = NetWorthState(financials: Financials, topAssets: seq<JsVal>, topDebts: seq<JsVal>)

  function InitialState(): NetWorthState
  {
    NetWorthState(Financials(Num0(), Num0(), Num0()), [], [])
  }

  /** `loadDashboardData`: all five calls must succeed (`Promise.all`).
      The totals are set first; a throw while sorting the asset list keeps
      the old top lists, one while sorting the debt list keeps the old top
      debts. A null response throws where its `data` is read: before the
      totals for the three total calls, and at its own list otherwise. */
  function Load(st: NetWorthState, netWorthRes: Outcome<JsVal>, assetsTotalRes: Outcome<JsVal>,
                debtStatsRes: Outcome<JsVal>, assetsListRes: Outcome<JsVal>, debtsListRes: Outcome<JsVal>): (r: NetWorthState)
    ensures (netWorthRes.Rejected? || assetsTotalRes.Rejected? || debtStatsRes.Rejected? ||
             assetsListRes.Rejected? || debtsListRes.Rejected?) ==> r == st
    ensures (netWorthRes.Fulfilled? && assetsTotalRes.Fulfilled? && debtStatsRes.Fulfilled? &&
             (Nullish(netWorthRes.value) || Nullish(assetsTotalRes.value) || Nullish(debtStatsRes.value))) ==> r == st
  {
    if netWorthRes.Rejected? || assetsTotalRes.Rejected? || debtStatsRes.Rejected? ||
       assetsListRes.Rejected? || debtsListRes.Rejected? then st
    else if Nullish(netWorthRes.value) || Nullish(assetsTotalRes.value) || Nullish(debtStatsRes.value) then st
    else
      var nw := ShapeValue(Get(netWorthRes.value, "data"), "netWorth");
      var at := ShapeValue(Get(assetsTotalRes.value, "data"), "totalValue");
      if nw.None? || at.None? then st
      else
        var debt := Or(Get(Get(debtStatsRes.value, "data"), "totalOutstandingAmount"), Num0());
        var f := Financials(Or(nw.value, Num0()), Or(at.value, Num0()), Or(debt, Num0()));
        var assets := if Nullish(assetsListRes.value) then None else TopThree(Get(assetsListRes.value, "data"), AssetKey);
        var debts := if Nullish(debtsListRes.value) then None else TopThree(Get(debtsListRes.value, "data"), DebtKey);
        if assets.None? then NetWorthState(f, st.topAssets, st.topDebts)
        else if debts.None? then NetWorthState(f, assets.value, st.topDebts)
        else NetWorthState(f, assets.value, debts.value)
  }

  /** Each total is read from the body's field when the body is an object
      and is the body itself otherwise, a missing value counting as 0; the
      debt total is `totalOutstandingAmount` or 0. */
  lemma LoadedTotals(st: NetWorthState, nwData: JsVal, atData: JsVal, debtData: JsVal,
                     al: Outcome<JsVal>, dl: Outcome<JsVal>)
    requires !nwData.Null? && !atData.Null? && al.Fulfilled? && dl.Fulfilled?
    ensures var f := Load(st, Fulfilled(Obj([Prop("data", nwData)])), Fulfilled(Obj([Prop("data", atData)])),
                          Fulfilled(Obj([Prop("data", debtData)])), al, dl).financials;
      f.netWorth == Or(if nwData.Obj? || nwData.Arr? then Get(nwData, "netWorth") else nwData, Num0()) &&
      f.totalAssets == Or(if atData.Obj? || atData.Arr? then Get(atData, "totalValue") else atData, Num0()) &&
      f.totalDebt == Or(Get(debtData, "totalOutstandingAmount"), Num0())
  {
  }

  /** Once the totals are set, the top assets are the three largest of
      the asset list, and the top debts those of the debt list; a list
      whose response is null or whose sort throws keeps its old top list,
      and a throw on the asset list also keeps the old top debts. */
  lemma LoadedTopLists(st: NetWorthState, nw: JsVal, at: JsVal, ds: JsVal, al: JsVal, dl: JsVal)
    requires !Nullish(nw) && !Nullish(at) && !Nullish(ds)
    requires ShapeValue(Get(nw, "data"), "netWorth").Some? && ShapeValue(Get(at, "data"), "totalValue").Some?
    ensures var r := Load(st, Fulfilled(nw), Fulfilled(at), Fulfilled(ds), Fulfilled(al), Fulfilled(dl));
      var assets := if Nullish(al) then None else TopThree(Get(al, "data"), AssetKey);
      var debts := if Nullish(dl) then None else TopThree(Get(dl, "data"), DebtKey);
      r.topAssets == (if assets.Some? then assets.value else st.topAssets) &&
      r.topDebts == (if assets.Some? && debts.Some? then debts.value else st.topDebts)
  {
  }

  /** A null summary body throws before anything is set. */
  lemma NullBodyKeepsState(st: NetWorthState, at: Outcome<JsVal>, ds: Outcome<JsVal>,
                           al: Outcome<JsVal>, dl: Outcome<JsVal>)
    ensures Load(st, Fulfilled(Obj([Prop("data", Null)])), at, ds, al, dl) == st
  {
  }
}
