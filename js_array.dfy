/** The array operations the pages apply to server lists: `filter` with a
    callback that may throw (reading a field of a null element), and
    `slice(0, n)`. */
module JsArray {
  import opened JsValue

  /** `items.filter(keep)`. The callback answers None where it would throw;
      the first such element aborts the whole call. */
  function FilterBy(items: seq<JsVal>, keep: JsVal -> Option<bool>): (r: Option<seq<JsVal>>)
    ensures r.Some? ==> |r.value| <= |items|
  {
    if items == [] then Some([])
    else
      match keep(items[0])
      case None => None
      case Some(b) =>
        match FilterBy(items[1..], keep)
        case None => None
        case Some(rest) => Some(if b then [items[0]] + rest else rest)
  }

  /** Filtering works element by element: the kept elements of a
      concatenation are the kept elements of each part, in order. */
  lemma {:induction false} FilterByAppend(a: seq<JsVal>, b: seq<JsVal>, keep: JsVal -> Option<bool>)
    ensures FilterBy(a + b, keep) ==
      if FilterBy(a, keep).Some? && FilterBy(b, keep).Some?
      then Some(FilterBy(a, keep).value + FilterBy(b, keep).value)
      else None
  {
    if a == [] {
      assert a + b == b;
      if FilterBy(b, keep).Some? {
        assert [] + FilterBy(b, keep).value == FilterBy(b, keep).value;
      }
    } else {
      assert (a + b)[1..] == a[1..] + b;
      assert (a + b)[0] == a[0];
      FilterByAppend(a[1..], b, keep);
      if keep(a[0]).Some? && FilterBy(a[1..], keep).Some? && FilterBy(b, keep).Some? {
        if keep(a[0]).value {
          assert [a[0]] + (FilterBy(a[1..], keep).value + FilterBy(b, keep).value) ==
            ([a[0]] + FilterBy(a[1..], keep).value) + FilterBy(b, keep).value;
        }
      }
    }
  }

  /** The filter throws exactly when the callback throws on some element. */
  lemma {:induction false} FilterByThrows(items: seq<JsVal>, keep: JsVal -> Option<bool>)
    ensures FilterBy(items, keep).None? <==> exists i :: 0 <= i < |items| && keep(items[i]).None?
  {
    if items != [] {
      FilterByThrows(items[1..], keep);
      assert forall i :: 1 <= i < |items| ==> items[i] == items[1..][i - 1];
    }
  }

  /** A successful filter keeps exactly the elements the callback accepts. */
  lemma {:induction false} FilterByMembers(items: seq<JsVal>, keep: JsVal -> Option<bool>)
    requires FilterBy(items, keep).Some?
    ensures forall x :: x in FilterBy(items, keep).value <==> x in items && keep(x) == Some(true)
  {
    if items != [] {
      assert items == [items[0]] + items[1..];
      FilterByMembers(items[1..], keep);
    }
  }

  lemma FilterBySingle(x: JsVal, keep: JsVal -> Option<bool>)
    ensures keep(x) == Some(true) ==> FilterBy([x], keep) == Some([x])
    ensures keep(x) == Some(false) ==> FilterBy([x], keep) == Some([])
    ensures keep(x).None? ==> FilterBy([x], keep).None?
  {
    assert [x][1..] == [] && [x] + [] == [x];
    assert FilterBy([], keep) == Some([]);
  }

  /** `items.slice(0, n)`. */
  function Take(items: seq<JsVal>, n: nat): (r: seq<JsVal>)
    ensures r <= items
    ensures |r| == if |items| < n then |items| else n
  {
    if |items| < n then items else items[..n]
  }

  /** `Array.isArray(v) ? v : []`. */
  function ItemsOf(v: JsVal): (r: seq<JsVal>)
    ensures v.Arr? ==> r == v.items
    ensures !v.Arr? ==> r == []
  {
    if v.Arr? then v.items else []
  }

  /** `sub` is `items` with some elements left out, the rest in order. */
  predicate Subsequence(sub: seq<JsVal>, items: seq<JsVal>)
    decreases |items|
  {
    if sub == [] then true
    else if items == [] then false
    else (sub[0] == items[0] && Subsequence(sub[1..], items[1..])) || Subsequence(sub, items[1..])
  }

  /** A filter keeps the elements it accepts in their original order. */
  lemma {:induction false} FilterBySubsequence(items: seq<JsVal>, keep: JsVal -> Option<bool>)
    requires FilterBy(items, keep).Some?
    ensures Subsequence(FilterBy(items, keep).value, items)
  {
    if items != [] {
      FilterBySubsequence(items[1..], keep);
      var rest := FilterBy(items[1..], keep).value;
      if keep(items[0]) == Some(true) {
        assert FilterBy(items, keep).value == [items[0]] + rest;
        assert ([items[0]] + rest)[1..] == rest;
      } else {
        SubsequenceOfTail(rest, items);
      }
    }
  }

  lemma SubsequenceOfTail(sub: seq<JsVal>, items: seq<JsVal>)
    requires items != [] && Subsequence(sub, items[1..])
    ensures Subsequence(sub, items)
  {
  }
}
