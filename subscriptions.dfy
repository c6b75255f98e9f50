/** The subscriptions page (src/pages/treasury/Subscriptions.jsx): a list
    loaded twelve at a time, where page 0 replaces the list and later pages
    append to it; an optimistic active/paused toggle that restores a
    snapshot when the server refuses it; the billing totals; and the local
    search over the loaded items. */
module Subscriptions {
  import opened JsValue
  import opened JsText
  import opened JsArray

  /** The loaded list and its paging position. */
  datatype ListState = ListState(subs: seq<JsVal>, page: int, hasMore: bool)

  /** A response body is paged when it is truthy with a truthy `content`. */
  predicate Paged(data: JsVal)
  {
    Truthy(data) && Truthy(Get(data, "content"))
  }

  /** `response.data || response`. */
  function Body(response: JsVal): JsVal
  {
    Or(Get(response, "data"), response)
  }

  /** `fetchPageData(pageNumber)` once the response is in: a paged body
      replaces (page 0) or extends (any later page) the list and records the
      page and whether more follow; any other body becomes the whole list
      when it is an array, else the list empties, and no more pages follow.
      None where it throws: a null response, or a page whose content is not
      an array. */
  function LoadPage(st: ListState, pageNumber: int, response: JsVal): (r: Option<ListState>)
    ensures Nullish(response) ==> r.None?
    ensures r.Some? && Paged(Body(response)) ==>
      r.value.page == pageNumber && r.value.hasMore == !Truthy(Get(Body(response), "last"))
    ensures r.Some? && !Paged(Body(response)) ==>
      r.value.page == st.page && !r.value.hasMore && r.value.subs == ItemsOf(Body(response))
  {
    if Nullish(response) then None
    else
      var data := Body(response);
      if Paged(data) then
        var content := Get(data, "content");
        if !content.Arr? then None
        else
          var subs := if pageNumber == 0 then content.items else st.subs + content.items;
          Some(ListState(subs, pageNumber, !Truthy(Get(data, "last"))))
      else Some(ListState(ItemsOf(data), st.page, false))
  }

  /** Page 0 replaces the list with exactly that page. */
  lemma FirstPageReplaces(st: ListState, response: JsVal, content: seq<JsVal>)
    requires !Nullish(response) && Paged(Body(response)) && Get(Body(response), "content") == Arr(content)
    ensures LoadPage(st, 0, response).Some? && LoadPage(st, 0, response).value.subs == content
  {
  }

  /** A later page appends: the loaded items stay, unchanged and in order,
      and the page follows them. */
  lemma LaterPageAppends(st: ListState, n: int, response: JsVal, content: seq<JsVal>)
    requires n != 0
    requires !Nullish(response) && Paged(Body(response)) && Get(Body(response), "content") == Arr(content)
    ensures var r := LoadPage(st, n, response);
      r.Some? && |r.value.subs| == |st.subs| + |content| &&
      r.value.subs[..|st.subs|] == st.subs && r.value.subs[|st.subs|..] == content
  {
    var subs := LoadPage(st, n, response).value.subs;
    assert subs == st.subs + content;
  }

  /** Loading pages 0 to k in turn lists their contents in page order,
      whatever was loaded before. */
  lemma {:induction false} PagesConcatenate(st: ListState, responses: seq<JsVal>, contents: seq<seq<JsVal>>)
    requires |responses| == |contents| > 0
    requires forall i :: 0 <= i < |responses| ==>
      !Nullish(responses[i]) && Paged(Body(responses[i])) && Get(Body(responses[i]), "content") == Arr(contents[i])
    ensures LoadPages(st, responses).Some?
    ensures LoadPages(st, responses).value.subs == Flatten(contents)
    ensures LoadPages(st, responses).value.page == |responses| - 1
  {
    if |responses| > 1 {
      var k := |responses| - 1;
      PagesConcatenate(st, responses[..k], contents[..k]);
      var before := LoadPages(st, responses[..k]).value;
      assert responses[..k] == responses[..|responses| - 1];
      LaterPageAppends(before, k, responses[k], contents[k]);
      FlattenSnoc(contents[..k], contents[k]);
      assert contents[..k] + [contents[k]] == contents;
    } else {
      FirstPageReplaces(st, responses[0], contents[0]);
      assert Flatten(contents) == contents[0] + Flatten([]);
    }
  }

  /** The pages loaded in order, page i from `responses[i]`. */
  function LoadPages(st: ListState, responses: seq<JsVal>): Option<ListState>
    requires responses != []
  {
    var k := |responses| - 1;
    var before := if k == 0 then Some(st) else LoadPages(st, responses[..k]);
    if before.None? then None else LoadPage(before.value, k, responses[k])
  }

  function Flatten(parts: seq<seq<JsVal>>): seq<JsVal>
  {
    if parts == [] then [] else parts[0] + Flatten(parts[1..])
  }

  lemma {:induction false} FlattenSnoc(parts: seq<seq<JsVal>>, last: seq<JsVal>)
    ensures Flatten(parts + [last]) == Flatten(parts) + last
  {
    if parts == [] {
      assert [] + [last] == [last];
      assert Flatten([last]) == last + Flatten([]);
    } else {
      assert (parts + [last])[1..] == parts[1..] + [last];
      FlattenSnoc(parts[1..], last);
    }
  }

  /** The billing totals the cards show. */
  datatype Stats = Stats(daily: JsVal, weekly: JsVal, monthly: JsVal, quarterly: JsVal, yearly: JsVal)

  function InitialStats(): Stats
  {
    Stats(Num0(), Num0(), Num0(), Num0(), Num0())
  }

  /** `fetchDashboardStats` once the response is in: each total as sent, or
      0 when missing. None where reading the body throws (a null response);
      the caller then keeps its totals. */
  function StatsOf(response: JsVal): (r: Option<Stats>)
    ensures r.None? <==> Nullish(response)
    ensures r.Some? ==>
      forall v :: v in [r.value.daily, r.value.weekly, r.value.monthly, r.value.quarterly, r.value.yearly] ==>
        Truthy(v) || v == Num0()
    ensures r.Some? ==>
      (Truthy(Get(Body(response), "daily")) ==> r.value.daily == Get(Body(response), "daily")) &&
      (Truthy(Get(Body(response), "weekly")) ==> r.value.weekly == Get(Body(response), "weekly")) &&
      (Truthy(Get(Body(response), "monthly")) ==> r.value.monthly == Get(Body(response), "monthly")) &&
      (Truthy(Get(Body(response), "quarterly")) ==> r.value.quarterly == Get(Body(response), "quarterly")) &&
      (Truthy(Get(Body(response), "yearly")) ==> r.value.yearly == Get(Body(response), "yearly"))
  {
    if Nullish(response) then None
    else
      var data := Body(response);
      Some(Stats(Or(Get(data, "daily"), Num0()), Or(Get(data, "weekly"), Num0()),
                 Or(Get(data, "monthly"), Num0()), Or(Get(data, "quarterly"), Num0()),
                 Or(Get(data, "yearly"), Num0())))
  }

  /** The totals are read from `data` when it is truthy and from the
      response itself otherwise; a missing or falsy field shows 0. */
  lemma StatsReadBodyOrResponse(response: JsVal)
    requires !Nullish(response)
    ensures var b := if Truthy(Get(response, "data")) then Get(response, "data") else response;
      StatsOf(response) == Some(Stats(
        if Truthy(Get(b, "daily")) then Get(b, "daily") else Num0(),
        if Truthy(Get(b, "weekly")) then Get(b, "weekly") else Num0(),
        if Truthy(Get(b, "monthly")) then Get(b, "monthly") else Num0(),
        if Truthy(Get(b, "quarterly")) then Get(b, "quarterly") else Num0(),
        if Truthy(Get(b, "yearly")) then Get(b, "yearly") else Num0()))
  {
  }

  /** `t => t.id === id ? {...t, active: !t.active} : t` on one item; None
      where reading `id` throws. */
  function ToggleItem(s: JsVal, id: JsVal): Option<JsVal>
  {
    if Nullish(s) then None
    else if StrictEquals(Get(s, "id"), id) then
      Some(Obj(Put(if s.Obj? then s.props else [], "active", Bool(!Truthy(Get(s, "active"))))))
    else Some(s)
  }

  /** The optimistic update: every item with that id has `active` negated,
      every other item is kept, in order. */
  function Toggled(subs: seq<JsVal>, id: JsVal): (r: Option<seq<JsVal>>)
    ensures r.Some? ==> |r.value| == |subs|
    ensures r.Some? ==> forall i :: 0 <= i < |subs| ==> ToggleItem(subs[i], id) == Some(r.value[i])
    ensures r.None? <==> exists i :: 0 <= i < |subs| && Nullish(subs[i])
  {
    if subs == [] then Some([])
    else
      var rest := Toggled(subs[1..], id);
      assert forall i :: 1 <= i < |subs| ==> subs[i] == subs[1..][i - 1];
      match ToggleItem(subs[0], id)
      case None => None
      case Some(t) => if rest.None? then None else Some([t] + rest.value)
  }

  /** A toggled item keeps its id and everything else but `active`, and its
      `active` is the negation of the old one; an item with another id is
      unchanged. */
  lemma ToggleItemEffect(s: JsVal, id: JsVal)
    requires s.Obj?
    ensures StrictEquals(Get(s, "id"), id) ==>
      var t := ToggleItem(s, id).value;
      t.Obj? && Get(t, "active") == Bool(!Truthy(Get(s, "active"))) &&
      forall k :: k != "active" ==> Get(t, k) == Get(s, k)
    ensures !StrictEquals(Get(s, "id"), id) ==> ToggleItem(s, id) == Some(s)
  {
    if StrictEquals(Get(s, "id"), id) {
      LookupPutSame(s.props, "active", Bool(!Truthy(Get(s, "active"))));
      forall k | k != "active"
        ensures Get(ToggleItem(s, id).value, k) == Get(s, k)
      {
        LookupPutOther(s.props, "active", Bool(!Truthy(Get(s, "active"))), k);
      }
    }
  }

  /** Toggling an item with a boolean `active` twice gives it back. */
  lemma ToggleItemTwice(s: JsVal, id: JsVal)
    requires s.Obj? && Get(s, "active").Bool?
    ensures ToggleItem(s, id).Some? && ToggleItem(ToggleItem(s, id).value, id) == Some(s)
  {
    if StrictEquals(Get(s, "id"), id) {
      var b := Get(s, "active").b;
      var once := Put(s.props, "active", Bool(!b));
      LookupPutOther(s.props, "active", Bool(!b), "id");
      LookupPutSame(s.props, "active", Bool(!b));
      assert Get(Obj(once), "id") == Get(s, "id");
      PutTwice(s.props, "active", Bool(!b), Bool(b));
      PutSameValue(s.props, "active", Bool(b));
    }
  }

  /** Toggling the same id twice over a list of such items restores it. */
  lemma {:induction false} ToggledTwice(subs: seq<JsVal>, id: JsVal)
    requires forall i :: 0 <= i < |subs| ==> subs[i].Obj? && Get(subs[i], "active").Bool?
    ensures Toggled(subs, id).Some? && Toggled(Toggled(subs, id).value, id) == Some(subs)
  {
    if subs != [] {
      ToggleItemTwice(subs[0], id);
      var tail := subs[1..];
      assert forall i :: 0 <= i < |tail| ==> tail[i] == subs[i + 1];
      ToggledTwice(tail, id);
      var t0 := ToggleItem(subs[0], id).value;
      var once := Toggled(subs, id).value;
      assert once == [t0] + Toggled(tail, id).value;
      assert once[0] == t0 && once[1..] == Toggled(tail, id).value;
      assert Toggled(once, id) == Some([subs[0]] + tail);
      assert [subs[0]] + tail == subs;
    }
  }

  /** `searchQuery` matched against one text field: a missing field does
      not match (`?.` yields undefined), text is compared ignoring case, and
      anything else has no `toLowerCase` and throws (None). */
  function FieldMatches(v: JsVal, q: string): Option<bool>
  {
    if Nullish(v) then Some(false)
    else if v.Str? then Some(Includes(Lower(v.s), Lower(q)))
    else None
  }

  /** The filter callback: the title is tried first and the category only
      when the title does not match. */
  function SubMatches(q: string): JsVal -> Option<bool>
  {
    (s: JsVal) =>
      if Nullish(s) then None
      else
        match FieldMatches(Get(s, "title"), q)
        case None => None
        case Some(true) => Some(true)
        case Some(false) => FieldMatches(Get(s, "category"), q)
  }

  /** `filteredSubs`. */
  function FilteredSubs(subs: seq<JsVal>, q: string): Option<seq<JsVal>>
  {
    FilterBy(subs, SubMatches(q))
  }

  /** Where the callback does not throw, it accepts an item exactly when
      its title or its category is text containing the query, ignoring
      case. */
  lemma SubMatchesIff(s: JsVal, q: string)
    requires SubMatches(q)(s).Some?
    ensures SubMatches(q)(s) == Some(true) <==> Matches(s, q)
  {
  }

  predicate Matches(s: JsVal, q: string)
  {
    (Get(s, "title").Str? && Includes(Lower(Get(s, "title").s), Lower(q))) ||
    (Get(s, "category").Str? && Includes(Lower(Get(s, "category").s), Lower(q)))
  }

  /** The callback throws on a null item, and on an item whose title is
      neither missing nor text; a title match spares the category check,
      so an item with a matching title is kept whatever its category. */
  lemma SubMatchesThrows(s: JsVal, q: string)
    ensures Nullish(s) ==> SubMatches(q)(s).None?
    ensures !Nullish(s) && !Nullish(Get(s, "title")) && !Get(s, "title").Str? ==> SubMatches(q)(s).None?
    ensures Get(s, "title").Str? && Includes(Lower(Get(s, "title").s), Lower(q)) ==> SubMatches(q)(s) == Some(true)
  {
  }

  /** Search keeps an item exactly when its title or its category contains
      the query, ignoring case, and keeps the loaded order. */
  lemma SearchKeepsMatches(subs: seq<JsVal>, q: string)
    requires FilteredSubs(subs, q).Some?
    ensures forall s :: s in FilteredSubs(subs, q).value <==> s in subs && Matches(s, q)
    ensures Subsequence(FilteredSubs(subs, q).value, subs)
  {
    FilterByMembers(subs, SubMatches(q));
    FilterByThrows(subs, SubMatches(q));
    forall s | s in subs ensures SubMatches(q)(s) == Some(true) <==> Matches(s, q) {
      var i :| 0 <= i < |subs| && subs[i] == s;
      SubMatchesIff(s, q);
    }
    FilterBySubsequence(subs, SubMatches(q));
  }

  /** The page's state. */
  class SubscriptionsPage {
    var subs: seq<JsVal>
    var page: int
    var hasMore: bool
    var loadingMore: bool
    var stats: Stats

    constructor()
      ensures subs == [] && page == 0 && !hasMore && !loadingMore && stats == InitialStats()
    {
      subs := [];
      page := 0;
      hasMore := false;
      loadingMore := false;
      stats := InitialStats();
    }

    /** `fetchPageData(pageNumber)` with the call's outcome: a failed call
        or a throwing body rejects (ok false) and leaves the list alone. */
    method FetchPageData(pageNumber: int, response: Outcome<JsVal>) returns (ok: bool)
      modifies this
      ensures ok <==> response.Fulfilled? && LoadPage(ListState(old(subs), old(page), old(hasMore)), pageNumber, response.value).Some?
      ensures ok ==>
        ListState(subs, page, hasMore) == LoadPage(ListState(old(subs), old(page), old(hasMore)), pageNumber, response.value).value
      ensures !ok ==> subs == old(subs) && page == old(page) && hasMore == old(hasMore)
      ensures loadingMore == old(loadingMore) && stats == old(stats)
    {
      if response.Rejected? {
        return false;
      }
      var r := LoadPage(ListState(subs, page, hasMore), pageNumber, response.value);
      if r.None? {
        return false;
      }
      subs, page, hasMore := r.value.subs, r.value.page, r.value.hasMore;
      return true;
    }

    /** `handleLoadMore`: nothing while a load runs or when no page is
        left; otherwise page `page + 1` is requested (the returned number)
        and applied, and the in-flight flag is cleared afterwards. */
    method HandleLoadMore(response: Outcome<JsVal>) returns (requested: Option<int>)
      modifies this
      ensures old(loadingMore) || !old(hasMore) ==>
        requested.None? && subs == old(subs) && page == old(page) && hasMore == old(hasMore) &&
        loadingMore == old(loadingMore)
      ensures !old(loadingMore) && old(hasMore) ==>
        requested == Some(old(page) + 1) && !loadingMore &&
        var r := if response.Fulfilled? then LoadPage(ListState(old(subs), old(page), old(hasMore)), old(page) + 1, response.value) else None;
        (r.Some? ==> ListState(subs, page, hasMore) == r.value) &&
        (r.None? ==> subs == old(subs) && page == old(page) && hasMore == old(hasMore))
      ensures stats == old(stats)
    {
      if loadingMore || !hasMore {
        return None;
      }
      loadingMore := true;
      requested := Some(page + 1);
      var _ := FetchPageData(page + 1, response);
      loadingMore := false;
    }

    /** `fetchDashboardStats`: its errors are caught, so a failed call only
        keeps the old totals. */
    method FetchDashboardStats(response: Outcome<JsVal>)
      modifies this
      ensures response.Fulfilled? && StatsOf(response.value).Some? ==> stats == StatsOf(response.value).value
      ensures response.Rejected? || StatsOf(response.value).None? ==> stats == old(stats)
      ensures subs == old(subs) && page == old(page) && hasMore == old(hasMore) && loadingMore == old(loadingMore)
    {
      if response.Fulfilled? {
        var s := StatsOf(response.value);
        if s.Some? {
          stats := s.value;
        }
      }
    }

    /** `loadInitialData`: the totals and page 0, requested together. */
    method LoadInitialData(statsResponse: Outcome<JsVal>, pageResponse: Outcome<JsVal>)
      modifies this
      ensures statsResponse.Fulfilled? && StatsOf(statsResponse.value).Some? ==> stats == StatsOf(statsResponse.value).value
      ensures pageResponse.Fulfilled? && LoadPage(ListState(old(subs), old(page), old(hasMore)), 0, pageResponse.value).Some? ==>
        ListState(subs, page, hasMore) == LoadPage(ListState(old(subs), old(page), old(hasMore)), 0, pageResponse.value).value
      ensures statsResponse.Rejected? || StatsOf(statsResponse.value).None? ==> stats == old(stats)
      ensures pageResponse.Rejected? || LoadPage(ListState(old(subs), old(page), old(hasMore)), 0, pageResponse.value).None? ==>
        subs == old(subs) && page == old(page) && hasMore == old(hasMore)
      ensures loadingMore == old(loadingMore)
    {
      FetchDashboardStats(statsResponse);
      var _ := FetchPageData(0, pageResponse);
    }

    /** `handleToggle(id)`: the list is toggled at once; when the server
        refuses, the snapshot taken before is put back exactly, and when it
        accepts, the totals are reloaded. A list holding null has no
        optimistic update. */
    method HandleToggle(id: JsVal, toggleResponse: Outcome<JsVal>, statsResponse: Outcome<JsVal>)
      modifies this
      ensures toggleResponse.Rejected? ==> subs == old(subs) && stats == old(stats)
      ensures toggleResponse.Fulfilled? && Toggled(old(subs), id).Some? ==> subs == Toggled(old(subs), id).value
      ensures toggleResponse.Fulfilled? && Toggled(old(subs), id).None? ==> subs == old(subs)
      ensures toggleResponse.Fulfilled? && statsResponse.Fulfilled? && StatsOf(statsResponse.value).Some? ==>
        stats == StatsOf(statsResponse.value).value
      ensures toggleResponse.Fulfilled? && (statsResponse.Rejected? || StatsOf(statsResponse.value).None?) ==>
        stats == old(stats)
      ensures page == old(page) && hasMore == old(hasMore) && loadingMore == old(loadingMore)
    {
      var previousSubs := subs;
      var optimistic := Toggled(subs, id);
      if optimistic.Some? {
        subs := optimistic.value;
      }
      if toggleResponse.Rejected? {
        subs := previousSubs;
      } else {
        FetchDashboardStats(statsResponse);
      }
    }
  }
}
