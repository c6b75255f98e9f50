/** The browser's `localStorage`, shared by the login page, which writes
    the session, and the sidebar, which reads and clears it. Values are
    kept as the page handed them over. */
module BrowserStorage {
  import opened JsValue

  class Storage {
    var items: map<string, JsVal>

    constructor(initial: map<string, JsVal>)
      ensures items == initial
    {
      items := initial;
    }

    /** `getItem(key)`: null for a key never set. */
    function GetItem(key: string): (r: JsVal)
      reads this
      ensures key in items ==> r == items[key]
      ensures key !in items ==> r == Null
    {
      if key in items then items[key] else Null
    }

    method SetItem(key: string, v: JsVal)
      modifies this
      ensures items == old(items)[key := v]
    {
      items := items[key := v];
    }

    method RemoveItem(key: string)
      modifies this
      ensures items == old(items) - {key}
    {
      items := items - {key};
    }
  }
}
