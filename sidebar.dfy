/** The navigation sidebar (src/components/Sidebar.jsx): which menu groups
    are expanded, the signed-in name and its initials, and logging out. */
module Sidebar {
  import opened JsValue
  import opened JsText
  import opened BrowserStorage
  import Login

  const GuestName := "Guest User"

  /** `expandedGroups[title]` read as a condition: a group never toggled
      is collapsed. */
  predicate IsExpanded(groups: map<string, bool>, title: string)
  {
    title in groups && groups[title]
  }

  /** The groups open on first render. */
  function InitialGroups(): (r: map<string, bool>)
    ensures forall t :: IsExpanded(r, t) <==> t == "Treasury" || t == "Wealth"
  {
    map["Treasury" := true, "Wealth" := true]
  }

  /** `toggleGroup(title)`: `{...prev, [title]: !prev[title]}`. */
  function ToggleGroup(groups: map<string, bool>, title: string): (r: map<string, bool>)
    ensures IsExpanded(r, title) <==> !IsExpanded(groups, title)
    ensures title in r && r.Keys == groups.Keys + {title}
    ensures forall t :: t != title && t in groups ==> r[t] == groups[t]
  {
    groups[title := !IsExpanded(groups, title)]
  }

  /** Toggling a group twice shows the same groups as before, and gives
      back the very same map once the group has an entry. */
  lemma ToggleGroupTwice(groups: map<string, bool>, title: string)
    ensures forall t :: IsExpanded(ToggleGroup(ToggleGroup(groups, title), title), t) <==> IsExpanded(groups, t)
    ensures title in groups ==> ToggleGroup(ToggleGroup(groups, title), title) == groups
  {
    var twice := ToggleGroup(ToggleGroup(groups, title), title);
    if title in groups {
      assert twice.Keys == groups.Keys;
      assert forall t :: t in groups ==> twice[t] == groups[t];
    }
  }

  /** Toggling one group leaves whether any other group is open as it was. */
  lemma ToggleGroupLocal(groups: map<string, bool>, title: string, other: string)
    requires other != title
    ensures IsExpanded(ToggleGroup(groups, title), other) == IsExpanded(groups, other)
  {
  }

  /** The name the page shows: the stored name if truthy, else the one it
      already shows. */
  function ShownName(stored: JsVal, current: JsVal): (r: JsVal)
    ensures Truthy(stored) ==> r == stored
    ensures !Truthy(stored) ==> r == current
  {
    if Truthy(stored) then stored else current
  }

  /** `getInitials(name)`: "GU" for an empty name, else its first two
      characters upper-cased. A truthy name that is not text has no
      `slice` and throws (None). */
  function Initials(name: JsVal): (r: Option<string>)
    ensures !Truthy(name) ==> r == Some("GU")
    ensures name.Str? && name.s != "" ==>
      r.Some? && |r.value| == (if |name.s| < 2 then |name.s| else 2) &&
      forall i :: 0 <= i < |r.value| ==> r.value[i] == UpperChar(name.s[i])
    ensures r.None? <==> Truthy(name) && !name.Str?
  {
    if !Truthy(name) then Some("GU")
    else if name.Str? then Some(Upper(if |name.s| < 2 then name.s else name.s[..2]))
    else None
  }

  /** The guest is shown as "GU", and so is a signed-in name that starts
      with those letters in any case; the initials alone do not tell
      them apart. */
  lemma GuestInitials()
    ensures Initials(Str(GuestName)) == Some("GU")
    ensures Initials(Str("gus")) == Some("GU")
  {
    assert GuestName[..2] == "Gu";
    assert "gus"[..2] == "gu";
    assert Upper("Gu") == "GU" by { assert Upper("Gu")[1] == UpperChar('u'); }
    assert Upper("gu") == "GU" by { assert Upper("gu")[0] == UpperChar('g') && Upper("gu")[1] == UpperChar('u'); }
  }

  class SidebarState {
    var expandedGroups: map<string, bool>
    var userName: JsVal
    var isMobileOpen: bool

    constructor()
      ensures expandedGroups == InitialGroups() && userName == Str(GuestName) && !isMobileOpen
    {
      expandedGroups := InitialGroups();
      userName := Str(GuestName);
      isMobileOpen := false;
    }

    /** The mount effect: the name stored at login replaces the default. */
    method LoadStoredName(storage: Storage)
      modifies this
      ensures userName == ShownName(storage.GetItem("userName"), old(userName))
      ensures expandedGroups == old(expandedGroups) && isMobileOpen == old(isMobileOpen)
    {
      var stored := storage.GetItem("userName");
      if Truthy(stored) {
        userName := stored;
      }
    }

    method Toggle(title: string)
      modifies this
      ensures expandedGroups == ToggleGroup(old(expandedGroups), title)
      ensures userName == old(userName) && isMobileOpen == old(isMobileOpen)
    {
      expandedGroups := ToggleGroup(expandedGroups, title);
    }

    method CloseMobile()
      modifies this
      ensures !isMobileOpen
      ensures expandedGroups == old(expandedGroups) && userName == old(userName)
    {
      isMobileOpen := false;
    }

    /** `handleLogout`: the token and the name are removed, every other
        stored item stays. */
    method HandleLogout(storage: Storage)
      modifies storage
      ensures storage.items == old(storage.items) - {"token", "userName"}
      ensures "token" !in storage.items && "userName" !in storage.items
    {
      storage.RemoveItem("token");
      storage.RemoveItem("userName");
    }
  }

  /** After a login that stores a session, a freshly mounted sidebar greets
      the user by the display name the login chose; an empty one (a blank
      typed login with no name in the answer) leaves the guest name. */
  lemma SessionRoundTrip(items: map<string, JsVal>, login: JsVal, response: Outcome<JsVal>)
    requires Login.Submit(login, response).SignedIn?
    ensures var s := Login.Submit(login, response);
      var stored := items["token" := s.token]["userName" := s.displayName];
      (Truthy(s.displayName) ==> ShownName(stored["userName"], Str(GuestName)) == s.displayName) &&
      (!Truthy(s.displayName) ==> s.displayName == login && ShownName(stored["userName"], Str(GuestName)) == Str(GuestName))
  {
  }
}
