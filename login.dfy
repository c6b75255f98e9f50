/** The login page (src/pages/authentication/Login.jsx): the credentials
    form, the display name chosen from the server's answer, the session it
    stores, and the error shown when signing in fails. */
module Login {
  import opened JsValue
  import opened BrowserStorage

  const NoTokenMessage := "Login failed: No token received."
  const BadCredentialsMessage := "Invalid username or password."
  const GenericMessage := "Something went wrong. Please try again."

  /** `a && b`: the left operand when it is falsy, else the right one. */
  function And(a: JsVal, b: JsVal): (r: JsVal)
    ensures Truthy(r) <==> Truthy(a) && Truthy(b)
  {
    if Truthy(a) then b else a
  }

  /** The name to greet the user with: the user's name, else the answer's
      name, else the user's username, else the answer's username, else the
      login as typed. */
  function DisplayName(data: JsVal, login: JsVal): (r: JsVal)
    ensures Truthy(r) || r == login
  {
    var user := Get(data, "user");
    if Truthy(user) && Truthy(Get(user, "name")) then Get(user, "name")
    else if Truthy(Get(data, "name")) then Get(data, "name")
    else if Truthy(user) && Truthy(Get(user, "username")) then Get(user, "username")
    else if Truthy(Get(data, "username")) then Get(data, "username")
    else login
  }

  /** The four conditions of the chain, each as the value it tests. */
  function NameCandidates(data: JsVal): seq<JsVal>
  {
    var user := Get(data, "user");
    [And(user, Get(user, "name")), Get(data, "name"), And(user, Get(user, "username")), Get(data, "username")]
  }

  /** The first truthy candidate, else the fallback. */
  function FirstTruthy(candidates: seq<JsVal>, fallback: JsVal): (r: JsVal)
  {
    if candidates == [] then fallback
    else if Truthy(candidates[0]) then candidates[0]
    else FirstTruthy(candidates[1..], fallback)
  }

  /** FirstTruthy picks the earliest truthy candidate, and the fallback
      only when there is none. */
  lemma {:induction false} FirstTruthyIsEarliest(candidates: seq<JsVal>, fallback: JsVal, i: int)
    requires 0 <= i < |candidates| && Truthy(candidates[i])
    requires forall j :: 0 <= j < i ==> !Truthy(candidates[j])
    ensures FirstTruthy(candidates, fallback) == candidates[i]
  {
    if i > 0 {
      assert !Truthy(candidates[0]);
      assert forall j :: 0 <= j < i - 1 ==> candidates[1..][j] == candidates[j + 1];
      FirstTruthyIsEarliest(candidates[1..], fallback, i - 1);
    }
  }

  /** The display name is the first candidate that holds, in the page's
      order of preference, or the typed login when none does. */
  lemma DisplayNameIsFirstTruthy(data: JsVal, login: JsVal)
    ensures var c := NameCandidates(data);
      forall i :: 0 <= i < |c| && Truthy(c[i]) && (forall j :: 0 <= j < i ==> !Truthy(c[j])) ==>
        DisplayName(data, login) == c[i]
    ensures (forall v :: v in NameCandidates(data) ==> !Truthy(v)) ==> DisplayName(data, login) == login
  {
    var c := NameCandidates(data);
    DisplayNameChain(data, login);
    forall i | 0 <= i < |c| && Truthy(c[i]) && (forall j :: 0 <= j < i ==> !Truthy(c[j]))
      ensures DisplayName(data, login) == c[i]
    {
      FirstTruthyIsEarliest(c, login, i);
    }
  }

  lemma DisplayNameChain(data: JsVal, login: JsVal)
    ensures DisplayName(data, login) == FirstTruthy(NameCandidates(data), login)
  {
    var c := NameCandidates(data);
    var c1, c2, c3 := c[1..], c[2..], c[3..];
    assert c1[1..] == c2 && c2[1..] == c3 && c3[1..] == [];
    assert FirstTruthy(c3, login) == if Truthy(c[3]) then c[3] else login;
    assert FirstTruthy(c2, login) == if Truthy(c[2]) then c[2] else FirstTruthy(c3, login);
    assert FirstTruthy(c1, login) == if Truthy(c[1]) then c[1] else FirstTruthy(c2, login);
  }

  /** `err.response && err.response.data && err.response.data.message`. */
  function ServerMessage(err: JsVal): JsVal
  {
    var response := Get(err, "response");
    if !Truthy(response) then response
    else if !Truthy(Get(response, "data")) then Get(response, "data")
    else Get(Get(response, "data"), "message")
  }

  /** The text the catch block shows for a failed call: the server's
      message, else the fixed 401 text, else the generic text. None where
      the block itself throws (a null error). */
  function ErrorMessage(err: JsVal): (r: Option<JsVal>)
    ensures r.None? <==> Nullish(err)
    ensures r.Some? ==> Truthy(r.value)
    ensures !Nullish(err) && Truthy(ServerMessage(err)) ==> r == Some(ServerMessage(err))
    ensures !Nullish(err) && !Truthy(ServerMessage(err)) && Truthy(Get(err, "response")) &&
            StrictEquals(Get(Get(err, "response"), "status"), Number(Finite(401.0))) ==>
              r == Some(Str(BadCredentialsMessage))
    ensures !Nullish(err) && !Truthy(ServerMessage(err)) &&
            !(Truthy(Get(err, "response")) && StrictEquals(Get(Get(err, "response"), "status"), Number(Finite(401.0)))) ==>
              r == Some(Str(GenericMessage))
  {
    if Nullish(err) then None
    else
      var response := Get(err, "response");
      if Truthy(response) && Truthy(Get(response, "data")) && Truthy(Get(Get(response, "data"), "message")) then
        Some(Get(Get(response, "data"), "message"))
      else if Truthy(response) && StrictEquals(Get(response, "status"), Number(Finite(401.0))) then
        Some(Str(BadCredentialsMessage))
      else Some(Str(GenericMessage))
  }

  /** How a submit ends: signed in with a token and a name to store,
      refused with a message, or with an error the catch block itself
      throws on, which shows nothing. */
  datatype Submitted = SignedIn(token: JsVal, displayName: JsVal) | Refused(message: JsVal) | Unhandled

  function Failure(err: JsVal): Submitted
  {
    match ErrorMessage(err)
    case None => Unhandled
    case Some(m) => Refused(m)
  }

  /** `handleSubmit` once the call returns. A null response or body throws
      while being read, and that error has no `response`, so it reads as
      the generic text. */
  function Submit(login: JsVal, response: Outcome<JsVal>): (r: Submitted)
    ensures r.SignedIn? <==>
      response.Fulfilled? && !Nullish(response.value) && !Nullish(Get(response.value, "data")) &&
      Truthy(Get(Get(response.value, "data"), "token"))
    ensures r.SignedIn? ==>
      r.token == Get(Get(response.value, "data"), "token") &&
      r.displayName == DisplayName(Get(response.value, "data"), login)
    ensures r.Refused? ==> Truthy(r.message)
    ensures response.Rejected? && !Nullish(response.reason) ==> r == Refused(ErrorMessage(response.reason).value)
    ensures response.Fulfilled? && (Nullish(response.value) || Nullish(Get(response.value, "data"))) ==>
      r == Refused(Str(GenericMessage))
    ensures r.Unhandled? ==> response.Rejected? && Nullish(response.reason)
  {
    match response
    case Rejected(err) => Failure(err)
    case Fulfilled(res) =>
      if Nullish(res) || Nullish(Get(res, "data")) then Failure(Obj([Prop("name", Str("TypeError"))]))
      else
        var data := Get(res, "data");
        if Truthy(Get(data, "token")) then SignedIn(Get(data, "token"), DisplayName(data, login))
        else Refused(Str(NoTokenMessage))
  }

  /** An answer without a token stores nothing and says so; a 401 without
      a server message says the credentials are wrong. */
  lemma RefusalMessages(login: JsVal, res: JsVal, err: JsVal)
    ensures !Nullish(res) && !Nullish(Get(res, "data")) && !Truthy(Get(Get(res, "data"), "token")) ==>
      Submit(login, Fulfilled(res)) == Refused(Str(NoTokenMessage))
    ensures (!Nullish(err) && Truthy(Get(err, "response")) && !Truthy(Get(Get(err, "response"), "data")) &&
             StrictEquals(Get(Get(err, "response"), "status"), Number(Finite(401.0)))) ==>
      Submit(login, Rejected(err)) == Refused(Str(BadCredentialsMessage))
    ensures !Nullish(err) && !Truthy(Get(err, "response")) ==>
      Submit(login, Rejected(err)) == Refused(Str(GenericMessage))
  {
  }

  function InitialForm(): seq<Prop>
  {
    [Prop("login", Str("")), Prop("password", Str(""))]
  }

  class LoginPage {
    var formData: seq<Prop>
    var loading: bool
    var error: JsVal
    /** Whether the page has sent the browser to the home page. */
    var redirected: bool

    constructor()
      ensures formData == InitialForm() && !loading && error == Str("") && !redirected
    {
      formData := InitialForm();
      loading := false;
      error := Str("");
      redirected := false;
    }

    /** `handleChange(e)` with `e.target` = `{name, value}`: that field is
        set, every other one kept, and a shown error cleared. */
    method HandleChange(name: string, value: JsVal)
      modifies this
      ensures formData == Put(old(formData), name, value)
      ensures Lookup(formData, name) == Some(value)
      ensures forall k :: k != name ==> Lookup(formData, k) == Lookup(old(formData), k)
      ensures Truthy(old(error)) ==> error == Str("")
      ensures !Truthy(old(error)) ==> error == old(error)
      ensures loading == old(loading) && redirected == old(redirected)
    {
      LookupPutSame(formData, name, value);
      forall k | k != name ensures Lookup(Put(formData, name, value), k) == Lookup(formData, k) {
        LookupPutOther(formData, name, value, k);
      }
      formData := Put(formData, name, value);
      if Truthy(error) {
        error := Str("");
      }
    }

    /** `handleSubmit` with the call's outcome: a token stores the token
        and the display name and leaves for the home page; otherwise
        nothing is stored and the message is shown. Loading ends either
        way. */
    method HandleSubmit(storage: Storage, response: Outcome<JsVal>)
      modifies this, storage
      ensures !loading && formData == old(formData)
      ensures var s := Submit(Get(Obj(old(formData)), "login"), response);
        (s.SignedIn? ==>
          storage.items == old(storage.items)["token" := s.token]["userName" := s.displayName] &&
          redirected && error == Str("")) &&
        (s.Refused? ==> storage.items == old(storage.items) && error == s.message && redirected == old(redirected)) &&
        (s.Unhandled? ==> storage.items == old(storage.items) && error == Str("") && redirected == old(redirected))
    {
      loading := true;
      error := Str("");
      var s := Submit(Get(Obj(formData), "login"), response);
      if s.SignedIn? {
        storage.SetItem("token", s.token);
        storage.SetItem("userName", s.displayName);
        redirected := true;
      } else if s.Refused? {
        error := s.message;
      }
      loading := false;
    }
  }
}
