/** The insurance page (src/pages/protection/Insurance.jsx): the attribute
    fields of each policy category, the three loaded lists, the expiring
    badge, the renewal date shown on a card, the edit pre-fill and the save
    payload. The change handlers are the shared ones of module
    CategoryForm. */
module Insurance {
  import opened JsValue
  import opened JsText
  import opened JsNumber
  import opened CategoryForm

  /** `INSURANCE_CATEGORY_RULES[category]`. */
  function InsuranceCategoryRules(category: string): Option<seq<Field>>
  {
    match category
    case "LIFE" => Some([
      Field("policyType", "Policy Type", SelectInput(["TERM", "ENDOWMENT", "ULIP", "WHOLE_LIFE"])),
      Field("nominee", "Nominee Name", TextInput("e.g. Spouse Name")),
      Field("sumAssured", "Sum Assured", NumberInput("e.g. 10000000"))])
    case "HEALTH" => Some([
      Field("membersCovered", "Members Covered", TextInput("e.g. Self, Spouse, 2 Kids")),
      Field("waitingPeriod", "Waiting Period (Years)", NumberInput("e.g. 2")),
      Field("networkHospitals", "Network Hospitals", TextInput("e.g. Apollo, Fortis"))])
    case "VEHICLE" => Some([
      Field("vehicleNumber", "Vehicle Number", TextInput("MH-12-XX-1234")),
      Field("idv", "IDV Value", NumberInput("Current Market Value")),
      Field("ncb", "No Claim Bonus (%)", NumberInput("e.g. 20"))])
    case "HOME" => Some([
      Field("propertyAddress", "Property Address", TextInput("Address")),
      Field("coverType", "Cover Type", SelectInput(["STRUCTURE_ONLY", "CONTENT_ONLY", "COMPREHENSIVE"]))])
    case "TRAVEL" => Some([
      Field("tripDestination", "Destination", TextInput("e.g. Europe")),
      Field("travelDates", "Travel Dates", TextInput("e.g. 01/01 - 15/01"))])
    case _ => None
  }

  lemma InsuranceRuleKeysDistinct(category: string)
    requires InsuranceCategoryRules(category).Some?
    ensures DistinctKeys(InsuranceCategoryRules(category).value)
  {
  }

  /** The three lists the page holds. */
  datatype InsuranceState = InsuranceState(policies: JsVal, activePolicies: JsVal, expiringPolicies: JsVal)

  /** `allRes.data || []`: a list as sent, or empty when missing. */
  function ListOrEmpty(response: JsVal): (r: JsVal)
    ensures Truthy(Get(response, "data")) ==> r == Get(response, "data")
    ensures !Truthy(Get(response, "data")) ==> r == Arr([])
  {
    Or(Get(response, "data"), Arr([]))
  }

  /** `loadData`: all three calls must succeed. The lists are then set one
      after the other, each to its `data` or to the empty list; a null
      response throws at its own line, so the lists set before it are
      kept and the rest stay as they were. */
  function Load(st: InsuranceState, all: Outcome<JsVal>, active: Outcome<JsVal>,
                expiring: Outcome<JsVal>): (r: InsuranceState)
    ensures all.Rejected? || active.Rejected? || expiring.Rejected? ==> r == st
    ensures all.Fulfilled? && active.Fulfilled? && expiring.Fulfilled? ==>
      r.policies == (if Nullish(all.value) then st.policies else ListOrEmpty(all.value)) &&
      r.activePolicies == (if Nullish(all.value) || Nullish(active.value) then st.activePolicies
                           else ListOrEmpty(active.value)) &&
      r.expiringPolicies == (if Nullish(all.value) || Nullish(active.value) || Nullish(expiring.value)
                             then st.expiringPolicies else ListOrEmpty(expiring.value))
  {
    if all.Rejected? || active.Rejected? || expiring.Rejected? then st
    else if Nullish(all.value) then st
    else
      var s1 := st.(policies := ListOrEmpty(all.value));
      if Nullish(active.value) then s1
      else
        var s2 := s1.(activePolicies := ListOrEmpty(active.value));
        if Nullish(expiring.value) then s2
        else s2.(expiringPolicies := ListOrEmpty(expiring.value))
  }

  /** `expiringPolicies.some(p => p.id === policy.id)`: scans from the
      front and stops at the first match; a null entry reached before any
      match, or a null policy, throws (None). */
  function IsExpiring(expiring: seq<JsVal>, policy: JsVal): (r: Option<bool>)
    ensures expiring == [] ==> r == Some(false)
    ensures r == Some(true) ==>
      exists i :: 0 <= i < |expiring| && StrictEquals(Get(expiring[i], "id"), Get(policy, "id"))
  {
    if expiring == [] then Some(false)
    else if Nullish(expiring[0]) || Nullish(policy) then None
    else if StrictEquals(Get(expiring[0], "id"), Get(policy, "id")) then Some(true)
    else
      var rest := IsExpiring(expiring[1..], policy);
      assert rest == Some(true) ==>
        (exists i :: 1 <= i < |expiring| && StrictEquals(Get(expiring[i], "id"), Get(policy, "id"))) by {
        if rest == Some(true) {
          var i :| 0 <= i < |expiring[1..]| && StrictEquals(Get(expiring[1..][i], "id"), Get(policy, "id"));
          assert expiring[i + 1] == expiring[1..][i];
        }
      }
      rest
  }

  /** Over a list without null entries and a non-null policy, a card is
      badged exactly when some expiring entry has the same id. */
  lemma {:induction false} IsExpiringIffSameId(expiring: seq<JsVal>, policy: JsVal)
    requires !Nullish(policy) && forall i :: 0 <= i < |expiring| ==> !Nullish(expiring[i])
    ensures IsExpiring(expiring, policy).Some?
    ensures IsExpiring(expiring, policy).value <==>
      exists i :: 0 <= i < |expiring| && StrictEquals(Get(expiring[i], "id"), Get(policy, "id"))
  {
    if expiring != [] && !StrictEquals(Get(expiring[0], "id"), Get(policy, "id")) {
      var tail := expiring[1..];
      assert forall i :: 0 <= i < |tail| ==> tail[i] == expiring[i + 1];
      IsExpiringIffSameId(tail, policy);
      if exists i :: 0 <= i < |expiring| && StrictEquals(Get(expiring[i], "id"), Get(policy, "id")) {
        var i :| 0 <= i < |expiring| && StrictEquals(Get(expiring[i], "id"), Get(policy, "id"));
        assert i > 0 && tail[i - 1] == expiring[i];
      }
    }
  }

  /** The scan stops at a match: a null entry after it does not throw. */
  lemma MatchBeforeNull(p: JsVal, policy: JsVal, rest: seq<JsVal>)
    requires !Nullish(p) && !Nullish(policy) && StrictEquals(Get(p, "id"), Get(policy, "id"))
    ensures IsExpiring([p, Null] + rest, policy) == Some(true)
    ensures IsExpiring([Null, p] + rest, policy).None?
  {
  }

  /** `===` on two missing ids is true: a policy without an id is badged
      as soon as any expiring entry lacks one too. */
  lemma MissingIdsMatch(entry: JsVal, policy: JsVal)
    requires entry.Obj? && policy.Obj? && Lookup(entry.props, "id").None? && Lookup(policy.props, "id").None?
    ensures IsExpiring([entry], policy) == Some(true)
  {
  }

  /** The form of an existing policy: the renewal date cut to its date
      part, or '' when there is none; None where the cut throws. */
  function EditPolicyForm(policy: JsVal): Option<seq<Prop>>
  {
    match DateOnly(Get(policy, "renewalDate"), "")
    case None => None
    case Some(renewal) => Some([
      Prop("name", Get(policy, "name")), Prop("policyNumber", Get(policy, "policyNumber")),
      Prop("provider", Get(policy, "provider")), Prop("premiumAmount", Get(policy, "premiumAmount")),
      Prop("coverageAmount", Get(policy, "coverageAmount")), Prop("renewalDate", Str(renewal)),
      Prop("category", Get(policy, "category")),
      Prop("attributes", Or(Get(policy, "attributes"), Obj([])))])
  }

  function NewPolicyForm(): seq<Prop>
  {
    [Prop("name", Str("")), Prop("policyNumber", Str("")), Prop("provider", Str("")),
     Prop("premiumAmount", Str("")), Prop("coverageAmount", Str("")), Prop("renewalDate", Str("")),
     Prop("category", Str("")), Prop("attributes", Obj([]))]
  }

  /** The renewal date on a card: the date part, or "N/A". */
  function RenewDisplay(policy: JsVal): Option<string>
  {
    DateOnly(Get(policy, "renewalDate"), "N/A")
  }

  /** The card and the edit form show the same date for a policy that has
      one; without one the card says "N/A" and the form is blank. */
  lemma RenewalShownAlike(policy: JsVal)
    ensures EditPolicyForm(policy).Some? <==> RenewDisplay(policy).Some?
    ensures EditPolicyForm(policy).Some? ==>
      (Truthy(Get(policy, "renewalDate")) ==>
         Lookup(EditPolicyForm(policy).value, "renewalDate") == Some(Str(RenewDisplay(policy).value))) &&
      (!Truthy(Get(policy, "renewalDate")) ==>
         Lookup(EditPolicyForm(policy).value, "renewalDate") == Some(Str("")) && RenewDisplay(policy) == Some("N/A"))
  {
    match EditPolicyForm(policy)
    case Some(f) =>
      LookupAt(f, 5);
    case None =>
  }

  /** Editing copies the amounts and the attributes, missing ones as an
      empty object. */
  lemma EditPrefill(policy: JsVal)
    requires EditPolicyForm(policy).Some?
    ensures var f := EditPolicyForm(policy).value;
      Lookup(f, "premiumAmount") == Some(Get(policy, "premiumAmount")) &&
      Lookup(f, "coverageAmount") == Some(Get(policy, "coverageAmount")) &&
      Lookup(f, "attributes") == Some(Or(Get(policy, "attributes"), Obj([])))
  {
    var f := EditPolicyForm(policy).value;
    LookupAt(f, 3); LookupAt(f, 4); LookupAt(f, 7);
  }

  /** `handleSubmit`'s payload: both amounts read as numbers, the rest
      copied. */
  function PolicyPayload(form: seq<Prop>): seq<Prop>
  {
    var f := Obj(form);
    [Prop("name", Get(f, "name")), Prop("policyNumber", Get(f, "policyNumber")),
     Prop("provider", Get(f, "provider")),
     Prop("premiumAmount", Number(ParseFloat(Get(f, "premiumAmount")))),
     Prop("coverageAmount", Number(ParseFloat(Get(f, "coverageAmount")))),
     Prop("renewalDate", Get(f, "renewalDate")), Prop("category", Get(f, "category")),
     Prop("attributes", Get(f, "attributes"))]
  }

  /** The amounts are sent as numbers and the renewal date as typed: unlike
      a debt's due date, a blank renewal date is sent as '' and not null. */
  lemma PayloadFields(form: seq<Prop>)
    ensures var p := PolicyPayload(form);
      Lookup(p, "premiumAmount") == Some(Number(ParseFloat(Get(Obj(form), "premiumAmount")))) &&
      Lookup(p, "coverageAmount") == Some(Number(ParseFloat(Get(Obj(form), "coverageAmount")))) &&
      Lookup(p, "renewalDate") == Some(Get(Obj(form), "renewalDate"))
  {
    var p := PolicyPayload(form);
    LookupAt(p, 3); LookupAt(p, 4); LookupAt(p, 5);
  }

  lemma NewFormReads()
    ensures Get(Obj(NewPolicyForm()), "renewalDate") == Str("")
    ensures Get(Obj(NewPolicyForm()), "premiumAmount") == Str("")
  {
    var f := NewPolicyForm();
    LookupAt(f, 3); LookupAt(f, 5);
  }

  /** Saving an untouched new form sends a blank renewal date and a NaN
      premium (which JSON carries as null). */
  lemma BlankNewPolicyPayload()
    ensures var p := PolicyPayload(NewPolicyForm());
      Lookup(p, "renewalDate") == Some(Str("")) && Lookup(p, "premiumAmount") == Some(Number(NaN))
  {
    NewFormReads();
    PayloadFields(NewPolicyForm());
    BlankReadsAsNaN();
  }

  lemma BlankReadsAsNaN()
    ensures ParseFloat(Str("")) == NaN
  {
    assert TrimStart("") == "";
    assert SignedPrefix("").len == 0;
  }
}
