/** The assets page (src/pages/wealth/Assets.jsx): the attribute fields of
    each asset category, the physical/financial classification, the edit
    pre-fill and the payload sent on save. The change handlers are the
    shared ones of module CategoryForm. */
module Assets {
  import opened JsValue
  import opened JsNumber
  import opened CategoryForm

  /** `CATEGORY_RULES[category]`: the attribute fields of a category, None
      for a category without any. */
  function CategoryRules(category: string): Option<seq<Field>>
  {
    match category
    case "REAL_ESTATE" => Some([
      Field("location", "Location", TextInput("e.g. Pune, Maharashtra")),
      Field("areaSqFt", "Area (Sq Ft)", NumberInput("e.g. 1200")),
      Field("propertyType", "Property Type", SelectInput(["APARTMENT", "VILLA", "PLOT", "COMMERCIAL"])),
      Field("status", "Status", SelectInput(["SELF_OCCUPIED", "RENTED", "UNDER_CONSTRUCTION", "VACANT"]))])
    case "EQUITY" => Some([
      Field("tickerSymbol", "Ticker Symbol", TextInput("e.g. RELIANCE")),
      Field("exchange", "Exchange", TextInput("NSE/BSE")),
      Field("quantity", "Quantity", NumberInput("0")),
      Field("avgBuyPrice", "Avg Buy Price", NumberInput("0.00"))])
    case "MUTUAL_FUND" => Some([
      Field("fundHouse", "Fund House", TextInput("e.g. HDFC")),
      Field("schemeName", "Scheme Name", TextInput("e.g. Top 100 Fund")),
      Field("folioNumber", "Folio Number", TextInput("Optional")),
      Field("units", "Units", NumberInput("0")),
      Field("nav", "Current NAV", NumberInput("0.00"))])
    case "FIXED_INCOME" => Some([
      Field("issuer", "Issuer/Bank", TextInput("e.g. SBI")),
      Field("interestRate", "Interest Rate (%)", NumberInput("7.5")),
      Field("maturityDate", "Maturity Date", DateInput),
      Field("accountNumber", "Account No.", TextInput("XXXX"))])
    case "CRYPTO" => Some([
      Field("coinSymbol", "Coin Symbol", TextInput("BTC")),
      Field("walletAddress", "Wallet Address", TextInput("0x...")),
      Field("network", "Network", TextInput("e.g. Ethereum")),
      Field("quantity", "Quantity", NumberInput("0.00"))])
    case "VEHICLE" => Some([
      Field("registrationNo", "Registration No", TextInput("MH-12-...")),
      Field("modelYear", "Model Year", NumberInput("2024")),
      Field("insuranceExpiry", "Insurance Expiry", DateInput)])
    case "CASH" => Some([
      Field("bankName", "Bank Name", TextInput("e.g. ICICI")),
      Field("accountType", "Account Type", SelectInput(["SAVINGS", "CURRENT"]))])
    case _ => None
  }

  /** Within each category the attribute keys are distinct, so each input
      writes its own attribute. */
  lemma RuleKeysDistinct(category: string)
    requires CategoryRules(category).Some?
    ensures DistinctKeys(CategoryRules(category).value)
  {
    if category == "REAL_ESTATE" || category == "EQUITY" || category == "MUTUAL_FUND" {
      InvestmentKeysDistinct(category);
    } else {
      OtherKeysDistinct(category);
    }
  }

  lemma InvestmentKeysDistinct(category: string)
    requires category == "REAL_ESTATE" || category == "EQUITY" || category == "MUTUAL_FUND"
    ensures DistinctKeys(CategoryRules(category).value)
  {
  }

  lemma OtherKeysDistinct(category: string)
    requires CategoryRules(category).Some?
    requires category != "REAL_ESTATE" && category != "EQUITY" && category != "MUTUAL_FUND"
    ensures DistinctKeys(CategoryRules(category).value)
  {
  }

  /** `getMainCategory(category)`. */
  function MainCategory(category: JsVal): (r: string)
    ensures r == "PHYSICAL" <==> category in {Str("REAL_ESTATE"), Str("VEHICLE"), Str("GOLD")}
    ensures r == "FINANCIAL" <==> category !in {Str("REAL_ESTATE"), Str("VEHICLE"), Str("GOLD")}
  {
    if category == Str("REAL_ESTATE") || category == Str("VEHICLE") || category == Str("GOLD") then "PHYSICAL"
    else "FINANCIAL"
  }

  /** GOLD counts as physical but has no attribute fields, while every
      other physical category has some. */
  lemma GoldHasNoRules()
    ensures MainCategory(Str("GOLD")) == "PHYSICAL" && CategoryRules("GOLD").None?
    ensures CategoryRules("REAL_ESTATE").Some? && CategoryRules("VEHICLE").Some?
  {
  }

  /** The form of an existing asset; the value falls back to `value`. */
  function EditAssetForm(asset: JsVal): seq<Prop>
  {
    [Prop("name", Get(asset, "name")), Prop("category", Get(asset, "category")),
     Prop("currentValue", Or(Get(asset, "currentValue"), Get(asset, "value"))),
     Prop("dateAcquired", Get(asset, "dateAcquired")),
     Prop("attributes", Or(Get(asset, "attributes"), Obj([])))]
  }

  /** The form of a new asset; today's date comes from the clock. */
  function NewAssetForm(today: string): seq<Prop>
  {
    [Prop("name", Str("")), Prop("category", Str("")), Prop("currentValue", Str("")),
     Prop("dateAcquired", Str(today)), Prop("attributes", Obj([]))]
  }

  /** `handleSubmit`'s payload. */
  function AssetPayload(form: seq<Prop>): seq<Prop>
  {
    var f := Obj(form);
    [Prop("name", Get(f, "name")), Prop("mainCategory", Str(MainCategory(Get(f, "category")))),
     Prop("category", Get(f, "category")), Prop("currentValue", Number(ParseFloat(Get(f, "currentValue")))),
     Prop("dateAcquired", Get(f, "dateAcquired")), Prop("attributes", Get(f, "attributes"))]
  }

  /** The payload's main category always agrees with its category, and the
      value is the form's text read as a number. */
  lemma PayloadFields(form: seq<Prop>)
    ensures var p := AssetPayload(form);
      UniqueKeys(p) &&
      Lookup(p, "mainCategory") == Some(Str(MainCategory(Get(Obj(form), "category")))) &&
      Lookup(p, "category") == Some(Get(Obj(form), "category")) &&
      Lookup(p, "currentValue") == Some(Number(ParseFloat(Get(Obj(form), "currentValue"))))
  {
    var p := AssetPayload(form);
    assert UniqueKeys(p);
    LookupAt(p, 1); LookupAt(p, 2); LookupAt(p, 3);
  }

  /** Editing pre-fills the value from `currentValue`, else from `value`,
      and a missing attributes object as empty. */
  lemma EditPrefill(asset: JsVal)
    ensures var f := EditAssetForm(asset);
      UniqueKeys(f) &&
      Lookup(f, "currentValue") == Some(Or(Get(asset, "currentValue"), Get(asset, "value"))) &&
      (Truthy(Get(asset, "currentValue")) ==> Lookup(f, "currentValue") == Some(Get(asset, "currentValue"))) &&
      Lookup(f, "attributes") == Some(Or(Get(asset, "attributes"), Obj([])))
  {
    var f := EditAssetForm(asset);
    assert UniqueKeys(f);
    LookupAt(f, 2); LookupAt(f, 4);
  }

  /** Reading the edit form's fields gives the asset's own. */
  lemma EditFormReads(asset: JsVal)
    ensures var f := Obj(EditAssetForm(asset));
      Get(f, "name") == Get(asset, "name") && Get(f, "category") == Get(asset, "category") &&
      Get(f, "currentValue") == Or(Get(asset, "currentValue"), Get(asset, "value")) &&
      Get(f, "dateAcquired") == Get(asset, "dateAcquired")
  {
    var f := EditAssetForm(asset);
    LookupAt(f, 0); LookupAt(f, 1); LookupAt(f, 2); LookupAt(f, 3);
  }

  /** The payload carries the form's name and date unchanged. */
  lemma PayloadCopies(form: seq<Prop>)
    ensures var p := AssetPayload(form);
      Lookup(p, "name") == Some(Get(Obj(form), "name")) &&
      Lookup(p, "dateAcquired") == Some(Get(Obj(form), "dateAcquired"))
  {
    var p := AssetPayload(form);
    LookupAt(p, 0); LookupAt(p, 4);
  }

  /** Saving an unchanged edit form sends the asset back as it was: same
      name, category, value and date, with the main category derived from
      the category. */
  lemma SaveUnchangedEdit(asset: JsVal, n: real)
    requires Get(asset, "currentValue") == Number(Finite(n)) && n != 0.0
    ensures var p := AssetPayload(EditAssetForm(asset));
      Lookup(p, "name") == Some(Get(asset, "name")) &&
      Lookup(p, "category") == Some(Get(asset, "category")) &&
      Lookup(p, "currentValue") == Some(Number(Finite(n))) &&
      Lookup(p, "dateAcquired") == Some(Get(asset, "dateAcquired")) &&
      Lookup(p, "mainCategory") == Some(Str(MainCategory(Get(asset, "category"))))
  {
    var f := EditAssetForm(asset);
    EditFormReads(asset);
    PayloadFields(f);
    PayloadCopies(f);
  }
}
