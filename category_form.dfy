/** The category-driven entry form shared, line for line, by the assets,
    debts and insurance pages (src/pages/wealth/Assets.jsx,
    src/pages/wealth/Debts.jsx, src/pages/protection/Insurance.jsx): a
    record of top-level fields plus an `attributes` object whose fields
    depend on the chosen category. */
module CategoryForm {
  import opened JsValue
  import opened JsText

  /** One input of a category's attribute section. */
  datatype FieldKind = TextInput(placeholder: string) | NumberInput(placeholder: string)
                     | DateInput | SelectInput(options: seq<string>)
  datatype Field = Field(key: string, caption: string, kind: FieldKind)

  /** A category's fields may be told apart by key. */
  predicate DistinctKeys(fields: seq<Field>)
  {
    forall i, j :: 0 <= i < j < |fields| ==> fields[i].key != fields[j].key
  }

  /** The property list of the form's `attributes` object; spreading a
      missing or non-object value contributes nothing. */
  function AttributesOf(form: seq<Prop>): (r: seq<Prop>)
    ensures Get(Obj(form), "attributes").Obj? ==> r == Get(Obj(form), "attributes").props
    ensures !Get(Obj(form), "attributes").Obj? ==> r == []
  {
    var a := Get(Obj(form), "attributes");
    if a.Obj? then a.props else []
  }

  /** The update `handleMainChange` applies: choosing a category sets it
      and empties the attributes; any other field is set on its own. */
  function WithMainChange(form: seq<Prop>, name: string, value: JsVal): seq<Prop>
  {
    if name == "category" then Put(Put(form, "category", value), "attributes", Obj([]))
    else Put(form, name, value)
  }

  /** The update `handleAttributeChange` applies: one attribute is set and
      the record is otherwise copied. */
  function WithAttribute(form: seq<Prop>, key: string, value: JsVal): seq<Prop>
  {
    Put(form, "attributes", Obj(Put(AttributesOf(form), key, value)))
  }

  /** A category change sets the category, empties the attributes and
      leaves every other field alone. */
  lemma CategoryChangeClearsAttributes(form: seq<Prop>, value: JsVal)
    ensures var r := WithMainChange(form, "category", value);
      Lookup(r, "category") == Some(value) && Lookup(r, "attributes") == Some(Obj([])) &&
      AttributesOf(r) == [] &&
      forall k :: k != "category" && k != "attributes" ==> Lookup(r, k) == Lookup(form, k)
  {
    var f1 := Put(form, "category", value);
    LookupPutSame(form, "category", value);
    LookupPutOther(f1, "attributes", Obj([]), "category");
    LookupPutSame(f1, "attributes", Obj([]));
    forall k | k != "category" && k != "attributes"
      ensures Lookup(WithMainChange(form, "category", value), k) == Lookup(form, k)
    {
      LookupPutOther(f1, "attributes", Obj([]), k);
      LookupPutOther(form, "category", value, k);
    }
  }

  /** Changing any other top-level field touches that field only; the
      attributes stay. */
  lemma OtherChangeTouchesOneField(form: seq<Prop>, name: string, value: JsVal)
    requires name != "category"
    ensures var r := WithMainChange(form, name, value);
      Lookup(r, name) == Some(value) &&
      forall k :: k != name ==> Lookup(r, k) == Lookup(form, k)
  {
    LookupPutSame(form, name, value);
    forall k | k != name ensures Lookup(Put(form, name, value), k) == Lookup(form, k) {
      LookupPutOther(form, name, value, k);
    }
  }

  /** Setting an attribute sets that key, keeps every other attribute, and
      keeps every top-level field but `attributes`. */
  lemma AttributeChangeTouchesOneKey(form: seq<Prop>, key: string, value: JsVal)
    ensures var r := WithAttribute(form, key, value);
      Lookup(AttributesOf(r), key) == Some(value) &&
      (forall k :: k != key ==> Lookup(AttributesOf(r), k) == Lookup(AttributesOf(form), k)) &&
      forall k :: k != "attributes" ==> Lookup(r, k) == Lookup(form, k)
  {
    var attrs := Put(AttributesOf(form), key, value);
    LookupPutSame(form, "attributes", Obj(attrs));
    assert Get(Obj(WithAttribute(form, key, value)), "attributes") == Obj(attrs);
    LookupPutSame(AttributesOf(form), key, value);
    forall k | k != key ensures Lookup(attrs, k) == Lookup(AttributesOf(form), k) {
      LookupPutOther(AttributesOf(form), key, value, k);
    }
    forall k | k != "attributes" ensures Lookup(WithAttribute(form, key, value), k) == Lookup(form, k) {
      LookupPutOther(form, "attributes", Obj(attrs), k);
    }
  }

  /** Both updates keep the record's field names distinct. */
  lemma UpdatesKeepUniqueKeys(form: seq<Prop>, name: string, key: string, value: JsVal)
    requires UniqueKeys(form)
    ensures UniqueKeys(WithMainChange(form, name, value))
    ensures UniqueKeys(WithAttribute(form, key, value))
  {
    PutKeepsUniqueKeys(form, "category", value);
    PutKeepsUniqueKeys(Put(form, "category", value), "attributes", Obj([]));
    PutKeepsUniqueKeys(form, name, value);
    PutKeepsUniqueKeys(form, "attributes", Obj(Put(AttributesOf(form), key, value)));
  }

  /** `d ? d.split('T')[0] : blank`: the date part of a timestamp. A date
      that is neither falsy nor text has no `split` and throws (None). */
  function DateOnly(d: JsVal, blank: string): (r: Option<string>)
    ensures !Truthy(d) ==> r == Some(blank)
    ensures d.Str? && Truthy(d) ==> r == Some(Before(d.s, 'T'))
    ensures r.None? <==> Truthy(d) && !d.Str?
  {
    if !Truthy(d) then Some(blank)
    else if d.Str? then Some(Before(d.s, 'T'))
    else None
  }

  /** The date part of `date + "T" + time` is `date`. */
  lemma {:induction false} BeforeOfJoin(date: string, rest: string)
    requires 'T' !in date
    ensures Before(date + "T" + rest, 'T') == date
  {
    if date != [] {
      assert (date + "T" + rest)[1..] == date[1..] + "T" + rest;
      BeforeOfJoin(date[1..], rest);
    }
  }

  lemma DateOnlyOfTimestamp(date: string, rest: string, blank: string)
    requires 'T' !in date
    ensures DateOnly(Str(date + "T" + rest), blank) == Some(date)
  {
    BeforeOfJoin(date, rest);
  }

  /** The attribute preview of a card: `Object.entries(attributes).slice(0, 2)`,
      nothing for a missing attributes value. */
  function Preview(attributes: JsVal): (r: seq<Prop>)
    ensures |r| <= 2
    ensures attributes.Obj? ==> r <= attributes.props && |r| == (if |attributes.props| < 2 then |attributes.props| else 2)
    ensures !attributes.Obj? ==> r == []
  {
    if !attributes.Obj? then []
    else if |attributes.props| < 2 then attributes.props
    else attributes.props[..2]
  }

  /** The labels of a preview, each key spaced before its capitals. */
  function PreviewLabels(entries: seq<Prop>): (r: seq<string>)
    ensures |r| == |entries|
    ensures forall i :: 0 <= i < |entries| ==> r[i] == CamelLabel(entries[i].key)
  {
    if entries == [] then [] else [CamelLabel(entries[0].key)] + PreviewLabels(entries[1..])
  }

  /** The form state and the two change handlers. */
  class FormState {
    var formData: seq<Prop>

    constructor(initial: seq<Prop>)
      ensures formData == initial
    {
      formData := initial;
    }

    /** `handleMainChange(e)` with `e.target` = `{name, value}`. */
    method HandleMainChange(name: string, value: JsVal)
      modifies this
      ensures formData == WithMainChange(old(formData), name, value)
      ensures name == "category" ==> Lookup(formData, "attributes") == Some(Obj([]))
      ensures Lookup(formData, name) == Some(value)
    {
      if name == "category" {
        CategoryChangeClearsAttributes(formData, value);
      } else {
        OtherChangeTouchesOneField(formData, name, value);
      }
      formData := WithMainChange(formData, name, value);
    }

    /** `handleAttributeChange(key, value)`. */
    method HandleAttributeChange(key: string, value: JsVal)
      modifies this
      ensures formData == WithAttribute(old(formData), key, value)
      ensures Lookup(AttributesOf(formData), key) == Some(value)
      ensures forall k :: k != key ==> Lookup(AttributesOf(formData), k) == Lookup(AttributesOf(old(formData)), k)
    {
      AttributeChangeTouchesOneKey(formData, key, value);
      formData := WithAttribute(formData, key, value);
    }
  }
}
