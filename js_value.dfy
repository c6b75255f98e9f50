/** JavaScript values as the pages see them: server responses are loosely
    typed bags of fields, read defensively with `||`, `?.` and truthiness
    tests. An object is an ORDERED list of properties, because the pages
    show `Object.entries(...)` previews and rebuild records with spread. */
module JsValue {

  datatype Option<+T> = None | Some(value: T)

  /** The settled state of one awaited network call. A fulfilled call holds
      the response object (whose `data` field is the body); a rejected one
      holds the thrown error. */
  datatype Outcome<+T> = Fulfilled(value: T) | Rejected(reason: T)

  /** A JavaScript number. The model has no rounding: finite numbers are
      reals, so a sum or product never overflows to an infinity; infinities
      come from division by zero and from `parseFloat` of the text `Infinity`. */
  datatype Num = Finite(r: real) | NaN | PosInf | NegInf

  datatype JsVal =
    | Undefined
    | Null
    | Bool(b: bool)
    | Number(n: Num)
    | Str(s: string)
    | Arr(items: seq<JsVal>)
    | Obj(props: seq<Prop>)

  datatype Prop = Prop(key: string, val: JsVal)

  function Num0(): JsVal { Number(Finite(0.0)) }

  /** `v == null` in JavaScript: the values whose member access throws. */
  predicate Nullish(v: JsVal) { v.Undefined? || v.Null? }

  /** ToBoolean: false, 0, NaN, "", null and undefined are falsy. */
  predicate Truthy(v: JsVal)
  {
    match v
    case Undefined => false
    case Null => false
    case Bool(b) => b
    case Number(n) => !(n == Finite(0.0) || n.NaN?)
    case Str(s) => s != ""
    case Arr(_) => true
    case Obj(_) => true
  }

  /** `a || b`: the left operand when it is truthy, else the right one. */
  function Or(a: JsVal, b: JsVal): (r: JsVal)
    ensures Truthy(r) <==> Truthy(a) || Truthy(b)
    ensures r == a || r == b
    ensures Truthy(a) ==> r == a
  {
    if Truthy(a) then a else b
  }

  /** The value of the first property named `key`, if any. */
  function Lookup(ps: seq<Prop>, key: string): Option<JsVal>
  {
    if ps == [] then None
    else if ps[0].key == key then Some(ps[0].val)
    else Lookup(ps[1..], key)
  }

  function Keys(ps: seq<Prop>): (ks: seq<string>)
    ensures |ks| == |ps|
    ensures forall i :: 0 <= i < |ps| ==> ks[i] == ps[i].key
  {
    if ps == [] then [] else [ps[0].key] + Keys(ps[1..])
  }

  /** Property names are pairwise distinct, as in every JavaScript object. */
  predicate UniqueKeys(ps: seq<Prop>)
  {
    forall i, j :: 0 <= i < j < |ps| ==> ps[i].key != ps[j].key
  }

  /** `{...o, [key]: v}` on the property list of `o`: an existing property
      keeps its place and takes the new value; a new one goes last. */
  function Put(ps: seq<Prop>, key: string, v: JsVal): seq<Prop>
  {
    if ps == [] then [Prop(key, v)]
    else if ps[0].key == key then [Prop(key, v)] + ps[1..]
    else [ps[0]] + Put(ps[1..], key, v)
  }

  /** Reading `o.key` on a value known not to throw, or `o?.key`: a missing
      property, and any property of a non-object, reads as undefined. */
  function Get(v: JsVal, key: string): (r: JsVal)
    ensures !v.Obj? ==> r == Undefined
  {
    if v.Obj? then
      match Lookup(v.props, key)
      case Some(x) => x
      case None => Undefined
    else Undefined
  }

  /** Plain `o.key`: a TypeError (None) when `o` is null or undefined. */
  function Access(v: JsVal, key: string): (r: Option<JsVal>)
    ensures r.None? <==> Nullish(v)
    ensures r.Some? ==> r.value == Get(v, key)
  {
    if Nullish(v) then None else Some(Get(v, key))
  }

  /** `v.k1 || v.k2 || ... || v.kn` on a value whose member access does not
      throw. */
  function Pick(v: JsVal, keys: seq<string>): (r: JsVal)
    requires keys != []
    ensures Truthy(r) <==> exists i :: 0 <= i < |keys| && Truthy(Get(v, keys[i]))
  {
    if |keys| == 1 then Get(v, keys[0])
    else
      var rest := Pick(v, keys[1..]);
      assert forall i :: 1 <= i < |keys| ==> keys[i] == keys[1..][i - 1];
      Or(Get(v, keys[0]), rest)
  }

  /** The chain yields the first truthy field, or the last field when none
      is truthy. */
  lemma {:induction false} PickIsFirstTruthy(v: JsVal, keys: seq<string>)
    requires keys != []
    ensures exists i :: (0 <= i < |keys| && Pick(v, keys) == Get(v, keys[i]) &&
                         (Truthy(Get(v, keys[i])) || i == |keys| - 1) &&
                         forall j :: 0 <= j < i ==> !Truthy(Get(v, keys[j])))
  {
    if |keys| > 1 {
      PickIsFirstTruthy(v, keys[1..]);
      var i :| 0 <= i < |keys[1..]| && Pick(v, keys[1..]) == Get(v, keys[1..][i]) &&
        (Truthy(Get(v, keys[1..][i])) || i == |keys[1..]| - 1) &&
        forall j :: 0 <= j < i ==> !Truthy(Get(v, keys[1..][j]));
      if !Truthy(Get(v, keys[0])) {
        assert forall j :: 1 <= j < i + 1 ==> keys[j] == keys[1..][j - 1];
        assert Pick(v, keys) == Get(v, keys[i + 1]);
      } else {
        assert Pick(v, keys) == Get(v, keys[0]);
      }
    } else {
      assert Pick(v, keys) == Get(v, keys[0]);
    }
  }

  /** The chain yields a truthy field when every field before it is
      falsy. */
  lemma PickAt(v: JsVal, keys: seq<string>, i: int)
    requires 0 <= i < |keys| && Truthy(Get(v, keys[i]))
    requires forall j :: 0 <= j < i ==> !Truthy(Get(v, keys[j]))
    ensures Pick(v, keys) == Get(v, keys[i])
  {
    PickIsFirstTruthy(v, keys);
    var k :| 0 <= k < |keys| && Pick(v, keys) == Get(v, keys[k]) &&
      (Truthy(Get(v, keys[k])) || k == |keys| - 1) &&
      forall j :: 0 <= j < k ==> !Truthy(Get(v, keys[j]));
  }

  /** Strict equality `a === b`. NaN equals nothing; two object or array
      operands are taken to be distinct references. */
  predicate StrictEquals(a: JsVal, b: JsVal)
  {
    match (a, b)
    case (Undefined, Undefined) => true
    case (Null, Null) => true
    case (Bool(x), Bool(y)) => x == y
    case (Number(x), Number(y)) => x == y && !x.NaN?
    case (Str(x), Str(y)) => x == y
    case _ => false
  }

  lemma {:induction false} LookupPutSame(ps: seq<Prop>, key: string, v: JsVal)
    ensures Lookup(Put(ps, key, v), key) == Some(v)
  {
    if ps != [] && ps[0].key != key {
      LookupPutSame(ps[1..], key, v);
    }
  }

  lemma {:induction false} LookupPutOther(ps: seq<Prop>, key: string, v: JsVal, other: string)
    requires other != key
    ensures Lookup(Put(ps, key, v), other) == Lookup(ps, other)
  {
    if ps != [] && ps[0].key != key {
      LookupPutOther(ps[1..], key, v, other);
    }
  }

  /** A property whose name no earlier property has is found by its name;
      in an object with distinct names, that is every property. */
  lemma {:induction false} LookupAt(ps: seq<Prop>, i: int)
    requires 0 <= i < |ps| && forall j :: 0 <= j < i ==> ps[j].key != ps[i].key
    ensures Lookup(ps, ps[i].key) == Some(ps[i].val)
  {
    if i > 0 {
      assert ps[0].key != ps[i].key;
      assert ps[1..][i - 1] == ps[i];
      assert forall j :: 0 <= j < i - 1 ==> ps[1..][j] == ps[j + 1];
      LookupAt(ps[1..], i - 1);
    }
  }

  /** Setting a property keeps every existing name in place and adds the new
      name at the end only when it was not there. */
  lemma {:induction false} KeysPut(ps: seq<Prop>, key: string, v: JsVal)
    ensures key in Keys(ps) ==> Keys(Put(ps, key, v)) == Keys(ps)
    ensures key !in Keys(ps) ==> Keys(Put(ps, key, v)) == Keys(ps) + [key]
  {
    if ps != [] && ps[0].key != key {
      KeysPut(ps[1..], key, v);
      assert Keys(ps) == [ps[0].key] + Keys(ps[1..]);
    }
  }

  lemma {:induction false} PutKeepsUniqueKeys(ps: seq<Prop>, key: string, v: JsVal)
    requires UniqueKeys(ps)
    ensures UniqueKeys(Put(ps, key, v))
  {
    KeysPut(ps, key, v);
    var qs := Put(ps, key, v);
    var ks := Keys(qs);
    if key in Keys(ps) {
      assert ks == Keys(ps);
    } else {
      forall i | 0 <= i < |ps| ensures ps[i].key != key {
        assert Keys(ps)[i] == ps[i].key;
      }
    }
    forall i, j | 0 <= i < j < |qs| ensures qs[i].key != qs[j].key {
      assert ks[i] == qs[i].key && ks[j] == qs[j].key;
      if key in Keys(ps) {
        assert Keys(ps)[i] == ps[i].key && Keys(ps)[j] == ps[j].key;
      } else if j < |ps| {
        assert Keys(ps)[i] == ps[i].key && Keys(ps)[j] == ps[j].key;
      }
    }
  }

  /** Setting a property twice keeps only the second value. */
  lemma {:induction false} PutTwice(ps: seq<Prop>, key: string, v: JsVal, w: JsVal)
    ensures Put(Put(ps, key, v), key, w) == Put(ps, key, w)
  {
    if ps != [] && ps[0].key != key {
      PutTwice(ps[1..], key, v, w);
    }
  }

  /** Setting a property to the value it already has changes nothing. */
  lemma {:induction false} PutSameValue(ps: seq<Prop>, key: string, v: JsVal)
    requires Lookup(ps, key) == Some(v)
    ensures Put(ps, key, v) == ps
  {
    if ps[0].key != key {
      PutSameValue(ps[1..], key, v);
    }
  }
}
