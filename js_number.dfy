/** JavaScript's number coercions and the arithmetic the pages do on them:
    `Number(v)` (also what `safeNumber`, `isNaN` and relational operators
    apply), `parseFloat`, `Math.round`, `Math.min` and division. Decimal
    literals are read exactly, as reals; exponents, hexadecimal literals and
    the word `Infinity` in text are not read (see README). */
module JsNumber {
  import opened JsValue
  import opened JsText

  predicate IsDigit(c: char) { '0' <= c <= '9' }

  function DigitValue(c: char): nat
    requires IsDigit(c)
  {
    c as int - '0' as int
  }

  predicate AllDigits(s: string) { forall i :: 0 <= i < |s| ==> IsDigit(s[i]) }

  /** The integer a string of digits spells, most significant digit first. */
  function DigitsValue(ds: string): nat
    requires AllDigits(ds)
  {
    if ds == [] then 0 else DigitsValue(ds[..|ds| - 1]) * 10 + DigitValue(ds[|ds| - 1])
  }

  function Pow10(n: nat): (p: nat)
    ensures p >= 1
  {
    if n == 0 then 1 else 10 * Pow10(n - 1)
  }

  /** How many digits `s` starts with. */
  function LeadingDigits(s: string): (n: nat)
    ensures n <= |s| && AllDigits(s[..n])
    ensures n < |s| ==> !IsDigit(s[n])
  {
    if s != [] && IsDigit(s[0]) then
      var n := LeadingDigits(s[1..]);
      assert s[..n + 1] == [s[0]] + s[1..][..n];
      n + 1
    else 0
  }

  /** The longest decimal literal at the start of a string: its length (0
      when there is none) and its value. */
  datatype Scan = Scan(len: nat, value: real)

  /** `digits [. digits]` or `. digits`, at least one digit in all. */
  function UnsignedPrefix(t: string): (p: Scan)
    ensures p.len <= |t|
    ensures p.value >= 0.0
  {
    var i := LeadingDigits(t);
    var whole := DigitsValue(t[..i]) as real;
    if i < |t| && t[i] == '.' then
      var f := LeadingDigits(t[i + 1..]);
      if i + f == 0 then Scan(0, 0.0)
      else Scan(i + 1 + f, whole + DigitsValue(t[i + 1..][..f]) as real / Pow10(f) as real)
    else if i == 0 then Scan(0, 0.0)
    else Scan(i, whole)
  }

  /** An optional sign, then an unsigned decimal literal. */
  function SignedPrefix(t: string): (p: Scan)
    ensures p.len <= |t|
  {
    if t != [] && (t[0] == '+' || t[0] == '-') then
      var u := UnsignedPrefix(t[1..]);
      if u.len == 0 then Scan(0, 0.0)
      else Scan(u.len + 1, if t[0] == '-' then -u.value else u.value)
    else UnsignedPrefix(t)
  }

  /** `Number(s)` for a string: blank text is 0, a whole decimal literal
      between whitespace is its value, anything else is NaN. */
  function StringToNumber(s: string): (n: Num)
    ensures n.Finite? || n.NaN?
    ensures AllWhitespace(s) ==> n == Finite(0.0)
  {
    TrimEmptyIffBlank(s);
    var t := Trim(s);
    if t == "" then Finite(0.0)
    else
      var p := SignedPrefix(t);
      if p.len == |t| then Finite(p.value) else NaN
  }

  /** `Number(v)`: the ToNumber conversion. An array converts through its
      text, `join(",")`: the empty array is 0, a one-element array converts
      like its element's text, and a longer one holds a comma, so is NaN. */
  function ToNumber(v: JsVal): (r: Num)
    ensures v.Number? ==> r == v.n
    ensures v.Undefined? || v.Obj? ==> r == NaN
    ensures v.Null? ==> r == Finite(0.0)
    ensures (r.PosInf? || r.NegInf?) ==> v.Number? || v.Arr?
  {
    match v
    case Undefined => NaN
    case Null => Finite(0.0)
    case Bool(b) => Finite(if b then 1.0 else 0.0)
    case Number(n) => n
    case Str(s) => StringToNumber(s)
    case Arr(items) =>
      if |items| == 0 then Finite(0.0)
      else if |items| > 1 then NaN
      else if Nullish(items[0]) then Finite(0.0)
      else if items[0].Bool? then NaN
      else ToNumber(items[0])
    case Obj(_) => NaN
  }

  /** `parseFloat(s)` for a string: leading whitespace is skipped and the
      longest decimal literal is read; the rest of the text is ignored. */
  function ParseFloatText(s: string): (n: Num)
    ensures n.Finite? <==> SignedPrefix(TrimStart(s)).len > 0
    ensures n.Finite? ==> n.r == SignedPrefix(TrimStart(s)).value
    ensures n.PosInf? || n.NegInf? ==> SignedPrefix(TrimStart(s)).len == 0 && |TrimStart(s)| >= 8
  {
    var t := TrimStart(s);
    var p := SignedPrefix(t);
    if p.len > 0 then Finite(p.value)
    else if "Infinity" <= t || "+Infinity" <= t then PosInf
    else if "-Infinity" <= t then NegInf
    else NaN
  }

  /** `parseFloat(v)`: the value is first turned into text. Numbers come
      back unchanged; `null`, `undefined`, booleans and objects spell no
      number; an array reads as its first element's text, which ends at the
      first comma of `join(",")`. */
  function ParseFloat(v: JsVal): (r: Num)
    ensures v.Number? ==> r == v.n
    ensures Nullish(v) || v.Bool? || v.Obj? ==> r == NaN
  {
    match v
    case Number(n) => n
    case Str(s) => ParseFloatText(s)
    case Arr(items) =>
      if |items| == 0 || Nullish(items[0]) then NaN else ParseFloat(items[0])
    case _ => NaN
  }

  /** An array is read through its first element: an empty array or a
      null first element spells no number, and a number comes back
      unchanged. */
  lemma ParseFloatFirstElement(items: seq<JsVal>)
    ensures |items| == 0 || Nullish(items[0]) ==> ParseFloat(Arr(items)) == NaN
    ensures |items| > 0 && items[0].Number? ==> ParseFloat(Arr(items)) == items[0].n
  {
  }

  /** The decimal text of a natural number. */
  function NatText(n: nat): (s: string)
    ensures s != [] && AllDigits(s)
  {
    if n < 10 then [('0' as int + n) as char]
    else NatText(n / 10) + [('0' as int + n % 10) as char]
  }

  lemma {:induction false} NatTextValue(n: nat)
    ensures DigitsValue(NatText(n)) == n
  {
    if n >= 10 {
      NatTextValue(n / 10);
      var s := NatText(n);
      assert s[..|s| - 1] == NatText(n / 10);
    }
  }

  lemma LeadingDigitsAll(s: string)
    requires AllDigits(s)
    ensures LeadingDigits(s) == |s|
  {
    if s != [] {
      LeadingDigitsAll(s[1..]);
    }
  }

  lemma TrimKeepsEdges(s: string)
    requires s != [] && !IsJsWhitespace(s[0]) && !IsJsWhitespace(s[|s| - 1])
    ensures TrimStart(s) == s && Trim(s) == s
  {
  }

  lemma DigitsScan(s: string)
    requires s != [] && AllDigits(s)
    ensures SignedPrefix(s) == Scan(|s|, DigitsValue(s) as real)
  {
    LeadingDigitsAll(s);
    assert s[..|s|] == s;
  }

  /** A number written out in decimal reads back as itself, through both
      `Number` and `parseFloat`. */
  lemma NatTextRoundTrip(n: nat)
    ensures StringToNumber(NatText(n)) == Finite(n as real)
    ensures ParseFloatText(NatText(n)) == Finite(n as real)
  {
    var s := NatText(n);
    NatTextValue(n);
    TrimKeepsEdges(s);
    DigitsScan(s);
  }

  /** Division, with JavaScript's results for zero and infinite operands
      (the sign of a zero is not modelled: every zero divisor is +0). */
  function Div(a: Num, b: Num): (r: Num)
    ensures a.Finite? && b.Finite? && b.r != 0.0 ==> r == Finite(a.r / b.r)
    ensures a.NaN? || b.NaN? ==> r.NaN?
  {
    match (a, b)
    case (NaN, _) => NaN
    case (_, NaN) => NaN
    case (Finite(x), Finite(y)) =>
      if y != 0.0 then Finite(x / y)
      else if x > 0.0 then PosInf
      else if x < 0.0 then NegInf
      else NaN
    case (Finite(_), _) => Finite(0.0)
    case (PosInf, Finite(y)) => if y >= 0.0 then PosInf else NegInf
    case (NegInf, Finite(y)) => if y >= 0.0 then NegInf else PosInf
    case _ => NaN
  }

  /** Multiplication by a positive constant. */
  function Scale(a: Num, c: real): (r: Num)
    requires c > 0.0
    ensures a.Finite? ==> r == Finite(a.r * c)
    ensures !a.Finite? ==> r == a
  {
    if a.Finite? then Finite(a.r * c) else a
  }

  /** `Math.round` on a finite number: the nearest integer, halves up. */
  function RoundHalfUp(x: real): (n: int)
    ensures x - 0.5 < n as real <= x + 0.5
  {
    (x + 0.5).Floor
  }

  /** `Math.round`. */
  function Round(a: Num): (r: Num)
    ensures a.Finite? ==> r.Finite? && a.r - 0.5 < r.r <= a.r + 0.5 && r.r == r.r.Floor as real
    ensures !a.Finite? ==> r == a
  {
    if a.Finite? then Finite(RoundHalfUp(a.r) as real) else a
  }

  /** `a <= b` on non-NaN numbers, infinities at the ends. */
  predicate NumLe(a: Num, b: Num)
  {
    match (a, b)
    case (NegInf, _) => !b.NaN?
    case (_, PosInf) => !a.NaN?
    case (Finite(x), Finite(y)) => x <= y
    case _ => false
  }

  /** `Math.min(a, b)`: NaN when either is NaN, else the smaller one. */
  function Min(a: Num, b: Num): (r: Num)
    ensures a.NaN? || b.NaN? ==> r.NaN?
    ensures !a.NaN? && !b.NaN? ==> (r == a || r == b) && NumLe(r, a) && NumLe(r, b)
  {
    if a.NaN? || b.NaN? then NaN else if NumLe(a, b) then a else b
  }

  /** `a + b` on two numbers: infinities absorb finite operands and
      opposite infinities give NaN. */
  function Add(a: Num, b: Num): (r: Num)
    ensures a.Finite? && b.Finite? ==> r == Finite(a.r + b.r)
    ensures a.NaN? || b.NaN? ==> r.NaN?
  {
    match (a, b)
    case (NaN, _) => NaN
    case (_, NaN) => NaN
    case (Finite(x), Finite(y)) => Finite(x + y)
    case (PosInf, NegInf) => NaN
    case (NegInf, PosInf) => NaN
    case (Finite(_), _) => b
    case _ => a
  }

  /** `a + b` on two values. When either side is text, an array or an
      object, `+` concatenates text, which the model leaves out (None);
      otherwise both sides are converted to numbers and added. */
  function Plus(a: JsVal, b: JsVal): (r: Option<Num>)
    ensures a.Number? && b.Number? ==> r == Some(Add(a.n, b.n))
    ensures r.None? <==> a.Str? || a.Arr? || a.Obj? || b.Str? || b.Arr? || b.Obj?
  {
    if a.Str? || a.Arr? || a.Obj? || b.Str? || b.Arr? || b.Obj? then None
    else Some(Add(ToNumber(a), ToNumber(b)))
  }

  /** `x > c` for a number `x` and a constant `c`; false for NaN. */
  predicate Above(a: Num, c: real)
  {
    match a
    case Finite(x) => x > c
    case PosInf => true
    case _ => false
  }

  /** `x >= c` for a number `x` and a constant `c`; false for NaN. */
  predicate AtLeast(a: Num, c: real)
  {
    match a
    case Finite(x) => x >= c
    case PosInf => true
    case _ => false
  }
}
