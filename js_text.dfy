/** The JavaScript string operations the pages use: `trim`, case mapping,
    `includes`, `replace` with a one-character pattern, `split('T')[0]` and
    the regular-expression label transform. Case mapping covers ASCII only. */
module JsText {

  /** The characters `String.prototype.trim` strips: WhiteSpace and
      LineTerminator of ECMA-262. */
  predicate IsJsWhitespace(c: char)
  {
    c == '\t' || c == '\n' || c == '\U{000B}' || c == '\U{000C}' || c == '\r' ||
    c == ' ' || c == '\U{00A0}' || c == '\U{1680}' ||
    ('\U{2000}' <= c <= '\U{200A}') ||
    c == '\U{2028}' || c == '\U{2029}' || c == '\U{202F}' || c == '\U{205F}' ||
    c == '\U{3000}' || c == '\U{FEFF}'
  }

  predicate AllWhitespace(s: string)
  {
    forall i :: 0 <= i < |s| ==> IsJsWhitespace(s[i])
  }

  lemma WhitespaceConcat(a: string, b: string)
    requires AllWhitespace(a) && AllWhitespace(b)
    ensures AllWhitespace(a + b)
  {
    forall i | 0 <= i < |a + b| ensures IsJsWhitespace((a + b)[i]) {
      if i < |a| { assert (a + b)[i] == a[i]; } else { assert (a + b)[i] == b[i - |a|]; }
    }
  }

  /** `s.trimStart()`: `s` without its leading whitespace. */
  function TrimStart(s: string): (r: string)
    ensures |r| <= |s|
    ensures r != [] ==> !IsJsWhitespace(r[0])
  {
    if s != [] && IsJsWhitespace(s[0]) then TrimStart(s[1..]) else s
  }

  /** What `trimStart` drops is a run of whitespace at the front. */
  lemma {:induction false} TrimStartSlice(s: string)
    ensures var r := TrimStart(s); r == s[|s| - |r|..] && AllWhitespace(s[..|s| - |r|])
  {
    if s != [] && IsJsWhitespace(s[0]) {
      var r := TrimStart(s[1..]);
      TrimStartSlice(s[1..]);
      assert s[..|s| - |r|] == [s[0]] + s[1..][..|s| - 1 - |r|];
      WhitespaceConcat([s[0]], s[1..][..|s| - 1 - |r|]);
    } else {
      assert s[..0] == [];
    }
  }

  /** `s.trimEnd()`: `s` without its trailing whitespace. */
  function TrimEnd(s: string): (r: string)
    ensures |r| <= |s|
    ensures r != [] ==> !IsJsWhitespace(r[|r| - 1])
  {
    if s != [] && IsJsWhitespace(s[|s| - 1]) then TrimEnd(s[..|s| - 1]) else s
  }

  /** What `trimEnd` drops is a run of whitespace at the back. */
  lemma {:induction false} TrimEndSlice(s: string)
    ensures var r := TrimEnd(s); r == s[..|r|] && AllWhitespace(s[|r|..])
  {
    if s != [] && IsJsWhitespace(s[|s| - 1]) {
      var r := TrimEnd(s[..|s| - 1]);
      TrimEndSlice(s[..|s| - 1]);
      assert s[|r|..] == s[..|s| - 1][|r|..] + [s[|s| - 1]];
      WhitespaceConcat(s[..|s| - 1][|r|..], [s[|s| - 1]]);
    } else {
      assert s[|s|..] == [];
    }
  }

  /** `s.trim()`. */
  function Trim(s: string): (r: string)
    ensures |r| <= |s|
    ensures r != [] ==> !IsJsWhitespace(r[0]) && !IsJsWhitespace(r[|r| - 1])
  {
    TrimEndSlice(TrimStart(s));
    TrimEnd(TrimStart(s))
  }

  /** Trimming cuts only whitespace, and only at the two ends: what is left
      is the slice of `s` between its leading and its trailing whitespace. */
  lemma TrimIsSlice(s: string)
    ensures var i := |s| - |TrimStart(s)|;
      i + |Trim(s)| <= |s| && Trim(s) == s[i..i + |Trim(s)|] &&
      AllWhitespace(s[..i]) && AllWhitespace(s[i + |Trim(s)|..])
  {
    var t := TrimStart(s);
    var i := |s| - |t|;
    var r := TrimEnd(t);
    TrimStartSlice(s);
    TrimEndSlice(t);
    assert s[i + |r|..] == t[|r|..];
  }

  /** A string is blank after trimming exactly when it is all whitespace. */
  lemma TrimEmptyIffBlank(s: string)
    ensures Trim(s) == "" <==> AllWhitespace(s)
  {
    TrimIsSlice(s);
    var r := Trim(s);
    var i := |s| - |TrimStart(s)|;
    if r == "" {
      forall n | 0 <= n < |s| ensures IsJsWhitespace(s[n]) {
        if n < i { assert s[..i][n] == s[n]; } else { assert s[i..][n - i] == s[n]; }
      }
    } else {
      assert s[i] == r[0];
    }
  }

  predicate IsUpperAscii(c: char) { 'A' <= c <= 'Z' }
  predicate IsLowerAscii(c: char) { 'a' <= c <= 'z' }

  function LowerChar(c: char): char
  {
    if IsUpperAscii(c) then (c as int + 32) as char else c
  }

  function UpperChar(c: char): char
  {
    if IsLowerAscii(c) then (c as int - 32) as char else c
  }

  /** `s.toLowerCase()` on ASCII letters. */
  function Lower(s: string): (r: string)
    ensures |r| == |s|
    ensures forall i :: 0 <= i < |s| ==> r[i] == LowerChar(s[i])
  {
    if s == [] then [] else [LowerChar(s[0])] + Lower(s[1..])
  }

  /** `s.toUpperCase()` on ASCII letters. */
  function Upper(s: string): (r: string)
    ensures |r| == |s|
    ensures forall i :: 0 <= i < |s| ==> r[i] == UpperChar(s[i])
  {
    if s == [] then [] else [UpperChar(s[0])] + Upper(s[1..])
  }

  /** Lower-casing twice is lower-casing once. */
  lemma LowerIdempotent(s: string)
    ensures Lower(Lower(s)) == Lower(s)
  {
    assert forall i :: 0 <= i < |s| ==> LowerChar(LowerChar(s[i])) == LowerChar(s[i]);
  }

  /** `sub` occurs in `s` at index `i`. */
  predicate OccursAt(s: string, sub: string, i: int)
  {
    0 <= i && i + |sub| <= |s| && s[i..i + |sub|] == sub
  }

  /** `s.includes(sub)`, by search from the left. */
  function Includes(s: string, sub: string): (b: bool)
    ensures b <==> exists i :: OccursAt(s, sub, i)
    decreases |s|
  {
    if sub <= s then
      assert OccursAt(s, sub, 0);
      true
    else if |s| <= |sub| then
      assert forall i :: OccursAt(s, sub, i) ==> sub <= s;
      false
    else
      var b := Includes(s[1..], sub);
      assert forall i :: OccursAt(s[1..], sub, i) ==> OccursAt(s, sub, i + 1) by {
        forall i | OccursAt(s[1..], sub, i) ensures OccursAt(s, sub, i + 1) {
          assert s[1..][i..i + |sub|] == s[i + 1..i + 1 + |sub|];
        }
      }
      assert forall i :: OccursAt(s, sub, i) && i > 0 ==> OccursAt(s[1..], sub, i - 1) by {
        forall i | OccursAt(s, sub, i) && i > 0 ensures OccursAt(s[1..], sub, i - 1) {
          assert s[1..][i - 1..i - 1 + |sub|] == s[i..i + |sub|];
        }
      }
      assert !OccursAt(s, sub, 0);
      b
  }

  /** The index of the first `c` in `s`. */
  function IndexOf(s: string, c: char): (k: nat)
    requires c in s
    ensures k < |s| && s[k] == c && c !in s[..k]
  {
    if s[0] == c then 0
    else
      var k := IndexOf(s[1..], c);
      assert s[..k + 1] == [s[0]] + s[1..][..k];
      k + 1
  }

  /** `s.replace(c, d)` with a one-character string pattern: only the first
      occurrence is replaced, every other character is kept. */
  function ReplaceFirst(s: string, c: char, d: char): (r: string)
    ensures |r| == |s|
    ensures c in s ==> r[IndexOf(s, c)] == d
    ensures c in s ==> forall i :: 0 <= i < |s| && i != IndexOf(s, c) ==> r[i] == s[i]
    ensures c !in s ==> r == s
  {
    if s == [] then s
    else if s[0] == c then [d] + s[1..]
    else [s[0]] + ReplaceFirst(s[1..], c, d)
  }

  /** `s.split(c)[0]`: the text before the first `c`, or all of `s`. */
  function Before(s: string, c: char): (r: string)
    ensures r <= s && c !in r
    ensures |r| < |s| ==> s[|r|] == c
  {
    if s == [] || s[0] == c then [] else [s[0]] + Before(s[1..], c)
  }

  /** `key.replace(/([A-Z])/g, ' $1')`: a space before every capital. */
  function SpaceBeforeCapitals(key: string): string
  {
    if key == [] then []
    else (if IsUpperAscii(key[0]) then [' ', key[0]] else [key[0]]) + SpaceBeforeCapitals(key[1..])
  }

  /** The inverse edit: drop one space in front of each capital. */
  function DropSpaceBeforeCapitals(s: string): string
  {
    if s == [] then []
    else if |s| >= 2 && s[0] == ' ' && IsUpperAscii(s[1]) then [s[1]] + DropSpaceBeforeCapitals(s[2..])
    else [s[0]] + DropSpaceBeforeCapitals(s[1..])
  }

  /** The regular-expression edit loses nothing: undoing it gives the key back. */
  lemma {:induction false} SpaceBeforeCapitalsRoundTrip(key: string)
    ensures DropSpaceBeforeCapitals(SpaceBeforeCapitals(key)) == key
  {
    if key != [] {
      SpaceBeforeCapitalsRoundTrip(key[1..]);
      var rest := SpaceBeforeCapitals(key[1..]);
      if IsUpperAscii(key[0]) {
        assert ([' ', key[0]] + rest)[2..] == rest;
      } else {
        assert ([key[0]] + rest)[1..] == rest;
        if |rest| >= 1 && key[0] == ' ' {
          SpacedStart(key[1..]);
        }
      }
    }
  }

  /** An edited key never starts with a capital: the capital gets its space. */
  lemma SpacedStart(key: string)
    requires key != []
    ensures !IsUpperAscii(SpaceBeforeCapitals(key)[0])
  {
  }

  /** The attribute label: `key.replace(/([A-Z])/g, ' $1').trim()`. */
  function CamelLabel(key: string): (r: string)
    ensures |r| <= |SpaceBeforeCapitals(key)|
  {
    Trim(SpaceBeforeCapitals(key))
  }

  /** A label has a space before every capital except a leading one. */
  lemma {:induction false} SpacedHasSpaceBeforeCapitals(key: string, i: int)
    requires 0 <= i < |SpaceBeforeCapitals(key)| && IsUpperAscii(SpaceBeforeCapitals(key)[i])
    ensures i >= 1 && SpaceBeforeCapitals(key)[i - 1] == ' '
  {
    var head := if IsUpperAscii(key[0]) then [' ', key[0]] else [key[0]];
    var rest := SpaceBeforeCapitals(key[1..]);
    assert SpaceBeforeCapitals(key) == head + rest;
    if i >= |head| {
      SpacedHasSpaceBeforeCapitals(key[1..], i - |head|);
      if i - |head| >= 1 {
        assert (head + rest)[i - 1] == rest[i - |head| - 1];
      }
    }
  }
}
