/** The slice of JavaScript's value semantics the planner relies on:
    optional values and their truthiness, integer numbers with NaN, the
    truncating remainder operator, and the string operations used to print
    and read back times and durations (`toString`, `padStart`, `trim`,
    `split`, `replace`, `parseFloat`, `parseInt`, `Number`). */
module JsText {

  /** An optional field (`x?: T`); `None` is `undefined`. */
  datatype Option<T> = None | Some(value: T)

  /** Truthiness of an optional string: `undefined` and `""` are falsy. */
  predicate Truthy(o: Option<string>) {
    o.Some? && o.value != ""
  }

  /** `s || undefined`: the empty string becomes `undefined`. */
  function OrUndefined(s: string): (o: Option<string>)
    ensures Truthy(o) <==> s != ""
    ensures o.Some? ==> o.value == s
  {
    if s == "" then None else Some(s)
  }

  /** A JavaScript number restricted to the integers, plus NaN. */
  datatype JsNum = Num(v: int) | NaN

  /** `a + b`; NaN is absorbing. */
  function NumAdd(a: JsNum, b: JsNum): JsNum {
    if a.Num? && b.Num? then Num(a.v + b.v) else NaN
  }

  /** `a * k`; NaN is absorbing. */
  function NumScale(a: JsNum, k: int): JsNum {
    if a.Num? then Num(a.v * k) else NaN
  }

  /** JavaScript's `a % b` for a positive divisor: truncating, so the result
      takes the dividend's sign (Dafny's `%` is Euclidean). */
  function JsRem(a: int, b: int): (r: int)
    requires b > 0
    ensures a >= 0 ==> r == a % b
    ensures -b < r < b
    ensures a < 0 ==> r <= 0
  {
    if a >= 0 then a % b else -((-a) % b)
  }

  // ---------------------------------------------------------------- digits

  predicate IsDigit(c: char) {
    '0' <= c <= '9'
  }

  predicate AllDigits(s: string) {
    forall i :: 0 <= i < |s| ==> IsDigit(s[i])
  }

  function DigitChar(d: nat): (c: char)
    requires d < 10
    ensures IsDigit(c) && (c as int) - ('0' as int) == d
  {
    (('0' as int) + d) as char
  }

  function DigitValue(c: char): nat
    requires IsDigit(c)
  {
    (c as int) - ('0' as int)
  }

  /** `n.toString()` for a natural number: decimal digits, no leading zero. */
  function NatToDecimal(n: nat): (s: string)
    ensures |s| >= 1 && AllDigits(s)
    ensures |s| == 1 <==> n < 10
    ensures n >= 10 ==> s[0] != '0'
  {
    if n < 10 then [DigitChar(n)] else NatToDecimal(n / 10) + [DigitChar(n % 10)]
  }

  /** `i.toString()` for an integer. */
  function IntToDecimal(i: int): (s: string)
    ensures |s| >= 1
    ensures i >= 0 ==> s == NatToDecimal(i)
    ensures i < 0 ==> s[0] == '-'
  {
    if i < 0 then "-" + NatToDecimal(-i) else NatToDecimal(i)
  }

  /** The value of a string of decimal digits ("" has value 0). */
  function DigitsValue(s: string): nat
    requires AllDigits(s)
  {
    if s == [] then 0 else DigitsValue(s[..|s| - 1]) * 10 + DigitValue(s[|s| - 1])
  }

  /** Printing a natural number and reading it back gives the number. */
  lemma {:induction false} DecimalRoundTrip(n: nat)
    ensures DigitsValue(NatToDecimal(n)) == n
  {
    if n >= 10 {
      var s := NatToDecimal(n);
      assert s[..|s| - 1] == NatToDecimal(n / 10);
      DecimalRoundTrip(n / 10);
    }
  }

  /** Leading zeros do not change the value of a digit string. */
  lemma {:induction false} LeadingZeroValue(s: string)
    requires AllDigits(s)
    ensures AllDigits("0" + s) && DigitsValue("0" + s) == DigitsValue(s)
  {
    var t := "0" + s;
    if s != [] {
      assert t[..|t| - 1] == "0" + s[..|s| - 1];
      LeadingZeroValue(s[..|s| - 1]);
    }
  }

  /** The longest prefix of `s` made of decimal digits. */
  function LeadingDigits(s: string): (d: string)
    ensures AllDigits(d) && d <= s
    ensures |d| < |s| ==> !IsDigit(s[|d|])
  {
    if s != [] && IsDigit(s[0]) then [s[0]] + LeadingDigits(s[1..]) else []
  }

  /** A digit string followed by a non-digit has itself as leading digits. */
  lemma {:induction false} LeadingDigitsOf(d: string, rest: string)
    requires AllDigits(d)
    requires rest == [] || !IsDigit(rest[0])
    ensures LeadingDigits(d + rest) == d
  {
    if d != [] {
      assert (d + rest)[1..] == d[1..] + rest;
      LeadingDigitsOf(d[1..], rest);
    }
  }

  /** `parseFloat(s)` on strings whose number (if any) is a leading run of
      decimal digits: that run's value, or NaN when there is none. */
  function ParseFloat(s: string): (r: JsNum)
    ensures r.Num? <==> s != [] && IsDigit(s[0])
    ensures r.Num? ==> r.v >= 0
  {
    var d := LeadingDigits(s);
    if d == [] then NaN else Num(DigitsValue(d))
  }

  lemma ParseFloatDecimal(n: nat)
    ensures ParseFloat(NatToDecimal(n)) == Num(n)
  {
    LeadingDigitsOf(NatToDecimal(n), []);
    assert NatToDecimal(n) + [] == NatToDecimal(n);
    DecimalRoundTrip(n);
  }

  /** `parseInt(s)` (base 10): an optional sign, then a leading run of
      digits; NaN when no digit follows the sign. */
  function ParseInt(s: string): (r: JsNum)
    ensures s == [] ==> r == NaN
    ensures s != [] && IsDigit(s[0]) ==> r == ParseFloat(s)
  {
    if s != [] && s[0] == '-' then NumScale(ParseFloat(s[1..]), -1)
    else if s != [] && s[0] == '+' then ParseFloat(s[1..])
    else ParseFloat(s)
  }

  /** `Number(s)` on strings of decimal digits ("" is 0); anything else
      is NaN in this model. */
  function JsNumber(s: string): (r: JsNum)
    ensures r.Num? <==> AllDigits(s)
  {
    if AllDigits(s) then Num(DigitsValue(s)) else NaN
  }

  // ------------------------------------------------------------- strings

  /** `s.padStart(2, '0')`. */
  function PadStart2(s: string): (r: string)
    ensures |r| == if |s| >= 2 then |s| else 2
    ensures r[|r| - |s|..] == s
    ensures forall i :: 0 <= i < |r| - |s| ==> r[i] == '0'
  {
    if |s| >= 2 then s else if |s| == 1 then "0" + s else "00"
  }

  /** A natural number below 100, printed with two digits, reads back as
      itself. */
  lemma Pad2RoundTrip(n: nat)
    requires n < 100
    ensures |PadStart2(NatToDecimal(n))| == 2
    ensures AllDigits(PadStart2(NatToDecimal(n)))
    ensures DigitsValue(PadStart2(NatToDecimal(n))) == n
  {
    DecimalRoundTrip(n);
    if n < 10 {
      LeadingZeroValue(NatToDecimal(n));
    }
  }

  /** Padding a digit string to two places keeps its value. */
  lemma PadStart2Value(d: string)
    requires AllDigits(d)
    ensures AllDigits(PadStart2(d)) && DigitsValue(PadStart2(d)) == DigitsValue(d)
  {
    if |d| == 1 {
      LeadingZeroValue(d);
    } else if |d| == 0 {
      LeadingZeroValue("0");
      assert DigitsValue("0") == 0;
      assert PadStart2(d) == "0" + "0";
    }
  }

  /** "AA:BB": two numbers, each zero-padded to two places, joined by a
      colon, as the planner prints clock times. */
  function ColonText(a: int, b: int): string {
    PadStart2(IntToDecimal(a)) + ":" + PadStart2(IntToDecimal(b))
  }

  /** `const [a, b] = text.split(':').map(Number); a * 60 + b`, NaN when a
      field is not a number or the second field is missing. */
  function ColonValue(text: string): JsNum {
    var parts := Split(text, ':');
    var a := JsNumber(parts[0]);
    var b := if |parts| >= 2 then JsNumber(parts[1]) else NaN;
    NumAdd(NumScale(a, 60), b)
  }

  /** Two digit strings joined by a colon split back into the two. */
  lemma ColonSplit(da: string, db: string)
    requires AllDigits(da) && AllDigits(db)
    ensures Split(da + ":" + db, ':') == [da, db]
  {
    assert da + ":" + db == da + [':'] + db;
    assert ':' !in da by {
      assert forall i :: 0 <= i < |da| ==> IsDigit(da[i]);
    }
    assert ':' !in db by {
      assert forall i :: 0 <= i < |db| ==> IsDigit(db[i]);
    }
    SplitAt(da, ':', db);
    SplitNone(db, ':');
  }

  /** Two digit strings joined by a colon read as 60 times the first plus
      the second. */
  lemma ColonValueOfDigits(da: string, db: string)
    requires AllDigits(da) && AllDigits(db)
    ensures ColonValue(da + ":" + db) == Num(DigitsValue(da) * 60 + DigitsValue(db))
  {
    ColonSplit(da, db);
  }

  /** A natural number printed and padded to two places. */
  lemma PaddedDecimal(n: nat)
    ensures AllDigits(PadStart2(NatToDecimal(n))) && DigitsValue(PadStart2(NatToDecimal(n))) == n
  {
    PadStart2Value(NatToDecimal(n));
    DecimalRoundTrip(n);
  }

  /** Reading a printed "AA:BB" back gives 60 * a + b. */
  lemma ColonRoundTrip(a: nat, b: nat)
    ensures ColonValue(ColonText(a, b)) == Num(a * 60 + b)
  {
    var da, db := PadStart2(NatToDecimal(a)), PadStart2(NatToDecimal(b));
    PaddedDecimal(a);
    PaddedDecimal(b);
    assert ColonText(a, b) == da + ":" + db;
    ColonValueOfDigits(da, db);
  }

  /** `s.endsWith(c)` for a one-character suffix. */
  predicate EndsWith(s: string, c: char) {
    |s| > 0 && s[|s| - 1] == c
  }

  /** `s.replace(c, '')`: the first occurrence of `c`, if any, is removed. */
  function ReplaceFirst(s: string, c: char): (r: string)
    ensures c !in s ==> r == s
    ensures c in s ==> |r| == |s| - 1
  {
    if s == [] then []
    else if s[0] == c then s[1..]
    else [s[0]] + ReplaceFirst(s[1..], c)
  }

  lemma {:induction false} ReplaceFirstAt(a: string, c: char, b: string)
    requires c !in a
    ensures ReplaceFirst(a + [c] + b, c) == a + b
  {
    if a != [] {
      assert (a + [c] + b)[1..] == a[1..] + [c] + b;
      ReplaceFirstAt(a[1..], c, b);
    }
  }

  /** `s.split(c)`: the pieces between occurrences of `c`; always at least
      one piece, and no piece contains `c`. */
  function Split(s: string, c: char): (parts: seq<string>)
    ensures |parts| >= 1
    ensures forall i :: 0 <= i < |parts| ==> c !in parts[i]
  {
    if s == [] then [""]
    else
      var rest := Split(s[1..], c);
      if s[0] == c then [""] + rest else [[s[0]] + rest[0]] + rest[1..]
  }

  lemma {:induction false} SplitNone(s: string, c: char)
    requires c !in s
    ensures Split(s, c) == [s]
  {
    if s != [] {
      assert s == [s[0]] + s[1..];
      SplitNone(s[1..], c);
    }
  }

  lemma {:induction false} SplitAt(a: string, c: char, b: string)
    requires c !in a
    ensures Split(a + [c] + b, c) == [a] + Split(b, c)
  {
    if a == [] {
      assert a + [c] + b == [c] + b;
    } else {
      assert (a + [c] + b)[1..] == a[1..] + [c] + b;
      SplitAt(a[1..], c, b);
      assert [a[0]] + a[1..] == a;
    }
  }

  // ----------------------------------------------------------- whitespace

  /** The characters `String.prototype.trim` removes: ECMAScript white
      space and line terminators. */
  predicate IsWhitespace(c: char) {
    c == ' ' || c == '\t' || c == '\n' || c == '\r' || c == '\U{000B}' || c == '\U{000C}'
    || c == '\U{00A0}' || c == '\U{1680}' || ('\U{2000}' <= c <= '\U{200A}')
    || c == '\U{2028}' || c == '\U{2029}' || c == '\U{202F}' || c == '\U{205F}'
    || c == '\U{3000}' || c == '\U{FEFF}'
  }

  predicate AllWhitespace(s: string) {
    forall i :: 0 <= i < |s| ==> IsWhitespace(s[i])
  }

  /** The string without its leading white space. */
  function TrimStart(s: string): string {
    if s != [] && IsWhitespace(s[0]) then TrimStart(s[1..]) else s
  }

  /** The string without its trailing white space. */
  function TrimEnd(s: string): string {
    if s != [] && IsWhitespace(s[|s| - 1]) then TrimEnd(s[..|s| - 1]) else s
  }

  /** What `TrimStart` removes is white space at the front, and what it
      keeps does not start with white space. */
  lemma {:induction false} TrimStartShape(s: string)
    ensures var r := TrimStart(s);
      (r == [] || !IsWhitespace(r[0])) && |r| <= |s| && r == s[|s| - |r|..] &&
      AllWhitespace(s[..|s| - |r|])
  {
    if s != [] && IsWhitespace(s[0]) {
      TrimStartShape(s[1..]);
      var r := TrimStart(s);
      assert s[1..][|s| - 1 - |r|..] == s[|s| - |r|..];
      assert s[..|s| - |r|] == [s[0]] + s[1..][..|s| - 1 - |r|];
    }
  }

  /** What `TrimEnd` removes is white space at the back, and what it keeps
      is a prefix that does not end with white space. */
  lemma {:induction false} TrimEndShape(s: string)
    ensures var r := TrimEnd(s);
      (r == [] || !IsWhitespace(r[|r| - 1])) && r <= s && AllWhitespace(s[|r|..])
  {
    if s != [] && IsWhitespace(s[|s| - 1]) {
      var p := s[..|s| - 1];
      TrimEndShape(p);
      var r := TrimEnd(s);
      assert s[|r|..] == p[|r|..] + [s[|s| - 1]];
    }
  }

  /** `s.trim()`. */
  function Trim(s: string): string {
    TrimEnd(TrimStart(s))
  }

  /** A trimmed string neither starts nor ends with white space. */
  lemma TrimShape(s: string)
    ensures var r := Trim(s); r == [] || (!IsWhitespace(r[0]) && !IsWhitespace(r[|r| - 1]))
  {
    var a := TrimStart(s);
    TrimStartShape(s);
    TrimEndShape(a);
    var r := Trim(s);
    if r != [] {
      assert r[0] == a[0];
    }
  }

  /** A string trims to empty exactly when it is all white space. */
  lemma TrimEmptyIff(s: string)
    ensures Trim(s) == [] <==> AllWhitespace(s)
  {
    var a := TrimStart(s);
    TrimStartShape(s);
    TrimEndShape(a);
    if Trim(s) == [] {
      assert AllWhitespace(a[0..]);
      assert a[0..] == a;
      assert s[..|s|] == s;
    }
    assert a != [] ==> a[0] == s[|s| - |a|];
  }
}
