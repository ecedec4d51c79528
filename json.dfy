/** JSON values as the service reads them out of decoded response bodies, and
    the Python conversions app.py applies to them: `int(...)`, `== 0`,
    `* 0.9`, truthiness and `str(...)` of an integer. */
module Json {

  datatype Option<+T> = None | Some(value: T) {
    function GetOr(default: T): T {
      match this
      case Some(v) => v
      case None => default
    }
  }

  /** The outcome of a Python call: the value it returns, or an exception
      that propagates out of it (one its own `except` clauses do not catch). */
  datatype Outcome<+T> = Returned(value: T) | Raised

  /** A scalar JSON value as Python's json module decodes it. Numbers are
      held exactly (integers and floats alike); arrays and objects are not
      looked into, because every conversion used here treats them alike. */
  datatype Value = Null | Bool(b: bool) | Number(n: real) | Str(s: string) | Composite

  /** Python truthiness of a string that may be None. */
  predicate Truthy(s: Option<string>)
    // None and the empty string are the falsy ones
    ensures !Truthy(s) <==> s == None || s == Some("")
  {
    s.Some? && s.value != ""
  }

  /** Python's `v == 0`: true of the numbers equal to zero and of `False`. */
  predicate EqualsZero(v: Value)
    ensures EqualsZero(v) <==> v == Number(0.0) || v == Bool(false)
  {
    match v
    case Number(n) => n == 0.0
    case Bool(b) => !b
    case _ => false
  }

  /** Python's `v * 0.9`; None where Python raises TypeError
      (None, strings, lists and dicts times a float). */
  function TimesNineTenths(v: Value): (r: Option<real>)
    ensures r.Some? <==> v.Number? || v.Bool?
    ensures v.Number? ==> r == Some(v.n * 9.0 / 10.0)
    ensures v.Bool? ==> r == Some(if v.b then 9.0 / 10.0 else 0.0)
  {
    match v
    case Number(n) => Some(0.9 * n)
    case Bool(b) => Some(if b then 0.9 else 0.0)
    case _ => None
  }

  /** `int(x)` of a float: truncation toward zero. */
  function Truncate(x: real): (r: int)
    ensures 0.0 <= x ==> 0 <= r && r as real <= x < r as real + 1.0
    ensures x < 0.0 ==> r <= 0 && r as real - 1.0 < x <= r as real
  {
    if x >= 0.0 then x.Floor else -((-x).Floor)
  }

  // ---- int() of a string -------------------------------------------------

  /** The ASCII characters Python's int() skips around a numeral: space,
      tab, line feed, carriage return, vertical tab and form feed. */
  predicate IsSpace(c: char)
    ensures IsSpace(c) <==> c in " \t\n\r\U{000B}\U{000C}"
  {
    c == ' ' || c == '\t' || c == '\n' || c == '\r' || c == '\U{000B}' || c == '\U{000C}'
  }

  predicate IsDigit(c: char) {
    '0' <= c <= '9'
  }

  predicate AllDigits(d: string) {
    forall i :: 0 <= i < |d| ==> IsDigit(d[i])
  }

  predicate AllSpace(s: string) {
    forall i :: 0 <= i < |s| ==> IsSpace(s[i])
  }

  function TrimStart(s: string): (r: string)
    ensures |r| <= |s| && (r == [] || !IsSpace(r[0]))
  {
    if |s| > 0 && IsSpace(s[0]) then TrimStart(s[1..]) else s
  }

  function TrimEnd(s: string): (r: string)
    ensures |r| <= |s| && (r == [] || !IsSpace(r[|r| - 1]))
  {
    if |s| > 0 && IsSpace(s[|s| - 1]) then TrimEnd(s[..|s| - 1]) else s
  }

  /** The value of a decimal numeral, most significant digit first. */
  function DigitsValue(d: string): nat
    requires AllDigits(d)
  {
    if d == [] then 0 else DigitsValue(d[..|d| - 1]) * 10 + (d[|d| - 1] as int - '0' as int)
  }

  /** Python's `int(s)` for a string: surrounding white space, an optional
      sign and one or more decimal digits; None where int() raises ValueError. */
  function ParseInt(s: string): Option<int>
  {
    ParseSigned(TrimEnd(TrimStart(s)))
  }

  /** int() of a string with the white space already stripped. */
  function ParseSigned(t: string): Option<int>
  {
    var signed := |t| > 0 && (t[0] == '-' || t[0] == '+');
    var digits := if signed then t[1..] else t;
    if |digits| > 0 && AllDigits(digits) then
      var n: int := DigitsValue(digits);
      Some(if signed && t[0] == '-' then -n else n)
    else
      None
  }

  /** A numeral as int() accepts it: s splits into white space, an optional
      sign, one or more ASCII digits and white space. */
  predicate IsNumeral(s: string, lead: string, sign: string, digits: string, trail: string) {
    && s == lead + sign + digits + trail
    && AllSpace(lead) && AllSpace(trail)
    && (sign == "" || sign == "+" || sign == "-")
    && |digits| > 0 && AllDigits(digits)
  }

  /** The integer a sign and a run of digits denote. */
  function SignedValue(sign: string, digits: string): int
    requires AllDigits(digits)
  {
    if sign == "-" then -(DigitsValue(digits) as int) else DigitsValue(digits)
  }

  lemma {:induction false} TrimLeadingSpace(lead: string, rest: string)
    requires AllSpace(lead) && (rest == [] || !IsSpace(rest[0]))
    ensures TrimStart(lead + rest) == rest
    decreases |lead|
  {
    if lead != [] {
      assert (lead + rest)[1..] == lead[1..] + rest;
      TrimLeadingSpace(lead[1..], rest);
    }
  }

  lemma {:induction false} TrimTrailingSpace(rest: string, trail: string)
    requires AllSpace(trail) && (rest == [] || !IsSpace(rest[|rest| - 1]))
    ensures TrimEnd(rest + trail) == rest
    decreases |trail|
  {
    if trail != [] {
      assert (rest + trail)[..|rest + trail| - 1] == rest + trail[..|trail| - 1];
      TrimTrailingSpace(rest, trail[..|trail| - 1]);
    } else {
      assert rest + trail == rest;
    }
  }

  /** TrimStart removes exactly the leading white space: s is white space
      followed by TrimStart(s). */
  lemma {:induction false} SplitLeadingSpace(s: string) returns (lead: string)
    ensures s == lead + TrimStart(s) && AllSpace(lead)
    decreases |s|
  {
    if |s| > 0 && IsSpace(s[0]) {
      var rest := SplitLeadingSpace(s[1..]);
      lead := [s[0]] + rest;
      assert s == [s[0]] + s[1..];
    } else {
      lead := [];
    }
  }

  /** TrimEnd removes exactly the trailing white space: s is TrimEnd(s)
      followed by white space. */
  lemma {:induction false} SplitTrailingSpace(s: string) returns (trail: string)
    ensures s == TrimEnd(s) + trail && AllSpace(trail)
    decreases |s|
  {
    if |s| > 0 && IsSpace(s[|s| - 1]) {
      var rest := SplitTrailingSpace(s[..|s| - 1]);
      trail := rest + [s[|s| - 1]];
      assert s == s[..|s| - 1] + [s[|s| - 1]];
    } else {
      trail := [];
    }
  }

  /** What ParseSigned accepts is an optional sign and one or more digits. */
  lemma SignedIsNumeral(t: string, n: int) returns (sign: string, digits: string)
    requires ParseSigned(t) == Some(n)
    ensures t == sign + digits && (sign == "" || sign == "+" || sign == "-")
    ensures |digits| > 0 && AllDigits(digits) && SignedValue(sign, digits) == n
  {
    if |t| > 0 && (t[0] == '-' || t[0] == '+') {
      sign, digits := t[..1], t[1..];
    } else {
      sign, digits := "", t;
    }
  }

  /** ParseSigned reads an optional sign and one or more digits as their value. */
  lemma SignedParses(sign: string, digits: string)
    requires sign == "" || sign == "+" || sign == "-"
    requires |digits| > 0 && AllDigits(digits)
    ensures ParseSigned(sign + digits) == Some(SignedValue(sign, digits))
  {
    var t := sign + digits;
    if sign == "" {
      assert t == digits;
      assert IsDigit(t[0]);
    } else {
      assert t[0] == sign[0] && t[1..] == digits;
    }
  }

  /** Every string ParseInt accepts is a numeral of IsNumeral with that value. */
  lemma {:induction false} ParseIntIsNumeral(s: string, n: int)
    requires ParseInt(s) == Some(n)
    ensures exists lead, sign, digits, trail :: IsNumeral(s, lead, sign, digits, trail) && SignedValue(sign, digits) == n
  {
    var t0 := TrimStart(s);
    var t := TrimEnd(t0);
    var lead := SplitLeadingSpace(s);
    var trail := SplitTrailingSpace(t0);
    var sign, digits := SignedIsNumeral(t, n);
    NumeralOfParts(s, lead, sign, digits, trail);
  }

  lemma NumeralOfParts(s: string, lead: string, sign: string, digits: string, trail: string)
    requires s == lead + ((sign + digits) + trail)
    requires AllSpace(lead) && AllSpace(trail)
    requires (sign == "" || sign == "+" || sign == "-") && |digits| > 0 && AllDigits(digits)
    ensures IsNumeral(s, lead, sign, digits, trail)
  {
    assert lead + ((sign + digits) + trail) == lead + sign + digits + trail;
  }

  /** Every numeral of IsNumeral is accepted by ParseInt with its value. */
  lemma {:induction false} NumeralParses(s: string, lead: string, sign: string, digits: string, trail: string)
    requires IsNumeral(s, lead, sign, digits, trail)
    ensures ParseInt(s) == Some(SignedValue(sign, digits))
  {
    var core := sign + digits;
    assert s == lead + (core + trail);
    assert core[|core| - 1] == digits[|digits| - 1];
    assert (core + trail)[0] == core[0];
    TrimLeadingSpace(lead, core + trail);
    TrimTrailingSpace(core, trail);
    SignedParses(sign, digits);
  }

  /** ParseInt accepts exactly the numerals of IsNumeral and reads each as
      its signed digit value. */
  lemma ParseIntGrammar(s: string, n: int)
    ensures ParseInt(s) == Some(n) <==>
              exists lead, sign, digits, trail :: IsNumeral(s, lead, sign, digits, trail) && SignedValue(sign, digits) == n
  {
    if ParseInt(s) == Some(n) {
      ParseIntIsNumeral(s, n);
    }
    if exists lead, sign, digits, trail :: IsNumeral(s, lead, sign, digits, trail) && SignedValue(sign, digits) == n {
      var lead, sign, digits, trail :| IsNumeral(s, lead, sign, digits, trail) && SignedValue(sign, digits) == n;
      NumeralParses(s, lead, sign, digits, trail);
    }
  }

  /** Stripping leading white space keeps a last character that is not
      white space. */
  lemma {:induction false} TrimStartKeepsLast(u: string)
    requires |u| > 0 && !IsSpace(u[|u| - 1])
    ensures |TrimStart(u)| > 0 && TrimStart(u)[|TrimStart(u)| - 1] == u[|u| - 1]
    decreases |u|
  {
    if IsSpace(u[0]) {
      assert |u| > 1;
      TrimStartKeepsLast(u[1..]);
    }
  }

  /** Stripping trailing white space keeps a first character that is not
      white space. */
  lemma {:induction false} TrimEndKeepsFirst(u: string)
    requires |u| > 0 && !IsSpace(u[0])
    ensures |TrimEnd(u)| > 0 && TrimEnd(u)[0] == u[0]
    decreases |u|
  {
    if IsSpace(u[|u| - 1]) {
      assert |u| > 1;
      TrimEndKeepsFirst(u[..|u| - 1]);
    }
  }

  /** The information separators U+001C to U+001F are not white space
      to int(): a string that starts or ends with one is rejected. */
  lemma {:induction false} SeparatorsAreNotSpace(c: char, s: string)
    requires '\U{001C}' <= c <= '\U{001F}'
    ensures ParseInt([c] + s) == None && ParseInt(s + [c]) == None
  {
    var v := [c] + s;
    assert TrimStart(v) == v;
    TrimEndKeepsFirst(v);
    assert !IsDigit(TrimEnd(v)[0]) && TrimEnd(v)[0] != '-' && TrimEnd(v)[0] != '+';
    var u := s + [c];
    TrimStartKeepsLast(u);
    var t0 := TrimStart(u);
    assert TrimEnd(t0) == t0;
    assert !IsDigit(t0[|t0| - 1]);
  }

  // ---- str() of an integer -----------------------------------------------

  function Digit(n: nat): (c: char)
    requires n < 10
    ensures IsDigit(c) && c as int - '0' as int == n
  {
    "0123456789"[n]
  }

  /** Python's `str(n)` for a natural number: its shortest decimal numeral. */
  function ShowNat(n: nat): (r: string)
    ensures |r| > 0 && AllDigits(r)
    ensures DigitsValue(r) == n
    ensures r[0] == '0' ==> n == 0
  {
    if n < 10 then [Digit(n)]
    else
      var prefix := ShowNat(n / 10);
      var r := prefix + [Digit(n % 10)];
      assert r[..|r| - 1] == prefix;
      r
  }

  /** Python's `str(i)` for an integer. */
  function ShowInt(i: int): (r: string)
    ensures |r| > 0 && !IsSpace(r[0]) && IsDigit(r[|r| - 1])
    ensures (r[0] == '-') <==> i < 0
    ensures var d := if i < 0 then r[1..] else r;
            |d| > 0 && AllDigits(d) && DigitsValue(d) == (if i < 0 then -i else i) && (d[0] == '0' ==> i == 0)
  {
    if i < 0 then "-" + ShowNat(-i) else ShowNat(i)
  }

  /** `int(str(i)) == i`: the numeral the service prints reads back as the
      same integer. */
  lemma ParseShowInt(i: int)
    ensures ParseInt(ShowInt(i)) == Some(i)
  {
    var sign := if i < 0 then "-" else "";
    var digits := ShowNat(if i < 0 then -i else i);
    assert ShowInt(i) == "" + ((sign + digits) + "");
    NumeralOfParts(ShowInt(i), "", sign, digits, "");
    NumeralParses(ShowInt(i), "", sign, digits, "");
  }

  /** int() of a float rounds toward zero, so the floats that read as a
      positive k are exactly those of [k, k + 1). */
  lemma TruncatePositive(x: real, k: nat)
    requires k > 0
    ensures Truncate(x) == k <==> k as real <= x < k as real + 1.0
  {
  }
}
