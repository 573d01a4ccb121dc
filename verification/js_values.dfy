/**
 * The small slice of JavaScript value semantics that the task API relies on:
 * truthiness and `||` defaults, `parseInt`, number-to-string conversion in
 * template literals, `String.prototype.trim`, `split(',')` and `join(',')`.
 */
module JsValues {

  datatype Option<+T> = None | Some(value: T)

  /** A JavaScript number as this code can produce one: an integer or NaN. */
  datatype JsNumber = Finite(n: int) | NaN

  /** The JavaScript values that flow through the task model (objects left out). */
  datatype JsValue =
    | Undefined
    | Null
    | Bool(b: bool)
    | Num(num: JsNumber)
    | Str(s: string)
    | Arr(items: seq<JsValue>)

  /** A call that either returns a value or throws a TypeError. */
  datatype Outcome<+T> = Returned(value: T) | Threw(error: string)

  const TypeError: string := "TypeError"

  // ----- truthiness -----

  predicate Truthy(v: JsValue) {
    match v
    case Undefined => false
    case Null => false
    case Bool(b) => b
    case Num(x) => x.Finite? && x.n != 0
    case Str(s) => s != ""
    case Arr(_) => true
  }

  /** `a || b`: the first operand when it is truthy, the second otherwise. */
  function Or(a: JsValue, b: JsValue): (r: JsValue)
    ensures Truthy(r) <==> Truthy(a) || Truthy(b)
    ensures Truthy(a) ==> r == a
    ensures !Truthy(a) ==> r == b
  {
    if Truthy(a) then a else b
  }

  /** Truthiness of a query-string parameter: present and non-empty. */
  predicate TruthyText(o: Option<string>) {
    o.Some? && o.value != ""
  }

  // ----- arithmetic with NaN propagation -----

  function Sub(a: JsNumber, b: JsNumber): (r: JsNumber)
    ensures r.Finite? <==> a.Finite? && b.Finite?
    ensures r.Finite? ==> r.n + b.n == a.n
  {
    if a.Finite? && b.Finite? then Finite(a.n - b.n) else NaN
  }

  function Mul(a: JsNumber, b: JsNumber): (r: JsNumber)
    ensures r.Finite? <==> a.Finite? && b.Finite?
    ensures r.Finite? && a.n >= 0 && b.n >= 0 ==> r.n >= 0
  {
    if a.Finite? && b.Finite? then Finite(a.n * b.n) else NaN
  }

  // ----- number to string (template literals) -----

  predicate IsDecimalDigit(c: char) {
    '0' <= c <= '9'
  }

  function DigitChar(d: nat): (c: char)
    requires d < 10
    ensures IsDecimalDigit(c) && DigitValue(c) == d
  {
    "0123456789"[d]
  }

  function NatToString(n: nat): (s: string)
    ensures |s| >= 1
    ensures forall i :: 0 <= i < |s| ==> IsDecimalDigit(s[i])
    ensures n < 10 <==> |s| == 1
    decreases n
  {
    if n < 10 then [DigitChar(n)] else NatToString(n / 10) + [DigitChar(n % 10)]
  }

  function IntToString(i: int): string {
    if i < 0 then "-" + NatToString(-i) else NatToString(i)
  }

  /** `${x}` for the numbers this code produces. */
  function NumberToString(x: JsNumber): string {
    match x
    case NaN => "NaN"
    case Finite(n) => IntToString(n)
  }

  // ----- whitespace and trim -----

  /** The WhiteSpace and LineTerminator code points that `trim` and `parseInt` skip. */
  predicate IsJsSpace(c: char) {
    var u := c as int;
    (9 <= u <= 13) || u == 0x20 || u == 0xA0 || u == 0x1680 ||
    (0x2000 <= u <= 0x200A) || u == 0x2028 || u == 0x2029 || u == 0x202F ||
    u == 0x205F || u == 0x3000 || u == 0xFEFF
  }

  predicate AllJsSpace(s: string) {
    forall i :: 0 <= i < |s| ==> IsJsSpace(s[i])
  }

  /** Drops the leading white space. */
  function TrimStart(s: string): (r: string)
    ensures |r| <= |s| && r == s[|s| - |r|..]
    ensures AllJsSpace(s[..|s| - |r|])
    ensures r == "" || !IsJsSpace(r[0])
  {
    if |s| > 0 && IsJsSpace(s[0]) then
      var r := TrimStart(s[1..]);
      assert s[..|s| - |r|] == [s[0]] + s[1..][..|s| - 1 - |r|];
      r
    else s
  }

  /** Drops the trailing white space. */
  function TrimEnd(s: string): (r: string)
    ensures |r| <= |s| && r == s[..|r|]
    ensures AllJsSpace(s[|r|..])
    ensures r == "" || !IsJsSpace(r[|r| - 1])
  {
    if |s| > 0 && IsJsSpace(s[|s| - 1]) then
      var r := TrimEnd(s[..|s| - 1]);
      assert s[|r|..] == s[..|s| - 1][|r|..] + [s[|s| - 1]];
      r
    else s
  }

  /** `s.trim()`: the text between the leading and the trailing white space. */
  function Trim(s: string): (r: string)
    ensures r == "" <==> AllJsSpace(s)
    ensures r != "" ==> !IsJsSpace(r[0]) && !IsJsSpace(r[|r| - 1])
    ensures |r| <= |s|
    ensures exists i, j :: 0 <= i <= j <= |s| && r == s[i..j] && AllJsSpace(s[..i]) && AllJsSpace(s[j..])
  {
    TrimFacts(s);
    TrimWindow(s);
    TrimEnd(TrimStart(s))
  }

  /** Trimming both ends keeps the window of `s` between two runs of white space. */
  lemma TrimWindow(s: string)
    ensures var r := TrimEnd(TrimStart(s));
      exists i, j :: 0 <= i <= j <= |s| && r == s[i..j] && AllJsSpace(s[..i]) && AllJsSpace(s[j..])
  {
    var t := TrimStart(s);
    assert |t| <= |s| && t == s[|s| - |t|..] && AllJsSpace(s[..|s| - |t|]);
    var r := TrimEnd(t);
    assert |r| <= |t| && r == t[..|r|] && AllJsSpace(t[|r|..]);
    WindowBetweenSpaces(s, t, r);
  }

  /** A prefix `r` of a suffix `t` of `s`, each cut off at white space, is a window of `s`. */
  lemma WindowBetweenSpaces(s: string, t: string, r: string)
    requires |t| <= |s| && t == s[|s| - |t|..] && AllJsSpace(s[..|s| - |t|])
    requires |r| <= |t| && r == t[..|r|] && AllJsSpace(t[|r|..])
    ensures exists i, j :: 0 <= i <= j <= |s| && r == s[i..j] && AllJsSpace(s[..i]) && AllJsSpace(s[j..])
  {
    var i := |s| - |t|;
    var j := i + |r|;
    assert s[j..] == t[|r|..];
    assert r == s[i..j];
  }

  lemma TrimFacts(s: string)
    ensures var r := TrimEnd(TrimStart(s)); r == "" <==> AllJsSpace(s)
  {
    var t := TrimStart(s);
    TrimStartAllSpace(s);
    TrimEndAllSpace(t);
    assert t != "" ==> !IsJsSpace(t[0]);
  }

  lemma TrimStartAllSpace(s: string)
    ensures TrimStart(s) == "" <==> AllJsSpace(s)
  {
    var t := TrimStart(s);
    if t == "" {
      assert s[..|s|] == s;
    } else {
      assert t[0] == s[|s| - |t|];
    }
  }

  lemma TrimEndAllSpace(t: string)
    ensures TrimEnd(t) == "" <==> AllJsSpace(t)
  {
    var r := TrimEnd(t);
    if r == "" {
      assert t[0..] == t;
    } else {
      assert r[|r| - 1] == t[|r| - 1];
    }
  }

  // ----- parseInt -----

  /** The value of a digit in radix up to 36; 36 for a character that is no digit. */
  function DigitValue(c: char): (d: nat)
    ensures d <= 36
    ensures d < 10 <==> IsDecimalDigit(c)
  {
    if '0' <= c <= '9' then c as int - '0' as int
    else if 'a' <= c <= 'z' then c as int - 'a' as int + 10
    else if 'A' <= c <= 'Z' then c as int - 'A' as int + 10
    else 36
  }

  /** The longest prefix of `s` made of digits valid in `radix`. */
  function DigitPrefix(s: string, radix: nat): (ds: string)
    ensures |ds| <= |s| && ds == s[..|ds|]
    ensures forall i :: 0 <= i < |ds| ==> DigitValue(ds[i]) < radix
    ensures |ds| < |s| ==> DigitValue(s[|ds|]) >= radix
  {
    if |s| == 0 || DigitValue(s[0]) >= radix then "" else [s[0]] + DigitPrefix(s[1..], radix)
  }

  /** The value of a digit string read most significant digit first. */
  function DigitsValue(ds: string, radix: nat): nat {
    if |ds| == 0 then 0
    else DigitsValue(ds[..|ds| - 1], radix) * radix + DigitValue(ds[|ds| - 1])
  }

  /**
   * The digits after the sign: a `0x`/`0X` prefix selects radix 16, and the
   * longest run of digits valid in the radix is converted; none gives None.
   */
  function ParseMagnitude(u: string): Option<nat> {
    var hex := |u| >= 2 && u[0] == '0' && (u[1] == 'x' || u[1] == 'X');
    var radix := if hex then 16 else 10;
    var digits := DigitPrefix(if hex then u[2..] else u, radix);
    if digits == "" then None else Some(DigitsValue(digits, radix))
  }

  /**
   * `parseInt(s)` with no radix: leading white space is skipped, one sign is
   * read and the magnitude follows; no digit at all gives NaN.
   */
  function ParseInt(s: string): JsNumber {
    var t := TrimStart(s);
    var negative := |t| > 0 && t[0] == '-';
    var u := if |t| > 0 && (t[0] == '-' || t[0] == '+') then t[1..] else t;
    match ParseMagnitude(u)
    case None => NaN
    case Some(m) => Finite(if negative then -(m as int) else m)
  }

  lemma {:induction false} NatToStringValue(n: nat)
    ensures DigitsValue(NatToString(n), 10) == n
    decreases n
  {
    var s := NatToString(n);
    if n >= 10 {
      NatToStringValue(n / 10);
      assert s[..|s| - 1] == NatToString(n / 10);
    }
  }

  lemma DigitPrefixOfDigits(s: string)
    requires forall i :: 0 <= i < |s| ==> IsDecimalDigit(s[i])
    ensures DigitPrefix(s, 10) == s
  {
    var ds := DigitPrefix(s, 10);
    assert |ds| < |s| ==> DigitValue(s[|ds|]) < 10;
  }

  /** Reading back the decimal text of an integer gives the integer. */
  lemma ParseIntRoundTrip(i: int)
    ensures ParseInt(IntToString(i)) == Finite(i)
  {
    var m: nat := if i < 0 then -i else i;
    var digits := NatToString(m);
    NatToStringValue(m);
    MagnitudeOfDigits(digits);
    if i < 0 {
      ParseMinus(digits);
    } else {
      assert IsDecimalDigit(digits[0]);
      ParseUnsigned(digits);
    }
  }

  lemma MagnitudeOfDigits(digits: string)
    requires |digits| >= 1 && forall i :: 0 <= i < |digits| ==> IsDecimalDigit(digits[i])
    ensures ParseMagnitude(digits) == Some(DigitsValue(digits, 10))
  {
    DigitPrefixOfDigits(digits);
    assert |digits| >= 2 ==> IsDecimalDigit(digits[1]);
    var hex := |digits| >= 2 && digits[0] == '0' && (digits[1] == 'x' || digits[1] == 'X');
    assert !hex;
  }

  /** Text that starts with neither white space nor a sign is read as a magnitude. */
  lemma ParseUnsigned(s: string)
    requires |s| > 0 && !IsJsSpace(s[0]) && s[0] != '-' && s[0] != '+'
    ensures ParseMagnitude(s).None? ==> ParseInt(s) == NaN
    ensures ParseMagnitude(s).Some? ==> ParseInt(s) == Finite(ParseMagnitude(s).value)
  {
    assert TrimStart(s) == s;
  }

  /** Text that starts with '-' is read as a negated magnitude. */
  lemma ParseMinus(u: string)
    ensures ParseMagnitude(u).None? ==> ParseInt("-" + u) == NaN
    ensures ParseMagnitude(u).Some? ==> ParseInt("-" + u) == Finite(-(ParseMagnitude(u).value as int))
  {
    var neg := "-" + u;
    assert neg[0] == '-' && !IsJsSpace('-');
    assert TrimStart(neg) == neg;
    assert neg[1..] == u;
  }

  /** Text that starts with a character that cannot begin a number parses to NaN. */
  lemma ParseIntNonNumeric(s: string)
    requires |s| > 0 && !IsJsSpace(s[0]) && s[0] != '+' && s[0] != '-' && !IsDecimalDigit(s[0])
    ensures ParseInt(s) == NaN
  {
  }

  lemma {:induction false} NatToStringInjective(a: nat, b: nat)
    requires NatToString(a) == NatToString(b)
    ensures a == b
    decreases a
  {
    var s := NatToString(a);
    if a >= 10 {
      assert b >= 10;
      assert NatToString(a / 10) == s[..|s| - 1] == NatToString(b / 10);
      NatToStringInjective(a / 10, b / 10);
      assert DigitChar(a % 10) == s[|s| - 1] == DigitChar(b % 10);
      assert DigitValue(DigitChar(a % 10)) == DigitValue(DigitChar(b % 10));
    } else {
      assert DigitValue(s[0]) == a && DigitValue(s[0]) == b;
    }
  }

  lemma NumberToStringFirstChar(x: JsNumber)
    ensures |NumberToString(x)| >= 1
    ensures NumberToString(x)[0] == 'N' <==> x.NaN?
    ensures NumberToString(x)[0] == '-' <==> x.Finite? && x.n < 0
  {
    if x.Finite? && x.n >= 0 {
      assert IsDecimalDigit(NatToString(x.n)[0]);
    }
  }

  /** Distinct numbers are written as distinct texts. */
  lemma NumberToStringInjective(x: JsNumber, y: JsNumber)
    requires NumberToString(x) == NumberToString(y)
    ensures x == y
  {
    var s := NumberToString(x);
    NumberToStringFirstChar(x);
    NumberToStringFirstChar(y);
    if s[0] == '-' {
      assert NatToString(-x.n) == s[1..] == NatToString(-y.n);
      NatToStringInjective(-x.n, -y.n);
    } else if s[0] != 'N' {
      NatToStringInjective(x.n, y.n);
    }
  }

  /** The text of a number never contains ':'. */
  lemma NumberToStringNoColon(x: JsNumber)
    ensures ':' !in NumberToString(x)
  {
    var s := NumberToString(x);
    forall i | 0 <= i < |s| ensures s[i] != ':' {
      if x.Finite? && x.n < 0 && i > 0 {
        assert s[i] == NatToString(-x.n)[i - 1];
      }
    }
  }

  // ----- split and join -----

  predicate NoCommas(parts: seq<string>) {
    forall i :: 0 <= i < |parts| ==> ',' !in parts[i]
  }

  /** `s.split(',')`: the pieces between the commas; always at least one piece. */
  function Split(s: string): (parts: seq<string>)
    ensures |parts| >= 1
    ensures NoCommas(parts)
    ensures parts == [""] <==> s == ""
  {
    if |s| == 0 then [""]
    else
      var rest := Split(s[1..]);
      if s[0] == ',' then [""] + rest
      else [[s[0]] + rest[0]] + rest[1..]
  }

  /** `parts.join(',')` for an array of strings. */
  function Join(parts: seq<string>): string {
    if |parts| == 0 then ""
    else if |parts| == 1 then parts[0]
    else parts[0] + "," + Join(parts[1..])
  }

  /** Joining the pieces of a split gives back the text. */
  lemma {:induction false} JoinSplit(s: string)
    ensures Join(Split(s)) == s
  {
    if |s| > 0 {
      var rest := Split(s[1..]);
      JoinSplit(s[1..]);
      if s[0] == ',' {
        assert Split(s) == [""] + rest;
        assert Join(Split(s)) == "" + "," + Join(rest);
        assert s == [','] + s[1..];
      } else {
        var parts := Split(s);
        assert parts == [[s[0]] + rest[0]] + rest[1..];
        if |rest| == 1 {
          assert Join(rest) == rest[0];
          assert s == [s[0]] + s[1..];
        } else {
          assert parts[1..] == rest[1..];
          assert Join(rest) == rest[0] + "," + Join(rest[1..]);
          assert Join(parts) == ([s[0]] + rest[0]) + "," + Join(rest[1..]);
          assert s == [s[0]] + s[1..];
        }
      }
    }
  }

  lemma {:induction false} SplitWithoutComma(a: string)
    requires ',' !in a
    ensures Split(a) == [a]
  {
    if |a| > 0 {
      assert forall c :: c in a[1..] ==> c in a;
      SplitWithoutComma(a[1..]);
      assert [a[0]] + a[1..] == a;
    }
  }

  lemma {:induction false} SplitAtFirstComma(a: string, b: string)
    requires ',' !in a
    ensures Split(a + "," + b) == [a] + Split(b)
  {
    if |a| == 0 {
      assert a + "," + b == [','] + b;
      assert (a + "," + b)[1..] == b;
    } else {
      assert forall c :: c in a[1..] ==> c in a;
      SplitAtFirstComma(a[1..], b);
      assert (a + "," + b)[1..] == a[1..] + "," + b;
      assert [a[0]] + a[1..] == a;
    }
  }

  /** Splitting the join of comma-free pieces gives back the pieces. */
  lemma {:induction false} SplitJoin(parts: seq<string>)
    requires |parts| >= 1 && NoCommas(parts)
    ensures Split(Join(parts)) == parts
  {
    if |parts| == 1 {
      SplitWithoutComma(parts[0]);
    } else {
      SplitJoin(parts[1..]);
      SplitAtFirstComma(parts[0], Join(parts[1..]));
      assert [parts[0]] + parts[1..] == parts;
    }
  }
}
