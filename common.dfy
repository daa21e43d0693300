/** Values and string helpers shared by the model: an Option type, a JSON value
    type for the per-user `bot_data` dictionary, Python truthiness, and the
    subset of Python's `str`/`int` behaviour the bot relies on (ASCII only). */
module Common {

  datatype Option<T> = None | Some(value: T) {
    function GetOr(default: T): T {
      match this
      case Some(v) => v
      case None => default
    }
  }

  /** A JSON value as stored in the `bot_data` column. */
  datatype Json =
    | JNull
    | JBool(b: bool)
    | JInt(i: int)
    | JStr(s: string)
    | JList(items: seq<Json>)
    | JObj(fields: map<string, Json>)

  /** Python's truth value of a decoded JSON value. */
  predicate Truthy(j: Json) {
    match j
    case JNull => false
    case JBool(b) => b
    case JInt(i) => i != 0
    case JStr(s) => s != ""
    case JList(xs) => |xs| > 0
    case JObj(m) => |m| > 0
  }

  /** `d.get(k)`: the stored value, or None (JNull) when the key is absent. */
  function Get(d: map<string, Json>, k: string): Json {
    if k in d then d[k] else JNull
  }

  /** `d.get(k, default)`. */
  function GetDefault(d: map<string, Json>, k: string, default: Json): Json {
    if k in d then d[k] else default
  }

  // ---------------------------------------------------------------- digits

  predicate IsDigit(c: char) { '0' <= c <= '9' }

  /** `str.isdigit()` restricted to ASCII: non-empty and all digits. */
  predicate IsDigits(s: string) {
    |s| > 0 && forall i :: 0 <= i < |s| ==> IsDigit(s[i])
  }

  function DigitValue(c: char): nat
    requires IsDigit(c)
  {
    (c as int - '0' as int) as nat
  }

  function DigitChar(d: nat): (c: char)
    requires d < 10
    ensures IsDigit(c) && DigitValue(c) == d
  {
    ('0' as int + d) as char
  }

  /** The decimal value of a string of ASCII digits. */
  function DigitsValue(s: string): nat
    requires forall i :: 0 <= i < |s| ==> IsDigit(s[i])
  {
    if |s| == 0 then 0 else DigitsValue(s[..|s| - 1]) * 10 + DigitValue(s[|s| - 1])
  }

  /** `str(n)` for a non-negative integer. */
  function NatToString(n: nat): string
  {
    if n < 10 then [DigitChar(n)] else NatToString(n / 10) + [DigitChar(n % 10)]
  }

  /** `str(i)` for any integer. */
  function IntToString(i: int): string
  {
    if i < 0 then "-" + NatToString(-i) else NatToString(i)
  }

  lemma {:induction false} NatToStringDigits(n: nat)
    ensures IsDigits(NatToString(n))
    ensures DigitsValue(NatToString(n)) == n
  {
    if n >= 10 {
      NatToStringDigits(n / 10);
      var p := NatToString(n / 10);
      var s := p + [DigitChar(n % 10)];
      assert s[..|s| - 1] == p;
      assert forall i :: 0 <= i < |s| ==> IsDigit(s[i]) by {
        forall i | 0 <= i < |s| ensures IsDigit(s[i]) {
          if i < |p| { assert s[i] == p[i]; }
        }
      }
    }
  }

  /** `str(i)` is made of digits and at most a leading minus sign. */
  lemma IntToStringAlphabet(i: int)
    ensures forall k :: 0 <= k < |IntToString(i)| ==> IsDigit(IntToString(i)[k]) || IntToString(i)[k] == '-'
  {
    var s := IntToString(i);
    if i < 0 {
      NatToStringDigits(-i);
      assert s == "-" + NatToString(-i);
      forall k | 0 <= k < |s| ensures IsDigit(s[k]) || s[k] == '-' {
        if k > 0 { assert s[k] == NatToString(-i)[k - 1]; }
      }
    } else {
      NatToStringDigits(i);
    }
  }

  // ------------------------------------------------------------ whitespace

  /** The ASCII characters for which Python's `str.isspace()` holds. */
  predicate IsSpace(c: char) {
    c == ' ' || (9 <= c as int <= 13) || (28 <= c as int <= 31)
  }

  function StripLeft(s: string): (r: string)
    ensures |r| <= |s|
    ensures |r| > 0 ==> !IsSpace(r[0]) && r[|r| - 1] == s[|s| - 1]
  {
    if |s| > 0 && IsSpace(s[0]) then StripLeft(s[1..]) else s
  }

  function StripRight(s: string): (r: string)
    ensures |r| > 0 ==> !IsSpace(r[|r| - 1])
  {
    if |s| > 0 && IsSpace(s[|s| - 1]) then StripRight(s[..|s| - 1]) else s
  }

  /** `str.strip()`: whitespace removed from both ends. */
  function Strip(s: string): (r: string)
    ensures |r| > 0 ==> !IsSpace(r[0]) && !IsSpace(r[|r| - 1])
  {
    StripLeft(StripRight(s))
  }

  lemma StripUnchanged(s: string)
    requires |s| > 0 ==> !IsSpace(s[0]) && !IsSpace(s[|s| - 1])
    ensures Strip(s) == s
  {
  }

  /** `str.lower()` on ASCII letters. */
  function Lower(s: string): (r: string)
    ensures |r| == |s|
  {
    if |s| == 0 then ""
    else [if 'A' <= s[0] <= 'Z' then (s[0] as int + 32) as char else s[0]] + Lower(s[1..])
  }

  lemma {:induction false} LowerUnchanged(s: string)
    requires forall i :: 0 <= i < |s| ==> !('A' <= s[i] <= 'Z')
    ensures Lower(s) == s
  {
    if |s| > 0 {
      LowerUnchanged(s[1..]);
    }
  }

  function Pow10(k: nat): nat {
    if k == 0 then 1 else 10 * Pow10(k - 1)
  }

  lemma ShiftDigit(x: int, p: int, y: int, l: int)
    ensures (x * p + y) * 10 + l == x * (10 * p) + (y * 10 + l)
  {
  }

  /** Every character is a digit (the empty string included). */
  predicate AllDigits(s: string) {
    forall i :: 0 <= i < |s| ==> IsDigit(s[i])
  }

  lemma DigitsConcat(a: string, b: string)
    requires AllDigits(a) && AllDigits(b)
    ensures AllDigits(a + b)
  {
    forall i | 0 <= i < |a + b| ensures IsDigit((a + b)[i]) {
      if i < |a| { assert (a + b)[i] == a[i]; } else { assert (a + b)[i] == b[i - |a|]; }
    }
  }

  /** One unfolding of `DigitsValue` on a concatenation whose right part
      ends in the digit `l`. */
  lemma DigitsValueLast(a: string, c: string, l: char)
    requires AllDigits(a) && AllDigits(c) && IsDigit(l)
    ensures AllDigits(a + c) && AllDigits(a + (c + [l]))
    ensures DigitsValue(a + (c + [l])) == DigitsValue(a + c) * 10 + DigitValue(l)
  {
    DigitsConcat(a, c);
    DigitsConcat(c, [l]);
    DigitsConcat(a, c + [l]);
    var w := a + (c + [l]);
    assert w[..|w| - 1] == a + c;
    assert w[|w| - 1] == l;
  }

  lemma {:induction false} DigitsValueConcat(a: string, b: string)
    requires forall i :: 0 <= i < |a| ==> IsDigit(a[i])
    requires forall i :: 0 <= i < |b| ==> IsDigit(b[i])
    ensures forall i :: 0 <= i < |a + b| ==> IsDigit((a + b)[i])
    ensures DigitsValue(a + b) == DigitsValue(a) * Pow10(|b|) + DigitsValue(b)
    decreases |b|
  {
    DigitsConcat(a, b);
    if |b| == 0 {
      assert a + b == a;
    } else {
      var b', l := b[..|b| - 1], b[|b| - 1];
      assert b == b' + [l];
      assert AllDigits(b');
      DigitsValueLast(a, b', l);
      DigitsValueConcat(a, b');
      var x, y := DigitsValue(a), DigitsValue(b');
      var p := Pow10(|b'|);
      assert DigitsValue(a + b) == (x * p + y) * 10 + DigitValue(l);
      ShiftDigit(x, p, y, DigitValue(l));
    }
  }

  lemma HundredValue()
    ensures DigitsValue("100") == 100
  {
    assert "100"[..2] == "10";
    assert "10"[..1] == "1";
  }

  lemma PrefixedValue(s: string)
    requires IsDigits(s)
    ensures IsDigits("100" + s)
    ensures DigitsValue("100" + s) == 100 * Pow10(|s|) + DigitsValue(s)
  {
    DigitsValueConcat("100", s);
    HundredValue();
  }

  // ---------------------------------------------------------- int(str)

  /** The digit part Python's `int()` accepts in base 10: digits, with single
      underscores allowed between two digits. */
  predicate DecimalBody(s: string) {
    && |s| > 0
    && IsDigit(s[0])
    && IsDigit(s[|s| - 1])
    && (forall i :: 0 <= i < |s| ==> IsDigit(s[i]) || s[i] == '_')
    && NoDoubleUnderscore(s)
  }

  predicate NoDoubleUnderscore(s: string) {
    |s| < 2 || (!(s[0] == '_' && s[1] == '_') && NoDoubleUnderscore(s[1..]))
  }

  function RemoveUnderscores(s: string): (r: string)
    requires forall i :: 0 <= i < |s| ==> IsDigit(s[i]) || s[i] == '_'
    ensures forall i :: 0 <= i < |r| ==> IsDigit(r[i])
    ensures (forall i :: 0 <= i < |s| ==> IsDigit(s[i])) ==> r == s
  {
    if |s| == 0 then ""
    else if s[0] == '_' then RemoveUnderscores(s[1..])
    else [s[0]] + RemoveUnderscores(s[1..])
  }

  /** Python's `int(s)` on an ASCII string: surrounding whitespace is ignored,
      one optional sign, then a decimal body; anything else raises ValueError,
      modelled as None. */
  function PyInt(s: string): Option<int> {
    ParseSigned(Strip(s))
  }

  /** `int()` after the whitespace is stripped. */
  function ParseSigned(t: string): Option<int> {
    if |t| > 0 && (t[0] == '-' || t[0] == '+') then
      if !DecimalBody(t[1..]) then None
      else if t[0] == '-' then Some(-(DigitsValue(RemoveUnderscores(t[1..])) as int))
      else Some(DigitsValue(RemoveUnderscores(t[1..])))
    else if DecimalBody(t) then Some(DigitsValue(RemoveUnderscores(t)))
    else None
  }

  lemma {:induction false} DigitsAreDecimalBody(s: string)
    requires IsDigits(s)
    ensures DecimalBody(s)
    ensures RemoveUnderscores(s) == s
  {
    if |s| >= 2 {
      DigitsAreDecimalBody(s[1..]);
    }
  }

  lemma PyIntOfDigits(d: string)
    requires IsDigits(d)
    ensures PyInt(d) == Some(DigitsValue(d))
  {
    StripUnchanged(d);
    DigitsAreDecimalBody(d);
    assert d[0] != '-' && d[0] != '+';
  }

  lemma PyIntOfNegativeDigits(d: string)
    requires IsDigits(d)
    ensures PyInt("-" + d) == Some(-(DigitsValue(d) as int))
  {
    var t := "-" + d;
    StripUnchanged(t);
    assert t[1..] == d;
    DigitsAreDecimalBody(d);
    assert ParseSigned(t) == Some(-(DigitsValue(d) as int));
  }

  /** `int(str(i)) == i`. */
  lemma PyIntOfIntToString(i: int)
    ensures PyInt(IntToString(i)) == Some(i)
  {
    if i < 0 {
      PyIntOfNegative(-i);
    } else {
      PyIntOfNat(i);
    }
  }

  lemma PyIntOfNegative(n: nat)
    requires n > 0
    ensures PyInt(IntToString(-(n as int))) == Some(-(n as int))
  {
    var d := NatToString(n);
    assert IntToString(-(n as int)) == "-" + d;
    NatToStringDigits(n);
    PyIntOfNegativeDigits(d);
    assert DigitsValue(d) == n;
  }

  lemma PyIntOfNat(n: nat)
    ensures PyInt(IntToString(n)) == Some(n)
  {
    var d := NatToString(n);
    assert IntToString(n) == d;
    NatToStringDigits(n);
    PyIntOfDigits(d);
  }

  // ---------------------------------------------------------------- split

  function LastIndexOf(s: string, c: char): (k: nat)
    requires c in s
    ensures k < |s| && s[k] == c && c !in s[k + 1..]
  {
    if s[|s| - 1] == c then |s| - 1
    else
      assert c in s[..|s| - 1] by {
        var j :| 0 <= j < |s| && s[j] == c;
        assert s[..|s| - 1][j] == c;
      }
      LastIndexOf(s[..|s| - 1], c)
  }

  /** `s.split(sep)`: the pieces between occurrences of `sep`, in order. */
  function Split(s: string, sep: char): (parts: seq<string>)
    ensures |parts| >= 1
    ensures forall j :: 0 <= j < |parts| ==> sep !in parts[j]
    ensures sep !in s ==> parts == [s]
    decreases |s|
  {
    if sep !in s then [s]
    else
      var k := LastIndexOf(s, sep);
      Split(s[..k], sep) + [s[k + 1..]]
  }

  /** `sep.join(parts)`. */
  function Join(parts: seq<string>, sep: char): string {
    if parts == [] then ""
    else if |parts| == 1 then parts[0]
    else Join(parts[..|parts| - 1], sep) + [sep] + parts[|parts| - 1]
  }

  /** Joining the pieces with the separator gives the text back: no
      character is lost or moved by splitting. */
  lemma {:induction false} SplitJoin(s: string, sep: char)
    ensures Join(Split(s, sep), sep) == s
    decreases |s|
  {
    if sep in s {
      var k := LastIndexOf(s, sep);
      SplitJoin(s[..k], sep);
      var front := Split(s[..k], sep);
      var parts := front + [s[k + 1..]];
      assert parts[..|parts| - 1] == front;
      assert s == s[..k] + [sep] + s[k + 1..];
    }
  }

  /** Splitting `x + sep + y`, where `y` holds no separator, ends in `y`. */
  lemma SplitLast(x: string, sep: char, y: string)
    requires sep !in y
    ensures Split(x + [sep] + y, sep) == Split(x, sep) + [y]
  {
    var s := x + [sep] + y;
    assert s[|x|] == sep;
    var k := LastIndexOf(s, sep);
    assert k == |x|;
    assert s[..k] == x;
    assert s[k + 1..] == y;
  }
}
