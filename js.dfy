/** The pieces of JavaScript value semantics that the application's code relies on:
    truthiness (`a || b`, `if (!x)`), `String(v)`, `parseInt`, the `\s` whitespace class,
    `startsWith`, and ASCII case mapping. */
module Js {

  datatype Option<+T> = None | Some(value: T)

  /** A JavaScript value as it occurs in form state and JSON objects of the application.
      Numbers are modelled as integers; a file chosen in an `<input type="file">` is a `FileRef`. */
  datatype Value = Missing | Null | Bool(b: bool) | Number(n: int) | Text(s: string) | FileRef(name: string)

  /** A plain JavaScript object: property name to value. */
  type Object = map<string, Value>

  /** Property access `o.key`; an absent property reads as `undefined`. */
  function Get(o: Object, key: string): Value
  {
    if key in o then o[key] else Missing
  }

  /** JavaScript truthiness of a value. */
  predicate Truthy(v: Value)
  {
    match v
    case Missing => false
    case Null => false
    case Bool(b) => b
    case Number(n) => n != 0
    case Text(s) => s != ""
    case FileRef(_) => true
  }

  /** `a || b` on strings: an empty string is falsy. */
  function OrElse(a: string, b: string): (r: string)
    ensures a != "" ==> r == a
    ensures a == "" ==> r == b
  {
    if a != "" then a else b
  }

  /** `a || b` on an optional string (`undefined` and `""` are falsy). */
  function OptOrElse(a: Option<string>, b: string): (r: string)
    ensures a.Some? && a.value != "" ==> r == a.value
    ensures a.None? || a.value == "" ==> r == b
  {
    if a.Some? && a.value != "" then a.value else b
  }

  /** `String(v)`. */
  function ToText(v: Value): string
  {
    match v
    case Missing => "undefined"
    case Null => "null"
    case Bool(b) => if b then "true" else "false"
    case Number(n) => Decimal(n)
    case Text(s) => s
    case FileRef(_) => "[object File]"
  }

  predicate IsDigit(c: char)
  {
    '0' <= c <= '9'
  }

  function DigitChar(d: nat): (c: char)
    requires d < 10
    ensures IsDigit(c) && DigitValue(c) == d
  {
    ('0' as int + d) as char
  }

  function DigitValue(c: char): nat
    requires IsDigit(c)
  {
    c as int - '0' as int
  }

  /** The decimal numeral of a natural number, without leading zeros. */
  function NatDecimal(n: nat): (s: string)
    ensures |s| >= 1
    ensures forall k :: 0 <= k < |s| ==> IsDigit(s[k])
    ensures |s| > 1 ==> s[0] != '0'
    decreases n
  {
    if n < 10 then [DigitChar(n)] else NatDecimal(n / 10) + [DigitChar(n % 10)]
  }

  /** `String(n)` for an integer. */
  function Decimal(n: int): string
  {
    if n < 0 then "-" + NatDecimal(-n) else NatDecimal(n)
  }

  /** The characters matched by `\s` in a JavaScript regular expression, which are also
      the characters `parseInt` skips at the start of its argument. */
  predicate IsSpace(c: char)
  {
    || c == ' ' || c == '\t' || c == '\n' || c == '\r'
    || c == '\U{000B}' || c == '\U{000C}' || c == '\U{00A0}' || c == '\U{1680}'
    || ('\U{2000}' <= c <= '\U{200A}')
    || c == '\U{2028}' || c == '\U{2029}' || c == '\U{202F}' || c == '\U{205F}'
    || c == '\U{3000}' || c == '\U{FEFF}'
  }

  /** `s.trimStart()`: drops the leading whitespace and nothing else. */
  function TrimStart(s: string): (r: string)
    ensures |r| <= |s|
    ensures r == [] || !IsSpace(r[0])
  {
    if s != [] && IsSpace(s[0]) then TrimStart(s[1..]) else s
  }

  /** What `trimStart` removes is a run of whitespace at the front, and what it keeps is the
      rest of the string unchanged. */
  lemma {:induction false} TrimStartSuffix(s: string)
    ensures TrimStart(s) == s[|s| - |TrimStart(s)|..]
    ensures forall k :: 0 <= k < |s| - |TrimStart(s)| ==> IsSpace(s[k])
  {
    if s != [] && IsSpace(s[0]) {
      TrimStartSuffix(s[1..]);
    }
  }

  predicate IsRadixDigit(c: char, hex: bool)
  {
    IsDigit(c) || (hex && ('a' <= c <= 'f' || 'A' <= c <= 'F'))
  }

  /** The value of a digit of radix 10 or 16; only ever applied to such digits. */
  function RadixDigitValue(c: char): nat
  {
    if IsDigit(c) then DigitValue(c)
    else if 'a' <= c <= 'f' then c as int - 'a' as int + 10
    else if 'A' <= c <= 'F' then c as int - 'A' as int + 10
    else 0
  }

  /** The longest prefix of `s` made of digits of the radix (10, or 16 when `hex`). */
  function DigitRun(s: string, hex: bool): (z: string)
    ensures |z| <= |s|
  {
    if s != [] && IsRadixDigit(s[0], hex) then [s[0]] + DigitRun(s[1..], hex) else []
  }

  /** The run is a prefix of `s`, all digits, and stops at the first character that is not one. */
  lemma {:induction false} DigitRunIsLongest(s: string, hex: bool)
    ensures DigitRun(s, hex) == s[..|DigitRun(s, hex)|]
    ensures forall k :: 0 <= k < |DigitRun(s, hex)| ==> IsRadixDigit(DigitRun(s, hex)[k], hex)
    ensures |DigitRun(s, hex)| < |s| ==> !IsRadixDigit(s[|DigitRun(s, hex)|], hex)
  {
    if s != [] && IsRadixDigit(s[0], hex) {
      DigitRunIsLongest(s[1..], hex);
      var rest := DigitRun(s[1..], hex);
      assert DigitRun(s, hex) == [s[0]] + rest;
      assert s[..1 + |rest|] == [s[0]] + s[1..][..|rest|];
    }
  }

  /** The number a run of radix digits denotes, most significant digit first. */
  function RunValue(z: string, hex: bool): nat
  {
    if z == [] then 0
    else RunValue(z[..|z| - 1], hex) * (if hex then 16 else 10) + RadixDigitValue(z[|z| - 1])
  }

  /** `parseInt(s)` with no radix argument: skip leading whitespace, take an optional sign,
      read a `0x`/`0X` prefix as radix 16 and otherwise radix 10, and read the longest run of
      digits. `None` stands for `NaN` (no digit at all). */
  function ParseInt(s: string): Option<int>
  {
    var t := TrimStart(s);
    var negative := t != [] && t[0] == '-';
    var u := if t != [] && (t[0] == '-' || t[0] == '+') then t[1..] else t;
    var hex := |u| >= 2 && u[0] == '0' && (u[1] == 'x' || u[1] == 'X');
    var z := DigitRun(if hex then u[2..] else u, hex);
    if z == [] then None
    else var v: int := RunValue(z, hex); Some(if negative then -v else v)
  }

  /** `parseInt(v) || 0`: `NaN` (and `-0`) become 0. */
  function ParseIntOrZero(v: Value): int
  {
    match ParseInt(ToText(v))
    case None => 0
    case Some(n) => n
  }

  lemma {:induction false} RunValueOfDecimal(n: nat)
    ensures DigitRun(NatDecimal(n), false) == NatDecimal(n)
    ensures RunValue(NatDecimal(n), false) == n
    decreases n
  {
    DigitRunAll(NatDecimal(n));
    if n >= 10 {
      RunValueOfDecimal(n / 10);
      var s := NatDecimal(n);
      assert s[..|s| - 1] == NatDecimal(n / 10);
    }
  }

  lemma {:induction false} DigitRunAll(s: string)
    requires forall k :: 0 <= k < |s| ==> IsDigit(s[k])
    ensures DigitRun(s, false) == s
  {
    if s != [] {
      DigitRunAll(s[1..]);
    }
  }

  /** A digit run followed by a character that is not a digit of the radix is read whole. */
  lemma {:induction false} DigitRunStops(s: string, t: string, hex: bool)
    requires forall k :: 0 <= k < |s| ==> IsDigit(s[k])
    requires t == [] || !IsRadixDigit(t[0], hex)
    ensures DigitRun(s + t, hex) == s
  {
    if s == [] {
      assert s + t == t;
    } else {
      assert (s + t)[1..] == s[1..] + t;
      DigitRunStops(s[1..], t, hex);
    }
  }

  /** The unsigned part: a numeral followed by nothing or a space is not a `0x` prefix, and
      its digit run is the numeral itself. */
  lemma NumeralThenSpace(m: nat, rest: string)
    requires rest == [] || rest[0] == ' '
    ensures var u := NatDecimal(m) + rest;
      && !(|u| >= 2 && u[0] == '0' && (u[1] == 'x' || u[1] == 'X'))
      && DigitRun(u, false) == NatDecimal(m)
      && RunValue(NatDecimal(m), false) == m
  {
    var d := NatDecimal(m);
    var u := d + rest;
    RunValueOfDecimal(m);
    DigitRunStops(d, rest, false);
    if |u| >= 2 && u[0] == '0' {
      assert d[0] == '0';
      assert u[1] == rest[0];
    }
  }

  /** `parseInt` reads the numeral of `n` back as `n` when the numeral ends the string or is
      followed by a space. */
  lemma DecimalThenSpace(n: int, rest: string)
    requires rest == [] || rest[0] == ' '
    ensures ParseInt(Decimal(n) + rest) == Some(n)
  {
    var m := if n < 0 then -n else n;
    NumeralThenSpace(m, rest);
    var s := Decimal(n) + rest;
    assert TrimStart(s) == s;
    if n < 0 {
      assert s[1..] == NatDecimal(m) + rest;
    } else {
      assert s == NatDecimal(m) + rest;
    }
  }

  /** `parseInt(String(n)) === n`: the decimal numeral of any integer parses back to it. */
  lemma DecimalRoundTrip(n: int)
    ensures ParseInt(Decimal(n)) == Some(n)
  {
    DecimalThenSpace(n, []);
    assert Decimal(n) + [] == Decimal(n);
  }

  /** A string with no decimal digit in it parses to `NaN`. */
  lemma NoDigitIsNaN(s: string)
    requires forall k :: 0 <= k < |s| ==> !IsDigit(s[k])
    ensures ParseInt(s) == None
  {
    var t := TrimStart(s);
    TrimStartSuffix(s);
    forall k | 0 <= k < |t|
      ensures !IsDigit(t[k])
    {
      assert t[k] == s[|s| - |t| + k];
    }
    var u := if t != [] && (t[0] == '-' || t[0] == '+') then t[1..] else t;
    assert u == [] || !IsDigit(u[0]);
    assert DigitRun(u, false) == [];
  }

  /** `s.startsWith(p)`. */
  predicate StartsWith(s: string, p: string)
  {
    |p| <= |s| && s[..|p|] == p
  }

  function LowerChar(c: char): char
  {
    if 'A' <= c <= 'Z' then (c as int + 32) as char else c
  }

  function UpperChar(c: char): char
  {
    if 'a' <= c <= 'z' then (c as int - 32) as char else c
  }

  /** `s.toLowerCase()` restricted to ASCII letters. */
  function Lower(s: string): (r: string)
    ensures |r| == |s| && forall k :: 0 <= k < |s| ==> r[k] == LowerChar(s[k])
  {
    seq(|s|, k requires 0 <= k < |s| => LowerChar(s[k]))
  }

  /** `s.toUpperCase()` restricted to ASCII letters. */
  function Upper(s: string): (r: string)
    ensures |r| == |s| && forall k :: 0 <= k < |s| ==> r[k] == UpperChar(s[k])
  {
    seq(|s|, k requires 0 <= k < |s| => UpperChar(s[k]))
  }

  /** `s.length`: JavaScript counts UTF-16 code units, so a character outside the Basic
      Multilingual Plane counts twice. */
  function Utf16Length(s: string): (n: nat)
    ensures |s| <= n <= 2 * |s|
  {
    if s == [] then 0 else (if s[0] as int > 0xFFFF then 2 else 1) + Utf16Length(s[1..])
  }
}
