// Python 2 string and integer conversions that the player relies on:
// str.strip, str.startswith, str.lower, int(...) on a string and "%d" % n.
// Strings are sequences of characters; the byte encoding of Python 2 `str`
// is not modelled.

module PyText {

  datatype Option<+T> = None | Some(value: T)

  /** A dynamically typed track field as the Python code stores it: an int,
      a str, or None. Floats are not modelled. */
  datatype PyValue = PyInt(i: int) | PyStr(s: string) | PyNone

  /** The characters str.strip() removes in Python 2. */
  predicate IsSpace(c: char)
  {
    c == ' ' || c == '\t' || c == '\n' || c == '\r' || c == '\U{000B}' || c == '\U{000C}'
  }

  predicate IsDigit(c: char)
  {
    '0' <= c <= '9'
  }

  predicate AllDigits(s: string)
  {
    forall i :: 0 <= i < |s| ==> IsDigit(s[i])
  }

  predicate StartsWith(s: string, prefix: string)
  {
    |prefix| <= |s| && s[..|prefix|] == prefix
  }

  predicate EndsWith(s: string, suffix: string)
  {
    |suffix| <= |s| && s[|s| - |suffix|..] == suffix
  }

  /** `sub in s`, or equivalently `s.find(sub) > -1`. */
  predicate Occurs(s: string, sub: string)
  {
    StartsWith(s, sub) || (s != [] && Occurs(s[1..], sub))
  }

  function LStrip(s: string): (r: string)
    ensures |r| <= |s|
    ensures r == [] || !IsSpace(r[0])
  {
    if s != [] && IsSpace(s[0]) then LStrip(s[1..]) else s
  }

  function RStrip(s: string): (r: string)
    ensures |r| <= |s|
    ensures r == [] || !IsSpace(r[|r| - 1])
  {
    if s != [] && IsSpace(s[|s| - 1]) then RStrip(s[..|s| - 1]) else s
  }

  /** str.strip(): drop surrounding whitespace. */
  function Strip(s: string): (r: string)
    ensures |r| <= |s|
  {
    RStrip(LStrip(s))
  }

  lemma StripUnpadded(s: string)
    requires s == [] || (!IsSpace(s[0]) && !IsSpace(s[|s| - 1]))
    ensures Strip(s) == s
  {
  }

  function LowerChar(c: char): char
  {
    if 'A' <= c <= 'Z' then (c as int + 32) as char else c
  }

  /** str.lower() on ASCII text. */
  function Lower(s: string): (r: string)
    ensures |r| == |s|
    ensures forall i :: 0 <= i < |s| ==> r[i] == LowerChar(s[i])
  {
    seq(|s|, i requires 0 <= i < |s| => LowerChar(s[i]))
  }

  function DigitChar(d: nat): char
    requires d < 10
  {
    ('0' as int + d) as char
  }

  function DigitValue(c: char): nat
    requires IsDigit(c)
  {
    c as int - '0' as int
  }

  /** The number a run of decimal digits denotes. */
  function DigitsValue(s: string): nat
    requires AllDigits(s)
  {
    if s == [] then 0 else DigitsValue(s[..|s| - 1]) * 10 + DigitValue(s[|s| - 1])
  }

  /** Python 2 `int(s)` for a str: surrounding whitespace, an optional sign
      and at least one decimal digit; None where Python raises ValueError. */
  function ParseInt(s: string): (r: Option<int>)
    ensures r.Some? ==> Strip(s) != []
  {
    var t := Strip(s);
    if t == [] then None
    else
      var negative := t[0] == '-';
      var body := if t[0] == '-' || t[0] == '+' then t[1..] else t;
      if body == [] then None
      else
        match Digits(body)
        case None => None
        case Some(magnitude) => Some(if negative then -(magnitude as int) else magnitude as int)
  }

  /** The number a text of decimal digits denotes, read left to right; None
      when some character is not a digit. */
  function Digits(s: string): Option<nat>
    decreases |s|
  {
    if s == [] then Some(0)
    else if !IsDigit(s[|s| - 1]) then None
    else
      match Digits(s[..|s| - 1])
      case None => None
      case Some(v) => Some(v * 10 + DigitValue(s[|s| - 1]))
  }

  /** Digits accepts exactly the all-digit texts, with their value. */
  lemma {:induction false} DigitsAllDigits(s: string)
    ensures Digits(s) == if AllDigits(s) then Some(DigitsValue(s)) else None
    decreases |s|
  {
    if s != [] {
      var p := s[..|s| - 1];
      DigitsAllDigits(p);
      assert AllDigits(s) <==> AllDigits(p) && IsDigit(s[|s| - 1]) by {
        assert forall i :: 0 <= i < |p| ==> p[i] == s[i];
      }
    }
  }

  /** int() accepts exactly a stripped text made of an optional sign and at
      least one digit, and gives the digits' value with the sign applied. */
  lemma ParseIntAccepts(s: string)
    ensures var t := Strip(s);
      var body := if t != [] && (t[0] == '-' || t[0] == '+') then t[1..] else t;
      (ParseInt(s).Some? <==> body != [] && AllDigits(body))
      && (ParseInt(s).Some? ==>
            ParseInt(s).value == if t[0] == '-' then -(DigitsValue(body) as int) else DigitsValue(body) as int)
  {
    var t := Strip(s);
    if t != [] {
      DigitsAllDigits(if t[0] == '-' || t[0] == '+' then t[1..] else t);
    }
  }

  /** Decimal text of a natural number, without leading zeros. */
  function ShowNat(n: nat): (r: string)
    ensures r != [] && AllDigits(r)
  {
    if n < 10 then [DigitChar(n)] else ShowNat(n / 10) + [DigitChar(n % 10)]
  }

  /** "%d" % n and str(n) for an int. */
  function ShowInt(n: int): (r: string)
    ensures r != []
  {
    if n < 0 then "-" + ShowNat(-n) else ShowNat(n)
  }

  /** Python 2 `str(v)`. */
  function Str(v: PyValue): string
  {
    match v
    case PyInt(i) => ShowInt(i)
    case PyStr(s) => s
    case PyNone => "None"
  }

  /** Python 2 `int(v)`; None where Python raises. */
  function IntOf(v: PyValue): (r: Option<int>)
    ensures v.PyInt? ==> r == Some(v.i)
    ensures v.PyNone? ==> r == None
  {
    match v
    case PyInt(i) => Some(i)
    case PyStr(s) => ParseInt(s)
    case PyNone => None
  }

  lemma {:induction false} ShowNatValue(n: nat)
    ensures DigitsValue(ShowNat(n)) == n
  {
    if n >= 10 {
      var s := ShowNat(n);
      assert s[..|s| - 1] == ShowNat(n / 10);
      ShowNatValue(n / 10);
    }
  }

  /** Reading the decimal text of a natural number gives that number. */
  lemma {:induction false} DigitsShowNat(m: nat)
    ensures Digits(ShowNat(m)) == Some(m)
  {
    if m >= 10 {
      var s := ShowNat(m);
      assert s[..|s| - 1] == ShowNat(m / 10);
      DigitsShowNat(m / 10);
    }
  }

  /** int(str(n)) == n: the decimal text of an int reads back as that int. */
  lemma ParseShowInt(n: int)
    ensures ParseInt(ShowInt(n)) == Some(n)
  {
    var s := ShowInt(n);
    var m: nat := if n < 0 then -n else n;
    var d := ShowNat(m);
    assert IsDigit(d[0]) && IsDigit(d[|d| - 1]);
    assert s[|s| - 1] == d[|d| - 1];
    StripUnpadded(s);
    DigitsShowNat(m);
    if n < 0 {
      assert s[1..] == d;
    }
  }
}
