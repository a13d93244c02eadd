/**
 * The pieces of Go's `strings`, `strconv` and `fmt` packages the provider relies on:
 * splitting on a one-character separator, decimal integers, `%t` and the `int32` conversion.
 */
module GoText {
  import opened Wrappers

  /** `fmt`'s `%t` verb. */
  function BoolText(b: bool): string {
    if b then "true" else "false"
  }

  /** A character of the regular-expression class `[a-zA-Z0-9]`. */
  predicate IsAlnum(c: char) {
    'a' <= c <= 'z' || 'A' <= c <= 'Z' || '0' <= c <= '9'
  }

  predicate AllAlnum(s: string) {
    forall i :: 0 <= i < |s| ==> IsAlnum(s[i])
  }

  predicate IsDigit(c: char) {
    '0' <= c <= '9'
  }

  predicate AllDigits(s: string) {
    forall i :: 0 <= i < |s| ==> IsDigit(s[i])
  }

  // ---------------------------------------------------------------------------
  // strings.Split with a one-character separator, and its inverse strings.Join
  // ---------------------------------------------------------------------------

  /**
   * `strings.Split(s, string(sep))`: the pieces of `s` between the occurrences of `sep`,
   * one more piece than there are separators (so `Split("", sep) == [""]`).
   */
  function Split(s: string, sep: char): (parts: seq<string>)
    ensures |parts| >= 1
    ensures forall k :: 0 <= k < |parts| ==> sep !in parts[k]
    decreases |s|
  {
    if s == [] then [""]
    else
      var rest := Split(s[1..], sep);
      if s[0] == sep then [""] + rest
      else [[s[0]] + rest[0]] + rest[1..]
  }

  /** `strings.Join(parts, string(sep))`. */
  function Join(parts: seq<string>, sep: char): string
    requires |parts| >= 1
  {
    if |parts| == 1 then parts[0] else parts[0] + [sep] + Join(parts[1..], sep)
  }

  /** Joining the pieces of a split gives back the original text. */
  lemma {:induction false} JoinSplit(s: string, sep: char)
    ensures Join(Split(s, sep), sep) == s
    decreases |s|
  {
    if s != [] {
      var rest := Split(s[1..], sep);
      JoinSplit(s[1..], sep);
      if s[0] == sep {
        assert Split(s, sep) == [""] + rest;
        assert ([""] + rest)[1..] == rest;
      } else {
        var parts := [[s[0]] + rest[0]] + rest[1..];
        assert Split(s, sep) == parts;
        if |rest| == 1 {
          assert Join(rest, sep) == rest[0];
        } else {
          assert parts[1..] == rest[1..];
          assert Join(rest, sep) == rest[0] + [sep] + Join(rest[1..], sep);
        }
      }
    }
  }

  /** A piece free of separators splits to itself. */
  lemma {:induction false} SplitSingle(p: string, sep: char)
    requires sep !in p
    ensures Split(p, sep) == [p]
    decreases |p|
  {
    if p != [] {
      SplitSingle(p[1..], sep);
      assert [p[0]] + p[1..] == p;
    }
  }

  /** Splitting `p + sep + t`, where `p` holds no separator, peels `p` off the front. */
  lemma {:induction false} SplitCons(p: string, sep: char, t: string)
    requires sep !in p
    ensures Split(p + [sep] + t, sep) == [p] + Split(t, sep)
    decreases |p|
  {
    var s := p + [sep] + t;
    if p == [] {
      assert s[0] == sep && s[1..] == t;
    } else {
      assert s[0] == p[0] && s[1..] == p[1..] + [sep] + t;
      SplitCons(p[1..], sep, t);
      assert [p[0]] + p[1..] == p;
    }
  }

  /** Splitting the join of separator-free pieces gives back exactly those pieces. */
  lemma {:induction false} SplitJoin(parts: seq<string>, sep: char)
    requires |parts| >= 1
    requires forall k :: 0 <= k < |parts| ==> sep !in parts[k]
    ensures Split(Join(parts, sep), sep) == parts
    decreases |parts|
  {
    if |parts| == 1 {
      SplitSingle(parts[0], sep);
    } else {
      SplitJoin(parts[1..], sep);
      SplitCons(parts[0], sep, Join(parts[1..], sep));
      assert [parts[0]] + parts[1..] == parts;
    }
  }

  /** A split has a second piece exactly when the separator occurs. */
  lemma {:induction false} SplitHasSecond(s: string, sep: char)
    ensures |Split(s, sep)| >= 2 <==> sep in s
    decreases |s|
  {
    if s != [] {
      SplitHasSecond(s[1..], sep);
      assert sep in s <==> s[0] == sep || sep in s[1..];
    }
  }

  // ---------------------------------------------------------------------------
  // Decimal integers: strconv.Atoi and the int32 conversion
  // ---------------------------------------------------------------------------

  function DigitValue(c: char): nat
    requires IsDigit(c)
  {
    (c as int - '0' as int) as nat
  }

  function DigitChar(d: nat): char
    requires d < 10
  {
    ('0' as int + d) as char
  }

  /** The number a string of decimal digits denotes. */
  function DigitsValue(s: string): nat
    requires AllDigits(s)
    decreases |s|
  {
    if s == [] then 0 else DigitsValue(s[..|s| - 1]) * 10 + DigitValue(s[|s| - 1])
  }

  /** The decimal text of a natural number, without leading zeros (`strconv.Itoa`). */
  function NatText(n: nat): (s: string)
    ensures |s| >= 1 && AllDigits(s)
    decreases n
  {
    if n < 10 then [DigitChar(n)] else NatText(n / 10) + [DigitChar(n % 10)]
  }

  /** Reading back the decimal text of `n` gives `n`. */
  lemma {:induction false} DigitsValueNatText(n: nat)
    ensures DigitsValue(NatText(n)) == n
    decreases n
  {
    if n >= 10 {
      var s := NatText(n);
      DigitsValueNatText(n / 10);
      assert s[..|s| - 1] == NatText(n / 10);
    }
  }

  /** `%d` on an int. */
  function IntText(n: int): string {
    if n < 0 then "-" + NatText(-n) else NatText(n)
  }

  const MinInt64: int := -0x8000_0000_0000_0000
  const MaxInt64: int := 0x7FFF_FFFF_FFFF_FFFF
  const MaxUint64: int := 0xFFFF_FFFF_FFFF_FFFF

  // ---------------------------------------------------------------------------
  // strconv.Quote, as the error texts of strconv use it
  // ---------------------------------------------------------------------------

  function HexDigit(d: nat): char
    requires d < 16
  {
    "0123456789abcdef"[d]
  }

  /**
   * How `strconv.Quote` writes one character between its double quotes: `"` and `\`
   * are backslashed, printable characters are copied, the seven C control escapes are
   * named, other control characters become `\xNN`, and the non-printable characters
   * U+0080 to U+00A0 and U+00AD become `\u00NN`.
   */
  function EscapeChar(c: char): (e: string)
    ensures |e| >= 1
    ensures |e| == 1 <==> e == [c]
  {
    var n := c as int;
    if c == '"' || c == '\\' then ['\\', c]
    else if ' ' <= c <= '~' then [c]
    else if n == 7 then "\\a"
    else if n == 8 then "\\b"
    else if n == 12 then "\\f"
    else if c == '\n' then "\\n"
    else if c == '\r' then "\\r"
    else if c == '\t' then "\\t"
    else if n == 11 then "\\v"
    else if n < 0x20 || n == 0x7F then "\\x" + [HexDigit(n / 16), HexDigit(n % 16)]
    else if n <= 0xA0 || n == 0xAD then "\\u00" + [HexDigit(n / 16), HexDigit(n % 16)]
    else [c]
  }

  /** The characters of `s`, each written as `EscapeChar` writes it. */
  function Escaped(s: string): (e: string)
    ensures |e| >= |s|
    decreases |s|
  {
    if s == [] then [] else EscapeChar(s[0]) + Escaped(s[1..])
  }

  /** `strconv.Quote(s)`: the escaped text between double quotes. */
  function Quote(s: string): (q: string)
    ensures |q| >= |s| + 2 && q[0] == '"' && q[|q| - 1] == '"'
  {
    "\"" + Escaped(s) + "\""
  }

  /** A printable ASCII character other than `"` and `\`, which `Quote` copies as it is. */
  predicate IsPlain(c: char) {
    ' ' <= c <= '~' && c != '"' && c != '\\'
  }

  /** A text of plain characters is quoted by surrounding it with double quotes. */
  lemma {:induction false} QuotePlain(s: string)
    requires forall i :: 0 <= i < |s| ==> IsPlain(s[i])
    ensures Quote(s) == "\"" + s + "\""
  {
    EscapedPlain(s);
  }

  lemma {:induction false} EscapedPlain(s: string)
    requires forall i :: 0 <= i < |s| ==> IsPlain(s[i])
    ensures Escaped(s) == s
    decreases |s|
  {
    if s != [] {
      EscapedPlain(s[1..]);
      assert [s[0]] + s[1..] == s;
    }
  }

  /** Quotes and backslashes are escaped, and so are control characters. */
  lemma QuoteExamples()
    ensures Quote("a\"b") == "\"a\\\"b\""
    ensures Quote("1\\2") == "\"1\\\\2\""
    ensures Quote("x\ny") == "\"x\\ny\""
  {
  }

  // ---------------------------------------------------------------------------
  // strconv.Atoi
  // ---------------------------------------------------------------------------

  /** The text after an optional leading `+` or `-`. */
  function Unsigned(s: string): (u: string)
    ensures |s| > 0 && (s[0] == '+' || s[0] == '-') ==> s == [s[0]] + u
    ensures !(|s| > 0 && (s[0] == '+' || s[0] == '-')) ==> u == s
  {
    if |s| > 0 && (s[0] == '+' || s[0] == '-') then s[1..] else s
  }

  predicate Negative(s: string) {
    |s| > 0 && s[0] == '-'
  }

  /** The length of the run of digits that starts `u`. */
  function DigitRun(u: string): (k: nat)
    ensures k <= |u| && AllDigits(u[..k])
    ensures k < |u| ==> !IsDigit(u[k])
    decreases |u|
  {
    if u == [] || !IsDigit(u[0]) then 0
    else
      var k := 1 + DigitRun(u[1..]);
      assert forall i :: 1 <= i < k ==> u[..k][i] == u[1..][..k - 1][i - 1];
      k
  }

  /** A whole text of digits is its own digit run. */
  lemma DigitRunAll(u: string)
    requires AllDigits(u)
    ensures DigitRun(u) == |u|
  {
  }

  /** `strconv.Atoi`'s error for `s`: the input quoted, then the kind of failure. */
  function AtoiError(s: string, kind: string): string {
    "strconv.Atoi: parsing " + Quote(s) + ": " + kind
  }

  const InvalidSyntax := "invalid syntax"
  const OutOfRange := "value out of range"

  /**
   * `strconv.Atoi` on a 64-bit platform. After an optional sign the digits are read
   * left to right, and the first problem met decides the error: no digits at all, a
   * value past 2^64 - 1 (reported even when a non-digit follows), a non-digit, or a
   * value outside the `int` range once every digit is read.
   */
  function Atoi(s: string): (r: Result<int>)
    ensures r.Ok? <==>
      var u := Unsigned(s);
      u != [] && AllDigits(u) &&
      (if Negative(s) then DigitsValue(u) <= -MinInt64 else DigitsValue(u) <= MaxInt64)
    ensures r.Ok? ==>
      r.value == (if Negative(s) then -(DigitsValue(Unsigned(s)) as int) else DigitsValue(Unsigned(s)))
    ensures r.Ok? ==> MinInt64 <= r.value <= MaxInt64
    ensures r.Err? ==> r.error == AtoiError(s, InvalidSyntax) || r.error == AtoiError(s, OutOfRange)
  {
    var u := Unsigned(s);
    var k := DigitRun(u);
    assert AllDigits(u) ==> u[..k] == u;
    if u == [] then Err(AtoiError(s, InvalidSyntax))
    else if DigitsValue(u[..k]) > MaxUint64 then Err(AtoiError(s, OutOfRange))
    else if k < |u| then Err(AtoiError(s, InvalidSyntax))
    else
      assert u[..k] == u;
      var magnitude: int := DigitsValue(u);
      if Negative(s) then
        if magnitude > -MinInt64 then Err(AtoiError(s, OutOfRange)) else Ok(-magnitude)
      else
        if magnitude > MaxInt64 then Err(AtoiError(s, OutOfRange)) else Ok(magnitude)
  }

  /**
   * Overflow is reported before a later non-digit: when the leading digits already pass
   * 2^64 - 1, the error is a range error whatever follows them.
   */
  lemma AtoiOverflowFirst(s: string)
    requires DigitsValue(Unsigned(s)[..DigitRun(Unsigned(s))]) > MaxUint64
    ensures Atoi(s) == Err(AtoiError(s, OutOfRange))
  {
  }

  /** A non-digit after digits that fit in 64 bits is a syntax error. */
  lemma AtoiSyntaxAfterDigits(s: string)
    requires DigitRun(Unsigned(s)) < |Unsigned(s)|
    requires DigitsValue(Unsigned(s)[..DigitRun(Unsigned(s))]) <= MaxUint64
    ensures Atoi(s) == Err(AtoiError(s, InvalidSyntax))
  {
  }

  /** A text that is a whole number of digits and passes the `int` range is a range error. */
  lemma AtoiOutOfRange(s: string)
    requires Unsigned(s) != [] && AllDigits(Unsigned(s))
    requires if Negative(s) then DigitsValue(Unsigned(s)) > -MinInt64
             else DigitsValue(Unsigned(s)) > MaxInt64
    ensures Atoi(s) == Err(AtoiError(s, OutOfRange))
  {
    DigitRunAll(Unsigned(s));
    assert Unsigned(s)[..|Unsigned(s)|] == Unsigned(s);
  }

  /** The digit run of digits followed by a non-digit (or nothing) is those digits. */
  lemma {:induction false} DigitRunPrefix(d: string, rest: string)
    requires AllDigits(d)
    requires rest == [] || !IsDigit(rest[0])
    ensures DigitRun(d + rest) == |d|
    decreases |d|
  {
    if d != [] {
      assert (d + rest)[1..] == d[1..] + rest;
      DigitRunPrefix(d[1..], rest);
    }
  }

  /** 10 to the power `n`. */
  function Pow10(n: nat): (p: nat)
    ensures p >= 1
  {
    if n == 0 then 1 else 10 * Pow10(n - 1)
  }

  /** A run of digits is worth at least its first digit times its place value. */
  lemma {:induction false} DigitsValueLeading(d: string)
    requires |d| >= 1 && AllDigits(d)
    ensures DigitsValue(d) >= DigitValue(d[0]) * Pow10(|d| - 1)
    decreases |d|
  {
    if |d| > 1 {
      var init := d[..|d| - 1];
      assert init[0] == d[0];
      DigitsValueLeading(init);
    }
  }

  /** Twenty nines are worth more than 2^64 - 1. */
  lemma TwentyNinesOverflow(d: string)
    requires |d| == 20 && forall i :: 0 <= i < |d| ==> d[i] == '9'
    ensures AllDigits(d) && DigitsValue(d) > MaxUint64
  {
    DigitsValueLeading(d);
    assert Pow10(10) == 10_000_000_000;
    assert Pow10(19) == 10_000_000_000_000_000_000;
  }

  /**
   * The first problem met decides: twenty nines pass 2^64 - 1 before the trailing letter
   * is reached, so the error is a range error.
   */
  lemma AtoiOverflowExample(s: string)
    requires s == "99999999999999999999x"
    ensures Atoi(s) == Err(AtoiError(s, OutOfRange))
    ensures Quote(s) == "\"99999999999999999999x\""
  {
    var nines := s[..20];
    TwentyNinesOverflow(nines);
    assert s == nines + "x";
    DigitRunPrefix(nines, "x");
    assert Unsigned(s) == s;
    AtoiOverflowFirst(s);
    QuotePlain(s);
  }

  /** A letter after a short number is a syntax error. */
  lemma AtoiSyntaxExample(s: string)
    requires s == "12x"
    ensures Atoi(s) == Err(AtoiError(s, InvalidSyntax))
    ensures Quote(s) == "\"12x\""
  {
    assert s == "12" + "x";
    DigitRunPrefix("12", "x");
    assert Unsigned(s) == s && s[..2] == "12";
    assert DigitsValue("12") == 12;
    AtoiSyntaxAfterDigits(s);
    QuotePlain(s);
  }

  /** `Atoi` reads back the decimal text of every natural number that fits an `int`. */
  lemma AtoiNatText(n: nat)
    requires n <= MaxInt64
    ensures Atoi(NatText(n)) == Ok(n)
  {
    DigitsValueNatText(n);
  }

  /** Go's `int32(n)`: keep the low 32 bits of the two's-complement representation. */
  function Int32(n: int): (r: int)
    ensures -0x8000_0000 <= r < 0x8000_0000
    ensures (r - n) % 0x1_0000_0000 == 0
  {
    var m := n % 0x1_0000_0000;
    if m < 0x8000_0000 then m else m - 0x1_0000_0000
  }

  /** The conversion leaves values that already fit in 32 bits alone. */
  lemma Int32Fits(n: int)
    requires -0x8000_0000 <= n < 0x8000_0000
    ensures Int32(n) == n
  {
  }
}
