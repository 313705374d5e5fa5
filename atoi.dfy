/** `atoi_ex`: a decimal parser that skips leading spaces, takes an optional
    sign and ignores thousands separators. A string is the characters before
    its NUL terminator. */
module Atoi {

  datatype Option<T> = None | Some(value: T)

  /** `isdigit`: one of '0' to '9'. */
  predicate IsDigit(c: char)
  {
    '0' <= c <= '9'
  }

  /** `c - '0'` for a digit. */
  function Digit(c: char): (d: nat)
    requires IsDigit(c)
    ensures d < 10
  {
    c as int - '0' as int
  }

  /** What is left once the leading `' '` characters are skipped. */
  function SkipSpaces(s: seq<char>): (t: seq<char>)
    ensures |t| <= |s|
    ensures t == [] || t[0] != ' '
    decreases |s|
  {
    if s != [] && s[0] == ' ' then SkipSpaces(s[1..]) else s
  }

  /** The value of the digits-and-commas part, read left to right as the
      loop reads it: `None` once a character is neither a digit nor a comma. */
  function Scan(s: seq<char>): Option<nat>
    decreases |s|
  {
    if s == [] then Some(0)
    else
      match Scan(s[..|s| - 1])
      case None => None
      case Some(v) =>
        var c := s[|s| - 1];
        if IsDigit(c) then Some(v * 10 + Digit(c))
        else if c == ',' then Some(v)
        else None
  }

  /** The sign and the rest of the text after the spaces. */
  function Sign(t: seq<char>): (int, seq<char>)
  {
    if t != [] && t[0] == '-' then (-1, t[1..])
    else if t != [] && t[0] == '+' then (1, t[1..])
    else (1, t)
  }

  /** The text after the spaces and the sign. */
  function Unsigned(s: seq<char>): seq<char>
  {
    Sign(SkipSpaces(s)).1
  }

  /** The value `atoi_ex` returns, with the arithmetic unbounded. */
  function Parse(s: seq<char>): int
  {
    var (sign, digits) := Sign(SkipSpaces(s));
    match Scan(digits)
    case None => 0
    case Some(v) => sign * v
  }

  /** `atoi_ex` as the source writes it: a loop over the spaces, the sign test,
      then the conversion loop, whose early exit makes the result 0. */
  method AtoiEx(str: seq<char>) returns (n: int)
    ensures n == Parse(str)
  {
    var sign := 1;
    var i := 0;
    while i < |str| && str[i] == ' '
      invariant 0 <= i <= |str|
      invariant SkipSpaces(str[i..]) == SkipSpaces(str)
    {
      assert str[i..][1..] == str[i + 1..];
      i := i + 1;
    }
    if i < |str| && str[i] == '-' {
      sign := -1;
      i := i + 1;
    } else if i < |str| && str[i] == '+' {
      i := i + 1;
    }
    assert Sign(SkipSpaces(str)) == (sign, str[i..]);
    var value := ConvertDigits(str[i..]);
    match value {
      case None => n := 0;
      case Some(result) => n := result * sign;
    }
  }

  /** The conversion loop: digits are accumulated as `result * 10 + (c - '0')`,
      commas are passed over, and any other character stops it with `None`. */
  method ConvertDigits(s: seq<char>) returns (value: Option<nat>)
    ensures value == Scan(s)
  {
    var result := 0;
    var i := 0;
    while i < |s|
      invariant 0 <= i <= |s|
      invariant Scan(s[..i]) == Some(result)
    {
      assert s[..i + 1][..i] == s[..i];
      if IsDigit(s[i]) {
        result := result * 10 + Digit(s[i]);
      } else if s[i] != ',' {
        ScanFailureSticks(s, i + 1);
        return None;
      }
      i := i + 1;
    }
    assert s[..i] == s;
    return Some(result);
  }

  // ---------------------------------------------------------------------------
  // Properties of the scan

  /** Once the scan has failed on a prefix, it fails on the whole text. */
  lemma {:induction false} ScanFailureSticks(s: seq<char>, k: nat)
    requires k <= |s| && Scan(s[..k]) == None
    ensures Scan(s) == None
    decreases |s| - k
  {
    if k < |s| {
      assert s[..k + 1][..k] == s[..k];
      ScanFailureSticks(s, k + 1);
    } else {
      assert s[..k] == s;
    }
  }

  /** Neither a digit nor a comma. */
  predicate Invalid(c: char)
  {
    !IsDigit(c) && c != ','
  }

  /** The scan fails exactly when some character is neither a digit nor a comma. */
  lemma {:induction false} ScanFailsIff(s: seq<char>)
    ensures Scan(s) == None <==> exists i :: 0 <= i < |s| && Invalid(s[i])
    decreases |s|
  {
    if s != [] {
      var front := s[..|s| - 1];
      ScanFailsIff(front);
      assert forall i :: 0 <= i < |front| ==> front[i] == s[i];
      if exists i :: 0 <= i < |front| && Invalid(front[i]) {
        var i :| 0 <= i < |front| && Invalid(front[i]);
        assert Invalid(s[i]);
      }
    }
  }

  /** The text with its commas removed. */
  function RemoveCommas(s: seq<char>): seq<char>
    decreases |s|
  {
    if s == [] then []
    else if s[|s| - 1] == ',' then RemoveCommas(s[..|s| - 1])
    else RemoveCommas(s[..|s| - 1]) + [s[|s| - 1]]
  }

  /** Commas play no part in the value: "1,000" scans as "1000". */
  lemma {:induction false} CommasIgnored(s: seq<char>)
    ensures Scan(s) == Scan(RemoveCommas(s))
    decreases |s|
  {
    if s != [] {
      var front := s[..|s| - 1];
      CommasIgnored(front);
      if s[|s| - 1] != ',' {
        var r := RemoveCommas(front) + [s[|s| - 1]];
        assert r[..|r| - 1] == RemoveCommas(front);
      }
    }
  }

  /** 10^n. */
  function Pow10(n: nat): nat
  {
    if n == 0 then 1 else 10 * Pow10(n - 1)
  }

  /** Every character is a digit. */
  predicate AllDigits(s: seq<char>)
  {
    forall i :: 0 <= i < |s| ==> IsDigit(s[i])
  }

  /** The place-value reading of a digit string: the first digit weighs
      10^(|s| - 1), the last one 1. */
  function Decimal(s: seq<char>): nat
    requires AllDigits(s)
    decreases |s|
  {
    if s == [] then 0 else Digit(s[0]) * Pow10(|s| - 1) + Decimal(s[1..])
  }

  /** Appending a digit to a place-value number multiplies it by ten and adds the digit. */
  lemma {:induction false} DecimalSnoc(s: seq<char>)
    requires s != [] && AllDigits(s)
    ensures Decimal(s) == Decimal(s[..|s| - 1]) * 10 + Digit(s[|s| - 1])
    decreases |s|
  {
    if |s| > 1 {
      var t := s[1..];
      DecimalSnoc(t);
      assert t[..|t| - 1] == s[..|s| - 1][1..];
      var d, p, x, l := Digit(s[0]), Pow10(|s| - 2), Decimal(t[..|t| - 1]), Digit(s[|s| - 1]);
      assert Decimal(s) == d * (10 * p) + (x * 10 + l);
      assert Decimal(s[..|s| - 1]) == d * p + x;
      ShiftDigit(d, p, x, l);
    }
  }

  /** The arithmetic step of `DecimalSnoc`. */
  lemma ShiftDigit(d: int, p: int, x: int, l: int)
    ensures d * (10 * p) + (x * 10 + l) == (d * p + x) * 10 + l
  {
  }

  /** The loop's left-to-right accumulation computes the place-value reading. */
  lemma {:induction false} ScanIsDecimal(s: seq<char>)
    requires AllDigits(s)
    ensures Scan(s) == Some(Decimal(s))
    decreases |s|
  {
    if s != [] {
      ScanIsDecimal(s[..|s| - 1]);
      DecimalSnoc(s);
    }
  }

  // ---------------------------------------------------------------------------
  // Properties of the parser

  /** `k` spaces. */
  function Spaces(k: nat): (s: seq<char>)
    ensures |s| == k && forall i :: 0 <= i < k ==> s[i] == ' '
  {
    seq(k, _ => ' ')
  }

  /** Skipping spaces in front of spaces skips them all. */
  lemma {:induction false} SkipSpacesPrefix(k: nat, s: seq<char>)
    ensures SkipSpaces(Spaces(k) + s) == SkipSpaces(s)
    decreases k
  {
    if k > 0 {
      assert (Spaces(k) + s)[1..] == Spaces(k - 1) + s;
      SkipSpacesPrefix(k - 1, s);
    } else {
      assert Spaces(k) + s == s;
    }
  }

  /** What is skipped is a run of spaces: the text is `k` spaces followed by the rest. */
  lemma {:induction false} SkipSpacesSplit(s: seq<char>)
    ensures s == Spaces(|s| - |SkipSpaces(s)|) + SkipSpaces(s)
    decreases |s|
  {
    if s != [] && s[0] == ' ' {
      SkipSpacesSplit(s[1..]);
      var k := |s| - |SkipSpaces(s)|;
      assert Spaces(k) == [' '] + Spaces(k - 1);
    } else {
      assert Spaces(0) + s == s;
    }
  }

  /** Spaces in front of the text are skipped, however many there are. */
  lemma LeadingSpacesSkipped(k: nat, s: seq<char>)
    ensures Parse(Spaces(k) + s) == Parse(s)
  {
    SkipSpacesPrefix(k, s);
  }

  /** A character other than a digit or a comma after the sign makes the result 0. */
  lemma InvalidGivesZero(s: seq<char>, i: nat)
    requires i < |Unsigned(s)| && Invalid(Unsigned(s)[i])
    ensures Parse(s) == 0
  {
    ScanFailsIff(Unsigned(s));
  }

  /** Removing the commas from digits and commas leaves digits only. */
  lemma {:induction false} RemoveCommasDigits(s: seq<char>)
    requires forall i :: 0 <= i < |s| ==> !Invalid(s[i])
    ensures AllDigits(RemoveCommas(s))
    decreases |s|
  {
    if s != [] {
      RemoveCommasDigits(s[..|s| - 1]);
    }
  }

  /** Otherwise the result is the sign times the digits read in place value, commas dropped. */
  lemma ValidGivesValue(s: seq<char>)
    requires forall i :: 0 <= i < |Unsigned(s)| ==> !Invalid(Unsigned(s)[i])
    ensures AllDigits(RemoveCommas(Unsigned(s)))
    ensures Parse(s) == Sign(SkipSpaces(s)).0 * Decimal(RemoveCommas(Unsigned(s)))
  {
    var digits := Unsigned(s);
    CommasIgnored(digits);
    RemoveCommasDigits(digits);
    ScanIsDecimal(RemoveCommas(digits));
  }

  // ---------------------------------------------------------------------------
  // Round trip with decimal formatting

  /** The digit character for `d < 10`. */
  function DigitChar(d: nat): (c: char)
    requires d < 10
    ensures IsDigit(c) && Digit(c) == d
  {
    ('0' as int + d) as char
  }

  /** `n` in decimal, without leading zeros. */
  function Format(n: nat): (s: seq<char>)
    ensures s != [] && IsDigit(s[0])
    decreases n
  {
    if n < 10 then [DigitChar(n)] else Format(n / 10) + [DigitChar(n % 10)]
  }

  /** `n` in decimal with a comma between groups of three digits, as in "1,000,000". */
  function Grouped(n: nat): (s: seq<char>)
    ensures s != [] && IsDigit(s[0])
    decreases n
  {
    if n < 1000 then Format(n)
    else
      var low := n % 1000;
      Grouped(n / 1000) + [',', DigitChar(low / 100), DigitChar(low / 10 % 10), DigitChar(low % 10)]
  }

  /** Scanning a formatted number gives the number back. */
  lemma {:induction false} ScanFormat(n: nat)
    ensures Scan(Format(n)) == Some(n)
    decreases n
  {
    if n >= 10 {
      ScanFormat(n / 10);
      var s := Format(n);
      assert s[..|s| - 1] == Format(n / 10);
    }
  }

  /** A group of three digits read after the higher groups. */
  lemma GroupDigits(q: int, low: int)
    requires 0 <= low < 1000
    ensures ((q * 10 + low / 100) * 10 + low / 10 % 10) * 10 + low % 10 == q * 1000 + low
  {
  }

  /** Scanning a grouped number gives the number back: the commas are skipped. */
  lemma {:induction false} ScanGrouped(n: nat)
    ensures Scan(Grouped(n)) == Some(n)
    decreases n
  {
    if n < 1000 {
      ScanFormat(n);
    } else {
      var q, low := n / 1000, n % 1000;
      ScanGrouped(q);
      var d2, d1, d0 := low / 100, low / 10 % 10, low % 10;
      var g := Grouped(q);
      var s1 := g + [','];
      var s2 := s1 + [DigitChar(d2)];
      var s3 := s2 + [DigitChar(d1)];
      var s4 := s3 + [DigitChar(d0)];
      assert Grouped(n) == s4;
      assert s1[..|s1| - 1] == g;
      assert s2[..|s2| - 1] == s1;
      assert s3[..|s3| - 1] == s2;
      assert s4[..|s4| - 1] == s3;
      assert Scan(s1) == Some(q);
      assert Scan(s2) == Some(q * 10 + d2);
      assert Scan(s3) == Some((q * 10 + d2) * 10 + d1);
      GroupDigits(q, low);
    }
  }

  /** `atoi_ex` reads back what `printf("%'d")`-style grouping writes, with either sign. */
  lemma ParseGrouped(n: nat)
    ensures Parse(Grouped(n)) == n
    ensures Parse(['-'] + Grouped(n)) == -(n as int)
    ensures Parse(['+'] + Grouped(n)) == n
  {
    ScanGrouped(n);
    assert (['-'] + Grouped(n))[1..] == Grouped(n);
    assert (['+'] + Grouped(n))[1..] == Grouped(n);
  }
}
