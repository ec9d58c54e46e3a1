/** The JavaScript number built-ins the application relies on: `Math.round`, turning an
    integer into its decimal text, `toFixed(1)` and `toLocaleString` (en-US grouping),
    and `parseInt(s, 10)`. Numbers here are exact: integers and reals, not doubles. */
module JsNumber {
  import opened Wrappers
  import JsStrings

  predicate IsDigit(c: char) { '0' <= c <= '9' }

  predicate AllDigits(s: string) {
    forall i :: 0 <= i < |s| ==> IsDigit(s[i])
  }

  function DigitChar(d: nat): (c: char)
    requires d < 10
    ensures IsDigit(c) && DigitValue(c) == d
  {
    (48 + d) as char
  }

  function DigitValue(c: char): nat
    requires IsDigit(c)
  {
    (c as int) - 48
  }

  /** The decimal text of a non-negative integer, as `String(n)` prints it. */
  function NatToString(n: nat): (s: string)
    ensures |s| >= 1 && AllDigits(s)
    ensures s[0] == '0' ==> s == "0"
    decreases n
  {
    if n < 10 then [DigitChar(n)] else NatToString(n / 10) + [DigitChar(n % 10)]
  }

  /** The value of a string of decimal digits. */
  function DigitsValue(s: string): nat
    requires AllDigits(s)
  {
    if s == [] then 0 else DigitsValue(s[..|s| - 1]) * 10 + DigitValue(s[|s| - 1])
  }

  /** Reading the printed digits back gives the number. */
  lemma {:induction false} NatToStringValue(n: nat)
    ensures DigitsValue(NatToString(n)) == n
    decreases n
  {
    if n >= 10 {
      NatToStringValue(n / 10);
      var s := NatToString(n);
      assert s[..|s| - 1] == NatToString(n / 10);
    }
  }

  /** The decimal text of an integer, as `String(i)` prints it. */
  function IntToString(i: int): string
  {
    if i < 0 then "-" + NatToString(-i) else NatToString(i)
  }

  /** `parseInt(String(i), 10) == i` for every integer. */
  lemma {:induction false} ParseIntIntToString(i: int)
    ensures ParseInt(IntToString(i)) == Some(i)
  {
    if i < 0 {
      var n: nat := -i;
      assert IntToString(i) == "-" + NatToString(n);
      ParseIntNegative(n);
    } else {
      assert IntToString(i) == NatToString(i);
      ParseIntNatToString(i);
    }
  }

  /** `Math.round(x)`: the integer nearest `x`, halves rounding up. */
  function Round(x: real): (r: int)
    ensures x - 0.5 < r as real <= x + 0.5
  {
    (x + 0.5).Floor
  }

  /** `String(t / 10)` for a count of tenths: the shortest decimal text, with no
      fraction digit when the value is whole (`12`, `12.5`, `0.5`); that is the
      `toFixed(1)` text without a trailing ".0". */
  function TenthsToString(t: nat): (s: string)
    ensures t % 10 == 0 ==> s + ".0" == FixedOne(t)
    ensures t % 10 != 0 ==> s == FixedOne(t)
  {
    if t % 10 == 0 then NatToString(t / 10) else NatToString(t / 10) + "." + [DigitChar(t % 10)]
  }

  /** `x.toFixed(1)` for a value given in tenths: always one fraction digit. */
  function FixedOne(t: nat): (s: string)
    ensures |s| >= 3 && s[|s| - 2] == '.' && IsDigit(s[|s| - 1])
  {
    NatToString(t / 10) + "." + [DigitChar(t % 10)]
  }

  /** `toFixed(1)` reads back: the whole part before the point is `t / 10` (and `parseInt`
      stops at the point), and the one fraction digit is `t % 10`. */
  lemma {:induction false} FixedOneValue(t: nat)
    ensures var s := FixedOne(t);
      && ParseInt(s[..|s| - 2]) == Some(t / 10)
      && ParseInt(s) == Some(t / 10)
      && DigitValue(s[|s| - 1]) == t % 10
  {
    var s, whole := FixedOne(t), NatToString(t / 10);
    assert s == whole + ("." + [DigitChar(t % 10)]);
    assert s[..|s| - 2] == whole;
    ParseIntNatToString(t / 10);
    ParseIntStopsAfter(t / 10, "." + [DigitChar(t % 10)]);
  }

  /** `parseInt(s, 10)`, with `None` for `NaN`: skips leading whitespace, reads an
      optional sign and the longest run of decimal digits that follows. */
  function ParseInt(s: string): (r: Option<int>)
    ensures r.None? <==> |DigitPrefix(Unsigned(JsStrings.TrimStart(s)))| == 0
  {
    var t := JsStrings.TrimStart(s);
    var digits := DigitPrefix(Unsigned(t));
    var magnitude: int := if |digits| == 0 then 0 else DigitsValue(digits);
    if |digits| == 0 then None
    else if |t| > 0 && t[0] == '-' then Some(-magnitude)
    else Some(magnitude)
  }

  /** `t` without its leading sign, if it has one. */
  function Unsigned(t: string): (u: string)
    ensures |u| <= |t|
  {
    if |t| > 0 && (t[0] == '-' || t[0] == '+') then t[1..] else t
  }

  /** The longest prefix of `s` made of decimal digits. */
  function DigitPrefix(s: string): (d: string)
    ensures AllDigits(d) && |d| <= |s| && d == s[..|d|]
    ensures |d| < |s| ==> !IsDigit(s[|d|])
  {
    if |s| > 0 && IsDigit(s[0]) then [s[0]] + DigitPrefix(s[1..]) else ""
  }

  /** A digit string is its own digit prefix. */
  lemma {:induction false} DigitPrefixOfDigits(s: string)
    requires AllDigits(s)
    ensures DigitPrefix(s) == s
  {
    if |s| > 0 {
      DigitPrefixOfDigits(s[1..]);
      assert s == [s[0]] + s[1..];
    }
  }

  /** The digit prefix of digits followed by a non-digit is those digits. */
  lemma {:induction false} DigitPrefixStops(d: string, rest: string)
    requires AllDigits(d) && rest != [] && !IsDigit(rest[0])
    ensures DigitPrefix(d + rest) == d
  {
    if d != [] {
      DigitPrefixStops(d[1..], rest);
      assert (d + rest)[1..] == d[1..] + rest;
      assert d == [d[0]] + d[1..];
    } else {
      assert d + rest == rest;
    }
  }

  /** `parseInt` of a minus sign and a run of digits is minus their value. */
  lemma {:induction false} MinusDigits(d: string)
    requires d != [] && AllDigits(d)
    ensures ParseInt("-" + d) == Some(-(DigitsValue(d) as int))
  {
    var s := "-" + d;
    assert JsStrings.TrimStart(s) == s by {
      assert s[0] == '-' && !JsStrings.IsWhitespace(s[0]);
    }
    assert Unsigned(s) == d by {
      assert s[0] == '-' && s[1..] == d;
    }
    assert DigitPrefix(d) == d by {
      DigitPrefixOfDigits(d);
    }
  }

  /** `parseInt` reads a negative number's text back. */
  lemma {:induction false} ParseIntNegative(n: nat)
    ensures ParseInt("-" + NatToString(n)) == Some(-(n as int))
  {
    var d := NatToString(n);
    calc {
      ParseInt("-" + d);
      { MinusDigits(d); }
      Some(-(DigitsValue(d) as int));
      { NatToStringValue(n); }
      Some(-(n as int));
    }
  }

  /** `parseInt(String(n), 10) == n`: the two conversions are inverse. */
  lemma {:induction false} ParseIntNatToString(n: nat)
    ensures ParseInt(NatToString(n)) == Some(n)
  {
    var s := NatToString(n);
    assert !JsStrings.IsWhitespace(s[0]) && s[0] != '-' && s[0] != '+';
    assert JsStrings.TrimStart(s) == s;
    DigitPrefixOfDigits(s);
    NatToStringValue(n);
  }

  /** `parseInt` stops at the first non-digit after the number's text. */
  lemma {:induction false} ParseIntStopsAfter(n: nat, rest: string)
    requires rest != [] && !IsDigit(rest[0])
    ensures ParseInt(NatToString(n) + rest) == Some(n)
  {
    var d := NatToString(n);
    var s := d + rest;
    assert s[0] == d[0];
    assert !JsStrings.IsWhitespace(s[0]) && s[0] != '-' && s[0] != '+';
    assert JsStrings.TrimStart(s) == s;
    DigitPrefixStops(d, rest);
    NatToStringValue(n);
  }

  /** Three digits with leading zeros, the groups after the first in `toLocaleString`. */
  function Pad3(k: nat): (s: string)
    requires k < 1000
    ensures |s| == 3 && AllDigits(s)
  {
    [DigitChar(k / 100), DigitChar(k / 10 % 10), DigitChar(k % 10)]
  }

  /** `n.toLocaleString()` in the en-US locale: digits grouped by three with commas. */
  function GroupThousands(n: nat): string
    decreases n
  {
    if n < 1000 then NatToString(n) else GroupThousands(n / 1000) + "," + Pad3(n % 1000)
  }

  /** The grouped text starts with a digit and has a comma exactly from a thousand up. */
  lemma {:induction false} GroupThousandsShape(n: nat)
    ensures |GroupThousands(n)| >= 1 && IsDigit(GroupThousands(n)[0])
    ensures ',' in GroupThousands(n) <==> n >= 1000
    decreases n
  {
    if n >= 1000 {
      GroupThousandsShape(n / 1000);
      var g := GroupThousands(n / 1000);
      assert GroupThousands(n) == g + "," + Pad3(n % 1000);
      assert (g + "," + Pad3(n % 1000))[|g|] == ',';
    } else {
      var d := NatToString(n);
      assert forall k :: 0 <= k < |d| ==> d[k] != ',';
    }
  }

  /** `i.toLocaleString()` in the en-US locale, for an integer. */
  function LocaleInt(i: int): string
  {
    if i < 0 then "-" + GroupThousands(-i) else GroupThousands(i)
  }

  /** The en-US text of an integer is `String(i)` with commas added. */
  lemma {:induction false} LocaleIntDropCommas(i: int)
    ensures DropCommas(LocaleInt(i)) == IntToString(i)
  {
    if i < 0 {
      LocaleNegative(-i);
    } else {
      GroupingOnlyAddsCommas(i);
    }
  }

  /** The sign goes through the grouping unchanged. */
  lemma {:induction false} LocaleNegative(n: nat)
    ensures DropCommas("-" + GroupThousands(n)) == "-" + NatToString(n)
  {
    var g := GroupThousands(n);
    assert DropCommas("-" + g) == DropCommas("-") + DropCommas(g) by {
      DropCommasAppend("-", g);
    }
    assert DropCommas("-") == "-" by {
      assert DropCommas("-") == DropCommas("") + "-";
    }
    assert DropCommas(g) == NatToString(n) by {
      GroupingOnlyAddsCommas(n);
    }
  }

  /** `s` with every comma removed. */
  function DropCommas(s: string): (r: string)
    ensures ',' !in r
  {
    if s == [] then [] else DropCommas(s[..|s| - 1]) + (if s[|s| - 1] == ',' then [] else [s[|s| - 1]])
  }

  lemma {:induction false} DropCommasAppend(a: string, b: string)
    ensures DropCommas(a + b) == DropCommas(a) + DropCommas(b)
    decreases |b|
  {
    if b != [] {
      DropCommasAppend(a, b[..|b| - 1]);
      assert (a + b)[..|a + b| - 1] == a + b[..|b| - 1];
    } else {
      assert a + b == a;
    }
  }

  lemma {:induction false} DropCommasOfDigits(s: string)
    requires AllDigits(s)
    ensures DropCommas(s) == s
    decreases |s|
  {
    if s != [] {
      DropCommasOfDigits(s[..|s| - 1]);
    }
  }

  /** The last three decimal digits of `n` are those of `n % 1000`. */
  lemma ThousandsDigits(n: nat)
    ensures n / 10 / 10 == n / 100 && n / 100 / 10 == n / 1000
    ensures var k := n % 1000; k / 100 == n / 100 % 10 && k / 10 % 10 == n / 10 % 10 && k % 10 == n % 10
  {
  }

  /** The decimal text of `n` is that of `n / 1000` followed by three digits. */
  lemma {:induction false} NatToStringThousands(n: nat)
    requires n >= 1000
    ensures NatToString(n) == NatToString(n / 1000) + Pad3(n % 1000)
  {
    ThousandsDigits(n);
    calc {
      NatToString(n);
      NatToString(n / 10) + [DigitChar(n % 10)];
      NatToString(n / 100) + [DigitChar(n / 10 % 10)] + [DigitChar(n % 10)];
      NatToString(n / 1000) + [DigitChar(n / 100 % 10)] + [DigitChar(n / 10 % 10)] + [DigitChar(n % 10)];
    }
  }

  /** The en-US grouping only inserts commas: dropping them gives back the plain digits. */
  lemma {:induction false} GroupingOnlyAddsCommas(n: nat)
    ensures DropCommas(GroupThousands(n)) == NatToString(n)
    decreases n
  {
    if n < 1000 {
      DropCommasOfDigits(NatToString(n));
    } else {
      GroupingOnlyAddsCommas(n / 1000);
      DropCommasAppend(GroupThousands(n / 1000) + ",", Pad3(n % 1000));
      DropCommasAppend(GroupThousands(n / 1000), ",");
      assert DropCommas(",") == DropCommas("") + [];
      DropCommasOfDigits(Pad3(n % 1000));
      NatToStringThousands(n);
    }
  }
}
