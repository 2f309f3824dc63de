/**
 * The few pieces of Ruby's core library whose behaviour the SDK depends on:
 * the exceptions it raises, Integer#to_s, String#to_i on digit strings,
 * Array#join and String#strip.
 */
module RubyCore {

  /** The exception classes the modelled code raises or lets through, with their messages. */
  datatype RubyError =
    | ArgumentError(message: string)
    | RuntimeError(message: string)
    | NoMethodError(message: string)
    | TypeError(message: string)
    | ParserError(message: string)
    | NameError(message: string)

  predicate IsDigit(c: char) {
    '0' <= c <= '9'
  }

  predicate AllDigits(s: string) {
    forall i :: 0 <= i < |s| ==> IsDigit(s[i])
  }

  function DigitValue(c: char): (d: nat)
    requires IsDigit(c)
    ensures d < 10
  {
    (c as int) - ('0' as int)
  }

  function DigitChar(d: nat): (c: char)
    requires d < 10
    ensures IsDigit(c) && DigitValue(c) == d
  {
    (('0' as int) + d) as char
  }

  /** Integer#to_s for a non-negative integer: its shortest decimal spelling. */
  function NatToS(n: nat): (s: string)
    ensures 1 <= |s| && AllDigits(s)
    ensures |s| > 1 ==> s[0] != '0'
    decreases n
  {
    if n < 10 then [DigitChar(n)] else NatToS(n / 10) + [DigitChar(n % 10)]
  }

  /** Integer#to_s for any integer. */
  function IntToS(n: int): (s: string)
    ensures n >= 0 ==> s == NatToS(n)
    ensures n < 0 ==> s == "-" + NatToS(-n)
  {
    if n < 0 then "-" + NatToS(-n) else NatToS(n)
  }

  /** String#to_i on a string made of decimal digits only ("" gives 0). */
  function DigitsValue(s: string): nat
    requires AllDigits(s)
  {
    if s == [] then 0 else DigitsValue(s[..|s| - 1]) * 10 + DigitValue(s[|s| - 1])
  }

  /** The length of the run of decimal digits at the start of s. */
  function LeadingDigits(s: string): (n: nat)
    ensures n <= |s| && AllDigits(s[..n])
    ensures n < |s| ==> !IsDigit(s[n])
  {
    if s != [] && IsDigit(s[0]) then
      var m := LeadingDigits(s[1..]);
      assert s[..1 + m] == [s[0]] + s[1..][..m];
      1 + m
    else 0
  }

  /**
   * String#to_i on a string without sign or leading blanks: the value of its
   * leading decimal digits, 0 when it has none.
   */
  function ToI(s: string): (v: nat)
    ensures AllDigits(s) ==> v == DigitsValue(s)
  {
    var n := LeadingDigits(s);
    assert AllDigits(s) ==> n == |s| && s[..n] == s;
    DigitsValue(s[..n])
  }

  /** Reading back what Integer#to_s wrote gives the number again. */
  lemma {:induction false} DigitsValueOfNatToS(n: nat)
    ensures DigitsValue(NatToS(n)) == n
    decreases n
  {
    if n >= 10 {
      var s := NatToS(n);
      assert s[..|s| - 1] == NatToS(n / 10);
      DigitsValueOfNatToS(n / 10);
    }
  }

  /** Leading zeros do not change String#to_i. */
  lemma {:induction false} DigitsValueLeadingZero(s: string)
    requires AllDigits(s)
    ensures AllDigits("0" + s) && DigitsValue("0" + s) == DigitsValue(s)
    decreases |s|
  {
    if s != [] {
      var t := "0" + s;
      assert t[..|t| - 1] == "0" + s[..|s| - 1];
      DigitsValueLeadingZero(s[..|s| - 1]);
    }
  }

  /** Array#join: the parts with `sep` between consecutive ones. */
  function Join(parts: seq<string>, sep: string): string
  {
    if parts == [] then ""
    else if |parts| == 1 then parts[0]
    else Join(parts[..|parts| - 1], sep) + sep + parts[|parts| - 1]
  }

  /** Appending a part to a non-empty list appends the separator and that part to the join. */
  lemma JoinSnoc(parts: seq<string>, sep: string, p: string)
    requires parts != []
    ensures Join(parts + [p], sep) == Join(parts, sep) + sep + p
  {
    assert (parts + [p])[..|parts|] == parts;
  }

  /** The characters String#strip removes at either end: NUL and ASCII whitespace. */
  predicate IsStripped(c: char) {
    c == '\0' || c == '\t' || c == '\n' || c == '\U{000B}' || c == '\U{000C}' || c == '\r' || c == ' '
  }

  function LStrip(s: string): string
  {
    if s != [] && IsStripped(s[0]) then LStrip(s[1..]) else s
  }

  function RStrip(s: string): string
  {
    if s != [] && IsStripped(s[|s| - 1]) then RStrip(s[..|s| - 1]) else s
  }

  /** String#strip. */
  function Strip(s: string): string
  {
    RStrip(LStrip(s))
  }

  /** A string is blank when every character is one String#strip removes. */
  predicate Blank(s: string) {
    forall i :: 0 <= i < |s| ==> IsStripped(s[i])
  }

  lemma {:induction false} LStripBlank(s: string)
    ensures LStrip(s) == [] <==> Blank(s)
    ensures LStrip(s) != [] ==> !IsStripped(LStrip(s)[0])
    decreases |s|
  {
    if s != [] && IsStripped(s[0]) {
      LStripBlank(s[1..]);
      if Blank(s[1..]) {
        assert Blank(s) by {
          forall i | 0 <= i < |s| ensures IsStripped(s[i]) {
            if i > 0 { assert s[i] == s[1..][i - 1]; }
          }
        }
      }
      if Blank(s) {
        assert Blank(s[1..]) by {
          forall i | 0 <= i < |s[1..]| ensures IsStripped(s[1..][i]) {
            assert s[1..][i] == s[i + 1];
          }
        }
      }
    }
  }

  lemma {:induction false} RStripKeepsHead(s: string)
    requires s != [] && !IsStripped(s[0])
    ensures RStrip(s) != [] && RStrip(s)[0] == s[0]
    decreases |s|
  {
    if IsStripped(s[|s| - 1]) {
      RStripKeepsHead(s[..|s| - 1]);
    }
  }

  /** String#strip leaves nothing exactly when every character is NUL or ASCII whitespace. */
  lemma StripEmptyIffBlank(s: string)
    ensures Strip(s) == [] <==> Blank(s)
  {
    LStripBlank(s);
    if LStrip(s) != [] {
      RStripKeepsHead(LStrip(s));
    }
  }
}
