/** The score label of GameScene.swift: "Destroyed Tie Fighters: " followed by
    Swift's `String(tieDestroyed)`, the decimal form of a non-negative count.
    `ParseLabel` reads a count back, and the round-trip lemmas show that the
    text determines the count and the count the text. */
module LabelText {

  datatype Option<T> = None | Some(value: T)

  const Prefix: string := "Destroyed Tie Fighters: "

  predicate IsDigit(c: char) {
    '0' <= c <= '9'
  }

  predicate AllDigits(s: string) {
    forall i :: 0 <= i < |s| ==> IsDigit(s[i])
  }

  /** A decimal numeral as `String(Int)` writes one for n >= 0: at least one
      digit, and no leading zero unless the numeral is "0" itself. */
  predicate IsNumeral(s: string) {
    |s| > 0 && AllDigits(s) && (s[0] == '0' ==> |s| == 1)
  }

  function DigitChar(d: nat): (c: char)
    requires d < 10
    ensures IsDigit(c) && c as int - '0' as int == d
  {
    ('0' as int + d) as char
  }

  function DigitValue(c: char): (d: nat)
    requires IsDigit(c)
    ensures d < 10 && DigitChar(d) == c
  {
    c as int - '0' as int
  }

  /** `String(n)` for a non-negative Int. */
  function NatToString(n: nat): (s: string)
    ensures IsNumeral(s)
    ensures s[0] == '0' <==> n == 0
    decreases n
  {
    if n < 10 then [DigitChar(n)] else NatToString(n / 10) + [DigitChar(n % 10)]
  }

  /** The value of a string of decimal digits, most significant first. */
  function ParseNat(s: string): (n: nat)
    requires AllDigits(s)
  {
    if s == [] then 0 else 10 * ParseNat(s[..|s| - 1]) + DigitValue(s[|s| - 1])
  }

  /** The label text after `tieDestroyed` has been set to n. */
  function Label(n: nat): (t: string)
    ensures |t| > |Prefix| && t[..|Prefix|] == Prefix
    ensures IsNumeral(t[|Prefix|..])
  {
    var t := Prefix + NatToString(n);
    assert t[|Prefix|..] == NatToString(n);
    t
  }

  /** The count a label shows, if the text has the label's shape. */
  function ParseLabel(t: string): (o: Option<nat>)
  {
    if |t| > |Prefix| && t[..|Prefix|] == Prefix && IsNumeral(t[|Prefix|..])
    then Some(ParseNat(t[|Prefix|..]))
    else None
  }

  /** Reading back a formatted count gives the count. */
  lemma {:induction false} ParseNatToString(n: nat)
    ensures ParseNat(NatToString(n)) == n
    decreases n
  {
    var s := NatToString(n);
    if n < 10 {
      assert s[..0] == [];
    } else {
      ParseNatToString(n / 10);
      assert s[..|s| - 1] == NatToString(n / 10);
    }
  }

  /** A numeral other than "0" has a positive value. */
  lemma {:induction false} ParseNatPositive(s: string)
    requires |s| > 0 && AllDigits(s) && s[0] != '0'
    ensures ParseNat(s) > 0
    decreases |s|
  {
    if |s| > 1 {
      ParseNatPositive(s[..|s| - 1]);
    } else {
      assert s[..0] == [];
    }
  }

  /** Formatting the value of a numeral gives the numeral back. */
  lemma {:induction false} NatToStringParse(s: string)
    requires IsNumeral(s)
    ensures NatToString(ParseNat(s)) == s
    decreases |s|
  {
    var p := s[..|s| - 1];
    if |s| == 1 {
      assert p == [];
    } else {
      ParseNatPositive(p);
      NatToStringParse(p);
      assert s == p + [s[|s| - 1]];
    }
  }

  /** The label shows the count it was made from. */
  lemma LabelRoundTrip(n: nat)
    ensures ParseLabel(Label(n)) == Some(n)
  {
    assert Label(n)[|Prefix|..] == NatToString(n);
    ParseNatToString(n);
  }

  /** Every text ParseLabel accepts is the label of the count it reads. */
  lemma ParseLabelExact(t: string, n: nat)
    requires ParseLabel(t) == Some(n)
    ensures Label(n) == t
  {
    NatToStringParse(t[|Prefix|..]);
    assert t == t[..|Prefix|] + t[|Prefix|..];
  }

  /** Different counts give different labels. */
  lemma LabelInjective(m: nat, n: nat)
    requires Label(m) == Label(n)
    ensures m == n
  {
    LabelRoundTrip(m);
    LabelRoundTrip(n);
  }

  /** The label `startGame` writes. */
  lemma LabelZero()
    ensures Label(0) == "Destroyed Tie Fighters: 0"
  {
  }
}
