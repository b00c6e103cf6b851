/**
 * The small part of the host's dice notation that roll formulas of this
 * system use: `<count>d<faces>` optionally followed by a keep-highest (`kh`)
 * or keep-lowest (`kl`) modifier with an optional number of dice to keep.
 * An omitted count or keep number means 1.
 *
 * Printing a number into a formula string and reading it back are modelled
 * here, so that what a formula string asks for can be stated and proved.
 */
module DiceNotation {
  import opened Fields

  datatype Keep = KeepAll | KeepHighest(n: nat) | KeepLowest(n: nat)

  datatype DiceRoll = DiceRoll(count: nat, faces: nat, keep: Keep)

  predicate IsDigit(c: char)
  {
    '0' <= c <= '9'
  }

  predicate AllDigits(s: string)
  {
    forall i | 0 <= i < |s| :: IsDigit(s[i])
  }

  function DigitChar(d: nat): (c: char)
    requires d < 10
    ensures IsDigit(c)
  {
    (48 + d) as char
  }

  function DigitValue(c: char): nat
    requires IsDigit(c)
  {
    c as int - 48
  }

  /** A natural number written in decimal, as string interpolation writes an
      integral number. */
  function Decimal(n: nat): (s: string)
    ensures |s| >= 1 && AllDigits(s)
    ensures n > 0 ==> s[0] != '0'
  {
    if n < 10 then [DigitChar(n)] else Decimal(n / 10) + [DigitChar(n % 10)]
  }

  /** The number a string of decimal digits denotes. */
  function DigitsValue(s: string): nat
    requires AllDigits(s)
  {
    if s == [] then 0 else DigitsValue(s[..|s| - 1]) * 10 + DigitValue(s[|s| - 1])
  }

  /** The length of the run of digits that starts the string. */
  function LeadingDigits(s: string): (k: nat)
    ensures k <= |s|
    ensures forall i | 0 <= i < k :: IsDigit(s[i])
    ensures k < |s| ==> !IsDigit(s[k])
  {
    if s != [] && IsDigit(s[0]) then 1 + LeadingDigits(s[1..]) else 0
  }

  /** Reads the leading digits as a number, or `absent` when there are none,
      and returns what follows them. */
  function ReadNumber(s: string, absent: nat): (nat, string)
  {
    var k := LeadingDigits(s);
    (if k == 0 then absent else DigitsValue(s[..k]), s[k..])
  }

  /** Reads a keep modifier with its optional count, which must end the formula. */
  function ParseKeep(s: string): Option<Keep>
  {
    if s == [] then Some(KeepAll)
    else if |s| < 2 || s[0] != 'k' || (s[1] != 'h' && s[1] != 'l') then None
    else
      var (n, rest) := ReadNumber(s[2..], 1);
      if rest != [] then None
      else if s[1] == 'h' then Some(KeepHighest(n))
      else Some(KeepLowest(n))
  }

  /** Reads leading digits that must be present. */
  function ReadRequiredNumber(s: string): Option<(nat, string)>
  {
    if LeadingDigits(s) == 0 then None else Some(ReadNumber(s, 0))
  }

  /** What a formula string asks the dice roller for, or None when it is not
      of the form `[count]d<faces>[kh[n]|kl[n]]`. */
  function ParseRoll(s: string): Option<DiceRoll>
  {
    var (count, afterCount) := ReadNumber(s, 1);
    if afterCount == [] || afterCount[0] != 'd' then None
    else
      match ReadRequiredNumber(afterCount[1..])
      case None => None
      case Some((faces, afterFaces)) =>
        match ParseKeep(afterFaces)
        case None => None
        case Some(keep) => Some(DiceRoll(count, faces, keep))
  }

  // ------------------------------------------------------------------
  // Printing and reading back
  // ------------------------------------------------------------------

  lemma {:induction false} DecimalValue(n: nat)
    ensures DigitsValue(Decimal(n)) == n
  {
    if n >= 10 {
      var s := Decimal(n);
      var prefix := Decimal(n / 10);
      assert s[..|s| - 1] == prefix;
      DecimalValue(n / 10);
    }
  }

  lemma {:induction false} LeadingDigitsOfRun(ds: string, rest: string)
    requires AllDigits(ds)
    requires rest == [] || !IsDigit(rest[0])
    ensures LeadingDigits(ds + rest) == |ds|
  {
    if ds != [] {
      assert (ds + rest)[1..] == ds[1..] + rest;
      LeadingDigitsOfRun(ds[1..], rest);
    }
  }

  /** Reading back a printed number gives the number and leaves what follows
      it, provided what follows does not start with a digit. */
  lemma ReadDecimal(n: nat, rest: string, absent: nat)
    requires rest == [] || !IsDigit(rest[0])
    ensures ReadNumber(Decimal(n) + rest, absent) == (n, rest)
  {
    var ds := Decimal(n);
    LeadingDigitsOfRun(ds, rest);
    assert (ds + rest)[..|ds|] == ds;
    assert (ds + rest)[|ds|..] == rest;
    DecimalValue(n);
  }

  lemma ReadRequiredDecimal(n: nat, rest: string)
    requires rest == [] || !IsDigit(rest[0])
    ensures ReadRequiredNumber(Decimal(n) + rest) == Some((n, rest))
  {
    LeadingDigitsOfRun(Decimal(n), rest);
    ReadDecimal(n, rest, 0);
  }

  /** The formula `<n>d<faces>` followed by a keep modifier reads back as that roll. */
  lemma ParseFormatted(n: nat, faces: nat, keepText: string, keep: Keep)
    requires ParseKeep(keepText) == Some(keep)
    requires keepText == [] || !IsDigit(keepText[0])
    ensures ParseRoll(Decimal(n) + "d" + Decimal(faces) + keepText) == Some(DiceRoll(n, faces, keep))
  {
    var afterD := Decimal(faces) + keepText;
    var tail := "d" + afterD;
    assert Decimal(n) + "d" + Decimal(faces) + keepText == Decimal(n) + tail;
    ReadDecimal(n, tail, 1);
    assert tail[1..] == afterD;
    ReadRequiredDecimal(faces, keepText);
  }
}
