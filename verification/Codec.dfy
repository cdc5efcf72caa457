/** The text forms: execution times such as "123ms" and the HH:MM:SS countdown. */
module Codec {
  import opened Tables

  // ---- Decimal numbers: what a text says, independently of how it is read ----

  predicate IsDigit(c: char) {
    '0' <= c <= '9'
  }

  predicate AllDigits(text: string) {
    forall i | 0 <= i < |text| :: IsDigit(text[i])
  }

  function DigitValue(c: char): nat
    requires IsDigit(c)
  {
    (c - '0') as nat
  }

  function NatOf(digits: string): nat
    requires AllDigits(digits)
  {
    if digits == "" then 0 else NatOf(digits[..|digits| - 1]) * 10 + DigitValue(digits[|digits| - 1])
  }

  predicate SpellsNat(text: string, n: nat) {
    text != "" && AllDigits(text) && NatOf(text) == n
  }

  /** `text` is a decimal numeral for v: digits after an optional sign, leading zeros allowed. */
  predicate Spells(text: string, v: int) {
    || (v >= 0 && SpellsNat(text, v))
    || (v >= 0 && "+" <= text && SpellsNat(text[1..], v))
    || (v <= 0 && "-" <= text && SpellsNat(text[1..], -v))
  }

  // ---- Reading: strconv.ParseInt in base 10 ----

  /** What the digit loop holds after `text`: it stops at a character that is no digit and as soon as it passes max. */
  function ScanUint(text: string, max: nat): Option<nat> {
    if text == "" then Some(0) else
      match ScanUint(text[..|text| - 1], max)
      case None => None
      case Some(n) =>
        var c := text[|text| - 1];
        if !IsDigit(c) then None
        else if n * 10 + DigitValue(c) > max then None
        else Some(n * 10 + DigitValue(c))
  }

  /** cutoff is 2^31 for 32-bit and 2^63 for 64-bit numbers. */
  function ParseInt(text: string, cutoff: int): Option<int>
    requires cutoff > 0
  {
    if text == "" then None else
      var neg := text[0] == '-';
      var body := if text[0] in "+-" then text[1..] else text;
      if body == "" then None else
        match ScanUint(body, 2 * cutoff - 1)
        case None => None
        case Some(un) =>
          if !neg && un >= cutoff then None
          else if neg && un > cutoff then None
          else Some(if neg then 0 - un else un)
  }

  lemma {:induction false} ScanUintMeaning(text: string, max: nat)
    ensures forall n :: ScanUint(text, max) == Some(n) <==> AllDigits(text) && NatOf(text) == n <= max
  {
    if text != "" {
      var shorter := text[..|text| - 1];
      ScanUintMeaning(shorter, max);
      assert AllDigits(text) <==> AllDigits(shorter) && IsDigit(text[|text| - 1]);
      if AllDigits(text) && NatOf(text) <= max {
        assert ScanUint(shorter, max) == Some(NatOf(shorter));
      }
      if ScanUint(shorter, max).Some? {
        assert ScanUint(shorter, max) == Some(NatOf(shorter));
      }
    }
  }

  /** ParseInt yields v exactly when the text is a decimal numeral for v and v is in range. */
  lemma ParseIntMeaning(text: string, cutoff: int, v: int)
    requires cutoff > 0
    ensures ParseInt(text, cutoff) == Some(v) <==> Spells(text, v) && -cutoff <= v < cutoff
  {
    if text != "" {
      var body := if text[0] in "+-" then text[1..] else text;
      ScanUintMeaning(body, 2 * cutoff - 1);
      assert text[0] !in "+-" || !AllDigits(text) by {
        if text[0] in "+-" { assert !IsDigit(text[0]); }
      }
      if ScanUint(body, 2 * cutoff - 1).Some? {
        assert ScanUint(body, 2 * cutoff - 1) == Some(NatOf(body));
      }
      if Spells(text, v) && -cutoff <= v < cutoff {
        assert SpellsNat(body, if v < 0 then -v else v);
        assert ScanUint(body, 2 * cutoff - 1) == Some(NatOf(body));
      }
    }
  }

  // ---- Writing: strconv.FormatInt in base 10 ----

  function Digit(n: nat): (c: char)
    requires n < 10
    ensures IsDigit(c) && DigitValue(c) == n
  {
    '0' + n as char
  }

  function FormatNat(n: nat): string {
    if n < 10 then [Digit(n)] else FormatNat(n / 10) + [Digit(n % 10)]
  }

  function FormatInt(v: int): string {
    if v < 0 then "-" + FormatNat(-v) else FormatNat(v)
  }

  lemma {:induction false} FormatNatSpells(n: nat)
    ensures SpellsNat(FormatNat(n), n)
  {
    var text := FormatNat(n);
    if n >= 10 {
      FormatNatSpells(n / 10);
      assert text[..|text| - 1] == FormatNat(n / 10);
    } else {
      assert text[..|text| - 1] == "";
    }
  }

  lemma FormatIntSpells(v: int)
    ensures Spells(FormatInt(v), v)
  {
    if v < 0 {
      FormatNatSpells(-v);
      assert FormatInt(v)[1..] == FormatNat(-v);
    } else {
      FormatNatSpells(v);
    }
  }

  // ---- Execution times ----

  function DropMs(text: string): string {
    if |text| >= 2 && text[|text| - 2..] == "ms" then text[..|text| - 2] else text
  }

  function ParseExecutionTime(text: string): Option<int> {
    if text == "" then None else ParseInt(DropMs(text), 0x8000_0000)
  }

  function FormatExecutionTime(time: Option<int>): string {
    match time
    case None => ""
    case Some(v) => FormatInt(v) + "ms"
  }

  /** Reading back what was written gives the same value, for null and for every 32-bit value. */
  lemma ExecutionTimeRoundTrip(time: Option<int>)
    requires time.Some? ==> InInt32(time.value)
    ensures ParseExecutionTime(FormatExecutionTime(time)) == time
  {
    if time.Some? {
      var text := FormatExecutionTime(time);
      assert text[|text| - 2..] == "ms" && DropMs(text) == FormatInt(time.value);
      FormatIntSpells(time.value);
      ParseIntMeaning(FormatInt(time.value), 0x8000_0000, time.value);
    }
  }

  /** A text that does not end in "ms" yields v exactly when it is a decimal numeral for a 32-bit v, and one with "ms"
      appended to it exactly what such a numeral in front of the "ms" yields, also when that ends in "ms" itself; where
      there is no such v the result is null. */
  lemma ExecutionTimeMeaning(text: string)
    ensures forall v :: ParseExecutionTime(text + "ms") == Some(v) <==> Spells(text, v) && InInt32(v)
    ensures (forall t: string :: text != t + "ms") ==>
              forall v :: ParseExecutionTime(text) == Some(v) <==> Spells(text, v) && InInt32(v)
  {
    assert DropMs(text + "ms") == text;
    if |text| >= 2 && text[|text| - 2..] == "ms" {
      assert text == text[..|text| - 2] + "ms";
    }
    forall v {
      ParseIntMeaning(text, 0x8000_0000, v);
    }
  }

  /** Every text is of one of the two kinds: the result is null exactly when neither form of it spells a 32-bit v. */
  lemma ExecutionTimeNull(text: string)
    ensures ParseExecutionTime(text) == None
            <==> forall v, t: string | InInt32(v) && Spells(t, v) :: text != t && text != t + "ms"
  {
    var body := DropMs(text);
    ExecutionTimeMeaning(body);
    ExecutionTimeMeaning(text);
  }

  // ---- The countdown ----

  /** "%02d" of a non-negative number. */
  function Pad2(n: nat): string {
    if n < 10 then "0" + FormatNat(n) else FormatNat(n)
  }

  function FormatDuration(totalSeconds: nat): string {
    var hours := totalSeconds / 3600;
    var minutes := totalSeconds % 3600 / 60;
    var seconds := totalSeconds % 60;
    Pad2(hours) + ":" + Pad2(minutes) + ":" + Pad2(seconds)
  }

  lemma Pad2Spells(n: nat)
    ensures SpellsNat(Pad2(n), n) && |Pad2(n)| >= 2 && (n < 100 ==> |Pad2(n)| == 2)
  {
    FormatNatSpells(n);
    if n < 10 {
      assert Pad2(n)[..1] == "0" && NatOf("0") == 0;
    } else {
      assert FormatNat(n / 10) != "" by { FormatNatSpells(n / 10); }
    }
  }

  /** A reader for HH:MM:SS: minutes and seconds in two digits and below 60, hours in two digits or more. */
  function ReadDuration(text: string): Option<nat> {
    var n := |text|;
    if n < 8 || text[n - 6] != ':' || text[n - 3] != ':' then None else
      var hh, mm, ss := text[..n - 6], text[n - 5..n - 3], text[n - 2..];
      if !AllDigits(hh) || !AllDigits(mm) || !AllDigits(ss) then None
      else if NatOf(mm) >= 60 || NatOf(ss) >= 60 then None
      else Some(NatOf(hh) * 3600 + NatOf(mm) * 60 + NatOf(ss))
  }

  /** The countdown text reads back as the number of seconds it was made from, however many hours. */
  lemma DurationRoundTrip(totalSeconds: nat)
    ensures ReadDuration(FormatDuration(totalSeconds)) == Some(totalSeconds)
  {
    var h, m, s := totalSeconds / 3600, totalSeconds % 3600 / 60, totalSeconds % 60;
    Pad2Spells(h);
    Pad2Spells(m);
    Pad2Spells(s);
    var text := FormatDuration(totalSeconds);
    var n := |text|;
    assert text[..n - 6] == Pad2(h) && text[n - 5..n - 3] == Pad2(m) && text[n - 2..] == Pad2(s);
    assert totalSeconds == h * 3600 + m * 60 + s;
  }

  /** The text determines the number of seconds. */
  lemma DurationInjective(a: nat, b: nat)
    requires FormatDuration(a) == FormatDuration(b)
    ensures a == b
  {
    DurationRoundTrip(a);
    DurationRoundTrip(b);
  }
}
