/**
 * The decimal numbers the transcript parsers read with `str::parse::<f64>`, kept exact in
 * thousandths: one or more digits with an optional '.' and fraction, where the first three
 * fraction digits are kept and the rest truncated.
 */
module Decimal {
  import opened Wrappers
  import opened Text

  /** The first three fraction digits, right-padded with zeros: the thousandths of the field. */
  function FracMilli(frac: string): (r: nat)
    requires AllDigits(frac)
    ensures r < 1000
  {
    if |frac| >= 3 then
      assert AllDigits(frac[..3]) by { assert forall i :: 0 <= i < 3 ==> frac[..3][i] == frac[i]; }
      DigitsValueBound(frac[..3]);
      assert Pow10(3) == 1000;
      DigitsValue(frac[..3])
    else
      DigitsValueBound(frac);
      assert Pow10(2) == 100 && Pow10(1) == 10;
      if |frac| == 2 then 10 * DigitsValue(frac)
      else if |frac| == 1 then 100 * DigitsValue(frac)
      else 0
  }

  /** The value of a field split at its dot into whole and fraction digits; None when malformed. */
  function ParseParts(whole: string, frac: string): (r: Option<nat>)
    ensures r.Some? <==> AllDigits(whole) && AllDigits(frac) && |whole| + |frac| > 0
  {
    if AllDigits(whole) && AllDigits(frac) && |whole| + |frac| > 0
    then Some(DigitsValue(whole) * 1000 + FracMilli(frac))
    else None
  }

  /** One decimal field ("12", "02.965", ".5", "5.") in thousandths of its unit; None when malformed. */
  function ParseDecimalMilli(s: string): (r: Option<nat>)
  {
    match IndexOf(s, '.')
    case Some(k) => ParseParts(s[..k], s[k + 1..])
    case None => ParseParts(s, "")
  }

  lemma NoDotInDigits(s: string)
    requires AllDigits(s)
    ensures '.' !in s && ':' !in s && ',' !in s && '-' !in s && !IsWhitespace('.')
  {
    forall i | 0 <= i < |s| ensures s[i] != '.' && s[i] != ':' && s[i] != ',' && s[i] != '-' {
      assert IsAsciiDigit(s[i]);
    }
  }

  lemma ParseWholeField(s: string)
    requires AllDigits(s) && |s| > 0
    ensures ParseDecimalMilli(s) == Some(DigitsValue(s) * 1000)
  {
    NoDotInDigits(s);
    assert IndexOf(s, '.') == None;
    assert FracMilli("") == 0;
  }

  lemma FracMilliOfThree(frac: string)
    requires AllDigits(frac) && |frac| == 3
    ensures FracMilli(frac) == DigitsValue(frac)
  {
    assert frac[..3] == frac;
  }

  lemma ParseDecimalAt(s: string, k: nat)
    requires IndexOf(s, '.') == Some(k)
    requires AllDigits(s[..k]) && AllDigits(s[k + 1..]) && k > 0 && |s| == k + 4
    ensures ParseDecimalMilli(s) == Some(DigitsValue(s[..k]) * 1000 + DigitsValue(s[k + 1..]))
  {
    assert ParseDecimalMilli(s) == ParseParts(s[..k], s[k + 1..]);
    FracMilliOfThree(s[k + 1..]);
  }

  /** A field with its first dot after `whole` is read as the parts around that dot. */
  lemma ParseDotted(whole: string, frac: string)
    requires '.' !in whole
    ensures ParseDecimalMilli(whole + (['.'] + frac)) == ParseParts(whole, frac)
  {
    var s := whole + (['.'] + frac);
    IndexOfAfter(whole, '.', frac);
    assert s[..|whole|] == whole;
    assert s[|whole| + 1..] == frac;
  }

  lemma PartsOfThree(whole: string, frac: string)
    requires AllDigits(whole) && AllDigits(frac) && |frac| == 3
    ensures ParseParts(whole, frac) == Some(DigitsValue(whole) * 1000 + DigitsValue(frac))
  {
    FracMilliOfThree(frac);
  }

  lemma ParseFractionField(whole: string, frac: string)
    requires AllDigits(whole) && AllDigits(frac) && |whole| > 0 && |frac| == 3
    ensures ParseDecimalMilli(whole + (['.'] + frac)) == Some(DigitsValue(whole) * 1000 + DigitsValue(frac))
  {
    NoDotInDigits(whole);
    ParseDotted(whole, frac);
    PartsOfThree(whole, frac);
  }

  /** A digit field whose value is `v` reads as `v` whole units. */
  lemma ParseWholeValue(s: string, v: nat)
    requires AllDigits(s) && |s| > 0 && DigitsValue(s) == v
    ensures ParseDecimalMilli(s) == Some(v * 1000)
  {
    ParseWholeField(s);
  }

  /** Whole digits worth `w`, a dot and three digits worth `f` read as `w` units and `f` thousandths. */
  lemma ParseFractionValue(whole: string, frac: string, w: nat, f: nat)
    requires AllDigits(whole) && AllDigits(frac) && |whole| > 0 && |frac| == 3
    requires DigitsValue(whole) == w && DigitsValue(frac) == f
    ensures ParseDecimalMilli(whole + (['.'] + frac)) == Some(w * 1000 + f)
  {
    ParseFractionField(whole, frac);
  }

  /** A value rendered right-aligned in `width` zero-padded digits reads back as itself. */
  lemma PaddedValue(n: nat, width: nat)
    requires width >= 1 && n < Pow10(width)
    ensures var t := PadDigits(NatToString(n), width);
      AllDigits(t) && |t| == width && DigitsValue(t) == n
  {
    NatToStringShort(n, width);
    PadDigitsValue(NatToString(n), width);
    NatToStringRoundTrip(n);
  }
}
