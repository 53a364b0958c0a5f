/** Exactly which texts an amount parses from, and to what: a plain decimal, possibly with one
    minus sign in front, or one whose whole part carries a sign of its own
    (crates/kuatia-money/src/lib.rs). */
module AmountTheorems {
  import opened Wrappers
  import opened Domain
  import opened Decimal
  import opened Amount

  /** The sign the integer parser takes off the whole part. */
  datatype Sign = NoSign | Plus | Minus

  function Mark(sg: Sign): string {
    match sg
    case NoSign => ""
    case Plus => "+"
    case Minus => "-"
  }

  /** White space, the minus sign `parse` takes off, the whole part with its own sign, and the
      fraction behind a dot. */
  datatype Reading = Reading(before: string, negative: bool, sign: Sign, whole: string, dotted: bool, fraction: string, after: string)

  /** What is left after trimming and dropping one leading minus. */
  function Unsigned(r: Reading): string { Mark(r.sign) + Plain(r.whole, r.dotted, r.fraction) }

  function Spelled(r: Reading): string { r.before + Signed(r.negative, Unsigned(r)) + r.after }

  predicate AllSpace(s: string) { forall i :: 0 <= i < |s| ==> IsSpace(s[i]) }

  /** Digits where digits belong; a sign needs a whole part; and a minus sign can only be the
      second one, for the first is `negative`. */
  predicate WellFormed(decimals: nat, r: Reading) {
    && AllSpace(r.before) && AllSpace(r.after)
    && AllDigits(r.whole) && AllDigits(r.fraction) && |r.fraction| <= decimals
    && (r.dotted || r.fraction == "") && !(r.whole == "" && r.fraction == "")
    && (r.sign != NoSign ==> r.whole != "") && (r.sign == Minus ==> r.negative)
  }

  function WholeUnits(decimals: nat, r: Reading): nat
    requires AllDigits(r.whole)
  {
    Value(r.whole) * Pow10(decimals)
  }

  function FractionUnits(decimals: nat, r: Reading): nat
    requires AllDigits(r.fraction) && |r.fraction| <= decimals
  {
    Value(r.fraction) * Pow10(decimals - |r.fraction|)
  }

  /** The fraction always counts upwards, also behind a negative whole part. */
  function Unscaled(decimals: nat, r: Reading): int
    requires WellFormed(decimals, r)
  {
    FractionUnits(decimals, r) + if r.sign == Minus then -(WholeUnits(decimals, r) as int) else WholeUnits(decimals, r)
  }

  /** What the text denotes. */
  function Denoted(decimals: nat, r: Reading): int
    requires WellFormed(decimals, r)
  {
    if r.negative then -Unscaled(decimals, r) else Unscaled(decimals, r)
  }

  /** The scale, the scaled whole part and the result are all representable. */
  predicate Representable(decimals: nat, r: Reading)
    requires WellFormed(decimals, r)
  {
    && decimals <= 18
    && (if r.sign == Minus then WholeUnits(decimals, r) <= TWO63 else Fits(Unscaled(decimals, r)))
    && Fits(Denoted(decimals, r))
  }

  // ----- reading a well-formed text -----

  lemma SignedSplit(r: Reading, decimals: nat)
    requires WellFormed(decimals, r)
    ensures SplitDot(Unsigned(r)) == (Mark(r.sign) + r.whole, r.fraction)
  {
    SplitPlain(r.whole, r.fraction);
    if r.sign != NoSign {
      assert Unsigned(r)[1..] == Plain(r.whole, r.dotted, r.fraction);
      assert Mark(r.sign) + r.whole == [Unsigned(r)[0]] + r.whole;
    } else {
      assert Unsigned(r) == Plain(r.whole, r.dotted, r.fraction);
      assert Mark(r.sign) + r.whole == r.whole;
    }
  }

  lemma SignedInteger(sg: Sign, w: string)
    requires AllDigits(w) && w != ""
    ensures var v: int := if sg == Minus then -(Value(w) as int) else Value(w);
      ParseI64(Mark(sg) + w) == if Fits(v) then Some(v) else None
  {
    hide Value;
    var s := Mark(sg) + w;
    assert IsDigit(w[0]);
    if sg == NoSign {
      assert s == w;
    } else {
      assert s[1..] == w;
    }
  }

  /** Whole and fraction put together, with the multiplication and addition checked. */
  lemma ScaleSigned(decimals: u8, s: string, whole: i64, m: nat, frac: nat)
    requires decimals <= 18 && m == Pow10(decimals) && frac < m
    ensures Fits(frac)
    ensures whole >= 0 ==>
      Scale(decimals, s, whole, frac) == if Fits(whole * m + frac) then Ok(whole * m + frac) else Err(InvalidFormat(s))
    ensures whole <= 0 ==>
      Scale(decimals, s, whole, frac) == if Fits(whole * m) then Ok(whole * m + frac) else Err(InvalidFormat(s))
  {
    hide Pow10;
    TenPowFits(decimals);
    TenPowIs(decimals);
    SignOfProduct(whole, m);
  }

  lemma SignOfProduct(a: int, m: nat)
    ensures a >= 0 ==> a * m >= 0
    ensures a <= 0 ==> a * m <= 0
  {
  }

  lemma FractionBelow(decimals: nat, f: string)
    requires AllDigits(f) && |f| <= decimals
    ensures 0 <= Value(f) * Pow10(decimals - |f|) < Pow10(decimals)
  {
    hide Value, Pow10;
    PaddedFraction(decimals, f);
    SignOfProduct(Value(f), Pow10(decimals - |f|));
  }

  /** Beyond eighteen decimals nothing is read, whatever the fraction. */
  lemma TooFine(decimals: u8, s: string, whole: i64, f: string)
    requires decimals > 18 && AllDigits(f) && |f| <= decimals
    ensures ParseFraction(decimals, s, whole, f) == Err(InvalidFormat(s))
  {
    TenPowFits(decimals);
    hide ParseI64, TenPow;
  }

  /** The verdict on what is left after the first minus sign. */
  function Verdict(decimals: u8, r: Reading): Result<Cent, ParseAmountError>
    requires WellFormed(decimals, r)
  {
    var fits := decimals <= 18 && if r.sign == Minus then WholeUnits(decimals, r) <= TWO63 else Fits(Unscaled(decimals, r));
    if fits && Fits(Unscaled(decimals, r)) then Ok(Unscaled(decimals, r)) else Err(InvalidFormat(Unsigned(r)))
  }

  lemma ReadMinus(decimals: u8, r: Reading, s: string)
    requires WellFormed(decimals, r) && r.sign == Minus && Value(r.whole) <= TWO63 && s == Unsigned(r)
    ensures ParseFraction(decimals, s, -(Value(r.whole) as int), r.fraction) == Verdict(decimals, r)
  {
    hide Value, Pow10, ParseFraction, Scale, TenPow, Unsigned;
    var v, m := Value(r.whole), Pow10(decimals);
    FractionBelow(decimals, r.fraction);
    NegativeProduct(v, m);
    SignOfProduct(v, m);
    if decimals <= 18 {
      ScaleSigned(decimals, s, -(v as int), m, FractionUnits(decimals, r));
      FractionParsed(decimals, s, -(v as int), r.fraction);
    } else {
      TooFine(decimals, s, -(v as int), r.fraction);
    }
  }

  lemma ReadUpwards(decimals: u8, r: Reading, s: string)
    requires WellFormed(decimals, r) && r.sign != Minus && Value(r.whole) < TWO63 && s == Unsigned(r)
    ensures ParseFraction(decimals, s, Value(r.whole), r.fraction) == Verdict(decimals, r)
  {
    hide Value, Pow10, ParseFraction, Unsigned;
    FractionBelow(decimals, r.fraction);
    SignOfProduct(Value(r.whole), Pow10(decimals));
    FractionExact(decimals, s, r.whole, r.fraction);
  }

  lemma WholeAtLeast(decimals: nat, r: Reading)
    requires WellFormed(decimals, r)
    ensures WholeUnits(decimals, r) >= Value(r.whole) && FractionUnits(decimals, r) >= 0
  {
    hide Value, Pow10;
    ScaledUp(Value(r.whole), Pow10(decimals));
    FractionBelow(decimals, r.fraction);
  }

  lemma ReadUnsigned(decimals: u8, r: Reading)
    requires WellFormed(decimals, r)
    ensures ParseMagnitude(decimals, Unsigned(r)) == Verdict(decimals, r)
  {
    var s := Unsigned(r);
    SignedSplit(r, decimals);
    WholeAtLeast(decimals, r);
    ValueNone();
    hide Value, Pow10, ParseFraction, SplitDot, ParseI64, Unsigned, WholeUnits, FractionUnits;
    if r.whole != "" {
      SignedInteger(r.sign, r.whole);
    }
    if r.sign == Minus {
      if Value(r.whole) <= TWO63 { ReadMinus(decimals, r, s); }
    } else {
      if Value(r.whole) < TWO63 { ReadUpwards(decimals, r, s); }
    }
  }

  // ----- any well-formed text -----

  lemma SpelledEnds(decimals: nat, r: Reading)
    requires WellFormed(decimals, r)
    ensures var s := Unsigned(r);
      && s != "" && (s[0] == '-' <==> r.sign == Minus) && (s[0] in {'+', '-'} <==> r.sign != NoSign)
      && !IsSpace(s[0]) && !IsSpace(s[|s| - 1])
  {
    PlainEnds(r.whole, r.dotted, r.fraction);
    var p, s := Plain(r.whole, r.dotted, r.fraction), Unsigned(r);
    assert s[|s| - 1] == p[|p| - 1];
    if r.sign == NoSign { assert s == p; }
  }

  /** What the code checks piece by piece is representability. */
  lemma VerdictMeans(decimals: u8, r: Reading)
    requires WellFormed(decimals, r)
    ensures Representable(decimals, r) <==> Verdict(decimals, r).Ok? && Fits(Denoted(decimals, r))
    ensures Verdict(decimals, r).Ok? ==> Verdict(decimals, r).value == Unscaled(decimals, r)
    ensures Verdict(decimals, r).Err? ==> Verdict(decimals, r).error == InvalidFormat(Unsigned(r))
  {
    hide Value, Pow10, WholeUnits, FractionUnits, Unsigned;
    FractionFits(decimals, r);
  }

  lemma FractionFits(decimals: u8, r: Reading)
    requires WellFormed(decimals, r)
    ensures decimals <= 18 ==> 0 <= FractionUnits(decimals, r) < TWO63
  {
    hide Value, Pow10;
    FractionBelow(decimals, r.fraction);
    TenPowFits(decimals);
  }

  lemma ReadTrimmed(decimals: u8, r: Reading)
    requires WellFormed(decimals, r)
    ensures ParseTrimmed(decimals, Signed(r.negative, Unsigned(r))) ==
      if Representable(decimals, r) then Ok(Denoted(decimals, r)) else Err(InvalidFormat(Unsigned(r)))
  {
    hide Unsigned, ParseMagnitude, Unscaled, Verdict, Representable;
    var s := Unsigned(r);
    SpelledEnds(decimals, r);
    ReadUnsigned(decimals, r);
    VerdictMeans(decimals, r);
    if r.negative {
      assert ("-" + s)[1..] == s;
    }
  }

  /** A well-formed text is accepted exactly when it is representable, and then stands for
      what it denotes. */
  lemma ReadSpelled(decimals: u8, r: Reading)
    requires WellFormed(decimals, r)
    ensures Parse(decimals, Spelled(r)) == if Representable(decimals, r) then Ok(Denoted(decimals, r)) else Err(InvalidFormat(Unsigned(r)))
  {
    hide Unsigned, ParseTrimmed, Denoted, Representable;
    var s := Unsigned(r);
    var t := Signed(r.negative, s);
    SpelledEnds(decimals, r);
    assert t[|t| - 1] == s[|s| - 1];
    TrimPadded(r.before, t, r.after);
    ReadTrimmed(decimals, r);
  }

  // ----- any accepted text -----

  lemma {:induction false} TrimParts(text: string) returns (before: string, after: string)
    ensures AllSpace(before) && AllSpace(after) && text == before + Trim(text) + after
    decreases |text|
  {
    if text != "" && IsSpace(text[0]) {
      before, after := TrimParts(text[1..]);
      before := [text[0]] + before;
    } else if text != "" && IsSpace(text[|text| - 1]) {
      before, after := TrimParts(text[..|text| - 1]);
      after := after + [text[|text| - 1]];
    } else {
      before, after := "", "";
    }
  }

  lemma {:induction false} SplitParts(s: string) returns (dotted: bool)
    ensures var (w, f) := SplitDot(s); s == Plain(w, dotted, f) && (dotted || f == "")
  {
    if s == "" {
      dotted := false;
    } else if s[0] == '.' {
      dotted := true;
      assert s == "" + "." + s[1..];
    } else {
      dotted := SplitParts(s[1..]);
      var (w, f) := SplitDot(s[1..]);
      assert s == [s[0]] + s[1..];
      assert Plain([s[0]] + w, dotted, f) == [s[0]] + Plain(w, dotted, f);
    }
  }

  lemma IntegerParts(s: string) returns (sg: Sign, w: string)
    requires ParseI64(s).Some?
    ensures s == Mark(sg) + w && w != "" && AllDigits(w)
  {
    sg := if s[0] == '-' then Minus else if s[0] == '+' then Plus else NoSign;
    w := if sg == NoSign then s else s[1..];
    assert sg != NoSign ==> s == [s[0]] + s[1..];
  }

  lemma FractionParts(decimals: u8, s: string, whole: i64, f: string)
    requires ParseFraction(decimals, s, whole, f).Ok?
    ensures |f| <= decimals && AllDigits(f)
  {
    hide Scale, ParseI64;
  }

  /** Whatever is left after the first minus sign, if it is accepted, is a signed whole part
      and a fraction. */
  lemma UnsignedParts(decimals: u8, s: string) returns (sg: Sign, w: string, dotted: bool, f: string)
    requires ParseMagnitude(decimals, s).Ok?
    ensures s == Mark(sg) + Plain(w, dotted, f)
    ensures AllDigits(w) && AllDigits(f) && |f| <= decimals && (dotted || f == "") && !(w == "" && f == "") && (sg != NoSign ==> w != "")
  {
    hide ParseFraction, ParseI64;
    var (w0, f0) := SplitDot(s);
    dotted := SplitParts(s);
    f := f0;
    if w0 == "" {
      sg, w := NoSign, "";
      FractionParts(decimals, s, 0, f);
    } else {
      sg, w := IntegerParts(w0);
      FractionParts(decimals, s, ParseI64(w0).value, f);
    }
    assert Plain(Mark(sg) + w, dotted, f) == Mark(sg) + Plain(w, dotted, f);
  }

  lemma AcceptedText(decimals: u8, text: string) returns (r: Reading)
    requires Parse(decimals, text).Ok?
    ensures WellFormed(decimals, r) && Spelled(r) == text
  {
    hide ParseMagnitude;
    var t := Trim(text);
    var before, after := TrimParts(text);
    var negative := t != "" && t[0] == '-';
    var s := if negative then t[1..] else t;
    assert t == Signed(negative, s);
    var sg, w, dotted, f := UnsignedParts(decimals, s);
    r := Reading(before, negative, sg, w, dotted, f, after);
    hide AllDigits, Plain;
    assert Unsigned(r) == s;
  }

  /** The texts an amount parses from are exactly the spellings of a representable reading,
      and each parses to what it denotes.  Without a sign of its own on the whole part that is
      a plain decimal with at most one minus sign in front; a plus sign there changes nothing;
      a minus sign there (necessarily the second) turns the whole part but not the fraction. */
  lemma AcceptsExactly(decimals: u8, text: string)
    ensures Parse(decimals, text).Ok? <==> exists r :: WellFormed(decimals, r) && Representable(decimals, r) && Spelled(r) == text
    ensures forall r :: WellFormed(decimals, r) && Representable(decimals, r) && Spelled(r) == text ==>
      Parse(decimals, text) == Ok(Denoted(decimals, r))
  {
    hide Parse, WellFormed, Representable, Spelled, Denoted, Unsigned;
    if Parse(decimals, text).Ok? {
      var r := AcceptedText(decimals, text);
      ReadSpelled(decimals, r);
      assert WellFormed(decimals, r) && Representable(decimals, r) && Spelled(r) == text;
    }
    forall r | WellFormed(decimals, r) && Representable(decimals, r) && Spelled(r) == text
      ensures Parse(decimals, text) == Ok(Denoted(decimals, r))
    {
      ReadSpelled(decimals, r);
    }
  }

  /** An accepted text that, trimmed and with one leading minus dropped, begins with neither
      sign is a plain decimal; beginning with a sign is exactly what the other readings do. */
  lemma PlainUnlessSigned(decimals: u8, r: Reading)
    requires WellFormed(decimals, r)
    ensures r.sign == NoSign <==> !(Unsigned(r)[..1] == "+" || Unsigned(r)[..1] == "-")
    ensures r.sign == NoSign ==> Unsigned(r) == Plain(r.whole, r.dotted, r.fraction)
    ensures r.sign == NoSign ==>
      && (r.negative ==> Denoted(decimals, r) == -(Exact(decimals, r.whole, r.fraction) as int))
      && (!r.negative ==> Denoted(decimals, r) == Exact(decimals, r.whole, r.fraction))
    ensures r.sign == Plus ==> Denoted(decimals, r) == Denoted(decimals, r.(sign := NoSign))
    ensures r.sign == Minus ==> r.negative && Denoted(decimals, r) == WholeUnits(decimals, r) - FractionUnits(decimals, r)
  {
    SpelledEnds(decimals, r);
    DenotedBySign(decimals, r);
    hide Denoted, Exact, WholeUnits, FractionUnits, AllDigits, Plain;
    var s := Unsigned(r);
    assert s[..1] == [s[0]];
    if r.sign == NoSign {
      assert s == Plain(r.whole, r.dotted, r.fraction);
    }
  }

  lemma DenotedBySign(decimals: u8, r: Reading)
    requires WellFormed(decimals, r)
    ensures r.sign == NoSign ==>
      && (r.negative ==> Denoted(decimals, r) == -(Exact(decimals, r.whole, r.fraction) as int))
      && (!r.negative ==> Denoted(decimals, r) == Exact(decimals, r.whole, r.fraction))
    ensures r.sign == Plus ==> Denoted(decimals, r) == Denoted(decimals, r.(sign := NoSign))
    ensures r.sign == Minus ==> r.negative && Denoted(decimals, r) == WholeUnits(decimals, r) - FractionUnits(decimals, r)
  {
    hide Value, Pow10, AllDigits;
  }

  /** In particular a second minus sign is accepted, and the fraction then counts against the
      whole part. */
  lemma SecondSignAccepted(decimals: u8, w: string, dotted: bool, f: string)
    requires AllDigits(w) && w != "" && AllDigits(f) && (dotted || f == "") && |f| <= decimals <= 18
    requires Exact(decimals, w, f) < TWO63
    ensures Parse(decimals, "-" + ("-" + Plain(w, dotted, f))) ==
      Ok(Value(w) * Pow10(decimals) - Value(f) * Pow10(decimals - |f|))
  {
    hide Value, Pow10, Parse;
    var r := Reading("", true, Minus, w, dotted, f, "");
    WholeAtLeast(decimals, r);
    ReadSpelled(decimals, r);
    assert Spelled(r) == "-" + ("-" + Plain(w, dotted, f));
  }

  /** White space is tab, line feed, vertical tab, form feed, carriage return and space. */
  lemma WhiteSpace(c: char)
    ensures IsSpace(c) <==> c in ['\t', '\n', '\U{00000B}', '\U{00000C}', '\r', ' ']
  {
  }
}
