/** Decimal amounts: parsing text into minor units and formatting them back, under the
    64-bit backing (crates/kuatia-money/src/lib.rs). */
module Amount {
  import opened Wrappers
  import opened Domain
  import opened Decimal

  datatype ParseAmountError =
    | InvalidFormat(text: string)
    | TooManyDecimals(max: u8, found: nat)

  /** `10i64.checked_pow`. */
  function TenPow(k: nat): Option<i64> {
    if Fits(Pow10(k)) then Some(Pow10(k)) else None
  }

  /** `str::parse::<i64>`: an optional sign, then at least one digit, in range. */
  function ParseI64(s: string): Option<i64> {
    var negative := s != "" && s[0] == '-';
    var digits := if s != "" && (s[0] == '-' || s[0] == '+') then s[1..] else s;
    if digits == "" || !AllDigits(digits) then None
    else
      var v: int := if negative then -(Value(digits) as int) else Value(digits);
      if Fits(v) then Some(v) else None
  }

  predicate IsSpace(c: char) { 9 <= c as int <= 13 || c == ' ' }

  function Trim(s: string): string
    decreases |s|
  {
    if s != "" && IsSpace(s[0]) then Trim(s[1..])
    else if s != "" && IsSpace(s[|s| - 1]) then Trim(s[..|s| - 1])
    else s
  }

  /** `split_once('.')`, with an empty second part when there is no dot. */
  function SplitDot(s: string): (string, string) {
    if s == "" then ("", "")
    else if s[0] == '.' then ("", s[1..])
    else
      var (w, f) := SplitDot(s[1..]);
      ([s[0]] + w, f)
  }

  function PadRight(s: string, width: nat): string {
    s + Zeros(if |s| < width then width - |s| else 0)
  }

  function PadLeft(s: string, width: nat): string {
    Zeros(if |s| < width then width - |s| else 0) + s
  }

  /** The scaled magnitude; the caller applies the sign it stripped. */
  function Scale(decimals: u8, s: string, whole: i64, frac: i64): Result<Cent, ParseAmountError> {
    match TenPow(decimals)
    case None => Err(InvalidFormat(s))
    case Some(m) =>
      if Fits(whole * m) && Fits(whole * m + frac) then Ok(whole * m + frac) else Err(InvalidFormat(s))
  }

  function ParseFraction(decimals: u8, s: string, whole: i64, fraction: string): Result<Cent, ParseAmountError> {
    if |fraction| > decimals then Err(TooManyDecimals(decimals, |fraction|))
    else if fraction != "" && !AllDigits(fraction) then Err(InvalidFormat(s))
    else if fraction == "" then Scale(decimals, s, whole, 0)
    else
      match ParseI64(PadRight(fraction, decimals))
      case None => Err(InvalidFormat(s))
      case Some(frac) => Scale(decimals, s, whole, frac)
  }

  function ParseMagnitude(decimals: u8, s: string): Result<Cent, ParseAmountError> {
    var (w, f) := SplitDot(s);
    if w == "" && f == "" then Err(InvalidFormat(s))
    else if w == "" then ParseFraction(decimals, s, 0, f)
    else
      match ParseI64(w)
      case None => Err(InvalidFormat(s))
      case Some(whole) => ParseFraction(decimals, s, whole, f)
  }

  function Negated(s: string, v: Cent): Result<Cent, ParseAmountError> {
    var n: int := -(v as int);
    if Fits(n) then Ok(n) else Err(InvalidFormat(s))
  }

  function ParseTrimmed(decimals: u8, t: string): Result<Cent, ParseAmountError> {
    if t != "" && t[0] == '-' then
      match ParseMagnitude(decimals, t[1..])
      case Err(e) => Err(e)
      case Ok(v) => Negated(t[1..], v)
    else ParseMagnitude(decimals, t)
  }

  function Parse(decimals: u8, text: string): Result<Cent, ParseAmountError> {
    ParseTrimmed(decimals, Trim(text))
  }

  function Magnitude(c: Cent): nat { if c < 0 then -(c as int) else c }

  /** `div_rem_abs`: whole and fractional part of a magnitude. */
  function Divided(a: nat, m: nat): (r: (nat, nat))
    requires m >= 1
    ensures a == r.0 * m + r.1 && r.1 < m
  {
    (a / m, a % m)
  }

  function Format(decimals: u8, c: Cent): string {
    if decimals == 0 || TenPow(decimals).None? then IntString(c)
    else
      var (whole, frac) := Divided(Magnitude(c), Pow10(decimals));
      (if c < 0 then "-" else "") + (Digits(whole) + "." + PadLeft(Digits(frac), decimals))
  }

  // ----- powers of ten -----

  lemma {:induction false} Pow10Grows(j: nat, k: nat)
    requires j <= k
    ensures Pow10(j) <= Pow10(k)
  {
    if j < k {
      Pow10Grows(j, k - 1);
    }
  }

  /** Eighteen decimals is the most a 64-bit backing can scale by. */
  lemma TenPowFits(k: nat)
    ensures TenPow(k).Some? <==> k <= 18
  {
    assert Pow10(6) == 1_000_000;
    assert Pow10(12) == 1_000_000 * Pow10(6);
    assert Pow10(18) == 1_000_000 * Pow10(12);
    assert Pow10(19) == 10 * Pow10(18);
    if k <= 18 {
      Pow10Grows(k, 18);
    } else {
      Pow10Grows(19, k);
    }
  }

  // ----- digit strings -----

  lemma {:induction false} ValueBound(s: string)
    requires AllDigits(s)
    ensures Value(s) < Pow10(|s|)
  {
    if s != "" {
      ValueBound(s[..|s| - 1]);
    }
  }

  function Zeros(n: nat): (s: string)
    ensures |s| == n && AllDigits(s)
  {
    seq(n, _ => '0')
  }

  lemma {:induction false} ZerosValue(n: nat)
    ensures Value(Zeros(n)) == 0
  {
    if n > 0 {
      ZerosValue(n - 1);
      ValuePush(Zeros(n - 1), '0');
      assert Zeros(n) == Zeros(n - 1) + ['0'];
    }
  }

  lemma {:induction false} DigitsShort(n: nat, k: nat)
    requires n < Pow10(k) && k >= 1
    ensures |Digits(n)| <= k
  {
    if n >= 10 {
      DigitsShort(n / 10, k - 1);
    }
  }

  lemma ParsePlainInteger(s: string)
    requires s != "" && AllDigits(s)
    ensures ParseI64(s) == if Value(s) < TWO63 then Some(Value(s)) else None
  {
    assert IsDigit(s[0]);
  }

  lemma {:induction false} SplitPlain(w: string, f: string)
    requires AllDigits(w)
    ensures SplitDot(w + "." + f) == (w, f) && SplitDot(w) == (w, "")
  {
    if w != "" {
      assert IsDigit(w[0]);
      assert (w + "." + f)[1..] == w[1..] + "." + f;
      SplitPlain(w[1..], f);
      assert w == [w[0]] + w[1..];
    }
  }

  // ----- parsing plain decimals -----

  /** What a plain decimal denotes in minor units. */
  function Exact(decimals: nat, w: string, f: string): nat
    requires AllDigits(w) && AllDigits(f) && |f| <= decimals
  {
    Value(w) * Pow10(decimals) + Value(f) * Pow10(decimals - |f|)
  }

  lemma PaddedFraction(decimals: nat, f: string)
    requires AllDigits(f) && |f| <= decimals
    ensures AllDigits(PadRight(f, decimals)) && Value(PadRight(f, decimals)) == Value(f) * Pow10(decimals - |f|)
    ensures Value(f) * Pow10(decimals - |f|) < Pow10(decimals)
  {
    var zeros := Zeros(decimals - |f|);
    ValueAppend(f, zeros);
    ZerosValue(decimals - |f|);
    ValueBound(f + zeros);
  }

  /** The fraction's turn, for a whole part already parsed. */
  lemma FractionExact(decimals: u8, s: string, w: string, f: string)
    requires AllDigits(w) && AllDigits(f) && |f| <= decimals && Value(w) < TWO63
    ensures ParseFraction(decimals, s, Value(w), f) ==
      if decimals <= 18 && Exact(decimals, w, f) < TWO63 then Ok(Exact(decimals, w, f)) else Err(InvalidFormat(s))
  {
    hide Value, Pow10;
    TenPowFits(decimals);
    PaddedFraction(decimals, f);
    if f == "" {
      ValueNone();
    } else {
      ParsePlainInteger(PadRight(f, decimals));
    }
  }

  /** A plain decimal: digits, then a fraction if `dotted`. */
  function Plain(w: string, dotted: bool, f: string): string { if dotted then w + "." + f else w }

  lemma MagnitudeExact(decimals: u8, w: string, dotted: bool, f: string)
    requires AllDigits(w) && AllDigits(f) && |f| <= decimals && (dotted || f == "") && !(w == "" && f == "")
    ensures var s := Plain(w, dotted, f);
      ParseMagnitude(decimals, s) ==
      if decimals <= 18 && Exact(decimals, w, f) < TWO63 then Ok(Exact(decimals, w, f)) else Err(InvalidFormat(s))
  {
    hide Value, Pow10, ParseFraction, SplitDot, ParseI64, Exact;
    var s := Plain(w, dotted, f);
    SplitPlain(w, f);
    ValueNone();
    ExactAtLeast(decimals, w, f);
    if w != "" {
      ParsePlainInteger(w);
    }
    if Value(w) < TWO63 {
      FractionExact(decimals, s, w, f);
    }
  }

  lemma ExactAtLeast(decimals: nat, w: string, f: string)
    requires AllDigits(w) && AllDigits(f) && |f| <= decimals
    ensures Exact(decimals, w, f) >= Value(w)
  {
    hide Value, Pow10;
    ScaledUp(Value(w), Pow10(decimals));
    ScaledUp(Value(f), Pow10(decimals - |f|));
  }

  lemma ScaledUp(a: nat, m: nat)
    requires m >= 1
    ensures a * m >= a
  {
  }

  lemma {:induction false} TrimPadded(before: string, t: string, after: string)
    requires (forall i :: 0 <= i < |before| ==> IsSpace(before[i])) && (forall i :: 0 <= i < |after| ==> IsSpace(after[i]))
    requires t != "" && !IsSpace(t[0]) && !IsSpace(t[|t| - 1])
    ensures Trim(before + t + after) == t
    decreases |before| + |after|
  {
    var s := before + t + after;
    if before != "" {
      assert s[1..] == before[1..] + t + after;
      TrimPadded(before[1..], t, after);
    } else if after != "" {
      assert s[0] == t[0];
      assert s[..|s| - 1] == before + t + after[..|after| - 1];
      TrimPadded(before, t, after[..|after| - 1]);
    } else {
      assert s == t;
    }
  }

  function Signed(negative: bool, s: string): string { if negative then "-" + s else s }

  /** Parsing a plain decimal, with or without white space around it, gives its exact
      scaled value, or an error exactly when the scale or the magnitude does not fit. */
  lemma ParseExact(decimals: u8, negative: bool, w: string, dotted: bool, f: string, before: string, after: string)
    requires AllDigits(w) && AllDigits(f) && |f| <= decimals && (dotted || f == "") && !(w == "" && f == "")
    requires (forall i :: 0 <= i < |before| ==> IsSpace(before[i])) && (forall i :: 0 <= i < |after| ==> IsSpace(after[i]))
    ensures var exact, s := Exact(decimals, w, f), Plain(w, dotted, f);
      Parse(decimals, before + Signed(negative, s) + after) ==
      if decimals <= 18 && exact < TWO63 then Ok(if negative then -(exact as int) else exact) else Err(InvalidFormat(s))
  {
    var s := Plain(w, dotted, f);
    var t := Signed(negative, s);
    PlainEnds(w, dotted, f);
    assert negative ==> t[1..] == s && t[0] == '-' && t[|t| - 1] == s[|s| - 1];
    hide Exact, Plain, ParseMagnitude;
    TrimPadded(before, t, after);
    MagnitudeExact(decimals, w, dotted, f);
  }

  lemma PlainEnds(w: string, dotted: bool, f: string)
    requires AllDigits(w) && AllDigits(f) && (dotted || f == "") && !(w == "" && f == "")
    ensures var s := Plain(w, dotted, f);
      s != "" && (IsDigit(s[0]) || s[0] == '.') && (IsDigit(s[|s| - 1]) || s[|s| - 1] == '.')
  {
  }

  // ----- formatting, then parsing -----

  lemma PaddedDigits(frac: nat, width: nat)
    requires width >= 1 && frac < Pow10(width)
    ensures var f := PadLeft(Digits(frac), width); AllDigits(f) && |f| == width && Value(f) == frac
  {
    hide Digits, Value, Pow10;
    var d := Digits(frac);
    DigitsShort(frac, width);
    ValueDigits(frac);
    ValueAppend(Zeros(width - |d|), d);
    ZerosValue(width - |d|);
  }

  lemma FormatIsPlain(decimals: u8, c: Cent) returns (w: string, f: string)
    ensures AllDigits(w) && w != "" && AllDigits(f)
    ensures var dotted := 1 <= decimals <= 18;
      && |f| == (if dotted then decimals else 0)
      && Format(decimals, c) == Signed(c < 0, Plain(w, dotted, f))
      && (decimals <= 18 ==> Exact(decimals, w, f) == Magnitude(c))
  {
    TenPowFits(decimals);
    if 1 <= decimals <= 18 {
      var (whole, frac) := Divided(Magnitude(c), Pow10(decimals));
      hide Pow10, Value;
      w, f := Digits(whole), PadLeft(Digits(frac), decimals);
      ValueDigits(whole);
      PaddedDigits(frac, decimals);
      ValueNone();
    } else {
      w, f := Digits(Magnitude(c)), "";
      ValueDigits(Magnitude(c));
    }
  }

  /** A formatted amount parses back to itself exactly when the scale is at most eighteen
      decimals and the amount is not the minimum. */
  lemma FormatRoundTrips(decimals: u8, c: Cent)
    ensures Parse(decimals, Format(decimals, c)) == Ok(c) <==> decimals <= 18 && c != -TWO63
  {
    hide Exact, Format, Parse, Plain;
    var w, f := FormatIsPlain(decimals, c);
    var dotted := 1 <= decimals <= 18;
    ParseExact(decimals, c < 0, w, dotted, f, "", "");
    assert "" + Format(decimals, c) + "" == Format(decimals, c);
  }

  lemma NegativeProduct(a: int, m: int)
    ensures (-a) * m == -(a * m)
  {
  }

  lemma TenPowIs(k: nat)
    requires TenPow(k).Some?
    ensures TenPow(k).value == Pow10(k)
  {
  }

  /** Past its checks, a fraction that fits contributes its padded value. */
  lemma FractionParsed(decimals: u8, s: string, whole: i64, f: string)
    requires AllDigits(f) && |f| <= decimals && Value(f) * Pow10(decimals - |f|) < TWO63
    ensures 0 <= Value(f) * Pow10(decimals - |f|)
    ensures ParseFraction(decimals, s, whole, f) == Scale(decimals, s, whole, Value(f) * Pow10(decimals - |f|))
  {
    hide Value, Pow10, Scale;
    PaddedFraction(decimals, f);
    if f == "" {
      ValueNone();
    } else {
      ParsePlainInteger(PadRight(f, decimals));
    }
  }
}
