/** The 20-character account code: an 18-character base-36 body over the permuted
    (id, sub) pair, then two MOD 97-10 check digits. */
module AccountCode {
  import opened Wrappers
  import opened Domain
  import opened Decimal
  import opened Obfuscation

  // ---- Packing the two legs into 93 bits ----

  const SUBS: int := 0x4000_0000                                   // 2^30

  /** The legs the string form can carry. */
  predicate Encodable(a: AccountId) { 0 <= a.id && 0 <= a.sub < SUBS }

  /** The low 63 bits of `id` and the low 30 of `sub`. */
  function Reduced(a: AccountId): (r: AccountId)
    ensures Encodable(r) && (r == a <==> Encodable(a))
  {
    AccountId(a.id % 0x8000_0000_0000_0000, a.sub % 0x4000_0000)
  }

  function Pack(a: AccountId): (p: nat)
    ensures p < PACKED
  {
    a.id % 0x8000_0000_0000_0000 * 0x4000_0000 + a.sub % 0x4000_0000
  }

  function Unpack(p: nat): (a: AccountId)
    requires p < PACKED
    ensures Encodable(a) && Pack(a) == p
  {
    AccountId(p / 0x4000_0000, p % 0x4000_0000)
  }

  lemma UnpackPack(a: AccountId)
    ensures Unpack(Pack(a)) == Reduced(a)
  {
  }

  // ---- Base 36 ----

  predicate IsUpper(c: char) { 'A' <= c <= 'Z' }

  predicate IsBase36(c: char) { IsDigit(c) || IsUpper(c) }

  predicate AllBase36(s: string) { forall i :: 0 <= i < |s| ==> IsBase36(s[i]) }

  function Digit36(d: nat): (c: char)
    requires d < 36
    ensures IsBase36(c) && Value36(c) == d
  {
    if d < 10 then Digit(d) else 'A' + (d - 10) as char
  }

  function Value36(c: char): (d: nat)
    requires IsBase36(c)
    ensures d < 36 && (IsDigit(c) <==> d < 10)
  {
    if IsDigit(c) then DigitValue(c) else (c - 'A') as int + 10
  }

  lemma Value36Injective(c: char, d: char)
    requires IsBase36(c) && IsBase36(d) && Value36(c) == Value36(d)
    ensures c == d
  {
  }

  /** The number a base-36 string denotes. */
  function Radix(s: string): nat
    requires AllBase36(s)
  {
    if s == "" then 0 else 36 * Radix(s[..|s| - 1]) + Value36(s[|s| - 1])
  }

  /** The `k`-digit base-36 form of `v`, zero-padded on the left. */
  function Body(v: nat, k: nat): (s: string)
    ensures |s| == k && AllBase36(s)
  {
    if k == 0 then "" else Body(v / 36, k - 1) + [Digit36(v % 36)]
  }

  function Pow36(k: nat): (r: nat)
    ensures r >= 1
  {
    if k == 0 then 1 else 36 * Pow36(k - 1)
  }

  lemma {:induction false} RadixBody(v: nat, k: nat)
    requires v < Pow36(k)
    ensures Radix(Body(v, k)) == v
  {
    if k > 0 {
      assert Pow36(k) == 36 * Pow36(k - 1);
      BodyPush(v, k);
      hide Radix, Body, Pow36;
      HighDigits(v, Pow36(k - 1));
      RadixBody(v / 36, k - 1);
    }
  }

  lemma HighDigits(v: nat, p: nat)
    requires v < 36 * p
    ensures v / 36 < p && v == 36 * (v / 36) + v % 36
  {
  }

  lemma BodyPush(v: nat, k: nat)
    requires k > 0
    ensures Radix(Body(v, k)) == 36 * Radix(Body(v / 36, k - 1)) + v % 36
  {
    RadixPush(Body(v / 36, k - 1), Digit36(v % 36));
    assert Body(v, k) == Body(v / 36, k - 1) + [Digit36(v % 36)];
    hide Radix, Body;
  }

  lemma RadixPush(s: string, c: char)
    requires AllBase36(s) && IsBase36(c)
    ensures AllBase36(s + [c]) && Radix(s + [c]) == 36 * Radix(s) + Value36(c)
  {
    assert (s + [c])[..|s|] == s;
  }

  lemma {:induction false} BodyRadix(s: string)
    requires AllBase36(s)
    ensures Body(Radix(s), |s|) == s
  {
    if s != "" {
      var front, last := s[..|s| - 1], s[|s| - 1];
      BodyRadix(front);
      assert Radix(s) / 36 == Radix(front) && Radix(s) % 36 == Value36(last);
      Value36Injective(Digit36(Value36(last)), last);
      assert s == front + [last];
    }
  }

  lemma PackedFits()
    ensures PACKED <= Pow36(18)
  {
    assert Pow36(3) == 46656;
    assert Pow36(6) == 46656 * Pow36(3);
    assert Pow36(9) == 46656 * Pow36(6);
    assert Pow36(12) == 46656 * Pow36(9);
    assert Pow36(15) == 46656 * Pow36(12);
    assert Pow36(18) == 46656 * Pow36(15);
  }

  lemma {:induction false} BodyZero(k: nat)
    ensures forall j :: 0 <= j < k ==> Body(0, k)[j] == '0'
  {
    if k > 0 {
      BodyZero(k - 1);
    }
  }

  method Base36Body(value: nat) returns (s: string)
    requires value < PACKED
    ensures |s| == 18 && AllBase36(s) && Radix(s) == value
  {
    var out := new char[18](_ => '0');
    var i, v := 18, value;
    while v > 0 && i > 0
      invariant 0 <= i <= 18
      invariant forall j :: 0 <= j < i ==> out[j] == '0'
      invariant Body(v, i) + out[i..] == Body(value, 18)
    {
      i := i - 1;
      ghost var done := out[i + 1..];
      out[i] := Digit36(v % 36);
      assert out[i..] == [Digit36(v % 36)] + done;
      v := v / 36;
    }
    BodyZero(i);
    assert Body(v, i) == out[..i];
    assert out[..] == out[..i] + out[i..];
    s := out[..];
    PackedFits();
    RadixBody(value, 18);
  }

  // ---- MOD 97-10 ----

  function ExpandChar(c: char): (s: string)
    requires IsBase36(c)
    ensures AllDigits(s) && |s| == if IsDigit(c) then 1 else 2
  {
    if IsDigit(c) then [c]
    else
      var v := (c - 'A') as int + 10;
      assert Digits(v / 10) == [Digit(v / 10)];
      Digits(v)
  }

  function Expand(s: string): (r: string)
    requires AllBase36(s)
    ensures AllDigits(r)
  {
    if s == "" then "" else Expand(s[..|s| - 1]) + ExpandChar(s[|s| - 1])
  }

  /** The decimal number whose residue the check is about. */
  function Number(s: string): nat
    requires AllBase36(s)
  {
    Value(Expand(s))
  }

  method IbanExpand(s: string) returns (out: string)
    requires AllBase36(s)
    ensures AllDigits(out) && Value(out) == Number(s)
  {
    out := "";
    for i := 0 to |s|
      invariant out == Expand(s[..i])
    {
      assert s[..i + 1][..i] == s[..i];
      out := out + ExpandChar(s[i]);
    }
    assert s[..|s|] == s;
  }

  lemma ModStep(a: nat, d: nat)
    ensures (a % 97 * 10 + d) % 97 == (a * 10 + d) % 97
  {
    var q := a / 97;
    assert a * 10 + d == a % 97 * 10 + d + 97 * (10 * q);
    ModMultiple(a % 97 * 10 + d, 10 * q);
  }

  lemma ModMultiple(a: int, q: int)
    ensures (a + 97 * q) % 97 == a % 97
  {
    assert (a + 97 * q) - 97 * (a / 97 + q) == a % 97;
  }

  method Mod97(digits: string) returns (rem: nat)
    requires AllDigits(digits)
    ensures rem == Value(digits) % 97
  {
    rem := 0;
    for i := 0 to |digits|
      invariant rem == Value(digits[..i]) % 97
    {
      assert digits[..i + 1][..i] == digits[..i];
      ModStep(Value(digits[..i]), DigitValue(digits[i]));
      rem := (rem * 10 + DigitValue(digits[i])) % 97;
    }
    assert digits[..|digits|] == digits;
  }

  /** The decimal places a character takes in the expansion. */
  function Width(c: char): nat { if IsDigit(c) then 10 else 100 }

  function Weight(s: string): (w: nat)
    ensures w >= 1
  {
    if s == "" then 1 else Weight(s[..|s| - 1]) * Width(s[|s| - 1])
  }

  lemma NumberPush(s: string, c: char)
    requires AllBase36(s) && IsBase36(c)
    ensures Number(s + [c]) == Number(s) * Width(c) + Value36(c)
  {
    assert (s + [c])[..|s|] == s;
    ValueAppend(Expand(s), ExpandChar(c));
    assert Pow10(1) == 10 && Pow10(2) == 100;
    if IsDigit(c) {
      assert [c][..0] == "";
    } else {
      ValueDigits(Value36(c));
    }
  }

  lemma Regroup(a: int, w: int, b: int, k: int)
    ensures (a * w + b) * k == a * (w * k) + b * k
  {
    assert (a * w) * k == a * (w * k);
    assert (a * w + b) * k == a * w * k + b * k;
  }

  lemma WeightPush(s: string, c: char)
    ensures Weight(s + [c]) == Weight(s) * Width(c)
  {
    assert (s + [c])[..|s|] == s;
  }

  lemma NumberAppendPush(s: string, t: string, c: char)
    requires AllBase36(s) && AllBase36(t) && IsBase36(c)
    requires Number(s + t) == Number(s) * Weight(t) + Number(t)
    ensures Number(s + (t + [c])) == Number(s) * Weight(t + [c]) + Number(t + [c])
  {
    hide Number, Weight, Width, Value36;
    assert s + (t + [c]) == (s + t) + [c];
    NumberPush(s + t, c);
    NumberPush(t, c);
    WeightPush(t, c);
    Regroup(Number(s), Weight(t), Number(t), Width(c));
  }

  lemma NumberEmpty()
    ensures Number("") == 0 && Weight("") == 1
  {
  }

  lemma {:induction false} NumberAppend(s: string, t: string)
    requires AllBase36(s) && AllBase36(t)
    ensures Number(s + t) == Number(s) * Weight(t) + Number(t)
  {
    hide Number, Weight;
    if |t| == 0 {
      NumberEmpty();
      assert s + t == s && t == "";
    } else {
      var front, last := t[..|t| - 1], t[|t| - 1];
      NumberAppend(s, front);
      NumberAppendPush(s, front, last);
      assert t == front + [last];
    }
  }

  // ---- The check digits ----

  /** 98 minus the residue of the body followed by "00". */
  function Check(body: string): (d: nat)
    requires AllBase36(body)
    ensures 2 <= d <= 98
  {
    98 - Number(body) * 100 % 97
  }

  function TwoDigits(n: nat): (s: string)
    requires n < 100
    ensures |s| == 2 && AllDigits(s)
  {
    [Digit(n / 10), Digit(n % 10)]
  }

  /** The two check digits as a number. */
  function TwoValue(s: string): (n: nat)
    requires |s| == 2 && AllDigits(s)
    ensures n < 100 && TwoDigits(n) == s
  {
    10 * DigitValue(s[0]) + DigitValue(s[1])
  }

  lemma NumberOfCode(body: string, check: string)
    requires AllBase36(body) && |check| == 2 && AllDigits(check)
    ensures AllBase36(body + check)
    ensures Number(body + check) == Number(body) * 100 + TwoValue(check)
  {
    assert body + check == (body + [check[0]]) + [check[1]];
    NumberPush(body, check[0]);
    NumberPush(body + [check[0]], check[1]);
  }

  method CheckDigits(body: string) returns (d: nat)
    requires AllBase36(body)
    ensures d == Check(body)
  {
    NumberOfCode(body, "00");
    hide Number, Value, AllDigits;
    var digits := IbanExpand(body + "00");
    var rem := Mod97(digits);
    d := 98 - rem;
  }

  lemma PassingResidues(m: nat, n: nat)
    requires n < 100
    ensures (m + n) % 97 == 1 <==> m % 97 + n in {1, 98, 195}
  {
    ModMultiple(m % 97 + n, m / 97);
  }

  /** The check digits passing the checksum: `Check(body)` always, and otherwise only
      00 for 97, 01 for 98 and 99 for 02. */
  lemma PassingChecks(body: string, n: nat)
    requires AllBase36(body) && n < 100
    ensures (Number(body) * 100 + n) % 97 == 1 <==>
      n == Check(body) || (n, Check(body)) in {(0, 97), (1, 98), (99, 2)}
  {
    PassingResidues(Number(body) * 100, n);
  }

  // ---- The printed forms ----

  ghost function BodyOf(seed: u64, a: AccountId): (s: string)
    ensures |s| == 18 && AllBase36(s)
  {
    Body(Obfuscated(Keyed(seed), Pack(a)), 18)
  }

  ghost function Code(seed: u64, a: AccountId): (s: string)
    ensures |s| == 20
  {
    BodyOf(seed, a) + TwoDigits(Check(BodyOf(seed, a)))
  }

  method Display(seed: u64, a: AccountId) returns (s: string)
    ensures s == Code(seed, a)
  {
    var obfuscated := Obfuscate(Pack(a), seed);
    var body := Base36Body(obfuscated);
    BodyRadix(body);
    var check := CheckDigits(body);
    s := body + TwoDigits(check);
  }

  /** `s` in groups of four. */
  function Grouped(s: string, separator: char): string {
    if s == "" then ""
    else
      var n := |s| - 1;
      Grouped(s[..n], separator) + (if n > 0 && n % 4 == 0 then [separator] else "") + [s[n]]
  }

  method ToGrouped(seed: u64, a: AccountId) returns (out: string)
    ensures out == Grouped(Code(seed, a), ' ')
  {
    var machine := Display(seed, a);
    out := "";
    for i := 0 to |machine|
      invariant out == Grouped(machine[..i], ' ')
    {
      assert machine[..i + 1][..i] == machine[..i];
      if i > 0 && i % 4 == 0 {
        out := out + [' '];
      }
      out := out + [machine[i]];
    }
    assert machine[..|machine|] == machine;
  }

  // ---- Parsing ----

  datatype ParseAccountIdError = ParseAccountIdError

  predicate IsSeparator(c: char) { 9 <= c as int <= 13 || c == ' ' || c == '-' }

  function Upper(c: char): char { if 'a' <= c <= 'z' then c - 'a' + 'A' else c }

  /** Separators dropped, letters in upper case. */
  function Clean(s: string): string {
    if s == "" then ""
    else
      var c := s[|s| - 1];
      Clean(s[..|s| - 1]) + (if IsSeparator(c) then "" else [Upper(c)])
  }

  /** The cleaned strings that are codes. */
  predicate ValidCode(t: string) {
    && |t| == 20 && AllBase36(t[..18]) && AllDigits(t[18..]) && AllBase36(t)
    && Number(t) % 97 == 1
    && Radix(t[..18]) < PACKED
  }

  ghost function Parsed(seed: u64, text: string): Result<AccountId, ParseAccountIdError> {
    var t := Clean(text);
    if ValidCode(t) then Ok(Unpack(Deobfuscated(Keyed(seed), Radix(t[..18]))))
    else Err(ParseAccountIdError)
  }

  /** Decides validity and, for a valid code, finds the one encodable id with that body. */
  method FromStr(seed: u64, text: string) returns (r: Result<AccountId, ParseAccountIdError>)
    ensures r == Parsed(seed, text)
    ensures r.Ok? <==> ValidCode(Clean(text))
    ensures r.Ok? ==> Encodable(r.value) && BodyOf(seed, r.value) == Clean(text)[..18]
  {
    var cleaned := "";
    for i := 0 to |text|
      invariant cleaned == Clean(text[..i])
    {
      assert text[..i + 1][..i] == text[..i];
      if !IsSeparator(text[i]) {
        cleaned := cleaned + [Upper(text[i])];
      }
    }
    assert text[..|text|] == text;
    if |cleaned| != 20 {
      return Err(ParseAccountIdError);
    }
    var body, check := cleaned[..18], cleaned[18..];
    if !AllDigits(check) || !AllBase36(body) {
      return Err(ParseAccountIdError);
    }
    assert cleaned == body + check;
    var digits := IbanExpand(body + check);
    var rem := Mod97(digits);
    if rem != 1 {
      return Err(ParseAccountIdError);
    }
    var obfuscated := Radix(body);
    if obfuscated >= PACKED {
      return Err(ParseAccountIdError);
    }
    var packed := Deobfuscate(obfuscated, seed);
    ObfuscationIsBijective(Keyed(seed), obfuscated);
    BodyRadix(body);
    r := Ok(Unpack(packed));
  }
}
