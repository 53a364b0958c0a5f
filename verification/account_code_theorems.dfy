/** What the account code promises: every printed form parses back, every accepted form
    prints back, and the check digits catch single-character slips. */
module AccountCodeTheorems {
  import opened Wrappers
  import opened Domain
  import opened Decimal
  import opened Obfuscation
  import opened AccountCode

  // ---- Printing, then parsing ----

  lemma CodeIsValid(seed: u64, a: AccountId)
    ensures ValidCode(Code(seed, a))
    ensures Code(seed, a)[..18] == BodyOf(seed, a)
    ensures Radix(BodyOf(seed, a)) == Obfuscated(Keyed(seed), Pack(a))
  {
    hide Number;
    var body := BodyOf(seed, a);
    var check := TwoDigits(Check(body));
    NumberOfCode(body, check);
    PassingChecks(body, Check(body));
    PackedFits();
    RadixBody(Obfuscated(Keyed(seed), Pack(a)), 18);
    assert Code(seed, a)[..18] == body && Code(seed, a)[18..] == check;
  }

  /** Any text that cleans to the code of `a` parses to the low bits of `a`, hence to `a`
      itself exactly when `a` is encodable. */
  lemma ParsesBack(seed: u64, a: AccountId, text: string)
    requires Clean(text) == Code(seed, a)
    ensures Parsed(seed, text) == Ok(Reduced(a))
    ensures Parsed(seed, text) == Ok(a) <==> Encodable(a)
  {
    CodeIsValid(seed, a);
    ObfuscationIsBijective(Keyed(seed), Pack(a));
    UnpackPack(a);
  }

  lemma {:induction false} CleanAppend(s: string, t: string)
    ensures Clean(s + t) == Clean(s) + Clean(t)
  {
    if t == "" {
      assert s + t == s;
    } else {
      CleanAppend(s, t[..|t| - 1]);
      assert (s + t)[..|s + t| - 1] == s + t[..|t| - 1];
    }
  }

  lemma {:induction false} CleanCode(s: string)
    requires AllBase36(s)
    ensures Clean(s) == s
  {
    if s != "" {
      CleanCode(s[..|s| - 1]);
      assert IsBase36(s[|s| - 1]);
      assert s == s[..|s| - 1] + [s[|s| - 1]];
    }
  }

  lemma CleanSeparator(c: char)
    requires IsSeparator(c)
    ensures Clean([c]) == "" && Clean("") == ""
  {
    assert [c][..0] == "";
  }

  function Gap(n: nat, separator: char): string { if n > 0 && n % 4 == 0 then [separator] else "" }

  lemma GroupedStep(s: string, separator: char)
    requires s != ""
    ensures Grouped(s, separator) == Grouped(s[..|s| - 1], separator) + Gap(|s| - 1, separator) + [s[|s| - 1]]
  {
  }

  lemma CleanGap(n: nat, separator: char)
    requires IsSeparator(separator)
    ensures Clean(Gap(n, separator)) == ""
  {
    CleanSeparator(separator);
  }

  lemma {:induction false} CleanGrouped(s: string, separator: char)
    requires IsSeparator(separator)
    ensures Clean(Grouped(s, separator)) == Clean(s)
  {
    hide Clean, IsSeparator, Grouped, Gap;
    if |s| == 0 {
      NothingGrouped(s, separator);
    } else {
      var n := |s| - 1;
      CleanGrouped(s[..n], separator);
      CleanGap(n, separator);
      GroupedStep(s, separator);
      CleanAppend(Grouped(s[..n], separator) + Gap(n, separator), [s[n]]);
      CleanAppend(Grouped(s[..n], separator), Gap(n, separator));
      CleanAppend(s[..n], [s[n]]);
      assert s == s[..n] + [s[n]];
    }
  }

  lemma NothingGrouped(s: string, separator: char)
    requires |s| == 0
    ensures Grouped(s, separator) == s
  {
  }

  /** Grouping puts a separator after every fourth character but the last, and keeps the
      characters in order. */
  lemma {:induction false} GroupedAt(s: string, separator: char, i: nat)
    requires i < |s|
    ensures |Grouped(s, separator)| == |s| + (|s| - 1) / 4
    ensures Grouped(s, separator)[i + i / 4] == s[i]
    ensures i > 0 && i % 4 == 0 ==> Grouped(s, separator)[i + i / 4 - 1] == separator
  {
    var n := |s| - 1;
    if n > 0 {
      GroupedAt(s[..n], separator, if i < n then i else 0);
    }
  }

  function Lower(c: char): char { if IsUpper(c) then c - 'A' + 'a' else c }

  function Lowered(s: string): string {
    seq(|s|, i requires 0 <= i < |s| => Lower(s[i]))
  }

  lemma {:induction false} CleanLowered(s: string)
    ensures Clean(Lowered(s)) == Clean(s)
  {
    if s != "" {
      CleanLowered(s[..|s| - 1]);
      assert Lowered(s)[..|s| - 1] == Lowered(s[..|s| - 1]);
    }
  }

  /** The machine, grouped, dashed and lower-cased forms of an encodable id all parse
      to it. */
  lemma PrintedFormsParse(seed: u64, a: AccountId, separator: char)
    requires Encodable(a) && IsSeparator(separator)
    ensures var code := Code(seed, a);
      forall text :: text in {code, Grouped(code, separator), Lowered(code), Lowered(Grouped(code, separator))}
        ==> Parsed(seed, text) == Ok(a)
  {
    var code := Code(seed, a);
    CodeIsValid(seed, a);
    CleanCode(code);
    CleanGrouped(code, separator);
    CleanLowered(code);
    CleanLowered(Grouped(code, separator));
    forall text | text in {code, Grouped(code, separator), Lowered(code), Lowered(Grouped(code, separator))}
      ensures Parsed(seed, text) == Ok(a)
    {
      ParsesBack(seed, a, text);
    }
  }

  // ---- Parsing, then printing ----

  /** The check digits 00, 01 and 99 are accepted aliases of 97, 98 and 02. */
  function Normalised(t: string): string
    requires |t| == 20
  {
    var check := t[18..];
    t[..18] + if check == "00" then "97" else if check == "01" then "98" else if check == "99" then "02" else check
  }

  lemma NormalisedCheck(t: string)
    requires ValidCode(t)
    ensures Normalised(t) == t[..18] + TwoDigits(Check(t[..18]))
  {
    hide Number;
    var body, check := t[..18], t[18..];
    assert t == body + check;
    NumberOfCode(body, check);
    PassingChecks(body, TwoValue(check));
    assert TwoDigits(0) == "00" && TwoDigits(1) == "01" && TwoDigits(99) == "99";
    assert TwoDigits(97) == "97" && TwoDigits(98) == "98" && TwoDigits(2) == "02";
  }

  /** An accepted text prints back as its cleaned form, up to the three aliases. */
  lemma PrintsBack(seed: u64, text: string)
    requires Parsed(seed, text).Ok?
    ensures Code(seed, Parsed(seed, text).value) == Normalised(Clean(text))
    ensures Encodable(Parsed(seed, text).value)
  {
    var t := Clean(text);
    var q := Radix(t[..18]);
    ObfuscationIsBijective(Keyed(seed), q);
    BodyRadix(t[..18]);
    NormalisedCheck(t);
  }

  /** Two accepted texts name the same account exactly when their normal forms agree. */
  lemma NormalFormsIdentify(seed: u64, x: string, y: string)
    requires Parsed(seed, x).Ok? && Parsed(seed, y).Ok?
    ensures Parsed(seed, x) == Parsed(seed, y) <==> Normalised(Clean(x)) == Normalised(Clean(y))
  {
    PrintsBack(seed, x);
    PrintsBack(seed, y);
    if Normalised(Clean(x)) == Normalised(Clean(y)) {
      assert Clean(x)[..18] == Normalised(Clean(x))[..18];
      assert Clean(y)[..18] == Normalised(Clean(y))[..18];
    }
  }

  // ---- Error detection ----

  /** 10 is invertible modulo 97: 680 x = 7 * 97 x + x. */
  lemma CancelTen(x: int)
    requires x * 10 % 97 == 0
    ensures x % 97 == 0
  {
    var m := x * 10 / 97;
    assert x == 97 * (68 * m - 7 * x);
  }

  lemma {:induction false} CancelWeight(x: int, s: string)
    requires x * Weight(s) % 97 == 0
    ensures x % 97 == 0
  {
    if s != "" {
      var w, k := Weight(s[..|s| - 1]), Width(s[|s| - 1]);
      assert x * (w * k) == x * w * k;
      if k == 100 {
        CancelTen(x * w * 10);
      }
      CancelTen(x * w);
      CancelWeight(x, s[..|s| - 1]);
    }
  }

  lemma Congruent(a: int, b: int)
    ensures a % 97 == b % 97 <==> (a - b) % 97 == 0
  {
    AccountCode.ModMultiple(a % 97 - b % 97, a / 97 - b / 97);
    assert a - b == a % 97 - b % 97 + 97 * (a / 97 - b / 97);
  }

  lemma MultipleOfZero(x: int, w: int)
    requires x % 97 == 0
    ensures x * w % 97 == 0
  {
    AccountCode.ModMultiple(0, x / 97 * w);
    assert x * w == 97 * (x / 97 * w);
  }

  lemma MiddleDifference(p: string, m: string, m': string, q: string)
    requires AllBase36(p) && AllBase36(m) && AllBase36(m') && AllBase36(q) && Weight(m) == Weight(m')
    ensures Number(p + m + q) - Number(p + m' + q) == (Number(m) - Number(m')) * Weight(q)
  {
    hide Number, Weight;
    NumberAppend(p + m, q);
    NumberAppend(p + m', q);
    NumberAppend(p, m);
    NumberAppend(p, m');
    Difference(Number(p + m), Number(p + m'), Weight(q));
  }

  /** Replacing a stretch by another of the same expanded width keeps the residue exactly
      when the two stretches have equal residues. */
  lemma MiddleDecides(p: string, m: string, m': string, q: string)
    requires AllBase36(p) && AllBase36(m) && AllBase36(m') && AllBase36(q) && Weight(m) == Weight(m')
    ensures Number(p + m + q) % 97 == Number(p + m' + q) % 97 <==> Number(m) % 97 == Number(m') % 97
  {
    hide Number, Weight;
    var w, d := Weight(q), Number(m) - Number(m');
    MiddleDifference(p, m, m', q);
    Congruent(Number(p + m + q), Number(p + m' + q));
    Congruent(Number(m), Number(m'));
    if d % 97 == 0 {
      MultipleOfZero(d, w);
    } else if d * w % 97 == 0 {
      CancelWeight(d, q);
    }
  }

  lemma Difference(a: int, b: int, w: int)
    ensures a * w - b * w == (a - b) * w
  {
  }

  lemma NumberOne(c: char)
    requires IsBase36(c)
    ensures Number([c]) == Value36(c) && Weight([c]) == Width(c)
  {
    assert Number("") == 0 && Weight("") == 1;
    NumberPush("", c);
    WeightPush("", c);
    hide Number, Weight;
    assert "" + [c] == [c];
  }

  lemma NumberTwo(x: char, y: char)
    requires IsBase36(x) && IsBase36(y)
    ensures Number([x, y]) == Value36(x) * Width(y) + Value36(y)
    ensures Weight([x, y]) == Width(x) * Width(y)
  {
    NumberOne(x);
    NumberPush([x], y);
    WeightPush([x], y);
    assert [x] + [y] == [x, y];
  }

  lemma SubstitutionResidue(t: string, i: nat, c: char)
    requires AllBase36(t) && i < |t| && IsBase36(c) && c != t[i] && IsDigit(c) == IsDigit(t[i])
    ensures AllBase36(t[i := c]) && Number(t[i := c]) % 97 != Number(t) % 97
  {
    hide Number, Weight;
    assert t == t[..i] + [t[i]] + t[i + 1..];
    assert t[i := c] == t[..i] + [c] + t[i + 1..];
    NumberOne(t[i]);
    NumberOne(c);
    MiddleDecides(t[..i], [t[i]], [c], t[i + 1..]);
    assert Value36(c) != Value36(t[i]);
  }

  /** One digit mistyped as another digit, or one letter as another letter, anywhere in an
      accepted code, is always rejected. */
  lemma SubstitutionRejected(seed: u64, text: string, i: nat, c: char, mistyped: string)
    requires Parsed(seed, text).Ok? && i < 20
    requires IsBase36(c) && c != Clean(text)[i] && IsDigit(c) == IsDigit(Clean(text)[i])
    requires Clean(mistyped) == Clean(text)[i := c]
    ensures Parsed(seed, mistyped) == Err(ParseAccountIdError)
  {
    hide Number, Radix, Clean;
    SubstitutionResidue(Clean(text), i, c);
  }

  /** The pairs a digit and a letter whose expansions commute: 1/B, 2/M and 3/X. */
  predicate Commuting(x: char, y: char) {
    (x, y) in {('1', 'B'), ('2', 'M'), ('3', 'X'), ('B', '1'), ('M', '2'), ('X', '3')}
  }

  lemma CommutingValues(x: char, y: char)
    requires IsBase36(x) && IsBase36(y)
    ensures Commuting(x, y) <==>
      (Value36(x), Value36(y)) in {(1, 11), (2, 22), (3, 33), (11, 1), (22, 2), (33, 3)}
  {
  }

  /** 9 and 99 are invertible modulo 97 too, so they cancel on small differences. */
  lemma CancelSmall(k: int)
    requires -97 < k < 97
    ensures 9 * k % 97 == 0 <==> k == 0
    ensures 99 * k % 97 == 0 <==> k == 0
  {
    if 9 * k % 97 == 0 {
      var m := 9 * k / 97;
      assert k == 97 * (54 * m - 5 * k);
    }
    if 99 * k % 97 == 0 {
      var m := 99 * k / 97;
      assert k == 97 * (49 * m - 50 * k);
    }
  }

  lemma SwapValues(a: nat, b: nat)
    requires a < 36 && b < 36 && a != b
    ensures var wa, wb := if a < 10 then 10 else 100, if b < 10 then 10 else 100;
      (a * wb + b) % 97 == (b * wa + a) % 97 <==>
      (a, b) in {(1, 11), (2, 22), (3, 33), (11, 1), (22, 2), (33, 3)}
  {
    if a < 10 && b >= 10 {
      Congruent(a * 100 + b, b * 10 + a);
      CancelSmall(11 * a - b);
    } else if b < 10 && a >= 10 {
      Congruent(a * 10 + b, b * 100 + a);
      CancelSmall(a - 11 * b);
    } else if a < 10 {
      Congruent(a * 10 + b, b * 10 + a);
      CancelSmall(a - b);
    } else {
      Congruent(a * 100 + b, b * 100 + a);
      CancelSmall(a - b);
    }
  }

  lemma SwapDecides(x: char, y: char)
    requires IsBase36(x) && IsBase36(y) && x != y
    ensures Number([x, y]) % 97 == Number([y, x]) % 97 <==> Commuting(x, y)
    ensures Weight([x, y]) == Weight([y, x])
  {
    hide Number, Weight, Commuting;
    NumberTwo(x, y);
    NumberTwo(y, x);
    assert Value36(x) != Value36(y);
    SwapValues(Value36(x), Value36(y));
    CommutingValues(x, y);
  }

  function Swapped(t: string, i: nat): (r: string)
    requires i + 1 < |t|
    ensures |r| == |t|
  {
    t[i := t[i + 1]][i + 1 := t[i]]
  }

  lemma SwapResidue(t: string, i: nat)
    requires AllBase36(t) && i + 1 < |t| && t[i] != t[i + 1]
    ensures AllBase36(Swapped(t, i))
    ensures Number(Swapped(t, i)) % 97 == Number(t) % 97 <==> Commuting(t[i], t[i + 1])
  {
    hide Number, Weight, Commuting;
    var x, y := t[i], t[i + 1];
    assert t == t[..i] + [x, y] + t[i + 2..];
    assert Swapped(t, i) == t[..i] + [y, x] + t[i + 2..];
    SwapDecides(x, y);
    MiddleDecides(t[..i], [x, y], [y, x], t[i + 2..]);
  }

  /** A swap leaves digits in the check positions unless it carries a letter into them. */
  lemma SwapShape(t: string, i: nat)
    requires |t| == 20 && AllBase36(t) && AllDigits(t[18..]) && i + 1 < 20 && t[i] != t[i + 1]
    ensures Commuting(t[i], t[i + 1]) ==> (AllDigits(Swapped(t, i)[18..]) <==> i < 17)
  {
    if Commuting(t[i], t[i + 1]) {
      assert t[18] == t[18..][0] && t[19] == t[18..][1];
      assert IsDigit(t[i]) != IsDigit(t[i + 1]);
      if i == 17 {
        assert Swapped(t, i)[18..][0] == t[17];
      } else {
        assert Swapped(t, i)[18..] == t[18..];
      }
    }
  }

  /** Swapping two different neighbours of an accepted code is accepted only for the
      pairs 1/B, 2/M and 3/X inside the body, and then exactly when the swapped body is
      still a packed value. */
  lemma TranspositionRejected(seed: u64, text: string, i: nat, mistyped: string)
    requires Parsed(seed, text).Ok? && i + 1 < 20 && Clean(text)[i] != Clean(text)[i + 1]
    requires Clean(mistyped) == Swapped(Clean(text), i)
    ensures var t := Clean(text);
      AllBase36(Swapped(t, i)[..18]) &&
      (Parsed(seed, mistyped).Ok? <==> i < 17 && Commuting(t[i], t[i + 1]) && Radix(Swapped(t, i)[..18]) < PACKED)
  {
    hide Number, Radix, Clean, Commuting, Swapped, IsBase36;
    SwapResidue(Clean(text), i);
    SwapShape(Clean(text), i);
  }

  /** What parsing skips: dashes and ASCII white space. */
  lemma Separators(c: char)
    ensures IsSeparator(c) <==> c in ['-', '\t', '\n', '\U{00000B}', '\U{00000C}', '\r', ' ']
  {
  }
}
