/** Known values of the id permutation and of the account code: the bit mixer's first output,
    the four rounds written out, and the digits and check digits of the documented code
    (crates/kuatia-types/src/account_code.rs). */
module AccountCodeVectors {
  import opened Domain
  import opened Decimal
  import opened Obfuscation
  import opened AccountCode

  // ----- exclusive or, bit by bit -----

  function Bit(a: nat, b: nat, p: nat): nat
    requires p > 0
  {
    if a / p % 2 == b / p % 2 then 0 else p
  }

  function XorByte(a: nat, b: nat): nat {
    Bit(a, b, 1) + Bit(a, b, 2) + Bit(a, b, 4) + Bit(a, b, 8) + Bit(a, b, 0x10) + Bit(a, b, 0x20) + Bit(a, b, 0x40) + Bit(a, b, 0x80)
  }

  lemma XorBit(a: nat, b: nat)
    ensures Xor(a, b) == Bit(a, b, 1) + 2 * Xor(a / 2, b / 2)
  {
  }

  lemma XorFour(a: nat, b: nat)
    ensures Xor(a, b) == Bit(a, b, 1) + Bit(a, b, 2) + Bit(a, b, 4) + Bit(a, b, 8) + 0x10 * Xor(a / 0x10, b / 0x10)
  {
    hide Xor;
    XorBit(a, b);
    XorBit(a / 2, b / 2);
    XorBit(a / 2 / 2, b / 2 / 2);
    XorBit(a / 2 / 2 / 2, b / 2 / 2 / 2);
    Halvings(a);
    Halvings(b);
  }

  lemma XorLow(a: nat, b: nat)
    ensures Xor(a, b) == XorByte(a, b) + 0x100 * Xor(a / 0x100, b / 0x100)
  {
    hide Xor;
    XorFour(a, b);
    XorFour(a / 0x10, b / 0x10);
    Shifted(a);
    Shifted(b);
  }

  lemma Shifted(a: nat)
    ensures a / 0x10 / 1 == a / 0x10 && a / 0x10 / 2 == a / 0x20 && a / 0x10 / 4 == a / 0x40 && a / 0x10 / 8 == a / 0x80 && a / 0x10 / 0x10 == a / 0x100
  {
  }

  lemma Halvings(a: nat)
    ensures a / 2 / 2 == a / 4 && a / 2 / 2 / 2 == a / 8 && a / 2 / 2 / 2 / 2 == a / 0x10
  {
  }

  /** The low byte of an exclusive or, and what is left of it. */
  lemma XorNext(a: nat, b: nat, low: nat, c: nat, d: nat)
    requires XorByte(a, b) == low && a / 0x100 == c && b / 0x100 == d
    ensures Xor(a, b) == low + 0x100 * Xor(c, d)
  {
    hide XorByte, Xor;
    XorLow(a, b);
  }

  // ----- the mixer -----

  /** The generator's first output from zero: the finalizer of its increment. */
  lemma FirstOutput()
    ensures Mix64(0x9E37_79B9_7F4A_7C15) == 0xE220_A839_7B1D_CDAF
  {
    Spread();
    Remix();
    Settle();
    Products();
    hide Xor, Mul64;
  }

  lemma Products()
    ensures Mul64(0x9E37_79BB_0797_9AF0, 0xBF58_476D_1CE4_E5B9) == 0x6F68_261B_57E7_A770
    ensures Mul64(0x6F68_2616_BAE3_641A, 0x94D0_49BB_1331_11EB) == 0xE220_A838_BF5C_9DDE
  {
  }

  lemma Spread()
    ensures Xor(0x9E37_79B9_7F4A_7C15, 0x9E37_79B9_7F4A_7C15 / 0x4000_0000) == 0x9E37_79BB_0797_9AF0
  {
    hide Xor;
    assert Xor(0x9E37_79B9_7F4A_7C15, 0x0002_78DD_E6E5) == 0xF0 + 0x100 * Xor(0x009E_3779_B97F_4A7C, 0x0278_DDE6) by { XorNext(0x9E37_79B9_7F4A_7C15, 0x0002_78DD_E6E5, 0xF0, 0x009E_3779_B97F_4A7C, 0x0278_DDE6); }
    assert Xor(0x009E_3779_B97F_4A7C, 0x0278_DDE6) == 0x9A + 0x100 * Xor(0x9E37_79B9_7F4A, 0x0002_78DD) by { XorNext(0x009E_3779_B97F_4A7C, 0x0278_DDE6, 0x9A, 0x9E37_79B9_7F4A, 0x0002_78DD); }
    assert Xor(0x9E37_79B9_7F4A, 0x0002_78DD) == 0x97 + 0x100 * Xor(0x009E_3779_B97F, 0x0278) by { XorNext(0x9E37_79B9_7F4A, 0x0002_78DD, 0x97, 0x009E_3779_B97F, 0x0278); }
    assert Xor(0x009E_3779_B97F, 0x0278) == 0x07 + 0x100 * Xor(0x9E37_79B9, 0x0002) by { XorNext(0x009E_3779_B97F, 0x0278, 0x07, 0x9E37_79B9, 0x0002); }
    SpreadHigh();
  }

  lemma SpreadHigh()
    ensures Xor(0x9E37_79B9, 0x0002) == 0x9E37_79BB
  {
    hide Xor;
    assert Xor(0x9E37_79B9, 0x0002) == 0xBB + 0x100 * Xor(0x009E_3779, 0x0000) by { XorNext(0x9E37_79B9, 0x0002, 0xBB, 0x009E_3779, 0x0000); }
    assert Xor(0x009E_3779, 0x0000) == 0x79 + 0x100 * Xor(0x9E37, 0x0000) by { XorNext(0x009E_3779, 0x0000, 0x79, 0x9E37, 0x0000); }
    assert Xor(0x9E37, 0x0000) == 0x37 + 0x100 * Xor(0x009E, 0x0000) by { XorNext(0x9E37, 0x0000, 0x37, 0x009E, 0x0000); }
    assert Xor(0x009E, 0x0000) == 0x9E + 0x100 * Xor(0x0000, 0x0000) by { XorNext(0x009E, 0x0000, 0x9E, 0x0000, 0x0000); }
    XorZero(0);
  }

  lemma Remix()
    ensures Xor(0x6F68_261B_57E7_A770, 0x6F68_261B_57E7_A770 / 0x800_0000) == 0x6F68_2616_BAE3_641A
  {
    hide Xor;
    assert Xor(0x6F68_261B_57E7_A770, 0x000D_ED04_C36A) == 0x1A + 0x100 * Xor(0x006F_6826_1B57_E7A7, 0x0DED_04C3) by { XorNext(0x6F68_261B_57E7_A770, 0x000D_ED04_C36A, 0x1A, 0x006F_6826_1B57_E7A7, 0x0DED_04C3); }
    assert Xor(0x006F_6826_1B57_E7A7, 0x0DED_04C3) == 0x64 + 0x100 * Xor(0x6F68_261B_57E7, 0x000D_ED04) by { XorNext(0x006F_6826_1B57_E7A7, 0x0DED_04C3, 0x64, 0x6F68_261B_57E7, 0x000D_ED04); }
    assert Xor(0x6F68_261B_57E7, 0x000D_ED04) == 0xE3 + 0x100 * Xor(0x006F_6826_1B57, 0x0DED) by { XorNext(0x6F68_261B_57E7, 0x000D_ED04, 0xE3, 0x006F_6826_1B57, 0x0DED); }
    assert Xor(0x006F_6826_1B57, 0x0DED) == 0xBA + 0x100 * Xor(0x6F68_261B, 0x000D) by { XorNext(0x006F_6826_1B57, 0x0DED, 0xBA, 0x6F68_261B, 0x000D); }
    RemixHigh();
  }

  lemma RemixHigh()
    ensures Xor(0x6F68_261B, 0x000D) == 0x6F68_2616
  {
    hide Xor;
    assert Xor(0x6F68_261B, 0x000D) == 0x16 + 0x100 * Xor(0x006F_6826, 0x0000) by { XorNext(0x6F68_261B, 0x000D, 0x16, 0x006F_6826, 0x0000); }
    assert Xor(0x006F_6826, 0x0000) == 0x26 + 0x100 * Xor(0x6F68, 0x0000) by { XorNext(0x006F_6826, 0x0000, 0x26, 0x6F68, 0x0000); }
    assert Xor(0x6F68, 0x0000) == 0x68 + 0x100 * Xor(0x006F, 0x0000) by { XorNext(0x6F68, 0x0000, 0x68, 0x006F, 0x0000); }
    assert Xor(0x006F, 0x0000) == 0x6F + 0x100 * Xor(0x0000, 0x0000) by { XorNext(0x006F, 0x0000, 0x6F, 0x0000, 0x0000); }
    XorZero(0);
  }

  lemma Settle()
    ensures Xor(0xE220_A838_BF5C_9DDE, 0xE220_A838_BF5C_9DDE / 0x8000_0000) == 0xE220_A839_7B1D_CDAF
  {
    hide Xor;
    assert Xor(0xE220_A838_BF5C_9DDE, 0x0001_C441_5071) == 0xAF + 0x100 * Xor(0x00E2_20A8_38BF_5C9D, 0x01C4_4150) by { XorNext(0xE220_A838_BF5C_9DDE, 0x0001_C441_5071, 0xAF, 0x00E2_20A8_38BF_5C9D, 0x01C4_4150); }
    assert Xor(0x00E2_20A8_38BF_5C9D, 0x01C4_4150) == 0xCD + 0x100 * Xor(0xE220_A838_BF5C, 0x0001_C441) by { XorNext(0x00E2_20A8_38BF_5C9D, 0x01C4_4150, 0xCD, 0xE220_A838_BF5C, 0x0001_C441); }
    assert Xor(0xE220_A838_BF5C, 0x0001_C441) == 0x1D + 0x100 * Xor(0x00E2_20A8_38BF, 0x01C4) by { XorNext(0xE220_A838_BF5C, 0x0001_C441, 0x1D, 0x00E2_20A8_38BF, 0x01C4); }
    assert Xor(0x00E2_20A8_38BF, 0x01C4) == 0x7B + 0x100 * Xor(0xE220_A838, 0x0001) by { XorNext(0x00E2_20A8_38BF, 0x01C4, 0x7B, 0xE220_A838, 0x0001); }
    SettleHigh();
  }

  lemma SettleHigh()
    ensures Xor(0xE220_A838, 0x0001) == 0xE220_A839
  {
    hide Xor;
    assert Xor(0xE220_A838, 0x0001) == 0x39 + 0x100 * Xor(0x00E2_20A8, 0x0000) by { XorNext(0xE220_A838, 0x0001, 0x39, 0x00E2_20A8, 0x0000); }
    assert Xor(0x00E2_20A8, 0x0000) == 0xA8 + 0x100 * Xor(0xE220, 0x0000) by { XorNext(0x00E2_20A8, 0x0000, 0xA8, 0xE220, 0x0000); }
    assert Xor(0xE220, 0x0000) == 0x20 + 0x100 * Xor(0x00E2, 0x0000) by { XorNext(0xE220, 0x0000, 0x20, 0x00E2, 0x0000); }
    assert Xor(0x00E2, 0x0000) == 0xE2 + 0x100 * Xor(0x0000, 0x0000) by { XorNext(0x00E2, 0x0000, 0xE2, 0x0000, 0x0000); }
    XorZero(0);
  }

  lemma XorZero(a: nat)
    ensures Xor(0, a) == a && Xor(a, 0) == a
  {
  }

  lemma {:induction false} XorSwap(a: nat, b: nat)
    ensures Xor(a, b) == Xor(b, a)
    decreases a + b
  {
    if a > 0 || b > 0 { XorSwap(a / 2, b / 2); }
  }

  /** A round key mixes the seed with the round's multiple of the increment; a round mixes
      its key with one half. */
  lemma KeyedMixes(seed: u64, round: u64, half: nat)
    ensures RoundKey(0x9E37_79B9_7F4A_7C15, 0) == 0xE220_A839_7B1D_CDAF
    ensures RoundKey(0, 1) == 0xE220_A839_7B1D_CDAF
    ensures half == Xor(RoundKey(seed, round), 0x9E37_79B9_7F4A_7C15) ==> Keyed(seed)(round, half) == 0xE220_A839_7B1D_CDAF
  {
    hide Mix64, Xor;
    FirstOutput();
    XorZero(0x9E37_79B9_7F4A_7C15);
    XorSwap(RoundKey(seed, round), 0x9E37_79B9_7F4A_7C15);
    XorBack(0x9E37_79B9_7F4A_7C15, RoundKey(seed, round));
    WordIsPow2();
    XorBelow(RoundKey(seed, round), 0x9E37_79B9_7F4A_7C15, 64);
  }

  /** The network is four rounds, each replacing the older half by its exclusive or with the
      function of the newer one. */
  lemma FourRounds(rf: RoundFunction, left: nat, right: nat)
    requires left < HALF && right < HALF
    ensures var a := Xor(left, rf(0, right) % HALF); var b := Xor(right, rf(1, a) % HALF);
      var c := Xor(a, rf(2, b) % HALF); var d := Xor(b, rf(3, c) % HALF);
      Encrypt(rf, left * HALF + right) == c * HALF + d
  {
    hide Xor;
    SplitJoin(Halves(left, right));
    var a := Xor(left, rf(0, right) % HALF);
    MaskNarrow(left, rf(0, right) % HALF);
    var b := Xor(right, rf(1, a) % HALF);
    MaskNarrow(right, rf(1, a) % HALF);
    var c := Xor(a, rf(2, b) % HALF);
    MaskNarrow(a, rf(2, b) % HALF);
    var d := Xor(b, rf(3, c) % HALF);
    assert Rounds(rf, 1, Halves(left, right)) == Halves(right, a);
    assert Rounds(rf, 2, Halves(left, right)) == Halves(a, b);
    MaskNarrow(b, rf(3, c) % HALF);
    assert Rounds(rf, 3, Halves(left, right)) == Halves(b, c);
    assert Rounds(rf, 4, Halves(left, right)) == Halves(c, d);
  }

  // ----- the documented code -----

  lemma OneMore(s: string, c: char, t: string, v: nat, w: nat, r: nat, q: nat)
    requires AllBase36(s) && IsBase36(c) && t == s + [c]
    requires Radix(s) == v && w == 36 * v + Value36(c)
    requires Number(s) % 97 == r && (r * Width(c) + Value36(c)) % 97 == q
    ensures AllBase36(t) && Radix(t) == w && Number(t) % 97 == q
  {
    hide Radix, Number, Value36, Width;
    RadixPush(s, c);
    NumberPush(s, c);
    ResiduePush(Number(s), Width(c), Value36(c));
  }

  lemma ResiduePush(n: nat, w: nat, d: nat)
    ensures (n * w + d) % 97 == (n % 97 * w + d) % 97
  {
    var k := n / 97;
    assert n * w + d == (n % 97 * w + d) + 97 * (k * w) by {
      assert n == 97 * k + n % 97;
      assert n * w == (97 * k) * w + n % 97 * w;
    }
    ModMultiple(n % 97 * w + d, k * w);
  }

  /** The body of the code of account 987654321, subaccount 12345: the value its base-36
      digits denote and its check digits; and the value the account packs to. */
  lemma DocumentedCode()
    ensures Pack(AccountId(987654321, 12345)) == 0x0EB7_9A2C_4000_3039
    ensures AllBase36("KUJLQEL8IX2XGTBK44") && Radix("KUJLQEL8IX2XGTBK44") == 0x134D_05C3_F04B_9C06_61A0_4794
    ensures Check("KUJLQEL8IX2XGTBK44") == 25
  {
    hide Radix, Number;
    HalfTheCode();
    OneMore("KUJLQEL8I", 'X', "KUJLQEL8IX", 0x357E_1EA1_E102, 0x0007_85BC_4EC3_A469, 53, 95);
    OneMore("KUJLQEL8IX", '2', "KUJLQEL8IX2", 0x0007_85BC_4EC3_A469, 0x010E_CE7B_1383_1EC6, 95, 79);
    OneMore("KUJLQEL8IX2", 'X', "KUJLQEL8IX2X", 0x010E_CE7B_1383_1EC6, 0x2615_094E_BE70_53F9, 79, 76);
    OneMore("KUJLQEL8IX2X", 'G', "KUJLQEL8IX2XG", 0x2615_094E_BE70_53F9, 0x0005_5AF5_4F12_C7CB_CF14, 76, 50);
    OneMore("KUJLQEL8IX2XG", 'T', "KUJLQEL8IX2XGT", 0x0005_5AF5_4F12_C7CB_CF14, 0x00C0_CA7F_1EA4_18A9_1EED, 50, 82);
    OneMore("KUJLQEL8IX2XGT", 'B', "KUJLQEL8IX2XGTB", 0x00C0_CA7F_1EA4_18A9_1EED, 0x1B1C_79E0_4F13_77C8_595F, 82, 63);
    OneMore("KUJLQEL8IX2XGTB", 'K', "KUJLQEL8IX2XGTBK", 0x1B1C_79E0_4F13_77C8_595F, 0x0003_D001_238B_1EBC_D82C_9170, 63, 15);
    OneMore("KUJLQEL8IX2XGTBK", '4', "KUJLQEL8IX2XGTBK4", 0x0003_D001_238B_1EBC_D82C_9170, 0x0089_4028_FF90_528E_6644_73C4, 15, 57);
    OneMore("KUJLQEL8IX2XGTBK4", '4', "KUJLQEL8IX2XGTBK44", 0x0089_4028_FF90_528E_6644_73C4, 0x134D_05C3_F04B_9C06_61A0_4794, 57, 89);
    ResiduePush(Number("KUJLQEL8IX2XGTBK44"), 100, 0);
  }

  lemma HalfTheCode()
    ensures AllBase36("KUJLQEL8I") && Radix("KUJLQEL8I") == 0x357E_1EA1_E102 && Number("KUJLQEL8I") % 97 == 53
  {
    hide Radix, Number;
    NumberEmpty();
    NoDigits();
    OneMore("", 'K', "K", 0, 0x14, 0, 20);
    OneMore("K", 'U', "KU", 0x14, 0x2EE, 20, 90);
    OneMore("KU", 'J', "KUJ", 0x2EE, 0x698B, 90, 95);
    OneMore("KUJ", 'L', "KUJL", 0x698B, 0x000E_D7A1, 95, 15);
    OneMore("KUJL", 'Q', "KUJLQ", 0x000E_D7A1, 0x0216_52BE, 15, 71);
    OneMore("KUJLQ", 'E', "KUJLQE", 0x0216_52BE, 0x4B23_A2C6, 71, 33);
    OneMore("KUJLQE", 'L', "KUJLQEL", 0x4B23_A2C6, 0x000A_9102_E3ED, 33, 23);
    OneMore("KUJLQEL", '8', "KUJLQEL8", 0x000A_9102_E3ED, 0x017C_6468_0D5C, 23, 44);
    OneMore("KUJLQEL8", 'I', "KUJLQEL8I", 0x017C_6468_0D5C, 0x357E_1EA1_E102, 44, 53);
  }

  lemma NoDigits()
    ensures AllBase36("") && Radix("") == 0
  {
  }
}
