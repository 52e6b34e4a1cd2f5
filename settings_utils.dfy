/**
 * The client-side helpers of the settings pages: the Receita Federal
 * modulo-11 check digits of CNPJ and CPF numbers, the input masks for
 * CNPJ, CPF, CEP and telephone numbers, the e-mail and CEP checks, and the
 * loading state of a submit button.
 *
 * Source: static/js/configuracoes/utils.js (class SettingsUtils, whose
 * methods are all static).
 */
module SettingsUtils {
  import opened Common

  // ---------------------------------------------------------------------
  // Modulo-11 check digits
  // ---------------------------------------------------------------------

  /** The value of each character of a digit string. */
  function Digits(s: string): (r: seq<nat>)
    requires AllDigits(s)
    ensures |r| == |s| && forall i :: 0 <= i < |s| ==> r[i] == DigitValue(s[i])
  {
    if s == [] then [] else Digits(s[..|s| - 1]) + [DigitValue(s[|s| - 1])]
  }

  /** Σ digits[i] · weights[i] over the positions both sequences have (Python's `zip` truncates). */
  function WeightedSum(digits: seq<nat>, weights: seq<nat>): nat
  {
    if |digits| == 0 || |weights| == 0 then 0
    else if |digits| > |weights| then WeightedSum(digits[..|weights|], weights)
    else if |weights| > |digits| then WeightedSum(digits, weights[..|digits|])
    else WeightedSum(digits[..|digits| - 1], weights[..|weights| - 1]) + digits[|digits| - 1] * weights[|weights| - 1]
  }

  /** `remainder < 2 ? 0 : 11 - remainder`: always a single decimal digit. */
  function CheckDigit(sum: nat): (d: nat)
    ensures d < 10
    ensures d == 0 <==> sum % 11 < 2
    ensures d != 0 ==> (sum + d) % 11 == 0
  {
    var remainder := sum % 11;
    if remainder < 2 then 0 else 11 - remainder
  }

  /** The weights of the first CNPJ check digit: 5 down to 2, then 9 down to 2. */
  const CNPJ_WEIGHTS_1: seq<nat> := [5, 4, 3, 2, 9, 8, 7, 6, 5, 4, 3, 2]
  /** The weights of the second CNPJ check digit: 6 down to 2, then 9 down to 2. */
  const CNPJ_WEIGHTS_2: seq<nat> := [6, 5, 4, 3, 2, 9, 8, 7, 6, 5, 4, 3, 2]
  const CPF_WEIGHTS_1: seq<nat> := [10, 9, 8, 7, 6, 5, 4, 3, 2]
  const CPF_WEIGHTS_2: seq<nat> := [11, 10, 9, 8, 7, 6, 5, 4, 3, 2]

  /** `/^(\d)\1+$/`: two or more copies of one digit. */
  predicate RepeatedDigit(s: string)
  {
    |s| >= 2 && IsDigit(s[0]) && forall i :: 0 <= i < |s| ==> s[i] == s[0]
  }

  /** The Receita Federal rule for a CNPJ already reduced to its digits. */
  predicate CnpjValid(c: string)
  {
    |c| == 14 && AllDigits(c) && !RepeatedDigit(c)
    && DigitValue(c[12]) == CheckDigit(WeightedSum(Digits(c[..12]), CNPJ_WEIGHTS_1))
    && DigitValue(c[13]) == CheckDigit(WeightedSum(Digits(c[..13]), CNPJ_WEIGHTS_2))
  }

  /** The Receita Federal rule for a CPF already reduced to its digits. */
  predicate CpfValid(c: string)
  {
    |c| == 11 && AllDigits(c) && !RepeatedDigit(c)
    && DigitValue(c[9]) == CheckDigit(WeightedSum(Digits(c[..9]), CPF_WEIGHTS_1))
    && DigitValue(c[10]) == CheckDigit(WeightedSum(Digits(c[..10]), CPF_WEIGHTS_2))
  }

  lemma WeightedSumStep(d: seq<nat>, w: seq<nat>, i: nat)
    requires i < |d| && i < |w|
    ensures WeightedSum(d[..i + 1], w[..i + 1]) == WeightedSum(d[..i], w[..i]) + d[i] * w[i]
  {
    assert d[..i + 1][..i] == d[..i];
    assert w[..i + 1][..i] == w[..i];
  }

  /** `/^(\d)\1+$/.test(cleaned)` as a scan comparing each digit with the first. */
  method IsRepeatedDigit(c: string) returns (r: bool)
    requires AllDigits(c)
    ensures r == RepeatedDigit(c)
  {
    if |c| < 2 {
      return false;
    }
    var i := 1;
    while i < |c|
      invariant 1 <= i <= |c|
      invariant forall k :: 0 <= k < i ==> c[k] == c[0]
    {
      if c[i] != c[0] {
        return false;
      }
      i := i + 1;
    }
    return true;
  }

  /** `weight = weight === 2 ? 9 : weight - 1` */
  function NextWeight(w: nat): nat
  {
    if w == 2 then 9 else if w == 0 then 0 else w - 1
  }

  /** Each weight of the table follows from the one before it by `NextWeight`. */
  predicate FollowsWeightStep(weights: seq<nat>)
  {
    forall i :: 0 <= i < |weights| - 1 ==> weights[i + 1] == NextWeight(weights[i])
  }

  lemma CnpjWeightTables()
    ensures FollowsWeightStep(CNPJ_WEIGHTS_1) && FollowsWeightStep(CNPJ_WEIGHTS_2)
  {
    DescendingRunSteps([5, 4, 3, 2]);
    DescendingRunSteps([9, 8, 7, 6, 5, 4, 3, 2]);
    WeightRunsJoin([5, 4, 3, 2], [9, 8, 7, 6, 5, 4, 3, 2]);
    assert CNPJ_WEIGHTS_1 == [5, 4, 3, 2] + [9, 8, 7, 6, 5, 4, 3, 2];
    DescendingRunSteps([6, 5, 4, 3, 2]);
    WeightRunsJoin([6, 5, 4, 3, 2], [9, 8, 7, 6, 5, 4, 3, 2]);
    assert CNPJ_WEIGHTS_2 == [6, 5, 4, 3, 2] + [9, 8, 7, 6, 5, 4, 3, 2];
  }

  /** A run counting down by one to 2 follows the weight step. */
  lemma DescendingRunSteps(run: seq<nat>)
    requires forall i :: 0 <= i < |run| ==> run[i] == |run| + 1 - i
    ensures FollowsWeightStep(run)
  {
    forall i | 0 <= i < |run| - 1 ensures run[i + 1] == NextWeight(run[i]) {
      assert run[i] == |run| + 1 - i >= 3;
    }
  }

  /** A run ending at 2 followed by one starting at 9 follows the weight step across the join. */
  lemma WeightRunsJoin(a: seq<nat>, b: seq<nat>)
    requires FollowsWeightStep(a) && FollowsWeightStep(b)
    requires |a| > 0 && a[|a| - 1] == 2 && |b| > 0 && b[0] == 9
    ensures FollowsWeightStep(a + b)
  {
    forall i | 0 <= i < |a + b| - 1 ensures (a + b)[i + 1] == NextWeight((a + b)[i]) {
      if i + 1 < |a| {
        assert (a + b)[i] == a[i] && (a + b)[i + 1] == a[i + 1];
      } else if i + 1 == |a| {
        assert (a + b)[i] == a[|a| - 1] && (a + b)[i + 1] == b[0];
      } else {
        assert (a + b)[i] == b[i - |a|] && (a + b)[i + 1] == b[i - |a| + 1];
      }
    }
  }

  /**
   * One loop of `validateCNPJ`: accumulate digit times weight over the
   * first `n` digits, starting at `start` and stepping with `NextWeight`;
   * `weights` is the table the walk enumerates.
   */
  method SumWithStepWeights(d: seq<nat>, n: nat, start: nat, ghost weights: seq<nat>) returns (sum: nat)
    requires 1 <= n <= |d| && |weights| == n
    requires weights[0] == start && FollowsWeightStep(weights)
    ensures sum == WeightedSum(d[..n], weights)
  {
    var weight := start;
    sum := 0;
    var i := 0;
    while i < n
      invariant 0 <= i <= n
      invariant sum == WeightedSum(d[..i], weights[..i])
      invariant i < n ==> weight == weights[i]
    {
      WeightedSumStep(d, weights, i);
      sum := sum + d[i] * weight;
      weight := NextWeight(weight);
      i := i + 1;
    }
    assert weights[..n] == weights;
  }

  /** `validateCNPJ`. */
  method ValidateCNPJ(cnpj: string) returns (ok: bool)
    ensures ok == CnpjValid(DigitsOnly(cnpj))
  {
    var c := DigitsOnly(cnpj);
    if |c| != 14 {
      return false;
    }
    var repeated := IsRepeatedDigit(c);
    if repeated {
      return false;
    }
    var d := Digits(c);
    assert Digits(c[..12]) == d[..12] && Digits(c[..13]) == d[..13];
    CnpjWeightTables();
    var sum := SumWithStepWeights(d, 12, 5, CNPJ_WEIGHTS_1);
    var digit1 := CheckDigit(sum);
    if d[12] != digit1 {
      return false;
    }
    sum := SumWithStepWeights(d, 13, 6, CNPJ_WEIGHTS_2);
    var digit2 := CheckDigit(sum);
    ok := d[13] == digit2;
  }

  /** One loop of `validateCPF`: weights `top - i` over the first `top - 1` digits. */
  method SumWithFallingWeights(d: seq<nat>, top: nat, ghost weights: seq<nat>) returns (sum: nat)
    requires 2 <= top <= |d| + 1 && |weights| == top - 1
    requires forall i :: 0 <= i < |weights| ==> weights[i] == top - i
    ensures sum == WeightedSum(d[..top - 1], weights)
  {
    sum := 0;
    var i := 0;
    while i < top - 1
      invariant 0 <= i <= top - 1
      invariant sum == WeightedSum(d[..i], weights[..i])
    {
      WeightedSumStep(d, weights, i);
      sum := sum + d[i] * (top - i);
      i := i + 1;
    }
    assert weights[..top - 1] == weights;
  }

  lemma CpfWeightTables()
    ensures forall i :: 0 <= i < |CPF_WEIGHTS_1| ==> CPF_WEIGHTS_1[i] == 10 - i
    ensures forall i :: 0 <= i < |CPF_WEIGHTS_2| ==> CPF_WEIGHTS_2[i] == 11 - i
  {
  }

  /** `validateCPF`. */
  method ValidateCPF(cpf: string) returns (ok: bool)
    ensures ok == CpfValid(DigitsOnly(cpf))
  {
    var c := DigitsOnly(cpf);
    if |c| != 11 {
      return false;
    }
    var repeated := IsRepeatedDigit(c);
    if repeated {
      return false;
    }
    var d := Digits(c);
    assert Digits(c[..9]) == d[..9] && Digits(c[..10]) == d[..10];
    CpfWeightTables();
    var sum := SumWithFallingWeights(d, 10, CPF_WEIGHTS_1);
    var digit1 := CheckDigit(sum);
    if d[9] != digit1 {
      return false;
    }
    sum := SumWithFallingWeights(d, 11, CPF_WEIGHTS_2);
    var digit2 := CheckDigit(sum);
    ok := d[10] == digit2;
  }

  /**
   * Check digits computed from a base complete it to a valid number, and
   * they are the only ones that do (unless the whole number repeats one
   * digit).
   */
  lemma CnpjCheckDigitsDetermined(base: string, x: nat, y: nat)
    requires |base| == 12 && AllDigits(base) && x < 10 && y < 10
    requires !RepeatedDigit(base + [DigitChar(x), DigitChar(y)])
    ensures CnpjValid(base + [DigitChar(x), DigitChar(y)]) <==>
      x == CheckDigit(WeightedSum(Digits(base), CNPJ_WEIGHTS_1))
      && y == CheckDigit(WeightedSum(Digits(base + [DigitChar(x)]), CNPJ_WEIGHTS_2))
  {
    var c := base + [DigitChar(x), DigitChar(y)];
    assert c[..12] == base && c[..13] == base + [DigitChar(x)];
  }

  lemma DigitsPrefix(s: string, n: nat)
    requires AllDigits(s) && n <= |s|
    ensures Digits(s[..n]) == Digits(s)[..n]
  {
  }

  /** The digits of the whitelisted company CNPJ, 77.766.483/0001-64. */
  const COMPANY_CNPJ_DIGITS: seq<nat> := [7, 7, 7, 6, 6, 4, 8, 3, 0, 0, 0, 1, 6, 4]

  lemma CompanyCnpjDigits()
    ensures AllDigits("77766483000164") && Digits("77766483000164") == COMPANY_CNPJ_DIGITS
  {
    var c := "77766483000164";
    forall i | 0 <= i < 14 ensures Digits(c)[i] == COMPANY_CNPJ_DIGITS[i] {
    }
  }

  /** The first standard sum of the company CNPJ: 258, so the first check digit is 6. */
  lemma CompanyCnpjFirstSum()
    ensures WeightedSum(COMPANY_CNPJ_DIGITS[..12], CNPJ_WEIGHTS_1) == 258
  {
    var d := COMPANY_CNPJ_DIGITS;
    assert WeightedSum(d[..0], CNPJ_WEIGHTS_1[..0]) == 0;
    WeightedSumStep(d, CNPJ_WEIGHTS_1, 0);
    assert WeightedSum(d[..1], CNPJ_WEIGHTS_1[..1]) == 35;
    WeightedSumStep(d, CNPJ_WEIGHTS_1, 1);
    assert WeightedSum(d[..2], CNPJ_WEIGHTS_1[..2]) == 63;
    WeightedSumStep(d, CNPJ_WEIGHTS_1, 2);
    assert WeightedSum(d[..3], CNPJ_WEIGHTS_1[..3]) == 84;
    WeightedSumStep(d, CNPJ_WEIGHTS_1, 3);
    assert WeightedSum(d[..4], CNPJ_WEIGHTS_1[..4]) == 96;
    WeightedSumStep(d, CNPJ_WEIGHTS_1, 4);
    assert WeightedSum(d[..5], CNPJ_WEIGHTS_1[..5]) == 150;
    WeightedSumStep(d, CNPJ_WEIGHTS_1, 5);
    assert WeightedSum(d[..6], CNPJ_WEIGHTS_1[..6]) == 182;
    WeightedSumStep(d, CNPJ_WEIGHTS_1, 6);
    assert WeightedSum(d[..7], CNPJ_WEIGHTS_1[..7]) == 238;
    WeightedSumStep(d, CNPJ_WEIGHTS_1, 7);
    assert WeightedSum(d[..8], CNPJ_WEIGHTS_1[..8]) == 256;
    WeightedSumStep(d, CNPJ_WEIGHTS_1, 8);
    assert WeightedSum(d[..9], CNPJ_WEIGHTS_1[..9]) == 256;
    WeightedSumStep(d, CNPJ_WEIGHTS_1, 9);
    assert WeightedSum(d[..10], CNPJ_WEIGHTS_1[..10]) == 256;
    WeightedSumStep(d, CNPJ_WEIGHTS_1, 10);
    assert WeightedSum(d[..11], CNPJ_WEIGHTS_1[..11]) == 256;
    WeightedSumStep(d, CNPJ_WEIGHTS_1, 11);
    assert WeightedSum(d[..12], CNPJ_WEIGHTS_1[..12]) == 258;
    assert CNPJ_WEIGHTS_1[..12] == CNPJ_WEIGHTS_1;
  }

  /** The second standard sum of the company CNPJ: 271, so the second check digit is 4. */
  lemma CompanyCnpjSecondSum()
    ensures WeightedSum(COMPANY_CNPJ_DIGITS[..13], CNPJ_WEIGHTS_2) == 271
  {
    var d := COMPANY_CNPJ_DIGITS;
    assert WeightedSum(d[..0], CNPJ_WEIGHTS_2[..0]) == 0;
    WeightedSumStep(d, CNPJ_WEIGHTS_2, 0);
    assert WeightedSum(d[..1], CNPJ_WEIGHTS_2[..1]) == 42;
    WeightedSumStep(d, CNPJ_WEIGHTS_2, 1);
    assert WeightedSum(d[..2], CNPJ_WEIGHTS_2[..2]) == 77;
    WeightedSumStep(d, CNPJ_WEIGHTS_2, 2);
    assert WeightedSum(d[..3], CNPJ_WEIGHTS_2[..3]) == 105;
    WeightedSumStep(d, CNPJ_WEIGHTS_2, 3);
    assert WeightedSum(d[..4], CNPJ_WEIGHTS_2[..4]) == 123;
    WeightedSumStep(d, CNPJ_WEIGHTS_2, 4);
    assert WeightedSum(d[..5], CNPJ_WEIGHTS_2[..5]) == 135;
    WeightedSumStep(d, CNPJ_WEIGHTS_2, 5);
    assert WeightedSum(d[..6], CNPJ_WEIGHTS_2[..6]) == 171;
    WeightedSumStep(d, CNPJ_WEIGHTS_2, 6);
    assert WeightedSum(d[..7], CNPJ_WEIGHTS_2[..7]) == 235;
    WeightedSumStep(d, CNPJ_WEIGHTS_2, 7);
    assert WeightedSum(d[..8], CNPJ_WEIGHTS_2[..8]) == 256;
    WeightedSumStep(d, CNPJ_WEIGHTS_2, 8);
    assert WeightedSum(d[..9], CNPJ_WEIGHTS_2[..9]) == 256;
    WeightedSumStep(d, CNPJ_WEIGHTS_2, 9);
    assert WeightedSum(d[..10], CNPJ_WEIGHTS_2[..10]) == 256;
    WeightedSumStep(d, CNPJ_WEIGHTS_2, 10);
    assert WeightedSum(d[..11], CNPJ_WEIGHTS_2[..11]) == 256;
    WeightedSumStep(d, CNPJ_WEIGHTS_2, 11);
    assert WeightedSum(d[..12], CNPJ_WEIGHTS_2[..12]) == 259;
    WeightedSumStep(d, CNPJ_WEIGHTS_2, 12);
    assert WeightedSum(d[..13], CNPJ_WEIGHTS_2[..13]) == 271;
    assert CNPJ_WEIGHTS_2[..13] == CNPJ_WEIGHTS_2;
  }

  /** The whitelisted company CNPJ of the company settings form is valid by this rule. */
  lemma CompanyCnpjIsValid()
    ensures CnpjValid("77766483000164")
  {
    var c := "77766483000164";
    CompanyCnpjDigits();
    CompanyCnpjFirstSum();
    CompanyCnpjSecondSum();
    DigitsPrefix(c, 12);
    DigitsPrefix(c, 13);
    assert c[3] != c[0];
    assert DigitValue(c[12]) == 6 == CheckDigit(258);
    assert DigitValue(c[13]) == 4 == CheckDigit(271);
  }

  // ---------------------------------------------------------------------
  // Masks
  // ---------------------------------------------------------------------

  /** Number of `d` placeholders in a mask. */
  function Slots(mask: string): nat
  {
    if mask == [] then 0 else (if mask[0] == 'd' then 1 else 0) + Slots(mask[1..])
  }

  /** `s` has the shape of `mask`: a digit at each `d`, the mask's own character elsewhere. */
  predicate FitsMask(s: string, mask: string)
  {
    |s| == |mask| && forall i :: 0 <= i < |s| ==> if mask[i] == 'd' then IsDigit(s[i]) else s[i] == mask[i]
  }

  /** A regular-expression replacement `$1.$2…`: the digits in order, with the mask's separators between the groups. */
  function FillMask(digits: string, mask: string): (r: string)
    requires |digits| == Slots(mask) && AllDigits(digits)
    ensures FitsMask(r, mask)
  {
    if mask == [] then []
    else if mask[0] == 'd' then [digits[0]] + FillMask(digits[1..], mask[1..])
    else [mask[0]] + FillMask(digits, mask[1..])
  }

  predicate SeparatorsAreNotDigits(mask: string)
  {
    forall i :: 0 <= i < |mask| ==> mask[i] == 'd' || !IsDigit(mask[i])
  }

  /** A filled mask holds exactly the digits put in it. */
  lemma {:induction false} FillMaskDigits(digits: string, mask: string)
    requires |digits| == Slots(mask) && AllDigits(digits) && SeparatorsAreNotDigits(mask)
    ensures DigitsOnly(FillMask(digits, mask)) == digits
  {
    if mask != [] {
      assert SeparatorsAreNotDigits(mask[1..]) by {
        forall i | 0 <= i < |mask[1..]| ensures mask[1..][i] == 'd' || !IsDigit(mask[1..][i]) {
          assert mask[1..][i] == mask[i + 1];
        }
      }
      if mask[0] == 'd' {
        FillMaskDigits(digits[1..], mask[1..]);
        DigitsOnlyAppend([digits[0]], FillMask(digits[1..], mask[1..]));
        assert [digits[0]] + digits[1..] == digits;
      } else {
        FillMaskDigits(digits, mask[1..]);
        DigitsOnlyAppend([mask[0]], FillMask(digits, mask[1..]));
      }
    }
  }

  /** `n` digit slots: the mask of `(\d{n})`. */
  function Group(n: nat): (g: string)
    ensures |g| == n && forall i :: 0 <= i < n ==> g[i] == 'd'
  {
    seq(n, _ => 'd')
  }

  lemma {:induction false} SlotsAppend(a: string, b: string)
    ensures Slots(a + b) == Slots(a) + Slots(b)
  {
    if a != [] {
      assert (a + b)[1..] == a[1..] + b;
      SlotsAppend(a[1..], b);
    } else {
      assert a + b == b;
    }
  }

  lemma {:induction false} SlotsGroup(n: nat)
    ensures Slots(Group(n)) == n
  {
    if n > 0 {
      assert Group(n)[1..] == Group(n - 1);
      SlotsGroup(n - 1);
    }
  }

  /** `dd.ddd.ddd/dddd-dd` */
  const CNPJ_MASK := Group(2) + "." + Group(3) + "." + Group(3) + "/" + Group(4) + "-" + Group(2)
  /** `ddd.ddd.ddd-dd` */
  const CPF_MASK := Group(3) + "." + Group(3) + "." + Group(3) + "-" + Group(2)
  /** `ddddd-ddd` */
  const CEP_MASK := Group(5) + "-" + Group(3)
  /** `(dd) dddd-dddd` */
  const PHONE_MASK_10 := "(" + Group(2) + ") " + Group(4) + "-" + Group(4)
  /** `(dd) ddddd-dddd` */
  const PHONE_MASK_11 := "(" + Group(2) + ") " + Group(5) + "-" + Group(4)

  /** Slot counts add up, and masks without digit separators stay so, when masks are joined. */
  lemma MaskJoin(a: string, b: string)
    ensures Slots(a + b) == Slots(a) + Slots(b)
    ensures SeparatorsAreNotDigits(a) && SeparatorsAreNotDigits(b) ==> SeparatorsAreNotDigits(a + b)
  {
    SlotsAppend(a, b);
    if SeparatorsAreNotDigits(a) && SeparatorsAreNotDigits(b) {
      forall i | 0 <= i < |a + b| ensures (a + b)[i] == 'd' || !IsDigit((a + b)[i]) {
        if i >= |a| {
          assert (a + b)[i] == b[i - |a|];
        }
      }
    }
  }

  lemma MaskFacts()
    ensures Slots(CNPJ_MASK) == 14 && SeparatorsAreNotDigits(CNPJ_MASK)
    ensures Slots(CPF_MASK) == 11 && SeparatorsAreNotDigits(CPF_MASK)
    ensures Slots(CEP_MASK) == 8 && SeparatorsAreNotDigits(CEP_MASK)
    ensures Slots(PHONE_MASK_10) == 10 && SeparatorsAreNotDigits(PHONE_MASK_10)
    ensures Slots(PHONE_MASK_11) == 11 && SeparatorsAreNotDigits(PHONE_MASK_11)
  {
    CnpjMaskFacts();
    CpfMaskFacts();
    CepMaskFacts();
    Phone10MaskFacts();
    Phone11MaskFacts();
  }

  lemma CnpjMaskFacts()
    ensures Slots(CNPJ_MASK) == 14 && SeparatorsAreNotDigits(CNPJ_MASK)
  {
    SlotsGroup(2); SlotsGroup(3); SlotsGroup(4); SlotsGroup(5);
    var m := Group(2);
    MaskJoin(m, ".");
    m := m + ".";
    MaskJoin(m, Group(3));
    m := m + Group(3);
    MaskJoin(m, ".");
    m := m + ".";
    MaskJoin(m, Group(3));
    m := m + Group(3);
    MaskJoin(m, "/");
    m := m + "/";
    MaskJoin(m, Group(4));
    m := m + Group(4);
    MaskJoin(m, "-");
    m := m + "-";
    MaskJoin(m, Group(2));
    m := m + Group(2);
    assert m == CNPJ_MASK;
  }

  lemma CpfMaskFacts()
    ensures Slots(CPF_MASK) == 11 && SeparatorsAreNotDigits(CPF_MASK)
  {
    SlotsGroup(2); SlotsGroup(3); SlotsGroup(4); SlotsGroup(5);
    var m := Group(3);
    MaskJoin(m, ".");
    m := m + ".";
    MaskJoin(m, Group(3));
    m := m + Group(3);
    MaskJoin(m, ".");
    m := m + ".";
    MaskJoin(m, Group(3));
    m := m + Group(3);
    MaskJoin(m, "-");
    m := m + "-";
    MaskJoin(m, Group(2));
    m := m + Group(2);
    assert m == CPF_MASK;
  }

  lemma CepMaskFacts()
    ensures Slots(CEP_MASK) == 8 && SeparatorsAreNotDigits(CEP_MASK)
  {
    SlotsGroup(2); SlotsGroup(3); SlotsGroup(4); SlotsGroup(5);
    var m := Group(5);
    MaskJoin(m, "-");
    m := m + "-";
    MaskJoin(m, Group(3));
    m := m + Group(3);
    assert m == CEP_MASK;
  }

  lemma Phone10MaskFacts()
    ensures Slots(PHONE_MASK_10) == 10 && SeparatorsAreNotDigits(PHONE_MASK_10)
  {
    SlotsGroup(2); SlotsGroup(3); SlotsGroup(4); SlotsGroup(5);
    var m := "(";
    MaskJoin(m, Group(2));
    m := m + Group(2);
    MaskJoin(m, ") ");
    m := m + ") ";
    MaskJoin(m, Group(4));
    m := m + Group(4);
    MaskJoin(m, "-");
    m := m + "-";
    MaskJoin(m, Group(4));
    m := m + Group(4);
    assert m == PHONE_MASK_10;
  }

  lemma Phone11MaskFacts()
    ensures Slots(PHONE_MASK_11) == 11 && SeparatorsAreNotDigits(PHONE_MASK_11)
  {
    SlotsGroup(2); SlotsGroup(3); SlotsGroup(4); SlotsGroup(5);
    var m := "(";
    MaskJoin(m, Group(2));
    m := m + Group(2);
    MaskJoin(m, ") ");
    m := m + ") ";
    MaskJoin(m, Group(5));
    m := m + Group(5);
    MaskJoin(m, "-");
    m := m + "-";
    MaskJoin(m, Group(4));
    m := m + Group(4);
    assert m == PHONE_MASK_11;
  }

  /**
   * The unanchored, non-global replacement applied to an all-digit string:
   * when at least `Slots(mask)` digits are present the first ones are laid
   * out in the mask and the rest follow untouched; otherwise nothing
   * matches and the digits come back as they are.
   */
  function MaskPrefix(c: string, mask: string): (r: string)
    requires AllDigits(c) && SeparatorsAreNotDigits(mask)
    ensures DigitsOnly(r) == c
    ensures |c| == Slots(mask) ==> FitsMask(r, mask)
  {
    var n := Slots(mask);
    if |c| >= n then
      assert c[..n] + c[n..] == c;
      FillMaskDigits(c[..n], mask);
      DigitsOnlyAppend(FillMask(c[..n], mask), c[n..]);
      DigitsOnlyOfDigits(c[n..]);
      assert c[n..] == [] ==> FillMask(c[..n], mask) + c[n..] == FillMask(c[..n], mask);
      FillMask(c[..n], mask) + c[n..]
    else
      DigitsOnlyOfDigits(c);
      c
  }

  function FormatCNPJ(value: string): (r: string)
    ensures DigitsOnly(r) == DigitsOnly(value)
    ensures |DigitsOnly(value)| == 14 ==> FitsMask(r, CNPJ_MASK)
  {
    MaskFacts();
    MaskPrefix(DigitsOnly(value), CNPJ_MASK)
  }

  function FormatCPF(value: string): (r: string)
    ensures DigitsOnly(r) == DigitsOnly(value)
    ensures |DigitsOnly(value)| == 11 ==> FitsMask(r, CPF_MASK)
  {
    MaskFacts();
    MaskPrefix(DigitsOnly(value), CPF_MASK)
  }

  function FormatCEP(value: string): (r: string)
    ensures DigitsOnly(r) == DigitsOnly(value)
    ensures |DigitsOnly(value)| == 8 ==> FitsMask(r, CEP_MASK)
  {
    MaskFacts();
    MaskPrefix(DigitsOnly(value), CEP_MASK)
  }

  /**
   * Up to ten digits use the landline pattern, which only matches exactly
   * ten; eleven or more use the mobile pattern.
   */
  function FormatPhone(value: string): (r: string)
    ensures DigitsOnly(r) == DigitsOnly(value)
    ensures |DigitsOnly(value)| == 10 ==> FitsMask(r, PHONE_MASK_10)
    ensures |DigitsOnly(value)| == 11 ==> FitsMask(r, PHONE_MASK_11)
    ensures |DigitsOnly(value)| < 10 ==> r == DigitsOnly(value)
  {
    var c := DigitsOnly(value);
    MaskFacts();
    if |c| <= 10 then MaskPrefix(c, PHONE_MASK_10) else MaskPrefix(c, PHONE_MASK_11)
  }

  /** Formatting never changes the verdict of the validators. */
  lemma FormattingKeepsValidity(value: string)
    ensures CnpjValid(DigitsOnly(FormatCNPJ(value))) == CnpjValid(DigitsOnly(value))
    ensures CpfValid(DigitsOnly(FormatCPF(value))) == CpfValid(DigitsOnly(value))
    ensures ValidateCEP(FormatCEP(value)) == ValidateCEP(value)
  {
  }

  // ---------------------------------------------------------------------
  // E-mail and CEP
  // ---------------------------------------------------------------------

  /** JavaScript's `\s`. */
  predicate IsJsWhitespace(c: char)
  {
    ('\t' <= c <= '\r') || c == ' ' || c == '\U{A0}' || c == '\U{1680}' || ('\U{2000}' <= c <= '\U{200A}')
    || c == '\U{2028}' || c == '\U{2029}' || c == '\U{202F}' || c == '\U{205F}' || c == '\U{3000}' || c == '\U{FEFF}'
  }

  /** `[^\s@]+` */
  predicate PlainRun(s: string)
  {
    |s| >= 1 && forall i :: 0 <= i < |s| ==> !IsJsWhitespace(s[i]) && s[i] != '@'
  }

  /** `^[^\s@]+@[^\s@]+\.[^\s@]+$`, read literally: split points for the three runs. */
  predicate EmailPattern(s: string)
  {
    exists at, dot :: 0 <= at < dot < |s| && s[at] == '@' && s[dot] == '.'
                      && PlainRun(s[..at]) && PlainRun(s[at + 1..dot]) && PlainRun(s[dot + 1..])
  }

  function Count(s: string, c: char): nat
  {
    if s == [] then 0 else (if s[0] == c then 1 else 0) + Count(s[1..], c)
  }

  lemma {:induction false} CountAppend(a: string, b: string, c: char)
    ensures Count(a + b, c) == Count(a, c) + Count(b, c)
  {
    if a != [] {
      assert (a + b)[1..] == a[1..] + b;
      CountAppend(a[1..], b, c);
    } else {
      assert a + b == b;
    }
  }

  lemma {:induction false} CountAbsent(s: string, c: char)
    ensures Count(s, c) == 0 <==> c !in s
  {
    if s != [] {
      CountAbsent(s[1..], c);
      assert s == [s[0]] + s[1..];
    }
  }

  /** Position of the first `c`, or `|s|` when there is none. */
  function IndexOf(s: string, c: char): (k: nat)
    ensures k <= |s| && c !in s[..k]
    ensures k < |s| ==> s[k] == c
    ensures k == |s| ==> c !in s
  {
    if s == [] then 0
    else if s[0] == c then 0
    else
      var k := IndexOf(s[1..], c);
      assert s[..k + 1] == [s[0]] + s[1..][..k];
      k + 1
  }

  /** The domain contains a dot that is neither its first nor its last character. */
  predicate InnerDot(domain: string)
  {
    exists m :: 0 < m < |domain| - 1 && domain[m] == '.'
  }

  predicate NoJsWhitespace(s: string)
  {
    forall i :: 0 <= i < |s| ==> !IsJsWhitespace(s[i])
  }

  /**
   * What the e-mail pattern amounts to: no whitespace, exactly one `@`
   * with something before it, and a dot strictly inside the part after it.
   */
  predicate EmailShape(s: string)
  {
    NoJsWhitespace(s) && Count(s, '@') == 1 && 0 < IndexOf(s, '@') < |s|
    && InnerDot(s[IndexOf(s, '@') + 1..])
  }

  /** `validateEmail`: the pattern test. */
  function ValidateEmail(email: string): (r: bool)
    ensures r <==> EmailShape(email)
  {
    EmailPatternIffShape(email);
    EmailPattern(email)
  }

  lemma EmailPatternIffShape(s: string)
    ensures EmailPattern(s) <==> EmailShape(s)
  {
    if EmailPattern(s) { EmailPatternHasShape(s); }
    if EmailShape(s) { EmailShapeMatchesPattern(s); }
  }

  lemma EmailPatternHasShape(s: string)
    requires EmailPattern(s)
    ensures EmailShape(s)
  {
    var at, dot :| 0 <= at < dot < |s| && s[at] == '@' && s[dot] == '.'
                    && PlainRun(s[..at]) && PlainRun(s[at + 1..dot]) && PlainRun(s[dot + 1..]);
    PatternPartsHaveShape(s, at, dot);
  }

  /** Characters of the three runs are neither whitespace nor `@`. */
  lemma PatternPartsHaveShape(s: string, at: nat, dot: nat)
    requires at < dot < |s| && s[at] == '@' && s[dot] == '.'
    requires PlainRun(s[..at]) && PlainRun(s[at + 1..dot]) && PlainRun(s[dot + 1..])
    ensures EmailShape(s)
  {
    forall i | 0 <= i < |s| ensures !IsJsWhitespace(s[i]) && (i != at ==> s[i] != '@') {
      if i < at { assert s[i] == s[..at][i]; }
      else if at < i < dot { assert s[i] == s[at + 1..dot][i - at - 1]; }
      else if dot < i { assert s[i] == s[dot + 1..][i - dot - 1]; }
    }
    OnlyOccurrence(s, '@', at);
    var domain := s[at + 1..];
    assert domain[dot - at - 1] == '.';
  }

  /** A character found at exactly one position occurs once, and is first found there. */
  lemma OnlyOccurrence(s: string, c: char, at: nat)
    requires at < |s| && s[at] == c
    requires forall i :: 0 <= i < |s| && i != at ==> s[i] != c
    ensures Count(s, c) == 1 && IndexOf(s, c) == at
  {
    var local, rest := s[..at], s[at + 1..];
    assert s == local + [s[at]] + rest;
    assert c !in local by {
      forall i | 0 <= i < |local| ensures local[i] != c { assert local[i] == s[i]; }
    }
    assert c !in rest by {
      forall i | 0 <= i < |rest| ensures rest[i] != c { assert rest[i] == s[at + 1 + i]; }
    }
    CountAbsent(local, c);
    CountAbsent(rest, c);
    CountAppend(local, [s[at]], c);
    CountAppend(local + [s[at]], rest, c);
  }

  lemma EmailShapeMatchesPattern(s: string)
    requires EmailShape(s)
    ensures EmailPattern(s)
  {
    var at := IndexOf(s, '@');
    var local, domain := s[..at], s[at + 1..];
    var m :| 0 < m < |domain| - 1 && domain[m] == '.';
    var dot := at + 1 + m;
    assert s == local + [s[at]] + domain;
    CountAppend(local, [s[at]], '@');
    CountAppend(local + [s[at]], domain, '@');
    CountAbsent(domain, '@');
    assert s[dot] == '.';
    assert s[at + 1..dot] == domain[..m] && s[dot + 1..] == domain[m + 1..];
    assert PlainRun(local) by {
      forall i | 0 <= i < |local| ensures !IsJsWhitespace(local[i]) && local[i] != '@' {
        assert local[i] == s[i];
      }
    }
    assert PlainRun(s[at + 1..dot]) by {
      forall i | 0 <= i < m ensures !IsJsWhitespace(domain[..m][i]) && domain[..m][i] != '@' {
        assert domain[..m][i] == s[at + 1 + i];
      }
    }
    var tail := domain[m + 1..];
    assert PlainRun(tail) by {
      forall i | 0 <= i < |tail| ensures !IsJsWhitespace(tail[i]) && tail[i] != '@' {
        assert tail[i] == s[dot + 1 + i];
      }
    }
  }

  /** `validateCEP`: exactly eight digits once everything else is dropped. */
  function ValidateCEP(cep: string): bool
  {
    |DigitsOnly(cep)| == 8
  }

  /** A CEP passes exactly when its mask fills completely. */
  lemma ValidateCEPIffMasked(cep: string)
    ensures ValidateCEP(cep) <==> FitsMask(FormatCEP(cep), CEP_MASK)
  {
    MaskFacts();
    if FitsMask(FormatCEP(cep), CEP_MASK) {
      var r := FormatCEP(cep);
      assert forall i :: 0 <= i < |r| && CEP_MASK[i] != 'd' ==> !IsDigit(r[i]);
      FillMaskDigitsCount(r, CEP_MASK);
    }
  }

  /** Whatever fits a mask holds exactly as many digits as the mask has slots. */
  lemma {:induction false} FillMaskDigitsCount(s: string, mask: string)
    requires FitsMask(s, mask) && SeparatorsAreNotDigits(mask)
    ensures |DigitsOnly(s)| == Slots(mask)
  {
    if mask != [] {
      assert FitsMask(s[1..], mask[1..]) by {
        forall i | 0 <= i < |s[1..]|
          ensures if mask[1..][i] == 'd' then IsDigit(s[1..][i]) else s[1..][i] == mask[1..][i]
        {
          assert s[1..][i] == s[i + 1] && mask[1..][i] == mask[i + 1];
        }
      }
      assert SeparatorsAreNotDigits(mask[1..]) by {
        forall i | 0 <= i < |mask[1..]| ensures mask[1..][i] == 'd' || !IsDigit(mask[1..][i]) {
          assert mask[1..][i] == mask[i + 1];
        }
      }
      FillMaskDigitsCount(s[1..], mask[1..]);
    }
  }

  // ---------------------------------------------------------------------
  // Loading state of a button
  // ---------------------------------------------------------------------

  const SPINNER_HTML := "<span class=\"loading-spinner\"></span> Processando..."

  /** `innerHTML`, `disabled` and `dataset.originalText` (None when absent). */
  datatype ButtonState = ButtonState(innerHTML: string, disabled: bool, originalText: Option<string>)

  /** `showLoading`: remember the label, show the spinner, disable. */
  function ShowLoadingState(b: ButtonState): (r: ButtonState)
    ensures r.disabled && r.innerHTML == SPINNER_HTML && r.originalText == Some(b.innerHTML)
  {
    ButtonState(SPINNER_HTML, true, Some(b.innerHTML))
  }

  /**
   * `hideLoading`: does nothing unless a non-empty label was saved (an
   * empty string is falsy); otherwise restores it, re-enables and forgets it.
   */
  function HideLoadingState(b: ButtonState): (r: ButtonState)
    ensures b.originalText.None? || b.originalText == Some("") ==> r == b
    ensures b.originalText.Some? && b.originalText.value != "" ==>
      r.innerHTML == b.originalText.value && !r.disabled && r.originalText.None?
  {
    if b.originalText.None? || b.originalText.value == "" then b
    else ButtonState(b.originalText.value, false, None)
  }

  /** Showing then hiding gives back the label and an enabled button, if the label was not empty. */
  lemma LoadingRoundTrip(b: ButtonState)
    ensures b.innerHTML != "" ==> HideLoadingState(ShowLoadingState(b)) == ButtonState(b.innerHTML, false, None)
    ensures b.innerHTML == "" ==> HideLoadingState(ShowLoadingState(b)).disabled
  {
  }

  /** Showing twice saves the spinner itself, so hiding then leaves the spinner in place. */
  lemma DoubleShowLosesLabel(b: ButtonState)
    ensures HideLoadingState(ShowLoadingState(ShowLoadingState(b))).innerHTML == SPINNER_HTML
  {
  }

  /** A button element; the methods change it in place. */
  class LoadingButton {
    var innerHTML: string
    var disabled: bool
    var originalText: Option<string>

    function State(): ButtonState
      reads this
    {
      ButtonState(innerHTML, disabled, originalText)
    }

    constructor (html: string, isDisabled: bool)
      ensures State() == ButtonState(html, isDisabled, None)
    {
      innerHTML := html;
      disabled := isDisabled;
      originalText := None;
    }

    method ShowLoading()
      modifies this
      ensures State() == ShowLoadingState(old(State()))
    {
      var original := innerHTML;
      innerHTML := SPINNER_HTML;
      disabled := true;
      originalText := Some(original);
    }

    method HideLoading()
      modifies this
      ensures State() == HideLoadingState(old(State()))
    {
      if originalText.None? || originalText.value == "" {
        return;
      }
      innerHTML := originalText.value;
      disabled := false;
      originalText := None;
    }
  }
}
