/**
 * The pricing rules of a service line item (`LancamentoServico`) and the
 * bookkeeping of a service order (`OrdemServico`): the stored list of
 * children's ages, the split of children into exempt, child-price and
 * full-price groups, the line total, the snapshot of unit prices, the
 * order number, the order total and the itinerary text with its money
 * rendering. Money is in integer cents.
 *
 * Source: servicos/models.py.
 */
module ServiceModels {
  import opened Common

  // ---------------------------------------------------------------------
  // Services
  // ---------------------------------------------------------------------

  /** The pricing and age fields of a service (`SubCategoria`); prices in cents. */
  datatype Service = Service(
    nome: string, descricao: string,
    valorInteira: int, valorMeia: int, valorInfantil: int,
    aceitaMeiaEntrada: bool,
    permiteInfantil: bool, idadeMinimaInfantil: int, idadeMaximaInfantil: int,
    possuiIsencao: bool, idadeIsencaoMin: int, idadeIsencaoMax: int,
    temIdadeMinima: bool, idadeMinima: int)

  predicate InExemptionRange(age: int, s: Service)
  {
    s.idadeIsencaoMin <= age <= s.idadeIsencaoMax
  }

  /** A child the service lets in free: it has an exemption and the age is in its range. */
  predicate IsExempt(age: int, s: Service)
  {
    s.possuiIsencao && InExemptionRange(age, s)
  }

  predicate InChildRange(age: int, s: Service)
  {
    s.idadeMinimaInfantil <= age <= s.idadeMaximaInfantil
  }

  // ---------------------------------------------------------------------
  // The stored ages
  // ---------------------------------------------------------------------

  /**
   * The value of `idades_criancas`: the text the database holds, or a
   * Python list assigned in memory and not yet reloaded.
   */
  datatype AgesField = AgesText(text: string) | AgesList(items: seq<int>)

  /**
   * The list comprehension over the pieces: blank pieces are skipped, the
   * others must parse as integers, and one that does not spoils the whole.
   */
  function ParsePieces(pieces: seq<string>): (r: Option<seq<int>>)
    ensures r.Some? ==> |r.value| <= |pieces|
  {
    if pieces == [] then Some([])
    else
      var rest := ParsePieces(pieces[1..]);
      var piece := Strip(pieces[0]);
      if piece == "" then rest
      else
        var age := PyParseInt(piece);
        if age.None? || rest.None? then None else Some([age.value] + rest.value)
  }

  /** `get_idades_lista`: the ages as integers, or [] when there are none or any piece is not a number. */
  function GetIdadesLista(f: AgesField): (r: seq<int>)
    ensures f.AgesList? ==> r == f.items
    ensures f.AgesText? && f.text == "" ==> r == []
  {
    match f
    case AgesList(items) => items
    case AgesText(text) =>
      if text == "" then []
      else
        var parsed := ParsePieces(Split(text, ','));
        if parsed.None? then [] else parsed.value
  }

  /** `map(str, ages)` */
  function AgeStrings(ages: seq<int>): (r: seq<string>)
    ensures |r| == |ages|
  {
    if ages == [] then [] else [IntToString(ages[0])] + AgeStrings(ages[1..])
  }

  /** `','.join(map(str, idades)) if idades else ''`, the way the order views store the ages. */
  function EncodeAges(ages: seq<int>): string
  {
    if ages == [] then "" else Join(AgeStrings(ages), ",")
  }

  /** A numeral holds no comma and no whitespace. */
  lemma NumeralIsPlain(s: string)
    requires forall k :: 0 <= k < |s| ==> IsDigit(s[k]) || s[k] == '-'
    ensures ',' !in s && Strip(s) == s
  {
    assert forall k :: 0 <= k < |s| ==> s[k] != ',';
    forall k | 0 <= k < |s| ensures !IsPyWhitespace(s[k]) {
      assert IsDigit(s[k]) || s[k] == '-';
    }
    StripOfNoWhitespace(s);
  }

  lemma IntStringIsPlain(i: int)
    ensures ',' !in IntToString(i)
    ensures Strip(IntToString(i)) == IntToString(i) && IntToString(i) != ""
  {
    var s := IntToString(i);
    assert forall k :: 0 <= k < |s| ==> IsDigit(s[k]) || s[k] == '-';
    NumeralIsPlain(s);
  }

  lemma ParsePiecesStep(pieces: seq<string>, age: int, rest: seq<int>)
    requires pieces != []
    requires Strip(pieces[0]) == pieces[0] != "" && PyParseInt(pieces[0]) == Some(age)
    requires ParsePieces(pieces[1..]) == Some(rest)
    ensures ParsePieces(pieces) == Some([age] + rest)
  {
    var piece := Strip(pieces[0]);
    assert piece == pieces[0] && piece != "";
    assert PyParseInt(piece) == Some(age);
  }

  lemma HeadTail(s: seq<int>)
    requires s != []
    ensures [s[0]] + s[1..] == s
  {
  }

  /** `str(i)` is a piece the ages reader accepts, and reads back as `i`. */
  lemma AgeStringReadsBack(i: int)
    ensures Strip(IntToString(i)) == IntToString(i) != "" && PyParseInt(IntToString(i)) == Some(i)
  {
    IntStringIsPlain(i);
    PyParseIntToString(i);
  }

  lemma {:induction false} ParsePiecesOfAgeStrings(ages: seq<int>)
    ensures ParsePieces(AgeStrings(ages)) == Some(ages)
  {
    if ages != [] {
      var pieces := AgeStrings(ages);
      assert pieces[0] == IntToString(ages[0]) && pieces[1..] == AgeStrings(ages[1..]);
      ParsePiecesOfAgeStrings(ages[1..]);
      AgeStringReadsBack(ages[0]);
      ParsePiecesStep(pieces, ages[0], ages[1..]);
      HeadTail(ages);
    }
  }

  lemma {:induction false} AgeStringsAt(ages: seq<int>, i: nat)
    requires i < |ages|
    ensures AgeStrings(ages)[i] == IntToString(ages[i])
  {
    if i > 0 {
      AgeStringsAt(ages[1..], i - 1);
      assert AgeStrings(ages)[i] == AgeStrings(ages[1..])[i - 1];
    }
  }

  lemma AgeStringsHaveNoComma(ages: seq<int>)
    ensures forall i :: 0 <= i < |ages| ==> ',' !in AgeStrings(ages)[i]
  {
    forall i | 0 <= i < |ages| ensures ',' !in AgeStrings(ages)[i] {
      AgeStringsAt(ages, i);
      IntStringIsPlain(ages[i]);
    }
  }

  lemma JoinNotEmpty(parts: seq<string>, sep: string)
    requires parts != [] && parts[0] != ""
    ensures Join(parts, sep) != ""
  {
  }

  lemma ReadAges(text: string, ages: seq<int>)
    requires text != "" && ParsePieces(Split(text, ',')) == Some(ages)
    ensures GetIdadesLista(AgesText(text)) == ages
  {
  }

  /** Reading back the stored encoding gives the ages that were stored. */
  lemma AgesRoundTrip(ages: seq<int>)
    ensures GetIdadesLista(AgesText(EncodeAges(ages))) == ages
  {
    if ages != [] {
      var pieces := AgeStrings(ages);
      var text := Join(pieces, ",");
      assert Split(text, ',') == pieces by {
        AgeStringsHaveNoComma(ages);
        SplitJoin(pieces, ',');
      }
      assert text != "" by {
        IntStringIsPlain(ages[0]);
        assert pieces[0] == IntToString(ages[0]);
        JoinNotEmpty(pieces, ",");
      }
      ParsePiecesOfAgeStrings(ages);
      ReadAges(text, ages);
    }
  }

  // ---------------------------------------------------------------------
  // Counting children
  // ---------------------------------------------------------------------

  /** Ages in the exemption range, whether or not the service has an exemption. */
  function CountInExemptionRange(ages: seq<int>, s: Service): (n: nat)
    ensures n <= |ages|
  {
    if ages == [] then 0
    else CountInExemptionRange(ages[..|ages| - 1], s) + (if InExemptionRange(ages[|ages| - 1], s) then 1 else 0)
  }

  /** Ages the service lets in free. */
  function CountExempt(ages: seq<int>, s: Service): (n: nat)
    ensures n <= |ages|
    ensures !s.possuiIsencao ==> n == 0
  {
    if ages == [] then 0
    else CountExempt(ages[..|ages| - 1], s) + (if IsExempt(ages[|ages| - 1], s) then 1 else 0)
  }

  /** Ages not exempt and inside the child range. */
  function CountChildPrice(ages: seq<int>, s: Service): (n: nat)
    ensures n <= |ages|
  {
    if ages == [] then 0
    else
      var last := ages[|ages| - 1];
      CountChildPrice(ages[..|ages| - 1], s) + (if !IsExempt(last, s) && InChildRange(last, s) then 1 else 0)
  }

  /** Ages not exempt and outside the child range. */
  function CountFullPrice(ages: seq<int>, s: Service): (n: nat)
    ensures n <= |ages|
  {
    if ages == [] then 0
    else
      var last := ages[|ages| - 1];
      CountFullPrice(ages[..|ages| - 1], s) + (if !IsExempt(last, s) && !InChildRange(last, s) then 1 else 0)
  }

  /** Every child falls in exactly one of the three groups. */
  lemma {:induction false} AgesPartition(ages: seq<int>, s: Service)
    ensures CountExempt(ages, s) + CountChildPrice(ages, s) + CountFullPrice(ages, s) == |ages|
  {
    if ages != [] {
      AgesPartition(ages[..|ages| - 1], s);
    }
  }

  lemma CountExemptSnoc(ages: seq<int>, i: nat, s: Service)
    requires i < |ages|
    ensures CountExempt(ages[..i + 1], s) == CountExempt(ages[..i], s) + (if IsExempt(ages[i], s) then 1 else 0)
  {
    assert ages[..i + 1][..i] == ages[..i];
  }

  lemma CountChildPriceSnoc(ages: seq<int>, i: nat, s: Service)
    requires i < |ages|
    ensures CountChildPrice(ages[..i + 1], s)
            == CountChildPrice(ages[..i], s) + (if !IsExempt(ages[i], s) && InChildRange(ages[i], s) then 1 else 0)
  {
    assert ages[..i + 1][..i] == ages[..i];
  }

  lemma CountFullPriceSnoc(ages: seq<int>, i: nat, s: Service)
    requires i < |ages|
    ensures CountFullPrice(ages[..i + 1], s)
            == CountFullPrice(ages[..i], s) + (if !IsExempt(ages[i], s) && !InChildRange(ages[i], s) then 1 else 0)
  {
    assert ages[..i + 1][..i] == ages[..i];
  }

  /** The loop of `qtd_infantil_pagam_infantil`: the children neither exempt nor outside the child range. */
  method CountChildPriceLoop(idades: seq<int>, s: Service) returns (count: nat)
    ensures count == CountChildPrice(idades, s)
  {
    count := 0;
    var i := 0;
    while i < |idades|
      invariant 0 <= i <= |idades|
      invariant count == CountChildPrice(idades[..i], s)
    {
      CountChildPriceSnoc(idades, i, s);
      if !IsExempt(idades[i], s) && InChildRange(idades[i], s) {
        count := count + 1;
      }
      i := i + 1;
    }
    assert idades[..|idades|] == idades;
  }

  lemma CountInExemptionRangeSnoc(ages: seq<int>, i: nat, s: Service)
    requires i < |ages|
    ensures CountInExemptionRange(ages[..i + 1], s)
            == CountInExemptionRange(ages[..i], s) + (if InExemptionRange(ages[i], s) then 1 else 0)
  {
    assert ages[..i + 1][..i] == ages[..i];
  }

  /** For a service with an exemption, the exempt children are those in the exemption range. */
  lemma {:induction false} ExemptIsRangeWhenFlagSet(ages: seq<int>, s: Service)
    requires s.possuiIsencao
    ensures CountExempt(ages, s) == CountInExemptionRange(ages, s)
  {
    if ages != [] {
      ExemptIsRangeWhenFlagSet(ages[..|ages| - 1], s);
    }
  }

  /**
   * `qtd_infantil_isentas` as written: it counts the ages in the exemption
   * range without asking whether the service has an exemption at all.
   */
  function QtdInfantilIsentasAsWritten(ages: seq<int>, sub: Option<Service>): (n: nat)
    ensures n <= |ages|
  {
    if ages == [] || sub.None? then 0 else CountInExemptionRange(ages, sub.value)
  }

  /**
   * `qtd_infantil_isentas` corrected: only the children the service
   * actually exempts.
   */
  function QtdInfantilIsentas(ages: seq<int>, sub: Option<Service>): (n: nat)
    ensures n <= |ages|
    ensures sub.None? || !sub.value.possuiIsencao ==> n == 0
    ensures sub.Some? ==> n == CountExempt(ages, sub.value)
  {
    if ages == [] || sub.None? then 0 else CountExempt(ages, sub.value)
  }

  /** `qtd_infantil_pagas` as written: the children less `qtd_infantil_isentas` as written. */
  function QtdInfantilPagasAsWritten(qtdInfantil: nat, ages: seq<int>, sub: Option<Service>): (n: int)
    ensures qtdInfantil - |ages| <= n <= qtdInfantil
  {
    qtdInfantil - QtdInfantilIsentasAsWritten(ages, sub)
  }

  /** `qtd_infantil_pagas` corrected: the children less those actually exempt. */
  function QtdInfantilPagas(qtdInfantil: nat, ages: seq<int>, sub: Option<Service>): (n: int)
    ensures qtdInfantil - |ages| <= n <= qtdInfantil
  {
    qtdInfantil - QtdInfantilIsentas(ages, sub)
  }

  /**
   * The two counts of paying children differ only for a service without
   * an exemption, where the code as written also takes away every child
   * whose age falls in the unused exemption range.
   */
  lemma PagasAsWrittenVsCorrected(qtdInfantil: nat, ages: seq<int>, sub: Option<Service>)
    ensures QtdInfantilPagasAsWritten(qtdInfantil, ages, sub)
      == QtdInfantilPagas(qtdInfantil, ages, sub)
         - (if sub.Some? && !sub.value.possuiIsencao then CountInExemptionRange(ages, sub.value) else 0)
  {
    if sub.Some? && sub.value.possuiIsencao {
      ExemptIsRangeWhenFlagSet(ages, sub.value);
    }
  }

  /** Whether a service prices children at the child rate at all. */
  predicate HasChildPrice(s: Service)
  {
    s.aceitaMeiaEntrada && s.permiteInfantil
  }

  /** `qtd_infantil_pagam_inteira` as written. */
  function QtdInfantilPagamInteiraAsWritten(qtdInfantil: nat, ages: seq<int>, sub: Option<Service>): (n: int)
    ensures sub.Some? && !HasChildPrice(sub.value) ==> n == QtdInfantilPagasAsWritten(qtdInfantil, ages, sub)
    ensures sub.Some? && HasChildPrice(sub.value) ==> n == CountFullPrice(ages, sub.value)
  {
    if sub.None? then 0
    else if !HasChildPrice(sub.value) then QtdInfantilPagasAsWritten(qtdInfantil, ages, sub)
    else CountFullPrice(ages, sub.value)
  }

  /** `qtd_infantil_pagam_inteira` corrected, on the corrected count of paying children. */
  function QtdInfantilPagamInteira(qtdInfantil: nat, ages: seq<int>, sub: Option<Service>): (n: int)
    ensures sub.Some? && !HasChildPrice(sub.value) ==> n == QtdInfantilPagas(qtdInfantil, ages, sub)
    ensures sub.Some? && HasChildPrice(sub.value) ==> n == CountFullPrice(ages, sub.value)
  {
    if sub.None? then 0
    else if !HasChildPrice(sub.value) then QtdInfantilPagas(qtdInfantil, ages, sub)
    else CountFullPrice(ages, sub.value)
  }

  /** `qtd_infantil_pagam_infantil` */
  function QtdInfantilPagamInfantil(ages: seq<int>, sub: Option<Service>): (n: nat)
    ensures sub.None? || !HasChildPrice(sub.value) ==> n == 0
    ensures sub.Some? && HasChildPrice(sub.value) ==> n == CountChildPrice(ages, sub.value)
  {
    if sub.None? || !HasChildPrice(sub.value) then 0 else CountChildPrice(ages, sub.value)
  }

  /**
   * As written, when the service prices children at the child rate, a
   * child in the exemption range of a service without an exemption is
   * counted twice: as exempt, and at the child or the full rate.
   */
  lemma ChildrenAccountedForAsWritten(qtdInfantil: nat, ages: seq<int>, s: Service)
    requires HasChildPrice(s)
    ensures QtdInfantilIsentasAsWritten(ages, Some(s)) + QtdInfantilPagamInfantil(ages, Some(s))
      + QtdInfantilPagamInteiraAsWritten(qtdInfantil, ages, Some(s))
      == |ages| + (if s.possuiIsencao then 0 else CountInExemptionRange(ages, s))
  {
    AgesPartition(ages, s);
    if s.possuiIsencao {
      ExemptIsRangeWhenFlagSet(ages, s);
    }
  }

  /**
   * Corrected, when the service prices children at the child rate, the
   * exempt, the child-price and the full-price children are all the
   * children listed, each counted once.
   */
  lemma ChildrenAccountedFor(qtdInfantil: nat, ages: seq<int>, s: Service)
    requires HasChildPrice(s)
    ensures QtdInfantilIsentas(ages, Some(s)) + QtdInfantilPagamInfantil(ages, Some(s))
      + QtdInfantilPagamInteira(qtdInfantil, ages, Some(s)) == |ages|
  {
    AgesPartition(ages, s);
  }

  /**
   * Otherwise nobody pays the child rate, and the counted-exempt and the
   * full-price children are all the children, as written and corrected.
   */
  lemma NoChildRateMeansFullRate(qtdInfantil: nat, ages: seq<int>, s: Service)
    requires !HasChildPrice(s)
    ensures QtdInfantilPagamInfantil(ages, Some(s)) == 0
    ensures QtdInfantilIsentasAsWritten(ages, Some(s)) + QtdInfantilPagamInteiraAsWritten(qtdInfantil, ages, Some(s)) == qtdInfantil
    ensures QtdInfantilIsentas(ages, Some(s)) + QtdInfantilPagamInteira(qtdInfantil, ages, Some(s)) == qtdInfantil
  {
  }

  /**
   * `valor_total` as written: adults at the full and half rates, then the
   * children who pay the child rate and those who pay the full rate;
   * counted-exempt children and transfers add nothing.
   */
  function ValorTotalAsWritten(qtdInteira: nat, qtdMeia: nat, qtdInfantil: nat, ages: seq<int>,
                               sub: Option<Service>, unitInteira: int, unitMeia: int, unitInfantil: int): (total: int)
    ensures sub.None? ==> total == qtdInteira * unitInteira + qtdMeia * unitMeia
  {
    qtdInteira * unitInteira + qtdMeia * unitMeia
    + QtdInfantilPagamInfantil(ages, sub) * unitInfantil
    + QtdInfantilPagamInteiraAsWritten(qtdInfantil, ages, sub) * unitInteira
  }

  /** `valor_total` corrected, on the corrected count of full-price children. */
  function ValorTotal(qtdInteira: nat, qtdMeia: nat, qtdInfantil: nat, ages: seq<int>,
                      sub: Option<Service>, unitInteira: int, unitMeia: int, unitInfantil: int): (total: int)
    ensures sub.None? ==> total == qtdInteira * unitInteira + qtdMeia * unitMeia
  {
    qtdInteira * unitInteira + qtdMeia * unitMeia
    + QtdInfantilPagamInfantil(ages, sub) * unitInfantil
    + QtdInfantilPagamInteira(qtdInfantil, ages, sub) * unitInteira
  }

  /**
   * The two totals differ only for a service without an exemption and
   * without the child rate: as written it leaves out the full price of
   * every child in the unused exemption range.
   */
  lemma ValorTotalAsWrittenVsCorrected(qtdInteira: nat, qtdMeia: nat, qtdInfantil: nat, ages: seq<int>,
                                       sub: Option<Service>, unitInteira: int, unitMeia: int, unitInfantil: int)
    ensures ValorTotalAsWritten(qtdInteira, qtdMeia, qtdInfantil, ages, sub, unitInteira, unitMeia, unitInfantil)
      == ValorTotal(qtdInteira, qtdMeia, qtdInfantil, ages, sub, unitInteira, unitMeia, unitInfantil)
         - (if sub.Some? && !HasChildPrice(sub.value) && !sub.value.possuiIsencao
            then CountInExemptionRange(ages, sub.value) * unitInteira else 0)
  {
    PagasAsWrittenVsCorrected(qtdInfantil, ages, sub);
    if sub.Some? && !HasChildPrice(sub.value) && !sub.value.possuiIsencao {
      var c := CountInExemptionRange(ages, sub.value);
      var p := QtdInfantilPagas(qtdInfantil, ages, sub);
      assert (p - c) * unitInteira == p * unitInteira - c * unitInteira;
    }
  }

  /**
   * A service without any exemption that takes no half-price tickets,
   * with the default exemption range 0..0: a baby aged 0 at the full price
   * of R$ 100,00 is charged nothing as written, and the full price with
   * the exemption flag respected.
   */
  lemma ExemptionFlagIgnoredAsWritten()
    ensures var s := Service("Passeio", "", 10000, 5000, 5000, false, true, 0, 12, false, 0, 0, false, 0);
      && !IsExempt(0, s)
      && ValorTotalAsWritten(0, 0, 1, [0], Some(s), 10000, 5000, 5000) == 0
      && ValorTotal(0, 0, 1, [0], Some(s), 10000, 5000, 5000) == 10000
  {
    var s := Service("Passeio", "", 10000, 5000, 5000, false, true, 0, 12, false, 0, 0, false, 0);
    OneChildInUnusedRange(s, 0, 10000, 5000, 5000);
  }

  /** One child in the exemption range of a service with neither an exemption nor the child rate. */
  lemma OneChildInUnusedRange(s: Service, age: int, unitInteira: int, unitMeia: int, unitInfantil: int)
    requires !HasChildPrice(s) && !s.possuiIsencao && InExemptionRange(age, s)
    ensures ValorTotalAsWritten(0, 0, 1, [age], Some(s), unitInteira, unitMeia, unitInfantil) == 0
    ensures ValorTotal(0, 0, 1, [age], Some(s), unitInteira, unitMeia, unitInfantil) == unitInteira
  {
    assert [age][..0] == [];
    assert CountInExemptionRange([age], s) == 1;
    assert CountExempt([age], s) == 0;
  }

  /**
   * With non-negative prices and no more ages than children the line
   * total is never negative, as written and corrected.
   */
  lemma ValorTotalNonNegative(qtdInteira: nat, qtdMeia: nat, qtdInfantil: nat, ages: seq<int>,
                              sub: Option<Service>, unitInteira: int, unitMeia: int, unitInfantil: int)
    requires unitInteira >= 0 && unitMeia >= 0 && unitInfantil >= 0 && |ages| <= qtdInfantil
    ensures ValorTotalAsWritten(qtdInteira, qtdMeia, qtdInfantil, ages, sub, unitInteira, unitMeia, unitInfantil) >= 0
    ensures ValorTotal(qtdInteira, qtdMeia, qtdInfantil, ages, sub, unitInteira, unitMeia, unitInfantil) >= 0
  {
    var asWritten := QtdInfantilPagamInteiraAsWritten(qtdInfantil, ages, sub);
    assert asWritten >= 0;
    assert asWritten * unitInteira >= 0;
    var corrected := QtdInfantilPagamInteira(qtdInfantil, ages, sub);
    assert corrected >= 0;
    assert corrected * unitInteira >= 0;
  }

  /** A line of one exempt child costs nothing, whatever the prices, as written and corrected. */
  lemma ExemptChildCostsNothing(age: int, s: Service, unitInteira: int, unitMeia: int, unitInfantil: int)
    requires IsExempt(age, s)
    ensures ValorTotalAsWritten(0, 0, 1, [age], Some(s), unitInteira, unitMeia, unitInfantil) == 0
    ensures ValorTotal(0, 0, 1, [age], Some(s), unitInteira, unitMeia, unitInfantil) == 0
  {
    assert [age][..0] == [];
  }

  // ---------------------------------------------------------------------
  // The line item
  // ---------------------------------------------------------------------

  /** A `LancamentoServico` row; `saved` stands for having a primary key. */
  class LancamentoServico {
    var saved: bool
    var subcategoria: Option<Service>
    var qtdInteira: nat
    var qtdMeia: nat
    var qtdInfantil: nat
    var idadesCriancas: AgesField
    var valorUnitInteira: int
    var valorUnitMeia: int
    var valorUnitInfantil: int

    constructor (sub: Option<Service>, inteira: nat, meia: nat, infantil: nat, ages: AgesField)
      ensures !saved && subcategoria == sub && idadesCriancas == ages
      ensures qtdInteira == inteira && qtdMeia == meia && qtdInfantil == infantil
      ensures valorUnitInteira == 0 && valorUnitMeia == 0 && valorUnitInfantil == 0
    {
      saved := false;
      subcategoria := sub;
      qtdInteira := inteira;
      qtdMeia := meia;
      qtdInfantil := infantil;
      idadesCriancas := ages;
      valorUnitInteira := 0;
      valorUnitMeia := 0;
      valorUnitInfantil := 0;
    }

    function Ages(): seq<int>
      reads this
    {
      GetIdadesLista(idadesCriancas)
    }

    /** `total_pax` */
    function TotalPax(): (n: nat)
      reads this
      ensures n >= qtdInteira && n >= qtdMeia && n >= qtdInfantil
      ensures n == 0 <==> qtdInteira == 0 && qtdMeia == 0 && qtdInfantil == 0
    {
      qtdInteira + qtdMeia + qtdInfantil
    }

    /**
     * The counting loop of `qtd_infantil_isentas`: the ages in the
     * exemption range, whatever the exemption flag says.
     */
    method QtdInfantilIsentasLoop() returns (count: nat)
      ensures count == QtdInfantilIsentasAsWritten(Ages(), subcategoria)
    {
      var idades := Ages();
      if idades == [] || subcategoria.None? {
        return 0;
      }
      var s := subcategoria.value;
      count := 0;
      var i := 0;
      while i < |idades|
        invariant 0 <= i <= |idades|
        invariant count == CountInExemptionRange(idades[..i], s)
      {
        CountInExemptionRangeSnoc(idades, i, s);
        if s.idadeIsencaoMin <= idades[i] <= s.idadeIsencaoMax {
          count := count + 1;
        }
        i := i + 1;
      }
      assert idades[..|idades|] == idades;
    }

    /**
     * `qtd_infantil_pagam_inteira`: without the child rate, the children
     * less those counted exempt; otherwise the loop over the ages.
     */
    method QtdInfantilPagamInteiraLoop() returns (count: int)
      ensures count == QtdInfantilPagamInteiraAsWritten(qtdInfantil, Ages(), subcategoria)
    {
      if subcategoria.None? {
        return 0;
      }
      var s := subcategoria.value;
      if !s.aceitaMeiaEntrada || !s.permiteInfantil {
        var isentas := QtdInfantilIsentasLoop();
        return qtdInfantil - isentas;
      }
      var idades := Ages();
      count := 0;
      var i := 0;
      while i < |idades|
        invariant 0 <= i <= |idades|
        invariant count == CountFullPrice(idades[..i], s)
      {
        CountFullPriceSnoc(idades, i, s);
        if !IsExempt(idades[i], s) && (idades[i] < s.idadeMinimaInfantil || idades[i] > s.idadeMaximaInfantil) {
          count := count + 1;
        }
        i := i + 1;
      }
      assert idades[..|idades|] == idades;
    }

    /** `qtd_infantil_pagam_infantil`: no service or no child rate counts nobody; otherwise the loop counts. */
    method QtdInfantilPagamInfantilLoop() returns (count: nat)
      ensures count == QtdInfantilPagamInfantil(Ages(), subcategoria)
    {
      if subcategoria.None? || !subcategoria.value.aceitaMeiaEntrada || !subcategoria.value.permiteInfantil {
        return 0;
      }
      count := CountChildPriceLoop(Ages(), subcategoria.value);
    }

    /** `valor_total`, accumulated term by term as written. */
    method ComputeValorTotal() returns (total: int)
      ensures total == ValorTotalAsWritten(qtdInteira, qtdMeia, qtdInfantil, Ages(), subcategoria,
                                  valorUnitInteira, valorUnitMeia, valorUnitInfantil)
    {
      total := 0;
      total := total + qtdInteira * valorUnitInteira;
      total := total + qtdMeia * valorUnitMeia;
      var infantil := QtdInfantilPagamInfantilLoop();
      total := total + infantil * valorUnitInfantil;
      var inteira := QtdInfantilPagamInteiraLoop();
      total := total + inteira * valorUnitInteira;
    }

    /**
     * `save`: on the first save only, the unit prices are copied from the
     * service, so later price changes leave saved items alone.
     */
    method Save()
      modifies this
      ensures saved
      ensures !old(saved) && subcategoria.Some? ==>
        valorUnitInteira == subcategoria.value.valorInteira
        && valorUnitMeia == subcategoria.value.valorMeia
        && valorUnitInfantil == subcategoria.value.valorInfantil
      ensures old(saved) || subcategoria.None? ==>
        valorUnitInteira == old(valorUnitInteira) && valorUnitMeia == old(valorUnitMeia)
        && valorUnitInfantil == old(valorUnitInfantil)
      ensures subcategoria == old(subcategoria) && idadesCriancas == old(idadesCriancas)
      ensures qtdInteira == old(qtdInteira) && qtdMeia == old(qtdMeia) && qtdInfantil == old(qtdInfantil)
    {
      if !saved && subcategoria.Some? {
        valorUnitInteira := subcategoria.value.valorInteira;
        valorUnitMeia := subcategoria.value.valorMeia;
        valorUnitInfantil := subcategoria.value.valorInfantil;
      }
      saved := true;
    }
  }

  // ---------------------------------------------------------------------
  // Order numbers
  // ---------------------------------------------------------------------

  /** `f'{n:05d}'`: five digits at least, the sign counting towards the width. */
  function Pad05(n: int): (r: string)
    ensures n >= 0 ==> |r| >= 5 && AllDigits(r) && ParseNat(r) == n
  {
    if n < 0 then "-" + ZeroPad(-n, 4) else ZeroPad(n, 5)
  }

  /** `f'{ano}-{n:05d}'` */
  function OsNumber(year: nat, n: int): string
  {
    NatToString(year) + "-" + Pad05(n)
  }

  /**
   * The sequence number after the last order of the year: the integer
   * after the first '-', plus one; 1 when there is no such order, no '-'
   * or no integer there.
   */
  function NextSequence(last: Option<string>): (n: int)
    ensures last.None? || last.value == "" ==> n == 1
  {
    if last.None? || last.value == "" then 1
    else
      var parts := Split(last.value, '-');
      if |parts| < 2 then 1
      else match PyParseInt(Strip(parts[1]))
        case None => 1
        case Some(k) => k + 1
  }

  lemma DigitsArePlain(s: string)
    requires AllDigits(s) && s != ""
    ensures '-' !in s && Strip(s) == s && PyParseInt(s) == Some(ParseNat(s) as int)
  {
    assert forall k :: 0 <= k < |s| ==> s[k] != '-';
    NumeralIsPlain(s);
    assert IsDigit(s[0]);
    assert s[0] != '-' && s[0] != '+';
  }

  lemma NextSequenceOfParts(prefix: string, seqText: string, k: int)
    requires '-' !in prefix && '-' !in seqText
    requires Strip(seqText) == seqText && PyParseInt(seqText) == Some(k)
    ensures NextSequence(Some(prefix + "-" + seqText)) == k + 1
  {
    var parts := [prefix, seqText];
    assert Join(parts, "-") == prefix + "-" + seqText by {
      assert parts[1..] == [seqText];
    }
    SplitJoin(parts, '-');
    assert |prefix + "-" + seqText| > 0;
  }

  /** The number after a number this rule produced is the next in the sequence. */
  lemma NextSequenceFollows(year: nat, n: nat)
    ensures NextSequence(Some(OsNumber(year, n))) == n + 1
  {
    var y, p := NatToString(year), Pad05(n);
    DigitsArePlain(y);
    DigitsArePlain(p);
    NextSequenceOfParts(y, p, n);
  }

  /** A fresh year, or an unreadable last number, starts the sequence at 00001. */
  lemma FirstNumberOfTheYear(year: nat)
    ensures OsNumber(year, NextSequence(None)) == NatToString(year) + "-00001"
  {
    assert NatToString(1) == "1";
  }

  // ---------------------------------------------------------------------
  // Money rendering
  // ---------------------------------------------------------------------

  /** Digits of `n` in groups of three separated by `sep`, as the `,` format option writes them. */
  function GroupThousands(n: nat, sep: char): string
  {
    if n < 1000 then NatToString(n) else GroupThousands(n / 1000, sep) + [sep] + ZeroPad(n % 1000, 3)
  }

  /** `f"R$ {v:,.2f}"` for a non-negative amount in cents. */
  function PyMoney(cents: nat): string
  {
    "R$ " + GroupThousands(cents / 100, ',') + "." + ZeroPad(cents % 100, 2)
  }

  /** The Brazilian rendering: '.' between thousands and ',' before the cents. */
  function BrazilianMoney(cents: nat): string
  {
    "R$ " + GroupThousands(cents / 100, '.') + "," + ZeroPad(cents % 100, 2)
  }

  /** `.replace(',', 'X').replace('.', ',').replace('X', '.')` */
  function SwapSeparators(s: string): string
  {
    Replace(Replace(Replace(s, ',', "X"), '.', ","), 'X', ".")
  }

  /** What the three replacements do to one character. */
  function SwapChar(c: char): char
  {
    if c == ',' || c == 'X' then '.' else if c == '.' then ',' else c
  }

  function SwapByChar(s: string): (r: string)
    ensures |r| == |s|
  {
    if s == [] then [] else [SwapChar(s[0])] + SwapByChar(s[1..])
  }

  lemma {:induction false} SwapSeparatorsPerChar(s: string)
    ensures SwapSeparators(s) == SwapByChar(s)
  {
    if s != [] {
      var h, t := [s[0]], s[1..];
      assert s == h + t;
      var h1, t1 := Replace(h, ',', "X"), Replace(t, ',', "X");
      var h2, t2 := Replace(h1, '.', ","), Replace(t1, '.', ",");
      ReplaceAppend(h, t, ',', "X");
      ReplaceAppend(h1, t1, '.', ",");
      ReplaceAppend(h2, t2, 'X', ".");
      SwapSeparatorsPerChar(t);
    }
  }

  lemma {:induction false} SwapByCharAppend(a: string, b: string)
    ensures SwapByChar(a + b) == SwapByChar(a) + SwapByChar(b)
  {
    if a != [] {
      assert (a + b)[1..] == a[1..] + b;
      SwapByCharAppend(a[1..], b);
    } else {
      assert a + b == b;
    }
  }

  lemma {:induction false} SwapByCharDigits(s: string)
    requires AllDigits(s)
    ensures SwapByChar(s) == s
  {
    if s != [] { SwapByCharDigits(s[1..]); }
  }

  lemma {:induction false} SwapGroups(n: nat)
    ensures SwapByChar(GroupThousands(n, ',')) == GroupThousands(n, '.')
  {
    if n < 1000 {
      SwapByCharDigits(NatToString(n));
    } else {
      SwapGroups(n / 1000);
      SwapByCharAppend(GroupThousands(n / 1000, ',') + [','], ZeroPad(n % 1000, 3));
      SwapByCharAppend(GroupThousands(n / 1000, ','), [',']);
      SwapByCharDigits(ZeroPad(n % 1000, 3));
    }
  }

  /** The money text of the itinerary: the Python rendering with the separators swapped. */
  function FormatMoney(cents: nat): string
  {
    SwapSeparators(PyMoney(cents))
  }

  lemma SwapMoneyParts(group: string, decimals: string)
    requires AllDigits(decimals)
    ensures SwapByChar("R$ " + group + "." + decimals) == "R$ " + SwapByChar(group) + "," + decimals
  {
    SwapByCharAppend("R$ " + group + ".", decimals);
    SwapByCharAppend("R$ " + group, ".");
    SwapByCharAppend("R$ ", group);
    SwapByCharDigits(decimals);
    assert SwapByChar("R$ ") == "R$ ";
    assert SwapByChar(".") == ",";
  }

  /**
   * The money text of the itinerary: the Python rendering with the two
   * separators swapped is the Brazilian rendering of the same amount.
   */
  lemma FormatMoneyIsBrazilian(cents: nat)
    ensures FormatMoney(cents) == BrazilianMoney(cents)
  {
    var group, decimals := GroupThousands(cents / 100, ','), ZeroPad(cents % 100, 2);
    assert PyMoney(cents) == "R$ " + group + "." + decimals;
    SwapSeparatorsPerChar(PyMoney(cents));
    SwapMoneyParts(group, decimals);
    SwapGroups(cents / 100);
  }

  // ---------------------------------------------------------------------
  // The order
  // ---------------------------------------------------------------------

  /** A line item as the itinerary sees it: its service and its total in cents. */
  datatype RoteiroItem = RoteiroItem(nome: string, descricao: string, valorTotal: int)

  /**
   * One date of the itinerary: the heading (weekday and day/month, which
   * the clock library renders) and the items of that date in order.
   */
  datatype RoteiroDay = RoteiroDay(heading: string, items: seq<RoteiroItem>)

  /** The non-blank lines of a description, stripped and bulleted. */
  function DescriptionLines(lines: seq<string>): (r: seq<string>)
    ensures |r| <= |lines|
  {
    if lines == [] then []
    else
      var rest := DescriptionLines(lines[..|lines| - 1]);
      var line := Strip(lines[|lines| - 1]);
      if line == "" then rest else rest + ["- " + line]
  }

  /** The itinerary lines of one item. */
  function ItemParts(item: RoteiroItem): (r: seq<string>)
    ensures |r| >= 2 && r[0] == "\n" + item.nome + ":" && r[|r| - 1] == ""
  {
    ["\n" + item.nome + ":"]
    + (if item.descricao != "" then DescriptionLines(Split(Strip(item.descricao), '\n')) else [])
    + (if item.valorTotal > 0 then [FormatMoney(item.valorTotal)] else [])
    + [""]
  }

  function ItemsParts(items: seq<RoteiroItem>): seq<string>
  {
    if items == [] then [] else ItemsParts(items[..|items| - 1]) + ItemParts(items[|items| - 1])
  }

  function DayParts(day: RoteiroDay): (r: seq<string>)
    ensures |r| >= 2 && r[0] == day.heading + "\n"
  {
    [day.heading + "\n"] + ItemsParts(day.items) + ["\n"]
  }

  function RoteiroParts(days: seq<RoteiroDay>): seq<string>
  {
    if days == [] then [] else RoteiroParts(days[..|days| - 1]) + DayParts(days[|days| - 1])
  }

  /** The generated itinerary: all the parts joined by newlines. */
  function RoteiroText(days: seq<RoteiroDay>): string
  {
    Join(RoteiroParts(days), "\n")
  }

  /** The itinerary an order shows: the stored one if any, otherwise a generated one. */
  function RoteiroAfter(stored: string, days: seq<RoteiroDay>): (r: string)
    ensures stored != "" ==> r == stored
  {
    if stored != "" then stored else RoteiroText(days)
  }

  /** Generating twice gives the same text as generating once. */
  lemma RoteiroIdempotent(stored: string, days: seq<RoteiroDay>)
    ensures RoteiroAfter(RoteiroAfter(stored, days), days) == RoteiroAfter(stored, days)
  {
  }

  /**
   * Once an order with at least one date has an itinerary, later calls
   * return it unchanged, whatever its line items have become since.
   */
  lemma RoteiroKeptOnceGenerated(stored: string, days: seq<RoteiroDay>, later: seq<RoteiroDay>)
    requires days != []
    ensures RoteiroAfter(RoteiroAfter(stored, days), later) == RoteiroAfter(stored, days)
  {
    if stored == "" {
      RoteiroNotEmpty(days);
    }
  }

  /** An order with at least one date always gets a non-empty itinerary, which later calls keep. */
  lemma RoteiroNotEmpty(days: seq<RoteiroDay>)
    requires days != []
    ensures RoteiroText(days) != ""
  {
    var parts := RoteiroParts(days);
    var last := DayParts(days[|days| - 1]);
    assert parts[|parts| - |last|..] == last;
    assert parts[|parts| - 1] == "\n";
    JoinKeepsLast(parts, "\n");
  }

  lemma {:induction false} JoinKeepsLast(parts: seq<string>, sep: string)
    requires parts != []
    ensures |Join(parts, sep)| >= |parts[|parts| - 1]|
  {
    if |parts| > 1 {
      JoinKeepsLast(parts[1..], sep);
    }
  }

  lemma ItemsPartsSnoc(items: seq<RoteiroItem>, k: nat)
    requires k < |items|
    ensures ItemsParts(items[..k + 1]) == ItemsParts(items[..k]) + ItemParts(items[k])
  {
    assert items[..k + 1][..k] == items[..k];
  }

  lemma RoteiroPartsSnoc(days: seq<RoteiroDay>, d: nat)
    requires d < |days|
    ensures RoteiroParts(days[..d + 1]) == RoteiroParts(days[..d]) + DayParts(days[d])
  {
    assert days[..d + 1][..d] == days[..d];
  }

  lemma AppendAfterHead(head: seq<string>, before: seq<string>, more: seq<string>, after: seq<string>)
    requires after == before + more
    ensures head + after == head + before + more
  {
  }

  /** The lines of one date: its heading, each item's lines, and a closing blank line. */
  method BuildDay(day: RoteiroDay) returns (dayParts: seq<string>)
    ensures dayParts == DayParts(day)
  {
    dayParts := [day.heading + "\n"];
    var k := 0;
    while k < |day.items|
      invariant 0 <= k <= |day.items|
      invariant dayParts == [day.heading + "\n"] + ItemsParts(day.items[..k])
    {
      ItemsPartsSnoc(day.items, k);
      var itemParts := ItemParts(day.items[k]);
      AppendAfterHead([day.heading + "\n"], ItemsParts(day.items[..k]), itemParts, ItemsParts(day.items[..k + 1]));
      dayParts := dayParts + itemParts;
      k := k + 1;
    }
    assert day.items[..|day.items|] == day.items;
    dayParts := dayParts + ["\n"];
  }

  /** The building loop of `gerar_roteiro`: the lines of every date, joined by newlines. */
  method BuildRoteiro(days: seq<RoteiroDay>) returns (text: string)
    ensures text == RoteiroText(days)
  {
    var parts: seq<string> := [];
    var d := 0;
    while d < |days|
      invariant 0 <= d <= |days|
      invariant parts == RoteiroParts(days[..d])
    {
      var dayParts := BuildDay(days[d]);
      RoteiroPartsSnoc(days, d);
      parts := parts + dayParts;
      d := d + 1;
    }
    assert days[..|days|] == days;
    text := Join(parts, "\n");
  }

  // ---------------------------------------------------------------------
  // Grouping the line items by date
  // ---------------------------------------------------------------------

  /**
   * A line item as the itinerary query returns it: its service date as a
   * day number, the heading the clock library renders for that date, and
   * what the itinerary shows of it.
   */
  datatype DatedItem = DatedItem(data: int, heading: string, item: RoteiroItem)

  /** The dates of the line items in order of first appearance: the keys of the grouping dict. */
  function DatesOf(es: seq<DatedItem>): (r: seq<int>)
    ensures |r| <= |es|
  {
    if es == [] then []
    else
      var init := DatesOf(es[..|es| - 1]);
      if es[|es| - 1].data in init then init else init + [es[|es| - 1].data]
  }

  /** The line items of one date, in the order of the query. */
  function OnDate(es: seq<DatedItem>, d: int): (r: seq<DatedItem>)
    ensures |r| <= |es|
  {
    if es == [] then []
    else if es[|es| - 1].data == d then OnDate(es[..|es| - 1], d) + [es[|es| - 1]]
    else OnDate(es[..|es| - 1], d)
  }

  /** What the itinerary shows of a group of line items. */
  function ItemsOf(g: seq<DatedItem>): (r: seq<RoteiroItem>)
    ensures |r| == |g|
    ensures forall i :: 0 <= i < |g| ==> r[i] == g[i].item
  {
    if g == [] then [] else ItemsOf(g[..|g| - 1]) + [g[|g| - 1].item]
  }

  /** The heading of a group: that of its first line item. */
  function HeadingOf(g: seq<DatedItem>): string
  {
    if g == [] then "" else g[0].heading
  }

  /** The itinerary date of one key of the grouping. */
  function DayOf(es: seq<DatedItem>, d: int): RoteiroDay
  {
    var g := OnDate(es, d);
    RoteiroDay(HeadingOf(g), ItemsOf(g))
  }

  function DaysOf(es: seq<DatedItem>, keys: seq<int>): (r: seq<RoteiroDay>)
    ensures |r| == |keys|
  {
    if keys == [] then [] else DaysOf(es, keys[..|keys| - 1]) + [DayOf(es, keys[|keys| - 1])]
  }

  /** The itinerary dates of the line items: one per date, in order of first appearance. */
  function GroupedDays(es: seq<DatedItem>): seq<RoteiroDay>
  {
    DaysOf(es, DatesOf(es))
  }

  /** The dates listed are exactly the dates of the line items. */
  lemma {:induction false} DatesOfMembers(es: seq<DatedItem>)
    ensures forall d :: d in DatesOf(es) <==> exists x :: x in es && x.data == d
  {
    if es != [] {
      var init := es[..|es| - 1];
      DatesOfMembers(init);
      assert es == init + [es[|es| - 1]];
    }
  }

  /** Each date is listed once. */
  lemma {:induction false} DatesOfDistinct(es: seq<DatedItem>)
    ensures forall i, j :: 0 <= i < j < |DatesOf(es)| ==> DatesOf(es)[i] != DatesOf(es)[j]
  {
    if es != [] {
      DatesOfDistinct(es[..|es| - 1]);
    }
  }

  /** A date's group holds exactly the line items of that date. */
  lemma {:induction false} OnDateMembers(es: seq<DatedItem>, d: int)
    ensures forall x :: x in OnDate(es, d) <==> x in es && x.data == d
  {
    if es != [] {
      var init := es[..|es| - 1];
      OnDateMembers(init, d);
      assert es == init + [es[|es| - 1]];
    }
  }

  predicate SortedByDate(es: seq<DatedItem>)
  {
    forall i, j :: 0 <= i < j < |es| ==> es[i].data <= es[j].data
  }

  /** Line items ordered by date, as the query returns them, give the dates in ascending order. */
  lemma {:induction false} DatesAscending(es: seq<DatedItem>)
    requires SortedByDate(es)
    ensures forall i, j :: 0 <= i < j < |DatesOf(es)| ==> DatesOf(es)[i] < DatesOf(es)[j]
  {
    if es != [] {
      var init := es[..|es| - 1];
      var last := es[|es| - 1];
      DatesAscending(init);
      DatesOfMembers(init);
      var ds := DatesOf(init);
      if last.data !in ds {
        forall d | d in ds
          ensures d < last.data
        {
          var x :| x in init && x.data == d;
          var k :| 0 <= k < |init| && init[k] == x;
          assert es[k] == x;
        }
        var all := ds + [last.data];
        assert DatesOf(es) == all;
        forall i, j | 0 <= i < j < |all|
          ensures all[i] < all[j]
        {
          if j == |ds| {
            assert all[i] == ds[i] && ds[i] in ds;
          }
        }
      }
    }
  }

  /** The items of the itinerary, date after date. */
  function Flatten(days: seq<RoteiroDay>): seq<RoteiroItem>
  {
    if days == [] then [] else Flatten(days[..|days| - 1]) + days[|days| - 1].items
  }

  /** A new line item leaves the days of the other dates as they were. */
  lemma {:induction false} DaysOfIgnoresOtherDates(init: seq<DatedItem>, x: DatedItem, keys: seq<int>)
    requires x.data !in keys
    ensures DaysOf(init + [x], keys) == DaysOf(init, keys)
  {
    if keys != [] {
      DaysOfIgnoresOtherDates(init, x, keys[..|keys| - 1]);
      assert (init + [x])[..|init|] == init;
    }
  }

  lemma FlattenSnoc(days: seq<RoteiroDay>, d: RoteiroDay)
    ensures Flatten(days + [d]) == Flatten(days) + d.items
  {
    assert (days + [d])[..|days|] == days;
  }

  lemma DaysOfSnocKey(es: seq<DatedItem>, ks: seq<int>, k: int)
    ensures DaysOf(es, ks + [k]) == DaysOf(es, ks) + [DayOf(es, k)]
  {
    assert (ks + [k])[..|ks|] == ks;
  }

  lemma OnDateSnoc(init: seq<DatedItem>, x: DatedItem, d: int)
    ensures OnDate(init + [x], d) == OnDate(init, d) + (if x.data == d then [x] else [])
  {
    assert (init + [x])[..|init|] == init;
  }

  lemma ItemsOfSnoc(g: seq<DatedItem>, x: DatedItem)
    ensures ItemsOf(g + [x]) == ItemsOf(g) + [x.item]
  {
    assert (g + [x])[..|g|] == g;
  }

  /** A listed date has line items. */
  lemma ListedDateHasItems(es: seq<DatedItem>, d: int)
    requires d in DatesOf(es)
    ensures OnDate(es, d) != []
  {
    DatesOfMembers(es);
    OnDateMembers(es, d);
    var y :| y in es && y.data == d;
    assert y in OnDate(es, d);
  }

  /** With the line items ordered by date, no listed date is later than the last line item's. */
  lemma DatesNoLaterThanLast(init: seq<DatedItem>, x: DatedItem)
    requires SortedByDate(init + [x])
    ensures forall d :: d in DatesOf(init) ==> d <= x.data
  {
    DatesOfMembers(init);
    forall d | d in DatesOf(init)
      ensures d <= x.data
    {
      var y :| y in init && y.data == d;
      var k :| 0 <= k < |init| && init[k] == y;
      var es := init + [x];
      assert es[k] == y && es[|es| - 1] == x;
    }
  }

  /** With the line items ordered by date, the last line item's date, when listed, is listed last. */
  lemma LatestDateIsLast(init: seq<DatedItem>, x: DatedItem)
    requires SortedByDate(init + [x]) && x.data in DatesOf(init)
    ensures DatesOf(init) == DatesOf(init)[..|DatesOf(init)| - 1] + [x.data]
    ensures x.data !in DatesOf(init)[..|DatesOf(init)| - 1]
  {
    var ks := DatesOf(init);
    var n := |ks|;
    SortedInit(init, x);
    DatesAscending(init);
    DatesNoLaterThanLast(init, x);
    var p :| 0 <= p < n && ks[p] == x.data;
    assert ks[n - 1] <= x.data by {
      assert ks[n - 1] in ks;
    }
    if p < n - 1 {
      assert false;
    }
    assert ks == ks[..n - 1] + [ks[n - 1]];
  }

  /** The last listed date's day gains the new line item at its end. */
  lemma LastDayGrows(init: seq<DatedItem>, x: DatedItem)
    requires x.data in DatesOf(init)
    ensures DayOf(init + [x], x.data).heading == DayOf(init, x.data).heading
    ensures DayOf(init + [x], x.data).items == DayOf(init, x.data).items + [x.item]
  {
    OnDateSnoc(init, x, x.data);
    ItemsOfSnoc(OnDate(init, x.data), x);
    ListedDateHasItems(init, x.data);
  }

  /** A line item of the last date listed so far joins that date at the end of the itinerary. */
  lemma JoinsLastDate(init: seq<DatedItem>, x: DatedItem)
    requires SortedByDate(init + [x]) && x.data in DatesOf(init)
    ensures DatesOf(init + [x]) == DatesOf(init)
    ensures Flatten(DaysOf(init + [x], DatesOf(init))) == Flatten(DaysOf(init, DatesOf(init))) + [x.item]
  {
    var es := init + [x];
    var ks := DatesOf(init);
    DatesOfSnocItem(init, x);
    LatestDateIsLast(init, x);
    var front := ks[..|ks| - 1];
    var before := DayOf(init, x.data);
    var after := DayOf(es, x.data);
    LastDayGrows(init, x);
    DaysOfSnocKey(es, front, x.data);
    DaysOfIgnoresOtherDates(init, x, front);
    DaysOfSnocKey(init, front, x.data);
    FlattenLastGrows(DaysOf(init, front), before, after, x.item);
  }

  lemma FlattenLastGrows(days: seq<RoteiroDay>, before: RoteiroDay, after: RoteiroDay, item: RoteiroItem)
    requires after.items == before.items + [item]
    ensures Flatten(days + [after]) == Flatten(days + [before]) + [item]
  {
    FlattenSnoc(days, after);
    FlattenSnoc(days, before);
  }

  lemma SortedInit(init: seq<DatedItem>, x: DatedItem)
    requires SortedByDate(init + [x])
    ensures SortedByDate(init)
  {
    var es := init + [x];
    forall i, j | 0 <= i < j < |init|
      ensures init[i].data <= init[j].data
    {
      assert es[i] == init[i] && es[j] == init[j];
    }
  }

  /** A line item of a new date starts a date of its own at the end of the itinerary. */
  lemma StartsNewDate(init: seq<DatedItem>, x: DatedItem)
    requires x.data !in DatesOf(init)
    ensures DatesOf(init + [x]) == DatesOf(init) + [x.data]
    ensures Flatten(DaysOf(init + [x], DatesOf(init + [x]))) == Flatten(DaysOf(init, DatesOf(init))) + [x.item]
  {
    var es := init + [x];
    var ks := DatesOf(init);
    DatesOfSnocItem(init, x);
    var d := DayOf(es, x.data);
    assert d == RoteiroDay(x.heading, [x.item]) by {
      DatesOfMembers(init);
      NothingOnAbsentDate(init, x.data);
      OnDateSnoc(init, x, x.data);
      ItemsOfSnoc([], x);
    }
    DaysOfSnocKey(es, ks, x.data);
    DaysOfIgnoresOtherDates(init, x, ks);
    FlattenSnoc(DaysOf(init, ks), d);
  }

  lemma DatesOfSnocItem(init: seq<DatedItem>, x: DatedItem)
    ensures DatesOf(init + [x]) == if x.data in DatesOf(init) then DatesOf(init) else DatesOf(init) + [x.data]
  {
    assert (init + [x])[..|init|] == init;
  }

  /**
   * Grouping line items ordered by date keeps them in order: read date
   * after date, the itinerary lists every line item once, as the query
   * returned them.
   */
  lemma {:induction false} SortedGroupingKeepsOrder(es: seq<DatedItem>)
    requires SortedByDate(es)
    ensures Flatten(GroupedDays(es)) == ItemsOf(es)
  {
    if es != [] {
      var init := es[..|es| - 1];
      var x := es[|es| - 1];
      assert es == init + [x];
      assert SortedByDate(init);
      SortedGroupingKeepsOrder(init);
      if x.data in DatesOf(init) {
        JoinsLastDate(init, x);
      } else {
        StartsNewDate(init, x);
      }
    }
  }

  lemma DatesOfSnoc(es: seq<DatedItem>, i: nat)
    requires i < |es|
    ensures DatesOf(es[..i + 1]) ==
              if es[i].data in DatesOf(es[..i]) then DatesOf(es[..i]) else DatesOf(es[..i]) + [es[i].data]
  {
    assert es[..i + 1][..i] == es[..i];
  }

  lemma OnDateSnocAll(es: seq<DatedItem>, i: nat)
    requires i < |es|
    ensures forall d :: OnDate(es[..i + 1], d) == OnDate(es[..i], d) + (if es[i].data == d then [es[i]] else [])
  {
    assert es[..i + 1][..i] == es[..i];
  }

  lemma {:induction false} NothingOnAbsentDate(es: seq<DatedItem>, d: int)
    requires forall x :: x in es ==> x.data != d
    ensures OnDate(es, d) == []
  {
    if es != [] {
      assert es[|es| - 1] in es;
      NothingOnAbsentDate(es[..|es| - 1], d);
    }
  }

  /** The grouping dict holds, for each date seen so far, that date's line items. */
  ghost predicate DateGroups(es: seq<DatedItem>, keys: seq<int>, groups: map<int, seq<DatedItem>>)
  {
    keys == DatesOf(es)
    && (forall d :: d in groups <==> d in keys)
    && (forall d :: d in groups ==> groups[d] == OnDate(es, d))
  }

  /** A line item of a date already seen joins that date's list. */
  lemma DateGroupsSeen(es: seq<DatedItem>, i: nat, keys: seq<int>, groups: map<int, seq<DatedItem>>)
    requires i < |es| && DateGroups(es[..i], keys, groups) && es[i].data in groups
    ensures DateGroups(es[..i + 1], keys, groups[es[i].data := groups[es[i].data] + [es[i]]])
  {
    DatesOfSnoc(es, i);
    OnDateSnocAll(es, i);
  }

  /** A line item of a new date starts a list of its own. */
  lemma DateGroupsNew(es: seq<DatedItem>, i: nat, keys: seq<int>, groups: map<int, seq<DatedItem>>)
    requires i < |es| && DateGroups(es[..i], keys, groups) && es[i].data !in groups
    ensures DateGroups(es[..i + 1], keys + [es[i].data], groups[es[i].data := [es[i]]])
  {
    DatesOfSnoc(es, i);
    OnDateSnocAll(es, i);
    DatesOfMembers(es[..i]);
    NothingOnAbsentDate(es[..i], es[i].data);
  }

  /** The grouping loop of `gerar_roteiro`: the dates in order of first appearance, and each date's line items. */
  method GroupByDate(es: seq<DatedItem>) returns (keys: seq<int>, groups: map<int, seq<DatedItem>>)
    ensures keys == DatesOf(es)
    ensures forall d :: d in groups <==> d in keys
    ensures forall d :: d in groups ==> groups[d] == OnDate(es, d)
  {
    keys, groups := [], map[];
    var i := 0;
    while i < |es|
      invariant 0 <= i <= |es|
      invariant DateGroups(es[..i], keys, groups)
    {
      var e := es[i];
      if e.data !in groups {
        DateGroupsNew(es, i, keys, groups);
        keys := keys + [e.data];
        groups := groups[e.data := [e]];
      } else {
        DateGroupsSeen(es, i, keys, groups);
        groups := groups[e.data := groups[e.data] + [e]];
      }
      i := i + 1;
    }
    assert es[..i] == es;
  }

  lemma DaysOfSnoc(es: seq<DatedItem>, keys: seq<int>, k: nat)
    requires k < |keys|
    ensures DaysOf(es, keys[..k + 1]) == DaysOf(es, keys[..k]) + [DayOf(es, keys[k])]
  {
    assert keys[..k + 1][..k] == keys[..k];
  }

  /** The iteration over the dict: each date's heading and line items, in key order. */
  method DaysFromGroups(es: seq<DatedItem>, keys: seq<int>, groups: map<int, seq<DatedItem>>)
    returns (days: seq<RoteiroDay>)
    requires forall d :: d in keys ==> d in groups && groups[d] == OnDate(es, d)
    ensures days == DaysOf(es, keys)
  {
    days := [];
    var k := 0;
    while k < |keys|
      invariant 0 <= k <= |keys|
      invariant days == DaysOf(es, keys[..k])
    {
      DaysOfSnoc(es, keys, k);
      var g := groups[keys[k]];
      days := days + [RoteiroDay(HeadingOf(g), ItemsOf(g))];
      k := k + 1;
    }
    assert keys[..k] == keys;
  }

  /** The numbering step of `save`: the number after the year's last order, read from its text. */
  method ReadNextSequence(last: Option<string>) returns (proximo: int)
    ensures proximo == NextSequence(last)
  {
    proximo := 1;
    if last.Some? && last.value != "" {
      var parts := Split(last.value, '-');
      if |parts| >= 2 {
        var parsed := PyParseInt(Strip(parts[1]));
        if parsed.Some? {
          proximo := parsed.value + 1;
        }
      }
    }
  }

  /** A service order (`OrdemServico`). */
  class OrdemServico {
    var numeroOs: string
    var valorTotal: int
    var roteiro: string

    constructor ()
      ensures numeroOs == "" && valorTotal == 0 && roteiro == ""
    {
      numeroOs := "";
      valorTotal := 0;
      roteiro := "";
    }

    /**
     * `save`: an order without a number gets the next number of the
     * current year; `last` is the greatest number of that year already
     * stored, if any.
     */
    method Save(year: nat, last: Option<string>)
      modifies this
      ensures old(numeroOs) != "" ==> numeroOs == old(numeroOs)
      ensures old(numeroOs) == "" ==> numeroOs == OsNumber(year, NextSequence(last))
      ensures valorTotal == old(valorTotal) && roteiro == old(roteiro)
    {
      if numeroOs == "" {
        var proximo := ReadNextSequence(last);
        numeroOs := OsNumber(year, proximo);
      }
    }

    /**
     * `calcular_total`: the line totals plus the order's transfers, then a
     * save, which numbers the order if it had no number yet.
     */
    method CalcularTotal(lancamentos: seq<int>, transfers: seq<int>, year: nat, last: Option<string>)
      modifies this
      ensures valorTotal == Sum(lancamentos) + Sum(transfers)
      ensures old(numeroOs) != "" ==> numeroOs == old(numeroOs)
      ensures old(numeroOs) == "" ==> numeroOs == OsNumber(year, NextSequence(last))
      ensures roteiro == old(roteiro)
    {
      var total := 0;
      var i := 0;
      while i < |lancamentos|
        invariant 0 <= i <= |lancamentos|
        invariant total == Sum(lancamentos[..i])
      {
        assert lancamentos[..i + 1][..i] == lancamentos[..i];
        total := total + lancamentos[i];
        i := i + 1;
      }
      assert lancamentos[..|lancamentos|] == lancamentos;
      var j := 0;
      while j < |transfers|
        invariant 0 <= j <= |transfers|
        invariant total == Sum(lancamentos) + Sum(transfers[..j])
      {
        assert transfers[..j + 1][..j] == transfers[..j];
        total := total + transfers[j];
        j := j + 1;
      }
      assert transfers[..|transfers|] == transfers;
      valorTotal := total;
      Save(year, last);
    }

    /**
     * `gerar_roteiro`: a stored itinerary is kept; otherwise the line
     * items, as the query returns them, are grouped by date and the text
     * is generated and stored.
     */
    method GerarRoteiro(lancamentos: seq<DatedItem>) returns (r: string)
      modifies this
      ensures r == roteiro == RoteiroAfter(old(roteiro), GroupedDays(lancamentos))
      ensures numeroOs == old(numeroOs) && valorTotal == old(valorTotal)
    {
      if roteiro != "" {
        return roteiro;
      }
      var keys, groups := GroupByDate(lancamentos);
      var days := DaysFromGroups(lancamentos, keys, groups);
      roteiro := BuildRoteiro(days);
      r := roteiro;
    }
  }
}
