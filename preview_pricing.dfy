/**
 * How the order-draft page's age classes and priced summary compare with
 * the server's billing of a line item. The page receives the service's
 * fields as JSON (servicos/views.py) and applies its own rules; the
 * server bills with `LancamentoServico.valor_total`.
 */
module PreviewPricing {
  import opened Common
  import opened DraftRules
  import opened ServiceModels

  /** The JSON the service-information endpoint sends for a service. */
  function InfoOf(s: Service): (info: ServiceInfo)
    ensures info.idadeIsencaoMin.Some? && info.idadeIsencaoMax.Some?
  {
    ServiceInfo(s.nome, s.valorInteira, s.valorMeia, s.valorInfantil,
                s.temIdadeMinima, s.idadeMinima,
                s.possuiIsencao, Some(s.idadeIsencaoMin), Some(s.idadeIsencaoMax),
                s.permiteInfantil, s.idadeMinimaInfantil, s.idadeMaximaInfantil)
  }

  /**
   * The page marks an age exempt exactly when the server's pricing loops
   * skip it as exempt, unless it is below the minimum age.
   */
  lemma ExemptClassMatchesServer(s: Service, age: int)
    ensures ClassifyAge(Some(InfoOf(s)), Some(age)) == Some(Isento) <==>
              !BelowMinimum(InfoOf(s), age) && IsExempt(age, s)
  {
  }

  /** A child the page marks exempt is billed nothing by the server, as written. */
  lemma ExemptClassBilledNothing(s: Service, age: int)
    requires ClassifyAge(Some(InfoOf(s)), Some(age)) == Some(Isento)
    ensures ValorTotalAsWritten(0, 0, 1, [age], Some(s), s.valorInteira, s.valorMeia, s.valorInfantil) == 0
  {
    ExemptChildCostsNothing(age, s, s.valorInteira, s.valorMeia, s.valorInfantil);
  }

  /**
   * The page marks an age for the child rate whenever the service allows
   * children, but the server bills the child rate only when the service
   * also accepts half price. Otherwise, as written, that child pays the
   * full price unless the age lies in the exemption range of a service
   * without an exemption, where it pays nothing; corrected, it always pays
   * the full price.
   */
  lemma ChildClassWithoutHalfPricePaysFull(s: Service, age: int)
    requires ClassifyAge(Some(InfoOf(s)), Some(age)) == Some(Infantil)
    requires !s.aceitaMeiaEntrada
    ensures ValorTotalAsWritten(0, 0, 1, [age], Some(s), s.valorInteira, s.valorMeia, s.valorInfantil)
            == if InExemptionRange(age, s) then 0 else s.valorInteira
    ensures ValorTotal(0, 0, 1, [age], Some(s), s.valorInteira, s.valorMeia, s.valorInfantil) == s.valorInteira
  {
    assert [age][..0] == [];
    assert !IsExempt(age, s);
  }

  /** An item of the draft for a service, with the same counts and ages and no transfers. */
  predicate DraftOf(item: DraftItem, s: Service, qtdInteira: nat, qtdMeia: nat, ages: seq<int>)
  {
    item.info == Some(InfoOf(s)) && item.transfers == []
    && item.qtdInteira == qtdInteira && item.qtdMeia == qtdMeia && item.qtdInfantil == |ages|
  }

  lemma {:induction false} AllAtChildRate(ages: seq<int>, s: Service)
    requires forall i :: 0 <= i < |ages| ==> !IsExempt(ages[i], s) && InChildRange(ages[i], s)
    ensures CountChildPrice(ages, s) == |ages| && CountFullPrice(ages, s) == 0
  {
    if ages != [] {
      AllAtChildRate(ages[..|ages| - 1], s);
    }
  }

  /**
   * When every child is neither exempt nor outside the child range and
   * the service bills the child rate, the summary of the page shows what
   * the server bills.
   */
  lemma PreviewMatchesServer(item: DraftItem, s: Service, qtdInteira: nat, qtdMeia: nat, ages: seq<int>)
    requires DraftOf(item, s, qtdInteira, qtdMeia, ages) && HasChildPrice(s)
    requires forall i :: 0 <= i < |ages| ==> !IsExempt(ages[i], s) && InChildRange(ages[i], s)
    ensures Subtotal(item) == ValorTotalAsWritten(qtdInteira, qtdMeia, |ages|, ages, Some(s), s.valorInteira, s.valorMeia, s.valorInfantil)
  {
    AllAtChildRate(ages, s);
  }

  /** A service with an exemption up to age 2 and a child price of R$ 50,00. */
  const EXEMPTING: Service :=
    Service("Passeio", "", 10000, 5000, 5000, true, true, 0, 12, true, 0, 2, false, 0)

  /** For a one-year-old the page's summary shows R$ 50,00 while the server bills nothing. */
  lemma PreviewChargesWhatServerExempts(item: DraftItem)
    requires DraftOf(item, EXEMPTING, 0, 0, [1])
    ensures ClassifyAge(Some(InfoOf(EXEMPTING)), Some(1)) == Some(Isento)
    ensures Subtotal(item) == 5000
    ensures ValorTotalAsWritten(0, 0, 1, [1], Some(EXEMPTING), 10000, 5000, 5000) == 0
  {
    var info := InfoOf(EXEMPTING);
    assert !BelowMinimum(info, 1) && InExemption(info, 1);
    ClassificationIsOrdered(info, 1);
    assert PriceOrZero(item.info, Child) == 5000;
    assert item.qtdInfantil == 1 && TransferSum(item.transfers) == 0;
    assert IsExempt(1, EXEMPTING);
    ExemptChildCostsNothing(1, EXEMPTING, 10000, 5000, 5000);
  }
}
