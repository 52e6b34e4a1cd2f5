/**
 * The value-level rules of the order-draft page: classifying a child's
 * age against the loaded service, the completeness checks a form must
 * pass to become a draft item, the outbound/return split of transfers,
 * the default description, the priced summary, the date renderings, the
 * itinerary text grouped by sorted date, and the choice of the save URL.
 * Money is in integer cents.
 *
 * Source: static/js/lancamento_form.js.
 */
module DraftRules {
  import opened Common

  // ---------------------------------------------------------------------
  // Service information and age classes
  // ---------------------------------------------------------------------

  /** The service fields the page loads for the chosen service (`servicoAtualInfo`); prices in cents. */
  datatype ServiceInfo = ServiceInfo(
    nome: string,
    valorInteira: int, valorMeia: int, valorInfantil: int,
    temIdadeMinima: bool, idadeMinima: int,
    possuiIsencao: bool, idadeIsencaoMin: Option<int>, idadeIsencaoMax: Option<int>,
    permiteInfantil: bool, idadeMinimaInfantil: int, idadeMaximaInfantil: int)

  /** The CSS class an age input gets. */
  datatype AgeClass = Invalido | Isento | Infantil | Inteira

  predicate BelowMinimum(info: ServiceInfo, age: int)
  {
    info.temIdadeMinima && age < info.idadeMinima
  }

  predicate InExemption(info: ServiceInfo, age: int)
  {
    info.possuiIsencao && info.idadeIsencaoMin.Some? && info.idadeIsencaoMax.Some?
    && info.idadeIsencaoMin.value <= age <= info.idadeIsencaoMax.value
  }

  predicate InChildBand(info: ServiceInfo, age: int)
  {
    info.permiteInfantil && info.idadeMinimaInfantil <= age <= info.idadeMaximaInfantil
  }

  /**
   * `validarIdade`: no class without service information or without a
   * number; otherwise the first of: below the minimum age, exempt, child
   * rate, full rate.
   */
  function ClassifyAge(info: Option<ServiceInfo>, age: Option<int>): (r: Option<AgeClass>)
  {
    if info.None? || age.None? then None
    else if BelowMinimum(info.value, age.value) then Some(Invalido)
    else if InExemption(info.value, age.value) then Some(Isento)
    else if InChildBand(info.value, age.value) then Some(Infantil)
    else Some(Inteira)
  }

  /**
   * Each class is reached exactly when its own condition holds and the
   * conditions of the classes before it fail.
   */
  lemma ClassificationIsOrdered(info: ServiceInfo, age: int)
    ensures ClassifyAge(Some(info), Some(age)) == Some(Invalido) <==> BelowMinimum(info, age)
    ensures ClassifyAge(Some(info), Some(age)) == Some(Isento) <==>
              !BelowMinimum(info, age) && InExemption(info, age)
    ensures ClassifyAge(Some(info), Some(age)) == Some(Infantil) <==>
              !BelowMinimum(info, age) && !InExemption(info, age) && InChildBand(info, age)
    ensures ClassifyAge(Some(info), Some(age)) == Some(Inteira) <==>
              !BelowMinimum(info, age) && !InExemption(info, age) && !InChildBand(info, age)
  {
  }

  /** There is a class exactly when both the service and a number are there. */
  lemma ClassificationNeedsInfoAndNumber(info: Option<ServiceInfo>, age: Option<int>)
    ensures ClassifyAge(info, age).None? <==> info.None? || age.None?
  {
  }

  // ---------------------------------------------------------------------
  // The add form
  // ---------------------------------------------------------------------

  /** A chosen half-price type: the select's value and its label. */
  datatype TipoMeia = TipoMeia(id: string, tipo: string)

  /** A chosen transfer; the value in cents. */
  datatype Transfer = Transfer(transferId: string, nome: string, data: string, quantidade: int, valor: int)

  /**
   * What `adicionarServicoALista` reads from the page. Numbers are
   * `parseInt` results (`None` for NaN); an empty select is `None`.
   */
  datatype DraftForm = DraftForm(
    data: string, categoriaId: string, servicoId: string, servicoNome: string,
    qtdInteira: Option<int>, qtdMeia: Option<int>, qtdInfantil: Option<int>,
    ageInputs: seq<Option<int>>,
    typeSelects: seq<Option<TipoMeia>>,
    transferSelects: seq<Option<Transfer>>,
    descricao: string)

  /** The reasons the page refuses to add an item, in the order it checks them. */
  datatype AddError =
    | MissingFields
    | NoServiceInfo
    | NoQuantity
    | AgesIncomplete
    | InvalidAges
    | TypesIncomplete
    | TypesEmpty

  /** A draft line item. */
  datatype DraftItem = DraftItem(
    id: int, data: string, categoriaId: string, servicoId: string, servicoNome: string,
    qtdInteira: int, qtdMeia: int, qtdInfantil: int,
    idades: seq<int>, tiposMeia: seq<TipoMeia>, transfers: seq<Transfer>,
    valorTransferIda: int, valorTransferVolta: int,
    descricao: string, info: Option<ServiceInfo>)

  /** `parseInt(value) || 0` */
  function NumOrZero(n: Option<int>): (r: int)
    ensures n.Some? ==> r == n.value
    ensures n.None? ==> r == 0
  {
    if n.None? then 0 else n.value
  }

  /** An age input the page refuses: not a number, or marked below the minimum age. */
  predicate AgeRefused(info: ServiceInfo, age: Option<int>)
  {
    age.None? || ClassifyAge(Some(info), age) == Some(Invalido)
  }

  /** The numbers typed in the age inputs, in order. */
  function AgeValues(inputs: seq<Option<int>>): (r: seq<int>)
    ensures (forall i :: 0 <= i < |inputs| ==> inputs[i].Some?) ==>
              |r| == |inputs| && forall i :: 0 <= i < |inputs| ==> r[i] == inputs[i].value
  {
    if inputs == [] then []
    else AgeValues(inputs[..|inputs| - 1]) + (if inputs[|inputs| - 1].Some? then [inputs[|inputs| - 1].value] else [])
  }

  /** The chosen values of the selects that are not empty, in order. */
  function Chosen<T>(selects: seq<Option<T>>): (r: seq<T>)
    ensures |r| <= |selects|
    ensures (forall i :: 0 <= i < |selects| ==> selects[i].Some?) ==> |r| == |selects|
  {
    if selects == [] then []
    else Chosen(selects[..|selects| - 1]) + (if selects[|selects| - 1].Some? then [selects[|selects| - 1].value] else [])
  }

  /**
   * The checks of `adicionarServicoALista`, in order; on success, the
   * children's ages and the half-price types the new item carries.
   */
  function CheckDraft(form: DraftForm, info: Option<ServiceInfo>): (r: Result<(seq<int>, seq<TipoMeia>), AddError>)
    ensures r.Ok? ==> form.data != "" && form.categoriaId != "" && form.servicoId != "" && info.Some?
    ensures r.Ok? ==> NumOrZero(form.qtdInteira) != 0 || NumOrZero(form.qtdMeia) != 0 || NumOrZero(form.qtdInfantil) != 0
    ensures r.Ok? && NumOrZero(form.qtdInfantil) > 0 ==>
              |r.value.0| == NumOrZero(form.qtdInfantil)
              && forall i :: 0 <= i < |form.ageInputs| ==> !AgeRefused(info.value, form.ageInputs[i])
    ensures r.Ok? && NumOrZero(form.qtdMeia) > 0 ==> |r.value.1| == NumOrZero(form.qtdMeia)
  {
    if form.data == "" || form.categoriaId == "" || form.servicoId == "" then Err(MissingFields)
    else if info.None? then Err(NoServiceInfo)
    else
      var qi := NumOrZero(form.qtdInteira);
      var qm := NumOrZero(form.qtdMeia);
      var qc := NumOrZero(form.qtdInfantil);
      if qi == 0 && qm == 0 && qc == 0 then Err(NoQuantity)
      else if qc > 0 && |form.ageInputs| != qc then Err(AgesIncomplete)
      else if qc > 0 && exists i :: 0 <= i < |form.ageInputs| && AgeRefused(info.value, form.ageInputs[i]) then Err(InvalidAges)
      else if qm > 0 && |form.typeSelects| != qm then Err(TypesIncomplete)
      else if qm > 0 && exists i :: 0 <= i < |form.typeSelects| && form.typeSelects[i].None? then Err(TypesEmpty)
      else Ok((if qc > 0 then AgeValues(form.ageInputs) else [],
               if qm > 0 then Chosen(form.typeSelects) else []))
  }

  /** A form the page refuses never yields an item with a missing date or with no passengers. */
  lemma AcceptedFormIsComplete(form: DraftForm, info: Option<ServiceInfo>)
    requires CheckDraft(form, info).Ok?
    requires NumOrZero(form.qtdInfantil) > 0
    ensures forall a :: a in CheckDraft(form, info).value.0 ==>
              ClassifyAge(info, Some(a)) != Some(Invalido)
  {
    var ages := CheckDraft(form, info).value.0;
    forall a | a in ages ensures ClassifyAge(info, Some(a)) != Some(Invalido) {
      var i :| 0 <= i < |ages| && ages[i] == a;
      assert !AgeRefused(info.value, form.ageInputs[i]);
    }
  }

  // ---------------------------------------------------------------------
  // Transfers and descriptions
  // ---------------------------------------------------------------------

  /** A chosen transfer as the page records it: on the service's date, one of it. */
  function OnServiceDate(t: Transfer, data: string): Transfer
  {
    Transfer(t.transferId, t.nome, data, 1, t.valor)
  }

  /** The chosen transfers, each recorded on the service's date with a quantity of one. */
  function Stamped(transfers: seq<Transfer>, data: string): (r: seq<Transfer>)
    ensures |r| == |transfers|
  {
    if transfers == [] then []
    else Stamped(transfers[..|transfers| - 1], data) + [OnServiceDate(transfers[|transfers| - 1], data)]
  }

  /** Each recorded transfer keeps the chosen one's id, name and value, on the given date, once. */
  lemma {:induction false} StampedRecords(transfers: seq<Transfer>, data: string)
    ensures forall i :: 0 <= i < |transfers| ==>
              Stamped(transfers, data)[i] == Transfer(transfers[i].transferId, transfers[i].nome, data, 1, transfers[i].valor)
  {
    if transfers != [] {
      StampedRecords(transfers[..|transfers| - 1], data);
    }
  }

  lemma StampedSnoc(transfers: seq<Transfer>, t: Transfer, data: string)
    ensures Stamped(transfers + [t], data) == Stamped(transfers, data) + [OnServiceDate(t, data)]
  {
    assert (transfers + [t])[..|transfers|] == transfers;
  }

  /** The value of the first chosen transfer: the outbound leg. */
  function IdaValue(transfers: seq<Transfer>): int
  {
    if transfers == [] then 0 else transfers[0].valor
  }

  /** The values of the later transfers added up: the return leg. */
  function VoltaValue(transfers: seq<Transfer>): int
  {
    if |transfers| <= 1 then 0 else TransferSum(transfers[1..])
  }

  /** The sum of the transfer values. */
  function TransferSum(transfers: seq<Transfer>): int
  {
    if transfers == [] then 0 else TransferSum(transfers[..|transfers| - 1]) + transfers[|transfers| - 1].valor
  }

  lemma {:induction false} TransferSumCons(t: Transfer, rest: seq<Transfer>)
    ensures TransferSum([t] + rest) == t.valor + TransferSum(rest)
  {
    if rest != [] {
      var all := [t] + rest;
      assert all[..|all| - 1] == [t] + rest[..|rest| - 1];
      TransferSumCons(t, rest[..|rest| - 1]);
    } else {
      assert ([t] + rest)[..0] == [];
    }
  }

  /** The outbound and the return legs together are all the transfers. */
  lemma IdaPlusVoltaIsTotal(transfers: seq<Transfer>)
    ensures IdaValue(transfers) + VoltaValue(transfers) == TransferSum(transfers)
  {
    if transfers != [] {
      assert transfers == [transfers[0]] + transfers[1..];
      TransferSumCons(transfers[0], transfers[1..]);
    }
  }

  /** `' - ' + n + label` when the count is positive. */
  function CountPiece(n: int, suffix: string): string
  {
    if n > 0 then " - " + IntToString(n) + suffix else ""
  }

  /** The description a blank description field becomes. */
  function DefaultDescription(nome: string, qtdInteira: int, qtdMeia: int, qtdInfantil: int): (r: string)
    ensures |r| >= |nome| && r[..|nome|] == nome
    ensures r == nome <==> qtdInteira <= 0 && qtdMeia <= 0 && qtdInfantil <= 0
  {
    var r := nome + CountPiece(qtdInteira, " Inteira(s)") + CountPiece(qtdMeia, " Meia(s)")
             + CountPiece(qtdInfantil, " Infantil(is)");
    assert r[..|nome|] == nome;
    r
  }

  /** The trimmed description, or the default one when it is blank. */
  function DescriptionFor(form: DraftForm): (r: string)
    ensures Strip(form.descricao) != "" ==> r == Strip(form.descricao)
  {
    var typed := Strip(form.descricao);
    if typed != "" then typed
    else DefaultDescription(form.servicoNome, NumOrZero(form.qtdInteira), NumOrZero(form.qtdMeia), NumOrZero(form.qtdInfantil))
  }

  /** The item the page builds from an accepted form. */
  function BuildItem(form: DraftForm, info: ServiceInfo, ages: seq<int>, types: seq<TipoMeia>, id: int): (item: DraftItem)
    ensures item.valorTransferIda + item.valorTransferVolta == TransferSum(item.transfers)
    ensures item.transfers == Stamped(Chosen(form.transferSelects), form.data)
    ensures forall t :: t in item.transfers ==> t.data == item.data && t.quantidade == 1
  {
    var transfers := Stamped(Chosen(form.transferSelects), form.data);
    StampedRecords(Chosen(form.transferSelects), form.data);
    IdaPlusVoltaIsTotal(transfers);
    DraftItem(id, form.data, form.categoriaId, form.servicoId, form.servicoNome,
              NumOrZero(form.qtdInteira), NumOrZero(form.qtdMeia), NumOrZero(form.qtdInfantil),
              ages, types, transfers, IdaValue(transfers), VoltaValue(transfers),
              DescriptionFor(form), Some(info))
  }

  // ---------------------------------------------------------------------
  // Draft list operations
  // ---------------------------------------------------------------------

  /** Whether some item carries the id. */
  predicate HasId(items: seq<DraftItem>, id: int)
  {
    exists i :: 0 <= i < |items| && items[i].id == id
  }

  /** The position of the first item with the id (`findIndex`), if any. */
  function FindIndex(items: seq<DraftItem>, id: int): (r: Option<nat>)
    ensures r.Some? ==> r.value < |items| && items[r.value].id == id
                        && forall j :: 0 <= j < r.value ==> items[j].id != id
    ensures r.None? <==> !HasId(items, id)
  {
    if items == [] then None
    else if items[0].id == id then Some(0)
    else
      var rest := FindIndex(items[1..], id);
      if rest.None? then
        assert forall j :: 1 <= j < |items| ==> items[j] == items[1..][j - 1];
        None
      else Some(rest.value + 1)
  }

  /** Edit mode: the first item with the id is replaced; without one, nothing changes. */
  function ReplaceFirst(items: seq<DraftItem>, id: int, item: DraftItem): (r: seq<DraftItem>)
    ensures |r| == |items|
    ensures !HasId(items, id) ==> r == items
    ensures HasId(items, id) ==> r[FindIndex(items, id).value] == item
    ensures HasId(items, id) ==> forall j :: 0 <= j < |items| && j != FindIndex(items, id).value ==> r[j] == items[j]
  {
    match FindIndex(items, id)
    case None => items
    case Some(k) => items[k := item]
  }

  /** `removerServico`: every item with the id goes, the rest stay in order. */
  function RemoveAll(items: seq<DraftItem>, id: int): (r: seq<DraftItem>)
    ensures |r| <= |items|
    ensures !HasId(r, id)
    ensures forall x :: x in items && x.id != id ==> x in r
    ensures forall x :: x in r ==> x in items
  {
    if items == [] then []
    else
      var rest := RemoveAll(items[..|items| - 1], id);
      var last := items[|items| - 1];
      if last.id == id then rest else rest + [last]
  }

  /** Removing an id the draft does not hold changes nothing. */
  lemma {:induction false} RemoveAbsentIsNoOp(items: seq<DraftItem>, id: int)
    requires !HasId(items, id)
    ensures RemoveAll(items, id) == items
  {
    if items != [] {
      var init := items[..|items| - 1];
      assert forall i :: 0 <= i < |init| ==> init[i] == items[i];
      RemoveAbsentIsNoOp(init, id);
      assert init + [items[|items| - 1]] == items;
    }
  }

  /** Removal keeps the other items in their order: it commutes with appending an item with another id. */
  lemma RemoveKeepsOrder(items: seq<DraftItem>, x: DraftItem, id: int)
    requires x.id != id
    ensures RemoveAll(items + [x], id) == RemoveAll(items, id) + [x]
  {
    assert (items + [x])[..|items|] == items;
  }

  // ---------------------------------------------------------------------
  // The priced summary
  // ---------------------------------------------------------------------

  /** The three prices a service lists: full, half and child. */
  datatype PriceKind = Full | Half | Child

  /** `info.valor_x || 0` */
  function PriceOrZero(info: Option<ServiceInfo>, which: PriceKind): int
  {
    if info.None? then 0
    else match which
      case Full => info.value.valorInteira
      case Half => info.value.valorMeia
      case Child => info.value.valorInfantil
  }

  /** The subtotal of an item: each count at its price, children at the child price, plus every transfer. */
  function Subtotal(item: DraftItem): int
  {
    item.qtdInteira * PriceOrZero(item.info, Full) + item.qtdMeia * PriceOrZero(item.info, Half)
    + item.qtdInfantil * PriceOrZero(item.info, Child) + TransferSum(item.transfers)
  }

  function GrandTotal(items: seq<DraftItem>): int
  {
    if items == [] then 0 else GrandTotal(items[..|items| - 1]) + Subtotal(items[|items| - 1])
  }

  function PaxOf(item: DraftItem): int
  {
    item.qtdInteira + item.qtdMeia + item.qtdInfantil
  }

  function TotalPax(items: seq<DraftItem>): int
  {
    if items == [] then 0 else TotalPax(items[..|items| - 1]) + PaxOf(items[|items| - 1])
  }

  /** Totals are additive over the draft. */
  lemma {:induction false} TotalsAppend(a: seq<DraftItem>, b: seq<DraftItem>)
    ensures GrandTotal(a + b) == GrandTotal(a) + GrandTotal(b)
    ensures TotalPax(a + b) == TotalPax(a) + TotalPax(b)
  {
    if b == [] {
      assert a + b == a;
    } else {
      assert (a + b)[..|a + b| - 1] == a + b[..|b| - 1];
      TotalsAppend(a, b[..|b| - 1]);
    }
  }

  /**
   * The preview prices every child at the child rate. For a child who is
   * exempt on the server, the preview still charges the child price.
   */
  lemma PreviewChargesExemptChildren(item: DraftItem)
    requires item.info.Some? && item.qtdInteira == 0 && item.qtdMeia == 0 && item.qtdInfantil == 1
    requires item.transfers == [] && |item.idades| == 1
    requires InExemption(item.info.value, item.idades[0])
    ensures Subtotal(item) == item.info.value.valorInfantil
  {
  }

  // ---------------------------------------------------------------------
  // Dates
  // ---------------------------------------------------------------------

  /** `partes[i]`, which JavaScript renders as "undefined" when missing. */
  function PartOrUndefined(parts: seq<string>, i: nat): string
  {
    if i < |parts| then parts[i] else "undefined"
  }

  /** `formatarData`: "YYYY-MM-DD" becomes "DD/MM/YYYY". */
  function FormatarData(data: string): string
  {
    var parts := Split(data, '-');
    PartOrUndefined(parts, 2) + "/" + PartOrUndefined(parts, 1) + "/" + PartOrUndefined(parts, 0)
  }

  /** `formatarDataBrasileira`: the same, but empty stays empty and anything without three parts is kept. */
  function FormatarDataBrasileira(data: string): (r: string)
    ensures data == "" ==> r == ""
    ensures |Split(data, '-')| != 3 ==> r == data
  {
    if data == "" then ""
    else
      var parts := Split(data, '-');
      if |parts| == 3 then parts[2] + "/" + parts[1] + "/" + parts[0] else data
  }

  /** A date written as year, month and day puts the day first. */
  lemma FormatarDataOfIsoDate(year: string, month: string, day: string)
    requires '-' !in year && '-' !in month && '-' !in day
    ensures FormatarData(year + "-" + month + "-" + day) == day + "/" + month + "/" + year
    ensures FormatarDataBrasileira(year + "-" + month + "-" + day) == day + "/" + month + "/" + year
  {
    var parts := [year, month, day];
    assert Join([month, day], "-") == month + "-" + day by {
      assert [month, day][1..] == [day];
    }
    assert Join(parts, "-") == year + "-" + month + "-" + day by {
      assert parts[1..] == [month, day];
    }
    SplitJoin(parts, '-');
  }

  /** The two renderings agree on every date with exactly three parts. */
  lemma DateRenderingsAgree(data: string)
    requires |Split(data, '-')| == 3
    ensures FormatarDataBrasileira(data) == FormatarData(data)
  {
  }

  // ---------------------------------------------------------------------
  // Sorted dates
  // ---------------------------------------------------------------------

  /** JavaScript's default string order: code unit by code unit, a proper prefix first. */
  predicate StrLess(a: string, b: string)
  {
    if a == [] then b != []
    else b != [] && (a[0] < b[0] || (a[0] == b[0] && StrLess(a[1..], b[1..])))
  }

  lemma {:induction false} StrLessIrreflexive(a: string)
    ensures !StrLess(a, a)
  {
    if a != [] { StrLessIrreflexive(a[1..]); }
  }

  lemma {:induction false} StrLessTransitive(a: string, b: string, c: string)
    requires StrLess(a, b) && StrLess(b, c)
    ensures StrLess(a, c)
  {
    if a != [] && a[0] == b[0] && b[0] == c[0] {
      StrLessTransitive(a[1..], b[1..], c[1..]);
    }
  }

  lemma {:induction false} StrLessTotal(a: string, b: string)
    requires a != b
    ensures StrLess(a, b) || StrLess(b, a)
  {
    if a != [] && b != [] && a[0] == b[0] {
      assert a == [a[0]] + a[1..] && b == [b[0]] + b[1..];
      StrLessTotal(a[1..], b[1..]);
    }
  }

  predicate StrictlySorted(s: seq<string>)
  {
    forall i, j :: 0 <= i < j < |s| ==> StrLess(s[i], s[j])
  }

  /** Inserting into a sorted list of distinct strings; a string already there is not added again. */
  function Insert(s: seq<string>, x: string): (r: seq<string>)
    ensures forall y :: y in r <==> y in s || y == x
  {
    if s == [] then [x]
    else if x == s[0] then s
    else if StrLess(x, s[0]) then [x] + s
    else [s[0]] + Insert(s[1..], x)
  }

  lemma {:induction false} InsertKeepsSorted(s: seq<string>, x: string)
    requires StrictlySorted(s)
    ensures StrictlySorted(Insert(s, x))
  {
    if s != [] && x != s[0] && !StrLess(x, s[0]) {
      StrLessTotal(x, s[0]);
      assert StrictlySorted(s[1..]);
      InsertKeepsSorted(s[1..], x);
      var r := Insert(s, x);
      var tail := Insert(s[1..], x);
      forall i, j | 0 <= i < j < |r| ensures StrLess(r[i], r[j]) {
        if i == 0 {
          assert r[j] == tail[j - 1] && r[j] in tail;
          if r[j] != x {
            var k :| 0 <= k < |s[1..]| && s[1..][k] == r[j];
            assert StrLess(s[0], s[k + 1]);
          }
        }
      }
    } else if s != [] && x != s[0] {
      var r := Insert(s, x);
      forall i, j | 0 <= i < j < |r| ensures StrLess(r[i], r[j]) {
        if i == 0 && j > 1 {
          StrLessTransitive(x, s[0], s[j - 1]);
        }
      }
    }
  }

  /** `sort()` on the date keys. */
  function SortStrings(s: seq<string>): (r: seq<string>)
    ensures forall y :: y in r <==> y in s
  {
    if s == [] then [] else Insert(SortStrings(s[..|s| - 1]), s[|s| - 1])
  }

  lemma {:induction false} SortStringsSorted(s: seq<string>)
    ensures StrictlySorted(SortStrings(s))
  {
    if s != [] {
      SortStringsSorted(s[..|s| - 1]);
      InsertKeepsSorted(SortStrings(s[..|s| - 1]), s[|s| - 1]);
    }
  }

  /** Two strictly sorted lists with the same elements are the same list. */
  lemma {:induction false} SortedListIsUnique(a: seq<string>, b: seq<string>)
    requires StrictlySorted(a) && StrictlySorted(b)
    requires forall y :: y in a <==> y in b
    ensures a == b
  {
    if a != [] { assert a[0] in b; }
    if b != [] { assert b[0] in a; }
    if a != [] && b != [] {
      if a[0] != b[0] {
        var i :| 0 <= i < |b| && b[i] == a[0];
        var j :| 0 <= j < |a| && a[j] == b[0];
        assert StrLess(b[0], b[i]) && StrLess(a[0], a[j]);
        StrLessTransitive(a[0], b[0], a[0]);
        StrLessIrreflexive(a[0]);
        assert false;
      }
      forall y ensures y in a[1..] <==> y in b[1..] {
        if y in a[1..] {
          var k :| 1 <= k < |a| && a[k] == y;
          assert StrLess(a[0], y) && y in a;
          var m :| 0 <= m < |b| && b[m] == y;
          if m == 0 { StrLessIrreflexive(y); assert false; }
          assert b[1..][m - 1] == y;
        }
        if y in b[1..] {
          var k :| 1 <= k < |b| && b[k] == y;
          assert StrLess(b[0], y) && y in b;
          var m :| 0 <= m < |a| && a[m] == y;
          if m == 0 { StrLessIrreflexive(y); assert false; }
          assert a[1..][m - 1] == y;
        }
      }
      SortedListIsUnique(a[1..], b[1..]);
      assert a == [a[0]] + a[1..] && b == [b[0]] + b[1..];
    }
  }

  // ---------------------------------------------------------------------
  // The itinerary preview
  // ---------------------------------------------------------------------

  /** The preview: the placeholder shown for an empty draft, or a text. */
  datatype Preview = EmptyState | RoteiroText(text: string)

  /** The dates of the draft in order of first appearance (the keys of the grouping object). */
  function DistinctDates(items: seq<DraftItem>): (r: seq<string>)
    ensures |r| <= |items|
  {
    if items == [] then []
    else if items[|items| - 1].data in DistinctDates(items[..|items| - 1]) then DistinctDates(items[..|items| - 1])
    else DistinctDates(items[..|items| - 1]) + [items[|items| - 1].data]
  }

  /** Each date of the draft is listed once, and nothing else is. */
  lemma {:induction false} DistinctDatesMembers(items: seq<DraftItem>)
    ensures forall d :: d in DistinctDates(items) <==> exists x :: x in items && x.data == d
  {
    if items != [] {
      var init := items[..|items| - 1];
      DistinctDatesMembers(init);
      assert items == init + [items[|items| - 1]];
    }
  }

  /** The items of one date, in draft order. */
  function ItemsOn(items: seq<DraftItem>, d: string): (r: seq<DraftItem>)
    ensures |r| <= |items|
  {
    if items == [] then []
    else if items[|items| - 1].data == d then ItemsOn(items[..|items| - 1], d) + [items[|items| - 1]]
    else ItemsOn(items[..|items| - 1], d)
  }

  /** A date's group holds exactly the items of that date. */
  lemma {:induction false} ItemsOnMembers(items: seq<DraftItem>, d: string)
    ensures forall x :: x in ItemsOn(items, d) <==> x in items && x.data == d
  {
    if items != [] {
      var init := items[..|items| - 1];
      ItemsOnMembers(init, d);
      assert items == init + [items[|items| - 1]];
    }
  }

  /** The dates of the preview, sorted. */
  function SortedDates(items: seq<DraftItem>): seq<string>
  {
    SortStrings(DistinctDates(items))
  }

  /** The dates of the preview are sorted, each appears once, and they are exactly the dates of the draft. */
  lemma SortedDatesProperties(items: seq<DraftItem>)
    ensures StrictlySorted(SortedDates(items))
    ensures forall d :: d in SortedDates(items) <==> exists x :: x in items && x.data == d
  {
    SortStringsSorted(DistinctDates(items));
    DistinctDatesMembers(items);
  }

  /** `c.repeat(n)` */
  function Repeat(c: char, n: nat): (r: string)
    ensures |r| == n && forall k :: 0 <= k < n ==> r[k] == c
  {
    if n == 0 then "" else [c] + Repeat(c, n - 1)
  }

  /** The rule under each date heading: fifty box-drawing dashes. */
  const RULE: string := Repeat('\U{2500}', 50)

  /** `'R$ ' + parseFloat(v).toFixed(2)` for a value in cents. */
  function Fixed2(cents: int): string
  {
    if cents < 0 then "-" + Fixed2Nat(-cents) else Fixed2Nat(cents)
  }

  function Fixed2Nat(cents: nat): string
  {
    NatToString(cents / 100) + "." + ZeroPad(cents % 100, 2)
  }

  function IntsJoined(ns: seq<int>): string
  {
    if ns == [] then "" else if |ns| == 1 then IntToString(ns[0]) else IntToString(ns[0]) + ", " + IntsJoined(ns[1..])
  }

  function TransferLines(transfers: seq<Transfer>): string
  {
    if transfers == [] then ""
    else TransferLines(transfers[..|transfers| - 1])
         + "     - " + transfers[|transfers| - 1].nome + " (R$ " + Fixed2(transfers[|transfers| - 1].valor) + ")\n"
  }

  /** The block of the `n`-th option of a date. */
  function OptionBlock(n: nat, item: DraftItem): string
  {
    "Op\U{E7}\U{E3}o " + NatToString(n) + "\n" + item.descricao + "\n"
    + (if item.qtdInteira > 0 then "  \U{2022} " + IntToString(item.qtdInteira) + " Inteira(s)\n" else "")
    + (if item.qtdMeia > 0 then "  \U{2022} " + IntToString(item.qtdMeia) + " Meia(s)\n" else "")
    + (if item.qtdInfantil > 0
       then "  \U{2022} " + IntToString(item.qtdInfantil) + " Infantil(is) (idades: " + IntsJoined(item.idades) + ")\n"
       else "")
    + (if item.transfers != [] then "  \U{1F68C} Transfers:\n" + TransferLines(item.transfers) else "")
    + "\n"
  }

  /** The options of one date, numbered from 1 in draft order. */
  function OptionBlocks(group: seq<DraftItem>): string
  {
    if group == [] then "" else OptionBlocks(group[..|group| - 1]) + OptionBlock(|group|, group[|group| - 1])
  }

  function DateHeading(d: string): string
  {
    "\U{1F4C5} " + FormatarData(d) + "\n" + RULE + "\n\n"
  }

  function DateBlock(d: string, items: seq<DraftItem>): string
  {
    DateHeading(d) + OptionBlocks(ItemsOn(items, d)) + "\n"
  }

  function DateBlocks(dates: seq<string>, items: seq<DraftItem>): string
  {
    if dates == [] then "" else DateBlocks(dates[..|dates| - 1], items) + DateBlock(dates[|dates| - 1], items)
  }

  const ROTEIRO_HEADER: string := "=== ROTEIRO ===\n\n"

  /** `atualizarRoteiro`: the placeholder for an empty draft, otherwise the text grouped by sorted date. */
  function PreviewOf(items: seq<DraftItem>): (p: Preview)
    ensures p.EmptyState? <==> items == []
  {
    if items == [] then EmptyState else RoteiroText(ROTEIRO_HEADER + DateBlocks(SortedDates(items), items))
  }

  /** The preview depends on the dates and the order within each date only, not on how dates interleave. */
  lemma PreviewIgnoresDateInterleaving(a: seq<DraftItem>, b: seq<DraftItem>)
    requires a != [] && b != []
    requires forall d :: d in SortedDates(a) <==> d in SortedDates(b)
    requires forall d :: ItemsOn(a, d) == ItemsOn(b, d)
    ensures PreviewOf(a) == PreviewOf(b)
  {
    SortedDatesProperties(a);
    SortedDatesProperties(b);
    SortedListIsUnique(SortedDates(a), SortedDates(b));
    DateBlocksDependOnGroups(SortedDates(a), a, b);
  }

  lemma {:induction false} DateBlocksDependOnGroups(dates: seq<string>, a: seq<DraftItem>, b: seq<DraftItem>)
    requires forall d :: ItemsOn(a, d) == ItemsOn(b, d)
    ensures DateBlocks(dates, a) == DateBlocks(dates, b)
  {
    if dates != [] {
      DateBlocksDependOnGroups(dates[..|dates| - 1], a, b);
    }
  }

  // ---------------------------------------------------------------------
  // Saving
  // ---------------------------------------------------------------------

  /**
   * `salvarOrdemServico`: no request for an empty draft; the edit URL of
   * the first loaded item when editing loaded items; the create URL
   * otherwise (the order URL when set, else the line-item URL).
   */
  function SaveUrl(items: seq<DraftItem>, editando: bool, loadedIds: seq<int>,
                   ordemServicoCreate: string, lancamentoCreate: string): (url: Option<string>)
    ensures url.None? <==> items == []
    ensures items != [] && editando && loadedIds != [] ==>
              url == Some("/servicos/lancamentos/" + IntToString(loadedIds[0]) + "/editar/")
    ensures items != [] && !(editando && loadedIds != []) ==>
              url == Some(if ordemServicoCreate != "" then ordemServicoCreate else lancamentoCreate)
  {
    if items == [] then None
    else if editando && loadedIds != [] then Some("/servicos/lancamentos/" + IntToString(loadedIds[0]) + "/editar/")
    else Some(if ordemServicoCreate != "" then ordemServicoCreate else lancamentoCreate)
  }
}
