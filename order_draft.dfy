/**
 * The order-draft page as a stateful object: the list of draft items,
 * the service whose rules are loaded, the item being edited, the
 * transfer-slot counter, and what the page shows (the passenger count
 * and the grand total of the summary panel, and the itinerary preview).
 * Every operation refreshes what it refreshes in the page, and the
 * loops of the page are proved against the functions of DraftRules.
 *
 * Source: static/js/lancamento_form.js.
 */
module OrderDraft {
  import opened Common
  import opened DraftRules

  // ---------------------------------------------------------------------
  // Loops of the page, as methods that change nothing
  // ---------------------------------------------------------------------

  lemma AgeValuesSnoc(inputs: seq<Option<int>>, i: nat)
    requires i < |inputs|
    ensures AgeValues(inputs[..i + 1]) == AgeValues(inputs[..i]) + (if inputs[i].Some? then [inputs[i].value] else [])
  {
    assert inputs[..i + 1][..i] == inputs[..i];
  }

  lemma ChosenSnoc<T>(selects: seq<Option<T>>, i: nat)
    requires i < |selects|
    ensures Chosen(selects[..i + 1]) == Chosen(selects[..i]) + (if selects[i].Some? then [selects[i].value] else [])
  {
    assert selects[..i + 1][..i] == selects[..i];
  }

  /** The `forEach` over the age inputs: the numbers read, and whether any input is empty or refused. */
  method ReadAges(info: ServiceInfo, inputs: seq<Option<int>>) returns (idades: seq<int>, temInvalido: bool)
    ensures idades == AgeValues(inputs)
    ensures temInvalido <==> exists k :: 0 <= k < |inputs| && AgeRefused(info, inputs[k])
  {
    idades, temInvalido := [], false;
    var i := 0;
    while i < |inputs|
      invariant 0 <= i <= |inputs|
      invariant idades == AgeValues(inputs[..i])
      invariant temInvalido <==> exists k :: 0 <= k < i && AgeRefused(info, inputs[k])
    {
      AgeValuesSnoc(inputs, i);
      var age := inputs[i];
      if age.Some? {
        idades := idades + [age.value];
      }
      if AgeRefused(info, age) {
        temInvalido := true;
      }
      i := i + 1;
    }
    assert inputs[..i] == inputs;
  }

  /** The `forEach` over the half-price selects: the types chosen, and whether any select is empty. */
  method ReadTypes(selects: seq<Option<TipoMeia>>) returns (tipos: seq<TipoMeia>, temVazio: bool)
    ensures tipos == Chosen(selects)
    ensures temVazio <==> exists k :: 0 <= k < |selects| && selects[k].None?
  {
    tipos, temVazio := [], false;
    var i := 0;
    while i < |selects|
      invariant 0 <= i <= |selects|
      invariant tipos == Chosen(selects[..i])
      invariant temVazio <==> exists k :: 0 <= k < i && selects[k].None?
    {
      ChosenSnoc(selects, i);
      if selects[i].None? {
        temVazio := true;
      } else {
        tipos := tipos + [selects[i].value];
      }
      i := i + 1;
    }
    assert selects[..i] == selects;
  }

  /** The checks of `adicionarServicoALista`, in the page's order, with its age and half-price-type loops. */
  method ValidateForm(form: DraftForm, info: Option<ServiceInfo>) returns (res: Result<(seq<int>, seq<TipoMeia>), AddError>)
    ensures res == CheckDraft(form, info)
  {
    if form.data == "" || form.categoriaId == "" || form.servicoId == "" {
      return Err(MissingFields);
    }
    if info.None? {
      return Err(NoServiceInfo);
    }
    var qi, qm, qc := NumOrZero(form.qtdInteira), NumOrZero(form.qtdMeia), NumOrZero(form.qtdInfantil);
    if qi == 0 && qm == 0 && qc == 0 {
      return Err(NoQuantity);
    }
    var idades: seq<int> := [];
    if qc > 0 {
      if |form.ageInputs| != qc {
        return Err(AgesIncomplete);
      }
      var temInvalido;
      idades, temInvalido := ReadAges(info.value, form.ageInputs);
      if temInvalido {
        return Err(InvalidAges);
      }
    }
    var tipos: seq<TipoMeia> := [];
    if qm > 0 {
      if |form.typeSelects| != qm {
        return Err(TypesIncomplete);
      }
      var temVazio;
      tipos, temVazio := ReadTypes(form.typeSelects);
      if temVazio {
        return Err(TypesEmpty);
      }
    }
    res := Ok((idades, tipos));
  }

  lemma VoltaValueSnoc(chosen: seq<Transfer>, t: Transfer)
    requires chosen != []
    ensures VoltaValue(chosen + [t]) == VoltaValue(chosen) + t.valor
  {
    var all := chosen + [t];
    assert all[1..] == chosen[1..] + [t];
    assert (chosen[1..] + [t])[..|chosen[1..] + [t]| - 1] == chosen[1..];
    if |chosen| == 1 {
      assert chosen[1..] == [];
      assert TransferSum([t]) == TransferSum([t][..0]) + t.valor;
      assert [t][..0] == [];
    }
  }

  lemma LegsSnoc(transfers: seq<Transfer>, t: Transfer)
    ensures IdaValue(transfers + [t]) == if transfers == [] then t.valor else IdaValue(transfers)
    ensures VoltaValue(transfers + [t]) == if transfers == [] then 0 else VoltaValue(transfers) + t.valor
  {
    if transfers != [] {
      VoltaValueSnoc(transfers, t);
    }
  }

  /**
   * The transfer loop: each chosen transfer is recorded on the service's
   * date with a quantity of one; the first is the outbound leg, the later
   * ones add up to the return leg.
   */
  method SplitTransfers(selects: seq<Option<Transfer>>, data: string) returns (transfers: seq<Transfer>, ida: int, volta: int)
    ensures transfers == Stamped(Chosen(selects), data)
    ensures ida == IdaValue(transfers) && volta == VoltaValue(transfers)
    ensures ida + volta == TransferSum(transfers)
  {
    transfers, ida, volta := [], 0, 0;
    ghost var chosen: seq<Transfer> := [];
    var i := 0;
    while i < |selects|
      invariant 0 <= i <= |selects|
      invariant chosen == Chosen(selects[..i])
      invariant transfers == Stamped(chosen, data)
      invariant ida == IdaValue(transfers) && volta == VoltaValue(transfers)
    {
      ChosenSnoc(selects, i);
      if selects[i].Some? {
        var t := selects[i].value;
        var recorded := Transfer(t.transferId, t.nome, data, 1, t.valor);
        StampedSnoc(chosen, t, data);
        LegsSnoc(transfers, recorded);
        if transfers == [] {
          ida := recorded.valor;
        } else {
          volta := volta + recorded.valor;
        }
        transfers := transfers + [recorded];
        chosen := chosen + [t];
      }
      i := i + 1;
    }
    assert selects[..i] == selects;
    IdaPlusVoltaIsTotal(transfers);
  }

  /** The `filter` of `removerServico`. */
  method FilterOut(items: seq<DraftItem>, id: int) returns (kept: seq<DraftItem>)
    ensures kept == RemoveAll(items, id)
  {
    kept := [];
    var i := 0;
    while i < |items|
      invariant 0 <= i <= |items|
      invariant kept == RemoveAll(items[..i], id)
    {
      assert items[..i + 1][..i] == items[..i];
      if items[i].id != id {
        kept := kept + [items[i]];
      }
      i := i + 1;
    }
    assert items[..i] == items;
  }

  /** The per-item loop of `atualizarResumoTotais`, with its inner transfer loop. */
  method ComputeTotals(items: seq<DraftItem>) returns (pax: int, total: int)
    ensures pax == TotalPax(items) && total == GrandTotal(items)
  {
    pax, total := 0, 0;
    var i := 0;
    while i < |items|
      invariant 0 <= i <= |items|
      invariant pax == TotalPax(items[..i]) && total == GrandTotal(items[..i])
    {
      assert items[..i + 1][..i] == items[..i];
      var item := items[i];
      var totalTransfer := 0;
      var k := 0;
      while k < |item.transfers|
        invariant 0 <= k <= |item.transfers|
        invariant totalTransfer == TransferSum(item.transfers[..k])
      {
        assert item.transfers[..k + 1][..k] == item.transfers[..k];
        totalTransfer := totalTransfer + item.transfers[k].valor;
        k := k + 1;
      }
      assert item.transfers[..k] == item.transfers;
      total := total + item.qtdInteira * PriceOrZero(item.info, Full) + item.qtdMeia * PriceOrZero(item.info, Half)
               + item.qtdInfantil * PriceOrZero(item.info, Child) + totalTransfer;
      pax := pax + item.qtdInteira + item.qtdMeia + item.qtdInfantil;
      i := i + 1;
    }
    assert items[..i] == items;
  }

  lemma {:induction false} NoItemsOnAbsentDate(items: seq<DraftItem>, d: string)
    requires forall x :: x in items ==> x.data != d
    ensures ItemsOn(items, d) == []
  {
    if items != [] {
      assert items[|items| - 1] in items;
      NoItemsOnAbsentDate(items[..|items| - 1], d);
    }
  }

  lemma DistinctDatesSnoc(items: seq<DraftItem>, i: nat)
    requires i < |items|
    ensures DistinctDates(items[..i + 1]) ==
              if items[i].data in DistinctDates(items[..i]) then DistinctDates(items[..i])
              else DistinctDates(items[..i]) + [items[i].data]
  {
    assert items[..i + 1][..i] == items[..i];
  }

  lemma ItemsOnSnoc(items: seq<DraftItem>, i: nat, d: string)
    requires i < |items|
    ensures ItemsOn(items[..i + 1], d) == ItemsOn(items[..i], d) + (if items[i].data == d then [items[i]] else [])
  {
    assert items[..i + 1][..i] == items[..i];
  }

  /** The grouping map holds, for each date seen so far, that date's items. */
  ghost predicate GroupsOf(items: seq<DraftItem>, keys: seq<string>, groups: map<string, seq<DraftItem>>)
  {
    keys == DistinctDates(items)
    && (forall d :: d in groups <==> d in keys)
    && (forall d :: d in groups ==> groups[d] == ItemsOn(items, d))
  }

  lemma ItemsOnSnocAll(items: seq<DraftItem>, i: nat)
    requires i < |items|
    ensures forall d :: ItemsOn(items[..i + 1], d) == ItemsOn(items[..i], d) + (if items[i].data == d then [items[i]] else [])
  {
    forall d ensures ItemsOn(items[..i + 1], d) == ItemsOn(items[..i], d) + (if items[i].data == d then [items[i]] else []) {
      ItemsOnSnoc(items, i, d);
    }
  }

  /** An item of a date already seen joins that date's group. */
  lemma GroupStepSeen(items: seq<DraftItem>, i: nat, keys: seq<string>, groups: map<string, seq<DraftItem>>)
    requires i < |items| && GroupsOf(items[..i], keys, groups) && items[i].data in groups
    ensures GroupsOf(items[..i + 1], keys, groups[items[i].data := groups[items[i].data] + [items[i]]])
  {
    DistinctDatesSnoc(items, i);
    ItemsOnSnocAll(items, i);
  }

  /** An item of a new date starts a group of its own. */
  lemma GroupStepNew(items: seq<DraftItem>, i: nat, keys: seq<string>, groups: map<string, seq<DraftItem>>)
    requires i < |items| && GroupsOf(items[..i], keys, groups) && items[i].data !in groups
    ensures GroupsOf(items[..i + 1], keys + [items[i].data], groups[items[i].data := [items[i]]])
  {
    DistinctDatesSnoc(items, i);
    ItemsOnSnocAll(items, i);
    DistinctDatesMembers(items[..i]);
    NoItemsOnAbsentDate(items[..i], items[i].data);
  }

  /** The grouping loop of `atualizarRoteiro`: the dates in order of first appearance, and each date's items. */
  method GroupByDate(items: seq<DraftItem>) returns (keys: seq<string>, groups: map<string, seq<DraftItem>>)
    ensures keys == DistinctDates(items)
    ensures forall d :: d in groups <==> d in keys
    ensures forall d :: d in groups ==> groups[d] == ItemsOn(items, d)
  {
    keys, groups := [], map[];
    var i := 0;
    while i < |items|
      invariant 0 <= i <= |items|
      invariant GroupsOf(items[..i], keys, groups)
    {
      var s := items[i];
      if s.data !in groups {
        GroupStepNew(items, i, keys, groups);
        keys := keys + [s.data];
        groups := groups[s.data := [s]];
      } else {
        GroupStepSeen(items, i, keys, groups);
        groups := groups[s.data := groups[s.data] + [s]];
      }
      i := i + 1;
    }
    assert items[..i] == items;
  }

  lemma Reassociate(a: string, b: string, c: string)
    ensures a + b + c == a + (b + c)
  {
  }

  lemma OptionBlocksSnoc(group: seq<DraftItem>, k: nat)
    requires k < |group|
    ensures OptionBlocks(group[..k + 1]) == OptionBlocks(group[..k]) + OptionBlock(k + 1, group[k])
  {
    assert group[..k + 1][..k] == group[..k];
  }

  lemma DateBlocksSnoc(dates: seq<string>, j: nat, items: seq<DraftItem>)
    requires j < |dates|
    ensures DateBlocks(dates[..j + 1], items) == DateBlocks(dates[..j], items) + DateBlock(dates[j], items)
  {
    assert dates[..j + 1][..j] == dates[..j];
  }

  /** The options of one date, numbered from 1. */
  method WriteDate(d: string, group: seq<DraftItem>) returns (block: string)
    ensures block == DateHeading(d) + OptionBlocks(group) + "\n"
  {
    var head := DateHeading(d);
    block := head;
    var k := 0;
    while k < |group|
      invariant 0 <= k <= |group|
      invariant block == head + OptionBlocks(group[..k])
    {
      OptionBlocksSnoc(group, k);
      Reassociate(head, OptionBlocks(group[..k]), OptionBlock(k + 1, group[k]));
      block := block + OptionBlock(k + 1, group[k]);
      k := k + 1;
    }
    assert group[..k] == group;
    block := block + "\n";
  }

  /** `atualizarRoteiro`: group by date, sort the dates, then write each date with its numbered options. */
  method BuildPreview(items: seq<DraftItem>) returns (p: Preview)
    ensures p == PreviewOf(items)
  {
    if items == [] {
      return EmptyState;
    }
    var keys, groups := GroupByDate(items);
    var dates := SortStrings(keys);
    var text := ROTEIRO_HEADER;
    var j := 0;
    while j < |dates|
      invariant 0 <= j <= |dates|
      invariant text == ROTEIRO_HEADER + DateBlocks(dates[..j], items)
    {
      var d := dates[j];
      assert d in keys;
      var block := WriteDate(d, groups[d]);
      DateBlocksSnoc(dates, j, items);
      Reassociate(ROTEIRO_HEADER, DateBlocks(dates[..j], items), block);
      text := text + block;
      j := j + 1;
    }
    assert dates[..j] == dates;
    p := RoteiroText(text);
  }

  /** An item sent by the server for editing; missing values are `None`, numbers as `parseInt`/`parseFloat` read them. */
  datatype LoadedItem = LoadedItem(
    id: Option<int>, data: string, categoriaId: string, servicoId: string, servicoNome: string,
    qtdInteira: Option<int>, qtdMeia: Option<int>, qtdInfantil: Option<int>,
    idades: seq<int>, tiposMeia: seq<TipoMeia>, transfers: seq<Transfer>,
    valorTransferIda: Option<int>, valorTransferVolta: Option<int>,
    descricao: string, info: Option<ServiceInfo>)

  /** A loaded item with its gaps filled: a missing or zero id becomes `now + index`, missing numbers 0. */
  function Completed(l: LoadedItem, now: int, index: nat): (item: DraftItem)
    ensures l.id.Some? && l.id.value != 0 ==> item.id == l.id.value
    ensures !(l.id.Some? && l.id.value != 0) ==> item.id == now + index
    ensures PaxOf(item) == NumOrZero(l.qtdInteira) + NumOrZero(l.qtdMeia) + NumOrZero(l.qtdInfantil)
  {
    DraftItem(if l.id.Some? && l.id.value != 0 then l.id.value else now + index,
              l.data, l.categoriaId, l.servicoId, l.servicoNome,
              NumOrZero(l.qtdInteira), NumOrZero(l.qtdMeia), NumOrZero(l.qtdInfantil),
              l.idades, l.tiposMeia, l.transfers,
              NumOrZero(l.valorTransferIda), NumOrZero(l.valorTransferVolta),
              l.descricao, l.info)
  }

  /** Every loaded item completed, in order. */
  function LoadedItems(ls: seq<LoadedItem>, now: int): (r: seq<DraftItem>)
    ensures |r| == |ls|
    ensures forall i :: 0 <= i < |ls| ==> r[i] == Completed(ls[i], now, i)
  {
    if ls == [] then [] else LoadedItems(ls[..|ls| - 1], now) + [Completed(ls[|ls| - 1], now, |ls| - 1)]
  }

  /** The `forEach` of `carregarLancamentosParaEdicao`. */
  method LoadItems(ls: seq<LoadedItem>, now: int) returns (items: seq<DraftItem>)
    ensures items == LoadedItems(ls, now)
  {
    items := [];
    var index := 0;
    while index < |ls|
      invariant 0 <= index <= |ls|
      invariant items == LoadedItems(ls[..index], now)
    {
      assert ls[..index + 1][..index] == ls[..index];
      items := items + [Completed(ls[index], now, index)];
      index := index + 1;
    }
    assert ls[..index] == ls;
  }

  // ---------------------------------------------------------------------
  // The page state
  // ---------------------------------------------------------------------

  /** JavaScript truthiness of `editandoId`: null and 0 are false. */
  predicate Truthy(e: Option<int>)
  {
    e.Some? && e.value != 0
  }

  /** The id a new item gets: `editandoId || Date.now()`. */
  function NewItemId(editandoId: Option<int>, now: int): int
  {
    if Truthy(editandoId) then editandoId.value else now
  }

  /** The list after adding an item: replacing the edited one, or appending. */
  function AddedTo(items: seq<DraftItem>, editandoId: Option<int>, item: DraftItem): (r: seq<DraftItem>)
    ensures !Truthy(editandoId) ==> |r| == |items| + 1 && r[..|items|] == items && r[|items|] == item
    ensures Truthy(editandoId) ==> |r| == |items|
  {
    if Truthy(editandoId) then ReplaceFirst(items, editandoId.value, item) else items + [item]
  }

  /** Editing an item that is in the list replaces it in place: the totals change by the difference of the two subtotals. */
  lemma {:induction false} ReplacedTotals(items: seq<DraftItem>, k: nat, item: DraftItem)
    requires k < |items|
    ensures GrandTotal(items[k := item]) == GrandTotal(items) - Subtotal(items[k]) + Subtotal(item)
    ensures TotalPax(items[k := item]) == TotalPax(items) - PaxOf(items[k]) + PaxOf(item)
  {
    var n := |items| - 1;
    if k == n {
      assert items[k := item][..n] == items[..n];
    } else {
      ReplacedTotals(items[..n], k, item);
      assert items[k := item][..n] == items[..n][k := item];
    }
  }

  /** Appending an item adds its subtotal and its passengers to the totals. */
  lemma AppendedTotals(items: seq<DraftItem>, item: DraftItem)
    ensures GrandTotal(items + [item]) == GrandTotal(items) + Subtotal(item)
    ensures TotalPax(items + [item]) == TotalPax(items) + PaxOf(item)
  {
    assert (items + [item])[..|items|] == items;
  }

  /** What `salvarOrdemServico` posts: the items and the text of the preview. */
  datatype SaveRequest = SaveRequest(url: string, servicos: seq<DraftItem>, roteiro: string)

  const PREVIEW_PLACEHOLDER: string := "Adicione servi\U{E7}os para visualizar o roteiro"

  class OrderDraftPage {
    var servicos: seq<DraftItem>
    var servicoAtualInfo: Option<ServiceInfo>
    var contadorTransfers: int
    var editandoId: Option<int>
    /** The passenger count and the grand total the summary panel shows. */
    var shownPax: int
    var shownTotal: int
    var preview: Preview

    /** The summary panel shows the totals of the current list. */
    predicate SummaryCurrent()
      reads this
    {
      shownPax == TotalPax(servicos) && shownTotal == GrandTotal(servicos)
    }

    /** The placeholder is shown exactly when the list is empty. */
    predicate PreviewPresent()
      reads this
    {
      preview.EmptyState? <==> servicos == []
    }

    predicate Valid()
      reads this
    {
      SummaryCurrent() && PreviewPresent()
    }

    constructor()
      ensures servicos == [] && servicoAtualInfo.None? && contadorTransfers == 0 && editandoId.None?
      ensures shownPax == 0 && shownTotal == 0 && preview == EmptyState
      ensures Valid()
    {
      servicos := [];
      servicoAtualInfo := None;
      contadorTransfers := 0;
      editandoId := None;
      shownPax := 0;
      shownTotal := 0;
      preview := EmptyState;
    }

    /** The information of the chosen service arrived: its rules now apply, and the transfer slots restart. */
    method ServiceLoaded(info: ServiceInfo)
      modifies this
      ensures servicoAtualInfo == Some(info) && contadorTransfers == 0
      ensures servicos == old(servicos) && editandoId == old(editandoId)
      ensures shownPax == old(shownPax) && shownTotal == old(shownTotal) && preview == old(preview)
    {
      servicoAtualInfo := Some(info);
      contadorTransfers := 0;
    }

    /** `adicionarTransferOpcao`: one more transfer slot, labelled with its number. */
    method AddTransferSlot() returns (slot: int)
      modifies this`contadorTransfers
      ensures contadorTransfers == old(contadorTransfers) + 1 && slot == contadorTransfers
    {
      contadorTransfers := contadorTransfers + 1;
      slot := contadorTransfers;
    }

    /** Removing a transfer slot. */
    method RemoveTransferSlot()
      modifies this`contadorTransfers
      ensures contadorTransfers == old(contadorTransfers) - 1
    {
      contadorTransfers := contadorTransfers - 1;
    }

    /** `editarServico`: edit mode starts only for an id the list holds. */
    method StartEditing(id: int)
      modifies this`editandoId
      ensures HasId(servicos, id) ==> editandoId == Some(id)
      ensures !HasId(servicos, id) ==> editandoId == old(editandoId)
    {
      if FindIndex(servicos, id).Some? {
        editandoId := Some(id);
      }
    }

    /** `limparFormulario`: the loaded service, the transfer slots and edit mode are reset. */
    method ClearForm()
      modifies this`servicoAtualInfo, this`contadorTransfers, this`editandoId
      ensures servicoAtualInfo.None? && contadorTransfers == 0 && editandoId.None?
    {
      servicoAtualInfo := None;
      contadorTransfers := 0;
      editandoId := None;
    }

    /** `atualizarResumoTotais` */
    method RefreshSummary()
      modifies this`shownPax, this`shownTotal
      ensures SummaryCurrent()
    {
      shownPax, shownTotal := ComputeTotals(servicos);
    }

    /** `atualizarListaServicos` as written: an empty list returns before the summary is refreshed. */
    method RefreshListAsWritten()
      modifies this`shownPax, this`shownTotal
      ensures servicos != [] ==> SummaryCurrent()
      ensures servicos == [] ==> shownPax == old(shownPax) && shownTotal == old(shownTotal)
    {
      if servicos == [] {
        return;
      }
      RefreshSummary();
    }

    /** `atualizarListaServicos` with the summary refreshed for every list, the empty one included. */
    method RefreshList()
      modifies this`shownPax, this`shownTotal
      ensures SummaryCurrent()
    {
      RefreshSummary();
    }

    /** `atualizarRoteiro` */
    method RefreshPreview()
      modifies this`preview
      ensures preview == PreviewOf(servicos)
      ensures PreviewPresent()
    {
      preview := BuildPreview(servicos);
    }

    /**
     * `adicionarServicoALista`: a refused form changes nothing; an
     * accepted one replaces the edited item or is appended, then the
     * list, the summary and the preview are refreshed and the form is
     * cleared.
     */
    method AddService(form: DraftForm, now: int) returns (err: Option<AddError>)
      modifies this
      ensures CheckDraft(form, old(servicoAtualInfo)).Err? ==>
                err == Some(CheckDraft(form, old(servicoAtualInfo)).error) && unchanged(this)
      ensures CheckDraft(form, old(servicoAtualInfo)).Ok? ==>
                var checked := CheckDraft(form, old(servicoAtualInfo)).value;
                err.None?
                && servicos == AddedTo(old(servicos), old(editandoId),
                                       BuildItem(form, old(servicoAtualInfo).value, checked.0, checked.1,
                                                 NewItemId(old(editandoId), now)))
                && servicoAtualInfo.None? && contadorTransfers == 0 && editandoId.None?
                && (servicos != [] ==> SummaryCurrent())
                && (servicos == [] ==> shownPax == old(shownPax) && shownTotal == old(shownTotal))
                && PreviewPresent() && preview == PreviewOf(servicos)
                && (!Truthy(old(editandoId)) ==> Valid())
    {
      var checked := ValidateForm(form, servicoAtualInfo);
      if checked.Err? {
        return Some(checked.error);
      }
      var transfers, ida, volta := SplitTransfers(form.transferSelects, form.data);
      var item := DraftItem(NewItemId(editandoId, now), form.data, form.categoriaId, form.servicoId, form.servicoNome,
                            NumOrZero(form.qtdInteira), NumOrZero(form.qtdMeia), NumOrZero(form.qtdInfantil),
                            checked.value.0, checked.value.1, transfers, ida, volta,
                            DescriptionFor(form), servicoAtualInfo);
      assert item == BuildItem(form, servicoAtualInfo.value, checked.value.0, checked.value.1, NewItemId(editandoId, now));
      Commit(item);
      err := None;
    }

    /**
     * The end of `adicionarServicoALista`: replace or append, refresh the
     * list and the preview, clear the form. The list refresh is the one as
     * written, so the summary is brought up to date unless the list is
     * empty, which only an edit of an item no longer listed can leave; an
     * appended item always leaves the page consistent.
     */
    method Commit(item: DraftItem)
      modifies this
      ensures servicos == AddedTo(old(servicos), old(editandoId), item)
      ensures servicoAtualInfo.None? && contadorTransfers == 0 && editandoId.None?
      ensures servicos != [] ==> SummaryCurrent()
      ensures servicos == [] ==> shownPax == old(shownPax) && shownTotal == old(shownTotal)
      ensures PreviewPresent() && preview == PreviewOf(servicos)
      ensures !Truthy(old(editandoId)) ==> Valid()
    {
      var updated := AddedTo(servicos, editandoId, item);
      if Truthy(editandoId) {
        editandoId := None;
      }
      servicos := updated;
      RefreshListAsWritten();
      ghost var summary := (shownPax, shownTotal);
      assert servicos == updated && (servicos != [] ==> SummaryCurrent());
      RefreshPreview();
      assert servicos == updated && (shownPax, shownTotal) == summary && PreviewPresent();
      ghost var shown := (shownPax, shownTotal, preview);
      ClearForm();
      assert servicos == updated && (shownPax, shownTotal, preview) == shown;
    }

    /** `removerServico` with the corrected list refresh: the summary always matches the list. */
    method RemoveService(id: int, confirmed: bool)
      modifies this
      ensures !confirmed ==> unchanged(this)
      ensures confirmed ==> servicos == RemoveAll(old(servicos), id) && Valid() && preview == PreviewOf(servicos)
      ensures confirmed ==> servicoAtualInfo == old(servicoAtualInfo) && editandoId == old(editandoId)
                            && contadorTransfers == old(contadorTransfers)
    {
      if !confirmed {
        return;
      }
      servicos := FilterOut(servicos, id);
      RefreshList();
      RefreshPreview();
    }

    /** `removerServico` as written: removing the last item leaves the old totals on the summary panel. */
    method RemoveServiceAsWritten(id: int, confirmed: bool)
      modifies this
      ensures !confirmed ==> unchanged(this)
      ensures confirmed ==> servicos == RemoveAll(old(servicos), id) && preview == PreviewOf(servicos)
      ensures confirmed && servicos != [] ==> SummaryCurrent()
      ensures confirmed && servicos == [] ==> shownPax == old(shownPax) && shownTotal == old(shownTotal)
    {
      if !confirmed {
        return;
      }
      servicos := FilterOut(servicos, id);
      RefreshListAsWritten();
      RefreshPreview();
    }

    /**
     * `carregarLancamentosParaEdicao`: a non-empty list replaces the
     * draft; the saved itinerary is shown when there is one, otherwise it
     * is generated. An empty list changes nothing.
     */
    method LoadForEdit(lancamentos: seq<LoadedItem>, roteiro: string, now: int)
      modifies this
      ensures lancamentos == [] ==> unchanged(this)
      ensures lancamentos != [] ==> servicos == LoadedItems(lancamentos, now) && SummaryCurrent()
      ensures lancamentos != [] && roteiro != "" ==> preview == RoteiroText(roteiro)
      ensures lancamentos != [] && roteiro == "" ==> preview == PreviewOf(servicos)
      ensures lancamentos != [] ==> Valid()
      ensures servicoAtualInfo == old(servicoAtualInfo) && editandoId == old(editandoId)
              && contadorTransfers == old(contadorTransfers)
    {
      if lancamentos == [] {
        return;
      }
      var items := LoadItems(lancamentos, now);
      ShowLoaded(items, roteiro);
    }

    /** The loaded items become the draft; the list and summary are refreshed and the itinerary shown or generated. */
    method ShowLoaded(items: seq<DraftItem>, roteiro: string)
      requires items != []
      modifies this`servicos, this`shownPax, this`shownTotal, this`preview
      ensures servicos == items && Valid()
      ensures roteiro != "" ==> preview == RoteiroText(roteiro)
      ensures roteiro == "" ==> preview == PreviewOf(items)
    {
      servicos := items;
      RefreshListAsWritten();
      if roteiro != "" {
        preview := RoteiroText(roteiro);
      } else {
        RefreshPreview();
      }
    }

    /** `salvarOrdemServico`: no request for an empty draft; otherwise the items and the preview's text go to the chosen URL. */
    method Save(editando: bool, loadedIds: seq<int>, ordemServicoCreate: string, lancamentoCreate: string)
      returns (request: Option<SaveRequest>)
      ensures request.None? <==> servicos == []
      ensures request.Some? ==>
                request.value.url == SaveUrl(servicos, editando, loadedIds, ordemServicoCreate, lancamentoCreate).value
                && request.value.servicos == servicos
                && request.value.roteiro == (if preview.RoteiroText? then preview.text else PREVIEW_PLACEHOLDER)
    {
      var url := SaveUrl(servicos, editando, loadedIds, ordemServicoCreate, lancamentoCreate);
      if url.None? {
        return None;
      }
      var text := if preview.RoteiroText? then preview.text else PREVIEW_PLACEHOLDER;
      request := Some(SaveRequest(url.value, servicos, text));
    }
  }

  // ---------------------------------------------------------------------
  // The stale summary, as written and corrected
  // ---------------------------------------------------------------------

  const SAMPLE_INFO: ServiceInfo :=
    ServiceInfo("Passeio", 10000, 5000, 5000, false, 0, false, None, None, false, 0, 0)

  const SAMPLE_ITEM: LoadedItem :=
    LoadedItem(Some(7), "2025-01-10", "1", "2", "Passeio", Some(1), Some(0), Some(0),
               [], [], [], None, None, "Passeio", Some(SAMPLE_INFO))

  lemma SampleItemTotals()
    ensures TotalPax([Completed(SAMPLE_ITEM, 0, 0)]) == 1
    ensures GrandTotal([Completed(SAMPLE_ITEM, 0, 0)]) == 10000
    ensures RemoveAll([Completed(SAMPLE_ITEM, 0, 0)], 7) == []
  {
    var item := Completed(SAMPLE_ITEM, 0, 0);
    assert [item][..0] == [];
    assert Subtotal(item) == 10000;
  }

  /**
   * As written: a draft holding one full-price passenger at R$ 100,00
   * loses its only item, yet the panel still shows 1 passenger and
   * R$ 100,00.
   */
  method StaleSummaryAsWritten() returns (itemsLeft: nat, pax: int, total: int)
    ensures itemsLeft == 0 && pax == 1 && total == 10000
  {
    var page := new OrderDraftPage();
    var item := Completed(SAMPLE_ITEM, 0, 0);
    SampleItemTotals();
    page.LoadForEdit([SAMPLE_ITEM], "", 0);
    assert page.servicos == [item];
    assert page.shownPax == 1 && page.shownTotal == 10000;
    page.RemoveServiceAsWritten(7, true);
    assert page.servicos == [];
    itemsLeft, pax, total := |page.servicos|, page.shownPax, page.shownTotal;
  }

  /** Corrected: the same removal leaves the panel at 0 passengers and R$ 0,00. */
  method SummaryClearedWhenEmptied() returns (itemsLeft: nat, pax: int, total: int)
    ensures itemsLeft == 0 && pax == 0 && total == 0
  {
    var page := new OrderDraftPage();
    var item := Completed(SAMPLE_ITEM, 0, 0);
    SampleItemTotals();
    page.LoadForEdit([SAMPLE_ITEM], "", 0);
    assert page.servicos == [item];
    page.RemoveService(7, true);
    assert page.servicos == [];
    assert page.SummaryCurrent();
    assert TotalPax([]) == 0 && GrandTotal([]) == 0;
    itemsLeft, pax, total := |page.servicos|, page.shownPax, page.shownTotal;
  }
}
