/**
 * The service line-item form (`LancamentoServicoForm`): the cross-field
 * validation of `clean`, which reports the first failing rule, and
 * `save`, which fills a line item from the cleaned data and stores the
 * children's ages.
 *
 * Source: servicos/forms.py.
 */
module LaunchForm {
  import opened Common
  import opened ServiceModels

  /** The highest age the form accepts for a child. */
  const MAX_CHILD_AGE := 17

  /** A hidden JSON field holding a list of integers: empty, unparseable, or a list. */
  datatype JsonInts = Blank | Malformed | IntList(items: seq<int>)

  /** The chosen service together with the category it belongs to. */
  datatype ServiceChoice = ServiceChoice(service: Service, categoria: int)

  /** The fields `clean` reads; a missing value is `None`. */
  datatype LaunchInput = LaunchInput(
    categoria: Option<int>,
    subcategoria: Option<ServiceChoice>,
    qtdInteira: Option<nat>, qtdMeia: Option<nat>, qtdInfantil: Option<nat>,
    idadesJson: JsonInts, tiposMeiaJson: JsonInts)

  /** What `clean` leaves in `cleaned_data`; the ages and type ids only when there are children or half tickets. */
  datatype CleanedData = CleanedData(
    qtdInteira: nat, qtdMeia: nat, qtdInfantil: nat,
    idades: Option<seq<int>>, tiposMeiaIds: Option<seq<int>>)

  /** The validation errors of `clean`, one per rule. */
  datatype FormError =
    | NoQuantity
    | AgesMalformed
    | AgesCountMismatch(expected: nat)
    | AgeAboveMaximum(age: int)
    | AgeBelowMinimum(minimum: int, age: int)
    | MeiaNotAccepted
    | MeiaTypesMalformed
    | MeiaTypesCountMismatch(expected: nat)
    | WrongCategory

  /** `value or 0` */
  function OrZero(q: Option<nat>): (n: nat)
    ensures q.Some? ==> n == q.value
    ensures q.None? ==> n == 0
  {
    if q.None? then 0 else q.value
  }

  /** `json.loads(text) if text else []` */
  function LoadInts(j: JsonInts): (r: Option<seq<int>>)
    ensures r.None? <==> j.Malformed?
    ensures j.IntList? ==> r == Some(j.items)
    ensures j.Blank? ==> r == Some([])
  {
    match j
    case Blank => Some([])
    case Malformed => None
    case IntList(items) => Some(items)
  }

  /** The position of the first age above `limit`, if any. */
  function FirstAbove(ages: seq<int>, limit: int): (r: Option<nat>)
    ensures r.Some? ==> r.value < |ages| && ages[r.value] > limit
                        && forall j :: 0 <= j < r.value ==> ages[j] <= limit
    ensures r.None? ==> forall j :: 0 <= j < |ages| ==> ages[j] <= limit
  {
    if ages == [] then None
    else if ages[0] > limit then Some(0)
    else match FirstAbove(ages[1..], limit)
      case None => None
      case Some(k) => Some(k + 1)
  }

  /** The position of the first age below `minimum`, if any. */
  function FirstBelow(ages: seq<int>, minimum: int): (r: Option<nat>)
    ensures r.Some? ==> r.value < |ages| && ages[r.value] < minimum
                        && forall j :: 0 <= j < r.value ==> ages[j] >= minimum
    ensures r.None? ==> forall j :: 0 <= j < |ages| ==> ages[j] >= minimum
  {
    if ages == [] then None
    else if ages[0] < minimum then Some(0)
    else match FirstBelow(ages[1..], minimum)
      case None => None
      case Some(k) => Some(k + 1)
  }

  /** Whether the service sets a minimum age the form enforces. */
  predicate EnforcesMinimumAge(sub: Option<ServiceChoice>)
  {
    sub.Some? && sub.value.service.temIdadeMinima && sub.value.service.idadeMinima > 0
  }

  /** The checks on the children's ages, in the order the form makes them. */
  function CheckAges(json: JsonInts, qtdInfantil: nat, sub: Option<ServiceChoice>): (r: Result<seq<int>, FormError>)
    ensures r.Ok? ==> LoadInts(json) == Some(r.value) && |r.value| == qtdInfantil
    ensures r.Ok? ==> forall j :: 0 <= j < |r.value| ==> r.value[j] <= MAX_CHILD_AGE
    ensures r.Ok? && EnforcesMinimumAge(sub) ==>
              forall j :: 0 <= j < |r.value| ==> r.value[j] >= sub.value.service.idadeMinima
  {
    var loaded := LoadInts(json);
    if loaded.None? then Err(AgesMalformed)
    else
      var ages := loaded.value;
      if |ages| != qtdInfantil then Err(AgesCountMismatch(qtdInfantil))
      else match FirstAbove(ages, MAX_CHILD_AGE)
        case Some(i) => Err(AgeAboveMaximum(ages[i]))
        case None =>
          if !EnforcesMinimumAge(sub) then Ok(ages)
          else
            var minimum := sub.value.service.idadeMinima;
            match FirstBelow(ages, minimum)
            case Some(i) => Err(AgeBelowMinimum(minimum, ages[i]))
            case None => Ok(ages)
  }

  /** The checks on the half-price ticket types. */
  function CheckMeia(json: JsonInts, qtdMeia: nat, sub: Option<ServiceChoice>): (r: Result<seq<int>, FormError>)
    ensures r.Ok? ==> (sub.None? || sub.value.service.aceitaMeiaEntrada)
    ensures r.Ok? ==> LoadInts(json) == Some(r.value) && |r.value| == qtdMeia
  {
    if sub.Some? && !sub.value.service.aceitaMeiaEntrada then Err(MeiaNotAccepted)
    else
      var loaded := LoadInts(json);
      if loaded.None? then Err(MeiaTypesMalformed)
      else if |loaded.value| != qtdMeia then Err(MeiaTypesCountMismatch(qtdMeia))
      else Ok(loaded.value)
  }

  /** Whether the chosen service belongs to the chosen category (vacuous when either is missing). */
  predicate CategoryMatches(input: LaunchInput)
  {
    input.categoria.None? || input.subcategoria.None? || input.subcategoria.value.categoria == input.categoria.value
  }

  /**
   * `clean`: quantities default to 0 and at least one must be positive;
   * then the ages, the half-price types and the category are checked in
   * that order, and the first failure is the error.
   */
  function CleanSpec(input: LaunchInput): (r: Result<CleanedData, FormError>)
    ensures r.Ok? ==> r.value.qtdInteira == OrZero(input.qtdInteira)
                      && r.value.qtdMeia == OrZero(input.qtdMeia)
                      && r.value.qtdInfantil == OrZero(input.qtdInfantil)
    ensures r == Err(NoQuantity) <==>
              OrZero(input.qtdInteira) == 0 && OrZero(input.qtdMeia) == 0 && OrZero(input.qtdInfantil) == 0
  {
    var qi, qm, qc := OrZero(input.qtdInteira), OrZero(input.qtdMeia), OrZero(input.qtdInfantil);
    if qi == 0 && qm == 0 && qc == 0 then Err(NoQuantity)
    else
      var ages := if qc > 0 then CheckAges(input.idadesJson, qc, input.subcategoria) else Ok([]);
      if ages.Err? then Err(ages.error)
      else
        var types := if qm > 0 then CheckMeia(input.tiposMeiaJson, qm, input.subcategoria) else Ok([]);
        if types.Err? then Err(types.error)
        else if !CategoryMatches(input) then Err(WrongCategory)
        else Ok(CleanedData(qi, qm, qc,
                            if qc > 0 then Some(ages.value) else None,
                            if qm > 0 then Some(types.value) else None))
  }

  /** Every age is at most the child maximum, and at least the service minimum when it sets one. */
  predicate AgesAcceptable(ages: seq<int>, sub: Option<ServiceChoice>)
  {
    (forall j :: 0 <= j < |ages| ==> ages[j] <= MAX_CHILD_AGE)
    && (EnforcesMinimumAge(sub) ==> forall j :: 0 <= j < |ages| ==> ages[j] >= sub.value.service.idadeMinima)
  }

  /** The conditions the form is meant to enforce, stated directly. */
  predicate Acceptable(input: LaunchInput)
  {
    var qi, qm, qc := OrZero(input.qtdInteira), OrZero(input.qtdMeia), OrZero(input.qtdInfantil);
    qi + qm + qc > 0
    && (qc > 0 ==> var ages := LoadInts(input.idadesJson);
                   ages.Some? && |ages.value| == qc && AgesAcceptable(ages.value, input.subcategoria))
    && (qm > 0 ==> var types := LoadInts(input.tiposMeiaJson);
                   (input.subcategoria.None? || input.subcategoria.value.service.aceitaMeiaEntrada)
                   && types.Some? && |types.value| == qm)
    && CategoryMatches(input)
  }

  /** The form accepts exactly the inputs that meet every rule. */
  lemma CleanAcceptsExactly(input: LaunchInput)
    ensures CleanSpec(input).Ok? <==> Acceptable(input)
  {
  }

  /** An accepted line item always carries at least one passenger and one age per child. */
  lemma AcceptedHasPassengers(input: LaunchInput)
    requires CleanSpec(input).Ok?
    ensures var c := CleanSpec(input).value;
      c.qtdInteira + c.qtdMeia + c.qtdInfantil >= 1
      && (c.qtdInfantil > 0 ==> c.idades.Some? && |c.idades.value| == c.qtdInfantil)
      && (c.qtdMeia > 0 ==> c.tiposMeiaIds.Some? && |c.tiposMeiaIds.value| == c.qtdMeia)
  {
  }

  /**
   * The age checks come before the half-price checks: whenever the ages
   * are wrong, the error is about the ages, whatever the half-price data.
   */
  lemma AgeErrorsComeFirst(input: LaunchInput, otherTypes: JsonInts)
    requires OrZero(input.qtdInfantil) > 0
    requires CheckAges(input.idadesJson, OrZero(input.qtdInfantil), input.subcategoria).Err?
    ensures CleanSpec(input) == CleanSpec(input.(tiposMeiaJson := otherTypes))
    ensures CleanSpec(input).Err? && !CleanSpec(input).error.MeiaNotAccepted?
  {
  }

  /** `clean`, checking the ages and the half-price types with loops that stop at the first failure. */
  method Clean(input: LaunchInput) returns (r: Result<CleanedData, FormError>)
    ensures r == CleanSpec(input)
  {
    var qi, qm, qc := OrZero(input.qtdInteira), OrZero(input.qtdMeia), OrZero(input.qtdInfantil);
    if qi == 0 && qm == 0 && qc == 0 {
      return Err(NoQuantity);
    }
    var idades: Option<seq<int>> := None;
    if qc > 0 {
      var loaded := LoadInts(input.idadesJson);
      if loaded.None? {
        return Err(AgesMalformed);
      }
      var ages := loaded.value;
      if |ages| != qc {
        return Err(AgesCountMismatch(qc));
      }
      var i := 0;
      while i < |ages|
        invariant 0 <= i <= |ages|
        invariant forall j :: 0 <= j < i ==> ages[j] <= MAX_CHILD_AGE
      {
        if ages[i] > MAX_CHILD_AGE {
          assert FirstAbove(ages, MAX_CHILD_AGE) == Some(i);
          return Err(AgeAboveMaximum(ages[i]));
        }
        i := i + 1;
      }
      if EnforcesMinimumAge(input.subcategoria) {
        var minimum := input.subcategoria.value.service.idadeMinima;
        var k := 0;
        while k < |ages|
          invariant 0 <= k <= |ages|
          invariant forall j :: 0 <= j < k ==> ages[j] >= minimum
        {
          if ages[k] < minimum {
            assert FirstBelow(ages, minimum) == Some(k);
            return Err(AgeBelowMinimum(minimum, ages[k]));
          }
          k := k + 1;
        }
      }
      idades := Some(ages);
    }
    var tipos: Option<seq<int>> := None;
    if qm > 0 {
      if input.subcategoria.Some? && !input.subcategoria.value.service.aceitaMeiaEntrada {
        return Err(MeiaNotAccepted);
      }
      var loaded := LoadInts(input.tiposMeiaJson);
      if loaded.None? {
        return Err(MeiaTypesMalformed);
      }
      if |loaded.value| != qm {
        return Err(MeiaTypesCountMismatch(qm));
      }
      tipos := Some(loaded.value);
    }
    if input.categoria.Some? && input.subcategoria.Some? && input.subcategoria.value.categoria != input.categoria.value {
      return Err(WrongCategory);
    }
    r := Ok(CleanedData(qi, qm, qc, idades, tipos));
  }

  // ---------------------------------------------------------------------
  // save
  // ---------------------------------------------------------------------

  /** Python's `str(list)` for a list of integers: `[3, 5]`. */
  function PyListRepr(ages: seq<int>): (r: string)
    ensures |r| >= 2 && r[0] == '['
  {
    "[" + Join(AgeStrings(ages), ", ") + "]"
  }

  /**
   * The ages `save` assigns as written: the parsed JSON list itself, or []
   * when it does not parse. The text column then holds `str()` of it.
   */
  function SavedAgesAsWritten(json: JsonInts): (stored: string)
    ensures stored != [] && stored[0] == '['
  {
    PyListRepr(AssignedAges(json))
  }

  /** The list `save` assigns: the parsed JSON list, or [] when it does not parse. */
  function AssignedAges(json: JsonInts): (ages: seq<int>)
    ensures json.IntList? ==> ages == json.items
    ensures !json.IntList? ==> ages == []
  {
    var loaded := LoadInts(json);
    if loaded.None? then [] else loaded.value
  }

  /** The text the `idades_criancas` column receives when the row is written: `str()` of a list. */
  function ColumnText(f: AgesField): (text: string)
    ensures f.AgesText? ==> text == f.text
    ensures f.AgesList? ==> text != [] && text[0] == '['
  {
    match f
    case AgesText(t) => t
    case AgesList(items) => PyListRepr(items)
  }

  lemma {:induction false} TrimEndKeepsFirst(s: string)
    requires s != [] && !IsPyWhitespace(s[0])
    ensures TrimEnd(s) != [] && TrimEnd(s)[0] == s[0]
  {
    if IsPyWhitespace(s[|s| - 1]) {
      TrimEndKeepsFirst(s[..|s| - 1]);
    }
  }

  lemma SplitKeepsFirst(s: string, sep: char)
    requires s != [] && s[0] != sep
    ensures Split(s, sep)[0] != [] && Split(s, sep)[0][0] == s[0]
  {
  }

  lemma StripKeepsFirst(s: string)
    requires s != [] && !IsPyWhitespace(s[0])
    ensures Strip(s) != [] && Strip(s)[0] == s[0]
  {
    assert TrimStart(s) == s;
    TrimEndKeepsFirst(s);
  }

  lemma BracketIsNotAnInteger(piece: string)
    requires piece != [] && piece[0] == '['
    ensures PyParseInt(piece).None?
  {
    assert !IsDigit(piece[0]);
  }

  lemma FirstPieceSpoilsAll(pieces: seq<string>)
    requires pieces != [] && Strip(pieces[0]) != "" && PyParseInt(Strip(pieces[0])).None?
    ensures ParsePieces(pieces).None?
  {
  }

  /** A piece starting with '[' is not an integer, so the whole list reads as []. */
  lemma BracketedTextReadsEmpty(text: string)
    requires text != [] && text[0] == '['
    ensures GetIdadesLista(AgesText(text)) == []
  {
    var pieces := Split(text, ',');
    SplitKeepsFirst(text, ',');
    assert pieces[0][0] == '[';
    StripKeepsFirst(pieces[0]);
    BracketIsNotAnInteger(Strip(pieces[0]));
    FirstPieceSpoilsAll(pieces);
  }

  /**
   * As written, the ages of a form-saved line item do not survive the
   * database: the stored `str(list)` reads back as no ages at all, so
   * `[3, 5]` comes back as [].
   */
  lemma FormSavedAgesAreLost(ages: seq<int>)
    ensures GetIdadesLista(AgesText(SavedAgesAsWritten(IntList(ages)))) == []
  {
    BracketedTextReadsEmpty(SavedAgesAsWritten(IntList(ages)));
  }

  /** The ages `save` stores, in the comma-separated form the model reads back. */
  function SavedAges(json: JsonInts): (stored: AgesField)
    ensures json.IntList? ==> GetIdadesLista(stored) == json.items
    ensures !json.IntList? ==> GetIdadesLista(stored) == []
    ensures stored.AgesText?
  {
    var ages := AssignedAges(json);
    AgesRoundTrip(ages);
    AgesText(EncodeAges(ages))
  }

  /**
   * `save` as written: the model fields come from the cleaned data and the
   * parsed JSON list is assigned to `idades_criancas` as a list; with
   * `commit` the line item is saved, which snapshots the unit prices on
   * the first save. In memory the ages read back as the list, but the
   * column receives its `str()`, which reads back as no ages at all.
   */
  method Save(cleaned: CleanedData, sub: Option<Service>, idadesJson: JsonInts, commit: bool, item: LancamentoServico)
    modifies item
    ensures item.subcategoria == sub
    ensures item.qtdInteira == cleaned.qtdInteira && item.qtdMeia == cleaned.qtdMeia
            && item.qtdInfantil == cleaned.qtdInfantil
    ensures item.idadesCriancas == AgesList(AssignedAges(idadesJson))
    ensures item.saved == (old(item.saved) || commit)
    ensures commit && !old(item.saved) && sub.Some? ==>
              item.valorUnitInteira == sub.value.valorInteira && item.valorUnitMeia == sub.value.valorMeia
              && item.valorUnitInfantil == sub.value.valorInfantil
    ensures commit && (old(item.saved) || sub.None?) ==>
              item.valorUnitInteira == old(item.valorUnitInteira) && item.valorUnitMeia == old(item.valorUnitMeia)
              && item.valorUnitInfantil == old(item.valorUnitInfantil)
    ensures !commit ==> item.valorUnitInteira == old(item.valorUnitInteira)
                        && item.valorUnitMeia == old(item.valorUnitMeia)
                        && item.valorUnitInfantil == old(item.valorUnitInfantil)
  {
    item.subcategoria := sub;
    item.qtdInteira := cleaned.qtdInteira;
    item.qtdMeia := cleaned.qtdMeia;
    item.qtdInfantil := cleaned.qtdInfantil;
    item.idadesCriancas := AgesList(AssignedAges(idadesJson));
    if commit {
      item.Save();
    }
  }

  /** The column written for the assigned list holds its `str()`, which reads back as no ages. */
  lemma AssignedListReadsEmpty(json: JsonInts)
    ensures ColumnText(AgesList(AssignedAges(json))) == SavedAgesAsWritten(json)
    ensures GetIdadesLista(AgesText(SavedAgesAsWritten(json))) == []
  {
    BracketedTextReadsEmpty(SavedAgesAsWritten(json));
  }

  /**
   * `save` corrected: the ages are stored in the comma-separated form, so
   * the column reads back as the parsed list.
   */
  method SaveCorrected(cleaned: CleanedData, sub: Option<Service>, idadesJson: JsonInts, commit: bool, item: LancamentoServico)
    modifies item
    ensures item.subcategoria == sub
    ensures item.qtdInteira == cleaned.qtdInteira && item.qtdMeia == cleaned.qtdMeia
            && item.qtdInfantil == cleaned.qtdInfantil
    ensures item.idadesCriancas == SavedAges(idadesJson)
    ensures GetIdadesLista(AgesText(ColumnText(item.idadesCriancas))) == AssignedAges(idadesJson)
    ensures item.saved == (old(item.saved) || commit)
    ensures commit && !old(item.saved) && sub.Some? ==>
              item.valorUnitInteira == sub.value.valorInteira && item.valorUnitMeia == sub.value.valorMeia
              && item.valorUnitInfantil == sub.value.valorInfantil
    ensures commit && (old(item.saved) || sub.None?) ==>
              item.valorUnitInteira == old(item.valorUnitInteira) && item.valorUnitMeia == old(item.valorUnitMeia)
              && item.valorUnitInfantil == old(item.valorUnitInfantil)
    ensures !commit ==> item.valorUnitInteira == old(item.valorUnitInteira)
                        && item.valorUnitMeia == old(item.valorUnitMeia)
                        && item.valorUnitInfantil == old(item.valorUnitInfantil)
  {
    item.subcategoria := sub;
    item.qtdInteira := cleaned.qtdInteira;
    item.qtdMeia := cleaned.qtdMeia;
    item.qtdInfantil := cleaned.qtdInfantil;
    item.idadesCriancas := SavedAges(idadesJson);
    if commit {
      item.Save();
    }
  }

  /** An accepted form saved as a line item reads back exactly the ages it validated. */
  lemma AcceptedAgesReadBack(input: LaunchInput)
    requires CleanSpec(input).Ok? && CleanSpec(input).value.idades.Some?
    ensures GetIdadesLista(SavedAges(input.idadesJson)) == CleanSpec(input).value.idades.value
  {
    var qc := OrZero(input.qtdInfantil);
    var checked := CheckAges(input.idadesJson, qc, input.subcategoria);
    assert qc > 0 && checked.Ok? && CleanSpec(input).value.idades.value == checked.value;
    assert input.idadesJson.IntList? && input.idadesJson.items == checked.value;
  }
}
