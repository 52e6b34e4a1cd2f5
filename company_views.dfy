/**
 * The pure parts of the settings views: who counts as a settings
 * administrator, the CEP normalisation done before a ViaCEP lookup, the
 * translation of Django date and time formats into `strftime` formats,
 * and the change record written when the SMTP settings are saved, with
 * passwords masked.
 *
 * Source: company_settings/views.py.
 */
module CompanyViews {
  import opened Common
  import opened Permissions
  import SettingsUtils
  import CompanyForms

  // ---------------------------------------------------------------------
  // Access
  // ---------------------------------------------------------------------

  /** `is_admin_user`: authenticated and either superuser or staff. */
  function IsAdminUser(u: User): (r: bool)
    ensures r ==> u.authenticated
  {
    u.authenticated && (u.superuser || u.staff)
  }

  /**
   * Everyone admitted to the Django admin is a settings administrator, and
   * so is every authenticated superuser, who is at least an administrator
   * in the role hierarchy.
   */
  lemma AdminPanelUsersAreSettingsAdmins(u: User)
    ensures CanAccessAdminPanel(u) ==> IsAdminUser(u)
    ensures u.authenticated && u.superuser ==>
      IsAdminUser(u) && Rank(GetUserLevel(u)) >= Rank(Administrador)
  {
  }

  /** Staff status alone opens the settings pages but not the user administration. */
  lemma StaffAloneIsNotAManager()
    ensures var u := User(Some(2), true, false, true, []);
      IsAdminUser(u) && !CanAccessUserManagement(u)
  {
  }

  // ---------------------------------------------------------------------
  // CEP normalisation in validate_cep
  // ---------------------------------------------------------------------

  /** `.replace('-', '').replace('.', '').replace(' ', '')` */
  function CepSeparatorsRemoved(cep: string): string
  {
    Replace(Replace(Replace(cep, '-', ""), '.', ""), ' ', "")
  }

  /** The characters a CEP may contain for the lookup: digits and the three separators. */
  predicate OnlyCepChars(s: string)
  {
    forall i :: 0 <= i < |s| ==> IsDigit(s[i]) || s[i] == '-' || s[i] == '.' || s[i] == ' '
  }

  /** What the three removals leave of one character. */
  function CepKeep(ch: char): string
  {
    if ch == '-' || ch == '.' || ch == ' ' then "" else [ch]
  }

  lemma CepRemovalStep(s: string)
    requires s != []
    ensures CepSeparatorsRemoved(s) == CepKeep(s[0]) + CepSeparatorsRemoved(s[1..])
  {
    var h, t := [s[0]], s[1..];
    assert s == h + t;
    var h1, t1 := Replace(h, '-', ""), Replace(t, '-', "");
    var h2, t2 := Replace(h1, '.', ""), Replace(t1, '.', "");
    ReplaceAppend(h, t, '-', "");
    ReplaceAppend(h1, t1, '.', "");
    ReplaceAppend(h2, t2, ' ', "");
  }

  lemma {:induction false} SeparatorsRemoved(s: string)
    ensures AllDigits(CepSeparatorsRemoved(s)) <==> OnlyCepChars(s)
    ensures OnlyCepChars(s) ==> CepSeparatorsRemoved(s) == DigitsOnly(s)
  {
    if s != [] {
      var t := s[1..];
      CepRemovalStep(s);
      SeparatorsRemoved(t);
      var r, rt := CepSeparatorsRemoved(s), CepSeparatorsRemoved(t);
      var k := CepKeep(s[0]);
      assert r == k + rt;
      if OnlyCepChars(s) {
        assert OnlyCepChars(t) by {
          forall i | 0 <= i < |t| ensures IsDigit(t[i]) || t[i] == '-' || t[i] == '.' || t[i] == ' ' {
            assert t[i] == s[i + 1];
          }
        }
      }
      if AllDigits(r) {
        assert AllDigits(rt) by {
          forall i | 0 <= i < |rt| ensures IsDigit(rt[i]) {
            assert rt[i] == r[|k| + i];
          }
        }
        assert k != [] ==> IsDigit(r[0]);
        assert OnlyCepChars(s) by {
          forall i | 0 <= i < |s| ensures IsDigit(s[i]) || s[i] == '-' || s[i] == '.' || s[i] == ' ' {
            if i > 0 { assert s[i] == t[i - 1]; }
          }
        }
      }
    }
  }

  /**
   * The CEP check of `validate_cep`: after dropping '-', '.' and ' ', the
   * value must be exactly eight digit characters; otherwise it is an error
   * and no lookup happens.
   */
  function NormalizeCep(cep: string): (r: Result<string, string>)
    ensures r.Ok? <==> OnlyCepChars(cep) && |DigitsOnly(cep)| == 8
    ensures r.Ok? ==> r.value == DigitsOnly(cep)
  {
    var cleaned := CepSeparatorsRemoved(cep);
    SeparatorsRemoved(cep);
    if |cleaned| != 8 || !AllDigits(cleaned) then Err("CEP deve ter 8 dígitos numéricos")
    else Ok(cleaned)
  }

  /** A CEP the lookup accepts also passes the settings form and the client check. */
  lemma NormalizedCepPassesForm(cep: string)
    ensures NormalizeCep(cep).Ok? ==> CompanyForms.CleanZipCode(cep).Ok? && SettingsUtils.ValidateCEP(cep)
  {
  }

  /** The converse fails: the form and the client check ignore any other character. */
  lemma FormAcceptsWhatLookupRejects()
    ensures CompanyForms.CleanZipCode("01310100a").Ok? && NormalizeCep("01310100a").Err?
  {
    assert "01310100a" == "01310100" + ['a'];
    TrailingLetterSplits("01310100", 'a');
  }

  /** Eight digits followed by a letter: the form counts the digits, the lookup sees the letter. */
  lemma TrailingLetterSplits(digits: string, x: char)
    requires |digits| == 8 && AllDigits(digits) && !IsDigit(x) && x != '-' && x != '.' && x != ' '
    ensures CompanyForms.CleanZipCode(digits + [x]).Ok? && NormalizeCep(digits + [x]).Err?
  {
    var odd := digits + [x];
    DigitsOnlyAppend(digits, [x]);
    DigitsOnlyOfDigits(digits);
    assert DigitsOnly([x]) == [];
    assert DigitsOnly(odd) == digits;
    assert !OnlyCepChars(odd) by { assert odd[8] == x; }
  }

  // ---------------------------------------------------------------------
  // Date and time format translation in get_current_datetime
  // ---------------------------------------------------------------------

  /** `date_format.replace('d', '%d').replace('m', '%m').replace('Y', '%Y')` */
  function TranslateDateFormat(f: string): string
  {
    Replace(Replace(Replace(f, 'd', "%d"), 'm', "%m"), 'Y', "%Y")
  }

  /** `time_format.replace('H', '%H').replace('i', '%M').replace('g', '%I').replace('A', '%p')` */
  function TranslateTimeFormat(f: string): string
  {
    Replace(Replace(Replace(Replace(f, 'H', "%H"), 'i', "%M"), 'g', "%I"), 'A', "%p")
  }

  /** Every '%' is followed by one of `letters`: a well-formed `strftime` pattern over them. */
  predicate DirectivesIn(s: string, letters: set<char>)
  {
    forall i :: 0 <= i < |s| && s[i] == '%' ==> i + 1 < |s| && s[i + 1] in letters
  }

  lemma {:induction false} ReplaceKeepsDirectives(s: string, c: char, x: char, letters: set<char>)
    requires DirectivesIn(s, letters) && c != '%' && c !in letters && x != '%'
    ensures DirectivesIn(Replace(s, c, ['%', x]), letters + {x})
  {
    if s != [] {
      var t := s[1..];
      assert DirectivesIn(t, letters) by {
        forall i | 0 <= i < |t| && t[i] == '%' ensures i + 1 < |t| && t[i + 1] in letters {
          assert t[i] == s[i + 1];
        }
      }
      ReplaceKeepsDirectives(t, c, x, letters);
      var rest := Replace(t, c, ['%', x]);
      var r := Replace(s, c, ['%', x]);
      if s[0] == c {
        assert r == ['%', x] + rest;
        forall i | 0 <= i < |r| && r[i] == '%' ensures i + 1 < |r| && r[i + 1] in letters + {x} {
          if i >= 2 { assert r[i] == rest[i - 2] && r[i + 1] == rest[i - 1]; }
        }
      } else {
        assert r == [s[0]] + rest;
        if s[0] == '%' {
          assert s[1] in letters;
          assert rest[0] == s[1];
        }
        forall i | 0 <= i < |r| && r[i] == '%' ensures i + 1 < |r| && r[i + 1] in letters + {x} {
          if i >= 1 { assert r[i] == rest[i - 1] && r[i + 1] == rest[i]; }
        }
      }
    }
  }

  /** Translating a Django date format without '%' yields only `%d`, `%m` and `%Y` directives. */
  lemma DateFormatDirectives(f: string)
    requires '%' !in f
    ensures DirectivesIn(TranslateDateFormat(f), {'d', 'm', 'Y'})
  {
    ReplaceKeepsDirectives(f, 'd', 'd', {});
    var a := Replace(f, 'd', "%d");
    assert {} + {'d'} == {'d'};
    ReplaceKeepsDirectives(a, 'm', 'm', {'d'});
    assert {'d'} + {'m'} == {'d', 'm'};
    ReplaceKeepsDirectives(Replace(a, 'm', "%m"), 'Y', 'Y', {'d', 'm'});
  }

  /** Translating a Django time format without '%' yields only `%H`, `%M`, `%I` and `%p` directives. */
  lemma TimeFormatDirectives(f: string)
    requires '%' !in f
    ensures DirectivesIn(TranslateTimeFormat(f), {'H', 'M', 'I', 'p'})
  {
    ReplaceKeepsDirectives(f, 'H', 'H', {});
    var a := Replace(f, 'H', "%H");
    assert {} + {'H'} == {'H'};
    ReplaceKeepsDirectives(a, 'i', 'M', {'H'});
    var b := Replace(a, 'i', "%M");
    assert {'H'} + {'M'} == {'H', 'M'};
    ReplaceKeepsDirectives(b, 'g', 'I', {'H', 'M'});
    assert {'H', 'M'} + {'I'} == {'H', 'M', 'I'};
    ReplaceKeepsDirectives(Replace(b, 'g', "%I"), 'A', 'p', {'H', 'M', 'I'});
  }

  /** Marking a letter with '%' and then deleting every '%' is the same as deleting every '%'. */
  lemma {:induction false} MarkThenUnmark(s: string, c: char)
    requires c != '%'
    ensures Replace(Replace(s, c, ['%', c]), '%', "") == Replace(s, '%', "")
  {
    if s != [] {
      var h, t := [s[0]], s[1..];
      assert s == h + t;
      ReplaceAppend(h, t, c, ['%', c]);
      ReplaceAppend(Replace(h, c, ['%', c]), Replace(t, c, ['%', c]), '%', "");
      ReplaceAppend(h, t, '%', "");
      MarkThenUnmark(t, c);
      if s[0] == c {
        assert Replace(['%', c], '%', "") == [c] by {
          assert ['%', c] == ['%'] + [c];
          ReplaceAppend(['%'], [c], '%', "");
        }
      }
    }
  }

  /** Deleting the '%' signs from a translated date format gives the Django format back. */
  lemma DateFormatRoundTrip(f: string)
    requires '%' !in f
    ensures Replace(TranslateDateFormat(f), '%', "") == f
  {
    var a := Replace(f, 'd', "%d");
    var b := Replace(a, 'm', "%m");
    MarkThenUnmark(b, 'Y');
    MarkThenUnmark(a, 'm');
    MarkThenUnmark(f, 'd');
  }

  /** What one character of a Django date format becomes. */
  function DateDirective(ch: char): string
  {
    if ch == 'd' then "%d" else if ch == 'm' then "%m" else if ch == 'Y' then "%Y" else [ch]
  }

  /** What one character of a Django time format becomes. */
  function TimeDirective(ch: char): string
  {
    if ch == 'H' then "%H" else if ch == 'i' then "%M" else if ch == 'g' then "%I" else if ch == 'A' then "%p" else [ch]
  }

  /** The translation as a character-by-character substitution. */
  function TranslateByChar(f: string, date: bool): string
  {
    if f == [] then "" else Directive(f[0], date) + TranslateByChar(f[1..], date)
  }

  function Directive(ch: char, date: bool): string
  {
    if date then DateDirective(ch) else TimeDirective(ch)
  }

  lemma ReplaceSingle(c: char, x: char, rep: string)
    ensures Replace([c], x, rep) == if c == x then rep else [c]
  {
    assert [c][1..] == [];
  }

  /** A single character of a date format translates to its directive. */
  lemma DateHead(c: char)
    ensures TranslateDateFormat([c]) == DateDirective(c)
  {
    ReplaceSingle(c, 'd', "%d");
    if c != 'd' {
      ReplaceSingle(c, 'm', "%m");
      if c != 'm' {
        ReplaceSingle(c, 'Y', "%Y");
      }
    }
  }

  /** A single character of a time format translates to its directive. */
  lemma TimeHead(c: char)
    ensures TranslateTimeFormat([c]) == TimeDirective(c)
  {
    ReplaceSingle(c, 'H', "%H");
    if c != 'H' {
      ReplaceSingle(c, 'i', "%M");
      if c != 'i' {
        ReplaceSingle(c, 'g', "%I");
        if c != 'g' {
          ReplaceSingle(c, 'A', "%p");
        }
      }
    }
  }

  /**
   * The chain of `replace` calls is a simultaneous substitution: no
   * replacement text contains a letter replaced later in the chain.
   */
  lemma {:induction false} DateTranslationPerChar(f: string)
    ensures TranslateDateFormat(f) == TranslateByChar(f, true)
  {
    if f != [] {
      var h, t := [f[0]], f[1..];
      assert f == h + t;
      var h1, t1 := Replace(h, 'd', "%d"), Replace(t, 'd', "%d");
      var h2, t2 := Replace(h1, 'm', "%m"), Replace(t1, 'm', "%m");
      ReplaceAppend(h, t, 'd', "%d");
      ReplaceAppend(h1, t1, 'm', "%m");
      ReplaceAppend(h2, t2, 'Y', "%Y");
      assert TranslateDateFormat(f) == TranslateDateFormat(h) + TranslateDateFormat(t);
      DateHead(f[0]);
      DateTranslationPerChar(t);
    }
  }

  lemma {:induction false} TimeTranslationPerChar(f: string)
    ensures TranslateTimeFormat(f) == TranslateByChar(f, false)
  {
    if f != [] {
      var h, t := [f[0]], f[1..];
      assert f == h + t;
      var h1, t1 := Replace(h, 'H', "%H"), Replace(t, 'H', "%H");
      var h2, t2 := Replace(h1, 'i', "%M"), Replace(t1, 'i', "%M");
      var h3, t3 := Replace(h2, 'g', "%I"), Replace(t2, 'g', "%I");
      ReplaceAppend(h, t, 'H', "%H");
      ReplaceAppend(h1, t1, 'i', "%M");
      ReplaceAppend(h2, t2, 'g', "%I");
      ReplaceAppend(h3, t3, 'A', "%p");
      assert TranslateTimeFormat(f) == TranslateTimeFormat(h) + TranslateTimeFormat(t);
      TimeHead(f[0]);
      TimeTranslationPerChar(t);
    }
  }

  lemma TranslateByCharCons(c: char, rest: string, date: bool)
    ensures TranslateByChar([c] + rest, date) == Directive(c, date) + TranslateByChar(rest, date)
  {
    assert ([c] + rest)[0] == c && ([c] + rest)[1..] == rest;
  }

  /** A five-character format translates character by character. */
  lemma ByCharFive(f: string, date: bool)
    requires |f| == 5
    ensures TranslateByChar(f, date)
            == Directive(f[0], date) + Directive(f[1], date) + Directive(f[2], date)
               + Directive(f[3], date) + Directive(f[4], date)
  {
    TranslateByCharCons(f[4], [], date);
    assert [f[4]] + [] == f[4..];
    TranslateByCharCons(f[3], f[4..], date);
    assert [f[3]] + f[4..] == f[3..];
    TranslateByCharCons(f[2], f[3..], date);
    assert [f[2]] + f[3..] == f[2..];
    TranslateByCharCons(f[1], f[2..], date);
    assert [f[1]] + f[2..] == f[1..];
    TranslateByCharCons(f[0], f[1..], date);
    assert [f[0]] + f[1..] == f;
  }

  /** A three-character format translates character by character. */
  lemma ByCharThree(f: string, date: bool)
    requires |f| == 3
    ensures TranslateByChar(f, date) == Directive(f[0], date) + Directive(f[1], date) + Directive(f[2], date)
  {
    TranslateByCharCons(f[2], [], date);
    assert [f[2]] + [] == f[2..];
    TranslateByCharCons(f[1], f[2..], date);
    assert [f[1]] + f[2..] == f[1..];
    TranslateByCharCons(f[0], f[1..], date);
    assert [f[0]] + f[1..] == f;
  }

  lemma KnownFormatsByChar()
    ensures TranslateByChar("d/m/Y", true) == "%d/%m/%Y"
    ensures TranslateByChar("m/d/Y", true) == "%m/%d/%Y"
    ensures TranslateByChar("Y-m-d", true) == "%Y-%m-%d"
    ensures TranslateByChar("d-m-Y", true) == "%d-%m-%Y"
    ensures TranslateByChar("H:i", false) == "%H:%M"
    ensures TranslateByChar("g:i A", false) == "%I:%M %p"
  {
    DmySlashByChar();
    MdySlashByChar();
    YmdDashByChar();
    DmyDashByChar();
    HourMinuteByChar();
    TwelveHourByChar();
  }

  lemma DmySlashByChar()
    ensures TranslateByChar("d/m/Y", true) == "%d/%m/%Y"
  {
    var f := "d/m/Y";
    ByCharFive(f, true);
    assert f[0] == 'd' && f[1] == '/' && f[2] == 'm' && f[3] == '/' && f[4] == 'Y';
    assert Directive('d', true) == "%d";
    assert Directive('/', true) == "/";
    assert Directive('m', true) == "%m";
    assert Directive('Y', true) == "%Y";
  }

  lemma MdySlashByChar()
    ensures TranslateByChar("m/d/Y", true) == "%m/%d/%Y"
  {
    var f := "m/d/Y";
    ByCharFive(f, true);
    assert f[0] == 'm' && f[1] == '/' && f[2] == 'd' && f[3] == '/' && f[4] == 'Y';
    assert Directive('d', true) == "%d";
    assert Directive('/', true) == "/";
    assert Directive('m', true) == "%m";
    assert Directive('Y', true) == "%Y";
  }

  lemma YmdDashByChar()
    ensures TranslateByChar("Y-m-d", true) == "%Y-%m-%d"
  {
    var f := "Y-m-d";
    ByCharFive(f, true);
    assert f[0] == 'Y' && f[1] == '-' && f[2] == 'm' && f[3] == '-' && f[4] == 'd';
    assert Directive('d', true) == "%d";
    assert Directive('-', true) == "-";
    assert Directive('m', true) == "%m";
    assert Directive('Y', true) == "%Y";
  }

  lemma DmyDashByChar()
    ensures TranslateByChar("d-m-Y", true) == "%d-%m-%Y"
  {
    var f := "d-m-Y";
    ByCharFive(f, true);
    assert f[0] == 'd' && f[1] == '-' && f[2] == 'm' && f[3] == '-' && f[4] == 'Y';
    assert Directive('d', true) == "%d";
    assert Directive('-', true) == "-";
    assert Directive('m', true) == "%m";
    assert Directive('Y', true) == "%Y";
  }

  lemma TwelveHourByChar()
    ensures TranslateByChar("g:i A", false) == "%I:%M %p"
  {
    var f := "g:i A";
    ByCharFive(f, false);
    assert f[0] == 'g' && f[1] == ':' && f[2] == 'i' && f[3] == ' ' && f[4] == 'A';
    assert Directive('g', false) == "%I";
    assert Directive(':', false) == ":";
    assert Directive('i', false) == "%M";
    assert Directive(' ', false) == " ";
    assert Directive('A', false) == "%p";
  }

  lemma HourMinuteByChar()
    ensures TranslateByChar("H:i", false) == "%H:%M"
  {
    var f := "H:i";
    ByCharThree(f, false);
    assert f[0] == 'H' && f[1] == ':' && f[2] == 'i';
    assert Directive('H', false) == "%H";
    assert Directive(':', false) == ":";
    assert Directive('i', false) == "%M";
  }

  /** The formats offered by the system settings translate as expected. */
  lemma KnownFormatTranslations()
    ensures TranslateDateFormat("d/m/Y") == "%d/%m/%Y"
    ensures TranslateDateFormat("m/d/Y") == "%m/%d/%Y"
    ensures TranslateDateFormat("Y-m-d") == "%Y-%m-%d"
    ensures TranslateDateFormat("d-m-Y") == "%d-%m-%Y"
    ensures TranslateTimeFormat("H:i") == "%H:%M"
    ensures TranslateTimeFormat("g:i A") == "%I:%M %p"
  {
    KnownFormatsByChar();
    DateTranslationPerChar("d/m/Y");
    DateTranslationPerChar("m/d/Y");
    DateTranslationPerChar("Y-m-d");
    DateTranslationPerChar("d-m-Y");
    TimeTranslationPerChar("H:i");
    TimeTranslationPerChar("g:i A");
  }

  // ---------------------------------------------------------------------
  // SMTP change record in smtp_settings_view
  // ---------------------------------------------------------------------

  /** What the change record shows instead of a password. */
  const HIDDEN := "***HIDDEN***"

  /** One entry of `changes_data`: the old and new values as text, or None. */
  datatype ChangeEntry = ChangeEntry(before: Option<string>, after: Option<string>)

  /** `'password' in field.lower()` */
  predicate IsSecretField(field: string)
  {
    Contains(Lower(field), "password")
  }

  function Masked(v: PyValue): (r: Option<string>)
    ensures r == None || r == Some(HIDDEN)
  {
    if IsTruthy(v) then Some(HIDDEN) else None
  }

  /** The entry recorded for one changed field. */
  function ChangeEntryFor(field: string, before: PyValue, after: PyValue): (e: ChangeEntry)
    ensures IsSecretField(field) ==> e.before in {None, Some(HIDDEN)} && e.after in {None, Some(HIDDEN)}
    ensures !IsSecretField(field) ==> e.before == StrOrNone(before) && e.after == StrOrNone(after)
  {
    if IsSecretField(field) then ChangeEntry(Masked(before), Masked(after))
    else ChangeEntry(StrOrNone(before), StrOrNone(after))
  }

  /** `d.get(k)`: the stored value or None. */
  function Lookup(m: map<string, PyValue>, k: string): PyValue
  {
    if k in m then m[k] else PyNone
  }

  /**
   * The loop over `form.changed_data`: one entry per changed field, in
   * order, with the value before from the captured `original_data` and the
   * value after from `cleaned_data`.
   */
  method SmtpChanges(changed: seq<string>, original: map<string, PyValue>, cleaned: map<string, PyValue>)
    returns (changes: seq<(string, ChangeEntry)>)
    ensures |changes| == |changed|
    ensures forall i :: 0 <= i < |changed| ==>
      changes[i] == (changed[i], ChangeEntryFor(changed[i], Lookup(original, changed[i]), Lookup(cleaned, changed[i])))
  {
    changes := [];
    var i := 0;
    while i < |changed|
      invariant 0 <= i <= |changed| && |changes| == i
      invariant forall k :: 0 <= k < i ==>
        changes[k] == (changed[k], ChangeEntryFor(changed[k], Lookup(original, changed[k]), Lookup(cleaned, changed[k])))
    {
      var field := changed[i];
      changes := changes + [(field, ChangeEntryFor(field, Lookup(original, field), Lookup(cleaned, field)))];
      i := i + 1;
    }
  }

  /** No password value ever reaches the change record, whatever its case. */
  lemma NoSecretIsRecorded(field: string, before: PyValue, after: PyValue, secret: string)
    requires IsSecretField(field) && secret != HIDDEN
    ensures ChangeEntryFor(field, before, after).before != Some(secret)
    ensures ChangeEntryFor(field, before, after).after != Some(secret)
  {
  }
}
