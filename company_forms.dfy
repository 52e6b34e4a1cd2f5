/**
 * Server-side validation of the company settings forms: the CNPJ / CPF
 * field of the company form with its modulo-11 check digits, the CEP
 * field, and the SMTP form (host, port, password confirmation and the
 * way a blank password keeps the stored one).
 *
 * Source: company_settings/forms.py.
 */
module CompanyForms {
  import opened Common
  import opened SettingsUtils

  // ---------------------------------------------------------------------
  // CNPJ / CPF
  // ---------------------------------------------------------------------

  /** The one formatted CNPJ accepted without any check. */
  const KNOWN_COMPANY_CNPJ := "77.766.483/0001-64"

  /**
   * The weights the form applies for the second CNPJ check digit. They
   * are twelve, so `zip` against the thirteen characters of
   * `digits[:12] + str(first_digit)` never reaches the first check digit.
   */
  const FORM_CNPJ_WEIGHTS_2: seq<nat> := [6, 7, 8, 9, 2, 3, 4, 5, 6, 7, 8, 9]

  /** The reasons `clean_cnpj_cpf` raises a `ValidationError`. */
  datatype TaxIdError =
    | CnpjAllEqual
    | CnpjCheckDigits(expected: string, provided: string)
    | CpfAllEqual
    | CpfCheckDigits(expected: string, provided: string)
    | WrongLength

  /** `digits == digits[0] * n` for a non-empty digit string. */
  predicate SameAsFirst(d: string)
    requires |d| >= 1
  {
    forall i :: 0 <= i < |d| ==> d[i] == d[0]
  }

  /** `calculate_digit(partial, weights)`: the check digit over the zipped pairs. */
  function PartialCheckDigit(partial: string, weights: seq<nat>): (d: nat)
    requires AllDigits(partial)
    ensures d < 10
  {
    CheckDigit(WeightedSum(Digits(partial), weights))
  }

  /** The two check digits the CNPJ branch expects, given the weights for the second one. */
  function CnpjExpected(d: string, secondWeights: seq<nat>): (r: string)
    requires |d| == 14 && AllDigits(d)
    ensures |r| == 2 && AllDigits(r)
  {
    var first := PartialCheckDigit(d[..12], CNPJ_WEIGHTS_1);
    var second := PartialCheckDigit(d[..12] + [DigitChar(first)], secondWeights);
    [DigitChar(first), DigitChar(second)]
  }

  /** The two check digits the CPF branch expects. */
  function CpfExpected(d: string): (r: string)
    requires |d| == 11 && AllDigits(d)
    ensures |r| == 2 && AllDigits(r)
  {
    var first := PartialCheckDigit(d[..9], CPF_WEIGHTS_1);
    var second := PartialCheckDigit(d[..9] + [DigitChar(first)], CPF_WEIGHTS_2);
    [DigitChar(first), DigitChar(second)]
  }

  /**
   * `clean_cnpj_cpf` with the weight table of the second CNPJ check digit
   * as a parameter: the value comes back unchanged when it passes.
   */
  function CleanCnpjCpfWith(value: string, secondWeights: seq<nat>): (r: Result<string, TaxIdError>)
    ensures r.Ok? ==> r.value == value
    ensures r == Err(WrongLength) <==>
      value != "" && value != KNOWN_COMPANY_CNPJ && |DigitsOnly(value)| != 14 && |DigitsOnly(value)| != 11
  {
    if value == "" || value == KNOWN_COMPANY_CNPJ then Ok(value)
    else
      var d := DigitsOnly(value);
      if |d| == 14 then
        if SameAsFirst(d) then Err(CnpjAllEqual)
        else
          var expected := CnpjExpected(d, secondWeights);
          if d[12..14] != expected then Err(CnpjCheckDigits(expected, d[12..14])) else Ok(value)
      else if |d| == 11 then
        if SameAsFirst(d) then Err(CpfAllEqual)
        else
          var expected := CpfExpected(d);
          if d[9..11] != expected then Err(CpfCheckDigits(expected, d[9..11])) else Ok(value)
      else Err(WrongLength)
  }

  /** `clean_cnpj_cpf` as the form computes it. */
  function CleanCnpjCpfAsWritten(value: string): (r: Result<string, TaxIdError>)
    ensures r.Ok? ==> r.value == value
  {
    CleanCnpjCpfWith(value, FORM_CNPJ_WEIGHTS_2)
  }

  /**
   * `clean_cnpj_cpf` with the Receita Federal weights for the second CNPJ
   * digit: it accepts exactly the empty value, the whitelisted CNPJ and
   * the values whose digits the client-side validators accept.
   */
  function CleanCnpjCpf(value: string): (r: Result<string, TaxIdError>)
    ensures r.Ok? ==> r.value == value
    ensures r.Ok? <==>
      value == "" || value == KNOWN_COMPANY_CNPJ || CnpjValid(DigitsOnly(value)) || CpfValid(DigitsOnly(value))
  {
    BranchesAgree(DigitsOnly(value));
    CleanCnpjCpfWith(value, CNPJ_WEIGHTS_2)
  }

  /** Both branches of the corrected form agree with the client-side rules. */
  lemma BranchesAgree(d: string)
    requires AllDigits(d)
    ensures |d| == 14 ==> ((!SameAsFirst(d) && d[12..14] == CnpjExpected(d, CNPJ_WEIGHTS_2)) <==> CnpjValid(d))
    ensures |d| == 11 ==> ((!SameAsFirst(d) && d[9..11] == CpfExpected(d)) <==> CpfValid(d))
  {
    if |d| == 14 { CnpjBranchAgrees(d); }
    if |d| == 11 { CpfBranchAgrees(d); }
  }

  lemma SameAsFirstIsRepeated(d: string)
    requires |d| >= 2 && AllDigits(d)
    ensures SameAsFirst(d) <==> RepeatedDigit(d)
  {
  }

  /** With the standard weights, the CNPJ branch accepts exactly the valid CNPJs. */
  lemma CnpjBranchAgrees(d: string)
    requires |d| == 14 && AllDigits(d)
    ensures (!SameAsFirst(d) && d[12..14] == CnpjExpected(d, CNPJ_WEIGHTS_2)) <==> CnpjValid(d)
  {
    SameAsFirstIsRepeated(d);
    var first := PartialCheckDigit(d[..12], CNPJ_WEIGHTS_1);
    if d[12] == DigitChar(first) {
      assert d[..12] + [DigitChar(first)] == d[..13];
    }
    if d[12..14] == CnpjExpected(d, CNPJ_WEIGHTS_2) {
      assert d[12] == d[12..14][0];
    }
  }

  /** The CPF branch accepts exactly the valid CPFs. */
  lemma CpfBranchAgrees(d: string)
    requires |d| == 11 && AllDigits(d)
    ensures (!SameAsFirst(d) && d[9..11] == CpfExpected(d)) <==> CpfValid(d)
  {
    SameAsFirstIsRepeated(d);
    var first := PartialCheckDigit(d[..9], CPF_WEIGHTS_1);
    if d[9] == DigitChar(first) {
      assert d[..9] + [DigitChar(first)] == d[..10];
    }
    if d[9..11] == CpfExpected(d) {
      assert d[9] == d[9..11][0];
    }
  }

  /**
   * The form's second CNPJ digit depends only on the twelve base digits:
   * changing the first check digit cannot change it.
   */
  lemma {:induction false} AsWrittenSecondDigitIgnoresFirst(base: string, c: char)
    requires |base| == 12 && AllDigits(base) && IsDigit(c)
    ensures AllDigits(base + [c])
    ensures PartialCheckDigit(base + [c], FORM_CNPJ_WEIGHTS_2) == PartialCheckDigit(base, FORM_CNPJ_WEIGHTS_2)
  {
    var s := base + [c];
    assert s[..12] == base;
    DigitsPrefix(s, 12);
  }

  /** The form's second sum over the company's twelve base digits: 281, so its second digit is 5. */
  lemma CompanyCnpjFormSecondSum()
    ensures WeightedSum(COMPANY_CNPJ_DIGITS[..12], FORM_CNPJ_WEIGHTS_2) == 281
  {
    var d := COMPANY_CNPJ_DIGITS;
    var w := FORM_CNPJ_WEIGHTS_2;
    assert WeightedSum(d[..0], w[..0]) == 0;
    WeightedSumStep(d, w, 0);
    assert WeightedSum(d[..1], w[..1]) == 42;
    WeightedSumStep(d, w, 1);
    assert WeightedSum(d[..2], w[..2]) == 91;
    WeightedSumStep(d, w, 2);
    assert WeightedSum(d[..3], w[..3]) == 147;
    WeightedSumStep(d, w, 3);
    assert WeightedSum(d[..4], w[..4]) == 201;
    WeightedSumStep(d, w, 4);
    assert WeightedSum(d[..5], w[..5]) == 213;
    WeightedSumStep(d, w, 5);
    assert WeightedSum(d[..6], w[..6]) == 225;
    WeightedSumStep(d, w, 6);
    assert WeightedSum(d[..7], w[..7]) == 257;
    WeightedSumStep(d, w, 7);
    assert WeightedSum(d[..8], w[..8]) == 272;
    WeightedSumStep(d, w, 8);
    assert WeightedSum(d[..9], w[..9]) == 272;
    WeightedSumStep(d, w, 9);
    assert WeightedSum(d[..10], w[..10]) == 272;
    WeightedSumStep(d, w, 10);
    assert WeightedSum(d[..11], w[..11]) == 272;
    WeightedSumStep(d, w, 11);
    assert WeightedSum(d[..12], w[..12]) == 281;
    assert w[..12] == w;
  }

  /** The check digits the form expects for the company's base digits: "65". */
  lemma CompanyCnpjFormExpected()
    ensures AllDigits("77766483000164")
    ensures CnpjExpected("77766483000164", FORM_CNPJ_WEIGHTS_2) == "65"
  {
    var c := "77766483000164";
    CompanyCnpjDigits();
    CompanyCnpjFirstSum();
    CompanyCnpjFormSecondSum();
    DigitsPrefix(c, 12);
    assert PartialCheckDigit(c[..12], CNPJ_WEIGHTS_1) == 6;
    AsWrittenSecondDigitIgnoresFirst(c[..12], '6');
    assert PartialCheckDigit(c[..12], FORM_CNPJ_WEIGHTS_2) == 5;
  }

  /**
   * The company's own CNPJ, typed without punctuation, is valid by the
   * Receita Federal rule but the form rejects it, expecting "65" where the
   * number ends in "64".
   */
  lemma AsWrittenRejectsCompanyCnpj()
    ensures CnpjValid("77766483000164")
    ensures CleanCnpjCpfAsWritten("77766483000164") == Err(CnpjCheckDigits("65", "64"))
  {
    var c := "77766483000164";
    CompanyCnpjIsValid();
    CompanyCnpjFormExpected();
    assert !SameAsFirst(c) by { assert c[3] != c[0]; }
    assert c != KNOWN_COMPANY_CNPJ by { assert |c| != |KNOWN_COMPANY_CNPJ|; }
    assert c[12] == '6' && c[13] == '4';
    CheckDigitMismatch(c, "64", FORM_CNPJ_WEIGHTS_2);
  }

  /** A 14-digit value, not all one digit, whose last two digits differ from the expected ones is reported with both. */
  lemma CheckDigitMismatch(c: string, provided: string, secondWeights: seq<nat>)
    requires AllDigits(c) && |c| == 14 && c != KNOWN_COMPANY_CNPJ && !SameAsFirst(c)
    requires |provided| == 2 && provided[0] == c[12] && provided[1] == c[13]
    requires provided != CnpjExpected(c, secondWeights)
    ensures CleanCnpjCpfWith(c, secondWeights) == Err(CnpjCheckDigits(CnpjExpected(c, secondWeights), provided))
  {
    DigitsOnlyOfDigits(c);
    assert c[12..14] == provided;
  }

  /** With the standard weights the same input passes. */
  lemma CorrectedAcceptsCompanyCnpj()
    ensures CleanCnpjCpf("77766483000164") == Ok("77766483000164")
  {
    CompanyCnpjIsValid();
    CompanyCnpjDigits();
    DigitsOnlyOfDigits("77766483000164");
  }

  // ---------------------------------------------------------------------
  // CEP
  // ---------------------------------------------------------------------

  /** `clean_zip_code`: a non-empty CEP must keep exactly eight digits once the rest is dropped. */
  function CleanZipCode(zip: string): (r: Result<string, string>)
    ensures r.Ok? ==> r.value == zip
    ensures r.Ok? <==> zip == "" || ValidateCEP(zip)
  {
    if zip != "" && |DigitsOnly(zip)| != 8 then Err("CEP deve ter 8 dígitos.") else Ok(zip)
  }

  // ---------------------------------------------------------------------
  // SMTP form
  // ---------------------------------------------------------------------

  /** The highest TCP port number. */
  const MAX_PORT := 65535

  datatype SmtpError = ServerRequired | PortRequired | PortOutOfRange | PasswordMismatch

  /** `clean_smtp_server`: the host without surrounding whitespace, which must not be empty. */
  function CleanSmtpServer(host: string): (r: Result<string, SmtpError>)
    ensures r.Ok? <==> Strip(host) != ""
    ensures r.Ok? ==> r.value == Strip(host) && |r.value| <= |host|
    ensures r.Err? ==> r.error == ServerRequired
  {
    var stripped := Strip(host);
    if stripped == "" then Err(ServerRequired) else Ok(stripped)
  }

  lemma StripIdempotent(s: string)
    ensures Strip(Strip(s)) == Strip(s)
  {
    var t := Strip(s);
    assert TrimStart(t) == t;
  }

  /** Cleaning an already cleaned host changes nothing. */
  lemma CleanSmtpServerIdempotent(host: string)
    requires CleanSmtpServer(host).Ok?
    ensures CleanSmtpServer(CleanSmtpServer(host).value) == CleanSmtpServer(host)
  {
    StripIdempotent(host);
  }

  /** `clean_smtp_port`: a port must be given and lie in 1..65535. */
  function CleanSmtpPort(port: Option<int>): (r: Result<int, SmtpError>)
    ensures r.Ok? <==> port.Some? && 1 <= port.value <= MAX_PORT
    ensures r.Ok? ==> r.value == port.value
    ensures r == Err(PortRequired) <==> port.None?
  {
    if port.None? then Err(PortRequired)
    else if port.value < 1 || port.value > MAX_PORT then Err(PortOutOfRange)
    else Ok(port.value)
  }

  /** Python truthiness of an optional text field: present and not empty. */
  predicate Truthy(s: Option<string>)
  {
    s.Some? && s.value != ""
  }

  /** `SMTPSettingsForm.clean`: a non-empty password must equal its confirmation. */
  function CheckPasswordConfirmation(password: Option<string>, confirm: Option<string>): (r: Result<(), SmtpError>)
    ensures r.Err? <==> Truthy(password) && confirm != password
    ensures r.Err? ==> r.error == PasswordMismatch
  {
    if Truthy(password) && password != confirm then Err(PasswordMismatch) else Ok(())
  }

  /** The stored SMTP password after `save`: replaced only by a non-empty new password. */
  function SavedPassword(stored: string, password: Option<string>): (r: string)
    ensures Truthy(password) ==> r == password.value
    ensures !Truthy(password) ==> r == stored
  {
    if Truthy(password) then password.value else stored
  }

  /**
   * After a successful confirmation check, saving stores the confirmed
   * password when one was typed and keeps the old one otherwise.
   */
  lemma ConfirmedPasswordIsSaved(stored: string, password: Option<string>, confirm: Option<string>)
    requires CheckPasswordConfirmation(password, confirm).Ok?
    ensures Truthy(password) ==> confirm.Some? && SavedPassword(stored, password) == confirm.value
    ensures !Truthy(password) ==> SavedPassword(stored, password) == stored
  {
  }

  /** The cleaned values of the fields the SMTP form edits (`Meta.fields` plus the password). */
  datatype SmtpFormData = SmtpFormData(
    emailBackend: string, smtpServer: string, smtpPort: int, email: string,
    connectionSecurity: string, timeout: int, isActive: bool, password: Option<string>)

  /** The `SMTPSettings` record the form edits. */
  class SmtpSettings {
    var emailBackend: string
    var smtpServer: string
    var smtpPort: int
    var email: string
    var connectionSecurity: string
    var timeout: int
    var isActive: bool
    var smtpPassword: string

    constructor (password: string)
      ensures smtpPassword == password
    {
      emailBackend := "";
      smtpServer := "";
      smtpPort := 587;
      email := "";
      connectionSecurity := "";
      timeout := 30;
      isActive := false;
      smtpPassword := password;
    }

    /**
     * `save`: copy every edited field from the cleaned data, and the
     * password only when one was typed.
     */
    method Save(data: SmtpFormData)
      modifies this
      ensures emailBackend == data.emailBackend && smtpServer == data.smtpServer
      ensures smtpPort == data.smtpPort && email == data.email
      ensures connectionSecurity == data.connectionSecurity && timeout == data.timeout
      ensures isActive == data.isActive
      ensures smtpPassword == SavedPassword(old(smtpPassword), data.password)
    {
      emailBackend := data.emailBackend;
      smtpServer := data.smtpServer;
      smtpPort := data.smtpPort;
      email := data.email;
      connectionSecurity := data.connectionSecurity;
      timeout := data.timeout;
      isActive := data.isActive;
      if Truthy(data.password) {
        smtpPassword := data.password.value;
      }
    }
  }
}
