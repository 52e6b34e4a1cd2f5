# WebReceptivo back office: a verified model of its business rules

WebReceptivo is a Django back office for a tourism receptive agency. Its staff build service orders (`OrdemServico`) from line items (`LancamentoServico`), price adults, half-price tickets and children by age, and print an itinerary (`roteiro`). This project models in Dafny the parts of it whose behaviour can be stated exactly, and proves properties of them:

- **Order-draft page** (`static/js/lancamento_form.js`). The in-memory list of line items, with add, edit and remove.
  - modules `DraftRules` (the rules as functions) and `OrderDraft` (the page's loops and its state as the class `OrderDraftPage`);
  - the four-way age classifier and the checks a form must pass;
  - the split of transfers into outbound and return legs;
  - description defaulting, the priced summary, and the itinerary preview grouped and sorted by date;
  - the choice of the URL the draft is posted to.
- **Server-side pricing** (`servicos/models.py`, `servicos/forms.py`). Modules `ServiceModels` and `LaunchForm`.
  - the children's-ages field and its round trip;
  - exempt, child-rate and full-rate children; the line total; unit-price snapshots;
  - order numbering (`AAAA-NNNNN`), the order total and the generated itinerary;
  - the line-item form's validation and save.
- **Preview against server** (module `PreviewPricing`). Where the page's priced summary agrees with the server's `valor_total`, and where it does not.
- **Role hierarchy** (`user_management/permission_helpers.py`, module `Permissions`). Five role levels and the view, edit, create and manage decisions built on them. Also the form validators and the protection of the principal administrator and the system groups.
- **CNPJ/CPF and masks** (`static/js/configuracoes/utils.js`, `company_settings/forms.py`). Modules `SettingsUtils` and `CompanyForms`.
  - the Receita Federal modulo-11 check digits, in the browser's and in the form's versions;
  - the input masks, e-mail and CEP checks;
  - the SMTP settings form;
  - the loading state of a button.
- **Settings views** (`company_settings/views.py`, module `CompanyViews`). The settings-administrator test, CEP normalisation, the date-format translation, and the SMTP change diff that masks the password.
- **Settings sidebar** (`static/js/configuracoes/sidebar.js`, module `Sidebar`). The open/collapse state machine, as pure transitions and as the class `SettingsSidebar`, whose page classes always show its state.
- **Audit trail** (`audit_system/models.py`, `audit_system/signals.py`). Modules `AuditModels` and `AuditSignals`.
  - the changes display, the assembly of a log record, the client address and recency;
  - field-change detection;
  - the store of original instances that the save handlers fill and empty, as the class `AuditTrail`.

Module `Common` holds the shared text and number helpers, which model Python's and JavaScript's `split`, `join`, `strip` and `str()`, and Python's `int()` on plain ASCII integer text (an optional sign and digits). Amounts of money are integer cents throughout.

## Model

| member | source | states |
|---|---|---|
| SettingsUtils.CheckDigit | static/js/configuracoes/utils.js:155-156 | the check digit is a single digit, 0 exactly when the remainder is below 2, and otherwise makes the weighted sum plus the digit divisible by 11 |
| SettingsUtils.IsRepeatedDigit | static/js/configuracoes/utils.js:143 | the scan answers exactly the "one digit repeated" test of the pattern `^(\d)\1+$` |
| SettingsUtils.CnpjWeightTables | static/js/configuracoes/utils.js:146-165 | the weight walk `weight === 2 ? 9 : weight - 1` from 5 and from 6 enumerates the two CNPJ weight tables |
| SettingsUtils.SumWithStepWeights | static/js/configuracoes/utils.js:149-165 | each CNPJ loop computes the weighted sum of the first digits against its weight table |
| SettingsUtils.ValidateCNPJ | static/js/configuracoes/utils.js:139-171 | `validateCNPJ` returns exactly whether the digits of the input form a valid CNPJ: 14 digits, not one repeated digit, both modulo-11 check digits right |
| SettingsUtils.SumWithFallingWeights | static/js/configuracoes/utils.js:182-195 | each CPF loop computes the weighted sum with weights `top - i` |
| SettingsUtils.CpfWeightTables | static/js/configuracoes/utils.js:182-195 | the CPF weights are 10..2 and 11..2 |
| SettingsUtils.ValidateCPF | static/js/configuracoes/utils.js:173-201 | `validateCPF` returns exactly whether the digits form a valid CPF: 11 digits, not one repeated digit, both check digits right |
| SettingsUtils.CnpjCheckDigitsDetermined | static/js/configuracoes/utils.js:146-170 | for 12 base digits, the two appended digits make a valid CNPJ exactly when they are the computed check digits |
| SettingsUtils.CompanyCnpjIsValid | static/js/configuracoes/utils.js:139-171 | the company's CNPJ 77.766.483/0001-64 passes the client-side CNPJ rule |
| SettingsUtils.FillMaskDigits | static/js/configuracoes/utils.js:102-125 | filling a mask keeps exactly the digits put into it, in order |
| SettingsUtils.MaskPrefix | static/js/configuracoes/utils.js:104-123 | the unanchored replacement keeps the digits; an exact-length input fills the whole mask |
| SettingsUtils.FormatCNPJ | static/js/configuracoes/utils.js:102-105 | formatting keeps exactly the input's digits, and 14 digits come out as dd.ddd.ddd/dddd-dd |
| SettingsUtils.FormatCPF | static/js/configuracoes/utils.js:107-110 | formatting keeps exactly the input's digits, and 11 digits come out as ddd.ddd.ddd-dd |
| SettingsUtils.FormatCEP | static/js/configuracoes/utils.js:112-115 | formatting keeps exactly the input's digits, and 8 digits come out as ddddd-ddd |
| SettingsUtils.FormatPhone | static/js/configuracoes/utils.js:117-125 | formatting keeps the digits; 10 digits give (dd) dddd-dddd, 11 give (dd) ddddd-dddd, fewer than 10 stay bare |
| SettingsUtils.FormattingKeepsValidity | static/js/configuracoes/utils.js:102-115 | validating a formatted CNPJ, CPF or CEP gives the same verdict as validating the raw input (see also lines 139-211) |
| SettingsUtils.ValidateEmail | static/js/configuracoes/utils.js:203-206 | the pattern test holds exactly for: no whitespace, one '@' with text before it, and a dot strictly inside the domain |
| SettingsUtils.EmailPatternIffShape | static/js/configuracoes/utils.js:204 | the literal reading of the regular expression and the structural description are equivalent |
| SettingsUtils.EmailShapeMatchesPattern | static/js/configuracoes/utils.js:204 | every address of that shape is matched by the regular expression |
| SettingsUtils.EmailPatternHasShape | static/js/configuracoes/utils.js:204 | every match of the regular expression has that shape |
| SettingsUtils.ValidateCEPIffMasked | static/js/configuracoes/utils.js:112-115 | `validateCEP` holds exactly when `formatCEP` fills the whole CEP mask (see also lines 208-211) |
| SettingsUtils.FillMaskDigitsCount | static/js/configuracoes/utils.js:102-125 | anything shaped like a mask holds as many digits as the mask has slots |
| SettingsUtils.ShowLoadingState | static/js/configuracoes/utils.js:10-17 | `showLoading` saves the label, shows the spinner and disables the button |
| SettingsUtils.HideLoadingState | static/js/configuracoes/utils.js:19-25 | `hideLoading` does nothing without a non-empty saved label; otherwise restores it, re-enables and forgets it |
| SettingsUtils.LoadingRoundTrip | static/js/configuracoes/utils.js:10-25 | showing then hiding restores a non-empty label and re-enables the button |
| SettingsUtils.DoubleShowLosesLabel | static/js/configuracoes/utils.js:10-25 | showing twice saves the spinner as the label, so hiding leaves the spinner |
| SettingsUtils.LoadingButton.constructor | static/js/configuracoes/utils.js:10 | a button starts with its label, its disabled flag and no saved label |
| SettingsUtils.LoadingButton.ShowLoading | static/js/configuracoes/utils.js:10-17 | the button's new state is the `showLoading` transition of its old state |
| SettingsUtils.LoadingButton.HideLoading | static/js/configuracoes/utils.js:19-25 | the button's new state is the `hideLoading` transition of its old state |
| CompanyForms.PartialCheckDigit | company_settings/forms.py:106-109 | `calculate_digit` over the zipped pairs gives a single digit |
| CompanyForms.CnpjExpected | company_settings/forms.py:111-115 | the CNPJ branch expects two digits |
| CompanyForms.CpfExpected | company_settings/forms.py:137-141 | the CPF branch expects two digits |
| CompanyForms.CleanCnpjCpfWith | company_settings/forms.py:83-155 | a value that passes comes back unchanged; the length error is raised exactly for a non-empty, non-whitelisted value with neither 14 nor 11 digits |
| CompanyForms.CleanCnpjCpfAsWritten | company_settings/forms.py:83-155 | the form as written returns a passing value unchanged |
| CompanyForms.CleanCnpjCpf | company_settings/forms.py:83-155 | with the standard second weights, the form accepts exactly the empty value, the whitelisted CNPJ and the digit strings the client-side validators accept |
| CompanyForms.BranchesAgree | company_settings/forms.py:100-150 | with the standard weights, the CNPJ and CPF branches accept exactly the valid CNPJs and CPFs |
| CompanyForms.SameAsFirstIsRepeated | company_settings/forms.py:102-128 | `digits == digits[0] * n` is the repeated-digit test of the client |
| CompanyForms.CnpjBranchAgrees | company_settings/forms.py:100-124 | the corrected CNPJ branch agrees with the Receita Federal rule |
| CompanyForms.CpfBranchAgrees | company_settings/forms.py:126-150 | the CPF branch agrees with the Receita Federal rule |
| CompanyForms.AsWrittenSecondDigitIgnoresFirst | company_settings/forms.py:112-115 | the form's second CNPJ digit depends only on the twelve base digits, never on the first check digit |
| CompanyForms.CompanyCnpjFormSecondSum | company_settings/forms.py:112-115 | the form's second sum over the company's base digits is 281 |
| CompanyForms.CompanyCnpjFormExpected | company_settings/forms.py:114-117 | for the company's CNPJ the form expects check digits "65" |
| CompanyForms.AsWrittenRejectsCompanyCnpj | company_settings/forms.py:111-124 | the company's CNPJ typed without punctuation is valid, yet the form rejects it expecting "65" instead of "64" |
| CompanyForms.CheckDigitMismatch | company_settings/forms.py:117-124 | a mismatch is reported with both the expected and the provided digits |
| CompanyForms.CorrectedAcceptsCompanyCnpj | company_settings/forms.py:111-124 | with the standard weights the same input passes |
| CompanyForms.CleanZipCode | company_settings/forms.py:164-171 | a passing CEP comes back unchanged; it passes exactly when empty or eight digits remain |
| CompanyForms.CleanSmtpServer | company_settings/forms.py:279-284 | the host passes exactly when non-blank after stripping and comes back stripped; otherwise the "required" error |
| CompanyForms.CleanSmtpServerIdempotent | company_settings/forms.py:279-284 | cleaning an already cleaned host changes nothing |
| CompanyForms.CleanSmtpPort | company_settings/forms.py:286-293 | the port passes exactly when given and within 1..65535; a missing port gets the "required" error |
| CompanyForms.CheckPasswordConfirmation | company_settings/forms.py:302-312 | the error is raised exactly for a non-empty password that differs from its confirmation |
| CompanyForms.SavedPassword | company_settings/forms.py:318-321 | the stored password is replaced exactly when a non-empty password was typed |
| CompanyForms.ConfirmedPasswordIsSaved | company_settings/forms.py:302-321 | after a passing confirmation, saving stores the confirmed password, or keeps the old one when none was typed |
| CompanyForms.SmtpSettings.constructor | company_settings/forms.py:314-316 | the edited record starts with its stored password |
| CompanyForms.SmtpSettings.Save | company_settings/forms.py:314-326 | every edited field is copied from the cleaned data, and the password only when one was typed |
| CompanyViews.IsAdminUser | company_settings/views.py:21-23 | only authenticated users are settings administrators |
| CompanyViews.AdminPanelUsersAreSettingsAdmins | company_settings/views.py:21-23 | everyone admitted to the Django admin, and every authenticated superuser, is a settings administrator; a superuser ranks at least administrador |
| CompanyViews.StaffAloneIsNotAManager | company_settings/views.py:21-23 | a staff user without groups opens the settings pages but not the user administration |
| CompanyViews.CepRemovalStep | company_settings/views.py:302 | the three `replace` calls act on each character separately |
| CompanyViews.SeparatorsRemoved | company_settings/views.py:302-304 | what remains is all digits exactly when the CEP held only digits and the three separators, and then it is the CEP's digits |
| CompanyViews.NormalizeCep | company_settings/views.py:302-308 | the CEP is accepted exactly when it holds only digits, '-', '.' and ' ' and eight digits; the value looked up is its digits |
| CompanyViews.NormalizedCepPassesForm | company_settings/views.py:302-308 | a CEP the lookup accepts also passes the settings form and the client check |
| CompanyViews.FormAcceptsWhatLookupRejects | company_settings/views.py:302-308 | "01310100a" passes the settings form but the lookup rejects it |
| CompanyViews.TrailingLetterSplits | company_settings/views.py:302-308 | eight digits followed by any character that is neither a digit nor a separator pass the form's digit count yet fail the lookup |
| CompanyViews.ReplaceKeepsDirectives | company_settings/views.py:270-271 | one `replace` of a letter by a directive keeps every '%' followed by a directive letter |
| CompanyViews.DateFormatDirectives | company_settings/views.py:270 | a translated date format holds only the directives %d, %m and %Y |
| CompanyViews.TimeFormatDirectives | company_settings/views.py:271 | a translated time format holds only the directives %H, %M, %I and %p |
| CompanyViews.MarkThenUnmark | company_settings/views.py:270 | marking a letter with '%' and then deleting every '%' is the same as deleting every '%' |
| CompanyViews.DateFormatRoundTrip | company_settings/views.py:270 | deleting the '%' signs from a translated date format gives the Django format back |
| CompanyViews.DateTranslationPerChar | company_settings/views.py:270 | the chain of date replacements is a simultaneous per-character substitution |
| CompanyViews.TimeTranslationPerChar | company_settings/views.py:271 | the chain of time replacements is a simultaneous per-character substitution |
| CompanyViews.KnownFormatsByChar | company_settings/views.py:270-271 | the per-character substitution maps the offered formats to their strftime patterns |
| CompanyViews.KnownFormatTranslations | company_settings/views.py:270-271 | d/m/Y, m/d/Y, Y-m-d, d-m-Y, H:i and g:i A translate to %d/%m/%Y, %m/%d/%Y, %Y-%m-%d, %d-%m-%Y, %H:%M and %I:%M %p |
| CompanyViews.Masked | company_settings/views.py:166-167 | a secret is recorded only as "***HIDDEN***" or None |
| CompanyViews.ChangeEntryFor | company_settings/views.py:164-173 | a password field records only "***HIDDEN***" or None; any other field records `str(value)` or None |
| CompanyViews.SmtpChanges | company_settings/views.py:152-173 | one entry per changed field, in order, with the value before from the captured original and the value after from the cleaned data |
| CompanyViews.NoSecretIsRecorded | company_settings/views.py:163-168 | no password value ever reaches the change record |
| Permissions.GetUserLevel | user_management/permission_helpers.py:44-66 | admin_principal exactly for the authenticated superuser with id 1; administrador needs the Administradores group or superuser; gerente and operador need their groups; anonymous users are usuario_basico |
| Permissions.CanAccessUserManagement | user_management/permission_helpers.py:69-75 | gerentes and above reach the user administration |
| Permissions.CanViewUser | user_management/permission_helpers.py:78-104 | a manager sees users strictly below their own level; the principal administrator sees everyone |
| Permissions.CanEditUser | user_management/permission_helpers.py:107-152 | nobody edits themselves or user id 1; each level edits only strictly lower levels; editing implies viewing |
| Permissions.CanCreateUserWithLevel | user_management/permission_helpers.py:155-174 | the principal administrator creates any level; other managers only strictly lower levels |
| Permissions.GroupsLevelOrderIndependent | user_management/permission_helpers.py:184-211 | the level a group list confers depends only on which names occur |
| Permissions.HighestNewLevel | user_management/permission_helpers.py:184-211 | the scan of the new groups, stopping at Administradores, yields the highest level they confer |
| Permissions.CanChangeUserGroups | user_management/permission_helpers.py:177-214 | user id 1's groups never change; otherwise the answer is whether a user of the conferred level may be created |
| Permissions.CanToggleActiveStatus | user_management/permission_helpers.py:217-226 | the same as editing, and never for user id 1 |
| Permissions.CanChangePassword | user_management/permission_helpers.py:229-234 | only another, strictly lower user that is not id 1 |
| Permissions.ValidateUserFormSubmission | user_management/permission_helpers.py:307-340 | valid exactly when no errors; a non-editable target gives exactly one error; otherwise each error is raised exactly when its condition holds; the id-1 checks never fire |
| Permissions.IsProtectedUser | user_management/permission_helpers.py:360-364 | an authenticated user is protected exactly when they are the principal administrator |
| Permissions.GetMaxUserLevelCanCreate | user_management/permission_helpers.py:382-395 | a bound exists exactly for managers, and below the principal it is the exact limit of creation |
| Permissions.FirstAssignmentError | user_management/permission_helpers.py:434-446 | no error exactly when every group may be handed out |
| Permissions.ValidateGroupAssignment | user_management/permission_helpers.py:426-446 | the loop stops at the first group the user may not assign, with its error; valid exactly when there is none |
| Permissions.AssignmentAgreesWithCreation | user_management/permission_helpers.py:155-214 | for managers, the group assignment check agrees with whether a user of the conferred level may be created (see also lines 426-446) |
| Permissions.IsProtectedGroup | user_management/permission_helpers.py:635-640 | exactly the four built-in groups are protected |
| Permissions.CanManageGroup | user_management/permission_helpers.py:469-488 | managing needs user-administration rights; the Administradores group only by the principal |
| Permissions.CanViewGroup | user_management/permission_helpers.py:491-496 | viewing needs user-administration rights |
| Permissions.CanCreateGroup | user_management/permission_helpers.py:499-506 | exactly the managers create groups |
| Permissions.CanEditGroup | user_management/permission_helpers.py:509-529 | editing implies managing, needs at least administrador, and Administradores is edited only by the principal |
| Permissions.CanDeleteGroup | user_management/permission_helpers.py:532-559 | protected groups are never deleted; deleting implies managing and at least administrador |
| Permissions.CanAssignPermissionToGroup | user_management/permission_helpers.py:562-603 | granting implies editing; below the principal no critical permission is granted |
| Permissions.GerenteManagesNoGroupContents | user_management/permission_helpers.py:509-603 | a gerente can edit, delete or grant permissions to no group |
| Permissions.PermissionErrors | user_management/permission_helpers.py:657-661 | every error names a submitted permission that may not be granted |
| Permissions.PermissionErrorsComplete | user_management/permission_helpers.py:657-661 | every submitted permission that may not be granted gets its error |
| Permissions.CheckSelectedPermissions | user_management/permission_helpers.py:657-661 | the loop reports, in order, exactly the selected permissions the user may not assign to the group |
| Permissions.ValidateGroupFormSubmission | user_management/permission_helpers.py:643-669 | valid exactly when no errors; a non-editable target gives one error; otherwise the permission errors then the protected-name error |
| Permissions.GetGroupCreationLevelLimit | user_management/permission_helpers.py:672-685 | the group creation limit is the user creation limit |
| ServiceModels.ParsePieces | servicos/models.py:549-552 | reading the comma-separated pieces yields at most one age per piece, or fails as a whole |
| ServiceModels.GetIdadesLista | servicos/models.py:540-552 | an in-memory list is returned as it is and an empty text gives no ages |
| ServiceModels.AgesRoundTrip | servicos/views.py:379 | the ages the order view stores as `','.join(map(str, idades))` read back as exactly the same list (see also servicos/models.py:540-552) |
| ServiceModels.AgeStringReadsBack | servicos/models.py:550 | `str(i)` survives stripping and `int()` reads it back as `i` |
| ServiceModels.ParsePiecesOfAgeStrings | servicos/models.py:550 | the pieces written for a list of ages parse back to that list |
| ServiceModels.CountExempt | servicos/models.py:618-621 | the children the pricing loops skip as exempt (exemption flag and range): no more than there are ages, and none when the service has no exemption |
| ServiceModels.ExemptIsRangeWhenFlagSet | servicos/models.py:575-580 | for a service with an exemption, the children in the exemption range are exactly those it exempts |
| ServiceModels.AgesPartition | servicos/models.py:587-667 | every child is exactly one of exempt, child-price or full-price |
| ServiceModels.QtdInfantilIsentasAsWritten | servicos/models.py:560-580 | as written, exempt children are counted from the exemption range alone, never more than the ages listed |
| ServiceModels.QtdInfantilIsentas | servicos/models.py:560-580 | corrected `qtd_infantil_isentas`: exempt children are those in the exemption range of a service that has an exemption; none without a service or without an exemption |
| ServiceModels.QtdInfantilPagasAsWritten | servicos/models.py:583-585 | as written, the paying children are the children less those counted in the exemption range, between the children without a listed age and all the children |
| ServiceModels.PagasAsWrittenVsCorrected | servicos/models.py:583-585 | the as-written paying count falls short of the corrected one by exactly the children in the exemption range of a service without an exemption, and equals it otherwise (see also lines 560-580) |
| ServiceModels.QtdInfantilPagas | servicos/models.py:583-585 | corrected `qtd_infantil_pagas`: the children less those actually exempt, between the children without a listed age and all the children |
| ServiceModels.QtdInfantilPagamInteira | servicos/models.py:588-627 | corrected `qtd_infantil_pagam_inteira`: without the child rate every child not actually exempt pays the full price; with it, the non-exempt children outside the child range do |
| ServiceModels.QtdInfantilPagamInteiraAsWritten | servicos/models.py:588-627 | as written: without the child rate every child not counted in the exemption range pays the full price; with it, the non-exempt children outside the child range do |
| ServiceModels.QtdInfantilPagamInfantil | servicos/models.py:630-666 | nobody pays the child rate unless the service takes half price and allows children; then the non-exempt children inside the child range do |
| ServiceModels.ChildrenAccountedFor | servicos/models.py:560-667 | corrected: with the child rate on, exempt, child-rate and full-rate children add up to the listed children, each counted once |
| ServiceModels.ChildrenAccountedForAsWritten | servicos/models.py:560-667 | as written, with the child rate on, exempt, child-rate and full-rate children add up to the listed children plus those in the exemption range of a service without an exemption, which are counted twice |
| ServiceModels.NoChildRateMeansFullRate | servicos/models.py:598-643 | with the child rate off, nobody pays it and the counted-exempt plus full-rate children are all the children, as written and corrected |
| ServiceModels.ExemptionFlagIgnoredAsWritten | servicos/models.py:560-580 | a baby aged 0 on a service without exemption is charged nothing as written, and the full price once the exemption flag is respected (see also lines 669-695) |
| ServiceModels.ValorTotal | servicos/models.py:669-695 | corrected `valor_total` on the corrected full-rate count; without a service the line total is the adults' tickets only |
| ServiceModels.ValorTotalAsWrittenVsCorrected | servicos/models.py:669-695 | the line total as written falls short of the corrected one by the full price of each child in the exemption range of a service with neither an exemption nor the child rate, and equals it otherwise |
| ServiceModels.OneChildInUnusedRange | servicos/models.py:598-604 | one child in the exemption range of a service with neither an exemption nor the child rate is billed nothing as written and the full price corrected (see also lines 560-580) |
| ServiceModels.ValorTotalNonNegative | servicos/models.py:669-695 | with non-negative unit prices and no more listed ages than children, the line total as written and corrected is never negative |
| ServiceModels.ExemptChildCostsNothing | servicos/models.py:669-695 | a line of one child the service exempts costs nothing whatever the prices, as written and corrected |
| ServiceModels.LancamentoServico.constructor | servicos/models.py:697-704 | a new line item is unsaved, with the given service, quantities and ages and zero unit prices |
| ServiceModels.LancamentoServico.TotalPax | servicos/models.py:555-557 | the passenger count is at least each of the three quantities and zero exactly when all are |
| ServiceModels.LancamentoServico.QtdInfantilIsentasLoop | servicos/models.py:560-580 | the loop counts the listed ages inside the exemption range, whatever the exemption flag; none without ages or without a service |
| ServiceModels.LancamentoServico.QtdInfantilPagamInteiraLoop | servicos/models.py:588-627 | as written: without a service none; without the child rate the children less those counted in the exemption range; otherwise the loop counts the non-exempt children outside the child range |
| ServiceModels.CountChildPriceLoop | servicos/models.py:657-664 | the loop counts exactly the children neither exempt nor outside the child range |
| ServiceModels.LancamentoServico.QtdInfantilPagamInfantilLoop | servicos/models.py:630-666 | nobody pays the child rate without a service or without child pricing; otherwise the loop's count of child-rate children |
| ServiceModels.LancamentoServico.ComputeValorTotal | servicos/models.py:669-695 | the accumulated total equals the line total as written |
| ServiceModels.LancamentoServico.Save | servicos/models.py:697-704 | unit prices are copied from the service on the first save only and nothing else changes |
| ServiceModels.Pad05 | servicos/models.py:285 | a non-negative sequence number is written with at least five digits and reads back as itself |
| ServiceModels.NextSequence | servicos/models.py:276-283 | with no previous order of the year the sequence starts at 1 |
| ServiceModels.NextSequenceFollows | servicos/models.py:276-285 | the number after a number this rule produced is the next in the sequence |
| ServiceModels.FirstNumberOfTheYear | servicos/models.py:282-285 | the first order of a year is numbered year-00001 |
| ServiceModels.SwapSeparatorsPerChar | servicos/models.py:335 | the three chained replacements act character by character, swapping ',' and '.' |
| ServiceModels.FormatMoneyIsBrazilian | servicos/models.py:335 | the itinerary's money text is the Brazilian rendering of the amount: '.' between thousands, ',' before the cents |
| ServiceModels.DescriptionLines | servicos/models.py:327-331 | a description yields at most one bullet per line |
| ServiceModels.ItemParts | servicos/models.py:323-337 | an item's lines begin with its service name and end with a blank line |
| ServiceModels.DayParts | servicos/models.py:317-320 | a date's lines begin with its heading |
| ServiceModels.RoteiroAfter | servicos/models.py:301-303 | a stored itinerary is never overwritten |
| ServiceModels.RoteiroIdempotent | servicos/models.py:299-342 | generating the itinerary twice gives the same text as once |
| ServiceModels.RoteiroKeptOnceGenerated | servicos/models.py:299-303 | once an order with at least one date has an itinerary, later calls return it unchanged whatever its line items have become (see also lines 305-342) |
| ServiceModels.RoteiroNotEmpty | servicos/models.py:305-341 | an order with at least one date gets a non-empty itinerary |
| ServiceModels.BuildDay | servicos/models.py:316-339 | the loop builds exactly the lines of one date |
| ServiceModels.BuildRoteiro | servicos/models.py:316-341 | the loop builds exactly the itinerary text of the dates it is given, in order |
| ServiceModels.DatesOfMembers | servicos/models.py:308-313 | the grouping keys are exactly the dates of the line items |
| ServiceModels.DatesOfDistinct | servicos/models.py:308-313 | each date is a grouping key once |
| ServiceModels.OnDateMembers | servicos/models.py:308-313 | a date's group holds exactly the line items of that date |
| ServiceModels.DatesAscending | servicos/models.py:309-313 | line items ordered by service date, as the query returns them, give the dates in ascending order |
| ServiceModels.GroupByDate | servicos/models.py:308-313 | the grouping loop yields the dates in order of first appearance, each with its line items in query order |
| ServiceModels.DaysFromGroups | servicos/models.py:316-322 | the iteration over the groups yields one itinerary date per key, with its heading and its line items |
| ServiceModels.SortedGroupingKeepsOrder | servicos/models.py:305-322 | for line items ordered by date, the itinerary lists every line item once, date after date, in query order |
| ServiceModels.OrdemServico.constructor | servicos/models.py:267-287 | a new order has no number, no total and no itinerary |
| ServiceModels.ReadNextSequence | servicos/models.py:276-283 | the number read after the first '-' of the last order, plus one; 1 when there is no last order, no '-' or no integer there |
| ServiceModels.OrdemServico.Save | servicos/models.py:267-287 | an order keeps its number; one without gets the next number of the year; nothing else changes |
| ServiceModels.OrdemServico.CalcularTotal | servicos/models.py:289-297 | the order total is the sum of its line totals and transfers, and the order is numbered if it was not |
| ServiceModels.OrdemServico.GerarRoteiro | servicos/models.py:299-342 | the stored itinerary is returned if any; otherwise the line items are grouped by date in order of first appearance and the generated text is stored and returned |
| LaunchForm.OrZero | servicos/forms.py:257-259 | a missing quantity counts as 0 and a given one as itself |
| LaunchForm.LoadInts | servicos/forms.py:281-320 | a blank field reads as [], a list as itself, and only malformed JSON fails |
| LaunchForm.FirstAbove | servicos/forms.py:288-292 | the first age above the limit is found, and when none is, every age is within it |
| LaunchForm.FirstBelow | servicos/forms.py:296-301 | the first age below the minimum is found, and when none is, every age meets it |
| LaunchForm.CheckAges | servicos/forms.py:278-308 | accepted ages are the parsed list, one per child, none above 17, and none below the service minimum when it enforces one |
| LaunchForm.CheckMeia | servicos/forms.py:311-330 | half-price types are accepted only for a service that takes half price, and one per half ticket |
| LaunchForm.CleanSpec | servicos/forms.py:252-339 | accepted quantities are the given ones defaulted to 0, and the "no quantity" error is raised exactly when all three are 0 |
| LaunchForm.CleanAcceptsExactly | servicos/forms.py:252-339 | the form accepts exactly the inputs that meet every rule, stated independently of the order of the checks |
| LaunchForm.AcceptedHasPassengers | servicos/forms.py:272-330 | an accepted line item has at least one passenger, one age per child and one type per half ticket |
| LaunchForm.AgeErrorsComeFirst | servicos/forms.py:278-330 | a wrong age list is reported before anything about half-price types, whatever those are |
| LaunchForm.Clean | servicos/forms.py:252-339 | the checking loops, stopping at the first failure, return what the rules decide |
| LaunchForm.PyListRepr | servicos/forms.py:349 | `str()` of a list starts with '[' |
| LaunchForm.SavedAgesAsWritten | servicos/forms.py:347-351 | as written, the text column receives `str()` of the parsed list, which starts with '[' |
| LaunchForm.BracketedTextReadsEmpty | servicos/models.py:549-552 | a stored text starting with '[' reads back as no ages |
| LaunchForm.FormSavedAgesAreLost | servicos/forms.py:347-351 | as written, the ages of a form-saved line item read back as [] (see also servicos/models.py:549-552) |
| LaunchForm.SavedAges | servicos/forms.py:347-351 | the stored ages read back as the parsed list, or as [] when the JSON is not a list |
| LaunchForm.Save | servicos/forms.py:341-361 | as written: the line item takes the cleaned quantities and service and holds the parsed JSON list (or []) in memory; with commit it is saved, and on the first save of an item with a service all three unit prices are copied from it; otherwise the prices stay |
| LaunchForm.AssignedListReadsEmpty | servicos/forms.py:347-351 | the column written for the list that save assigns holds its `str()`, and that text reads back as no ages |
| LaunchForm.SaveCorrected | servicos/forms.py:341-361 | corrected: the ages are stored comma-separated, so the column reads back as the parsed JSON list (or [] when it is not a list); prices as in `LaunchForm.Save` |
| LaunchForm.AcceptedAgesReadBack | servicos/forms.py:304-351 | a validated age list saved by the form reads back unchanged |
| DraftRules.ClassificationIsOrdered | static/js/lancamento_form.js:241-279 | an age is marked invalid exactly when below the minimum, exempt exactly when not below it and in the exemption range, child-rate when neither but in the child band, full-rate otherwise |
| DraftRules.ClassificationNeedsInfoAndNumber | static/js/lancamento_form.js:232-235 | an age gets a class exactly when the service information is loaded and the input is a number |
| DraftRules.NumOrZero | static/js/lancamento_form.js:383-385 | `parseInt(v) \|\| 0` is the number typed, or 0 when it is not a number |
| DraftRules.AgeValues | static/js/lancamento_form.js:402-410 | when every input holds a number, the ages are those numbers in input order |
| DraftRules.Chosen | static/js/lancamento_form.js:428-472 | the chosen values are at most one per select, and one per select when none is empty |
| DraftRules.CheckDraft | static/js/lancamento_form.js:365-443 | an accepted form has a date, category, service and loaded service information, at least one passenger, one valid age per child and one type per half ticket |
| DraftRules.AcceptedFormIsComplete | static/js/lancamento_form.js:394-416 | no accepted child age is one the page marks invalid |
| DraftRules.IdaPlusVoltaIsTotal | static/js/lancamento_form.js:466-470 | the outbound leg plus the return leg add up to every chosen transfer's value |
| DraftRules.DefaultDescription | static/js/lancamento_form.js:476-481 | the generated description starts with the service name and adds nothing exactly when no count is positive |
| DraftRules.DescriptionFor | static/js/lancamento_form.js:475-481 | a non-blank description is kept, trimmed |
| DraftRules.BuildItem | static/js/lancamento_form.js:445-500 | the item records each chosen transfer, in order, on the service's date with a quantity of one, and its outbound and return values add up to their total |
| DraftRules.StampedRecords | static/js/lancamento_form.js:457-463 | each recorded transfer keeps the chosen id, name and value, with the service's date and a quantity of one |
| DraftRules.FindIndex | static/js/lancamento_form.js:504-506 | `findIndex` finds the first item with the id, and fails exactly when no item has it |
| DraftRules.ReplaceFirst | static/js/lancamento_form.js:503-510 | editing replaces the first item with the id and leaves every other item, and a draft without the id, unchanged |
| DraftRules.RemoveAll | static/js/lancamento_form.js:601-603 | after removal no item has the id, every other item stays, and nothing new appears |
| DraftRules.RemoveAbsentIsNoOp | static/js/lancamento_form.js:601-603 | removing an id the draft does not hold changes nothing |
| DraftRules.RemoveKeepsOrder | static/js/lancamento_form.js:601-603 | removal keeps the other items in their order |
| DraftRules.TotalsAppend | static/js/lancamento_form.js:682-714 | the grand total and the passenger count are additive over the draft |
| DraftRules.PreviewChargesExemptChildren | static/js/lancamento_form.js:692-712 | the summary charges a child the page marks exempt the child price anyway |
| DraftRules.FormatarDataBrasileira | static/js/lancamento_form.js:780-787 | an empty date stays empty and one without three parts is shown as it is |
| DraftRules.FormatarDataOfIsoDate | static/js/lancamento_form.js:780-846 | both renderings put day, month and year of a year-month-day date in that order |
| DraftRules.DateRenderingsAgree | static/js/lancamento_form.js:780-846 | the two date renderings agree on every date with three parts |
| DraftRules.StrLessTransitive | static/js/lancamento_form.js:810 | the default `sort()` order is transitive |
| DraftRules.StrLessTotal | static/js/lancamento_form.js:810 | the default `sort()` order relates any two different strings |
| DraftRules.Insert | static/js/lancamento_form.js:810 | inserting adds exactly the new string |
| DraftRules.InsertKeepsSorted | static/js/lancamento_form.js:810 | inserting into a sorted list keeps it sorted |
| DraftRules.SortStrings | static/js/lancamento_form.js:810 | sorting keeps exactly the same strings |
| DraftRules.SortStringsSorted | static/js/lancamento_form.js:810 | sorting yields a strictly sorted list |
| DraftRules.SortedListIsUnique | static/js/lancamento_form.js:810 | two sorted lists with the same strings are equal, so the sort's result is determined by its elements |
| DraftRules.DistinctDatesMembers | static/js/lancamento_form.js:801-807 | the grouping's keys are exactly the dates of the draft |
| DraftRules.ItemsOnMembers | static/js/lancamento_form.js:802-807 | a date's group holds exactly the draft's items of that date |
| DraftRules.SortedDatesProperties | static/js/lancamento_form.js:801-810 | the preview's dates are sorted, each appears once, and they are the draft's dates |
| DraftRules.PreviewOf | static/js/lancamento_form.js:789-841 | the empty-draft placeholder is shown exactly when the draft is empty |
| DraftRules.PreviewIgnoresDateInterleaving | static/js/lancamento_form.js:801-838 | the preview depends only on the dates and on the order within each date |
| DraftRules.SaveUrl | static/js/lancamento_form.js:899-917 | an empty draft sends nothing; editing loaded items posts to the first item's edit URL, otherwise to the create URL |
| OrderDraft.ReadAges | static/js/lancamento_form.js:400-408 | the loop collects exactly the numbers typed and flags an error exactly when some input is empty or refused |
| OrderDraft.ReadTypes | static/js/lancamento_form.js:424-434 | the loop collects exactly the chosen types and flags an error exactly when some select is empty |
| OrderDraft.ValidateForm | static/js/lancamento_form.js:365-443 | the checking loops over the age inputs and half-price selects decide exactly what the page's rules decide |
| OrderDraft.SplitTransfers | static/js/lancamento_form.js:445-472 | the transfer loop records the chosen transfers in order on the service's date with a quantity of one, the first as the outbound leg and the rest as the return leg, together their full value |
| OrderDraft.FilterOut | static/js/lancamento_form.js:601-603 | the filter keeps exactly the items without the id |
| OrderDraft.ComputeTotals | static/js/lancamento_form.js:682-714 | the summary loop computes the draft's passenger count and grand total |
| OrderDraft.GroupByDate | static/js/lancamento_form.js:801-807 | the grouping object's keys are the draft's dates in order of first appearance, each holding that date's items |
| OrderDraft.WriteDate | static/js/lancamento_form.js:815-837 | a date is written as its heading, its numbered options and a blank line |
| OrderDraft.BuildPreview | static/js/lancamento_form.js:789-841 | the preview loop builds exactly the preview |
| OrderDraft.Completed | static/js/lancamento_form.js:955-975 | a loaded item keeps a non-zero id, otherwise gets `now + index`, and counts its passengers with missing counts as 0 |
| OrderDraft.LoadedItems | static/js/lancamento_form.js:952-979 | every loaded item is completed, in order |
| OrderDraft.LoadItems | static/js/lancamento_form.js:952-979 | the loading loop produces the completed items in order |
| OrderDraft.AddedTo | static/js/lancamento_form.js:502-513 | outside edit mode the item is appended to an otherwise unchanged list; in edit mode the list keeps its length |
| OrderDraft.ReplacedTotals | static/js/lancamento_form.js:503-509 | replacing an item changes the totals by the difference of the two items (see also lines 682-714) |
| OrderDraft.AppendedTotals | static/js/lancamento_form.js:512 | appending an item adds its subtotal and passengers to the totals (see also lines 682-714) |
| OrderDraft.OrderDraftPage.constructor | static/js/lancamento_form.js:8-10 | the page starts with an empty draft, no service loaded, no transfer slots, no edit mode and the placeholder shown |
| OrderDraft.OrderDraftPage.ServiceLoaded | static/js/lancamento_form.js:112-137 | the loaded service's information is kept and the transfer slots restart |
| OrderDraft.OrderDraftPage.AddTransferSlot | static/js/lancamento_form.js:328-341 | one more transfer slot, labelled with the new count |
| OrderDraft.OrderDraftPage.RemoveTransferSlot | static/js/lancamento_form.js:353-356 | removing a slot lowers the count by one |
| OrderDraft.OrderDraftPage.StartEditing | static/js/lancamento_form.js:525-532 | edit mode starts only for an id the draft holds |
| OrderDraft.OrderDraftPage.ClearForm | static/js/lancamento_form.js:876-878 | clearing the form forgets the service, the transfer slots and edit mode |
| OrderDraft.OrderDraftPage.RefreshSummary | static/js/lancamento_form.js:665-777 | the summary panel then shows the totals of the current draft |
| OrderDraft.OrderDraftPage.RefreshListAsWritten | static/js/lancamento_form.js:609-662 | as written, an empty draft leaves the summary panel as it was |
| OrderDraft.OrderDraftPage.RefreshList | static/js/lancamento_form.js:609-662 | corrected `atualizarListaServicos`: the summary panel matches the draft after every refresh, the empty draft included |
| OrderDraft.OrderDraftPage.RefreshPreview | static/js/lancamento_form.js:789-841 | the preview shows the draft's itinerary, or the placeholder exactly when the draft is empty |
| OrderDraft.OrderDraftPage.AddService | static/js/lancamento_form.js:365-523 | a refused form changes nothing and reports the first failed check; an accepted one is added or replaces the edited item, the preview is refreshed and the form cleared; the list refresh as written updates the summary unless the draft is left empty, and an appended item always leaves the page consistent |
| OrderDraft.OrderDraftPage.Commit | static/js/lancamento_form.js:502-518 | the built item is added or replaces the edited one and the preview matches the draft; the list refresh as written updates the summary unless the draft is empty, where the old totals stay; an append always leaves the page consistent |
| OrderDraft.OrderDraftPage.RemoveService | static/js/lancamento_form.js:598-607 | corrected `removerServico`: an unconfirmed removal changes nothing; a confirmed one drops every item with the id and leaves summary and preview matching the draft |
| OrderDraft.OrderDraftPage.RemoveServiceAsWritten | static/js/lancamento_form.js:598-618 | as written, removing the last item leaves the old totals on the summary panel |
| OrderDraft.OrderDraftPage.LoadForEdit | static/js/lancamento_form.js:946-1003 | a non-empty list replaces the draft and the stored itinerary is shown, or one generated; an empty list changes nothing |
| OrderDraft.OrderDraftPage.ShowLoaded | static/js/lancamento_form.js:977-997 | the loaded items become the draft, with summary and preview refreshed |
| OrderDraft.OrderDraftPage.Save | static/js/lancamento_form.js:899-929 | nothing is sent for an empty draft; otherwise the draft and the preview's text go to the chosen URL |
| OrderDraft.SampleItemTotals | static/js/lancamento_form.js:598-618 | a one-passenger R$ 100,00 draft totals 1 passenger and R$ 100,00, and removing its item empties it (see also lines 682-714) |
| OrderDraft.StaleSummaryAsWritten | static/js/lancamento_form.js:598-661 | as written, emptying that draft still shows 1 passenger and R$ 100,00 |
| OrderDraft.SummaryClearedWhenEmptied | static/js/lancamento_form.js:598-618 | corrected, emptying that draft shows 0 passengers and R$ 0,00 (see also lines 675-679) |
| PreviewPricing.InfoOf | servicos/views.py:644-673 | the service information always carries both ends of the exemption range |
| PreviewPricing.ExemptClassMatchesServer | static/js/lancamento_form.js:241-265 | the page marks an age exempt exactly when the server's pricing loops skip it as exempt (exemption flag and range), unless the age is below the minimum (see also servicos/models.py:618-621) |
| PreviewPricing.ExemptClassBilledNothing | static/js/lancamento_form.js:241-265 | a child the page marks exempt is billed nothing by the server as written (see also servicos/models.py:669-695) |
| PreviewPricing.ChildClassWithoutHalfPricePaysFull | static/js/lancamento_form.js:268-274 | a child the page marks for the child rate, on a service without half price, pays on the server as written the full price, or nothing when its age lies in the exemption range of a service without exemption; corrected, always the full price (see also servicos/models.py:598-604) |
| PreviewPricing.AllAtChildRate | servicos/models.py:618-666 | when no child is exempt and all are in the child range, all pay the child rate |
| PreviewPricing.PreviewMatchesServer | static/js/lancamento_form.js:692-712 | with no exempt child and every child in the child range, the page's subtotal equals the server's line total as written (see also servicos/models.py:669-695) |
| PreviewPricing.PreviewChargesWhatServerExempts | static/js/lancamento_form.js:692-712 | for an exempt one-year-old the page shows R$ 50,00 while the server, as written, bills nothing (see also servicos/models.py:669-695) |
| Sidebar.Opened | static/js/configuracoes/sidebar.js:300-322 | opening leaves the sidebar open and touches nothing else |
| Sidebar.Closed | static/js/configuracoes/sidebar.js:328-346 | closing leaves the sidebar closed and touches nothing else |
| Sidebar.Toggled | static/js/configuracoes/sidebar.js:352-358 | toggling flips whether the sidebar is open |
| Sidebar.Expanded | static/js/configuracoes/sidebar.js:364-371 | on a phone nothing changes; on a desktop the sidebar ends expanded |
| Sidebar.Collapsed | static/js/configuracoes/sidebar.js:377-384 | on a phone nothing changes; on a desktop the sidebar ends collapsed |
| Sidebar.CollapseToggled | static/js/configuracoes/sidebar.js:390-396 | on a desktop the collapse flips; on a phone nothing changes |
| Sidebar.BreakpointChange | static/js/configuracoes/sidebar.js:244-265 | after a breakpoint change the sidebar is closed, and collapsed exactly on a desktop |
| Sidebar.Resize | static/js/configuracoes/sidebar.js:231-238 | a resize that stays on the same side of 992 pixels changes nothing; the mode then follows the width |
| Sidebar.InitialState | static/js/configuracoes/sidebar.js:423-434 | the initial state follows the width: a phone expanded, a desktop collapsed |
| Sidebar.OutsideClick | static/js/configuracoes/sidebar.js:204-225 | a set `justToggled` flag is only cleared; otherwise a phone closes on a click outside sidebar and toggle; a desktop collapses on a click outside sidebar and collapse button |
| Sidebar.EscKey | static/js/configuracoes/sidebar.js:193-197 | Escape closes the sidebar and any other key changes nothing |
| Sidebar.SidebarClick | static/js/configuracoes/sidebar.js:272-281 | on a desktop a link click in the collapsed sidebar expands it; otherwise nothing changes |
| Sidebar.NavLinkClick | static/js/configuracoes/sidebar.js:288-294 | on an open phone sidebar the `justToggled` flag is set; otherwise nothing changes |
| Sidebar.LinkClickAsDispatched | static/js/configuracoes/sidebar.js:121-141 | a link click bubbling from the link to the sidebar to the document ends with the `justToggled` flag cleared, so no later click is swallowed; otherwise it only expands a collapsed desktop sidebar, and an open phone sidebar is left for the timer to close |
| Sidebar.ToggleTwice | static/js/configuracoes/sidebar.js:352-358 | toggling twice restores the state |
| Sidebar.ToggleCollapseTwice | static/js/configuracoes/sidebar.js:390-396 | toggling the collapse twice restores the state |
| Sidebar.OpenCloseIdempotent | static/js/configuracoes/sidebar.js:300-346 | opening an open sidebar or closing a closed one changes nothing |
| Sidebar.ResizeIdempotent | static/js/configuracoes/sidebar.js:231-238 | a second resize to the same width changes nothing |
| Sidebar.PhoneNeverCollapses | static/js/configuracoes/sidebar.js:244-434 | no transition leaves a phone sidebar collapsed |
| Sidebar.CrossingBreakpointResets | static/js/configuracoes/sidebar.js:231-265 | after crossing the breakpoint the sidebar is closed, and collapsed exactly on a desktop |
| Sidebar.SettingsSidebar.constructor | static/js/configuracoes/sidebar.js:33-49 | the sidebar starts closed and collapsed, in the mode of the width |
| Sidebar.SettingsSidebar.HandleInitialState | static/js/configuracoes/sidebar.js:423-434 | the state becomes the initial state and the page's classes show it |
| Sidebar.SettingsSidebar.Open | static/js/configuracoes/sidebar.js:300-322 | the state becomes opened and the classes and the body lock show it |
| Sidebar.SettingsSidebar.Close | static/js/configuracoes/sidebar.js:328-346 | the state becomes closed and the classes and the body lock show it |
| Sidebar.SettingsSidebar.Toggle | static/js/configuracoes/sidebar.js:352-358 | the state becomes toggled and the classes show it |
| Sidebar.SettingsSidebar.Expand | static/js/configuracoes/sidebar.js:364-371 | the state becomes expanded and the classes show it |
| Sidebar.SettingsSidebar.Collapse | static/js/configuracoes/sidebar.js:377-384 | the state becomes collapsed and the classes show it |
| Sidebar.SettingsSidebar.ToggleCollapse | static/js/configuracoes/sidebar.js:390-396 | the collapse is toggled and the classes show it |
| Sidebar.SettingsSidebar.HandleBreakpointChange | static/js/configuracoes/sidebar.js:244-265 | the state is reset for the new mode and the classes show it |
| Sidebar.SettingsSidebar.HandleResize | static/js/configuracoes/sidebar.js:231-238 | the state follows the resize and the classes show it |
| Sidebar.SettingsSidebar.HandleOutsideClick | static/js/configuracoes/sidebar.js:204-225 | the state follows the outside-click rule and the classes show it |
| Sidebar.SettingsSidebar.HandleEscKey | static/js/configuracoes/sidebar.js:193-197 | the state follows the Escape rule and the classes show it |
| Sidebar.SettingsSidebar.HandleOverlayClick | static/js/configuracoes/sidebar.js:183-186 | a click on the overlay closes the sidebar |
| Sidebar.SettingsSidebar.HandleSidebarClick | static/js/configuracoes/sidebar.js:272-281 | the state follows the link-click expansion rule and the classes show it |
| Sidebar.SettingsSidebar.HandleNavLinkClick | static/js/configuracoes/sidebar.js:288-294 | a delayed close is scheduled and the flag set exactly on an open phone sidebar |
| Sidebar.SettingsSidebar.HandleLinkClickEvent | static/js/configuracoes/sidebar.js:121-141 | the link, sidebar and document listeners in bubbling order leave the flag cleared and the state as `LinkClickAsDispatched` states; a close is scheduled exactly on an open phone sidebar |
| AuditModels.Shown | audit_system/models.py:134-135 | a falsy value is shown as "(vazio)", any other as its text, and never as nothing |
| AuditModels.EntryText | audit_system/models.py:133-138 | an entry's text starts with its field name and a colon |
| AuditModels.EntryTexts | audit_system/models.py:131-139 | one text per recorded change |
| AuditModels.GetChangesDisplay | audit_system/models.py:124-140 | the loop over the changes builds exactly the display: the "no changes" message, or the entries' texts joined by "; " |
| AuditModels.NoChangesMessageIffEmpty | audit_system/models.py:128-140 | the "no changes" message is shown exactly when nothing was recorded |
| AuditModels.EntryTextsAt | audit_system/models.py:132-138 | the i-th text is the i-th entry's text, in the object's order |
| AuditModels.SingleEntryDisplay | audit_system/models.py:131-140 | a single change is shown on its own, without separators |
| AuditModels.GetClientIp | audit_system/models.py:201-210 | without a forwarded chain the socket address is logged; with one, a single address without commas, no longer than the chain, and the stripped chain itself when it has one hop |
| AuditModels.SplitFirstIsPrefix | audit_system/models.py:207 | the first piece of a split is no longer than the text |
| AuditModels.FirstHopOfChain | audit_system/models.py:205-207 | behind a chain of proxies the address logged is the first hop's, stripped |
| AuditModels.IsRecentInSeconds | audit_system/models.py:178-183 | the microsecond comparison agrees with comparing elapsed seconds against minutes times 60 |
| AuditModels.IsRecentMonotone | audit_system/models.py:178-183 | a record recent within a window is recent within any wider window and at any earlier moment |
| AuditModels.LogAction | audit_system/models.py:142-176 | the record carries the action, outcome and error; missing changes and extra data become empty; the object or an "Ação:" text describes it; an authenticated request user stands in for a missing user; the request supplies address, user agent (default "") and session, and without a request all three are empty |
| AuditSignals.Attr | audit_system/signals.py:36-37 | a field the instance lacks reads as None |
| AuditSignals.Stored | audit_system/signals.py:45-46 | None is stored as None and any other value as its text |
| AuditSignals.GetFieldChanges | audit_system/signals.py:26-49 | without an original nothing is reported; otherwise the changes over the model's fields |
| AuditSignals.FieldChangesEntries | audit_system/signals.py:33-47 | every entry is a field of the model that changed, recorded as its stored old and new values |
| AuditSignals.FieldReportedIffChanged | audit_system/signals.py:34-47 | a field has an entry exactly when it is not a timestamp and its old and new values differ |
| AuditSignals.ReportedFieldHasEntry | audit_system/signals.py:43-47 | a changed field's entry is its stored old and new values |
| AuditSignals.TimestampsNeverReported | audit_system/signals.py:39-41 | the four timestamp fields never appear among the changes |
| AuditSignals.NoChangesAgainstItself | audit_system/signals.py:43 | an instance compared with itself has no changes |
| AuditSignals.FieldChangesAreKeyed | audit_system/signals.py:33-47 | no field is recorded twice |
| AuditSignals.ChangedTextFieldDisplay | audit_system/signals.py:44-47 | a text field changed between two non-empty values is shown as "field: old → new" (see also audit_system/models.py:133-136) |
| AuditSignals.ClearedFieldDisplay | audit_system/signals.py:44-47 | a field cleared to None is shown with "(vazio)" on the new side (see also audit_system/models.py:133-136) |
| AuditSignals.OriginalKey | audit_system/signals.py:61-113 | the store's key starts with "user_" or "group_" |
| AuditSignals.OriginalKeysDiffer | audit_system/signals.py:61-113 | different users or groups never share a key in the store |
| AuditSignals.AuditTrail.constructor | audit_system/signals.py:53 | the store of originals and the log start empty |
| AuditSignals.AuditTrail.StoreOriginal | audit_system/signals.py:56-115 | an instance with a truthy key and a stored row has that row remembered under its key; otherwise the store is unchanged |
| AuditSignals.AuditTrail.LogChanges | audit_system/signals.py:66-139 | a creation logs one record with no changes; an update pops its original and logs one record with the changes, or nothing when there are none |
| AuditSignals.AuditTrail.Save | audit_system/signals.py:56-139 | a whole save leaves no original behind, and an update is logged exactly when some field changed |
| AuditSignals.AuditTrail.LogUserActivation | audit_system/signals.py:211-219 | one record is appended with the activation action and the change of is_active from the opposite value to the new one |
| AuditSignals.ActivationDisplay | audit_system/signals.py:218 | an activation is shown as "is_active: (vazio) → True" and a deactivation as "is_active: True → (vazio)", because the recorded False is falsy (see also audit_system/models.py:133-136) |
| AuditSignals.SavedBooleanDisplay | audit_system/signals.py:44-47 | a boolean changed through a save is stored as text and shows both sides (see also audit_system/models.py:133-136) |

## Left out

- Floating point: prices and totals are integer cents. `parseFloat`, `toFixed`, `float()` and `Decimal` rounding are not modelled.
- Text approximations:
  - Python's Unicode digits and Unicode whitespace are modelled by their ASCII counterparts;
  - JavaScript's `trim()` is modelled by the same whitespace set as Python's `strip()`;
  - JavaScript's string order compares UTF-16 code units, modelled as comparing characters.
- `parseInt` on arbitrary text is not modelled: numeric inputs arrive as an integer or as "not a number".
- Common.PyParseInt: accepts an optional sign and ASCII digits only. Python's `int()` also accepts underscores between digits (`int("1_0")` is 10), so an order number or an age written that way is read as no integer here.
- The database's `order_by('data_servico')` in `gerar_roteiro`: the line items arrive in the order the query returns them. ServiceModels.GerarRoteiro groups them in whatever order they come, and ServiceModels.SortedGroupingKeepsOrder and ServiceModels.DatesAscending state what that order gives when it is by date.
- ServiceModels.QtdInfantilIsentas, ServiceModels.QtdInfantilPagas, ServiceModels.QtdInfantilPagamInteira, ServiceModels.ValorTotal and ServiceModels.ChildrenAccountedFor are the corrected server pricing, not the code as written. The class `LancamentoServico` follows the code as written, and ServiceModels.ValorTotalAsWrittenVsCorrected states where the two differ.
- OrderDraft.OrderDraftPage.RefreshList and OrderDraft.OrderDraftPage.RemoveService are the corrected list refresh. The add path (`Commit`, `AddService`, `ShowLoaded`) and OrderDraft.OrderDraftPage.RemoveServiceAsWritten use the refresh as written.
- Non-integer JSON: the hidden JSON fields of the line-item form arrive as blank, malformed or a list of integers. A list holding other values is not modelled.
- Network: the service-information, half-price-type and transfer lookups, ViaCEP, the POST of the draft and its response handling. Their results are parameters, or are left out.
- The database and the ORM:
  - the last order number of the year, the stored original row and the service catalogue are parameters;
  - querysets, `objects.create` and the `tipos_meia_entrada.set` of a saved line item are not modelled.
- The clock: `Date.now()`, `timezone.now()` and the year are parameters. Timestamps are counted in microseconds, and `total_seconds()` rounding is not modelled.
- Weekday names and `strftime` in `gerar_roteiro`: each line item carries the heading of its date as an input, and a date's heading is taken from its first line item.
- The DOM: HTML building, CSS classes other than the sidebar's state classes, alerts, scrolling and focus. The form refill in `editarServico` runs through `setTimeout` chains and is not modelled.
- Sidebar timing and I/O:
  - the delayed close that `handleNavLinkClick` schedules is reported by its return value, not performed;
  - the clock poll (`static/js/configuracoes/sidebar.js:460-487`) and the custom events are not modelled.
- The thread-local request of the audit signals (`audit_system/signals.py:13-23`) is passed as a parameter.
- Other audit handlers are not modelled, because each is a plain `log_action` call on the record assembly already modelled. These are the deletion, login, logout, failed-login, password, membership, permission, export, settings and custom-event handlers.
- AuditModels.EntryText: a change that is not an old/new pair is modelled for scalar JSON values only. Python's `str()` of a nested dictionary or list is not modelled.
- AuditModels.LogAction: the `max_length` truncation of the character columns and the record's `__str__` are not modelled.
- Type-broken branches that cannot run as intended are not modelled:
  - `.count()` on a text field (`servicos/models.py:767-770`);
  - iterating the raw ages string (`servicos/models.py:803`);
  - an attribute the settings model lacks (`company_settings/models.py:369`).
- `gerar_texto_whatsapp`, the management views, templates, admin classes and seed scripts are request handling or presentation around the rules modelled here.

## Findings

| source | as written | input that shows it | evidently intended | confidence | as-written member | corrected member |
|---|---|---|---|---|---|---|
| company_settings/forms.py:111-117 | the second CNPJ check digit uses twelve weights starting at 6, zipped against thirteen characters, so the first check digit never takes part | "77766483000164", the whitelisted company CNPJ typed without punctuation: the form expects "65" and rejects it | the Receita Federal second digit, weights 6,5,4,3,2,9,8,7,6,5,4,3,2 over the twelve base digits and the first check digit, as `validateCNPJ` computes it | not executed | CompanyForms.AsWrittenRejectsCompanyCnpj | CompanyForms.CorrectedAcceptsCompanyCnpj |
| servicos/models.py:560-580 | `qtd_infantil_isentas` counts ages in the exemption range without checking `possui_isencao` | a service without exemption, no half price, default range 0..0, one child aged 0 at R$ 100,00: the line total is R$ 0,00 | only services with an exemption exempt children, as `qtd_infantil_pagam_inteira` and `qtd_infantil_pagam_infantil` check; the line costs R$ 100,00 | not executed | ServiceModels.ExemptionFlagIgnoredAsWritten | ServiceModels.QtdInfantilIsentas |
| servicos/forms.py:347-351 | `save` assigns the parsed JSON list to the text field `idades_criancas`, which stores `str(list)` such as "[3, 5]" | ages [3, 5]: the stored text's first piece "[3" is not an integer, so `get_idades_lista` reads no ages | the comma-separated form the order views store (`servicos/views.py:379`), which reads back as the same ages | not executed | LaunchForm.FormSavedAgesAreLost | LaunchForm.AcceptedAgesReadBack |
| static/js/lancamento_form.js:609-618, 661 | `atualizarListaServicos` returns early on an empty list, before calling `atualizarResumoTotais` | a draft with one full-price passenger at R$ 100,00, whose only item is removed: the panel still shows 1 passenger and R$ 100,00 | the summary refreshed for every list, showing 0 passengers and R$ 0,00 when empty | not executed | OrderDraft.StaleSummaryAsWritten | OrderDraft.SummaryClearedWhenEmptied |
