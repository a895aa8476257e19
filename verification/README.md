# Cameroonian accounting localisation — a Dafny model

This project models the core of `l10n_cm_accounting`, an Odoo module that adapts
accounting to Cameroon (OHADA / SYSCOHADA chart, FCFA, mobile money). The model
covers ten parts of the module, one Dafny module each:

- **The fiscal declaration wizard** (`Declarations`). It resolves the declaration
  period from the periodicity, the year and the month or quarter. It computes the
  DSF, DIPE, corporate-tax (IS), monthly VAT and withholding figures from the
  posted journal items. It moves from draft to computed, PDF generated and
  submitted.
- **The spreadsheet import of journal entries** (`MoveImport`, with `DateParsing`).
  - Before any row is read, it checks the columns.
  - It drops the rows that have no date or no account.
  - It groups the rows by reference. A row without a reference forms a group on
    its own.
  - Each group is checked in turn: a date that parses, a journal, a debit/credit
    balance within 0.01, and accounts that exist.
  - It creates the fiscal year that covers each move's date when none does.
  - It counts successes and errors and keeps an error log.

  As written, line 160 of `account_move_import.py` fills the missing references
  with `df.index`, which `Series.fillna` refuses, so every import that passes the
  column checks fails (see "## Findings"). `MoveImport.ImportAsWritten` models
  that behaviour. The wizard (`ActionImportMoves`, `ImportGroups` and the
  grouping functions) models the import with line 160 corrected: a missing
  reference is replaced by the row's own index.
- **Partner validators** (`Partners`):
  - the taxpayer-identifier pattern and the mobile-money number pattern;
  - the turnover check and the VAT-threshold flag;
  - the recommended tax regime;
  - the mobile-money configuration.
- **The point-of-sale mobile-money limit check** (`PosMobileMoney`).
- **Fixed assets** (`Assets`): the `IMM/` numbering, the SYSCOHADA category
  rates and lifetimes, and the straight-line depreciation schedule.
- **Budgets** (`Budgets`): realized amounts from the posted ledger, variances
  and totals, and the state buttons.
- **Tax reminders** (`TaxReminders`): the daily cron selection, notification,
  the closing actions and the calendar created for a year.
- **The cash-transfer wizard** (`CashTransfer`).
- **The default Cameroonian journals** (`Journals`).
- **The fiscal-year table** (`FiscalYears`).

`Base`, `Dates` and `Ledger` hold shared definitions:

- Python's proleptic Gregorian `date`, limited to years 1 to 9999, with its
  ordinal day number;
- the posted journal items a declaration or a budget reads;
- the moves the wizards create.

Records that the source updates in place are classes:

- the declaration wizard, the import wizard, assets, budgets and the asset
  sequence;
- the fiscal-year, journal, partner and reminder tables.

Computations are functions, and each method is proved against them.

Amounts are Dafny `real`s. A raised `UserError` or `ValidationError` rolls back
the transaction, so it is modelled as an `Err` result with the state left
unchanged.

## Model

| member | source | states |
|---|---|---|
| Ledger.CreditTotal | l10n_cm_accounting/wizards/declaration_wizard.py:150-181 | the credit total over posted lines of the company and period on the selected accounts is never negative, and it is positive only if some such line has a credit |
| Ledger.DebitTotal | l10n_cm_accounting/wizards/declaration_wizard.py:150-181 | the same for debits |
| Ledger.CreditTotalIgnoresOutOfScope | l10n_cm_accounting/wizards/declaration_wizard.py:152-160 | lines of another company, outside the period or not posted never change a declaration total |
| Ledger.DebitTotalIgnoresOutOfScope | l10n_cm_accounting/wizards/declaration_wizard.py:152-160 | the same for debit totals |
| Declarations.PeriodTypeFor | l10n_cm_accounting/wizards/declaration_wizard.py:85-93 | monthly VAT forces a monthly period; DSF and IS force an annual one; DIPE forces a quarterly one; withholding keeps the current periodicity |
| Declarations.QuarterMonths | l10n_cm_accounting/wizards/declaration_wizard.py:108-118 | a quarter spans three consecutive months and starts on month 1, 4, 7 or 10 |
| Declarations.MonthSpan | l10n_cm_accounting/wizards/declaration_wizard.py:96-122 | a year outside 1..9999 is the ValueError of `date`; otherwise the span runs from the first day of the start month to the last day of the end month |
| Declarations.ResolvePeriod | l10n_cm_accounting/wizards/declaration_wizard.py:96-122 | the dates are left alone exactly when the year is unset, the period type is unset, or the month (monthly) or quarter (quarterly) is missing; otherwise the result is two valid, ordered dates of the fiscal year, from day 1 to the month's last day, over the whole year, the chosen month or the chosen quarter |
| Declarations.MonthlyPeriodsPartitionYear | l10n_cm_accounting/wizards/declaration_wizard.py:96-122 | a date of the year lies in the monthly period of month m exactly when its month is m |
| Declarations.QuarterIsItsThreeMonths | l10n_cm_accounting/wizards/declaration_wizard.py:96-122 | a date of the year lies in a quarter's period exactly when its month is one of the quarter's three |
| Declarations.VatDeclarationFigures | l10n_cm_accounting/wizards/declaration_wizard.py:309-344 | net VAT is collected VAT minus deductible VAT; both are non-negative; sales, purchases, withholding and corporate tax are untouched |
| Declarations.DsfFigures | l10n_cm_accounting/wizards/declaration_wizard.py:150-211 | the DSF changes only sales, purchases and the three VAT figures |
| Declarations.DsfDeclarationFigures | l10n_cm_accounting/wizards/declaration_wizard.py:150-211 | net VAT is collected minus paid; sales are the class-7 credits and purchases the class-6 debits, both non-negative; collected VAT is the credit total on 443000 and paid VAT the debit total on 445000 when that account is in the chart, and each otherwise keeps its previous value; withholding and corporate tax are unchanged |
| Declarations.DipeFigures | l10n_cm_accounting/wizards/declaration_wizard.py:213-243 | the DIPE changes only sales and the DIPE amount, kept in the corporate-tax field |
| Declarations.IsFigures | l10n_cm_accounting/wizards/declaration_wizard.py:245-307 | the IS changes only corporate tax, sales and purchases |
| Declarations.VatFigures | l10n_cm_accounting/wizards/declaration_wizard.py:309-346 | the VAT return changes only the three VAT figures |
| Declarations.WithholdingFigures | l10n_cm_accounting/wizards/declaration_wizard.py:348-371 | the withholding declaration changes only the withholding tax |
| Declarations.WithholdingDeclarationFigures | l10n_cm_accounting/wizards/declaration_wizard.py:348-371 | the withholding tax is the credit total on the 421 accounts over the period's posted lines, never negative; every other figure is unchanged |
| Declarations.ComputeFigures | l10n_cm_accounting/wizards/declaration_wizard.py:124-137 | each declaration type changes only its own figures: withholding tax only for the withholding declaration, VAT only for the DSF and the VAT return, corporate tax only for DIPE and IS, sales and purchases never for the VAT or withholding declarations, purchases never for DIPE |
| Declarations.DipeIsRateTimesSales | l10n_cm_accounting/wizards/declaration_wizard.py:213-241 | DIPE is 2.2 % of the period's sales, and neither is negative |
| Declarations.CorporateTaxRule | l10n_cm_accounting/wizards/declaration_wizard.py:245-305 | IS is zero for a non-positive result; otherwise it is 25 % or 30 % of the result, the rate chosen by the turnover held before the computation |
| Declarations.CorporateTaxSettlesOnSecondRun | l10n_cm_accounting/wizards/declaration_wizard.py:245-305 | from the second computation on, the rate follows the period's own sales, and recomputing changes nothing |
| Declarations.CorporateTaxFirstRunCanDiffer | l10n_cm_accounting/wizards/declaration_wizard.py:245-305 | a 2 billion profit is taxed 500 million on a first computation from zero turnover and 600 million on the second |
| Declarations.DsfAndVatDisagreeOnSubAccounts | l10n_cm_accounting/wizards/declaration_wizard.py:150-211 | the DSF reads collected VAT on account 443000 only, while the VAT return reads every 443 account, so a credit on 443100 counts for the latter alone |
| Declarations.Next | l10n_cm_accounting/wizards/declaration_wizard.py:373-405 | computing always succeeds; a PDF can be generated only from the computed state, and only when the report renders; submission is possible only from the PDF-generated state |
| Declarations.SubmittedOnlyInOrder | l10n_cm_accounting/wizards/declaration_wizard.py:124-405 | in any sequence of button presses, a computed state needs an earlier compute; a PDF needs a compute followed by a rendered PDF; a submission needs a compute, then a PDF, then a submit, in that order |
| Declarations.Run | l10n_cm_accounting/wizards/declaration_wizard.py:124-405 | a wizard is still a draft after a sequence of button presses exactly when none of them was a compute |
| Declarations.DeclarationWizard.constructor | l10n_cm_accounting/wizards/declaration_wizard.py:16-83 | a new wizard is a draft DSF for the current year with monthly periodicity, no month or quarter, and all amounts zero |
| Declarations.DeclarationWizard.OnchangeDeclarationType | l10n_cm_accounting/wizards/declaration_wizard.py:85-93 | the periodicity becomes the one the declaration type imposes; nothing else changes |
| Declarations.DeclarationWizard.OnchangePeriod | l10n_cm_accounting/wizards/declaration_wizard.py:95-122 | the dates become the resolved period, stay as they were when there is nothing to resolve, and a year outside 1..9999 fails and changes nothing |
| Declarations.DeclarationWizard.SetAmounts | l10n_cm_accounting/wizards/declaration_wizard.py:66-73 | the amount fields hold exactly the given figures |
| Declarations.DeclarationWizard.ComputeDeclaration | l10n_cm_accounting/wizards/declaration_wizard.py:124-139 | the amounts become those of the declaration type over the wizard's period and company, and the state becomes computed |
| Declarations.DeclarationWizard.GeneratePdf | l10n_cm_accounting/wizards/declaration_wizard.py:373-396 | succeeds exactly from the computed state with a rendered report, moves to the next state, and otherwise leaves the state unchanged |
| Declarations.DeclarationWizard.SubmitDeclaration | l10n_cm_accounting/wizards/declaration_wizard.py:398-405 | succeeds exactly from the PDF-generated state and moves to submitted; otherwise leaves the state unchanged |
| Journals.MissingDefaults | l10n_cm_accounting/models/account_journal.py:71-79 | creates at most one journal per template, each for the company and each under a code the company does not have yet |
| Journals.MissingDefaultsCodes | l10n_cm_accounting/models/account_journal.py:36-79 | every created journal is one of the templates instantiated for the company |
| Journals.MissingTemplateIsCreated | l10n_cm_accounting/models/account_journal.py:71-79 | a template whose code is missing has its journal created |
| Journals.NothingMissing | l10n_cm_accounting/models/account_journal.py:71-79 | when every code is present, nothing is created |
| Journals.DefaultCodesAreDistinct | l10n_cm_accounting/models/account_journal.py:36-69 | the five default templates have five different codes |
| Journals.MissingDefaultsStep | l10n_cm_accounting/models/account_journal.py:72-77 | each further template adds its journal exactly when its code is missing from the company |
| Journals.CreatedKeepCodeMissing | l10n_cm_accounting/models/account_journal.py:72-77 | with distinct template codes, the journals created so far never make a later template's code present |
| Journals.AllDefaultsPresent | l10n_cm_accounting/models/account_journal.py:32-79 | after the creation, the company has all five codes VTE, ACH, CAI, OMO and MTN |
| Journals.CreationIsIdempotent | l10n_cm_accounting/models/account_journal.py:32-79 | a second creation creates nothing |
| Journals.JournalBook.CreateCameroonDefaultJournals | l10n_cm_accounting/models/account_journal.py:32-79 | appends exactly the missing default journals to the table, in template order, and keeps the existing ones |
| FiscalYears.FiscalYearBook.Create | l10n_cm_accounting/models/cm_fiscal_year.py:10-29 | a new open year is appended exactly when its start is not after its end and no year has the same company, start and end; otherwise the table is unchanged; the table stays well formed |
| FiscalYears.CloseRefused | l10n_cm_accounting/models/cm_fiscal_year.py:31-35 | closing fails when a selected year is already closed or is selected a second time |
| FiscalYears.ClosingKeepsWellFormed | l10n_cm_accounting/models/cm_fiscal_year.py:19-35 | closing years changes no date, company or key, so the date check and the uniqueness constraint still hold |
| FiscalYears.FiscalYearBook.Close | l10n_cm_accounting/models/cm_fiscal_year.py:31-35 | closing succeeds exactly when every selected year is open and none is selected twice; it then closes exactly the selected years; otherwise nothing changes |
| DateParsing.Strptime | l10n_cm_accounting/models/account_move_import.py:263-267 | every date it returns is a valid calendar date |
| DateParsing.DayField | l10n_cm_accounting/models/account_move_import.py:263-267 | a day field is 1 to 31; a space followed by a digit 1 to 9 is read as that digit, and a space followed by anything else is refused |
| DateParsing.SpacePaddedDayReadsBack | l10n_cm_accounting/models/account_move_import.py:263-267 | an ISO date whose day below 10 is written as a space and a digit parses back to that date |
| DateParsing.SpacePaddedMonthRejected | l10n_cm_accounting/models/account_move_import.py:263-267 | a month field that starts with a space is refused, `%m` having no space-padded form |
| DateParsing.ParseDate | l10n_cm_accounting/models/account_move_import.py:256-270 | datetimes and dates are returned as the date; text parses exactly when one of the three formats matches; any other type is the error "Type de date invalide: <class '...'>" naming that type |
| DateParsing.IsoFormatReadsBack | l10n_cm_accounting/models/account_move_import.py:256-270 | every date written as YYYY-MM-DD parses back to itself |
| DateParsing.DayFirstFormatReadsBack | l10n_cm_accounting/models/account_move_import.py:256-270 | every date written as DD/MM/YYYY or DD-MM-YYYY parses back to itself |
| DateParsing.DayFirstIsNotIso | l10n_cm_accounting/models/account_move_import.py:263-267 | a day-first date never matches the ISO format, so the order of the formats cannot swap a day and a year |
| MoveImport.MissingColumns | l10n_cm_accounting/models/account_move_import.py:148-152 | lists exactly the required columns that the sheet lacks |
| MoveImport.Clean | l10n_cm_accounting/models/account_move_import.py:154-157 | keeps only rows that have a date and an account, in sheet order, with missing debits and credits read as 0 |
| MoveImport.KeptRowsSurvive | l10n_cm_accounting/models/account_move_import.py:154-157 | every row that has a date and an account survives the cleaning |
| MoveImport.Keys | l10n_cm_accounting/models/account_move_import.py:159-162 | the group keys are distinct, every row has its key among them, and every key comes from a row |
| MoveImport.Members | l10n_cm_accounting/models/account_move_import.py:159-162 | a group holds only rows with its key and is empty exactly when no row has the key |
| MoveImport.Groups | l10n_cm_accounting/models/account_move_import.py:159-162 | no two groups share a key; every row of a group has the group's key and is one of the cleaned rows |
| MoveImport.MembersComplete | l10n_cm_accounting/models/account_move_import.py:159-162 | every row with a key is a member of that key's group |
| MoveImport.MembersInSheetOrder | l10n_cm_accounting/models/account_move_import.py:154-162 | a group keeps its rows in sheet order |
| MoveImport.GroupsAreNonEmpty | l10n_cm_accounting/models/account_move_import.py:159-162 | every group is non-empty and all its rows share its key |
| MoveImport.EveryEntryInOneGroup | l10n_cm_accounting/models/account_move_import.py:159-162 | every row is a member of the group of its own key, belongs to no group with another key, and no two groups share a key |
| MoveImport.UnreferencedRowIsAlone | l10n_cm_accounting/models/account_move_import.py:160 | a row without a reference is grouped under its own row index, alone |
| MoveImport.SheetGroups | l10n_cm_accounting/models/account_move_import.py:154-162 | every grouped row is a sheet row with a date and an account, and carries that row's date and account |
| MoveImport.SheetError | l10n_cm_accounting/models/account_move_import.py:142-160 | the import stops before any group exactly when one of the six required columns or the Reference column is missing, with a message that starts "Erreur lors de l'import: " |
| MoveImport.CleanedGroupsHaveDates | l10n_cm_accounting/models/account_move_import.py:155-199 | after cleaning, every group is non-empty and its first row has a date, so neither "Groupe vide" nor "Date manquante" can occur |
| MoveImport.ResolveJournal | l10n_cm_accounting/models/account_move_import.py:210-215 | the journal is the first one with the row's code, or else the default journal; none is found exactly when there is no default and the code is empty or unknown |
| MoveImport.OccursFromIffSomePosition | l10n_cm_accounting/models/account_move_import.py:288-290 | the left-to-right search finds the text exactly when it occurs at some position at or after the starting one |
| MoveImport.LowerAll | l10n_cm_accounting/models/account_move_import.py:288-290 | lowers every character and keeps the length |
| MoveImport.ResolvePartner | l10n_cm_accounting/models/account_move_import.py:284-290 | a partner found matches the text by reference or by case-insensitive substring of the name; when none is found, no partner matches |
| MoveImport.GroupHeader | l10n_cm_accounting/models/account_move_import.py:196-215 | succeeds exactly when the group is not empty, its first row's date parses and a journal is found; the header then carries that date and journal |
| MoveImport.MoveRef | l10n_cm_accounting/models/account_move_import.py:231 | the move's ref is the first row's reference, or "nan" when it has none |
| MoveImport.MoveLines | l10n_cm_accounting/models/account_move_import.py:235-250 | one line per row, in order, when every account exists; otherwise the error names the first row whose account is unknown |
| MoveImport.MoveLinesStopsAt | l10n_cm_accounting/models/account_move_import.py:235-250 | when every earlier row's account exists and this row's does not, the lines fail with "Compte <code> introuvable" for this row |
| MoveImport.MoveFromGroup | l10n_cm_accounting/models/account_move_import.py:196-254 | a move is created exactly when the header succeeds, the balance is within 0.01 and every account exists; it is a draft on the header's journal and date, carrying one line per row |
| MoveImport.AcceptedMoveIsNearlyBalanced | l10n_cm_accounting/models/account_move_import.py:220-250 | an accepted move's debit and credit totals are the group's and differ by at most 0.01 |
| MoveImport.LinesCarryTotals | l10n_cm_accounting/models/account_move_import.py:236-250 | lines written one per row carry the rows' debit and credit totals |
| MoveImport.NewYear | l10n_cm_accounting/models/account_move_import.py:301-308 | the created year is open and belongs to the company, running from 1 January to 31 December of the date's year |
| MoveImport.NewYearIsUnique | l10n_cm_accounting/models/account_move_import.py:292-308 | when no year covers the date, the created year clashes with no existing (company, start, end) |
| MoveImport.EnsureYearCovers | l10n_cm_accounting/models/account_move_import.py:292-310 | afterwards a year of the company covers the date; existing years are kept, and the table stays well formed |
| MoveImport.YearsAfterGroup | l10n_cm_accounting/models/account_move_import.py:207-218 | one group adds at most one fiscal year and keeps the existing ones; a group whose date or journal fails adds none; otherwise the table stays well formed and a year of the company covers the group's date |
| MoveImport.Outcomes | l10n_cm_accounting/models/account_move_import.py:162-169 | one outcome (a move or the error raised) per group |
| MoveImport.OutcomeAt | l10n_cm_accounting/models/account_move_import.py:162-169 | the outcome of each group is what creating a move from that group's rows gives |
| MoveImport.EveryGroupCounted | l10n_cm_accounting/models/account_move_import.py:162-169 | accepted moves plus log lines equal the number of groups |
| MoveImport.NoErrorsIffAllAccepted | l10n_cm_accounting/models/account_move_import.py:162-179 | the error log is empty exactly when every group gives a move |
| MoveImport.LogLine | l10n_cm_accounting/models/account_move_import.py:167 | the log line is "Référence ", the key, ": " and the exception's message |
| MoveImport.Tally | l10n_cm_accounting/models/account_move_import.py:162-169 | after one more group the moves, the log lines and the two counts are those of the groups tried so far |
| MoveImport.ImportCoversAcceptedDates | l10n_cm_accounting/models/account_move_import.py:162-169 | the import only adds fiscal years, keeps the table well formed, and leaves every accepted move's date covered by a year of the company |
| MoveImport.FillReferenceAsWritten | l10n_cm_accounting/models/account_move_import.py:160 | filling missing references with the index, as written, always raises the pandas TypeError; its message names a RangeIndex when the cleaning dropped no row and an Index otherwise |
| MoveImport.CleanedIndex | l10n_cm_accounting/models/account_move_import.py:155-160 | the index after the cleaning stays a RangeIndex exactly when no row is dropped; otherwise it lists the labels of the kept rows, in order |
| MoveImport.ImportAsWritten | l10n_cm_accounting/models/account_move_import.py:142-194 | as written, every sheet ends in an error whose message starts with "Erreur lors de l'import: " |
| MoveImport.ImportAsWrittenNeverGroups | l10n_cm_accounting/models/account_move_import.py:142-194 | as written, no sheet is ever imported: a sheet that fails the column checks gets that error, and any other sheet fails with "Erreur lors de l'import: " and the TypeError, naming RangeIndex exactly when no row was dropped |
| MoveImport.MoveImportWizard.constructor | l10n_cm_accounting/models/account_move_import.py:21-32 | a new import is a draft with no log and zero counts |
| MoveImport.MoveImportWizard.GetOrCreateFiscalYear | l10n_cm_accounting/models/account_move_import.py:292-310 | returns a year of the company that covers the date, creating the calendar year only when none does |
| MoveImport.MoveImportWizard.CreateMoveFromGroup | l10n_cm_accounting/models/account_move_import.py:196-254 | returns the move or the error of the group; the fiscal year is created whenever the header steps pass, even if the group is then rejected |
| MoveImport.MoveImportWizard.BuildLines | l10n_cm_accounting/models/account_move_import.py:235-250 | builds the lines of the group, or the error of its first unknown account |
| MoveImport.MoveImportWizard.ActionImportMoves | l10n_cm_accounting/models/account_move_import.py:133-194 | with the fill of line 160 corrected (ImportAsWritten is the import as written): fails with nothing changed exactly when there is no file, a required column is missing or there is no Reference column; otherwise it returns the moves of the groups that go through, logs one line per rejected group, sets the two counts (their sum is the number of groups), and ends imported exactly when there is no error |
| MoveImport.MoveImportWizard.ImportGroups | l10n_cm_accounting/models/account_move_import.py:162-169 | with the fill of line 160 corrected (ImportAsWritten is the import as written): goes through the groups in order: the moves of those that go through, one "Référence <key>: <message>" line per rejected one, both counts, and the fiscal years each group's creation leaves behind |
| CashTransfer.Domains | l10n_cm_accounting/wizards/cash_transfer_wizard.py:44-63 | each transfer type offers its source and destination journals: cash to bank, bank to cash, cash or bank to mobile-money, bank to bank |
| CashTransfer.TransferRef | l10n_cm_accounting/wizards/cash_transfer_wizard.py:96-100 | the reference starts with the wizard's name; for mobile money it adds the operator and, when given, the transaction id |
| CashTransfer.ActionTransfer | l10n_cm_accounting/wizards/cash_transfer_wizard.py:65-103 | refused exactly for a non-positive amount or identical journals; otherwise a posted move on the source journal debits the destination's default account and credits the source's by the amount |
| CashTransfer.TransferIsBalanced | l10n_cm_accounting/wizards/cash_transfer_wizard.py:76-94 | every transfer that goes through is balanced and moves a positive amount |
| CashTransfer.MobileMoneyDefaultsFitBothSides | l10n_cm_accounting/wizards/cash_transfer_wizard.py:44-73 | the default OMO and MTN journals are offered as both source and destination of a mobile-money transfer; a transfer from one to itself is refused, and a positive one from one to the other goes through, debiting the destination journal's default account and crediting the source's, for any default accounts the journals carry |
| Partners.UpperChar | l10n_cm_accounting/models/res_partner.py:124-132 | upper-cases exactly the ASCII lower-case letters |
| Partners.CheckTaxpayerIdentifier | l10n_cm_accounting/models/res_partner.py:121-132 | an empty identifier is never refused |
| Partners.TaxpayerIdentifierAccepted | l10n_cm_accounting/models/res_partner.py:121-132 | an identifier is accepted exactly when it is empty or is a P or p, nine digits and an ASCII letter of either case, optionally followed by one final newline |
| Partners.TaxpayerIdentifierAcceptedExamples | l10n_cm_accounting/models/res_partner.py:121-132 | "P123456789A" and its lower-case form are accepted |
| Partners.TaxpayerIdentifierTooShortRejected | l10n_cm_accounting/models/res_partner.py:121-132 | every non-empty identifier shorter than eleven characters (such as "P12345678A", with eight digits) is refused |
| Partners.TaxpayerIdentifierFinalDigitRejected | l10n_cm_accounting/models/res_partner.py:121-132 | every eleven-character identifier ending in a digit (such as "P1234567890") is refused |
| Partners.StripSeparators | l10n_cm_accounting/models/res_partner.py:139-141 | the result has no spaces or hyphens and is no longer than the number |
| Partners.StripGroupedNumber | l10n_cm_accounting/tests/test_mobile_money.py:15-30 | a number written as a prefix and four groups separated by single spaces, as the tests write it, loses only the spaces |
| Partners.StripKeepsPlainNumber | l10n_cm_accounting/models/res_partner.py:139-141 | a number without separators is kept as it is |
| Partners.StripIsIdempotent | l10n_cm_accounting/models/res_partner.py:139-141 | stripping twice equals stripping once |
| Partners.StripAppend | l10n_cm_accounting/models/res_partner.py:139-141 | stripping distributes over concatenation |
| Partners.CheckMobileMoneyNumber | l10n_cm_accounting/models/res_partner.py:134-147 | a partner without an operator or without a number is never refused |
| Partners.MobilePattern | l10n_cm_accounting/models/res_partner.py:142-147 | an accepted number is 8 to 14 characters long |
| Partners.PrefixIsOptional | l10n_cm_accounting/models/res_partner.py:142-147 | a subscriber number (2, 3, 4, 5, 6, 7 or 8 and then 7 or 8 digits) is accepted bare, with +237 and with 237 |
| Partners.AcceptedNumberShape | l10n_cm_accounting/models/res_partner.py:142-147 | an accepted number is 8 to 13 characters (one final newline aside), all digits except a possible leading + |
| Partners.PrefixedNumberShape | l10n_cm_accounting/models/res_partner.py:142-147 | a 237 or +237 prefix followed by a subscriber part is 11 to 13 characters, all digits except a possible leading + |
| Partners.MobileMoneyAcceptedExample | l10n_cm_accounting/tests/test_mobile_money.py:15-22 | "+237 655 12 34 56" is accepted for Orange |
| Partners.MobileMoneyRejectedExample | l10n_cm_accounting/tests/test_mobile_money.py:24-30 | "+237 123 45 67 89" is refused |
| Partners.CheckAnnualTurnover | l10n_cm_accounting/models/res_partner.py:149-154 | refuses exactly a negative turnover |
| Partners.RecommendedRegime | l10n_cm_accounting/models/res_partner.py:156-186 | the regime is flat-rate up to 15 M, synthetic up to 100 M, simplified real up to 1 billion, and normal real above that; it is never the liberatory regime |
| Partners.RegimeIsMonotone | l10n_cm_accounting/models/res_partner.py:166-186 | a larger turnover never gets a lighter regime |
| Partners.VatLiablePartnerIsNotForfaitaire | l10n_cm_accounting/models/res_partner.py:115-186 | a partner above the 50 M VAT threshold is never recommended the flat-rate regime |
| Partners.MobileMoneyConfigOf | l10n_cm_accounting/models/res_partner.py:188-218 | no configuration without an operator and a number; an empty entry exactly for an operator outside the four known ones; otherwise that operator's entry |
| Partners.ServiceCodesAreDistinct | l10n_cm_accounting/models/res_partner.py:194-218 | two different operators have different service codes |
| Partners.PartnerTable.ComputeVatThresholdExceeded | l10n_cm_accounting/models/res_partner.py:114-119 | each selected partner is flagged exactly when its turnover exceeds 50 M; nothing else changes |
| PosMobileMoney.Limit | l10n_cm_accounting/static/src/js/pos_credit_limit.js:42-49 | every limit lies between 100 000 and 500 000, and an unknown operator gets 500 000 |
| PosMobileMoney.ValidateMobileMoneyPayment | l10n_cm_accounting/static/src/js/pos_credit_limit.js:28-59 | accepted exactly when 0 < amount <= the operator's limit; refused as non-positive exactly for amount <= 0; refused over the limit with that limit otherwise |
| PosMobileMoney.Refused | l10n_cm_accounting/static/src/js/pos_credit_limit.js:28-59 | a mobile-money payment is refused exactly when its amount is not positive or exceeds its operator's limit |
| PosMobileMoney.LimitEdges | l10n_cm_accounting/static/src/js/pos_credit_limit.js:42-59 | an amount equal to the limit passes and one above it is refused |
| PosMobileMoney.MobileMoneyPayments | l10n_cm_accounting/static/src/js/pos_credit_limit.js:13-18 | keeps exactly the payment lines whose journal has an operator |
| PosMobileMoney.ValidateOrder | l10n_cm_accounting/static/src/js/pos_credit_limit.js:13-26 | stops at the first mobile-money payment that is refused, or lets the order proceed |
| PosMobileMoney.OrderProceedsIffAllPass | l10n_cm_accounting/static/src/js/pos_credit_limit.js:13-26 | the order proceeds exactly when every mobile-money payment passes its check |
| Assets.SequenceNumber | l10n_cm_accounting/models/account_asset.py:84-101 | asset numbers start with "IMM/" followed by at least five digits |
| Assets.PaddedDigitsReadBack | l10n_cm_accounting/models/account_asset.py:84-101 | the zero-padded digits read back as the sequence value |
| Assets.SequenceNumbersAreDistinct | l10n_cm_accounting/models/account_asset.py:84-101 | different sequence values give different asset numbers |
| Assets.AssetNumbering.NextNumber | l10n_cm_accounting/models/account_asset.py:84-101 | returns the number of the current value (1 when the sequence is created) and advances the sequence by one |
| Assets.CategoryRate | l10n_cm_accounting/models/account_asset.py:103-119 | land and financial holdings are not depreciated; every other rate divides 100 |
| Assets.CategoryLifetimes | l10n_cm_accounting/models/account_asset.py:103-119 | the lifetimes are 5 years (intangible), 20 (buildings), 4 (equipment) and 10 (other financial), and lifetime times rate is 100 |
| Assets.ScheduleAt | l10n_cm_accounting/models/account_asset.py:133-160 | the move at position k of an n-year schedule is the depreciation move of year k |
| Assets.ScheduleMove | l10n_cm_accounting/models/account_asset.py:136-158 | the move of year k is a draft in the asset's journal dated 31 December of the first year plus k, with two lines: the expense account debited and the accumulated-depreciation account credited by the annual amount |
| Assets.Schedule | l10n_cm_accounting/models/account_asset.py:135-160 | one move per year, the k-th dated 31 December of the first year plus k, all drafts in the asset's journal |
| Assets.NonDrafts | l10n_cm_accounting/models/account_asset.py:130 | keeps exactly the posted moves |
| Assets.ScheduleMoveDebits | l10n_cm_accounting/models/account_asset.py:137-158 | the move of any year debits the annual amount and credits the same amount back |
| Assets.ScheduleMovesAreBalanced | l10n_cm_accounting/models/account_asset.py:133-160 | each yearly move is a balanced draft that debits the expense account and credits the accumulated-depreciation account by the annual amount, dated 31 December of the first year plus k |
| Assets.ScheduleTotal | l10n_cm_accounting/models/account_asset.py:133-160 | the schedule depreciates n times the annual amount |
| Assets.ScheduleDepreciatesOriginalValue | l10n_cm_accounting/models/account_asset.py:121-160 | over the whole lifetime the schedule depreciates exactly the original value |
| Assets.ScheduleDatesAreValid | l10n_cm_accounting/models/account_asset.py:133-160 | every move date is a valid date when the last year is at most 9999 |
| Assets.Asset.constructor | l10n_cm_accounting/models/account_asset.py:84-101 | a given non-empty number is kept; otherwise the next sequence number is taken |
| Assets.Asset.OnchangeCategory | l10n_cm_accounting/models/account_asset.py:103-119 | a depreciable category sets the rate and a lifetime of 100 / rate years; other fields are unchanged |
| Assets.Asset.GenerateDepreciationSchedule | l10n_cm_accounting/models/account_asset.py:121-160 | fails with the moves unchanged exactly for a zero value, no lifetime, no first date, or a last year past 9999; otherwise drops the draft moves and appends the yearly schedule of value / lifetime |
| Budgets.RealizedAmount | l10n_cm_accounting/models/account_budget.py:70-87 | zero without an account or both dates; otherwise the balance of the posted lines on the account within the dates, restricted to the analytic account when one is set |
| Budgets.RealizedTotal | l10n_cm_accounting/models/account_budget.py:73-85 | the realized total is zero when no posted line on the account, within the dates and on the analytic account, exists |
| Budgets.RealizedIgnoresUnmatched | l10n_cm_accounting/models/account_budget.py:72-84 | lines of another account, outside the dates, not posted or on another analytic account never change the realized amount |
| Budgets.AnalyticRestriction | l10n_cm_accounting/models/account_budget.py:72-84 | the unrestricted amount is the analytic account's share plus the rest |
| Budgets.VariancePercent | l10n_cm_accounting/models/account_budget.py:89-96 | the percentage times the planned amount is 100 times the variance; it is 0 for a zero plan |
| Budgets.VariancePercentEdges | l10n_cm_accounting/models/account_budget.py:89-96 | a doubled plan gives 100 %, an exact one 0 %, and nothing realized gives -100 % |
| Budgets.TotalVarianceIsSumOfLineVariances | l10n_cm_accounting/models/account_budget.py:37-42 | the total variance equals the sum of the line variances |
| Budgets.Budget.constructor | l10n_cm_accounting/models/account_budget.py:16-28 | a new budget is a draft |
| Budgets.Budget.ComputeTotals | l10n_cm_accounting/models/account_budget.py:37-42 | the totals are the sums of the planned and realized amounts, and their difference is the sum of the line variances |
| Budgets.Budget.ComputeRealizedAmounts | l10n_cm_accounting/models/account_budget.py:70-87 | each line's realized amount becomes its realized amount from the ledger; nothing else changes |
| Budgets.Budget.ComputeVariances | l10n_cm_accounting/models/account_budget.py:89-96 | each line's variance becomes realized minus planned, with its percentage; nothing else changes |
| Budgets.Budget.ActionConfirm | l10n_cm_accounting/models/account_budget.py:44-45 | the state becomes confirmed; the name, the lines, the dates and the three totals are kept |
| Budgets.Budget.ActionValidate | l10n_cm_accounting/models/account_budget.py:47-48 | the state becomes validated; the name, the lines, the dates and the three totals are kept |
| Budgets.Budget.ActionDone | l10n_cm_accounting/models/account_budget.py:50-51 | the state becomes done; the name, the lines, the dates and the three totals are kept |
| TaxReminders.Notified | l10n_cm_accounting/models/tax_reminder.py:69-88 | a notified reminder is sent, dated today, and otherwise unchanged |
| TaxReminders.AfterCron | l10n_cm_accounting/models/tax_reminder.py:51-67 | the cron notifies exactly the selected reminders and leaves the others as they were |
| TaxReminders.NotifiedAtMostOnce | l10n_cm_accounting/models/tax_reminder.py:51-88 | a reminder is notified by at most one run of the cron |
| TaxReminders.CronIsIdempotent | l10n_cm_accounting/models/tax_reminder.py:51-88 | a second run on the same day changes nothing |
| TaxReminders.SelectionWindow | l10n_cm_accounting/models/tax_reminder.py:51-67 | a pending active reminder fires within the smaller of seven days and its own number of days before it falls due, and an overdue one always fires |
| TaxReminders.NewReminder | l10n_cm_accounting/models/tax_reminder.py:30-49 | a new reminder is active and pending, has 7 reminder days, and has never been sent |
| TaxReminders.AnnualReminders | l10n_cm_accounting/models/tax_reminder.py:98-134 | a year gets five reminders |
| TaxReminders.AnnualCalendar | l10n_cm_accounting/models/tax_reminder.py:98-134 | the January and February VAT fall due on 15 February and 15 March, DIPE and DSF on 30 April, and IS on 31 March of the next year, in date order |
| TaxReminders.JanuaryVatFiresOnFebruary8 | l10n_cm_accounting/models/tax_reminder.py:51-134 | the January VAT reminder is notified by the cron of 8 February and not before |
| TaxReminders.Found | l10n_cm_accounting/models/tax_reminder.py:54-61 | the search finds only active, pending reminders due within the week |
| TaxReminders.FoundIsStrictlyIncreasing | l10n_cm_accounting/models/tax_reminder.py:54-61 | the search finds each reminder once, in table order |
| TaxReminders.FoundFindsSelected | l10n_cm_accounting/models/tax_reminder.py:54-61 | every reminder the cron should notify is found by the search |
| TaxReminders.Selected | l10n_cm_accounting/models/tax_reminder.py:56-67 | a reminder is notified exactly when it is active, pending and due within the smaller of seven days and its own reminder days |
| TaxReminders.FoundNotifiesAll | l10n_cm_accounting/models/tax_reminder.py:54-67 | notifying the selected reminders among those the search finds is exactly the cron's effect on the whole table |
| TaxReminders.ReminderBook.SendReminders | l10n_cm_accounting/models/tax_reminder.py:51-88 | fails with nothing changed exactly when today plus seven days overflows the date range; otherwise the table becomes the one after the cron |
| TaxReminders.ReminderBook.ActionMarkDone | l10n_cm_accounting/models/tax_reminder.py:90-92 | the chosen reminder becomes done; nothing else changes |
| TaxReminders.ReminderBook.ActionCancel | l10n_cm_accounting/models/tax_reminder.py:94-96 | the chosen reminder becomes cancelled; nothing else changes |
| TaxReminders.ReminderBook.CreateAnnualReminders | l10n_cm_accounting/models/tax_reminder.py:98-134 | fails with nothing changed exactly for a year outside 1..9998; otherwise appends the year's five reminders and returns their five new record ids |

## Left out

- Spreadsheet decoding:
  - Reading the file (base64 and `read_excel`) is not modelled; a sheet is given as columns and rows.
  - The template download and the preview are not modelled.
  - `get_import_statistics` is not modelled.
- Grouping and cells:
  - MoveImport.FillReferenceAsWritten: the index type it names follows pandas 2.0 to 2.2 (RangeIndex when no row is dropped, Index otherwise); pandas 1 names Int64Index, and later versions may keep a RangeIndex when the kept labels are evenly spaced.
  - MoveImport.Groups: groups come in order of first appearance, while pandas sorts the group keys.
  - A `NaN` journal or partner cell is treated like an empty one.
  - A numeric account cell is taken as its text.
- Lookups:
  - MoveImport.ResolvePartner: `ilike` wildcards and Unicode case folding are not modelled. Matching is ASCII lower-casing and a plain substring test.
  - Search results come back in table order.
  - The journal and partner tables stand for the active records: `search` skips archived ones, so an archived default journal is created again and an archived partner is never matched.
- Messages:
  - `%.2f` amounts in messages are not reproduced.
  - DateParsing.ParseDate: the type in "Type de date invalide" is given as its name; the Python value it comes from is not modelled.
  - The joined error log is kept as a sequence of lines.
- Moves:
  - Journals.Instantiate leaves a new journal's default account unset (None); Odoo fills a liquidity account for bank and cash journals on create. CashTransfer.MobileMoneyDefaultsFitBothSides therefore takes the two accounts as parameters.
  - ORM failures while creating a move are not modelled.
- DateParsing.Strptime: Python's `\d` in `%Y`, `%m` and `%d` also matches non-ASCII Unicode digits; only ASCII digits are modelled.
- Partners.CheckTaxpayerIdentifier and Partners.CheckMobileMoneyNumber:
  - only ASCII letters and digits are considered; Python's Unicode `\d` and `upper()` are not modelled.
- Partners.RecommendedRegime returns the regime; the source only posts it as a chatter message.
- Partners.MobileMoneyConfigOf does not carry the configuration's URLs.
- Record rules between companies are not modelled.
- Assets.Asset.GenerateDepreciationSchedule:
  - the created moves are taken to be the asset's depreciation moves; the source links them only through the lines' asset field;
  - a cancelled move is not told apart from a draft one; moves are posted or not.
- Budgets.RealizedAmount filters on a move line's single analytic account; Odoo versions that keep an analytic distribution are not modelled.
- TaxReminders.Found keeps table order, while the source searches in order of due date, newest first.
- TaxReminders.ReminderBook.SendReminders:
  - the e-mail and chatter message of `_send_notification` are not modelled;
  - the server's and the user's "today" are one parameter.
- Declarations.DeclarationWizard.GeneratePdf: rendering the report is the host's job, and it is a parameter (`rendered`).
- The point-of-sale popups, `console.log` and non-numeric (`NaN`) amounts are not modelled.
- Monetary rounding is not modelled: amounts are exact reals.
- The clock and the database are parameters or fields, and concurrency is not modelled.

## Findings

| source | as written | input that shows it | evidently intended | confidence | as-written member | corrected member |
|---|---|---|---|---|---|---|
| l10n_cm_accounting/models/account_move_import.py:160 | `df['Reference'].fillna(df.index)` passes an Index as the fill value; `Series.fillna` raises TypeError for it, so every import that passes the column checks fails with "Erreur lors de l'import" | a sheet with the six required columns and Reference, and two balanced rows with reference "R1" | rows without a reference are grouped under their own row index; rows with one are grouped by it | medium, not executed | MoveImport.ImportAsWrittenNeverGroups | MoveImport.UnreferencedRowIsAlone |
