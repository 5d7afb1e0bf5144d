# LedgerApp, modelled and proved in Dafny

LedgerApp is a double-entry bookkeeping backend. This project models its four cores and proves what they
promise, for all inputs, all runs and all reachable states.

**Ledger.** `LedgerModel` holds the stored tables as a class `Store` with one `seq` per table, and the value
`Ledger` they stand for. Each service has a specification (a function from ledger to ledger or refusal:
`FiscalYears`, `Registry`, `Catalog`, `Journal`, `OpeningBalances`, `SieImport`) and imperative methods on the store
proved against it (`JournalService`, `OpeningBalancesService`, `SieImportService`, and the methods in
`FiscalYears`, `Registry` and `Catalog`). A `$transaction` is one atomic step. `LedgerMachine` puts the seventeen steps
together; `LedgerSteps`, `LedgerUpdates` and `ImportSteps` show that each keeps the ledger in order, and
`LedgerSafety`, `OpeningSafety`, `ReportLaws` (over `Reports` and `AccountingData`) and `CarryChain` state what
follows for runs. `ServiceLaws` and `VoucherLaws`, `CarryLaws`, `RegistryLaws` and `StatementLaws` state what single
requests and reports answer, store, leave alone and undo, and exactly when they succeed, in terms of the tables;
`ImportOutcome` and `ImportLaws` do so for the import. `StoredForm` states what every run leaves in the tables;
`OpeningsFile` and `LockedCase`, `DatedFile` and `CrossYearCase` work an import out from its text to the reached state.

**SIE.** `SieText`, `SieCodePage`, `SieTokens`, `SieLines`, `SieParser` and `SieExport` are the codec: code
page, amounts, dates, tokenizer, line parser with its checks, printer. `SieSound` says what an error-free document
guarantees, `RecordLaws` which records are taken and what they add, `SieReplay` and `SieRoundTrip` that exported bytes
read back as the exported data, `ExportLaws` in which order. `SiePrints` (which
records can be printed and encoded), `SieAccepts` (which the reader accepts) and `SieExportable` give the exact
condition for an export, `SieYearExport` that for a year of the ledger. `SieLedger`, `SieBalances` and
`SieWholeTrip` follow a file into the ledger and out again.

**VAT.** `Vat` and `VatLaws` are the report engine, `SwedishVat` the mapping to the boxes of the Swedish return;
`LedgerVat` reads the lines from the ledger. `VatMeaning` states totals, codes and warnings on debit and credit of the
lines.

**Sessions.** `Sessions` models refresh-token rotation as interleaved steps: an unlocked read, then a locked
transaction that may commit at any later time.

Money is in öre, rates in hundredths of a percent, days are day numbers of a civil calendar (`Calendar`).
Records refer to each other by position, since none is ever deleted. Clocks, generated identities, secrets and
the registers a request consults are parameters of the steps; a generated identity must be unused
(`Sessions.Admissible`). Hashes and fingerprints are the values they are taken of.

## Where the code does less than it may seem

- `monthlyPeriods` yields one period per calendar month if and only if the start year has at least three digits
  or the interval stays in one month (`Calendar.OnePerMonthIff`): `Date.UTC` reads the years 0 to 99 as 1900 to 1999.
- Saving and carrying forward opening balances is refused once a period of the year is locked
  (`OpeningSafety.LockedYearRefusesRows`), an SIE import is not. `OpeningSafety.LockedIbChangesIff` is the exact
  condition, `LockedCase.LockedYearTakesImport` a reached case.
- A replayed refresh token revokes its family if and only if it still authenticates
  (`Sessions.ReplayIsDetectedIff`); after its own expiry it is only refused (`Sessions.ExpiredReplayIsIgnored`).
- The totals of the VAT report by direction are plain sums of lines, whatever the amounts, if and only if no group
  holds accepted lines of two directions (`VatLaws.TotalsArePlainIff`); otherwise a group is counted in the direction
  of its first line (`VatLaws.DirectionTotalIsLineSum`, `VatLaws.MixedGroupMovesAmounts`).
- A correction copies the line dates of its voucher. Posted in another year than its voucher, it bars the export of
  that year (`SieYearExport.CrossYearCorrectionBarsExport`). `SieYearExport.LineDatesFitIff` is the exact condition,
  `CrossYearCase.CorrectionBarsYear` a reached case.
- An account that a document types S, new to the ledger and the catalogue under a number outside class 2, is created
  with the kind of its number class and exported under another letter (`ImportLaws.ImportedKindFitsIff`,
  `ImportLaws.TypeSurvivesIff`).
- Texts do not survive import and export: an empty voucher text becomes "SIE-import"
  (`SieLedger.VoucherTextKeptIff`), a missing line text becomes the text of the voucher (`SieLedger.LineTextKeptIff`).

## Model

| member | source | states |
|---|---|---|
| LedgerSafety.ReachableInOrder | apps/api/src/journal-entries/journal-entries.service.ts:575-731 | Every state reached from the empty ledger by any sequence of committed, refused or failed requests is in order: entries in the period of their date, posted entries balanced and numbered below their counter, years and periods disjoint and tiling, opening balances sound, corrections mirrored and unique, no draft in a closed year |
| LedgerSafety.RunKeeps | apps/api/src/journal-entries/journal-entries.service.ts:195-731 | From any ledger in order, every run keeps that order, removes no record, changes no posted voucher and no closed year, and never lowers a counter or a version |
| LedgerSafety.PostedNeverChanges | apps/api/src/journal-entries/journal-entries.service.ts:260-306 | A posted voucher is the same value (lines, date, series, number, version) after every later run |
| LedgerSafety.WriteRaisesVersion | apps/api/src/journal-entries/journal-entries.service.ts:266-306 | A committed update or post had the expected version and raises it by exactly one |
| LedgerSafety.NoLostUpdate | apps/api/src/journal-entries/journal-entries.service.ts:352-393 | Two writers holding the same version never both commit, whatever runs between them |
| LedgerSafety.NumbersAreUnique | apps/api/src/journal-entries/journal-entries.service.ts:691-719 | In every reachable state, imports included, no two posted vouchers of a series share a number |
| LedgerSafety.NumbersAreBelowCounter | apps/api/src/journal-entries/journal-entries.service.ts:691-719 | In every reachable state every posted voucher has a number between 1 and the counter of its series, exclusive |
| LedgerSafety.NumbersHaveNoGaps | apps/api/src/journal-entries/journal-entries.service.ts:691-719 | In every run without imports the posted numbers of a series are exactly 1 up to its counter less one, despite refused and failed posts |
| LedgerSafety.CorrectionNetsToZero | apps/api/src/journal-entries/journal-entries.service.ts:467-532 | In every reachable state a correction and its original net to zero for every account, project, cost centre and VAT code; the original is posted, is no correction and has no other correction |
| LedgerSafety.BooksBalance | apps/api/src/journal-entries/journal-entries.service.ts:1027-1037 | Total posted debit equals total posted credit in every reachable state |
| LedgerSafety.ResolveFindsTheDay | apps/api/src/journal-entries/journal-entries.service.ts:939-978 | Every day covered by some year resolves to exactly that year and to exactly one of its periods |
| LedgerSafety.ClosedIsFinal | apps/api/src/fiscal-years/fiscal-years.service.ts:118-136 | Once closed, a year never changes, all its periods are locked and it has no draft |
| LedgerSafety.LockedPeriodIsFrozen | apps/api/src/fiscal-years/accounting-calendar.ts:5-25 | While a period is locked no step (create, update with moves in or out, post, correction, import) adds, changes or removes a voucher of it |
| LedgerSafety.LockedPeriodStaysFrozen | apps/api/src/fiscal-years/accounting-calendar.ts:5-25 | The same over a whole run in which the period stays locked |
| OpeningSafety.OpeningsAreSound | apps/api/src/organizations/opening-balances.service.ts:97-152 | In every reachable state opening balances are unique, single-sided, non-negative rows on balance-sheet accounts with equal debit and credit, whichever of save, carry-forward and import wrote them, and a year receives at most one confirmed carry-forward |
| LedgerSafety.StepKeeps | apps/api/src/journal-entries/journal-entries.service.ts:195-731 | One step of any of the seventeen kinds leads from a ledger in order to a ledger in order that has only grown |
| OpeningSafety.IbIsFrozen | apps/api/src/organizations/opening-balances.service.ts:70-93 | Opening balances of a year with a posted voucher survive every step |
| OpeningSafety.IbStaysFrozen | apps/api/src/organizations/opening-balances.service.ts:70-93 | The same over whole runs |
| OpeningSafety.ClassificationIsFrozen | apps/api/src/accounts/accounts.service.ts:189-201 | An account with an opening balance or a posted line keeps number and type under every step |
| OpeningSafety.ImportWritesOpeningsIff | apps/api/src/sie/sie.service.ts:220-260 | A successful import changes the opening balances of its year if and only if the document has a non-zero opening balance: the import asks for no open period |
| ImportOutcome.ImportSucceedsIff | apps/api/src/sie/sie.service.ts:94-343 | An import succeeds if and only if the review does not refuse, opening balances meet their guards and every voucher meets its own; the guards are read off the ledger, the review and the document |
| ImportOutcome.VouchersSucceedIff | apps/api/src/sie/sie.service.ts:262-343 | All vouchers of a document are posted if and only if each fits the ledger as it was before the first: no voucher makes a later one fail |
| ImportOutcome.OpeningsSucceedIff | apps/api/src/sie/sie.service.ts:220-260 | The opening balances of a sound document are written if and only if the year is unused, every non-zero account exists as a balance account and the size limits hold |
| OpeningSafety.LockedIbChangesIff | apps/api/src/sie/sie.service.ts:220-260 | While a period of a year is locked a step changes its opening balances if and only if it is an import into it whose document has a non-zero opening balance and meets the guards of the import |
| LockedCase.LockedYearTakesImport | apps/api/src/sie/sie.service.ts:220-260 | The case: after a run that creates January 2026 and two accounts and locks the month, a step imports 100 kronor of cash against equity, given as text |
| OpeningsFile.FileIsRead | packages/sie/src/index.ts:111-314 | The text of that case parses without errors as the document with its two opening balances |
| ServiceLaws.DraftHoldsTheRequest | apps/api/src/journal-entries/journal-entries.service.ts:796-886 | A created draft is one more voucher with exactly the requested lines, one positive side each, in the open year and period of its date under an active series of that year; nothing else changes |
| ServiceLaws.StoredLinesStand | apps/api/src/journal-entries/journal-entries.service.ts:835-886 | Lines once stored are stored unchanged when requested again |
| ServiceLaws.ChangeUndone | apps/api/src/journal-entries/journal-entries.service.ts:236-350 | Changing a draft and requesting the former content restores the ledger but for the version, which is two higher |
| StoredForm.ReachableChangeUndone | apps/api/src/journal-entries/journal-entries.service.ts:236-350 | The same in every reachable ledger, for every draft, with the content as stored |
| StoredForm.ReachableInForm | apps/api/src/journal-entries/journal-entries.service.ts:796-886 | In every run whose years are requested by dates, all days stored (years, vouchers, line dates) are days of the calendar, and every draft is what a request for its own content would store |
| StoredForm.ReachableOwnDates | apps/api/src/sie/sie.service.ts:262-343 | In every reachable ledger the line dates of a voucher lie in its year, unless it is a correction: requests cannot name line dates, posting adds none, the import checks them |
| ServiceLaws.PostOnlyNumbers | apps/api/src/journal-entries/journal-entries.service.ts:575-731 | Posting numbers the voucher from its counter, raises that counter alone by one, and changes no amount, no line date and no other record |
| VoucherLaws.CreateSucceedsIff | apps/api/src/journal-entries/journal-entries.service.ts:195-234 | A draft is created if and only if its text is not blank, its date is a day of an open period, its series is an active one of that year, and every line names an active eligible account, known codes and exactly one positive amount |
| VoucherLaws.UpdateSucceedsIff | apps/api/src/journal-entries/journal-entries.service.ts:236-350 | A draft is changed if and only if the request changes something under the version of the draft, the period it leaves and the one it goes to are open, and the draft as changed could be created |
| VoucherLaws.ChangeHoldsTheRequest | apps/api/src/journal-entries/journal-entries.service.ts:284-345 | A changed draft holds date, series, text and lines as requested, keeps the rest, and no other record changes |
| VoucherLaws.PostSucceedsIff | apps/api/src/journal-entries/journal-entries.service.ts:575-719 | A draft is posted if and only if it has the expected version, its period and series are open, it balances on two lines at least, its accounts and codes are usable on its date and its series has a number left |
| VoucherLaws.PostedLineIs | apps/api/src/journal-entries/journal-entries.service.ts:654-684 | After posting, a line with a VAT code stores identifier, code, rate, direction, version and category of that code and the code its account expects; a line without one stores that expectation alone; nothing else of a line changes |
| VoucherLaws.PostedLineIsReported | apps/api/src/journal-entries/journal-entries.service.ts:654-684 | End to end: after any later run, every VAT report that covers the voucher takes a posted BASE or TAX line with a readable rate in, under the configuration at posting, and no missing configuration is warned of for it |
| VoucherLaws.ReverseSucceedsIff | apps/api/src/journal-entries/journal-entries.service.ts:444-494 | A voucher is corrected if and only if it is posted, is no correction, has none yet, the date is a day of an open period whose year has the series with a number left, and a reason, if given, is not blank |
| VoucherLaws.CorrectionTextIs | apps/api/src/journal-entries/journal-entries.service.ts:495-532 | The text of a correction is the reason given, or names the voucher by series and number |
| ServiceLaws.CorrectionMirrors | apps/api/src/journal-entries/journal-entries.service.ts:444-573 | A correction adds one posted voucher in an open period whose lines are the original lines with debit and credit exchanged; all earlier vouchers stay |
| ServiceLaws.CorrectedOnce | apps/api/src/journal-entries/journal-entries.service.ts:467-491 | After a correction, correcting the original or the correction is refused whatever is requested |
| ServiceLaws.LockUndone | apps/api/src/fiscal-years/fiscal-years.service.ts:90-117 | Setting a period back to its former status restores the ledger |
| ServiceLaws.SavedOpensAsRequested | apps/api/src/organizations/opening-balances.service.ts:153-199 | Leaving out the zero rows on saving loses no balance |
| CarryLaws.SaveSucceedsIff | apps/api/src/organizations/opening-balances.service.ts:70-199 | Opening balances are saved if and only if the year is open, unlocked and without posted vouchers, the client has seen the present rows, every row fits an account, no account has two, and debit equals credit |
| ServiceLaws.SecondSaveConflictsIff | apps/api/src/organizations/opening-balances.service.ts:153-199 | A second save that saw the same rows is in conflict if and only if there were rows before or there are rows after the first |
| ServiceLaws.CarriedOnce | apps/api/src/organizations/opening-balances.service.ts:222-233 | A confirmed carry-forward bars every other one into its year, itself included |
| LedgerModel.CheckOpen | apps/api/src/fiscal-years/accounting-calendar.ts:5-25 | The calendar guard: first the year, then the period, each with its own refusal; what it guards over runs is LedgerSafety.LockedPeriodIsFrozen |
| JournalService.Create | apps/api/src/journal-entries/journal-entries.service.ts:195-234 | Draft creation on the stored tables does what the draft specification says, and nothing when refused |
| JournalService.BuildLines | apps/api/src/journal-entries/journal-entries.service.ts:835-886 | The line loop stops at the first bad line, otherwise builds every line |
| JournalService.Update | apps/api/src/journal-entries/journal-entries.service.ts:236-350 | Draft update under the expected version, with the same refusals in the same order |
| JournalService.Totals | apps/api/src/journal-entries/journal-entries.service.ts:1266-1276 | The totals loop adds debit and credit of every line |
| JournalService.FreezeLines | apps/api/src/journal-entries/journal-entries.service.ts:642-684 | The loop stores on each line the configuration of its VAT code and the code its account expects; what that is, literally, VoucherLaws.PostedLineIs states |
| JournalService.PostInTransaction | apps/api/src/journal-entries/journal-entries.service.ts:575-731 | Posting: guard, version, calendar, series, balance, references, number allocation; all or nothing |
| JournalService.PostEntry | apps/api/src/journal-entries/journal-entries.service.ts:352-393 | At most three attempts: one post commits, or nothing changes and the refusal or the third serialization failure is returned |
| JournalService.ReverseInTransaction | apps/api/src/journal-entries/journal-entries.service.ts:444-573 | Correction: created and posted in one transaction, all or nothing |
| JournalService.ReverseEntry | apps/api/src/journal-entries/journal-entries.service.ts:401-442 | The same with the retry loop: the third serialization failure is returned |
| FiscalYears.Create | apps/api/src/fiscal-years/fiscal-years.service.ts:56-89 | A new year gets the calendar months as periods; it is refused on overlap, and for its dates exactly when they are invalid or reversed or count more than thirteen periods |
| FiscalYears.ChangePeriodStatus | apps/api/src/fiscal-years/fiscal-years.service.ts:90-117 | Locking and unlocking a period of an open year; undone as ServiceLaws.LockUndone states |
| FiscalYears.CloseYear | apps/api/src/fiscal-years/fiscal-years.service.ts:118-150 | Closing needs all periods locked and no draft; for good, as LedgerSafety.ClosedIsFinal states |
| Registry.AddSeries | apps/api/src/organizations/voucher-series.service.ts:27-41 | A series code is unique within an open year; its counter starts at 1, from where LedgerSafety.NumbersHaveNoGaps counts |
| Registry.ChangeSeries | apps/api/src/organizations/voucher-series.service.ts:42-74 | The code is frozen by the first posted voucher; activity may change; the counter stays (LedgerSafety.NumbersHaveNoGaps) |
| Registry.AddAccount | apps/api/src/accounts/accounts.service.ts:74-127 | Account creation with unique number, an invariant of LedgerSafety.ReachableInOrder |
| Registry.ChangeAccount | apps/api/src/accounts/accounts.service.ts:129-246 | Account update with the catalogue, eligibility, legacy label and classification guards in order; OpeningSafety.ClassificationIsFrozen rests on it |
| Catalog.ProvisionAccounts | apps/api/src/accounts/bas/catalog.service.ts:102-204 | Provisioning adds the missing standard accounts of the catalogue unless it changes the version or meets restricted accounts in use; nothing when refused |
| Catalog.ActivateAccounts | apps/api/src/accounts/bas/catalog.service.ts:251-311 | Activation of chosen catalogue rows in a loop, all or none |
| Catalog.ProvisionOnce | apps/api/src/accounts/bas/catalog.service.ts:146-204 | Provisioning leaves every existing account as it is, has an account for every standard row, makes its accounts of standard rows, active and of the catalogue, and adds nothing the second time |
| Catalog.ActivationDoes | apps/api/src/accounts/bas/catalog.service.ts:205-311 | After an activation every chosen number has an active account; existing accounts are at most switched on, and only chosen ones; new accounts are chosen rows |
| OpeningBalancesService.Validate | apps/api/src/organizations/opening-balances.service.ts:97-152 | The validation loop finds the first bad row and computes equal totals on success |
| OpeningBalancesService.SaveRows | apps/api/src/organizations/opening-balances.service.ts:153-199 | Saving replaces the rows under the fingerprint the client saw |
| OpeningBalancesService.GatherBalances | apps/api/src/organizations/opening-balances.service.ts:248-258 | The loop over accounts computes balances, result net and full net of the source year |
| OpeningBalancesService.CalculateCarry | apps/api/src/organizations/opening-balances.service.ts:200-303 | The carry-forward calculation with its refusals in order |
| OpeningBalancesService.PreviewCarry | apps/api/src/organizations/opening-balances.service.ts:304-318 | A preview stores the calculated plan for fifteen minutes |
| OpeningBalancesService.ConfirmCarry | apps/api/src/organizations/opening-balances.service.ts:319-367 | Confirming recalculates and accepts only what was previewed, then writes the rows |
| RegistryLaws.CreateYearSucceedsIff | apps/api/src/fiscal-years/fiscal-years.service.ts:56-89 | A year is added, open and with open periods, if and only if the periods tile it, it has a name, and no other year has a day of it |
| RegistryLaws.PeriodStatusIs | apps/api/src/fiscal-years/fiscal-years.service.ts:90-117 | A period of an open year gets the status asked for, and nothing else of the ledger changes |
| RegistryLaws.CloseSucceedsIff | apps/api/src/fiscal-years/fiscal-years.service.ts:118-150 | An open year closes if and only if it has periods, all of them are locked, and it has no draft |
| RegistryLaws.CreateSeriesSucceedsIff | apps/api/src/organizations/voucher-series.service.ts:27-41 | A series is created, active and counting from 1, if and only if its year is open, its name is not blank and its code is new in the year |
| RegistryLaws.UpdateSeriesSucceedsIff | apps/api/src/organizations/voucher-series.service.ts:42-74 | A series changes if and only if its year is open, a name given is not blank, and a new code is free in the year and no voucher is posted in the series; year and counter never change |
| RegistryLaws.CreateAccountSucceedsIff | apps/api/src/accounts/accounts.service.ts:74-127 | An account is created as asked if and only if its number is new, its VAT code is known, and it is eligible when active |
| RegistryLaws.UpdateAccountSucceedsIff | apps/api/src/accounts/accounts.service.ts:129-246 | The exact condition for changing an account, on catalogue, use, eligibility, legacy labels and free numbers |
| RegistryLaws.UpdatedAccountIs | apps/api/src/accounts/accounts.service.ts:201-216 | An account changes in what is asked for and in nothing else |
| RegistryLaws.ProvisionSucceedsIff | apps/api/src/accounts/bas/catalog.service.ts:102-145 | Provisioning is refused for another version than the adopted one, and at first adoption outside K3 exactly when an account under a restricted number is active, opened or booked on |
| RegistryLaws.ActivationSucceedsIff | apps/api/src/accounts/bas/catalog.service.ts:251-311 | Activation succeeds if and only if every chosen row exists, is bookable, is unrestricted or under K3, and agrees with the account of its number |
| Calendar.MonthlyPeriods | apps/api/src/fiscal-years/fiscal-years.service.ts:13-41 | Terminates; refuses exactly invalid or reversed dates and counts above 13, in any year; otherwise as many numbered periods as counted tile the interval; from year 100 on one for each calendar month |
| Calendar.MonthsAreCounted | apps/api/src/fiscal-years/fiscal-years.service.ts:13-41 | From year 100 on the count is the number of calendar months touched |
| Calendar.OnePerMonthIff | apps/api/src/fiscal-years/fiscal-years.service.ts:26-39 | One period per calendar month if and only if the year has at least three digits or the interval stays in one month (earlier years are read as 1900 to 1999 by the date constructor) |
| Calendar.FirstStopIs | apps/api/src/fiscal-years/fiscal-years.service.ts:26-39 | A first period ends before the month after its start, in the year as the date constructor reads it, or with the interval |
| Calendar.EarlyYearIsOnePeriod | apps/api/src/fiscal-years/fiscal-years.service.ts:26-39 | The failing case: the year 50 from January to December counts one period, so it is accepted, and any tiling that stops where the service stops is that single period |
| Calendar.DayNumberIsGregorian | apps/api/src/fiscal-years/fiscal-years.service.ts:13-41 | The day number of a date is the count of days of the Gregorian calendar, by closed formula over years and a table of months |
| Calendar.TilesCover | apps/api/src/fiscal-years/fiscal-years.service.ts:26-39 | Every day of a tiled interval lies in exactly one period |
| Calendar.BeforeIsDayOrder | apps/api/src/fiscal-years/fiscal-years.service.ts:13-25 | The order of date texts is the order of the days they name |
| AccountingData.ReadContext | apps/api/src/reports/accounting-report-data.ts:14-102 | Opening balances are validated row by row and tabulated; totals agree on success |
| ReportLaws.TrialBalanceSucceeds | apps/api/src/reports/reports.service.ts:396-419 | In every ledger in order the trial balance of a valid interval within the size limits succeeds and its three pairs of totals agree |
| ReportLaws.BalanceSheetSucceeds | apps/api/src/reports/reports.service.ts:265-332 | In every ledger in order assets equal equity with the result of the year plus liabilities, at the report and the comparison date; which accounts each is the sum of, StatementLaws.SheetShowsTrial and ComparisonShowsTrial state |
| ReportLaws.ReachableReportsSucceed | apps/api/src/reports/reports.service.ts:325-332 | In every reachable state both reports succeed: their error branches for unbalanced data are unreachable |
| ReportLaws.MovementsPair | apps/api/src/reports/accounting-report-data.ts:116-150 | Movements of all accounts net to zero in every interval |
| ReportLaws.IncomeIsSheetResult | apps/api/src/reports/income-groups.ts:11-39 | The accumulated result of the income statement is the result in the balance sheet at the same date |
| ReportLaws.OpeningContinuesClosing | apps/api/src/reports/reports.service.ts:357-383 | For every split of an interval the second half opens where the first closed, with and without dimension filter |
| ReportLaws.ClosingFromStart | apps/api/src/accounting/accounting-balances.ts:24-26 | The closing balance is opening balance plus all movements since the start of the year, wherever the interval starts |
| ReportLaws.LedgerClosing | apps/api/src/reports/reports.service.ts:152-183 | The general ledger opens and closes at the roll-forward balances and its last running balance is its closing balance |
| ReportLaws.ReportsAgree | apps/api/src/accounts/account-balances.service.ts:25-59 | At one account: general ledger, trial balance and account-balance service compute the same closing balance |
| ReportLaws.LedgerMatchesTrial | apps/api/src/reports/reports.service.ts:37-184 | When general ledger and trial balance of an interval succeed, the ledger lists exactly the accounts of the number range, each with the opening and closing balance of its trial row and a last running balance equal to it |
| ReportLaws.BalancesMatchTrial | apps/api/src/accounts/account-balances.service.ts:25-59 | When the account-balance service and the trial balance up to the same day succeed, the service answers for exactly the requested accounts with the closing balances of their trial rows |
| StatementLaws.TrialReadsBooks | apps/api/src/reports/reports.service.ts:351-419 | Each row of the trial balance shows opening row and booked debit and credit of its account before, in and up to the interval, net on the side they fall on |
| StatementLaws.TotalsAddUp | apps/api/src/reports/reports.service.ts:396-409 | The six totals of the trial balance are the sums of its rows |
| StatementLaws.SheetShowsTrial | apps/api/src/reports/reports.service.ts:265-320 | Against the trial balance up to the same day: assets are the closing debit less credit of the asset accounts, liabilities and equity less result the closing credit less debit of theirs, and the result that of revenue and expense accounts without their openings |
| StatementLaws.ComparisonShowsTrial | apps/api/src/reports/reports.service.ts:246-320 | The comparison sheet stands in the same way to the trial balance up to the comparison day |
| StatementLaws.IncomeReadsBooks | apps/api/src/reports/reports.service.ts:189-237 | Both results of the income statement are credit less debit of what is booked on revenue and expense accounts, in the interval and in the year up to its end |
| StatementLaws.PeriodIsDifference | apps/api/src/reports/reports.service.ts:189-237 | The result of a period is the result of the year at its end less that at the day before it begins |
| StatementLaws.LedgerListsLines | apps/api/src/reports/reports.service.ts:85-183 | A section of the general ledger lists exactly the booked lines of its account in the interval, by date, series and number, each with its own debit and credit and the balance after it |
| StatementLaws.LedgerOpens | apps/api/src/reports/reports.service.ts:72-141 | It opens with the opening row of the account and what was booked in the year before |
| StatementLaws.LedgerCoversRange | apps/api/src/reports/reports.service.ts:67-71 | It has one section for each account of the number range, both bounds included, in stored order |
| StatementLaws.TrialSucceedsIff | apps/api/src/reports/reports.service.ts:351-419 | In a ledger in order the trial balance answers if and only if the interval is one of the year within the size limits |
| StatementLaws.SheetSucceedsIff | apps/api/src/reports/reports.service.ts:240-332 | The balance sheet answers if and only if its day, and a comparison day not after it, lie in the year |
| StatementLaws.CountIsRows | apps/api/src/reports/reports.service.ts:85-127 | The lines counted against that limit are the rows listed |
| StatementLaws.BalancesSucceedIff | apps/api/src/accounts/account-balances.service.ts:12-59 | The account-balance service answers if and only if the day is one of the year, the year is within the size limits, and every account asked for exists |
| StatementLaws.IncomeSucceedsIff | apps/api/src/reports/reports.service.ts:189-219 | The income statement answers if and only if the interval is one of the year and at most 10000 accounts are read |
| StatementLaws.LedgerSucceedsIff | apps/api/src/reports/reports.service.ts:37-150 | The general ledger answers if and only if interval and number range are in order, a dimension is asked for only without opening balances, and at most 20000 lines are listed |
| Reports.ReadLedger | apps/api/src/reports/reports.service.ts:37-184 | The general ledger: refusals in order, bucket loop, running balances |
| Reports.FillBuckets | apps/api/src/reports/reports.service.ts:142-145 | The bucket of an account holds exactly its matching lines in ledger order |
| Reports.RunAccount | apps/api/src/reports/reports.service.ts:152-168 | The running balance after each line is the opening plus the lines so far |
| CarryLaws.CarrySucceedsIff | apps/api/src/organizations/opening-balances.service.ts:200-303 | In a ledger in order a carry-forward is calculated if and only if the source is closed, the target begins the day after it, takes opening balances and has none, the result account is usable equity, and every account that carries something can be booked on |
| CarryLaws.PlanShows | apps/api/src/organizations/opening-balances.service.ts:283-303 | A preview shows both years, the result account, the result of the year, one row for each account that carries something, and two equal totals |
| CarryLaws.PreviewConfirmsIff | apps/api/src/organizations/opening-balances.service.ts:304-345 | On the unchanged ledger a preview is confirmed if and only if the same user does so within fifteen minutes |
| CarryLaws.ConfirmWritesPreview | apps/api/src/organizations/opening-balances.service.ts:319-367 | A confirmation writes the previewed rows as the opening balances of the target and nothing else but its own mark |
| CarryChain.FullNetIsZero | apps/api/src/organizations/opening-balances.service.ts:250-259 | In every ledger in order all closing balances of a year add up to zero |
| CarryChain.CarryAlwaysBalances | apps/api/src/organizations/opening-balances.service.ts:259-282 | Neither the check of the full net nor the balance check of the carried rows can ever fail |
| CarryChain.CarriedRowsBalance | apps/api/src/organizations/opening-balances.service.ts:264-282 | The carried rows of a source with full net zero balance, debit against credit |
| CarryChain.CarriedOpens | apps/api/src/organizations/opening-balances.service.ts:260-281 | Carried rows open each account with exactly what it carries |
| CarryChain.ClosedCarrySame | apps/api/src/organizations/opening-balances.service.ts:319-345 | What a closed year carries forward is the same after every later step |
| CarryChain.RunHolds | apps/api/src/organizations/opening-balances.service.ts:319-345 | Over every run each confirmed carry-forward still states what its closed source year carries |
| CarryChain.CarryForwardLosesNothing | apps/api/src/organizations/opening-balances.service.ts:248-282 | Along any chain of confirmed carry-forwards whose target rows were not edited, a balance account opens the last year with its first opening plus all movements of the source years, and the result accounts take up exactly the results of those years |
| SieText.DecodeUndoesEncode | packages/sie/src/index.ts:32-45 | Decoding undoes encoding for every text that encodes |
| SieCodePage.EncodeUndoesDecode | packages/sie/src/index.ts:29-45 | Encoding undoes decoding for every byte sequence: no character occurs twice in code page 437 |
| SieText.MoneyRoundTrip | packages/sie/src/index.ts:46-56 | Reading a printed amount gives it back exactly when it is below 10 to the 18 öre; otherwise it is refused |
| SieText.MoneyIsBounded | packages/sie/src/index.ts:46-56 | Every readable amount is below that bound, so its printed form is canonical |
| SieText.IsoRoundTrip | packages/sie/src/index.ts:62-74 | A date survives the trip through its compact form |
| SieText.IsoOrder | packages/sie/src/index.ts:279-283 | Comparing ISO texts compares the days they name |
| SieTokens.Scan | packages/sie/src/index.ts:75-108 | The scanning loop returns the fields of the line, or fails on exactly the malformed ones |
| SieTokens.ScanQuoted | packages/sie/src/index.ts:80-99 | The quoted-field loop with its two escapes |
| SieTokens.QuoteRoundTrip | packages/sie/src/index.ts:57-61 | A quoted value is read back as that value, whatever follows it |
| SieTokens.TokenizeLine | packages/sie/src/index.ts:75-108 | The tokenizer undoes the printing of a whole record, object lists included |
| SieLines.LineReadsBack | packages/sie/src/index.ts:132-136 | A printed record has no control character, survives trimming and reads back as its fields |
| SieLines.SplitJoined | packages/sie/src/index.ts:127-130 | Splitting undoes joining of clean lines |
| SieParser.ParseSie4 | packages/sie/src/index.ts:111-314 | The parser loops: reading state, records, and every check across records, with the errors in source order |
| SieParser.ReadTransaction | packages/sie/src/index.ts:217-243 | The object loop of a transaction record |
| SieParser.ReadRecord | packages/sie/src/index.ts:131-266 | One line: control characters, fields, record; a failing record leaves only an error |
| SieParser.CheckVouchers | packages/sie/src/index.ts:271-292 | Balance, dates and declared objects of every voucher |
| SieParser.CheckOpenings | packages/sie/src/index.ts:293-297 | Duplicate opening balances are reported, in order |
| SieParser.ClosingTable | packages/sie/src/index.ts:300-303 | The table holds opening amount plus transactions for every account |
| SieParser.CheckBalances | packages/sie/src/index.ts:304-312 | Every closing and result balance is compared with that table |
| RecordLaws.FixedAreRead | packages/sie/src/index.ts:137-148 | File type 4, character set PC8 and currency SEK are the only ones taken, and braces stand alone around the lines of a voucher |
| RecordLaws.YearIsRead | packages/sie/src/index.ts:151-163 | #RAR is taken if and only if both days are dates in order under a new year index; index 0 is the year of the file |
| RecordLaws.AccountIsRead | packages/sie/src/index.ts:164-172 | #KONTO is taken if and only if the number has 4 to 10 digits and is new, and the name has 1 to 160 units |
| RecordLaws.TypeIsRead | packages/sie/src/index.ts:173-176 | #KTYP gives T as assets, S as debt, I as income and K as cost, and takes nothing else |
| RecordLaws.BalanceIsRead | packages/sie/src/index.ts:177-187 | #IB, #UB and #RES are taken if and only if they give an amount of the year of the file without a quantity; #IB opens, the others are compared |
| RecordLaws.ObjectIsRead | packages/sie/src/index.ts:191-201 | #OBJEKT is taken if and only if dimension, identifier and name are valid and the object is new |
| RecordLaws.HeadIsRead | packages/sie/src/index.ts:202-219 | #VER is taken if and only if it stands between vouchers with series, number and date that are valid and new; it opens a voucher without lines |
| RecordLaws.LineIsRead | packages/sie/src/index.ts:220-243 | #TRANS is taken if and only if it stands in a voucher and gives account, objects of different dimensions, amount, and a date and text that are valid if given; it adds exactly that line |
| RecordLaws.InfoIsRead | packages/sie/src/index.ts:149-190 | Number and name of the organization are noted apart, the last of each counts; dimensions other than 1 and 6 are taken with a warning |
| RecordLaws.DescriptionIsRead | packages/sie/src/index.ts:244-260 | Records that describe are taken with a warning, but for three, taken in silence |
| RecordLaws.MarkAndReturnsIgnored | packages/sie/src/index.ts:112-130 | A byte order mark and the choice of line ends do not change the document |
| SieSound.Soundness | packages/sie/src/index.ts:123-312 | A document read without errors has unique vouchers, accounts, objects and years, every voucher balanced with two non-zero lines inside the year, declared objects, openings that are unique and sum to zero, closing balances equal to opening plus transactions, and its block records are exactly the opened, filled and closed vouchers |
| SieExport.ExportSie4 | packages/sie/src/index.ts:324-382 | The printing loops produce the specified records in order, check the text by reading it, and fail on the first bad field |
| SieExport.PushEach | packages/sie/src/index.ts:337-372 | One printing loop appends the records of each element until the first failure |
| SieReplay.ReadOutput | packages/sie/src/index.ts:373-379 | Reading a printed text without errors is running its records |
| SieRoundTrip.ReadsBackAsCanonical | packages/sie/src/index.ts:324-382 | Whatever is exported reads back without errors as the canonical form of the data: accounts with types, year, objects, opening, closing and result amounts, vouchers with lines |
| SieRoundTrip.BytesRoundTrip | packages/sie/src/index.ts:383-384 | The same through the bytes |
| SieExportable.ReadsBackIff | packages/sie/src/index.ts:373-379 | Printed text reads back without errors if and only if the data keep the limits of the format, repeat no number or name, stay in the year, declare their objects and balance |
| SieExportable.ExportSucceedsIff | packages/sie/src/index.ts:324-384 | The exact condition under which an export succeeds: printing, read-back check and code page refuse nothing else |
| ExportLaws.FileIsInOrder | packages/sie/src/index.ts:337-372 | An exported file lists accounts and balances by number, objects by dimension and identifier, vouchers by date, series and number |
| ImportLaws.ReviewPassesIff | apps/api/src/sie/sie.service.ts:583-655 | The review of a text passes if and only if it is free of errors, its year is the open year chosen, it agrees with ledger and catalogue, and activations were confirmed if there are any |
| ImportLaws.ImportedAccountsAre | apps/api/src/sie/sie.service.ts:134-201 | An import leaves every account as it is but for switching on inactive ones of the catalogue that the document carries amounts on; every account it adds is made of an account of the document |
| ImportLaws.ImportedKindFitsIff | apps/api/src/sie/sie.service.ts:161-201 | After an import an account of the document typed T is an asset, I revenue, K an expense, S equity or a liability, if and only if it is not an S account new to ledger and catalogue under a number outside class 2; that one has the kind of its class |
| ImportLaws.VoucherIsBooked | apps/api/src/sie/sie.service.ts:262-343 | The vouchers are appended in document order, each posted under its series code, number and date with its text or the standing one, each line with account, signed amount, date, text, project and cost centre |
| ImportLaws.BookedIsActive | apps/api/src/sie/sie.service.ts:134-201 | Every account an imported voucher books on is active afterwards |
| ImportLaws.SeriesIsRaised | apps/api/src/sie/sie.service.ts:273-290 | The counter of the series goes past the imported number and every number used in it, no further than needed and never back |
| ImportLaws.LetterIsRead | packages/sie/src/index.ts:173-176 | Reading #KTYP with the letter of a type gives that type: T assets, S debt, I income, K cost |
| ImportLaws.AccountIsPrinted | packages/sie/src/index.ts:336-340 | An account is printed by number and name and by the letter of its kind |
| ImportLaws.AccountsAreExported | apps/api/src/sie/sie.service.ts:468-506 | An exported file lists every account of the ledger by number and name under the #KTYP letter its kind fits: T asset, S equity and liability, I revenue, K expense |
| ImportLaws.TypeSurvivesIff | apps/api/src/sie/sie.service.ts:161-201 | File to file: an account typed by the imported file is exported with the same type if and only if it is not the exception of ImportLaws.ImportedKindFitsIff |
| SieImportService.ImportDocument | apps/api/src/sie/sie.service.ts:94-412 | The import on the stored tables: review, accounts, opening balances, vouchers; any failure rolls everything back |
| SieImportService.ImportOpenings | apps/api/src/sie/sie.service.ts:220-260 | Opening rows, refused on used years and result accounts, then validated |
| SieImportService.RaiseSeries | apps/api/src/sie/sie.service.ts:273-290 | The series is found or created and its counter raised past every used number |
| SieImportService.ImportVouchers | apps/api/src/sie/sie.service.ts:262-343 | Vouchers are posted in document order; the first refusal stops |
| SieImportService.ActivateAccounts | apps/api/src/sie/sie.service.ts:134-140 | Reviewed inactive accounts are activated, in the order of the review |
| SieImportService.CreateAccounts | apps/api/src/sie/sie.service.ts:161-201 | The loop creates the missing accounts; which, and of which kind, ImportLaws.ImportedAccountsAre and ImportLaws.ImportedKindFitsIff state |
| ImportSteps.ImportKeeps | apps/api/src/sie/sie.service.ts:94-412 | An import of any text keeps the ledger in order and only adds |
| ImportSteps.NumberIsItsDigits | apps/api/src/sie/sie.service.ts:635-643 | A voucher number is determined by its numeric value, so distinct document vouchers get distinct numbers |
| SieLedger.GatherExport | apps/api/src/sie/sie.service.ts:446-467 | The balance loops compute opening and closing net of every account |
| SieLedger.ExportBalances | apps/api/src/sie/sie.service.ts:507-511 | The exported balances are opening net and opening plus posted net |
| SieLedger.VouchersSurvive | apps/api/src/sie/sie.service.ts:264-343 | Import into an empty year, then export: every voucher keeps series, number, date and its lines in order with account, signed amount, line date and objects; nothing is added |
| SieLedger.VoucherTextKeptIff | apps/api/src/sie/sie.service.ts:309-309 | The text of a voucher comes back if and only if it was not empty |
| SieLedger.IsoTextOfDay | apps/api/src/sie/sie.service.ts:492-495 | The ISO text of the day of a date is that date |
| SieBalances.BalancesSurvive | apps/api/src/sie/sie.service.ts:446-511 | Every account is exported with the opening and closing amount the document gives it, to the letter of #IB, #UB and #RES |
| SieBalances.NothingDropped | apps/api/src/sie/sie.service.ts:161-168 | A number that names no account after the import carries no amount in the document |
| SieWholeTrip.ReadFile | apps/api/src/sie/sie.service.ts:39-60 | A file is decoded, parsed and imported, all or nothing |
| SieWholeTrip.WriteYear | apps/api/src/sie/sie.service.ts:413-545 | The export of a year: validated opening balances, balances, vouchers, printing, encoding |
| SieYearExport.YearExportsIff | apps/api/src/sie/sie.service.ts:413-545 | For a ledger in order, the exact condition under which a year can be exported, read off names, numbers, amounts and line dates; uniqueness, balances and voucher dates never refuse it |
| SieYearExport.BalancesAgree | apps/api/src/sie/sie.service.ts:446-511 | In a ledger in order whose amounts fit, exported openings sum to zero and every closing amount is the opening plus what the exported vouchers move |
| SieYearExport.ReachableYearExportsIff | apps/api/src/sie/sie.service.ts:413-545 | The same for every reachable ledger whose years are requested by dates, without any condition on the days stored |
| SieYearExport.LineDatesFitIff | apps/api/src/journal-entries/journal-entries.service.ts:495-532 | In every reachable ledger the line dates of a year lie in it if and only if no correction of the year corrects a voucher of another year with dated lines |
| SieYearExport.CrossYearCorrectionBarsExport | apps/api/src/journal-entries/journal-entries.service.ts:495-532 | A case where it cannot: a correction copies line dates, so one posted in another year than its voucher with dated lines bars every export of its year |
| CrossYearCase.CorrectionBarsYear | apps/api/src/journal-entries/journal-entries.service.ts:467-532 | The case reached from the empty ledger: two years, a voucher with dated lines imported into the first from a text, corrected in the second; before the correction the second year exports under all names that can be written, afterwards under none |
| DatedFile.TextIsRead | packages/sie/src/index.ts:111-314 | The text of that case parses without errors as the document with its one voucher and two dated lines |
| SieWholeTrip.FileSurvives | apps/api/src/sie/sie.service.ts:413-545 | File to ledger to file: the exported bytes read without errors and hold the same vouchers as the imported bytes |
| SieWholeTrip.FileBalancesSurvive | apps/api/src/sie/sie.service.ts:446-511 | File to ledger to file: every account number has the same opening and closing amount in both files |
| Vat.CalculateVatReport | apps/api/src/vat/vat-reporting-engine.ts:54-237 | The three passes of the report compute the specified groups, anomalies in order, codes and totals; what these are on debit and credit, VatMeaning.TotalsReadOff, CodeReadsOff and the warning laws state |
| VatMeaning.TotalsReadOff | apps/api/src/vat/vat-reporting-engine.ts:151-234 | When no group holds two directions: output base and VAT are credit less debit of the accepted OUTPUT lines in role BASE and TAX, input base and VAT debit less credit of the INPUT lines, the base without VAT that of exempt BASE lines, and the position is output less input |
| VatMeaning.SameGroupIff | apps/api/src/vat/vat-reporting-engine.ts:130-130 | Lines stand in one group if and only if they agree in voucher and group, the VAT code standing for a missing group |
| VatMeaning.CodeReadsOff | apps/api/src/vat/vat-reporting-engine.ts:151-204 | A code of the report shows its BASE and TAX lines with the same signs, when no group mixes configurations |
| VatMeaning.CodeIsListed | apps/api/src/vat/vat-reporting-engine.ts:167-204 | Every accepted line is reported under its configuration, when no group mixes configurations |
| VatMeaning.LineWarningIff | apps/api/src/vat/vat-reporting-engine.ts:78-129 | A warning about a line (missing code, conflict with the account, missing configuration, unclassified, invalid rate) is given if and only if some line gives the reason, and names its account and voucher |
| VatMeaning.VoucherWarningIff | apps/api/src/vat/vat-reporting-engine.ts:164-167 | The report warns of unbalanced vouchers if and only if debit and credit of some voucher differ |
| VatMeaning.MixWarningIff | apps/api/src/vat/vat-reporting-engine.ts:139-150 | It warns of mixed codes if and only if some group holds lines of two configurations |
| VatMeaning.GroupWarningIff | apps/api/src/vat/vat-reporting-engine.ts:171-192 | A warning about a group (tax without base, base without tax, tax on exempt lines, opposite sides, tax other than rate times base) is given if and only if the lines of some group give the reason |
| Vat.ReadLines | apps/api/src/vat/vat-reporting-engine.ts:78-163 | First pass: line anomalies, entry sums and groups in order of first occurrence |
| Vat.SumCodes | apps/api/src/vat/vat-reporting-engine.ts:167-204 | Third pass: group anomalies and the sums by code |
| VatLaws.CodeTotalIsLineSum | apps/api/src/vat/vat-reporting-engine.ts:151-204 | Conservation: base and tax of a code are the signed sums of the lines grouped under it |
| VatLaws.CorrectionIsNeutral | apps/api/src/journal-entries/journal-entries.service.ts:495-532 | On report lines: with a voucher and its correction, in any line order, every code shows what it would show without the two |
| VatLaws.VoucherPlusCorrectionIsZero | apps/api/src/vat/vat-reporting-engine.ts:130-204 | A voucher and its correction alone report zero base and tax for every code |
| VatLaws.CorrectionRaisesSameAnomalies | apps/api/src/vat/vat-reporting-engine.ts:78-192 | The correction raises the same anomalies as its voucher, one for one and in order |
| LedgerVat.ViewShows | apps/api/src/reports/reports.service.ts:455-500 | A line is read with its amounts, code, role, group and stored configuration, number and expected code of its account, series and number of its voucher |
| LedgerVat.VatSucceedsIff | apps/api/src/reports/reports.service.ts:441-480 | The VAT report answers if and only if the interval is one of the year and at most 20000 lines are read |
| LedgerVat.CodesAreOrdered | apps/api/src/vat/vat-reporting-engine.ts:205-217 | Codes are listed by code text and, within one, by version |
| LedgerVat.ReadsVoucher | apps/api/src/reports/reports.service.ts:455-484 | However the database orders lines of one date and line number, the report reads all lines of a voucher of the interval, in their order, or none |
| LedgerVat.CodesIgnoreVoucherOrder | apps/api/src/vat/vat-reporting-engine.ts:78-204 | What each code reports depends on the order of lines within a voucher only |
| LedgerVat.VatIsDetermined | apps/api/src/reports/reports.service.ts:441-513 | Two answers of the VAT report for the same books and interval have the same totals and the same amounts by code |
| LedgerVat.MirrorIsImage | apps/api/src/journal-entries/journal-entries.service.ts:495-532 | The report reads the lines of a correction as the images of the lines it mirrors |
| LedgerVat.CorrectionIsVatNeutral | apps/api/src/journal-entries/journal-entries.service.ts:467-532 | In every reachable ledger a report that covers a voucher and its correction shows under every code what it would show without either |
| LedgerVat.ReachableVatBalances | apps/api/src/vat/vat-reporting-engine.ts:164-167 | The balance check of the report never fires on a reachable ledger |
| VatLaws.RoundingBound | apps/api/src/vat/vat-reporting-engine.ts:186-186 | Rounding half away from zero is within half a unit |
| VatLaws.CodeTaxIsNearRateTimesBase | apps/api/src/vat/vat-reporting-engine.ts:186-203 | Without RATE_BASE_MISMATCH the tax of a code of k groups is within 5000 k of rate times base when multiplied by 10000 |
| VatLaws.DirectionTotalIsLineSum | apps/api/src/vat/vat-reporting-engine.ts:218-234 | A direction total is the signed sum of the accepted lines, each counted in the direction of its group |
| VatLaws.OneDirectionTotalsArePlain | apps/api/src/vat/vat-reporting-engine.ts:218-234 | When no group holds accepted lines of two directions, every total is the plain signed sum of the accepted lines of its direction |
| VatLaws.TotalsArePlainIff | apps/api/src/vat/vat-reporting-engine.ts:139-234 | For given lines the totals are plain sums under every choice of non-negative amounts if and only if no group holds accepted lines of two directions |
| VatLaws.UnmixedTotalsArePlainSums | apps/api/src/vat/vat-reporting-engine.ts:218-234 | In particular, without MIXED_VAT_CODES every total is a plain sum |
| VatLaws.TotalsIgnoreOrder | apps/api/src/vat/vat-reporting-engine.ts:218-234 | Without a group of two directions the totals do not depend on the order of the lines |
| VatLaws.MixedGroupMovesAmounts | apps/api/src/vat/vat-reporting-engine.ts:139-162 | A failing case: an output base line that follows an input line into its group vanishes from the output base |
| SwedishVat.MapSwedishVatReport | apps/api/src/vat/swedish-vat-configuration.ts:35-100 | The mapping loop: boxes, warnings and completeness |
| SwedishVat.BoxesShow | apps/api/src/vat/swedish-vat-configuration.ts:53-80 | Box 10 is the output tax at 25 percent, 11 that at 12, 12 that at 6, 05 the output base at these rates, 48 the input tax, 49 boxes 10 to 12 less 48 |
| SwedishVat.WarnsIff | apps/api/src/vat/swedish-vat-configuration.ts:53-70 | A code is warned of if and only if it is not a domestic one of the present version at such a rate; for review when it is exempt without a category |
| SwedishVat.CoversIff | apps/api/src/vat/swedish-vat-configuration.ts:46-52 | The mapping covers an interval if and only if it begins and ends in 2026, where it is bounded |
| SwedishVat.CompleteMappingDropsNothing | apps/api/src/vat/swedish-vat-configuration.ts:53-98 | Without warnings box 05 is the output base, 10+11+12 the output tax, 48 the input tax, 49 the VAT position, and there is no base without VAT |
| Sessions.AuthService.ReadRefresh | apps/api/src/auth/auth.service.ts:167-203 | The unlocked read of a refresh: what is decided and left to commit |
| Sessions.AuthService.ReadLogout | apps/api/src/auth/auth.service.ts:270-292 | The unlocked read of a logout leaves the decision to commit that the steps make; which one, and when none, Sessions.LogoutSchedules states |
| Sessions.AuthService.CommitFlight | apps/api/src/auth/auth.service.ts:204-258 | The locked transaction of a refresh or revocation, from the state at commit |
| Sessions.AuthService.RevokeFamily | apps/api/src/auth/auth.service.ts:447-464 | The family-wide update revokes exactly the unrevoked rows of the family |
| Sessions.AuthService.Login | apps/api/src/auth/auth.service.ts:371-427 | A login starts a family with both lifetimes |
| Sessions.RunKeepsInv | apps/api/src/auth/auth.service.ts:204-258 | Every interleaving of reads, commits, logins and revocations keeps the session table in order |
| Sessions.FamiliesAreSingleChains | apps/api/src/auth/auth.service.ts:376-389 | In every reachable state a family is one replacement chain, only its last member can be unrevoked, and no expiry exceeds the absolute expiry fixed at login |
| Sessions.DeadStaysDead | apps/api/src/auth/auth.service.ts:447-464 | A family without an active session never gets one again |
| Sessions.RowsAreStable | apps/api/src/auth/auth.service.ts:220-241 | Identity, secret and lifetime of a row never change, and a revoked row does not change at all |
| Sessions.ReplayIsDetectedIff | apps/api/src/auth/auth.service.ts:167-196 | Presenting a rotated credential schedules the family revocation if and only if it authenticates: right secret, enabled user, not expired |
| Sessions.ReplayKillsFamily | apps/api/src/auth/auth.service.ts:189-196 | A detected replay leaves the family with none active in every later state, whatever runs before and after the revocation commits |
| Sessions.LogoutSchedules | apps/api/src/auth/auth.service.ts:270-292 | A logout with a refresh credential that is unrevoked, unexpired and has the right secret schedules the revocation of its family, otherwise one with a verified access token that of its session; nothing is scheduled if and only if there is neither |
| Sessions.LogoutCommits | apps/api/src/auth/auth.service.ts:447-464 | Its commit marks every unrevoked session of the family as logged out and changes no other row |
| Sessions.LogoutKillsFamily | apps/api/src/auth/auth.service.ts:270-292 | After that commit no session of the family is active in any later state, whatever runs before and after |
| Sessions.LogoutDooms | apps/api/src/auth/auth.service.ts:270-292 | In every state after a logout its revocation is still to be committed or the family is dead |
| Sessions.RefreshRotatesIff | apps/api/src/auth/auth.service.ts:167-203 | A refresh schedules a rotation if and only if its session is unrevoked, unexpired, of an enabled user and has the right secret; the replacement inherits family and absolute expiry and lives at most the refresh time |
| Sessions.RefreshOtherwise | apps/api/src/auth/auth.service.ts:167-203 | A refresh that schedules no rotation schedules the revocation of the family if and only if its credential authenticates and was rotated, and nothing otherwise |
| Sessions.RefreshCommits | apps/api/src/auth/auth.service.ts:204-258 | The commit of a rotation adds the replacement and retires its session if that is still unrevoked |
| Sessions.LosingRefreshKillsFamily | apps/api/src/auth/auth.service.ts:210-222 | A refresh that finds its session rotated meanwhile does not rotate and leaves the family dead for good |
| Sessions.OneWinnerPerSession | apps/api/src/auth/auth.service.ts:204-258 | Of two refreshes that read the same live session at most one rotates, and the other kills the family |
| Sessions.ExpiredReplayIsIgnored | apps/api/src/auth/auth.service.ts:167-196 | The limit of the promise: after login, refresh and commit, the rotated credential replayed after its own expiry leaves the family active |

## Left out

- Decimal arithmetic: amounts are exact integers; the 40-digit precision limit of the reporting decimals and the column widths of the database are not modelled.
- Text comparison: `localeCompare` and the reading of a VAT rate text are parameters (`collate`, `rates`), so the results hold for any collation.
- Text encoding: texts are sequences of characters without lone surrogates; lengths are counted in UTF-16 units as the source does.
- Registers: account eligibility, projects, cost centres, VAT codes, the installed catalogue and the framework of the organization are what a request sees in `Registers`, `Review` and `Catalog.Installed`; how they are maintained is not modelled.
- Onboarding: it creates a year, a series and accounts in one transaction, each as its own step does; the starter accounts it adds without a catalogue are steps of their own.
- LedgerVat.VatOf: the ledger names a VAT code by its code, which is unique in an organization, where the report reads its identifier.
- SieWholeTrip.ExportYear: the organization name and the object list (registers overlaid with the first label used in a posted line) are a parameter.
- SieLedger.VouchersSurvive: says nothing of texts, which the import replaces when they are missing.
- LedgerMachine.Do: creating a year takes two day numbers and periods that tile the interval, where the request has two dates: that the service builds the calendar months is stated by `FiscalYears.Create`, and results that need calendar dates hold of runs whose years are requested by dates (`StoredForm.AllNameDays`). In the two cases the periods given are those months (`LockedCase.OneMonth`, `CrossYearCase.PeriodsAreMonths`).
- LedgerSafety.NumbersHaveNoGaps: excludes imports, which bring their own numbers and may leave gaps.
- JournalService.PostEntry: a serialization failure is an attempt that commits nothing; when the database raises one is a parameter, and the failure itself is returned as `SerializationFailure`.
- Normal balance sides of accounts: only the type decides signs in the reports; the stored normal side is shown but not used in arithmetic.
- Snapshots of account and dimension labels on posted lines, entry references, quantities, attachments and audit rows: stored beside the vouchers without effect on amounts.
- Entries without a voucher series: every modelled entry names one, as creation requires.
- Order of report rows and of carried rows: accounts are taken in stored order.
- Row locks and deadlocks: a transaction is one atomic step; that the locks of the services serialize them is not proved.
- Preview tokens and the size limit of the SIE import: the confirmation recomputes the review in the same step, so a stale token is not modelled.
- Access tokens are verified outside the model: a verified one names a session of its own user. Cookies, password hashing and revocation by password change are outside the session families.
- Dashboard, list queries, posting templates, memberships, invitations and permissions: they would add easy members only.
- The web client: display and input only.
