# Personal finance app: verified model of its in-memory logic

The application is a React/Supabase personal-finance app. It records incomes (`receitas`), expenses (`despesas`, possibly paid in installments) and investments, shows a monthly dashboard, a balance calendar, a minimum-balance goal with a gauge, and reports. This project models what the pages compute once the data has been fetched, and proves properties of it:

- **Installment projection and the monthly view** (`Dashboard`, `Currency`). Every installment purchase yields one virtual occurrence in each month of its installment window. The occurrence carries:
  - the `_parcela_k` id and the `(k/N)` description;
  - the share rounded to cents;
  - the start day moved into the month, rolling over when the month is too short.

  The occurrences are merged with the month's one-off expenses and sorted latest first. The result is then reshaped for display and totalled. Both dashboard pages (`FuturisticDashboard.tsx` and `Dashboard_old.tsx`) share this model.
- **Calendar arithmetic**:
  - `Calendar`: the civil calendar, Gregorian leap years, the weekday through days-from-civil, and the roll-over of `new Date(y, m, d)`;
  - `DiasUteis`: business days and the 2025 holidays;
  - `DatePicker`: the date picker's month grid;
  - `Calendario`: the 42-cell balance calendar, with its running balance and five-way status;
  - `MonthNavigation`: the previous/next month buttons.
- **Balance goal**:
  - `SaldoGauge`: the gauge's three-way status, its bar widths and the goal difference;
  - `MetaSaldo`: progress, days left and required saving on the goal page;
  - `MetaSaldoAntigo`: the older goal page's summary, simulation and saved simulation status.
- **List pages**:
  - `Despesas`, `Receitas`, `Investimentos`: search and type filters, submit guards, the records the forms store and total cards, plus the edit forms of `Despesas` and `Receitas`;
  - `InvestimentosAntigo`: the older investment page's compound-interest projection.
- **Reports**:
  - `Relatorios`: month keys, grouping by month and category, period start, totals;
  - `RelatoriosAntigo`: the weekday, day-of-month and six-month buckets, and the top-6 categories.

Shared pieces:

- `Totals` holds `filter` plus `reduce` sums and their algebra.
- `Sorting` holds the stable descending sort that `Array.prototype.sort` provides (stability is `Sorting.SortDescStable`).
- `Agrupamento` holds dictionary accumulation in insertion order and fixed buckets.
- `Text` holds decimal rendering and parsing, zero padding, lower-casing and substring search.
- `Records` holds the stored record shapes.
- `Wrappers` holds `Option`.

Modelling choices:

- **Money** is an exact `real`.
- **Dates** are `(year, month0, day)` triples. A comparison of JavaScript `Date`s becomes a comparison of day numbers (days from the civil epoch).
- **Query results** are input sequences.
- **Parsed form numbers** are inputs: in the current pages, `parseFloat` and `parseInt` readings are given as `Option`, where `None` stands for `NaN`; the older pages (`MetaSaldoAntigo`, `RelatoriosAntigo`) take the readings as reals. A `NaN` written to the database becomes `null`, since JSON has no `NaN`.
- **The clock** ("today", "now") is a parameter.
- **Loops stay loops.** Where the source fills an array in a loop or reassigns a filtered list step by step, the model is a method with loop invariants, proved equal to a specification function; the properties are lemmas about that function. The rest is functions and lemmas.

## Model

| member | source | states |
|---|---|---|
| Calendar.DaysInMonth | src/components/DatePicker.tsx:45-46 | the last day of a month is between 28 and 31, and is 29 exactly for February of a Gregorian leap year |
| Calendar.MonthLength | src/components/DatePicker.tsx:45-46 | the length of the month with a given month index is between 28 and 31 |
| Calendar.DateAt | src/pages/FuturisticDashboard.tsx:116 | the date for a month index and day has that month index and day, with a month in 0..11; it is a valid date when the day exists in that month |
| Calendar.Normalise | src/pages/FuturisticDashboard.tsx:116 | stepping a day that is out of range by whole months always ends on a valid date |
| Calendar.MakeDate | src/pages/FuturisticDashboard.tsx:116 | `new Date(y, m, d)` with any month and day always yields a valid date |
| Calendar.NormaliseInRange | src/pages/FuturisticDashboard.tsx:116 | a day that exists in the month is kept as it is |
| Calendar.NormaliseBackward | src/components/DatePicker.tsx:53 | day 0 or a negative day counts back into the previous month's last days |
| Calendar.NormaliseForward | src/pages/FuturisticDashboard.tsx:116 | a day past the month's end rolls into the next month, minus the month's length |
| Calendar.DateAtMonthIndex | src/components/DatePicker.tsx:42-46 | a valid date is rebuilt from its month index and day, and its month has the length the year and month give |
| Calendar.DayInMonthLength | src/components/DatePicker.tsx:42-46 | the day of a valid date lies within its month's length |
| Calendar.LastDayOfMonth | src/components/DatePicker.tsx:45-46 | `new Date(y, m + 1, 0)` is the last day of month m |
| Calendar.LastDayOfMonthIndex | src/utils/diasUteis.ts:94 | the same, for any month number, stated by month index |
| Calendar.NovaData | src/utils/diasUteis.ts:60 | `new Date(ano, mes, dia)` is valid, and for a day inside the month it is that day of that month |
| Calendar.UltimoDiaDoMes | src/utils/diasUteis.ts:94 | `new Date(ano, mes + 1, 0)` is the valid last day of the month |
| Calendar.Weekday | src/utils/diasUteis.ts:6-8 | `getDay` is in 0..6 |
| Calendar.DayNumber | src/pages/FuturisticDashboard.tsx:130 | the day count behind `getTime()` is 0 on 1 January 1970 |
| Calendar.MarchYearLength | src/utils/diasUteis.ts:6-8 | from 1 March to 1 March of the next year the count grows by 366 exactly when that next year is a leap year, by 365 otherwise |
| Calendar.InMonthDayNumber | src/utils/diasUteis.ts:6-8 | within a month the day count steps with the day |
| Calendar.MonthEndDayNumber | src/utils/diasUteis.ts:6-8 | the last day of January..November is followed by day 1 of the next month one count later, 28 and 29 February included |
| Calendar.YearEndDayNumber | src/utils/diasUteis.ts:6-8 | 31 December is followed by 1 January one count later |
| Calendar.NextDay | src/utils/diasUteis.ts:60 | `new Date(y, m, d + 1)` is a valid date |
| Calendar.NextDayCases | src/utils/diasUteis.ts:60 | the day after a valid date is the next day of its month, or day 1 of the next month, or 1 January |
| Calendar.DayNumberNextDay | src/utils/diasUteis.ts:6-8 | for every valid date, the day after it has the next day count and the next weekday (Saturday followed by Sunday) |
| Calendar.Timestamp | src/utils/currency.ts:68-73 | `getTime()` of a time of day on a date lies within that date's day of milliseconds |
| Calendar.MidnightVersusEndOfDay | src/utils/currency.ts:69-72 | a midnight is at or before 23:59:59.x of another day exactly when its calendar day is on or before that day |
| Calendar.SetMonth | src/pages/FuturisticDashboard.tsx:156-166 | `setMonth(getMonth() + delta)` on a copy always yields a valid date |
| Currency.RoundToTwoDecimals | src/utils/currency.ts:6-8 | the result is a whole number of cents within half a cent of the input, with exact halves rounded up |
| Currency.RoundUnique | src/utils/currency.ts:6-8 | the rounding is the only whole-cent value in that half-cent window |
| Currency.RoundIdempotent | src/utils/currency.ts:6-8 | a value already in whole cents is returned unchanged |
| Currency.RoundTwice | src/utils/currency.ts:6-8 | rounding twice equals rounding once |
| Currency.RoundMonotone | src/utils/currency.ts:6-8 | rounding preserves order |
| Currency.CalculateParcelaValue | src/utils/currency.ts:26-28 | the installment share is in whole cents and is the total over N rounded to cents |
| Currency.ParcelaDrift | src/utils/currency.ts:26-28 | N installments add up to the total give or take N half-cents |
| Currency.SingleParcela | src/utils/currency.ts:26-28 | a single installment is the total rounded to cents |
| Currency.GetMonthsDifference | src/utils/currency.ts:42-45 | the difference of the two month indexes, ignoring the day (hence antisymmetric) |
| Currency.MonthsDiffAdvance | src/utils/currency.ts:42-45 | from a date to the same date advanced k months the difference is k, or k + 1 when the day rolls over |
| Currency.IsDateInMonth | src/utils/currency.ts:33-37 | a date counted as in a month has that month's month index (IsDateInMonthIff gives the converse) |
| Currency.IsDateInMonthIff | src/utils/currency.ts:33-37 | a date is in a month exactly when the month difference is 0 |
| Currency.DateTextFields | src/utils/currency.ts:54 | `${year}-${mm}-${dd}` has its dashes 6 and 3 places from the end, and the three fields can be cut back out |
| Currency.ParseDateInputFields | src/utils/currency.ts:54 | reading the three fields back gives the date when it is valid, and nothing otherwise |
| Currency.FormatDateForInput | src/utils/currency.ts:50-55 | for a month in 0..11 and a day below 100, the text has dashes before its last five and last two characters, and its year, month and day fields read back as the year, month + 1 and day |
| Currency.FormatDateRoundTrip | src/utils/currency.ts:50-55 | `formatDateForInput` of a valid date parses back to that date |
| Currency.IsValidTransactionDate | src/utils/currency.ts:68-73 | a transaction date is accepted exactly when its calendar day is on or before today |
| Text.NatToString | src/pages/FuturisticDashboard.tsx:120 | the decimal text of a number is non-empty, all digits, without a leading zero except for 0, and one digit exactly below 10 |
| Text.IntToString | src/pages/FuturisticDashboard.tsx:123 | the decimal text of an integer is non-empty |
| Text.ParseNatToString | src/pages/FuturisticDashboard.tsx:120 | the decimal text of a natural number parses back to it |
| Text.ParseIntToString | src/pages/FuturisticDashboard.tsx:123 | the decimal text of an integer, with its sign, parses back to it |
| Text.NatToStringInjective | src/pages/FuturisticDashboard.tsx:120 | different numbers have different decimal texts |
| Text.Pad2 | src/utils/currency.ts:52-53 | `padStart(2, '0')` of 0..99 is two digits |
| Text.Pad2Parse | src/utils/currency.ts:52-53 | the two padded digits parse back to the number |
| Text.Lower | src/pages/FuturisticDespesas.tsx:53 | `toLowerCase` on ASCII and Latin-1 text keeps the length and lower-cases each capital letter, leaving every other character as it is |
| Text.ContainsEmpty | src/pages/FuturisticDespesas.tsx:51-55 | every text contains the empty search term |
| Sorting.Insert | src/pages/FuturisticDashboard.tsx:130 | inserting adds exactly the new element |
| Sorting.InsertSorted | src/pages/FuturisticDashboard.tsx:130 | inserting into a latest-first list keeps it latest-first |
| Sorting.SortDesc | src/pages/FuturisticDashboard.tsx:130 | the sort is a permutation of its input |
| Sorting.SortDescSorted | src/pages/FuturisticDashboard.tsx:130 | the sorted list is in descending key order |
| Sorting.SortDescMembers | src/pages/FuturisticDashboard.tsx:130 | the sorted list has exactly the input's members |
| Sorting.InsertStable | src/pages/FuturisticDashboard.tsx:130 | the inserted element lands ahead of every element with its own key |
| Sorting.SortDescStable | src/pages/FuturisticDashboard.tsx:130 | the sort is stable: for every key, the elements with that key keep their input order |
| Dashboard.Occurrence | src/pages/FuturisticDashboard.tsx:109-125 | a purchase has an occurrence in a month exactly when it has a non-zero installment count and a start date, and the month is in the half-open window [start, start + N); the occurrence's number is in 1..N and is the month's distance from the start month plus one, its id and description carry that number, and its amount is the total over N rounded to cents; every field other than id, amount, date, description and number is copied |
| Dashboard.OccurrenceOfEachInstallment | src/pages/FuturisticDashboard.tsx:112-124 | installment j of N appears j - 1 months after the start, numbered j, with the `_parcela_j` id, the `(j/N)` description and the rounded share |
| Dashboard.InstallmentNumberDeterminesMonth | src/pages/FuturisticDashboard.tsx:112-115 | two months showing the same installment of a purchase are the same month, so a purchase has at most one occurrence per month |
| Dashboard.ParcelaIdInjective | src/pages/FuturisticDashboard.tsx:120 | different installments of one purchase never share an id |
| Dashboard.OccurrenceDate | src/pages/FuturisticDashboard.tsx:116 | the occurrence is on the start day in the reference month, or, when the reference month lacks that day, in the next month on the start day minus the reference month's length |
| Dashboard.Occurrences | src/pages/FuturisticDashboard.tsx:108-128 | there are never more occurrences than purchases |
| Dashboard.OccurrencesCount | src/pages/FuturisticDashboard.tsx:108-128 | one occurrence per purchase whose window covers the month, none for the others |
| Dashboard.OccurrencesFrom | src/pages/FuturisticDashboard.tsx:118-125 | every occurrence is the occurrence of one of the purchases, and keeps its `fixa` and `parcelado` flags |
| Dashboard.OccurrencesPasso | src/pages/FuturisticDashboard.tsx:108-128 | each purchase visited appends its occurrence, if any, at the end |
| Dashboard.ProcessarDespesasDoMes | src/pages/FuturisticDashboard.tsx:106-130 | the loop's result is the one-off expenses followed by the occurrences, sorted latest first, and is a permutation of them |
| Dashboard.ProcessadasOrdenadas | src/pages/FuturisticDashboard.tsx:106-130 | the processed month is sorted latest first, has one entry per one-off expense plus one per purchase in window, and contains every one-off expense |
| Dashboard.ToDespesaMes | src/pages/FuturisticDashboard.tsx:137-148 | the display row copies id, description, amount, date, flags and installment numbers, has the stored category when non-empty and 'Geral' when missing or empty, and has `valor_parcela` (equal to the amount) exactly for installment entries |
| Dashboard.FormatDespesasMes | src/pages/FuturisticDashboard.tsx:137-148 | the display list maps each processed expense in place |
| Dashboard.FormatKeepsSubtotals | src/pages/FuturisticDashboard.tsx:172-174 | reshaping keeps the total and the fixed and installment subtotals |
| Dashboard.ParcelasOfMerged | src/pages/FuturisticDashboard.tsx:96-104 | with the one-off query asking for non-installments and the other for installments, the installment entries of the merged list are exactly the occurrences |
| Dashboard.MonthCards | src/pages/FuturisticDashboard.tsx:427 | the month's total is the one-off expenses plus the occurrences, and the "Parcelas" card shows the occurrences' total, whatever the order |
| Dashboard.SubtotalsAtMostTotal | src/pages/FuturisticDashboard.tsx:421 | with non-negative amounts the "Despesas Fixas" and "Parcelas" cards never exceed the month's total |
| Dashboard.Saldo | src/pages/FuturisticDashboard.tsx:172-175 | with no expenses the balance is the income total, and with non-negative expenses it never exceeds it |
| Dashboard.SaldoOfMonth | src/pages/FuturisticDashboard.tsx:172-175 | the balance is income minus one-off expenses minus the month's installments |
| MonthNavigation.Delta | src/components/DatePicker.tsx:95-99 | the direction moves one month back or forward |
| MonthNavigation.ShiftMonthAsWritten | src/pages/FuturisticDashboard.tsx:156-166 | the navigation as written is `setMonth` of the current month plus or minus one on a copy |
| MonthNavigation.SetMonthEarlyDay | src/pages/FuturisticDashboard.tsx:156-166 | from days 1..28 that moves exactly one month and keeps the day |
| MonthNavigation.AnteriorRollsForward | src/pages/FuturisticDashboard.tsx:159-160 | when the previous month lacks the day, "previous" stays in the same month |
| MonthNavigation.AnteriorFromMarch31StaysInMarch | src/pages/FuturisticCalendario.tsx:228-233 | from 31 March 2025 "previous" gives 3 March 2025 |
| MonthNavigation.ShiftedMonth | src/pages/FuturisticCalendario.tsx:228-233 | the corrected target is the valid first day of the month delta months away |
| MonthNavigation.ShiftMonth | src/components/DatePicker.tsx:92-102 | the corrected navigation moves exactly one month |
| MonthNavigation.ShiftedMonthRoundTrip | src/components/DatePicker.tsx:92-102 | "next" then "previous" returns to the first of the month started from |
| DatePicker.TotalCells | src/components/DatePicker.tsx:77 | the grid length is the least multiple of 7 that holds the cells so far |
| DatePicker.LeadingCells | src/components/DatePicker.tsx:52-60 | the leading cells are the previous month's last days in increasing order, outside the month |
| DatePicker.MonthCells | src/components/DatePicker.tsx:63-74 | the month's cells are days 1..n in order, marked today or selected exactly on those dates |
| DatePicker.TrailingCellsAsWritten | src/components/DatePicker.tsx:76-87 | as written, every trailing cell is day 1 of the next month |
| DatePicker.TrailingCells | src/components/DatePicker.tsx:76-87 | corrected, the trailing cells are days 1, 2, ... of the next month |
| DatePicker.GridStart | src/components/DatePicker.tsx:41-74 | leading cells numbering the first day's weekday, then the month's days |
| DatePicker.GetDaysInMonthAsWritten | src/components/DatePicker.tsx:41-90 | the grid as written: the least multiple of 7 cells, the head as above, each trailing cell dated the 1st of next month, at most one today and one selected cell |
| DatePicker.GetDaysInMonth | src/components/DatePicker.tsx:41-90 | the corrected grid: the least multiple of 7 cells, the head as above, trailing days numbered from 1, at most one today and one selected cell |
| DatePicker.GridHeadPrefix | src/components/DatePicker.tsx:76-87 | appending trailing cells keeps the head of the grid |
| DatePicker.GridMarks | src/components/DatePicker.tsx:63-74 | only the month's cells are current-month, and at most one cell is today and one selected |
| DatePicker.September2025Layout | src/components/DatePicker.tsx:44-47 | September 2025 starts on a Monday and has 30 days, so its grid has 35 cells |
| DatePicker.TrailingCellsDiffer | src/components/DatePicker.tsx:78-87 | the as-written and corrected trailing cells agree exactly when there is at most one trailing cell |
| DatePicker.IsDateDisabled | src/components/DatePicker.tsx:110-116 | never disabled without a maximum; otherwise disabled exactly when the day is after the maximum's day |
| DiasUteis.IsDiaUtil | src/utils/diasUteis.ts:13-16 | a business weekday is exactly one that is neither Sunday (0) nor Saturday (6) |
| DiasUteis.IsFeriado | src/utils/diasUteis.ts:38-41 | every listed holiday is a valid date of 2025 |
| DiasUteis.IsDiaUtilReal | src/utils/diasUteis.ts:46-48 | a real business day is a business weekday, and outside 2025 the two coincide |
| DiasUteis.Contagem | src/utils/diasUteis.ts:53-67 | a count of days among 1..d is between 0 and d |
| DiasUteis.ContagemMonotone | src/utils/diasUteis.ts:53-67 | counting further never counts fewer |
| DiasUteis.ContagemEstrita | src/utils/diasUteis.ts:53-67 | counting up to a further counted day counts more |
| DiasUteis.CountMonotone | src/utils/diasUteis.ts:53-67 | the business-day number is non-decreasing in the day |
| DiasUteis.CountStrictlyIncreasing | src/utils/diasUteis.ts:53-67 | a later business day has a larger business-day number |
| DiasUteis.DiaDoMes | src/utils/diasUteis.ts:60-61 | the loop's date is that day of the month, and it is tested as a real business day |
| DiasUteis.CalcularNumeroDiaUtil | src/utils/diasUteis.ts:53-67 | the number of real business days among days 1..d of the date's month, between 0 and d |
| DiasUteis.ContarAte | src/utils/diasUteis.ts:96-101 | the loop counts the real business days among days 1..last |
| DiasUteis.ObterDataDoNDiaUtil | src/utils/diasUteis.ts:72-87 | nothing exactly when n < 1 or n exceeds the month's business days; otherwise a valid real business day of that month whose business-day number is n |
| DiasUteis.ProcurarAte | src/utils/diasUteis.ts:76-86 | the search loop finds the n-th business day among days 1..last, or nothing exactly when there is none |
| DiasUteis.ContarDiasUteisNoMes | src/utils/diasUteis.ts:92-104 | the month's count is the business-day number of its last day, at most the month's length |
| DiasUteis.ObterListaDiasUteisDoMes | src/utils/diasUteis.ts:109-126 | the list is the month's business days listed up to its last day |
| DiasUteis.ListarAte | src/utils/diasUteis.ts:114-124 | the loop lists the business days among days 1..last |
| DiasUteis.ListagemTamanho | src/utils/diasUteis.ts:109-126 | the list has as many entries as the count |
| DiasUteis.ListagemEntradas | src/utils/diasUteis.ts:116-121 | entry i is numbered i + 1 and holds a counted day of the month |
| DiasUteis.ListagemCrescente | src/utils/diasUteis.ts:109-126 | the listed days strictly increase |
| DiasUteis.ListagemPrefixo | src/utils/diasUteis.ts:109-126 | listing fewer days gives a prefix of the list |
| DiasUteis.ListagemCompleta | src/utils/diasUteis.ts:109-126 | every counted day is in the list, at the position its count gives |
| DiasUteis.ListaDiasUteisTamanho | src/utils/diasUteis.ts:109-126 | the list has contarDiasUteisNoMes entries |
| DiasUteis.ListaDiasUteisEntradas | src/utils/diasUteis.ts:116-121 | entries are numbered 1, 2, ... and each is a valid real business day of the month |
| DiasUteis.ListaDiasUteisCrescente | src/utils/diasUteis.ts:109-126 | the dates strictly increase |
| DiasUteis.ListaDiasUteisCompleta | src/utils/diasUteis.ts:109-126 | every business day of the month is listed, at its business-day number |
| DiasUteis.BusinessDayPosition | src/utils/diasUteis.ts:72-87 | a business day's number is between 1 and the month's count, so it can be looked up |
| DiasUteis.PositionDeterminesDay | src/utils/diasUteis.ts:72-87 | two business days with the same number are the same day |
| DiasUteis.FormatarNumeroDiaUtil | src/utils/diasUteis.ts:131-133 | the text ends in "º dia útil" |
| DiasUteis.FormatarNumeroDiaUtilParse | src/utils/diasUteis.ts:131-133 | what precedes the suffix parses back to the number |
| Calendario.DadosDoMes | src/pages/FuturisticCalendario.tsx:93-95 | the fixed totals are the sums of the fixed rows, and the initial balance is their difference |
| Calendario.SaldoDia | src/pages/FuturisticCalendario.tsx:137-142 | with positive simulations no day's balance exceeds the starting balance; with none it is the starting balance |
| Calendario.SimulacoesNaoNegativas | src/pages/FuturisticCalendario.tsx:137-142 | positive simulations sum to at least zero, in all and up to any day |
| Calendario.SaldoNonIncreasing | src/pages/FuturisticCalendario.tsx:138-142 | with positive simulations a later day never has a higher balance |
| Calendario.PercentualEconomia | src/pages/FuturisticCalendario.tsx:143-145 | the saving percentage is the balance over the fixed income times 100, and 0 without fixed income |
| Calendario.PercentualMonotone | src/pages/FuturisticCalendario.tsx:143-145 | more balance never gives a lower percentage |
| Calendario.StatusOf | src/pages/FuturisticCalendario.tsx:147-152 | each status holds exactly on its band (at least 30, 0..30, -30..0, -50..-30, below -50) |
| Calendario.StatusMonotone | src/pages/FuturisticCalendario.tsx:147-152 | a higher percentage never gets a more severe status |
| Calendario.GridFlags | src/pages/FuturisticCalendario.tsx:116-176 | in a grid exactly the month's cells are current-month, and at most one cell is today |
| Calendario.CelulasAnteriores | src/pages/FuturisticCalendario.tsx:118-129 | the leading cells are the previous month's last days, as padding |
| Calendario.CelulasDoMes | src/pages/FuturisticCalendario.tsx:131-162 | cell d of the month carries day d's balance, percentage and status |
| Calendario.CelulasSeguintes | src/pages/FuturisticCalendario.tsx:164-176 | the trailing cells are days 1, 2, ... as padding |
| Calendario.GradeConcatenada | src/pages/FuturisticCalendario.tsx:116-176 | the three loops' cells together form the grid |
| Calendario.CalcularCalendario | src/pages/FuturisticCalendario.tsx:109-179 | the grid has 42 cells: the leading padding as many as the first day's weekday, the month's days in order with their balances, then padding; exactly the month's cells are current-month; at most one cell is today |
| Calendario.SaldoFinalProjetado | src/pages/FuturisticCalendario.tsx:244 | with positive simulations the projected final balance is at most the starting balance; with none it is the starting balance |
| Calendario.SaldoFinalIsLastDay | src/pages/FuturisticCalendario.tsx:244 | with every simulation inside the month, the projected final balance is the last day's balance |
| Calendario.AdicionarSimulacao | src/pages/FuturisticCalendario.tsx:200-222 | with an empty field, a non-number or a value not above 0 the list is unchanged; otherwise exactly one entry is appended; all-positive lists stay all-positive |
| Calendario.RemoverSimulacao | src/pages/FuturisticCalendario.tsx:224-226 | no remaining entry has the removed id |
| Calendario.RemoverSimulacaoKeepsRest | src/pages/FuturisticCalendario.tsx:224-226 | the remaining list is an order-preserving subsequence holding exactly the entries with other ids |
| Despesas.FiltrarDespesas | src/pages/FuturisticDespesas.tsx:47-69 | the step-by-step filtering equals keeping the records that match both the search and the type |
| Despesas.FiltradasSubsequence | src/pages/FuturisticDespesas.tsx:47-69 | the result is an order-preserving subsequence holding exactly the matching records |
| Despesas.SemFiltroIdentidade | src/pages/FuturisticDespesas.tsx:47-69 | an empty search with 'all' keeps the list unchanged |
| Despesas.TiposDisjuntos | src/pages/FuturisticDespesas.tsx:59-65 | 'variavel' and 'parcelado' never both match, while 'fixa' and 'parcelado' can |
| Despesas.TagArmazenada | src/pages/FuturisticDespesas.tsx:125 | a tag that is blank after trimming is stored as null, any other as typed |
| Despesas.Submeter | src/pages/FuturisticDespesas.tsx:94-147 | rejected for an empty amount or description, for missing or fewer than 1 installments, and for an amount that is not a number above 0; otherwise the stored record has the parsed amount, the typed fields, installments only when installment-paid, and number 1 exactly then |
| Despesas.SubmeterArmazenaValido | src/pages/FuturisticDespesas.tsx:110-129 | a stored record has a positive amount, an installment number exactly when installment-paid, and a count of at least 1 only on installment expenses |
| Despesas.ParcelasIlegiveisPassam | src/pages/FuturisticDespesas.tsx:103-110 | an unreadable installment count passes the guard and is stored as null |
| Despesas.Editar | src/pages/FuturisticDespesas.tsx:193-205 | the edit form carries the record's fields, an empty tag for none, and an empty count exactly when none is stored |
| Despesas.EditarESalvar | src/pages/FuturisticDespesas.tsx:193-205 | saving an unchanged edit form of a valid record stores the record again, with its installment number reset to 1 |
| Despesas.SubtotaisLimitados | src/pages/FuturisticDespesas.tsx:224-228 | with non-negative amounts the fixed and installment totals lie between 0 and the total, and installment plus variable never exceed it |
| Receitas.FiltrarReceitas | src/pages/FuturisticReceitas.tsx:47-64 | the step-by-step filtering equals keeping the records matching the search and the type |
| Receitas.FiltradasSubsequence | src/pages/FuturisticReceitas.tsx:47-64 | the result is an order-preserving subsequence, and the whole list for an empty search with 'all' |
| Receitas.FixaVariavelParticao | src/pages/FuturisticReceitas.tsx:57-62 | 'fixa' and 'variavel' split the searched list: disjoint, covering it, with counts and sums adding up |
| Receitas.VariaveisSaoNaoFixas | src/pages/FuturisticReceitas.tsx:181-184 | the variable total is the sum over non-fixed incomes, and the variable count is the list's length minus the fixed count |
| Receitas.Submeter | src/pages/FuturisticReceitas.tsx:89-130 | rejected exactly for an empty amount or description; otherwise the stored record has the parsed amount, null for an empty tag, and a business-day number exactly when business-day scheduling is on |
| Receitas.SemVerificacaoDeValor | src/pages/FuturisticReceitas.tsx:92-98 | any amount reading, even a non-number, is accepted once both fields are filled |
| Receitas.Editar | src/pages/FuturisticReceitas.tsx:150-162 | the edit form has business-day scheduling off when not stored, and business day 1 when none or 0 is stored |
| Receitas.EditarESalvar | src/pages/FuturisticReceitas.tsx:150-162 | saving an unchanged edit form stores the amount, tag and scheduling again |
| Investimentos.SemAcentos | src/pages/FuturisticInvestimentos.tsx:56-60 | stripping accents keeps the length and maps each character |
| Investimentos.FiltrarInvestimentosComoEscrito | src/pages/FuturisticInvestimentos.tsx:44-61 | the page's step-by-step filtering, as written, equals keeping the items matching the search (name or type) whose lower-cased type contains the key |
| Investimentos.FiltrarInvestimentos | src/pages/FuturisticInvestimentos.tsx:44-61 | the corrected filtering, which drops accents before looking for the key, equals keeping the items matching the search and the type key |
| Investimentos.FiltroAcoesComoEscrito | src/pages/FuturisticInvestimentos.tsx:56-60 | with the 'acoes' filter the page as written shows no 'Ações' item, while the corrected filter shows exactly those passing the search |
| Investimentos.FiltradosSubsequence | src/pages/FuturisticInvestimentos.tsx:44-61 | the result is an order-preserving subsequence holding exactly the matching items |
| Investimentos.AcoesNuncaCorrespondeComoEscrito | src/pages/FuturisticInvestimentos.tsx:56-60 | as written, the 'acoes' key never matches the type 'Ações' the form stores |
| Investimentos.TiposDoFormularioCorrespondem | src/pages/FuturisticInvestimentos.tsx:56-60 | corrected, each of the form's types matches its filter key |
| Investimentos.SemAcentoConcorda | src/pages/FuturisticInvestimentos.tsx:56-60 | on types without accents the corrected and the as-written filter agree |
| Investimentos.ValorAtualOuInicial | src/pages/FuturisticInvestimentos.tsx:182 | the current value when present and non-zero, otherwise the initial value |
| Investimentos.Rentabilidade | src/pages/FuturisticInvestimentos.tsx:313-314 | the item's return plus its initial value is its current-or-initial value, and 0 without a current value |
| Investimentos.PercentualItem | src/pages/FuturisticInvestimentos.tsx:315 | the item's percentage is its return over its initial value times 100, and none when the initial value is 0 |
| Investimentos.PercentualRentabilidade | src/pages/FuturisticInvestimentos.tsx:183-184 | the portfolio's percentage is the total return over the amount invested times 100, and 0 when nothing is invested |
| Investimentos.RentabilidadeTotalSomaItens | src/pages/FuturisticInvestimentos.tsx:181-183 | the total return is the sum of the items' returns, and 0 when no item has a current value |
| Investimentos.Opcional | src/pages/FuturisticInvestimentos.tsx:96-98 | an empty optional number field is stored as null, a filled one as read |
| Investimentos.Submeter | src/pages/FuturisticInvestimentos.tsx:85-127 | rejected exactly for an empty name, type or initial value; otherwise empty optional fields are stored as null and the rest as typed or read |
| InvestimentosAntigo.CalculateMonthsDifference | src/pages/Investimentos.tsx:54-58 | never negative, and the calendar-month difference whenever that is not negative |
| InvestimentosAntigo.MonthsDifferenceMonotone | src/pages/Investimentos.tsx:54-58 | a later month never gives fewer months |
| InvestimentosAntigo.PowAdd | src/pages/Investimentos.tsx:60-62 | powers add their exponents |
| InvestimentosAntigo.PowAtLeastOne | src/pages/Investimentos.tsx:60-62 | a power of a factor of at least 1 is at least 1 |
| InvestimentosAntigo.CalculateProjection | src/pages/Investimentos.tsx:60-62 | over 0 months the projection is the initial value, and with a non-negative value and rate it never falls below it |
| InvestimentosAntigo.ProjectionSteps | src/pages/Investimentos.tsx:60-62 | the projection over 0 months is the initial value, and each further month multiplies by 1 + rate/100 |
| InvestimentosAntigo.ProjectionAdditive | src/pages/Investimentos.tsx:60-62 | projecting a months and then b months is projecting a + b months |
| InvestimentosAntigo.ProjectionMonotone | src/pages/Investimentos.tsx:60-62 | with a non-negative value and rate, a longer horizon never projects less |
| InvestimentosAntigo.ComLucro | src/pages/Investimentos.tsx:35-43 | the record gains its months invested, and its initial value plus its profit is the projection over those months; nothing else changes |
| InvestimentosAntigo.ComLucroLista | src/pages/Investimentos.tsx:35-43 | every fetched record is mapped in place |
| InvestimentosAntigo.ValorAtualSomaProjecoes | src/pages/Investimentos.tsx:115-117 | the portfolio's current value is the sum of the records' projections |
| InvestimentosAntigo.Horizontes | src/pages/Investimentos.tsx:305-331 | the 6-month horizon projects from the months invested plus 6, the 1-year horizon 6 months further, the 2-year horizon 12 months after that |
| InvestimentosAntigo.HorizonteDoValorAtual | src/pages/Investimentos.tsx:305-311 | the 6-month horizon is the current value projected 6 months |
| Relatorios.DataInicio | src/pages/FuturisticRelatorios.tsx:36-51 | the period starts on a valid first day: this month for '1mes', two months back for '3meses', a year back for '1ano', five months back otherwise |
| Relatorios.ChaveDoIndiceInjetiva | src/pages/FuturisticRelatorios.tsx:115 | different months have different "YYYY-MM" keys |
| Relatorios.ChaveDoIndiceInjetivaTodas | src/pages/FuturisticRelatorios.tsx:115 | the month key is injective |
| Relatorios.ChaveMes | src/pages/FuturisticRelatorios.tsx:115 | the key is the year, a dash and the two-digit month, and both fields read back as the year and month + 1 |
| Relatorios.ChaveMesDoIndice | src/pages/FuturisticRelatorios.tsx:114-115 | a transaction's key is the key of its month |
| Relatorios.ChavesPorIndice | src/pages/FuturisticRelatorios.tsx:114-115 | the list of keys is the list of month keys |
| Relatorios.AgruparPorMes | src/pages/FuturisticRelatorios.tsx:110-123 | the dictionary loop yields the grouping by month key in first-occurrence order |
| Relatorios.AgruparPorMesCorreto | src/pages/FuturisticRelatorios.tsx:110-123 | keys are distinct, every transaction's key is present, each group's value is the sum of its transactions, and the groups sum to the total |
| Relatorios.MesesEmOrdemCronologica | src/pages/FuturisticRelatorios.tsx:110-123 | for date-ascending input the keys are the distinct months in strictly increasing order |
| Relatorios.CategoriaDe | src/pages/FuturisticRelatorios.tsx:129 | the category is never empty: the record's own non-empty category, otherwise 'Sem categoria' |
| Relatorios.AgruparPorCategoria | src/pages/FuturisticRelatorios.tsx:125-136 | the dictionary loop yields the grouping by category ('Sem categoria' when absent), sorted by value descending |
| Relatorios.AgruparPorCategoriaCorreto | src/pages/FuturisticRelatorios.tsx:125-136 | sorted descending, a permutation of the distinct-key groups, each group the sum of its category, every expense's category present, all summing to the total |
| Relatorios.CategoriaPresente | src/pages/FuturisticRelatorios.tsx:128-135 | an expense's category ('Sem categoria' when absent) has a line in the sorted list |
| Relatorios.ChaveAposOrdenar | src/pages/FuturisticRelatorios.tsx:133-135 | sorting the groups keeps their keys |
| Relatorios.GerarRelatorio | src/pages/FuturisticRelatorios.tsx:77-102 | the totals, balance, groupings and fixed sums of the report, with the month and category groupings summing to the totals |
| Relatorios.VariaveisSaoNaoFixas | src/pages/FuturisticRelatorios.tsx:355-376 | the variable amounts shown (total minus fixed) are the sums over non-fixed transactions |
| RelatoriosAntigo.CalculateTotals | src/pages/Relatorios.tsx:204-211 | the balance is income minus expenses, and 0 with no records |
| RelatoriosAntigo.TotaisAcompanhamOsRegistros | src/pages/Relatorios.tsx:204-211 | one more income raises its total and the balance by its amount, one more expense lowers the balance by its amount, one more investment raises the invested total and leaves the balance alone |
| RelatoriosAntigo.GenerateDayOfWeekData | src/pages/Relatorios.tsx:110-132 | seven rows named Dom..Sáb, row i summing the records falling on weekday i, with balance income minus expenses |
| RelatoriosAntigo.SemanaSomaOsTotais | src/pages/Relatorios.tsx:114-121 | the seven rows' income, expenses and balance sum to the totals `calculateTotals` gives |
| RelatoriosAntigo.ColunaDaSemana | src/pages/Relatorios.tsx:114-121 | weekday buckets of a column add up to the column's total |
| RelatoriosAntigo.DiasDaSemanaNoIntervalo | src/pages/Relatorios.tsx:115 | every record's weekday is in 0..6 |
| RelatoriosAntigo.SaldosSomam | src/pages/Relatorios.tsx:127 | the balances sum to income minus expenses |
| RelatoriosAntigo.GenerateDayOfMonthData | src/pages/Relatorios.tsx:134-157 | one row per day of the current month, day j + 1 in row j, and the rows sum to the records on those days |
| RelatoriosAntigo.DiasSomam | src/pages/Relatorios.tsx:138-147 | day rows sum to the records whose day lies in the range |
| RelatoriosAntigo.DiasDoMesSomamOTotal | src/pages/Relatorios.tsx:134-157 | for records of the current month the day rows sum to all of them |
| RelatoriosAntigo.GenerateMonthlyData | src/pages/Relatorios.tsx:159-184 | six rows, oldest month first, for the five months before the current one and the current one |
| RelatoriosAntigo.SeisMesesSomam | src/pages/Relatorios.tsx:162-172 | the six rows sum to the records of those six months |
| RelatoriosAntigo.ColunaSoma | src/pages/Relatorios.tsx:162-172 | month buckets of a column add up to the records in the six-month range |
| RelatoriosAntigo.Colorir | src/pages/Relatorios.tsx:194-199 | each category keeps its key and value and gets colour index mod 6 from its pre-sort position |
| RelatoriosAntigo.Slice | src/pages/Relatorios.tsx:201 | `slice(0, n)` is the prefix of length min(n, length) |
| RelatoriosAntigo.CategoriaDe | src/pages/Relatorios.tsx:190 | the category is never empty: the non-empty description, otherwise 'Sem categoria' |
| RelatoriosAntigo.GenerateCategoryData | src/pages/Relatorios.tsx:186-202 | the categories grouped by description, coloured, sorted by value descending and cut to six |
| RelatoriosAntigo.CategoriasOrdenadas | src/pages/Relatorios.tsx:186-202 | at most six, exactly six when there are that many categories, sorted descending, none left out larger than one kept |
| RelatoriosAntigo.CategoriasSomam | src/pages/Relatorios.tsx:186-202 | keys are distinct and each kept category is a grouped one, coloured by its position, with the sum of its records |
| Agrupamento.Mapear | src/pages/FuturisticRelatorios.tsx:119 | mapping keeps the length and maps each element in place |
| Agrupamento.Posicao | src/pages/FuturisticRelatorios.tsx:116 | the lookup finds the entry with the key, or there is none |
| Agrupamento.AcumularChaves | src/pages/FuturisticRelatorios.tsx:116 | accumulating keeps keys distinct and appends a new key at the end |
| Agrupamento.AcumularSoma | src/pages/FuturisticRelatorios.tsx:116 | accumulating adds the value to the dictionary's total |
| Agrupamento.AcumularValores | src/pages/FuturisticRelatorios.tsx:116 | accumulating adds the value to the key's entry, or appends a new entry |
| Agrupamento.AgrupadoDistinto | src/pages/FuturisticRelatorios.tsx:113-119 | the keys are the input's distinct keys in first-occurrence order |
| Agrupamento.AgrupadoTotal | src/pages/FuturisticRelatorios.tsx:113-119 | the groups sum to the input's total |
| Agrupamento.ChavePresente | src/pages/FuturisticRelatorios.tsx:113-119 | every element's key has a group |
| Agrupamento.AgrupadoChaves | src/pages/FuturisticRelatorios.tsx:113-119 | distinct keys in first-occurrence order, and the groups sum to the total |
| Agrupamento.AgrupadoValores | src/pages/FuturisticRelatorios.tsx:113-119 | each group's value is the sum over the input with its key |
| Agrupamento.UnicosMembros | src/pages/FuturisticRelatorios.tsx:119 | the distinct keys are exactly the keys |
| Agrupamento.UnicosCrescentes | src/pages/FuturisticRelatorios.tsx:119 | the distinct values of a non-decreasing list strictly increase |
| Agrupamento.ChavesEmOrdem | src/pages/FuturisticRelatorios.tsx:119 | keys coming from sorted month indexes appear in strictly increasing month order |
| Agrupamento.BaldesSomamIntervalo | src/pages/Relatorios.tsx:114-121 | fixed buckets lo..lo+n-1 sum to the records whose bucket is in that range |
| Agrupamento.BaldesSomamTudo | src/pages/Relatorios.tsx:114-121 | when every record falls in some bucket, the buckets sum to the total |
| Agrupamento.IntervaloCompleto | src/pages/Relatorios.tsx:114-121 | filtering by a range that holds every record keeps the total |
| SaldoGauge.SaldoParaAnalise | src/components/SaldoGauge.tsx:17 | the simulated balance when one is given, the current one otherwise |
| SaldoGauge.GetStatus | src/components/SaldoGauge.tsx:20-24 | 'excedido' exactly below the goal, 'proximo' exactly from the goal up to 1.1 times it, 'confortavel' exactly above that |
| SaldoGauge.StatusMonotone | src/components/SaldoGauge.tsx:20-24 | a larger balance never gets a worse status |
| SaldoGauge.SemFaixaProximaAbaixoDeZero | src/components/SaldoGauge.tsx:20-24 | with a negative goal 'proximo' never occurs |
| SaldoGauge.MaxValue | src/components/SaldoGauge.tsx:63 | the bar's full scale is the larger of the balance and 1.5 times the goal |
| SaldoGauge.CalcularBarras | src/components/SaldoGauge.tsx:63-65 | undefined exactly when the scale is 0; the bar is at least 5 and otherwise the balance's share of the scale; the marker is the goal's share |
| SaldoGauge.BarrasComMetaPositiva | src/components/SaldoGauge.tsx:63-65 | with a positive goal the bar lies in [5, 100], is full exactly from 1.5 times the goal, and the marker is above 0 and at most 200/3 |
| SaldoGauge.DiferencaDaMeta | src/components/SaldoGauge.tsx:148-149 | the difference is balance minus goal, with '+' and green exactly when the balance reaches the goal |
| SaldoGauge.DiferencaConcordaComStatus | src/components/SaldoGauge.tsx:148-149 | the '+' appears exactly on non-negative differences and exactly when the status is not 'excedido' |
| SaldoGauge.SimulacaoSobe | src/components/SaldoGauge.tsx:86-92 | no trend without a simulation; up exactly when the simulated balance is above the current one |
| MetaSaldo.Total | src/pages/FuturisticMetaSaldo.tsx:82-83 | no rows count as 0, otherwise the rows' sum |
| MetaSaldo.SaldoAtual | src/pages/FuturisticMetaSaldo.tsx:82-84 | with no rows fetched for a side that side counts as 0 |
| MetaSaldo.SaldoAtualAcrescimos | src/pages/FuturisticMetaSaldo.tsx:82-84 | one more income raises the balance by its amount, one more expense lowers it by its amount |
| MetaSaldo.TrocarPrimeiraVirgula | src/pages/FuturisticMetaSaldo.tsx:103 | `replace(',', '.')` keeps the length and leaves a text without commas unchanged |
| MetaSaldo.TrocaNaPrimeiraVirgula | src/pages/FuturisticMetaSaldo.tsx:103 | only the first comma becomes a point |
| MetaSaldo.HandleSubmit | src/pages/FuturisticMetaSaldo.tsx:94-138 | rejected exactly for an empty field; otherwise stores the read goal and `atingida` exactly when the goal is a number the balance reaches, updating the existing goal or inserting one |
| MetaSaldo.CalcularProgressoPercentual | src/pages/FuturisticMetaSaldo.tsx:140-143 | 0 without a positive goal; otherwise at most 100, 100 exactly when the balance reaches the goal, and below that the balance over the goal times 100 |
| MetaSaldo.ProgressoMonotone | src/pages/FuturisticMetaSaldo.tsx:140-143 | more balance never shows less progress |
| MetaSaldo.DiasArredondadosParaCima | src/pages/FuturisticMetaSaldo.tsx:148-149 | `Math.ceil` of milliseconds over a day: the least whole number of days covering the difference |
| MetaSaldo.CalcularDiasRestantes | src/pages/FuturisticMetaSaldo.tsx:145-151 | 0 without a goal; otherwise the days from now to the target rounded up |
| MetaSaldo.DiasRestantesDiminuem | src/pages/FuturisticMetaSaldo.tsx:145-151 | as time passes the days left never grow |
| MetaSaldo.CalcularEconomiaRequerida | src/pages/FuturisticMetaSaldo.tsx:153-159 | 0 without a goal or without days left; otherwise the amount that, saved each day left, covers the gap |
| MetaSaldo.EconomiaAlcancaAMeta | src/pages/FuturisticMetaSaldo.tsx:153-159 | saving the required amount every day left reaches the goal exactly; positive exactly when below the goal |
| MetaSaldo.MetaAtingida | src/pages/FuturisticMetaSaldo.tsx:164 | never reached without a goal; reached whenever progress shows 100; for a goal not stored as reached, reached exactly when the balance reaches it |
| MetaSaldo.AtingidaAposSubmeter | src/pages/FuturisticMetaSaldo.tsx:164 | right after a submit the goal shows as reached exactly when the balance reaches it, and for a positive goal exactly when progress is 100 |
| MetaSaldoAntigo.FetchDadosFinanceiros | src/pages/MetaSaldo_old.tsx:107-118 | the balance is the income total minus the expense total |
| MetaSaldoAntigo.DespesasFixasNoTotal | src/pages/MetaSaldo_old.tsx:107-118 | fixed plus other expenses make the total, and with non-negative amounts the fixed part lies between 0 and the total |
| MetaSaldoAntigo.SaldoAcompanhaOsLancamentos | src/pages/MetaSaldo_old.tsx:107-118 | one more expense lowers the balance by its amount, one more income raises it by its amount |
| MetaSaldoAntigo.SalvarMeta | src/pages/MetaSaldo_old.tsx:137-173 | nothing exactly without a user or a value; otherwise updates the existing goal or creates an active one |
| MetaSaldoAntigo.CalcularSimulacao | src/pages/MetaSaldo_old.tsx:175-186 | nothing exactly for an empty value; otherwise the balance plus the value, negated for an expense |
| MetaSaldoAntigo.SimulacoesSimetricas | src/pages/MetaSaldo_old.tsx:175-186 | an income and an expense of the same amount land symmetrically around the balance, and the income's status is never worse |
| MetaSaldoAntigo.StatusDaSimulacao | src/pages/MetaSaldo_old.tsx:197-205 | 'excedido' exactly below the goal, 'confortavel' exactly above 110% of it |
| MetaSaldoAntigo.MesmaRegraDoMedidor | src/pages/MetaSaldo_old.tsx:198-205 | the page's status rule is the gauge's rule |
| MetaSaldoAntigo.SalvarSimulacao | src/pages/MetaSaldo_old.tsx:188-229 | nothing exactly without a user, name, value or goal; otherwise the simulation with its resulting balance and that balance's gauge status |
| MetaSaldoAntigo.StatusGravadoEhODoMedidor | src/pages/MetaSaldo_old.tsx:198-216 | the stored status is what the gauge shows for the simulated balance against the same goal |

## Left out

- Supabase queries, inserts, updates and deletes, authentication, React state, effects and rendering. Query results are input sequences, and what a submit would write is a returned value.
- Time zones. The source parses 'YYYY-MM-DD' with `new Date(s)` (UTC midnight) and reads local fields. It also builds month bounds and holiday keys with `toISOString()`. Dates here are calendar triples, so a holiday is a member of the 2025 holiday set.
- IEEE-754 arithmetic. Amounts, sums, `Math.round(x * 100) / 100`, `1.1 * meta` and `Math.pow` are exact reals.
- `parseFloat` and `parseInt` themselves. Their readings are inputs, `None` standing for `NaN`, and only the comma-to-point replacement is modelled (`MetaSaldo.TrocarPrimeiraVirgula`).
- The clock and `Date.now()` ids. Today, now and the new id are parameters.
- Locale formatting: `formatCurrency`, `formatDateForDisplay`, `toLocaleDateString`, `Intl.NumberFormat` and the date-fns "MMM/yy" labels. These belong to foreign libraries.
- The dates `agruparPorMes` shows (`new Date(mes + '-01')` formatted by locale). The model keeps the "YYYY-MM" keys.
- `Object.entries` ordering for integer-like keys. Category names are taken as ordinary string keys in insertion order.
- Division by zero in `SaldoGauge.CalcularBarras` and `Investimentos.PercentualItem`. The page would show `NaN` or `Infinity`; here it is `None`.
- The report pages' query date filters (`gte('data', …)`), `order` and `limit`, the investment `limit(5)`, `excluirSimulacao`, the `confirm` dialogs and the alerts.
- `src/pages/Receitas.tsx` and `src/pages/Despesas_old.tsx`: CRUD forms whose only logic is a `reduce` total, the same as the models above.
- Tag management, layout, routing, styling and diagnostics components.
- Calendar.NovaData: states the exact date only for a day inside the month, which is the only way the business-day loops call it.
- Dashboard.Occurrences: its own contract bounds only the length. What it contains is stated by `Dashboard.OccurrencesCount`, `Dashboard.OccurrencesFrom` and `Dashboard.OccurrencesPasso`.
- Calendario.RemoverSimulacao: its own contract states only that the id is gone. `Calendario.RemoverSimulacaoKeepsRest` states what is kept.
- Calendar.Weekday: its own contract states only the range. `Calendar.DayNumberNextDay` states how it steps from day to day, and `Calendar.DayNumber` fixes 1 January 1970 at count 0.
- Text.Lower: only ASCII and Latin-1 capitals are lowered; other Unicode case mappings, including those that change length (U+0130), are not modelled. A search for 'Œ' therefore finds 'œuvre' in the app but not in the model.
- Calendar.MakeDate: `new Date(y, m, d)` reads a year 0..99 as 1900 + y. The model keeps the year as given, since the pages only pass years taken from existing dates.

## Findings

| source | as written | input that shows it | evidently intended | confidence | as-written member | corrected member |
|---|---|---|---|---|---|---|
| src/components/DatePicker.tsx:78-87 | the trailing loop computes `i - days.length + 1` while pushing, and `i` and `days.length` grow together, so every trailing cell is day 1 of the next month | September 2025: 1 leading cell and 30 days make 31 cells; the 4 trailing cells are all 1 October | trailing cells dated 1, 2, 3, 4 October | high, not executed | DatePicker.TrailingCellsDiffer | DatePicker.GetDaysInMonth |
| src/pages/FuturisticDashboard.tsx:156-166 | "previous"/"next" call `setMonth(getMonth() ± 1)` on a copy of the shown date, keeping its day (likewise src/components/DatePicker.tsx:92-102, src/pages/FuturisticCalendario.tsx:228-233, src/pages/Dashboard_old.tsx:153-159) | shown date 31 March 2025, "previous": 31 February rolls over to 3 March, and the shown month does not change | move to the neighbouring month | high, not executed | MonthNavigation.AnteriorFromMarch31StaysInMarch | MonthNavigation.ShiftedMonthRoundTrip |
| src/pages/FuturisticInvestimentos.tsx:56-60 | the type filter keeps items whose lower-cased type contains the key | type 'Ações' (the form's option, line 427) with key 'acoes': "ações" does not contain "acoes" | the 'Ações' filter shows share investments | high, not executed | Investimentos.AcoesNuncaCorrespondeComoEscrito | Investimentos.TiposDoFormularioCorrespondem |
