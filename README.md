# Pilote tes rêves — a verified model of the budgeting core

"Pilote tes rêves" is a French personal-budgeting web application. A user loads a budget,
either from a spreadsheet or typed row by row, and then records expenses, extra income and
savings reserves. The user also sets "dreams" (savings goals) and follows a dashboard of
totals, savings and motivational messages. Everything is kept in one snapshot in the
browser's local storage.

This project models the decision logic of that application in Dafny and proves what it
promises:

- `Calculations`: the financial arithmetic. Income is the sum of the positive budget lines.
  It also covers expense totals, the balance, savings floored at 0, dream progress capped
  at 100, the savings variation with its zero cases, and spending per category. The
  per-category object is built by a loop proved against its specification.
- `ExcelParser`: period conversion between 'mensuel', 'semestriel' and 'annuel'
  (1, 6 and 12 months, with any other period text counting as one month), and normalisation of a
  budget to one period. It also covers the row rule of the spreadsheet reader: header
  aliases, the amount read through `parseFloat`, period classification, dropped rows, and
  the rejection of a sheet with no valid row.
- `LocalStorage`: the record store as a class holding the stored snapshot, with the default
  snapshot, the shallow merge and every save/delete/update operation. Each operation
  states the whole new snapshot.
- `Dashboard`, `DreamsPage`, `OnboardingPage`, `IncomeEntryForm`, `ReserveForm` and
  `BudgetUpload`: the state of each page or form as a class whose handlers update it.
  Their list rules and validators are functions, each with the properties the page relies
  on.
- `ProgressBar` and `Quotes`: the percentage clamp and when the label shows, and the
  quote list with rotation by index.
- `Js` holds the JavaScript built-ins used throughout: `trim`, `toLowerCase`, `includes`,
  `endsWith`, the truncating `%`, `filter` by index, `slice(-n)`, `reverse`, and the
  `|| 0` / `|| null` fallbacks. `Records` holds the stored entities.

Money is `real`. `parseFloat` is a parameter `parse: string -> Option<real>` of every
operation that converts text, with `None` standing for NaN. Fresh ids and today's date are
also parameters.

`getFinancialStats` takes only the budget and the expenses. The income entries and reserves
that the dashboard passes to it are ignored, so they never enter any total
(`Calculations.GetFinancialStats`, `Calculations.StatsExample`).

## Model

| member | source | states |
|---|---|---|
| Calculations.IncomeContribution | src/utils/calculations.js:7 | a line contributes its amount when it is positive and 0 otherwise; never negative |
| Calculations.TotalIncome | src/utils/calculations.js:4-9 | the income of any budget is at least 0 |
| Calculations.IncomeLines | src/utils/calculations.js:6-7 | reference definition: exactly the lines with a strictly positive amount |
| Calculations.TotalIncomeIsSumOfPositiveLines | src/utils/calculations.js:4-9 | income equals the plain sum of the positive lines; every other line is ignored |
| Calculations.TotalIncomeConcat | src/utils/calculations.js:4-9 | the income of two budgets put together is the sum of their incomes |
| Calculations.TotalIncomeExample | src/utils/calculations.js:4-9 | lines of 800 and -50 give an income of 800 |
| Calculations.TotalExpensesConcat | src/utils/calculations.js:12-14 | expense totals add over concatenation, so appending one expense raises the total by exactly its amount |
| Calculations.Balance | src/utils/calculations.js:17-19 | the balance plus the expenses gives the income |
| Calculations.Savings | src/utils/calculations.js:22-24 | savings are max(0, balance): never negative, equal to the balance when it is not negative, 0 otherwise |
| Calculations.SavingsMonotone | src/utils/calculations.js:22-24 | a larger balance never gives smaller savings |
| Calculations.GetFinancialStats | src/utils/calculations.js:96-108 | income from the budget lines, expenses from the expense list, balance = income - expenses, savings = max(0, balance) |
| Calculations.StatsIgnoreStoredIncome | src/utils/calculations.js:96-97 | the budget's stored totalIncome plays no part; income is recomputed from the lines |
| Calculations.StatsExample | src/utils/calculations.js:96-108 | a salary of 2000 and one expense of 500 give income 2000, balance 1500 and savings 1500 |
| Calculations.DreamProgress | src/utils/calculations.js:27-30 | 0 for a target that is not positive, otherwise savings/target·100 capped at 100; never above 100 and never negative for non-negative savings |
| Calculations.AchievedIffFullProgress | src/utils/calculations.js:27-41 | with a positive target, the goal is achieved exactly when the progress is 100 |
| Calculations.SavingsVariation | src/utils/calculations.js:33-36 | previous 0 gives 100 if current > 0 and 0 otherwise; otherwise variation·previous = (current - previous)·100 |
| Calculations.SavingsVariationExamples | src/utils/calculations.js:33-36 | (110, 100) gives exactly 10; (50, 0) gives 100; (0, 0) gives 0 |
| Calculations.VariationThreshold | src/utils/calculations.js:33-36 | with positive previous savings, the variation reaches t exactly when current·100 ≥ previous·(100 + t) |
| Calculations.ExpensesIn | src/utils/calculations.js:59-60 | the expenses kept are exactly those of the given category |
| Calculations.Categories | src/utils/calculations.js:44-55 | the distinct categories that occur, without repetition: the keys of the per-category object |
| Calculations.SpendInAbsent | src/utils/calculations.js:59-61 | nothing is spent in a category that never occurs |
| Calculations.ByCategorySumsToTotal | src/utils/calculations.js:44-55 | the per-category sums add up to the total of all expenses |
| Calculations.ByCategoryOfKeys | src/utils/calculations.js:44-55 | the expense-by-expense accumulation has exactly the categories that occur as keys |
| Calculations.ByCategoryOfValues | src/utils/calculations.js:44-55 | the accumulation maps each category to the total spent in it |
| Calculations.ExpensesByCategory | src/utils/calculations.js:44-55 | the loop's object has exactly the categories that occur as keys, each mapped to the amount spent in it |
| Calculations.CategoryProgress | src/utils/calculations.js:58-65 | 0 for a budget that is not positive, otherwise progress·budget = spent·100 |
| Calculations.OverBudgetIff | src/utils/calculations.js:68-71 | a category is over budget exactly when its budget is positive and more than the budget was spent |
| Calculations.RemainingBudget | src/utils/calculations.js:74-80 | remaining + spent = budget, and the remainder is negative exactly when spending exceeds the budget |
| ExcelParser.Months | src/utils/excelParser.js:58-65 | 'semestriel' counts 6 months, 'annuel' 12, and any other period text 1 |
| ExcelParser.ConvertAmountFactors | src/utils/excelParser.js:57-68 | annual to monthly divides by 12, semi-annual to monthly by 6, monthly to annual multiplies by 12, semi-annual to annual by 2 |
| ExcelParser.ConvertRoundTrip | src/utils/excelParser.js:67 | converting p to q and back to p returns the amount |
| ExcelParser.ConvertIdentity | src/utils/excelParser.js:67 | converting a period to itself is the identity |
| ExcelParser.UnknownPeriodIsMonthly | src/utils/excelParser.js:64-65 | an unrecognised period text converts exactly as 'mensuel', as source and as target |
| ExcelParser.NormalizeBudgetToPeriod | src/utils/excelParser.js:71-78 | same length and order; each line keeps its name, takes the target period, records its old period as originalPeriod and has its amount converted |
| ExcelParser.NormalizeSamePeriodKeepsAmounts | src/utils/excelParser.js:71-78 | lines already in the target period keep their amounts |
| ExcelParser.NormalizeRoundTrip | src/utils/excelParser.js:71-78 | normalising to another period and back restores every amount, period and name |
| ExcelParser.FirstFilled | src/utils/excelParser.js:20-22 | `row[h1] \|\| row[h2] \|\| …` is missing exactly when no alias cell is filled, and otherwise it is a non-empty text |
| ExcelParser.FirstFilledIsFirst | src/utils/excelParser.js:20-22 | the cell taken is that of the first filled alias in the order written |
| ExcelParser.ClassifyPeriod | src/utils/excelParser.js:22-33 | every classified period is one of the three named ones |
| ExcelParser.ClassifyPeriodIff | src/utils/excelParser.js:22-33 | 'annuel' in the lower-cased text gives annual, and is checked first; otherwise 'semestr' gives semi-annual; everything else is monthly |
| ExcelParser.RowAmount | src/utils/excelParser.js:21 | with no amount cell filled the amount is parseFloat(0) = 0; otherwise it is the parse of the first filled amount cell |
| ExcelParser.RowToCategory | src/utils/excelParser.js:18-34 | a kept row has a non-empty name, one of the three periods and no originalPeriod |
| ExcelParser.RowToCategoryIff | src/utils/excelParser.js:20-34 | a row is dropped exactly when it has no name or its amount is NaN; a kept row carries its name, its amount and its classified period |
| Js.Somes | src/utils/excelParser.js:18-35 | `map` then keeping the non-null results: no more results than elements, each result the value of some element, and every non-null value kept |
| Js.SomesConcat | src/utils/excelParser.js:18-35 | mapping and filtering commutes with concatenation, so results keep the element order |
| Js.SomesEmptyIff | src/utils/excelParser.js:18-35 | nothing is kept exactly when the mapping gives null for every element |
| ExcelParser.KeptCategories | src/utils/excelParser.js:18-35 | no more lines than rows, each with a name and one of the three periods |
| ExcelParser.KeptConcat | src/utils/excelParser.js:35 | filtering commutes with splitting the sheet, so kept rows stay in sheet order |
| ExcelParser.KeptEmptyIff | src/utils/excelParser.js:35 | nothing is kept exactly when every row is dropped |
| ExcelParser.ParseRows | src/utils/excelParser.js:35-42 | the sheet is rejected with 'Aucune donnée valide trouvée dans le fichier Excel' exactly when no row is kept; otherwise the result is the kept lines and is never empty |
| ExcelParser.ParseRowsFailsIff | src/utils/excelParser.js:35-40 | a sheet fails exactly when each of its rows is dropped |
| ExcelParser.SemestrielIsSemiAnnual | src/utils/excelParser.js:22-33 | the text 'Semestriel' is classified as 'semestriel' |
| ExcelParser.RentRowCells | src/utils/excelParser.js:20-22 | in a 'Catégorie'/'Montant'/'Période' row the rule reads those three cells |
| ExcelParser.RentRowLine | src/utils/excelParser.js:18-34 | a 'Loyer', "800", 'Semestriel' row gives a semi-annual line of 800 |
| ExcelParser.RentSheetExample | src/utils/excelParser.js:35-42 | the sheet made of that row parses into that one line, which normalised to months is 800/6 with originalPeriod 'semestriel' |
| LocalStorage.Default | src/utils/localStorage.js:5-22 | onboarding not done, period 'mensuel', empty budget and lists, savings and previous savings 0, no global goal |
| LocalStorage.Merge | src/utils/localStorage.js:47-51 | each key the update carries replaces the stored one; each other top-level key keeps its value |
| LocalStorage.MergeLaws | src/utils/localStorage.js:47-51 | an update with no key changes nothing; merging twice is merging once; two merges are one merge of the combined update |
| LocalStorage.MergeFullPatch | src/utils/localStorage.js:47-51 | an update carrying every key replaces the whole snapshot |
| LocalStorage.WithoutId | src/utils/localStorage.js:81-125 | no more records than before, and none of them carries the deleted id |
| LocalStorage.WithoutIdMembers | src/utils/localStorage.js:81-125 | the kept records are exactly those whose id differs |
| LocalStorage.WithoutIdConcat | src/utils/localStorage.js:81-125 | filtering by id commutes with concatenation, so the kept records stay in order |
| LocalStorage.WithoutUnknownId | src/utils/localStorage.js:81-85 | deleting an id that no record carries changes nothing |
| LocalStorage.DeleteAfterAppend | src/utils/localStorage.js:72-85 | deleting the id of a record just appended under a fresh id gives back the list |
| LocalStorage.DeleteIdempotent | src/utils/localStorage.js:81-85 | deleting the same id twice is deleting it once |
| LocalStorage.Store.constructor | src/utils/localStorage.js:25-28 | a new store holds nothing |
| LocalStorage.Store.GetData | src/utils/localStorage.js:25-33 | the stored snapshot, or the default when nothing (readable) is stored |
| LocalStorage.Store.UpdateData | src/utils/localStorage.js:47-51 | the stored snapshot becomes the merge of the update into the current one |
| LocalStorage.Store.SaveBudget | src/utils/localStorage.js:66-70 | only the budget is replaced |
| LocalStorage.Store.SaveExpense | src/utils/localStorage.js:72-79 | exactly one expense is appended at the end, with the fresh id replacing any it carried; earlier expenses and every other field are unchanged |
| LocalStorage.Store.DeleteExpense | src/utils/localStorage.js:81-85 | the expenses become those whose id differs, in order; nothing else changes |
| LocalStorage.Store.SaveIncomeEntry | src/utils/localStorage.js:87-97 | a missing list is created, then one entry with the fresh id is appended |
| LocalStorage.Store.DeleteIncomeEntry | src/utils/localStorage.js:99-105 | an existing list is filtered by id; a missing list stays missing |
| LocalStorage.Store.SaveReserve | src/utils/localStorage.js:107-117 | a missing list is created, then one reserve with the fresh id is appended |
| LocalStorage.Store.DeleteReserve | src/utils/localStorage.js:119-125 | an existing list is filtered by id; a missing list stays missing |
| LocalStorage.Store.SaveDreams | src/utils/localStorage.js:127-131 | only the dreams are replaced |
| LocalStorage.Store.CompleteOnboarding | src/utils/localStorage.js:133-138 | the user is marked onboarded with the given period ('mensuel' by default); nothing else changes |
| LocalStorage.Store.UpdateSavings | src/utils/localStorage.js:140-145 | the old savings become the previous savings, the new savings are stored, nothing else changes |
| LocalStorage.SaveThenDeleteExpense | src/utils/localStorage.js:72-85 | saving an expense under an unused id and then deleting that id leaves the snapshot as it read before |
| LocalStorage.UpdateSavingsTwice | src/utils/localStorage.js:140-145 | after two updates the first value is the previous savings and the second the savings; the expenses are untouched |
| Dashboard.SuccessMessages | src/components/Dashboard.jsx:47-54 | at most one message per dream, each of the success type |
| Dashboard.CelebratedDreams | src/components/Dashboard.jsx:48 | exactly the dreams with a truthy target, not flagged achieved, whose target the savings reach |
| Dashboard.SuccessMessagesPerDream | src/components/Dashboard.jsx:47-54 | exactly one success message per celebrated dream, naming it, in dream-list order |
| Dashboard.TrendMessage | src/components/Dashboard.jsx:57-69 | encouragement exactly when the variation is ≥ 10, warning exactly when ≤ -10, nothing exactly when strictly between |
| Dashboard.MessagesOrder | src/components/Dashboard.jsx:47-69 | the success messages come first, at most one message follows them, and any message not of the success type is the last |
| Dashboard.ComputeMotivationalMessages | src/components/Dashboard.jsx:43-69 | the loop collects exactly the success messages followed by the trend message for the variation against the previous savings |
| Dashboard.ShownAfterCheck | src/components/Dashboard.jsx:71-73 | a non-empty list replaces the messages shown; an empty one leaves them |
| Dashboard.RecentExpenses | src/components/Dashboard.jsx:227 | at most the last ten expenses, newest first |
| Dashboard.NamedDreams | src/components/Dashboard.jsx:192-198 | exactly the dreams with a non-empty name |
| Dashboard.NamedDreamsConcat | src/components/Dashboard.jsx:192-198 | filtering by name commutes with concatenation, so the named dreams keep their list order |
| Dashboard.DreamPreview | src/components/Dashboard.jsx:198 | at most three bubbles: exactly the named dreams among the first three |
| Dashboard.PreviewIsFirstNamed | src/components/Dashboard.jsx:198 | the bubbles are the named dreams in list order, the first of all named dreams, and only the named dreams past the third are missing |
| Dashboard.ShowDreamPreviewIff | src/components/Dashboard.jsx:192 | the preview section shows exactly when some dream, anywhere in the list, has a name |
| Dashboard.NoNamedDreams | src/components/Dashboard.jsx:198 | a list without a named dream gives no bubble |
| Dashboard.PreviewShownButEmpty | src/components/Dashboard.jsx:192-198 | when the only named dream is the fourth, the section shows with no bubble |
| Dashboard.DashboardView.constructor | src/components/Dashboard.jsx:19-24 | the view starts from the stored snapshot, with no statistics, no message and every entry form closed |
| Dashboard.DashboardView.CheckForMotivationalMessages | src/components/Dashboard.jsx:43-74 | the messages shown become the new motivational messages when there are any, and stay as they were otherwise |
| Dashboard.DashboardView.UpdateStats | src/components/Dashboard.jsx:30-41 | the statistics are those of the loaded snapshot; the savings are stored and the messages checked only when the computed savings differ from those loaded |
| Dashboard.DashboardView.Reload | src/components/Dashboard.jsx:26-41 | `setData(getData())` and its effect: the stored snapshot is loaded and its statistics shown; equal savings leave the store and the messages untouched, differing savings are stored with the loaded ones as previous, and the messages are checked |
| Dashboard.DashboardView.HandleAddExpense | src/components/Dashboard.jsx:76-80 | the view holds the snapshot with the expense appended under its fresh id; the store holds it too, with the new savings when they differ; the messages follow the savings check; the expense form is closed |
| Dashboard.DashboardView.HandleAddIncome | src/components/Dashboard.jsx:82-86 | the same for an income entry, appended to the list or to a fresh one; the income form is closed |
| Dashboard.DashboardView.HandleAddReserve | src/components/Dashboard.jsx:88-92 | the same for a reserve, appended to the list or to a fresh one; the reserve form is closed |
| Dashboard.DashboardView.CloseMessage | src/components/Dashboard.jsx:94-96 | exactly the message at the index goes; the others keep their order |
| DreamsPage.DraftsOf | src/components/DreamsPage.jsx:11 | the stored dreams become the edited list one for one, in the same order |
| DreamsPage.StartingDrafts | src/components/DreamsPage.jsx:22-31 | the stored dreams, or the three empty ones when there is none |
| DreamsPage.InitialDreamsAreEmpty | src/components/DreamsPage.jsx:24-30 | three unnamed, unachieved dreams with ids '1', '2', '3' |
| DreamsPage.WithField | src/components/DreamsPage.jsx:35 | only the named field takes the input's text |
| DreamsPage.RemoveDream | src/components/DreamsPage.jsx:51-55 | the dream at the index goes only while there are more than three; otherwise nothing changes |
| DreamsPage.RemoveButtonRemoves | src/components/DreamsPage.jsx:51-55 | a shown remove button removes exactly its dream, and at least three dreams remain |
| DreamsPage.RemoveKeepsThree | src/components/DreamsPage.jsx:51-55 | removal never goes below three dreams and keeps the first three unless one of them is removed |
| DreamsPage.ToDream | src/components/DreamsPage.jsx:61-64 | a saved dream keeps its id, name and flag, its target parsed with NaN and 0 giving 0 |
| DreamsPage.CleanDreams | src/components/DreamsPage.jsx:59-64 | exactly the dreams whose trimmed name is not empty are saved |
| DreamsPage.CleanDreamsConcat | src/components/DreamsPage.jsx:59-64 | the cleanup commutes with concatenation, so the kept dreams stay in order |
| DreamsPage.CleanStoredDreams | src/components/DreamsPage.jsx:59-64 | named dreams loaded from the store and saved without an edit come back unchanged |
| DreamsPage.TotalTargetOfDrafts | src/components/DreamsPage.jsx:77-81 | the per-dream total is the sum of the targets as they would be saved, blank dreams included |
| DreamsPage.TotalTargetAppend | src/components/DreamsPage.jsx:77-81 | one more dream adds its parsed target (or 0) to the total |
| DreamsPage.TotalTarget | src/components/DreamsPage.jsx:86-88 | the parsed global goal (NaN giving 0) in global mode, the per-dream total otherwise |
| DreamsPage.StoredGlobalGoal | src/components/DreamsPage.jsx:70 | a goal is stored exactly in global mode with a goal that parses to a non-zero number, and it is that number |
| DreamsPage.GlobalGoalRoundTrip | src/components/DreamsPage.jsx:68-71 | a non-zero goal loaded and saved again without an edit is kept |
| DreamsPage.DreamsPageState.constructor | src/components/DreamsPage.jsx:10-31 | the page starts from the stored snapshot: its dreams (or three empty ones), its goal, global mode when a goal is stored, no toast |
| DreamsPage.DreamsPageState.OverallProgress | src/components/DreamsPage.jsx:123-134 | the bar shows exactly when the total target is positive, with the dream progress of the current savings towards that total, within [0, 100] |
| DreamsPage.DreamsPageState.HandleDreamChange | src/components/DreamsPage.jsx:33-37 | only the named field of the dream at the index changes |
| DreamsPage.DreamsPageState.HandleAddDream | src/components/DreamsPage.jsx:39-49 | exactly one empty, unachieved dream is appended |
| DreamsPage.DreamsPageState.HandleRemoveDream | src/components/DreamsPage.jsx:51-55 | the list follows the removal rule |
| DreamsPage.DreamsPageState.SetUseGlobalGoal | src/components/DreamsPage.jsx:146-158 | the radio buttons set the goal mode |
| DreamsPage.DreamsPageState.SetGlobalGoal | src/components/DreamsPage.jsx:174 | the goal input sets the goal text |
| DreamsPage.DreamsPageState.HandleSave | src/components/DreamsPage.jsx:57-75 | the cleaned dreams and the stored global goal are written, nothing else in the store changes, the page reloads and shows the toast |
| OnboardingPage.WithField | src/components/OnboardingPage.jsx:34 | only the named field of the row takes the value |
| OnboardingPage.ManualCategories | src/components/OnboardingPage.jsx:38-45 | no more lines than typed rows |
| OnboardingPage.ManualCategoriesRows | src/components/OnboardingPage.jsx:38-45 | exactly the rows with a name and an amount text become lines, with the parsed amount and their own period |
| OnboardingPage.ManualCategoriesConcat | src/components/OnboardingPage.jsx:39-45 | building commutes with concatenation, so the lines keep the row order |
| OnboardingPage.ManualCategoriesEmptyIff | src/components/OnboardingPage.jsx:39-47 | no line is built exactly when no row is filled |
| OnboardingPage.RemoveNeverEmpties | src/components/OnboardingPage.jsx:28-30 | with the button shown only for more than one row, a removal leaves one row fewer and at least one |
| OnboardingPage.OnboardingState.constructor | src/components/OnboardingPage.jsx:8-14 | step 1, period 'mensuel', spreadsheet mode, no categories, one empty monthly row |
| OnboardingPage.OnboardingState.SetBudgetPeriod | src/components/OnboardingPage.jsx:90 | the period buttons set the budget period |
| OnboardingPage.OnboardingState.SetUseExcel | src/components/OnboardingPage.jsx:108-128 | the mode buttons choose between spreadsheet and typed rows |
| OnboardingPage.OnboardingState.HandleExcelLoaded | src/components/OnboardingPage.jsx:16-19 | the loaded lines replace the categories and the page moves to step 2 |
| OnboardingPage.OnboardingState.HandleAddManualCategory | src/components/OnboardingPage.jsx:21-26 | one empty row is appended, in the current budget period |
| OnboardingPage.OnboardingState.HandleRemoveManualCategory | src/components/OnboardingPage.jsx:28-30 | exactly the row at the index goes |
| OnboardingPage.OnboardingState.HandleManualCategoryChange | src/components/OnboardingPage.jsx:32-36 | only the named field of the row at the index changes |
| OnboardingPage.OnboardingState.HandleManualSubmit | src/components/OnboardingPage.jsx:38-54 | the alert is raised exactly when no row is filled, leaving the step and categories; otherwise the built lines replace the categories and step 2 follows |
| OnboardingPage.OnboardingState.BackToStepOne | src/components/OnboardingPage.jsx:219 | 'Modifier' returns to step 1, keeping the categories |
| OnboardingPage.OnboardingState.HandleComplete | src/components/OnboardingPage.jsx:56-64 | the categories are stored as the budget with their income total, and onboarding is marked done with the chosen period |
| IncomeEntryForm.ErrorsIff | src/components/IncomeEntryForm.jsx:14-31 | a date error exactly for an empty date, a source error exactly for an empty source, an amount error exactly for an empty or non-positive amount, each with its message; valid exactly when there is no error |
| IncomeEntryForm.ValidationErrors | src/components/IncomeEntryForm.jsx:15-27 | the checks one after the other record exactly the errors of the form |
| IncomeEntryForm.Submission | src/components/IncomeEntryForm.jsx:38-41 | the record carries every input, the amount as a number |
| IncomeEntryForm.ValidSubmissionIsPositive | src/components/IncomeEntryForm.jsx:14-41 | a valid form submits a dated record with a source and a positive amount |
| IncomeEntryForm.WithField | src/components/IncomeEntryForm.jsx:54-57 | only the edited input changes |
| IncomeEntryForm.IncomeEntryFormState.constructor | src/components/IncomeEntryForm.jsx:5-12 | the form opens with today's date, every other input empty and no error |
| IncomeEntryForm.IncomeEntryFormState.Validate | src/components/IncomeEntryForm.jsx:14-31 | the errors become those of the form, and the result is true exactly when the form is valid |
| IncomeEntryForm.IncomeEntryFormState.HandleSubmit | src/components/IncomeEntryForm.jsx:33-50 | an invalid form submits nothing and keeps its inputs; a valid one submits its record and resets to today's date and empty inputs |
| IncomeEntryForm.IncomeEntryFormState.HandleChange | src/components/IncomeEntryForm.jsx:52-62 | only the edited input changes, and an error it shows is cleared to the empty message |
| ReserveForm.ErrorsIff | src/components/ReserveForm.jsx:13-26 | a date error exactly for an empty date, an amount error exactly for an empty or non-positive amount, each with its message; valid exactly when there is no error |
| ReserveForm.ValidationErrors | src/components/ReserveForm.jsx:14-22 | the checks one after the other record exactly the errors of the form |
| ReserveForm.Submission | src/components/ReserveForm.jsx:33-36 | the record carries the date, the description and the amount as a number |
| ReserveForm.ValidSubmissionIsPositive | src/components/ReserveForm.jsx:13-36 | a valid form submits a dated record with a positive amount |
| ReserveForm.WithField | src/components/ReserveForm.jsx:48-51 | only the edited input changes |
| ReserveForm.ReserveFormState.constructor | src/components/ReserveForm.jsx:5-11 | the form opens with today's date, the other inputs empty and no error |
| ReserveForm.ReserveFormState.Validate | src/components/ReserveForm.jsx:13-26 | the errors become those of the form, and the result is true exactly when the form is valid |
| ReserveForm.ReserveFormState.HandleSubmit | src/components/ReserveForm.jsx:28-44 | an invalid form submits nothing and keeps its inputs; a valid one submits its record and resets to today's date and empty inputs |
| ReserveForm.ReserveFormState.HandleChange | src/components/ReserveForm.jsx:46-56 | only the edited input changes, and an error it shows is cleared to the empty message |
| BudgetUpload.AcceptanceExamples | src/components/BudgetUpload.jsx:14-19 | a '.xlsx' or '.xls' name is enough whatever the type, an Excel type is enough whatever the name, and a CSV file is refused |
| BudgetUpload.LoadErrorMessage | src/components/BudgetUpload.jsx:32 | the error's own message, or 'Erreur lors du chargement du fichier' when it is empty; never empty |
| BudgetUpload.BudgetUploadState.constructor | src/components/BudgetUpload.jsx:5-7 | not loading, no error, selected period 'mensuel' by default |
| BudgetUpload.BudgetUploadState.Start | src/components/BudgetUpload.jsx:10-25 | a missing file changes nothing; a refused file sets the format error and is not parsed, loading unchanged; an accepted one clears the error and starts loading |
| BudgetUpload.BudgetUploadState.Finish | src/components/BudgetUpload.jsx:27-35 | a parsed budget is handed on normalised to the selected period; a failure shows its message; loading ends either way |
| BudgetUpload.BudgetUploadState.HandleFileUpload | src/components/BudgetUpload.jsx:10-36 | a missing file changes nothing; a refused file shows the format error and does not load; an accepted file whose sheet parses hands its lines, normalised to the selected period, to the callback and clears the error, a non-empty budget entirely in that period; a sheet without a valid row shows 'Aucune donnée valide…'; loading ends for every accepted file |
| ProgressBar.Clamp | src/components/ProgressBar.jsx:4 | always within [0, 100]; unchanged inside it, 0 below, 100 above |
| ProgressBar.ClampIdempotentMonotone | src/components/ProgressBar.jsx:4 | clamping twice is clamping once, and clamping keeps the order |
| ProgressBar.PercentageNeedsLabel | src/components/ProgressBar.jsx:3-23 | the percentage text appears only with a (non-empty) label, and with the default showPercentage exactly when the label does |
| Quotes.QuoteByIndex | src/data/quotes.js:32-34 | for i ≥ 0 the quote at i mod 20, always a member of the list; a negative index finds nothing exactly when it is not a multiple of 20, and a multiple of 20 gives the first quote |
| Quotes.QuoteCount | src/data/quotes.js:2-23 | the list has exactly 20 quotes |
| Quotes.QuoteByIndexInRange | src/data/quotes.js:32-34 | for 0 ≤ i < 20 the quote is the i-th of the list |
| Quotes.QuoteByIndexPeriodic | src/data/quotes.js:33 | for i ≥ 0, index i and index i + 20 give the same quote |
| Quotes.NegativeIndexFindsNothing | src/data/quotes.js:33 | index -1 gives undefined, while -20 gives the first quote |
| Js.TrimEmptyIff | src/components/DreamsPage.jsx:60 | a name trims to empty exactly when it is whitespace only |
| Js.AsciiLower | src/utils/excelParser.js:22 | lower-casing keeps the length and changes each character on its own |
| Js.Rem | src/data/quotes.js:33 | the remainder has the sign of the dividend, differs from it by a multiple of n, is 0 exactly when n divides the dividend, and agrees with the mathematical one for non-negative dividends |
| Js.WithoutIndex | src/components/Dashboard.jsx:95 | filtering by index removes exactly the element at a valid index and changes nothing otherwise |
| Js.LastN | src/components/Dashboard.jsx:227 | for n > 0, `slice(-n)` yields the last n elements, or all of them when there are fewer |
| Js.Reverse | src/components/Dashboard.jsx:227 | the reversed list has the same length, its elements in opposite order |
| Js.NumberOrZero | src/components/DreamsPage.jsx:77-88 | `x \|\| 0` is the number, or 0 for NaN |
| Js.NumberOrNull | src/components/DreamsPage.jsx:70 | `x \|\| null` is the number when it is neither NaN nor 0, and null otherwise |

## Left out

- Browser storage, JSON encoding, the try/catch logging and the boolean results of `saveData` and `resetData`. They are I/O. The store is one field holding the snapshot last written (`None` when nothing readable is stored), so `resetData` is not modelled.
- Id generation from `Date.now()` and `Math.random()`, and today's date. The fresh id and the date are parameters.
- `parseFloat` and floating point. Amounts are exact reals, and `parse` is a parameter (`None` is NaN). The round-trip lemmas of `convertAmount` hold over reals, but not always over doubles.
- `formatCurrency`, `formatPercentage`, `toFixed` and `toLocaleDateString`: presentation only.
- FileReader, the `xlsx` library, the Promise plumbing of `parseExcelFile`, and the template download. They are foreign calls. The row rule starts from the rows a sheet yields, as text cells.
- Numeric spreadsheet cells. `sheet_to_json` gives numbers for them, but the model reads every cell as text, which misses two behaviours:
  - a numeric 'Période' cell makes `toLowerCase` throw, and the whole file is then rejected with "Erreur lors de la lecture du fichier: …", while the model classifies that row as 'mensuel';
  - a numeric 0 in a name or amount cell is falsy, so the `||` chain moves on to the next alias, while the model counts the text "0" as filled.
- Plain objects used as maps. A name inherited from `Object.prototype` (such as "constructor" or "toString") already has a value there, and "__proto__" never becomes a key. The model's maps have no such names, so two claims hold only for other names:
  - `ExcelParser.Months`: for the period "constructor", `periods[p] || 1` is a function and the converted amount is NaN;
  - `Calculations.ExpensesByCategory`: for such a category the reset is skipped and `+=` builds a string.
- BudgetUpload.BudgetUploadState.HandleFileUpload: a file-read error cannot arise. A read failure enters only through `Finish`'s outcome.
- Drag and drop in the upload, the `onComplete` callback of the onboarding, the dashboard buttons that open its three entry forms, and navigation between pages. These are rendering and control flow outside the core.
- Timers and randomness: message and toast auto-dismiss, quote rotation by interval, `getRandomQuote`.
- `categoryGoals`: a default key that nothing reads or writes.
- An update carrying a key whose value is `undefined`. A `Patch` key is either carried (`Some`) or absent.
- JavaScript aliasing:
  - the default snapshot's shallow copy shares its nested lists;
  - in the two change handlers, the element edited in place is shared with the previous list.
  Every update here affects only its own index.
- Js.AsciiLower: `toLowerCase` is modelled on ASCII letters only. That is exact for the 'annuel'/'semestr' tests, whose patterns are ASCII.
- IncomeEntryForm.IncomeEntryFormState.HandleSubmit and ReserveForm.ReserveFormState.HandleSubmit require an amount text that is empty or a number. The browser's number input guarantees this; the code would otherwise submit NaN.
- OnboardingPage.OnboardingState.HandleManualSubmit requires the same of every filled amount (`AmountsParse`).
- DreamsPage.DreamsPageState.constructor: a stored snapshot without a `dreams` key (`data.dreams || []`) is not modelled, since the snapshot type always has the list.
- DreamsPage.GlobalGoalRoundTrip: a stored goal of 0 is excluded. It loads as the empty text and is saved back as null.
- Global mode with a goal stored as `undefined` is not modelled: the stored goal is a number or null.
- Dashboard.DashboardView.UpdateStats compares with the savings of the component's loaded `data`. After its own `updateSavings`, the store holds newer savings than `data` does, as in the code.
- Dashboard: a list whose only named dream is past the third shows the preview section with no bubble (`Dashboard.PreviewShownButEmpty`). This follows the code.
- IncomeEntryForm: a source made only of spaces passes validation. The check is on the empty text only, as in the code.
- Rendering and styling: FinancialCard, MotivationalMessage, Toast, InspirationalQuote and the App shell.
