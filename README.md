# Expense categorisation, report and cleanup — a Dafny model

The repository turns a credit-card statement sheet into three products:

- **Cleanup (main.py).** Class `ExcelProcessor` loads the sheet and makes the category column text. It drops rows without an amount and sorts the rest by category. It can recategorise listed payees whose category is empty, and it answers a per-category sum and a top-five-amounts query.
- **Report (generate_report.py).** Every row gets one of seventeen report categories (`map_category`). The rows are grouped into per-category summaries: total, count, mean and percent of all spending, plus the transaction list. The categories are ordered by total, and a Markdown report is written with:
  - per-category listings with a `=SUM(...)` formula;
  - the five largest non-rent expenses;
  - the five largest non-rent categories;
  - a Wolt share of "Eating Out";
  - the categories above 15 percent;
  - the largest subscription.
- **Export (generate_csv.py).** A second rule set (`map_category`) maps every row to a budgeting application's label. The headers are renamed, and the kept columns are written as CSV.

The model is split into eight modules:

| module | file | purpose |
|---|---|---|
| `Wrappers` | wrappers.dfy | `Option`, `Result` and `Outcome` |
| `Text` | text.dfy | ASCII lower-casing, substring and whole-word search, code-point order, join and split |
| `Decimal` | decimal.dfy | the two-decimal rendering of an amount and its parse |
| `Sorting` | sorting.dfy | the stable descending sort and the "largest n" selection |
| `ReportRules` | report_rules.dfy | the report's category rules |
| `Report` | report.dfy | the report's aggregation |
| `ExportRules` | export_rules.dfy | the export rules and the column step |
| `Cleanup` | cleanup.dfy | the processor class |

Amounts are exact integers in agorot (hundredths of a shekel), so the source's shekel bounds 2900–3100 and 800–900 appear as 290000–310000 and 80000–90000. Percentages, means and shares are `real`. An empty cell is `None`.

The report itself is a structured `Report.Report` value. It holds the totals, the summary map, the category order, one section per category (its summary, its share of the transaction count, its listing lines and its formula), and the top-five lists and insights. It is not the joined Markdown text.

Three behaviours of the code that the model keeps:

- The rent test is a closed range over the amount, so a paybox transfer of 3000.01 is rent.
- The `=SUM(...)` formula lists each price as rendered, sign included.
- The cleanup stage turns an empty category into the text "nan" before anything else. `fix_categories` works on the already sorted table, and nothing sorts it again afterwards.

## Model

| member | source | states |
|---|---|---|
| ReportRules.MapCategory | generate_report.py:31-100 | The label is always one of the seventeen declared categories. It is "Rent and Utilities" exactly when the lower-cased name contains "paybox" and the amount is in 2900–3100 or 800–900 shekels. |
| ReportRules.MapByCategoryAndName | generate_report.py:44-100 | The rules after the paybox test give a declared category and never rent. |
| ReportRules.LeadingRule | generate_report.py:44-83 | The rules down to "Subscriptions" give a declared category other than rent. They always fire for an original category that has a label of its own. |
| ReportRules.KeywordRule | generate_report.py:85-98 | The last rules fire exactly when the name holds a travel, education, gift or electronics keyword or a reimbursement phrase. When they fire, they give a declared category other than rent. |
| ReportRules.LeadingLabels | generate_report.py:44-83 | The leading rules give only category-table labels, appearance or home; they never give a keyword-group label such as "Education and Learning". |
| ReportRules.TravelNeverEducation | generate_report.py:44-89 | After the rent test, a name with a travel keyword is never "Education and Learning"; when no earlier rule fires it is "Vacation and Travel". |
| ReportRules.AmountOnlyDecidesRent | generate_report.py:34-42 | Outside the rent test the amount plays no part: two amounts that are both not rent-sized paybox transfers get the same label, negative amounts included. |
| ReportRules.OriginalCategoryWins | generate_report.py:44-83 | An original category with its own label keeps it, unless one of these earlier tests fires: the rent test, "online home items", an institution with a parking name, or an appearance keyword. |
| ReportRules.BookingIsTravel | generate_report.py:85-89 | A name with "booking" matches both the travel and the education keywords and is never labelled "Education and Learning"; when it is not the rent transfer and no earlier rule fires it is labelled "Vacation and Travel". |
| ReportRules.MissingValues | generate_report.py:32-33 | A missing category behaves as "Unknown" and a missing name as the empty name. |
| ReportRules.UnknownParking | generate_report.py:68-69 | A row without a category whose name has "חניון" or "parking" is "Transport and Car", unless the rent or "online home items" test fired first. |
| ReportRules.UnknownWithoutName | generate_report.py:31-100 | A row with neither category nor name is "Misc and One-offs", whatever its amount. |
| Report.WithMappedCategory | generate_report.py:115 | Row by row, each row keeps its name, amount and category and gains the label `map_category` gives it. |
| Report.Members | generate_report.py:132 | A group holds exactly the rows mapped to its category. |
| Report.MembersInOrder | generate_report.py:132-140 | A group holds every copy of each row mapped to its category, as often as the table holds it, and lists them in table order (a subsequence of the table). |
| Report.ZeroSummaries | generate_report.py:122-130 | The initial map has exactly the listed categories, each with the zero summary. |
| Report.GroupSummary | generate_report.py:133-148 | The summary built for a present group, its transaction list built row by row, is that group's summary. |
| Report.Summarize | generate_report.py:117-148 | The map covers exactly the listed categories plus the labels rows carry. Each entry is the summary of the rows mapped to it, so a category without rows keeps the zero summary. |
| Report.PercentShare | generate_report.py:136 | The percent times the amount spent is 100 times the total, and it is 0 when nothing was spent. |
| Report.SummaryMeaning | generate_report.py:133-148 | A summary's total and count are those of its rows, and its mean times its count is its total. Its percent times the amount spent is 100 times its total, or 0 when nothing was spent. A category no row maps to has the zero summary. |
| Report.TotalsOver | generate_report.py:117-148 | When every row's label is listed, without repeats, the category totals add up to the amount spent and the counts to the number of rows. |
| Report.GrandTotals | generate_report.py:115-148 | For the declared categories, the per-category totals add up to `total_spent` and the counts to `total_transactions`. |
| Sorting.SortDesc | generate_report.py:150 | The stable descending sort returns a permutation of its input with keys non-increasing. |
| Sorting.SortDescStable | generate_report.py:150 | Elements with equal keys keep their input order. |
| Sorting.TopN | generate_report.py:207 | The n largest: min(n, length) elements, a sub-multiset of the input, keys non-increasing, none smaller than an element left out, and elements of equal key a prefix of those in input order. |
| Report.SortedCategories | generate_report.py:150 | The order is a permutation of the categories, with totals non-increasing. |
| Report.SortedCategoriesStable | generate_report.py:150 | Categories with equal totals keep their declared order. |
| Report.WithoutRent | generate_report.py:220 | The list holds exactly the listed categories other than rent. |
| Report.WithoutRentInOrder | generate_report.py:220 | Every copy of each category other than rent is kept, rent is dropped, and the kept ones stay in the listed order. |
| Report.TopCategories | generate_report.py:220-225 | "Top Spending Categories" lists min(5, number of non-rent categories) of the listed non-rent categories, a sub-multiset of them, with totals non-increasing. None of them has a smaller total than a non-rent category left out. Categories of equal total appear in declared order, as a prefix of those categories. |
| Report.FiveTopCategories | generate_report.py:220-223 | With the declared categories the section always has exactly five entries. |
| Report.NonRentRows | generate_report.py:205 | Exactly the rows not mapped to rent, as a sub-multiset of the table. |
| Report.NonRentRowsInOrder | generate_report.py:205 | The candidates are every copy of each non-rent row, in table order. |
| Report.TopExpenses | generate_report.py:205-209 | "Top Individual Expenses" lists min(5, number of non-rent rows) of the non-rent rows, a sub-multiset of them, largest amount first. None is smaller than a non-rent row left out. Rows of equal amount appear in table order, as a prefix of those rows. |
| Report.NoTopExpenses | generate_report.py:206-211 | The section is empty, and shows its fallback line, exactly when every row is rent. |
| Report.WoltRows | generate_report.py:152-154 | Exactly the rows whose name contains "wolt" in any letter case; a missing name never matches. |
| Report.WoltRowsInOrder | generate_report.py:152 | The Wolt rows are every copy of each row that mentions Wolt, in table order. |
| Report.WoltIgnoresCase | generate_report.py:152 | The Wolt test gives the same answer for a name and its lower-cased form. |
| Report.WoltShare | generate_report.py:156-157 | The share is 0 when "Eating Out" has no positive total; otherwise the share times the "Eating Out" total is 100 times the Wolt total. |
| Report.FirstMax | generate_report.py:253 | `idxmax`: the position of a largest amount, before which every amount is smaller. |
| Report.LargestSubscription | generate_report.py:251-254 | The line is absent exactly when no row is a subscription. Otherwise it shows a subscription row whose amount is at least every subscription's. |
| Report.LargestSubscriptionFirst | generate_report.py:251-254 | Among subscriptions of equal largest amount, the one shown is the first in table order: every earlier subscription row is strictly smaller. |
| Report.NotableIn | generate_report.py:240-246 | The notable list holds exactly the listed non-rent categories above 15 percent. |
| Report.NotableInOrder | generate_report.py:240-246 | Each notable category appears as often as the category list holds it, in the order of that list. |
| Report.NotableSpending | generate_report.py:238-249 | The loop skips rent, keeps every category over 15 percent, and its counter is the number kept, so the fallback line shows exactly when none is notable. |
| Report.NotableExactly | generate_report.py:244 | A category is over 15 percent exactly when something was spent and 20 times its total exceeds 3 times the amount spent. |
| Report.DisplayName | generate_report.py:180-182 | A listed transaction shows its payee or "Rent", and "Rent" replaces the payee only in the rent section and only for an amount in 2900–3100. |
| Report.RentDisplay | generate_report.py:179-184 | A row labelled rent always has a name, so the lower-casing on the listing line cannot fail. It is shown as "Rent" exactly when its amount is in 2900–3100; an 800–900 transfer keeps its payee. |
| Report.EntryLineParts | generate_report.py:184 | A listing line is "- ", the shown name, and a price that reads back as the transaction's amount followed by "₪". |
| Report.ListingFor | generate_report.py:177-187 | One line per transaction, each its entry line in group order, or the single placeholder line for an empty category. |
| Report.PricesOf | generate_report.py:185 | One rendered price per transaction; no rendered price contains the separator ','. |
| Report.RenderListing | generate_report.py:177-187 | The listing is one line per transaction, or the placeholder for an empty category. The collected prices are the rendered prices of the transactions. |
| Report.SumFormula | generate_report.py:191-194 | The formula has the shape `=SUM(...)`, and is `=SUM(0)` when there are no prices. |
| Report.FormulaReadsBack | generate_report.py:191-194 | Parsing the formula gives back exactly the listed amounts, in order, and "=SUM(0)" gives the empty list. |
| Report.FormulaIsTotal | generate_report.py:177-197 | A category's formula parses, and its amounts add up to the category total shown beside it. |
| Decimal.FormatCents | generate_report.py:184 | The two-decimal rendering has a point before exactly two digits, a digit at every other position except a leading minus, the minus exactly for a negative amount, and no leading zero in the whole shekels beyond a single "0". |
| Decimal.ParseFormatCents | generate_report.py:185 | The rendering reads back as the amount it renders. |
| Report.Sections | generate_report.py:162-198 | One section per category of the order, in that order. |
| Report.RenderSection | generate_report.py:163-197 | One category's count share, listing and formula are its section. |
| Report.RenderSections | generate_report.py:162-198 | The two loops over the sorted categories give one section per category, in sorted order. |
| Report.ReportOf | generate_report.py:115-254 | The report holds the amount spent and the row count, one summary per listed category (the summary of its rows), a category order that is a permutation of the list, one section per category in that order, and at most five top expenses and five top categories. |
| Report.BuildReport | generate_report.py:115-254 | The report stage fails (division by zero on the overall-totals line) exactly when the table is empty. Otherwise it is the report of the mapped rows over the declared categories. |
| Report.ReportFromRows | generate_report.py:117-254 | For labelled rows, the report built step by step equals the report specified over those rows, and fails exactly on an empty table. |
| ExportRules.MapCategory | generate_csv.py:14-119 | The label is always one of the sixteen export labels. Every negative amount is "Reimburseable", whatever the name. A rent-sized paybox transfer is "Home & Decor". |
| ExportRules.MapByName | generate_csv.py:32-84 | A name rule gives an export label. No name rule fires exactly when no keyword group, reimbursement phrase or single keyword matches. |
| ExportRules.KeywordGroup | generate_csv.py:32-66 | The eight keyword groups give a label other than "Reimburseable". They fire exactly when one of the groups matches. |
| ExportRules.LaterNameRule | generate_csv.py:68-84 | The rules after the groups give "Reimburseable" exactly for a reimbursement phrase. They fire exactly when a phrase, an electronics keyword, "קרמה +", "עיריית" or "iherb" is present. |
| ExportRules.FallsToOriginal | generate_csv.py:86-119 | With a non-negative amount, no rent-sized paybox transfer and no name rule, the label is the table's label for the original category, or "Misc & One-offs" when it has none. |
| ExportRules.InstitutionsInTable | generate_csv.py:113-117 | The table maps "מוסדות" to "Government & Municipal" and "Subscriptions" to itself, and has no entry for "subscriptions". |
| ExportRules.MapByOriginalCategory | generate_csv.py:86-117 | The exact-match table gives an export label and never "Reimburseable". |
| ExportRules.NameRulesBeforeOriginalCategory | generate_csv.py:32-86 | When a name rule fires, the original category makes no difference. |
| ExportRules.InstitutionsAreGovernment | generate_csv.py:113-117 | Once no name rule fires, "מוסדות" is "Government & Municipal" and "Subscriptions" is "Subscriptions". The comparison is case-sensitive, so "subscriptions" is "Misc & One-offs". |
| ExportRules.ReimburseableExactly | generate_csv.py:23-69 | A label is "Reimburseable" exactly when the amount is negative, or when a reimbursement phrase is present and neither the rent test nor an earlier name group fired. |
| ExportRules.DormitoryParkingIsEducation | generate_csv.py:38-45 | "חניון מעונות" matches the transport keyword "חניון", but the education group comes first, so it is never "Transport & Car". |
| ExportRules.BookingIsEducation | generate_csv.py:38-57 | "booking" holds the education keyword "book", which is tested before travel, so it is never "Vacation & Travel". |
| Text.ContainsWordContains | generate_csv.py:41 | A whole-word match is also a substring match. |
| ExportRules.HitOnlyAsWord | generate_csv.py:41 | "hit" counts only as a whole word: it occurs inside "white" but not as a word, and it does in "hit college". |
| ExportRules.AbroadOnlyAsWord | generate_csv.py:56 | "חול" counts only as a whole word: not inside "חולון". |
| ExportRules.RenameColumns | generate_csv.py:136-143 | Renaming keeps the number and position of the columns; each header the map names becomes its own target (Date, Payee, Amount or Category) and every other header is unchanged. |
| ExportRules.RenameStatementHeaders | generate_csv.py:136-143 | The four statement headers, in order, become Date, Payee, Amount and Category. |
| ExportRules.SelectPresent | generate_csv.py:147 | Exactly the kept columns that are present. |
| ExportRules.ExportColumns | generate_csv.py:136-149 | The CSV's columns are exactly the target columns present after renaming, each once, in the order Date, Payee, Amount, Category. |
| ExportRules.ExportRows | generate_csv.py:132 | Every row keeps its date, payee, amount and position. Its category becomes the label `map_category` gives that row: an export label, "Reimburseable" for a negative amount. |
| Cleanup.AsText | main.py:29 | `astype(str)` keeps a text category and makes an empty one "nan". |
| Cleanup.CategoriesAsText | main.py:29 | Row by row, only the category cell changes, to its text form. |
| Cleanup.DropMissingAmount | main.py:31 | Exactly the rows with an amount are kept. |
| Cleanup.DropMissingAmountInOrder | main.py:31 | Every copy of each row with an amount is kept, in table order. |
| Cleanup.Cleaned | main.py:29-31 | Every kept row has a category text and an amount. |
| Cleanup.MissingCategoryBecomesNan | main.py:29-31 | A row with an amount but no category is kept, with the category "nan". |
| Cleanup.KeptExactly | main.py:29-31 | A row is kept exactly when it has an amount and comes from a loaded row with the same amount, the same name and that category text. |
| Cleanup.SortByCategory | main.py:33 | The result is a permutation of the rows, ascending by category text. |
| Cleanup.FixedRows | main.py:89-96 | Same length and row order, and names and amounts unchanged. A row's category becomes the new category exactly when its payee is listed and its category is empty or "nan"; every other category is kept. |
| Cleanup.FixIdempotent | main.py:89-96 | Fixing twice with the same arguments gives the same table as fixing once. |
| Cleanup.FixCanUnsort | main.py:86-97 | A sorted table can come out of `fix_categories` unsorted; the table is not sorted again. |
| Cleanup.AddTo | main.py:40-42 | Adding to a group keeps the other keys, adds the key, and raises the sum of totals by the amount. |
| Cleanup.CategorySums | main.py:40-42 | One group per category present, in strictly ascending category order. Each group holds its category's sum, and together they hold the amount of every row with a category. |
| Cleanup.TopAmounts | main.py:46 | `nlargest(5)` gives min(5, rows with an amount) of the rows with an amount, a sub-multiset of them, largest first, none smaller than a row left out. Rows of equal amount appear in table order, as a prefix of those rows. |
| Cleanup.ExcelProcessor.constructor | main.py:7-15 | After construction the table is processed: present, a permutation of the cleaned rows, and sorted by category. |
| Cleanup.ExcelProcessor.ValidateDataframe | main.py:17-19 | Fails, with the "run process_excel() first" error, exactly when there is no table. |
| Cleanup.ExcelProcessor.ProcessExcel | main.py:21-35 | The table is replaced three times. It ends up present, a permutation of the rows with an amount (categories as text), and sorted by category. |
| Cleanup.ExcelProcessor.FixCategories | main.py:86-97 | Without a table it fails and changes nothing. Otherwise it passes, and the table becomes the fixed table. |
| Cleanup.ExcelProcessor.CalculateCategorySums | main.py:37-43 | Without a table it fails with the validation error. Otherwise it gives the ascending per-category sums of the table. |
| Cleanup.ExcelProcessor.Top5Amounts | main.py:45-47 | There is no validation: without a table it fails on the missing table itself. Otherwise it gives the five largest amounts. |

## Left out

- Reading and writing files: `read_excel` (with its skipped rows and column selection), `ExcelWriter`, `to_csv`, the report file, the input-file existence checks and the exits on a missing column. The sheet is a parameter, and the results are values.
- `write_to_excel` and `style_excel_sheet` (main.py:49-84): workbook output and cell styling only; they compute nothing about the data beyond the three queries modelled.
- The script lines at the bottom of main.py (100-105): one fixed call sequence of the modelled methods.
- import_transactions.py (pushing the CSV into the budgeting application over its API): network I/O outside the three stages.
- Date handling in the export (`to_datetime(..., dayfirst=True).strftime`): the date is carried as an opaque text value.
- Floating-point formatting and arithmetic. Amounts are exact agorot, and the `:.1f` percentages and `:.2f` totals on the summary lines are not rendered. Only the listing lines and the formula render amounts, through `FormatCents`. The report's Markdown headings and summary lines are not built as text; their values are the fields of `Report.Report`.
- NaN amounts in the report and export stages: those stages read the cleaned sheet, where every amount is present, so the amount is an `int` there.
- Full Unicode lower-casing and `\b` word boundaries: letters are lower-cased in ASCII only, and word characters are ASCII letters, digits, `_` and Hebrew letters.
- The order pandas gives to rows with equal keys in `sort_values` and `nlargest`: the model uses one stable order. Cleanup.ExcelProcessor.ProcessExcel promises only sortedness and the multiset, not an order among equal categories.
- Report.BuildReport: the report is specified over a list of categories and instantiated with the seventeen declared ones. The report's `name.lower()` failure for a rent-range row without a name cannot arise, as Report.RentDisplay shows, so it is not modelled as an error.
- A listed transaction without a name prints as "nan", as the f-string does.
- Cleanup.ExcelProcessor.Top5Amounts: `AttributeError` stands for any failure of calling a method on the missing table.
