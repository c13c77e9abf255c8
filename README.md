# OftDesktop screens, modelled in Dafny

OftDesktop is an Electron desktop front end for a trading business. It keeps clients, products,
sales, expenses, salaries and bank ledgers. Each screen is a script that reads form inputs and
builds requests to a PHP back end. It turns the JSON answers into tables, totals and messages.
This project models the logic of eleven of those screens and proves what they promise:

- **home** (`Home`): the dashboard's brace scan, which digs the first `{...}` object out of a
  response that may carry junk around it. Also the rule that all five responses must report
  success, the five totals and the balance line.
- **salary** (`Salary`): the salary screen's own copy of the brace scan, which differs from the
  dashboard's at the edges. Also the add/edit form, whose mode flag picks PUT with an id or POST
  without one, and the month that is sent as its first day.
- **bank ledger** (`BankLedger`): credit and debit totals and the sign of the net change. Also
  the party filter `<type>-<id>` and the ledger request's query string.
- **expense** (`Expense`): expenses grouped by category in order of first appearance, the groups
  sorted by total (largest first), and the expense form.
- **expense details** (`ExpenseDetails`): the details URL and its date range, per-category totals,
  the highlighting of the selected row, and what each render leaves in the table container.
- **sales** (`Sales`): the live total calculation (price per kg times quantity, packing
  cost added per dozen), the quantity check, product names taken from option labels, and the save request.
- **employee salary ledger** (`EmployeeSalaryLedger`): filter state, the salary query, status
  labels, lookup of the employee by id, and the remaining balance.
- **client details** (`ClientDetails`): sales and receipt totals and the remaining balance (with
  JavaScript's `NaN` poisoning), the date filter, the loose `==` lookup of a sale, the update modal as the DOM fills it, and the details URL.
- **client** (`Client`): the client form and the delete confirmation flow.
- **product** (`Product`): the product form, weight validation and the edit-mode flag.
- **expense category** (`ExpenseCategory`): the category form whose hidden id picks PUT or POST.

Shared modules model the JavaScript behaviour the screens rely on:

- `JsText`: `indexOf`, `substring` clamping, `split`/`join`, `trim`.
- `JsNumbers`: `parseInt`, `parseFloat`, number-to-string, and `NaN`-aware `+` and `-`.
- `JsValues`: JSON scalars, truthiness and `String()`.
- `Query`: rendering and parsing a `k=v&k=v` query.
- `Money`: left-fold sums.
- `IsoDate`: `YYYY-MM-DD` dates and their order.
- `Wrappers`: `Option` and `Result`.
- `Http`: the request verbs.

Screens that keep module-level variables and DOM inputs between events are classes. Their
methods change the fields. The request a handler sends is a value that a function describes.
Network responses, `confirm()` answers, `JSON.parse` and the clock are parameters.

## Model

| member | source | states |
|---|---|---|
| Home.DepthCountsBraces | screens/home/home.js:69-78 | the depth the scan counts is the number of `{` minus the number of `}` |
| Home.MatchEnd | screens/home/home.js:69-78 | where the scan stops it has just passed a `}`, inside the text |
| Home.FirstObject | screens/home/home.js:59-86 | an extracted object is at least two characters long and no longer than the response |
| Home.ErrorMessage | screens/home/home.js:64-82 | the two extraction failures carry distinct messages, `No JSON object found` and `No complete JSON object found` |
| Home.ExtractFirstObject | screens/home/home.js:59-86 | the brace-counting loop returns exactly `FirstObject(text)` |
| Home.MatchEndFromPositive | screens/home/home.js:69-78 | from a positive depth the scan stops at the first point where the depth is back to 0, and when it runs out the depth never came back |
| Home.MatchEndFromOpen | screens/home/home.js:60-83 | from the first `{` the scan finds the shortest balanced slice, or fails exactly when no prefix is balanced |
| Home.FirstObjectCharacterization | screens/home/home.js:59-86 | `No JSON object found` iff there is no `{`; `No complete JSON object found` iff the depth from the first `{` never returns to 0; otherwise the result is the balanced object starting at the first `{` |
| Home.FoundObjectIsBalanced | screens/home/home.js:69-86 | what the scan returns opens with `{`, closes with `}`, has depth 0 and no shorter balanced prefix |
| Home.FirstObjectOfWrapped | screens/home/home.js:58-86 | junk without `{` before a balanced object, and anything after it, is ignored |
| Home.FirstObjectIgnoresSuffix | screens/home/home.js:69-86 | appending text after a response that holds a complete object does not change what is extracted |
| Home.BraceInsideStringClosesObject | screens/home/home.js:69-86 | the scan ignores JSON strings: `{"key":"}` + anything is cut right after the quoted `}` |
| Home.SafeParseJson | screens/home/home.js:53-97 | every failure, in extraction or in `JSON.parse`, becomes `Invalid JSON response from <endpoint>`; success iff both steps succeed |
| Home.FirstError | screens/home/home.js:44-50 | the first failure in request order is reported; none iff all succeeded |
| Home.ParseAll | screens/home/home.js:100-112 | each of the five bodies is parsed under its own endpoint name |
| Home.FetchDataShown | screens/home/home.js:114-153 | totals are shown iff all five requests succeed, all parse and all report `success` or `status === "success"`; they are the sums of `amount` (of `quantity` for products) |
| Home.FetchDataNetworkError | screens/home/home.js:43-158 | a failed request shows `Network error: ` with its message |
| Home.FetchDataParseError | screens/home/home.js:92-158 | an unparseable body shows `Network error: Invalid JSON response from <endpoint>` |
| Home.FetchData | screens/home/home.js:114-160 | a failed request shows `Network error: ` with the first failure's message; every error shown is `Failed to fetch data` or starts with `Network error: ` |
| Home.BalanceIsInMinusOut | screens/home/home.js:194 | the balance is the total received minus the total of payments, expenses and salaries taken together |
| Home.Balance | screens/home/home.js:194 | the balance plus what was paid, spent on expenses and on salaries is what was received; with non-negative outgoings it never exceeds what was received |
| Salary.ScanEnd | screens/salary/salary.js:95-103 | the inline scan stops after the text position it started from, inside the text |
| Salary.CharAt | screens/salary/salary.js:96-97 | `text[i]` is a character exactly inside the text, and that character; outside it is `undefined`, which matches no brace |
| Salary.ScanFirstObject | screens/salary/salary.js:91-106 | the loop that checks the depth after every character returns the `substring` of `ScanEnd` |
| Salary.ScanEndAgreesWithMatchEnd | screens/salary/salary.js:95-103 | from a positive depth, checking after every character stops where the dashboard's scan stops |
| Salary.ScanFirstObjectOutcome | screens/salary/salary.js:91-106 | the same object as the dashboard when there is a complete one; `""` when there is no `{`; the text before the first `{` when the braces never balance |
| Salary.NoBraceIsInvalidFormat | screens/salary/salary.js:106-117 | a response without `{` ends in `Invalid JSON format from server` |
| Salary.CompleteObjectIsParsed | screens/salary/salary.js:106-111 | with a complete object, the rows shown are that object's `data` |
| Salary.FetchSalariesOutcome | screens/salary/salary.js:79-125 | a failed HTTP status shows `Network error while fetching salaries`; no error shown is empty (an empty message falls back to `Failed to fetch salaries`) |
| Salary.Today | screens/salary/salary.js:22 | today's date is the ISO timestamp up to, not including, its first `T` (all of it when there is none) |
| Salary.SalaryScreen.constructor | screens/salary/salary.js:7-9 | the screen starts in add mode with no id being edited |
| Salary.SalaryScreen.HandleAddSalary | screens/salary/salary.js:155-168 | add mode, reset form, this month, today's payment date, status `pending` |
| Salary.SalaryScreen.HandleEdit | screens/salary/salary.js:171-186 | edit mode, form filled from the entry, month cut to `YYYY-MM`, missing notes empty |
| Salary.SalaryScreen.HandleSubmit | screens/salary/salary.js:189-212 | nothing is sent while the form is invalid; otherwise PUT with the id iff in edit mode, POST without one otherwise, the month sent with `-01` appended and the other inputs as they are |
| Salary.DefaultMonthSubmitsAsDate | screens/salary/salary.js:162-163 | the default month is a valid `YYYY-MM` and submits as a calendar date |
| Salary.EditThenSubmitMonth | screens/salary/salary.js:180 | saving an edited entry unchanged writes back its month's first day: the same date iff the stored day was `01` |
| BankLedger.Credits | screens/banksLedger/bank_ledger.js:129-135 | every entry counted as a credit has type `credit` |
| BankLedger.IsCredit | screens/banksLedger/bank_ledger.js:130 | an entry is a credit iff its type is exactly `credit`; `===` is case-sensitive, so `Credit` and `CREDIT` count as debits |
| BankLedger.Debits | screens/banksLedger/bank_ledger.js:129-135 | every entry counted as a debit is not of type `credit`, whatever its type |
| BankLedger.CreditsSnoc | screens/banksLedger/bank_ledger.js:130-134 | each entry joins exactly one side |
| BankLedger.CreditsDebitsPartition | screens/banksLedger/bank_ledger.js:129-135 | credits and debits together are the ledger, as a multiset |
| BankLedger.CreditsDebitsSum | screens/banksLedger/bank_ledger.js:129-135 | the two totals add up to the sum of all amounts |
| BankLedger.TotalsSnoc | screens/banksLedger/bank_ledger.js:130-134 | one more entry adds its amount to exactly one total |
| BankLedger.TotalsStep | screens/banksLedger/bank_ledger.js:129-135 | one loop step over entry `i` adds its amount to the credit total or the debit total of the prefix, never both |
| BankLedger.UpdateTotals | screens/banksLedger/bank_ledger.js:125-147 | the loop's totals are the sums of credit and of non-credit amounts; the net shown is the absolute difference; `text-success` iff the net change is not negative |
| BankLedger.TotalsCoverLedger | screens/banksLedger/bank_ledger.js:137-142 | the totals shown cover every amount in the ledger |
| BankLedger.HandleFilterSubmit | screens/banksLedger/bank_ledger.js:149-168 | an empty party leaves type and id unset; otherwise they are the first two pieces of the value split on `-`; each date is set iff non-empty |
| BankLedger.PartyFilterSplit | screens/banksLedger/bank_ledger.js:158-162 | an option `<type>-<id>` built by the filter list splits back into its type and id |
| BankLedger.LedgerParams | screens/banksLedger/bank_ledger.js:28 | `bank_id` is always the first parameter |
| BankLedger.LedgerUrl | screens/banksLedger/bank_ledger.js:28-35 | the URL grown one `&key=value` at a time is the ledger URL with the query of `LedgerParams` |
| BankLedger.AppendParam | screens/banksLedger/bank_ledger.js:31-35 | appending `&key=value` to the URL of a non-empty parameter list gives the URL of that list with the parameter added at its end |
| BankLedger.AppendParty | screens/banksLedger/bank_ledger.js:30-32 | the party pair is appended only when both halves are truthy |
| BankLedger.AppendIfSet | screens/banksLedger/bank_ledger.js:34-35 | a date is appended only when it is truthy |
| BankLedger.LedgerParamKeys | screens/banksLedger/bank_ledger.js:28-35 | the request carries `bank_id`, then `party_type` and `party_id` together or not at all, then each date that is set |
| BankLedger.LedgerQueryRoundTrip | screens/banksLedger/bank_ledger.js:28-35 | when no value holds `&`, the server reads back exactly the parameters sent |
| Expense.CategoryNames | screens/expense/expense.js:123-124 | the category name of each expense, in order |
| Expense.Names | screens/expense/expense.js:136 | the name of each group, in order |
| Expense.FirstAppearancesSpec | screens/expense/expense.js:123-133 | the object's keys are distinct and are exactly the category names of the list |
| Expense.InCategory | screens/expense/expense.js:130 | a category's list holds only that category's expenses, and is empty for a name not in the list |
| Expense.InCategoryMembers | screens/expense/expense.js:130 | an expense is in a category's list iff it is in the list and carries that name |
| Expense.GroupIndex | screens/expense/expense.js:124 | `acc[name]` finds the group with that name, or reports that there is none |
| Expense.WithGroup | screens/expense/expense.js:124-129 | after the first-sight check a group with that name exists |
| Expense.StepNames | screens/expense/expense.js:124-129 | a new name adds one group at the end; a known name changes no name |
| Expense.SeenIffGrouped | screens/expense/expense.js:124 | a name already has a group iff it was already seen in the expenses |
| Expense.StepKeepsNames | screens/expense/expense.js:123-133 | after each step the groups' names are the first appearances of the names seen so far |
| Expense.StepGroupContents | screens/expense/expense.js:130-131 | after each step every group holds its category's expenses so far, and their sum |
| Expense.StepKeepsGrouping | screens/expense/expense.js:123-133 | each step of the `reduce` keeps the accumulator a grouping of the expenses seen |
| Expense.StepCases | screens/expense/expense.js:124-131 | the step appends a new group holding just the expense, or extends the known group and its total |
| Expense.AddToGroup | screens/expense/expense.js:124-132 | the reducer body computes one `Step` |
| Expense.GroupByCategory | screens/expense/expense.js:123-133 | the `reduce` yields one group per distinct category, in order of first appearance, each holding exactly its expenses in input order with their sum |
| Expense.EachExpenseInOneGroup | screens/expense/expense.js:123-133 | every expense is in the group of its category, and in no other group |
| Expense.InCategoryContains | screens/expense/expense.js:130 | an expense is in the list of its own category |
| Expense.Insert | screens/expense/expense.js:136 | inserting a group keeps the totals in descending order and keeps every group |
| Expense.SortByTotalDesc | screens/expense/expense.js:136 | the sorted groups have non-increasing totals and are a permutation of the groups |
| Expense.StepwiseIsSorted | screens/expense/expense.js:136 | each total at least the next means every total is at least every later one |
| Expense.InsertKeepsNamesDistinct | screens/expense/expense.js:136 | inserting a group with a new name adds that name once and keeps the names distinct |
| Expense.SortKeepsNamesDistinct | screens/expense/expense.js:136 | sorting keeps each name as often as before, so distinct names stay distinct |
| Expense.RenderTable | screens/expense/expense.js:114-151 | an empty list shows the `No expenses found` row; otherwise one row (category, total) per group of the grouping, sorted largest total first |
| Expense.SummaryRowsMeaning | screens/expense/expense.js:123-151 | one summary row per distinct category, no category twice, totals never increasing, each total the sum of that category's amounts |
| Expense.ExpenseForm.constructor | screens/expense/expense.js:18-28 | the form starts empty with no error shown |
| Expense.ExpenseForm.Submit | screens/expense/expense.js:163-175 | the error line is cleared; a POST is made iff category, bank, amount and date are all filled in, with the description trimmed; otherwise the required-fields error shows |
| Expense.ExpenseForm.OnSaveResponse | screens/expense/expense.js:181-186 | an accepted save (`status === 'success'` or `success === true`) refetches and resets the form; otherwise the message, or `Error`, shows and the inputs stay |
| Expense.SaveAccepted | screens/expense/expense.js:183 | a save is accepted iff `status` is exactly the text `success` or `success` is exactly `true`; the truthiness guard on `status` changes nothing, and a truthy `success` such as 1 is not accepted |
| ExpenseDetails.DetailsUrlHasDoubleSlash | screens/expense/expense_details.js:26 | the base URL (line 1) already ends in `/`, so the request path holds `//expense_details.php` |
| ExpenseDetails.FetchDetailsUrl | screens/expense/expense_details.js:25-33 | the URL built by pushing the chosen filter and joining is the details URL with the query of `DetailsParams`, and has no `?` when no filter applies |
| ExpenseDetails.DetailsParams | screens/expense/expense_details.js:29-33 | at most two parameters travel, none with an empty value |
| ExpenseDetails.ParamPrecedence | screens/expense/expense_details.js:29-33 | exactly one filter travels: the id whenever given; else both range ends when both are filled; else the date; nothing iff none of them |
| ExpenseDetails.LoadWithDateSendsRange | screens/expense/expense_details.js:16-20 | a `date` in the page query fills both range inputs, so the request carries `from` and `to`, never `date=` alone |
| ExpenseDetails.FilterButtonUsesRangeOnly | screens/expense/expense_details.js:21 | the filter button sends the range when both ends are filled, and nothing otherwise |
| ExpenseDetails.DetailsQueryRoundTrip | screens/expense/expense_details.js:29-33 | when no value holds `&`, the server reads back exactly the filter sent |
| ExpenseDetails.OfCategory | screens/expense/expense_details.js:39-41 | the filter keeps only rows of the category, never more rows than it was given; none when no row is of the category, all when every row is |
| ExpenseDetails.OfCategoryCounts | screens/expense/expense_details.js:40 | every row of the category is kept as often as it occurs, and nothing else |
| ExpenseDetails.CategoryTotal | screens/expense/expense_details.js:46 | the heading total is 0 when no row is of the category, and the sum of all amounts when every row is |
| ExpenseDetails.CategoryTotalOverAllRows | screens/expense/expense_details.js:46 | the heading total is the sum over all rows of each row's amount when it is of the category, else 0 |
| ExpenseDetails.TableOf | screens/expense/expense_details.js:57-123 | what one `renderTable` call writes: the alert iff no rows; a detail card iff an id was asked for and there is exactly one row, showing that row; one row class per row, `table-warning` iff `String(exp.id) === String(highlightId)` |
| ExpenseDetails.Highlighted | screens/expense/expense_details.js:109 | a row is highlighted only when a non-empty id was asked for; a row whose string id is that text is highlighted |
| ExpenseDetails.RowClass | screens/expense/expense_details.js:109 | the row class is `table-warning` iff the row is highlighted, and empty otherwise |
| ExpenseDetails.AfterRender | screens/expense/expense_details.js:57-123 | the alert, and the card with its table, replace the container's content; a table without a card is appended after whatever the container held (`innerHTML +=`) |
| ExpenseDetails.Rendered | screens/expense/expense_details.js:57-123 | corrected: the container shows one result only, the alert or an optional card over one table |
| ExpenseDetails.AfterRenderVersusRendered | screens/expense/expense_details.js:60-122 | the written and the corrected container agree iff the render shows the alert or a card, or the container was empty; otherwise the old content stays above the new table |
| ExpenseDetails.FilterTwiceStacksTables | screens/expense/expense_details.js:21-122 | two loads with rows and no requested id, such as page load then the filter button, leave both tables in the container |
| ExpenseDetails.DetailsContainer.constructor | screens/expense/expense_details.js:58 | the container starts with the content the page gives it |
| ExpenseDetails.DetailsContainer.RenderTable | screens/expense/expense_details.js:57-123 | the loop over the rows produces `TableOf`, and the container becomes `AfterRender` of its old content |
| ExpenseDetails.NumericIdHighlighted | screens/expense/expense_details.js:109 | a numeric id matches the same number in the page's query, so that row is highlighted |
| ExpenseDetails.ShowDetails | screens/expense/expense_details.js:34-54 | a failed request or a response not accepted shows the alert and no total; with a category, the table of that category's rows and their total; without one, all rows and no total |
| ExpenseDetails.Accepted | screens/expense/expense_details.js:37 | the response is accepted iff `status` is exactly the text `success` or `success` is exactly `true` |
| Sales.EmptyInputIsZero | screens/sales/sales.js:75-76 | an empty input reads as 0 (`parseFloat('')` is `NaN`, and `NaN \|\| 0` is 0) |
| Sales.OrZero | screens/sales/sales.js:75-87 | `\|\| 0` keeps a finite number, turns `NaN` into 0, and a non-zero result is the number read; the infinities are admitted under "Left out" |
| Sales.InputValue | screens/sales/sales.js:75-87 | an input that does not read as a finite number counts as 0; a non-zero value is what `parseFloat` read |
| Sales.IntegerInputValue | screens/sales/sales.js:75-76 | an input holding an integer reads as that integer |
| Sales.Divide | screens/sales/sales.js:109 | double division: a true quotient for a non-zero divisor; `NaN` iff 0/0; a signed infinity for x/0 |
| Sales.ShownCents | screens/sales/sales.js:361 | the total read back from `toFixed(2)` is within half a cent of the total |
| Sales.ShownCentsOfCents | screens/sales/sales.js:361 | a whole number of cents is read back unchanged |
| Sales.LooseTotalOfEmpty | screens/sales/sales.js:74-79 | an empty quantity or price gives a total of 0 |
| Sales.LooseTotalOfIntegers | screens/sales/sales.js:74-79 | whole-number inputs give their product |
| Sales.LooseTotal | screens/sales/sales.js:74-79 | an input that reads as 0 or not at all gives a total of 0; two positive readings give a positive total |
| Sales.CalculateReady | screens/sales/sales.js:81-122 | the price per kg sent is the total divided by the total kilograms, with JavaScript's division |
| Sales.ReadyTotalClosedForm | screens/sales/sales.js:90-99 | the total is boxes times dozens per box times (weight value plus packing cost) |
| Sales.ReadyPricePerKgTimesQuantity | screens/sales/sales.js:108-109 | when some weight is sold, price per kg times kilograms gives back the total |
| Sales.ReadyPricePerKgWithoutPacking | screens/sales/sales.js:90-109 | without packing cost, the price per kg is the gram rate times the dozens per box |
| Sales.ReadyWithoutWeight | screens/sales/sales.js:108-109 | with no weight, the price per kg is never a finite number: `NaN` iff the total is 0 too |
| Sales.ValidateQuantityFinite | screens/sales/sales.js:321-331 | for readable numbers the sale is refused iff it asks for more than the stock |
| Sales.ValidateQuantityEqual | screens/sales/sales.js:326 | selling exactly the available stock is allowed |
| Sales.ValidateQuantityNaN | screens/sales/sales.js:324-326 | an unreadable quantity or stock lets the sale through (`NaN > x` is false) |
| Sales.ValidateQuantity | screens/sales/sales.js:321-331 | a sale is refused only when both the quantity and the stock read as numbers, and never for a quantity of minus infinity or a stock of infinity |
| Sales.Greater | screens/sales/sales.js:326 | `a > b` is false whenever either side is `NaN` and for equal sides; on finite numbers it is the order of the values |
| Sales.FetchSalesUrl | screens/sales/sales.js:170-180 | the list URL carries a query only when a date is set, with `from` before `to` |
| Sales.SaleUrl | screens/sales/sales.js:174 | the list, save and delete requests go to `<API_BASE_URL>/sale.php` |
| Sales.SalesParams | screens/sales/sales.js:175-179 | the keys are `from` then `to`, each iff its date is set, and no empty value travels |
| Sales.SalesParamsShape | screens/sales/sales.js:175-179 | the query is empty iff neither date is set; one parameter per set date; `from` first, `to` last |
| Sales.FindOption | screens/sales/sales.js:194 | `find` returns an option with that value, and finds none iff no option has it |
| Sales.FindOptionFirst | screens/sales/sales.js:194 | `find` returns the first option with that value |
| Sales.ProductNameOfLabel | screens/sales/sales.js:200 | the option label `name (Available: …kg)` yields `name` back when the name holds no ` (` |
| Sales.ProductName | screens/sales/sales.js:200 | `split(' (')[0]`: a prefix of the label holding no ` (`, followed in the label by ` (` unless it is the whole label (also used when saving, line 370) |
| Sales.FillNames | screens/sales/sales.js:191-203 | a sale that has a name, or no id, keeps its name; ids and everything else are kept |
| Sales.UnmatchedIdsFallBack | screens/sales/sales.js:195-200 | a nameless sale whose ids match no option shows `Unknown Client` and `Unknown Product` |
| Sales.MatchedProductNamed | screens/sales/sales.js:197-200 | a nameless sale whose numeric product id has an option gets that option's product name |
| Sales.MatchedClientNamed | screens/sales/sales.js:192-195 | a nameless sale whose truthy client id has an option gets that first matching option's whole text |
| Sales.SubmittedBody | screens/sales/sales.js:340-373 | the payload: the client and product as selected, the product name cut before ` (`, the packing as typed; for ready goods the ready pricing and the ready-only fields with 300 grams per dozen; otherwise the loose inputs and the shown total rounded to cents |
| Sales.SalesScreen.constructor | screens/sales/sales.js:3-5 | the screen starts in add mode with no sales |
| Sales.SalesScreen.HandleAddSale | screens/sales/sales.js:278-279 | add mode |
| Sales.SalesScreen.HandleEdit | screens/sales/sales.js:295-296 | edit mode for the sale opened, whose id is kept |
| Sales.SalesScreen.ReceiveSales | screens/sales/sales.js:189-203 | the list becomes the response's sales with their names filled in, one for one |
| Sales.SalesScreen.HandleSubmit | screens/sales/sales.js:333-391 | a request iff the form is valid and the quantity passes the stock check; its body is `SubmittedBody`; PUT iff in edit mode, POST otherwise; an edit names the sale being edited |
| Sales.AsWrittenRequest | screens/sales/sales.js:384-391 | as written: PUT iff edit mode, POST otherwise, and the body is the form's alone, whatever sale was opened |
| Sales.EditedSalesIndistinguishable | screens/sales/sales.js:384-391 | two different sales edited with the same form values give the same request as written, but different corrected requests |
| EmployeeSalaryLedger.UpperCase | screens/employee_salary_ledger/employee_salary_ledger.js:42 | ASCII lower-case letters move up by 32, every other character is kept |
| EmployeeSalaryLedger.Capitalize | screens/employee_salary_ledger/employee_salary_ledger.js:42 | same length, first character upper-cased, the rest kept |
| EmployeeSalaryLedger.CapitalizeIdempotent | screens/employee_salary_ledger/employee_salary_ledger.js:42 | capitalizing twice is capitalizing once |
| EmployeeSalaryLedger.StatusLabel | screens/employee_salary_ledger/employee_salary_ledger.js:41-42 | `all` reads `All Status`; any other status is shown with an upper-case initial |
| EmployeeSalaryLedger.StatusLabelOfPaid | screens/employee_salary_ledger/employee_salary_ledger.js:41-42 | `paid` reads `Paid` and `pending` reads `Pending` |
| EmployeeSalaryLedger.AllToNull | screens/employee_salary_ledger/employee_salary_ledger.js:43 | `all` becomes `null` and every other value is kept |
| EmployeeSalaryLedger.LedgerScreen.constructor | screens/employee_salary_ledger/employee_salary_ledger.js:18-23 | every filter starts out `null` |
| EmployeeSalaryLedger.LedgerScreen.SelectStatus | screens/employee_salary_ledger/employee_salary_ledger.js:37-46 | the status label and the status filter change, nothing else |
| EmployeeSalaryLedger.LedgerScreen.SelectBank | screens/employee_salary_ledger/employee_salary_ledger.js:68-76 | the bank label takes the item's text and the bank filter its id (`all` clears it), nothing else |
| EmployeeSalaryLedger.LedgerScreen.HandleFilterChange | screens/employee_salary_ledger/employee_salary_ledger.js:84-92 | a start month becomes its day `01`, an end month its day `31`, an empty input clears the filter; the dropdown filters are kept |
| EmployeeSalaryLedger.MonthBounds | screens/employee_salary_ledger/employee_salary_ledger.js:88-89 | the start of a chosen month is a calendar date; its `-31` end is one iff the month has 31 days |
| EmployeeSalaryLedger.SalaryParams | screens/employee_salary_ledger/employee_salary_ledger.js:98 | `employee_id` always comes first, printed `null` when the page has no id |
| EmployeeSalaryLedger.IfSet | screens/employee_salary_ledger/employee_salary_ledger.js:100-103 | a filter adds its key iff it is set |
| EmployeeSalaryLedger.FilteredSalaryUrl | screens/employee_salary_ledger/employee_salary_ledger.js:98-103 | the URL grown one `&key=value` at a time is the salaries URL with the query of `SalaryParams` (built the same way for the PDF at lines 206-211) |
| EmployeeSalaryLedger.AppendParam | screens/employee_salary_ledger/employee_salary_ledger.js:98-103 | appending `&key=value` to the URL of a non-empty parameter list gives the URL of that list with the parameter added at its end |
| EmployeeSalaryLedger.AppendIfSet | screens/employee_salary_ledger/employee_salary_ledger.js:100-103 | a filter is appended only when it is truthy |
| EmployeeSalaryLedger.SalaryParamKeys | screens/employee_salary_ledger/employee_salary_ledger.js:98-103 | the keys are `employee_id`, then `bank_id`, `status`, `start_date`, `end_date`, each iff its filter is set |
| EmployeeSalaryLedger.AllFiltersLeaveOnlyDates | screens/employee_salary_ledger/employee_salary_ledger.js:43-103 | after `all` in both dropdowns only the dates can follow the employee id |
| EmployeeSalaryLedger.SalaryQueryRoundTrip | screens/employee_salary_ledger/employee_salary_ledger.js:98-103 | when no value holds `&`, the server reads back exactly the filters sent |
| EmployeeSalaryLedger.FindEmployee | screens/employee_salary_ledger/employee_salary_ledger.js:116 | `find` returns an employee whose id is strictly the parsed page id, and none iff no employee matches |
| EmployeeSalaryLedger.PageEmployeeId | screens/employee_salary_ledger/employee_salary_ledger.js:116 | `parseInt(employeeId)` is `NaN` when no id is stored (`parseInt(null)`) and when the id is empty, so no employee is found |
| EmployeeSalaryLedger.Matches | screens/employee_salary_ledger/employee_salary_ledger.js:116 | `emp.id === target` holds only for a numeric id equal to the parsed page id, never for a string id |
| EmployeeSalaryLedger.FirstMatch | screens/employee_salary_ledger/employee_salary_ledger.js:116 | the first matching position, at or before any known match |
| EmployeeSalaryLedger.FindEmployeeFirst | screens/employee_salary_ledger/employee_salary_ledger.js:116 | `find` returns the first matching employee |
| EmployeeSalaryLedger.EmployeeSalary | screens/employee_salary_ledger/employee_salary_ledger.js:117 | no employee or no salary reads as 0; otherwise the employee's salary |
| EmployeeSalaryLedger.UnknownEmployeeHasNoSalary | screens/employee_salary_ledger/employee_salary_ledger.js:116-117 | a page id that matches no employee gives a salary of 0 |
| EmployeeSalaryLedger.NumericIdOnlyMatches | screens/employee_salary_ledger/employee_salary_ledger.js:116 | the decimal text of `n` finds the employee whose id is the number `n`, but not one whose id is the string |
| EmployeeSalaryLedger.RemainingBalance | screens/employee_salary_ledger/employee_salary_ledger.js:138 | `NaN` iff the paid total is `NaN`; otherwise never negative and at least salary minus paid; an infinite paid total gives 0, or +infinity when it is -infinity |
| EmployeeSalaryLedger.RemainingPlusPaid | screens/employee_salary_ledger/employee_salary_ledger.js:138 | balance plus paid is the salary while it is not exceeded; an overpayment shows 0 |
| ClientDetails.FormatDate | screens/client-details/client-details.js:34-36 | the date part is the prefix of the timestamp up to its first `T`, holds no `T`, and is followed by `T` unless it is the whole text |
| ClientDetails.FormatDateOfTimestamp | screens/client-details/client-details.js:34-36 | `<date>T<time>` formats as `<date>` |
| ClientDetails.TotalSales | screens/client-details/client-details.js:116-118 | when every price reads as a number, the exact sum of the prices, a missing price counting 0 |
| ClientDetails.SaleAmount | screens/client-details/client-details.js:117 | a numeric price is read as its value; a price reads `NaN` only when it is truthy |
| ClientDetails.ReceiptAmount | screens/client-details/client-details.js:87 | a numeric amount is read as its value; a receipt with no `amount` field reads `NaN` |
| ClientDetails.JsSum | screens/client-details/client-details.js:87 | a finite double sum means every amount read as a finite number |
| ClientDetails.TotalReceived | screens/client-details/client-details.js:87 | when every amount reads as a number, the exact sum of the amounts |
| ClientDetails.RemainingBalance | screens/client-details/client-details.js:88 | a `NaN` total of sales or of receipts makes the balance `NaN` |
| ClientDetails.JsSumFinite | screens/client-details/client-details.js:117 | when every amount reads as a number the double sum is the exact sum of the amounts |
| ClientDetails.JsSumNaN | screens/client-details/client-details.js:87 | one amount that reads `NaN` makes the whole sum `NaN` |
| ClientDetails.JsSumWhenFinite | screens/client-details/client-details.js:117 | for every list: the double sum is the exact sum whenever every amount reads as a number |
| ClientDetails.MissingValues | screens/client-details/client-details.js:87-117 | a sale without a price adds 0 (`|| 0`); a receipt without an amount reads `NaN` |
| ClientDetails.ReceiptWithoutAmountPoisonsBalance | screens/client-details/client-details.js:87-88 | one receipt lacking its amount makes the total received and the balance `NaN` |
| ClientDetails.BalanceSplitsTotal | screens/client-details/client-details.js:87-88 | with readable amounts, received plus remaining is the sales total, and the balance is negative iff more was received than sold |
| ClientDetails.SalesParams | screens/client-details/client-details.js:44-47 | the query starts `action=client_sales&client_id=<id>` (`null` without a stored id) |
| ClientDetails.SalesDetailsUrl | screens/client-details/client-details.js:44-47 | the URL built by the template and the appends is the `client.php` URL with the query of `SalesParams` |
| ClientDetails.AppendParam | screens/client-details/client-details.js:45-47 | appending `&key=value` to the URL of a non-empty parameter list gives the URL of that list with the parameter added at its end |
| ClientDetails.DatesOnlyAsPair | screens/client-details/client-details.js:45-47 | the dates are sent iff both are given, never one alone |
| ClientDetails.SalesQueryRoundTrip | screens/client-details/client-details.js:44-47 | when no value holds `&`, the server reads back exactly the parameters sent |
| ClientDetails.HandleDateFilter | screens/client-details/client-details.js:147-163 | a missing date and a start after the end are refused with their messages, in that order; otherwise the range is fetched |
| ClientDetails.SameDayAccepted | screens/client-details/client-details.js:156 | a one-day range is accepted |
| ClientDetails.ExactlyOneOrderAccepted | screens/client-details/client-details.js:156 | of two distinct dates exactly one order passes the filter |
| ClientDetails.AcceptedFilterSendsRange | screens/client-details/client-details.js:161-162 | an accepted filter sends `start_date` and `end_date` after the client id |
| ClientDetails.FindSale | screens/client-details/client-details.js:318 | `find` with `==` returns a listed sale whose id loosely equals the number, and none iff no sale does |
| ClientDetails.LooselyEquals | screens/client-details/client-details.js:318 | `sale_id == saleId` with a number: a numeric id matches iff equal; `null` and `undefined` match nothing, and a blank text matches 0 only |
| ClientDetails.StringIdFound | screens/client-details/client-details.js:318 | a sale whose id the server sends as the text of any non-negative number is found from that number, and is the one found when it comes first |
| ClientDetails.NumberTextLooselyEquals | screens/client-details/client-details.js:318 | `String(n) == n` for every non-negative `n` |
| ClientDetails.OptionValues | screens/client-details/client-details.js:279-281 | one option value per product, `String(product.id)`, in order |
| ClientDetails.EditThenUpdate | screens/client-details/client-details.js:317-339 | saving the modal just filled from a sale sends that sale's id; its product iff the select has an option of that value, else `""` (always `""` before the products load); its quantity and price, or `""` for `null`; its packing or an empty one; and the stored client id |
| ClientDetails.EditFormOf | screens/client-details/client-details.js:321-325 | the select holds a loaded option or nothing; a string sale id is shown as is; a `null` quantity or price and a falsy packing leave their inputs empty |
| ClientDetails.UpdateBody | screens/client-details/client-details.js:332-339 | the body carries the modal's inputs unaltered, and the stored client id |
| ClientDetails.LoadedProductKept | screens/client-details/client-details.js:279-322 | once the products are loaded, a sale of one of them is sent back with its own product |
| ClientDetails.ClientDetailsScreen.constructor | screens/client-details/client-details.js:2-3 | no rows, no client details and no product options at load |
| ClientDetails.ClientDetailsScreen.ReceiveSalesDetails | screens/client-details/client-details.js:39-113 | on success the details and `sales_data \|\| []` are stored and the PDF button is disabled iff there are no rows, the table shown iff there are; otherwise the message or the default is shown, the stored data and the PDF button stay, and the table stays hidden by `showLoading(true)` |
| ClientDetails.ClientDetailsScreen.LoadProducts | screens/client-details/client-details.js:272-287 | on success the select's options become the products' ids and the select (also inside an open update modal) falls back to the first product, or to nothing; a failed request shows `Error loading products`; an unsuccessful response changes nothing |
| ClientDetails.ClientDetailsScreen.EditSale | screens/client-details/client-details.js:317-328 | no match changes nothing; otherwise the modal opens with the first match's values as the inputs read them back: the product only if the select has it, `null` as empty |
| ClientDetails.ClientDetailsScreen.HandleSaleUpdate | screens/client-details/client-details.js:331-339 | the body sent is the modal's inputs as they stand, and the stored client id |
| Client.OrEmpty | screens/client/client.js:118-122 | a falsy value gives the empty input, a truthy one its string |
| Client.SubmitRequest | screens/client/client.js:136-163 | every field trimmed; an empty name is refused with `Name is required`; PUT with the id iff `editingId` is truthy, POST without one otherwise |
| Client.DeleteRequest | screens/client/client.js:200-213 | DELETE is sent iff an id is stored, with that id |
| Client.ClientScreen.constructor | screens/client/client.js:4-5 | no clients, no edit mode, no modal at load |
| Client.ClientScreen.ReceiveClients | screens/client/client.js:29-34 | the list is replaced only on success; otherwise the message or `Failed to fetch clients` |
| Client.ClientScreen.OpenModal | screens/client/client.js:108-128 | a client sets edit mode, the title `Edit Client` and its fields (`|| ''`, and a `null` name as empty); none resets the form in add mode |
| Client.ClientScreen.CloseModal | screens/client/client.js:130-134 | the modal hides and edit mode ends |
| Client.ClientScreen.HandleSubmit | screens/client/client.js:136-163 | the request is `SubmitRequest` of the current mode and form |
| Client.ClientScreen.OnSaveResponse | screens/client/client.js:165-172 | success closes the modal and ends edit mode; failure shows the message or `Operation failed` |
| Client.ClientScreen.HandleEdit | screens/client/client.js:179-184 | the modal opens for the first client whose id is the clicked number or its text, with that client's own id; nothing happens when there is none (corrected lookup, see Findings) |
| Client.ClientScreen.HandleDelete | screens/client/client.js:186-192 | the delete modal shows and keeps the id as its decimal text |
| Client.ClientScreen.CloseDeleteModal | screens/client/client.js:194-198 | the delete modal hides and forgets the id |
| Client.ClientScreen.ConfirmDelete | screens/client/client.js:200-204 | the id to delete is `DeleteRequest` of the stored one |
| Client.ClientScreen.OnDeleteResponse | screens/client/client.js:215-222 | success closes the delete modal; failure shows the message or `Failed to delete client` |
| Client.FindClient | screens/client/client.js:180 | `find` with `===` returns a listed client whose id is the number, and none iff there is none |
| Client.StringIdsNeverEdit | screens/client/client.js:180 | as written, clients whose ids arrive as strings never open for editing |
| Client.FindClientById | screens/client/client.js:180 | corrected: a listed client whose id reads as the clicked number, and none iff no client's does |
| Client.NumberOrTextIdFound | screens/client/client.js:180 | the corrected lookup finds a client whose id is the number or its decimal text |
| Client.CorrectedFindsWhatStrictFinds | screens/client/client.js:180 | whenever the strict lookup finds a client, the corrected one finds one too |
| Client.EditThenSubmit | screens/client/client.js:108-163 | opening a client with a truthy id and saving it sends PUT with that id, and saving the sent values again sends the same request |
| Client.BlankFormRefused | screens/client/client.js:124-150 | a reset form is refused for its empty name |
| Client.ClosedModalPosts | screens/client/client.js:133-158 | after the modal closes a save is a POST without an id |
| Client.StoredClientId | screens/client/client.js:229-232 | the id kept for the details page reads back as the clicked number |
| Client.DeleteIdRoundTrip | screens/client/client.js:186-212 | the id kept by the delete modal reads back as the clicked number; after closing nothing is sent |
| Product.SaveRequest | screens/product/product.js:57-81 | an empty trimmed name or weight gives the first message; a weight `parseFloat` reads as `NaN` the second; otherwise PUT with the id iff `editingId` is truthy, the trimmed name and the numeric weight |
| Product.ProductScreen.constructor | screens/product/product.js:4 | no edit mode, empty inputs, `Add Product`, no confirmation |
| Product.ProductScreen.HandleAddProduct | screens/product/product.js:57-98 | the request or error is `SaveRequest` of the current inputs and mode |
| Product.ProductScreen.OnSaveResponse | screens/product/product.js:83-92 | success clears the inputs and edit mode and restores `Add Product`; failure shows `String(message)` and changes nothing |
| Product.ProductScreen.HandleEdit | screens/product/product.js:101-106 | the inputs take the product's values as they read back (`null` as empty), edit mode takes its id, the button reads `Update Product` |
| Product.ProductScreen.HandleDelete | screens/product/product.js:108-113 | the confirmation shows and is bound to this id |
| Product.ProductScreen.CancelDelete | screens/product/product.js:15-18 | the confirmation hides; its binding stays |
| Product.ProductScreen.ConfirmDelete | screens/product/product.js:113-119 | DELETE carries the bound id; nothing before any delete click |
| Product.ProductScreen.OnDeleteResponse | screens/product/product.js:121-130 | a refused delete shows its message; the confirmation closes in every case |
| Product.ResetFormRefused | screens/product/product.js:86-97 | right after a successful save the empty form is refused |
| Product.EditThenSave | screens/product/product.js:57-106 | editing a product with a truthy id, a name and an integer weight, then saving, sends PUT with that id, the trimmed name and the weight as a number |
| Product.SaveRequestPut | screens/product/product.js:72-75 | with an id and a weight that reads as a number, the save is PUT of those |
| Product.WeightTextReadsBack | screens/product/product.js:65 | an integer weight shown in the input reads back unchanged |
| Product.LetterWeightRefused | screens/product/product.js:65-69 | a weight starting with a letter is refused with the weight message |
| ExpenseCategory.SubmitRequest | screens/expenseCategory/expenseCategory.js:78-85 | the trimmed name is required; PUT `{id, name}` iff the hidden id is non-empty, POST `{name}` otherwise |
| ExpenseCategory.CategoryForm.constructor | screens/expenseCategory/expenseCategory.js:16-20 | the form starts empty, in add mode, with `Add` and no Cancel |
| ExpenseCategory.CategoryForm.HandleFormSubmit | screens/expenseCategory/expenseCategory.js:78-85 | the request is `SubmitRequest`; a refusal shows in the error line, an accepted save hides it |
| ExpenseCategory.CategoryForm.HandleEdit | screens/expenseCategory/expenseCategory.js:101-106 | the row's id and name fill the form, the button reads `Update`, Cancel shows; the mode stays consistent |
| ExpenseCategory.CategoryForm.ResetForm | screens/expenseCategory/expenseCategory.js:124-129 | back to add mode, empty, `Add`, no Cancel |
| ExpenseCategory.CategoryForm.OnSaveResponse | screens/expenseCategory/expenseCategory.js:92-96 | success resets the form; failure shows the message or `Error` |
| ExpenseCategory.DeleteRequest | screens/expenseCategory/expenseCategory.js:108-114 | DELETE is sent iff confirmed, with the row's id |
| ExpenseCategory.EditThenSubmit | screens/expenseCategory/expenseCategory.js:78-106 | editing a row and saving sends PUT with its id and the trimmed name |
| ExpenseCategory.ResetThenSubmit | screens/expenseCategory/expenseCategory.js:78-129 | after a reset a save is a POST of the name alone, or the name error |
| JsText.IndexOf | screens/salary/salary.js:92 | -1 iff the character is absent; otherwise the index of its first occurrence |
| JsText.Substring | screens/salary/salary.js:106 | never longer than the text |
| JsText.SubstringInRange | screens/salary/salary.js:106 | ordered in-range indices give the slice |
| JsText.SubstringNegativeEnd | screens/salary/salary.js:106 | a negative end is clamped to 0 and the pair swapped: the text before the start |
| JsText.SubstringPrefix | screens/salary/salary.js:23 | `substring(0, n)` keeps the first `n` characters, or all of a shorter text |
| JsText.Split | screens/banksLedger/bank_ledger.js:159 | at least one piece, none holding the separator |
| JsText.JoinSplit | screens/banksLedger/bank_ledger.js:159 | joining the pieces gives back the text |
| JsText.SplitJoin | screens/banksLedger/bank_ledger.js:159 | splitting a join of separator-free pieces gives back the pieces |
| JsText.Find | screens/sales/sales.js:200 | the first occurrence of the needle, or -1 when there is none |
| JsText.BeforeFirst | screens/sales/sales.js:200 | `split(sep)[0]` is the prefix before the first separator, or the whole text |
| JsText.TrimStart | screens/client/client.js:139 | drops exactly the leading white space |
| JsText.TrimEnd | screens/client/client.js:139 | drops exactly the trailing white space |
| JsText.Trim | screens/client/client.js:139-144 | the trimmed text is never longer than the input |
| JsText.TrimEmptyIff | screens/client/client.js:139-147 | a trimmed input is empty iff it held only white space |
| JsText.TrimSlice | screens/client/client.js:139 | the trimmed text is a slice of the input |
| JsText.TrimDropsOnlySpace | screens/client/client.js:139 | everything dropped is white space |
| JsText.TrimEnds | screens/client/client.js:139 | a non-empty trimmed text neither starts nor ends with white space |
| JsText.TrimIdempotent | screens/client/client.js:139 | trimming twice is trimming once |
| JsNumbers.NatToString | screens/client/client.js:64 | at least one digit, no leading zero |
| JsNumbers.DecValueOfNatToString | screens/client/client.js:64 | the digits of `n` are worth `n` |
| JsNumbers.LeadingDigits | screens/product/product.js:65 | the longest digit prefix |
| JsNumbers.ParseInt | screens/employee_salary_ledger/employee_salary_ledger.js:116 | a blank text, or one whose first character after the sign is not a digit, reads `NaN`; a negative result needs a `-` |
| JsNumbers.ParseIntOfIntToString | screens/employee_salary_ledger/employee_salary_ledger.js:116 | `parseInt(String(n))` is `n` |
| JsNumbers.ParseFloat | screens/product/product.js:65 | a blank text reads `NaN`; the result is infinite iff the text after the sign starts with `Infinity` |
| JsNumbers.ParseFloatOfSignedDigits | screens/product/product.js:65 | a sign and plain digits read as that signed value |
| JsNumbers.ParseFloatOfIntToString | screens/product/product.js:65 | `parseFloat(String(n))` is `n` |
| JsNumbers.ParseFloatOfNonNumeric | screens/product/product.js:65-67 | a text not starting like a number reads `NaN` |
| JsNumbers.Add | screens/client-details/client-details.js:117 | finite operands add exactly; `NaN` absorbs |
| JsNumbers.Negate | screens/client-details/client-details.js:88 | finite values change sign; `NaN` stays `NaN` |
| JsNumbers.Subtract | screens/client-details/client-details.js:88 | finite operands subtract exactly; `NaN` absorbs |
| JsValues.ToString | screens/product/product.js:102-103 | a string is itself; an integer's text reads back as the integer |
| JsValues.InputText | screens/client-details/client-details.js:321-325 | what a text input reads back after a value is assigned: `""` for `null`, the text of a string, an integer's text that reads back as it |
| JsValues.SelectText | screens/client-details/client-details.js:322 | what a select reads back after a value is assigned: that value if an option has it, else `""` |
| Query.Fields | screens/client-details/client-details.js:44-47 | one `key=value` field per parameter |
| Query.Parse | screens/client-details/client-details.js:44-47 | one parameter per `&`-separated field |
| Query.RenderSnoc | screens/client-details/client-details.js:46 | appending a parameter appends `&key=value` |
| Query.ParseRender | screens/client-details/client-details.js:44-47 | a query without `&` or `=` in its keys and `&` in its values reads back as the parameters sent |
| Money.SumOfAppend | screens/home/home.js:120-144 | the total of a concatenation is the sum of the totals |
| Money.SumOfSnoc | screens/home/home.js:120-144 | one more entry adds its amount |
| Money.SumOfNonNegative | screens/home/home.js:120-144 | non-negative amounts have a non-negative total |
| Money.SumOfZeros | screens/home/home.js:120-144 | zero amounts leave the total at 0 |
| Money.Abs | screens/banksLedger/bank_ledger.js:145 | non-negative and equal to the value or its negation |
| IsoDate.DateKeyInjective | screens/client-details/client-details.js:156 | two calendar dates with the same position are the same string |
| IsoDate.AfterIsStrictTotalOrder | screens/client-details/client-details.js:156 | `new Date(a) > new Date(b)` is irreflexive, asymmetric and total on distinct dates |
| IsoDate.FirstOfMonthIsDate | screens/employee_salary_ledger/employee_salary_ledger.js:88 | a month followed by `-01` is a calendar date in that month |

## Left out

- Network I/O: every `fetch`, `response.text()`/`.json()`, `Promise.all`, and the `try/catch` that turns a thrown error into a message. Responses are inputs: status flags, bodies and envelopes. Where several requests run together (the dashboard), the first failure is taken in request order, not in time order.
- `JSON.parse` is not part of this model. It is a function parameter, from text to an optional envelope.
- DOM reading and writing, HTML templates, modals, `alert`, `confirm`, loading spinners and toasts. Inputs are strings; `confirm()` is a boolean parameter.
- PDF generation (jsPDF, autoTable, html2pdf) in the bank ledger, expense details, employee salary ledger and client details screens. It is layout over third-party libraries.
- Number and date display: `toLocaleString`, `toLocaleDateString`, `Intl.NumberFormat`, `formatCurrency`. These depend on locale.
- Parsing of arbitrary timestamps with `new Date(...)`. The model compares only well-formed calendar dates, by calendar position, and treats every other string as `NaN`. A browser is more lenient: V8 rolls `new Date("2024-02-30")` over to March 1. A date `<input>` only holds valid dates, so the screens never meet such a string.
- `new Date().toISOString()` (the clock) is a parameter, `nowIso`.
- Electron window controls (`setupWindowControls`), `config.js` and the `API_BASE_URL` it loads. The sales URL takes that base as a parameter.
- Doubles: row amounts are modelled as `real`, so totals never overflow, round or become `NaN`. In client details and the employee salary ledger, `NaN` and the infinities are kept, because the source's fallbacks depend on them.
- Sales.OrZero: `parseFloat(x) || 0` maps `NaN` and 0 to 0 but keeps the infinities. The model maps the infinities to 0 as well.
- Sales.ShownCents: `toFixed(2)` is modelled as rounding half away from zero on reals. It ignores the binary representation, and the exponent form of values of 1e21 and above.
- JsValues.ToString: numbers are integers, so the rendering of fractions, exponents and negative zero is not modelled.
- ClientDetails.LooselyEquals: `==` between a string and a number is modelled for plain digit strings only. Signed, fractional, hexadecimal and exponent strings never match in the model; a blank string equals 0, as in JavaScript.
- JavaScript strings are modelled as sequences of characters, not UTF-16 code units. No URL encoding is applied to query values. The source encodes in two places: the sales list query is built with `URLSearchParams`, whose `toString()` percent-encodes every value, and the expense screen's link to the details page passes the category through `encodeURIComponent`, which the details page decodes with `URLSearchParams.get`. The other screens build their queries by plain concatenation, as the model does.
- Sales.FetchSalesUrl: the model renders the `from` and `to` values without percent-encoding. This makes no difference for what a date input can hold (`YYYY-MM-DD` or the empty string), whose characters `URLSearchParams` leaves unchanged.
- EmployeeSalaryLedger.UpperCase: only the ASCII letters `a`-`z` are upper-cased. JavaScript's `toUpperCase` also maps other letters (`é` to `É`) and can lengthen the text (`ß` to `SS`). The page's `data-status` values are ASCII, so the status label is unaffected.
- EmployeeSalaryLedger.Capitalize: inherits the ASCII-only upper-casing of `UpperCase`. Its `|r| == |s|` holds for the model, not for JavaScript on a text starting with `ß`.
- Expense.GroupIndex: the source groups in a plain object `{}`. A category named after an `Object.prototype` property (`constructor`, `toString`, `__proto__`, …) is already truthy on first sight, so `acc[name].expenses.push` throws a `TypeError`. The `.catch` then shows `Failed to load expenses`. The model groups such a category like any other, and so do Expense.GroupByCategory and Expense.RenderTable.
- Expense group order: JavaScript objects list integer-like keys first. The model keeps first-appearance order for every category name, which matters only among groups with equal totals.
- The list renderers only display rows: `renderClients`, `renderProducts`, `renderSales`, `renderSalaries`, `renderLedger`, `renderSalaryTable`, and the option lists built by `fetchClients`, `fetchProducts`, `fetchBanks`, `fetchEmployees`, `updateFilterOptions` and `loadProducts`.
- The sales screen's `handleProductTypeChange` (which inputs are shown) is not modelled. Neither is the refilling of the ready inputs by `handleEdit`; the ready inputs are parameters of the submit.
- The sales and salary `handleDelete` are not modelled. Each is a `confirm` followed by a DELETE with the clicked id and a refetch, the same flow the product and client screens model.
- `loadPaymentHistory` in client details only renders receipts. The receipts' total is modelled through `TotalReceived`.
- `fetchSalaryData` in the employee salary ledger: the gate that needs both responses to succeed is not modelled. The employee lookup, the salary and the remaining balance are.
- Home.FetchData: a response that reports success but carries no `data` array makes `reduce` throw a `TypeError` inside the `try`, which shows `Network error: ` with that error's message. The model's envelope always carries `data`, so this case is not reached.
- Salary.SalaryScreen.HandleEdit: the employee, bank and status selects keep a value only when an option of that value exists, and the month and date inputs drop values that are not well formed. The model writes the record's texts into the form as they are.
- The sales screen's `handleEdit` selects (client, product) follow the same DOM rule as `JsValues.SelectText`. They are not modelled, as the refilling of the form is not.
- Expense details `fetchDetails`: a response is accepted on `status === 'success'` or `success === true`. The model reads both fields as given and does not model the JSON shapes that carry them.

## Findings

| source | as written | input that shows it | evidently intended | confidence | as-written member | corrected member |
|---|---|---|---|---|---|---|
| screens/expense/expense_details.js:122 | without a detail card the table is added with `innerHTML +=`, after whatever the container already holds; only the alert (lines 60-66) and the card (lines 70-91) replace it | load the page with rows and no id, then press the filter button (line 21) with a range that has rows: the container holds both tables, the first one on top | each render shows only its own result | not executed | ExpenseDetails.FilterTwiceStacksTables | ExpenseDetails.Rendered |
| screens/client/client.js:180 | `clients.find(c => c.id === id)` compares the number from the Edit button (line 65) strictly with the listed id | a client listed with the id `"12"` as text: its Edit button calls `handleEdit(12)` and no modal opens | the client whose id reads as the clicked number opens for editing | not executed; applies when the back end sends ids as text | Client.StringIdsNeverEdit | Client.FindClientById |
| screens/sales/sales.js:384-391 | in edit mode the PUT body holds only the form's fields; `handleEdit` (lines 295-319) keeps no id of the sale it opened | edit sale 7 and sale 9 so that their forms hold the same values: both send the same PUT to `sale.php` | the PUT names the sale being edited, so the backend can update that sale | not executed | Sales.EditedSalesIndistinguishable | Sales.SalesScreen.HandleSubmit |
