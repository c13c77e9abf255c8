/**
 * The employee salary ledger screen (screens/employee_salary_ledger/employee_salary_ledger.js):
 * the filter state the dropdowns and month inputs update, the salaries URL built from it
 * (the same for the table and for the PDF), the employee lookup and the remaining balance.
 */
module EmployeeSalaryLedger {
  import opened Wrappers
  import opened JsValues
  import opened JsNumbers
  import Query
  import IsoDate

  const SalaryUrl := "https://oftbrothers.com/backend/api/salaries.php"

  // ---------------------------------------------------------------- labels

  /** ASCII `toUpperCase` of one character. */
  function UpperCase(c: char): (u: char)
    ensures 'a' <= c <= 'z' ==> u as int == c as int - 32
    ensures !('a' <= c <= 'z') ==> u == c
  {
    if 'a' <= c <= 'z' then (c as int - 32) as char else c
  }

  /** `s.charAt(0).toUpperCase() + s.slice(1)`. */
  function Capitalize(s: string): (r: string)
    ensures |r| == |s|
    ensures s != [] ==> r[0] == UpperCase(s[0]) && r[1..] == s[1..]
  {
    if s == [] then [] else [UpperCase(s[0])] + s[1..]
  }

  /** Capitalizing a label that is already capitalized leaves it as it is. */
  lemma CapitalizeIdempotent(s: string)
    ensures Capitalize(Capitalize(s)) == Capitalize(s)
  {
    if s != [] {
      var r := Capitalize(s);
      assert r[0] == UpperCase(s[0]);
      assert UpperCase(r[0]) == r[0];
      assert Capitalize(r) == [r[0]] + r[1..];
    }
  }

  /** The text of the status dropdown button for a chosen `data-status`. */
  function StatusLabel(status: string): (text: string)
    ensures status == "all" ==> text == "All Status"
    ensures status != "all" && status != "" ==> |text| == |status| && text[0] == UpperCase(status[0]) && text[1..] == status[1..]
    ensures status == "" ==> text == ""
  {
    if status == "all" then "All Status" else Capitalize(status)
  }

  /** The status filter shows the status with an upper-case initial: `paid` reads `Paid`. */
  lemma StatusLabelOfPaid()
    ensures StatusLabel("paid") == "Paid" && StatusLabel("pending") == "Pending"
  {
    assert "paid"[1..] == "aid";
    assert "pending"[1..] == "ending";
  }

  // ---------------------------------------------------------------- filters

  /** `currentFilters`: `None` stands for `null`. */
  datatype Filters = Filters(bankId: Option<string>, status: Option<string>,
                             startDate: Option<string>, endDate: Option<string>)

  /** A filter value the URL builder appends: a non-empty string (JavaScript truthiness). */
  predicate Set(o: Option<string>) {
    Present(o)
  }

  /** `value === 'all' ? null : value`. */
  function AllToNull(value: string): (r: Option<string>)
    ensures r == None <==> value == "all"
    ensures r.Some? ==> r.value == value
  {
    if value == "all" then None else Some(value)
  }

  /** The screen's module state: the filters and the two dropdown labels. */
  class LedgerScreen {
    var filters: Filters
    var statusLabel: string
    var bankLabel: string

    /** The filters start out all `null`. */
    constructor (statusLabel0: string, bankLabel0: string)
      ensures filters == Filters(None, None, None, None)
      ensures statusLabel == statusLabel0 && bankLabel == bankLabel0
    {
      filters := Filters(None, None, None, None);
      statusLabel := statusLabel0;
      bankLabel := bankLabel0;
    }

    /** A click on a status item: the label and the status filter change, nothing else. */
    method SelectStatus(status: string)
      modifies this
      ensures statusLabel == StatusLabel(status)
      ensures filters == old(filters).(status := AllToNull(status))
      ensures bankLabel == old(bankLabel)
    {
      statusLabel := if status == "all" then "All Status" else Capitalize(status);
      filters := filters.(status := if status == "all" then None else Some(status));
    }

    /** A click on a bank item: the label takes the item's text, the bank filter its id. */
    method SelectBank(bankId: string, itemText: string)
      modifies this
      ensures bankLabel == itemText
      ensures filters == old(filters).(bankId := AllToNull(bankId))
      ensures statusLabel == old(statusLabel)
    {
      bankLabel := itemText;
      filters := filters.(bankId := if bankId == "all" then None else Some(bankId));
    }

    /**
     * `handleFilterChange`: a chosen start month becomes its first day and a chosen end
     * month its day 31, whatever the month's length; an empty input clears the filter.
     */
    method HandleFilterChange(startMonth: string, endMonth: string)
      modifies this
      ensures filters.startDate == (if startMonth == "" then None else Some(IsoDate.FirstOfMonth(startMonth)))
      ensures filters.endDate == (if endMonth == "" then None else Some(endMonth + "-31"))
      ensures filters.bankId == old(filters.bankId) && filters.status == old(filters.status)
      ensures statusLabel == old(statusLabel) && bankLabel == old(bankLabel)
    {
      filters := filters.(startDate := if startMonth != "" then Some(startMonth + "-01") else None);
      filters := filters.(endDate := if endMonth != "" then Some(endMonth + "-31") else None);
    }
  }

  /**
   * The start of a chosen month is always a calendar date; the end is one only for the
   * months that have 31 days (`2024-04-31` names no day).
   */
  lemma MonthBounds(m: string)
    requires IsoDate.IsIsoMonth(m)
    ensures IsoDate.IsIsoDate(IsoDate.FirstOfMonth(m))
    ensures IsoDate.IsIsoDate(m + "-31") <==> IsoDate.DaysInMonth(IsoDate.Year(m), IsoDate.Month(m)) == 31
  {
    IsoDate.FirstOfMonthIsDate(m);
    var e := m + "-31";
    assert IsoDate.HasDateLayout(e) by {
      assert e[..7] == m;
      assert forall i :: 0 <= i < 7 ==> e[i] == m[i];
      assert e[7] == '-' && e[8] == '3' && e[9] == '1';
    }
    assert IsoDate.Year(e) == IsoDate.Year(m) && IsoDate.Month(e) == IsoDate.Month(m) by {
      assert forall i :: 0 <= i < 7 ==> e[i] == m[i];
    }
    assert IsoDate.Day(e) == 31;
  }

  // ---------------------------------------------------------------- the salaries URL

  /** The employee id from the page URL, as the template literal prints it (`null` when absent). */
  function IdText(employeeId: Option<string>): string {
    match employeeId
    case Some(id) => id
    case None => "null"
  }

  /** The query parameters, in the order the URL builder appends them. */
  function SalaryParams(employeeId: Option<string>, f: Filters): (ps: seq<Query.Param>)
    ensures |ps| >= 1 && ps[0] == Query.Param("employee_id", IdText(employeeId))
  {
    [Query.Param("employee_id", IdText(employeeId))]
    + IfSet("bank_id", f.bankId) + IfSet("status", f.status)
    + IfSet("start_date", f.startDate) + IfSet("end_date", f.endDate)
  }

  /** The parameter `key=value` when the filter is set, nothing otherwise. */
  function IfSet(key: string, value: Option<string>): (ps: seq<Query.Param>)
    ensures Query.Keys(ps) == if Set(value) then [key] else []
  {
    if Set(value) then [Query.Param(key, value.value)] else []
  }

  /**
   * The URL of `fetchSalaryData`, and by the identical rule that of `handleDownloadPdf`:
   * `employee_id` first, then each set filter, grown one `&key=value` at a time.
   */
  method FilteredSalaryUrl(employeeId: Option<string>, filters: Filters) returns (url: string)
    ensures url == Query.WithQuery(SalaryUrl, SalaryParams(employeeId, filters))
  {
    var ps := [Query.Param("employee_id", IdText(employeeId))];
    var query := "employee_id=" + IdText(employeeId);
    Query.RenderSingle("employee_id", "employee_id=", IdText(employeeId));
    url := SalaryUrl + "?" + query;
    url, ps := AppendIfSet(url, ps, "bank_id", "&bank_id=", filters.bankId);
    url, ps := AppendIfSet(url, ps, "status", "&status=", filters.status);
    url, ps := AppendIfSet(url, ps, "start_date", "&start_date=", filters.startDate);
    url, ps := AppendIfSet(url, ps, "end_date", "&end_date=", filters.endDate);
    assert ps == SalaryParams(employeeId, filters);
  }

  /** `if (value) url += `&key=${value}``. */
  method AppendIfSet(url: string, ps: seq<Query.Param>, key: string, text: string, value: Option<string>)
    returns (url': string, ps': seq<Query.Param>)
    requires |ps| >= 1 && url == SalaryUrl + "?" + Query.Render(ps)
    requires text == "&" + key + "="
    ensures ps' == ps + IfSet(key, value)
    ensures |ps'| >= 1 && url' == SalaryUrl + "?" + Query.Render(ps')
  {
    url', ps' := url, ps;
    if Set(value) {
      AppendParam(url, ps, key, text, value.value);
      url', ps' := url + text + value.value, ps + [Query.Param(key, value.value)];
    } else {
      assert ps + [] == ps;
    }
  }

  /** Appending `&key=value` to the URL of `ps` gives the URL of `ps` with that parameter. */
  lemma AppendParam(url: string, ps: seq<Query.Param>, key: string, text: string, value: string)
    requires |ps| >= 1 && url == SalaryUrl + "?" + Query.Render(ps)
    requires text == "&" + key + "="
    ensures url + text + value == SalaryUrl + "?" + Query.Render(ps + [Query.Param(key, value)])
  {
    Query.RenderSnoc(ps, Query.Param(key, value));
  }

  /** Which keys the URL carries, and in which order: each filter only when it is set. */
  lemma SalaryParamKeys(employeeId: Option<string>, f: Filters)
    ensures Query.Keys(SalaryParams(employeeId, f)) ==
      ["employee_id"]
      + (if Set(f.bankId) then ["bank_id"] else [])
      + (if Set(f.status) then ["status"] else [])
      + (if Set(f.startDate) then ["start_date"] else [])
      + (if Set(f.endDate) then ["end_date"] else [])
  {
    var a := [Query.Param("employee_id", IdText(employeeId))];
    var b, c, d, e := IfSet("bank_id", f.bankId), IfSet("status", f.status),
      IfSet("start_date", f.startDate), IfSet("end_date", f.endDate);
    assert Query.Keys(a) == ["employee_id"];
    KeysAppend(a, b);
    KeysAppend(a + b, c);
    KeysAppend(a + b + c, d);
    KeysAppend(a + b + c + d, e);
    assert SalaryParams(employeeId, f) == a + b + c + d + e;
  }

  /** The keys of a concatenation are the concatenated keys. */
  lemma KeysAppend(a: seq<Query.Param>, b: seq<Query.Param>)
    ensures Query.Keys(a + b) == Query.Keys(a) + Query.Keys(b)
  {
  }

  /** After `'all'` is chosen for both dropdowns, only the dates can follow the employee id. */
  lemma AllFiltersLeaveOnlyDates(employeeId: Option<string>, f: Filters)
    requires f.bankId == AllToNull("all") && f.status == AllToNull("all")
    ensures Query.Keys(SalaryParams(employeeId, f)) ==
      ["employee_id"]
      + (if Set(f.startDate) then ["start_date"] else [])
      + (if Set(f.endDate) then ["end_date"] else [])
  {
    SalaryParamKeys(employeeId, f);
  }

  /** When no value holds `&` (and the id no `&`), the server reads back exactly these filters. */
  lemma SalaryQueryRoundTrip(employeeId: Option<string>, f: Filters)
    requires Query.Unambiguous(SalaryParams(employeeId, f))
    ensures Query.Parse(Query.Render(SalaryParams(employeeId, f))) == SalaryParams(employeeId, f)
  {
    Query.ParseRender(SalaryParams(employeeId, f));
  }

  // ---------------------------------------------------------------- employee and summary

  /** An employee of the `employee.php` response: its JSON id and its `salary`, if any. */
  datatype Employee = Employee(id: JsValue, salary: Option<real>)

  /** `parseInt(employeeId)` for the page's employee id: `None` stands for `NaN`. */
  function PageEmployeeId(employeeId: Option<string>): (r: Option<int>)
    ensures employeeId.None? ==> r.None?
    ensures employeeId == Some("") ==> r.None?
  {
    if employeeId.None? then
      assert JsText.TrimStart("null") == "null" by {
        assert !JsText.IsJsSpace("null"[0]);
      }
      ParseInt(IdText(employeeId))
    else
      ParseInt(IdText(employeeId))
  }

  /** `emp.id === target`: the JSON id is that very number (`NaN` matches nothing). */
  function Matches(e: Employee, target: Option<int>): (m: bool)
    ensures m ==> e.id.Int? && target.Some?
    ensures e.id.Int? && target == Some(e.id.i) ==> m
    ensures e.id.Str? ==> !m
  {
    e.id.Int? && target == Some(e.id.i)
  }

  /**
   * `data.find(emp => emp.id === parseInt(employeeId))`, with `target` the parsed page id
   * (`PageEmployeeId`): the first employee whose id is that number (strict equality: a
   * string id never matches).
   */
  function FindEmployee(emps: seq<Employee>, target: Option<int>): (r: Option<Employee>)
    ensures r.Some? ==> r.value in emps && Matches(r.value, target)
    ensures r.None? <==> forall k :: 0 <= k < |emps| ==> !Matches(emps[k], target)
  {
    if emps == [] then None
    else if Matches(emps[0], target) then Some(emps[0])
    else
      var r := FindEmployee(emps[1..], target);
      assert forall k :: 1 <= k < |emps| ==> emps[k] == emps[1..][k - 1];
      r
  }

  /** The index of the first matching employee, given that the one at `k` matches. */
  function FirstMatch(emps: seq<Employee>, target: Option<int>, k: nat): (i: nat)
    requires k < |emps| && Matches(emps[k], target)
    ensures i <= k && Matches(emps[i], target)
    ensures forall j :: 0 <= j < i ==> !Matches(emps[j], target)
  {
    if Matches(emps[0], target) then 0
    else
      assert emps[1..][k - 1] == emps[k];
      var i := FirstMatch(emps[1..], target, k - 1);
      assert forall j :: 1 <= j <= i ==> emps[j] == emps[1..][j - 1];
      1 + i
  }

  /** The employee found is the first one that matches. */
  lemma {:induction false} FindEmployeeFirst(emps: seq<Employee>, target: Option<int>, k: nat)
    requires k < |emps| && Matches(emps[k], target)
    ensures FindEmployee(emps, target) == Some(emps[FirstMatch(emps, target, k)])
  {
    if !Matches(emps[0], target) {
      FindEmployeeFirst(emps[1..], target, k - 1);
    }
  }

  /** `currentEmployee?.salary || 0`: no employee, or no (or a zero) salary, reads as 0. */
  function EmployeeSalary(e: Option<Employee>): (s: real)
    ensures e.None? || e.value.salary.None? ==> s == 0.0
    ensures e.Some? && e.value.salary.Some? ==> s == e.value.salary.value
  {
    match e
    case None => 0.0
    case Some(emp) => emp.salary.GetOr(0.0)
  }

  /** An employee id in the page URL that matches no listed employee makes the salary 0. */
  lemma UnknownEmployeeHasNoSalary(emps: seq<Employee>, employeeId: Option<string>)
    requires forall k :: 0 <= k < |emps| ==> !Matches(emps[k], PageEmployeeId(employeeId))
    ensures EmployeeSalary(FindEmployee(emps, PageEmployeeId(employeeId))) == 0.0
  {
  }

  /**
   * With a page id that is the decimal text of `n`, the employee whose JSON id is the number
   * `n` is found, and one whose JSON id is the same text is not.
   */
  lemma NumericIdOnlyMatches(n: int, salary: Option<real>)
    ensures FindEmployee([Employee(Int(n), salary)], PageEmployeeId(Some(IntToString(n)))) == Some(Employee(Int(n), salary))
    ensures FindEmployee([Employee(Str(IntToString(n)), salary)], PageEmployeeId(Some(IntToString(n)))) == None
  {
    ParseIntOfIntToString(n);
    assert PageEmployeeId(Some(IntToString(n))) == Some(n);
  }

  /**
   * `Math.max(0, employeeSalary - parseFloat(summary.total_paid))`: `NaN` when the paid
   * total does not read as a number (`max` propagates `NaN`), never negative otherwise.
   */
  function RemainingBalance(employeeSalary: real, totalPaid: JsNumber): (r: JsNumber)
    ensures r == NaN <==> totalPaid == NaN
    ensures r.Finite? ==> r.value >= 0.0
    ensures r.Finite? && totalPaid.Finite? ==> r.value >= employeeSalary - totalPaid.value
    ensures totalPaid.Infinite? ==> r == (if totalPaid.negative then Infinite(false) else Finite(0.0))
  {
    match totalPaid
    case NaN => NaN
    case Infinite(negative) => if negative then Infinite(false) else Finite(0.0)
    case Finite(paid) =>
      var diff := employeeSalary - paid;
      Finite(if diff > 0.0 then diff else 0.0)
  }

  /**
   * The balance and what was paid make up the salary while the salary is not exceeded;
   * an overpayment shows a balance of 0.
   */
  lemma RemainingPlusPaid(employeeSalary: real, paid: real)
    ensures paid <= employeeSalary ==> RemainingBalance(employeeSalary, Finite(paid)).value + paid == employeeSalary
    ensures paid >= employeeSalary ==> RemainingBalance(employeeSalary, Finite(paid)) == Finite(0.0)
  {
  }
}
