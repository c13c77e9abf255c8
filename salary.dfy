/**
 * The salary screen (screens/salary/salary.js): its own copy of the brace scan, which
 * behaves differently from the dashboard's at the edges, and the add/edit form whose
 * mode flag decides between PUT with an id and POST without one.
 */
module Salary {
  import opened Wrappers
  import opened JsText
  import Home
  import IsoDate
  import Http

  // ---------------------------------------------------------------- the inline scan

  /** `text[i]`: `undefined` (here `None`) outside the text, as at index -1. */
  function CharAt(text: string, i: int): (c: Option<char>)
    ensures c.Some? <==> 0 <= i < |text|
    ensures c.Some? ==> c.value == text[i]
  {
    if 0 <= i < |text| then Some(text[i]) else None
  }

  /**
   * Where the scan loop of `fetchSalaries` stops when it is at index `i` with depth `depth`:
   * the depth is compared with 0 after every character, not only after a `}`.
   */
  function ScanEnd(text: string, i: int, depth: int): (r: Option<int>)
    requires -1 <= i <= |text|
    ensures r.Some? ==> i < r.value <= |text|
    decreases |text| - i
  {
    if i >= |text| then None
    else
      var c := CharAt(text, i);
      var d := depth + (if c.Some? then Home.Delta(c.value) else 0);
      if d == 0 then Some(i + 1) else ScanEnd(text, i + 1, d)
  }

  /** The text `fetchSalaries` hands to `JSON.parse`. */
  method ScanFirstObject(text: string) returns (r: string)
    ensures r == (var start := IndexOf(text, '{');
                  Substring(text, start, match ScanEnd(text, start, 0) case Some(e) => e case None => -1))
  {
    var depth := 0;
    var startIndex := IndexOf(text, '{');
    var endIndex := -1;
    var i := startIndex;
    while i < |text|
      invariant startIndex <= i <= |text|
      invariant endIndex == -1
      invariant ScanEnd(text, i, depth) == ScanEnd(text, startIndex, 0)
      decreases |text| - i
    {
      var c := CharAt(text, i);
      if c == Some('{') {
        depth := depth + 1;
      }
      if c == Some('}') {
        depth := depth - 1;
      }
      if depth == 0 {
        endIndex := i + 1;
        break;
      }
      i := i + 1;
    }
    r := Substring(text, startIndex, endIndex);
  }

  /** From a positive depth, checking after every character stops where the dashboard's scan stops. */
  lemma {:induction false} ScanEndAgreesWithMatchEnd(text: string, i: nat, d: int)
    requires i <= |text| && d >= 1
    ensures ScanEnd(text, i, d) == (match Home.MatchEnd(text, i, d) case Some(e) => Some(e as int) case None => None)
    decreases |text| - i
  {
    if i < |text| {
      var d' := d + Home.Delta(text[i]);
      if d' != 0 {
        ScanEndAgreesWithMatchEnd(text, i + 1, d');
      }
    }
  }

  /**
   * The scan's result, compared with the dashboard's: the same object when there is a
   * complete one; the empty text when there is no `{` (the loop starts at index -1, sees
   * depth 0 and stops at once); the text before the first `{` when the braces never
   * balance (`substring(start, -1)` is `substring(0, start)`).
   */
  lemma ScanFirstObjectOutcome(text: string)
    ensures var start := IndexOf(text, '{');
      var r := Substring(text, start, match ScanEnd(text, start, 0) case Some(e) => e case None => -1);
      && ('{' !in text ==> r == "")
      && (Home.FirstObject(text).Success? ==> r == Home.FirstObject(text).value)
      && (Home.FirstObject(text) == Failure(Home.NoCompleteObject) ==> r == text[..start])
  {
    var start := IndexOf(text, '{');
    if start >= 0 {
      ScanEndAgreesWithMatchEnd(text, start + 1, 1);
      match Home.MatchEnd(text, start, 0)
      case Some(e) =>
        SubstringInRange(text, start, e);
      case None =>
        SubstringNegativeEnd(text, start, -1);
    }
  }

  /** Why listing the salaries shows an error, or the rows it renders. */
  datatype ListOutcome<T> = Render(rows: seq<T>) | ShowError(message: string)

  /** A parsed salaries response: whether `status` is `'success'`, its message and its rows. */
  datatype SalaryEnvelope<T> = SalaryEnvelope(statusSuccess: bool, message: Option<string>, data: seq<T>)

  /**
   * `fetchSalaries` after the request: a failed HTTP status is a network error, a text
   * `JSON.parse` (here `parse`, `None` for a `SyntaxError`) rejects is an invalid-format
   * error, and a response without success shows its message or a default.
   */
  function FetchSalariesOutcome<T>(httpOk: bool, text: string, parse: string -> Option<SalaryEnvelope<T>>): (r: ListOutcome<T>)
    ensures !httpOk ==> r == ShowError("Network error while fetching salaries")
    ensures r.ShowError? ==> r.message != ""
  {
    if !httpOk then ShowError("Network error while fetching salaries")
    else
      var start := IndexOf(text, '{');
      var extracted := Substring(text, start, match ScanEnd(text, start, 0) case Some(e) => e case None => -1);
      match parse(extracted)
      case None => ShowError("Invalid JSON format from server")
      case Some(env) =>
        if env.statusSuccess then Render(env.data)
        else ShowError(if env.message.Some? && env.message.value != "" then env.message.value else "Failed to fetch salaries")
  }

  /** A response without any `{` reaches `JSON.parse("")`, which throws: the invalid-format message. */
  lemma NoBraceIsInvalidFormat<T>(text: string, parse: string -> Option<SalaryEnvelope<T>>)
    requires '{' !in text && parse("") == None
    ensures FetchSalariesOutcome(true, text, parse) == ShowError("Invalid JSON format from server")
  {
    ScanFirstObjectOutcome(text);
  }

  /** With a complete object in the response, the rows shown are those of that object. */
  lemma CompleteObjectIsParsed<T>(text: string, parse: string -> Option<SalaryEnvelope<T>>)
    requires Home.FirstObject(text).Success?
    requires parse(Home.FirstObject(text).value).Some? && parse(Home.FirstObject(text).value).value.statusSuccess
    ensures FetchSalariesOutcome(true, text, parse) == Render(parse(Home.FirstObject(text).value).value.data)
  {
    ScanFirstObjectOutcome(text);
  }

  // ---------------------------------------------------------------- the form

  /** The values of the salary form's inputs. */
  datatype SalaryForm = SalaryForm(salaryId: string, employee: string, bank: string, amount: string,
                                   month: string, paymentDate: string, status: string, notes: string)

  /** `form.reset()`: the inputs go back to their (empty) defaults. */
  const BlankForm := SalaryForm("", "", "", "", "", "", "", "")

  /** A stored salary entry, as the list gives it to `handleEdit`. */
  datatype SalaryRecord = SalaryRecord(id: string, employeeId: string, bankId: string, amount: string,
                                       month: string, paymentDate: string, status: string, notes: Option<string>)

  /** The JSON body sent on save; `id` is present only when editing. */
  datatype SalaryPayload = SalaryPayload(id: Option<string>, employeeId: string, bankId: string, amount: string,
                                         month: string, paymentDate: string, status: string, notes: string)

  datatype SalaryRequest = SalaryRequest(verb: Http.Method, body: SalaryPayload)

  /** `new Date().toISOString().split('T')[0]`: the date part of the current timestamp. */
  function Today(nowIso: string): (r: string)
    ensures |r| <= |nowIso| && r == nowIso[..|r|] && 'T' !in r
    ensures |r| < |nowIso| ==> nowIso[|r|] == 'T'
  {
    var r := BeforeFirst(nowIso, "T");
    assert forall j :: 0 <= j < |r| ==> r[j] != 'T' by {
      forall j | 0 <= j < |r| ensures r[j] != 'T' {
        assert !OccursAt(r, "T", j);
        assert r[j..j + 1] == [r[j]];
      }
    }
    r
  }

  /** The module-level state of the salary screen and the modal's form. */
  class SalaryScreen {
    var isEditMode: bool
    var editingSalaryId: Option<string>
    var form: SalaryForm

    constructor ()
      ensures !isEditMode && editingSalaryId == None && form == BlankForm
    {
      isEditMode := false;
      editingSalaryId := None;
      form := BlankForm;
    }

    /** `handleAddSalary`: add mode, a reset form, this month, today, and status `pending`. */
    method HandleAddSalary(nowIso: string)
      modifies this
      ensures !isEditMode && editingSalaryId == None
      ensures var today := Today(nowIso);
        form == BlankForm.(month := Substring(today, 0, 7), paymentDate := today, status := "pending")
    {
      isEditMode := false;
      editingSalaryId := None;
      form := BlankForm;
      var today := Today(nowIso);
      form := form.(month := Substring(today, 0, 7));
      form := form.(paymentDate := today);
      form := form.(status := "pending");
    }

    /** `handleEdit`: edit mode, the form filled from the entry, its month cut to `YYYY-MM`. */
    method HandleEdit(salary: SalaryRecord)
      modifies this
      ensures isEditMode && editingSalaryId == old(editingSalaryId)
      ensures form == SalaryForm(salary.id, salary.employeeId, salary.bankId, salary.amount,
                                 Substring(salary.month, 0, 7), salary.paymentDate, salary.status,
                                 salary.notes.GetOr(""))
    {
      isEditMode := true;
      form := SalaryForm(salary.id, salary.employeeId, salary.bankId, salary.amount,
                         Substring(salary.month, 0, 7), salary.paymentDate, salary.status,
                         salary.notes.GetOr(""));
    }

    /**
     * `handleSubmit`: nothing is sent while the form is invalid; otherwise the month gets
     * its first day appended, and the mode flag decides PUT with the id or POST without.
     */
    method HandleSubmit(formValid: bool) returns (req: Option<SalaryRequest>)
      ensures !formValid ==> req == None
      ensures formValid ==> req.Some?
      ensures req.Some? ==> (req.value.verb == Http.Put <==> isEditMode)
      ensures req.Some? ==> (req.value.verb == Http.Post <==> !isEditMode)
      ensures req.Some? ==> (req.value.body.id.Some? <==> isEditMode)
      ensures req.Some? && isEditMode ==> req.value.body.id.value == form.salaryId
      ensures req.Some? ==> req.value.body.month == IsoDate.FirstOfMonth(form.month)
      ensures req.Some? ==> req.value.body == SalaryPayload(req.value.body.id, form.employee, form.bank,
        form.amount, req.value.body.month, form.paymentDate, form.status, form.notes)
    {
      if !formValid {
        return None;
      }
      var payload := SalaryPayload(None, form.employee, form.bank, form.amount,
                                   form.month + "-01", form.paymentDate, form.status, form.notes);
      if isEditMode {
        payload := payload.(id := Some(form.salaryId));
      }
      var verb := if isEditMode then Http.Put else Http.Post;
      req := Some(SalaryRequest(verb, payload));
    }
  }

  /** The default month of a new entry is the month of today, and it submits as a calendar date. */
  lemma DefaultMonthSubmitsAsDate(nowIso: string)
    requires IsoDate.IsIsoDate(Today(nowIso))
    ensures IsoDate.IsIsoMonth(Substring(Today(nowIso), 0, 7))
    ensures IsoDate.IsIsoDate(IsoDate.FirstOfMonth(Substring(Today(nowIso), 0, 7)))
  {
    var today := Today(nowIso);
    var m := Substring(today, 0, 7);
    SubstringInRange(today, 0, 7);
    assert forall i :: 0 <= i < 7 ==> m[i] == today[i];
    IsoDate.FirstOfMonthIsDate(m);
  }

  /**
   * Editing a stored entry and saving it unchanged writes back its month with the day
   * replaced by `01`: the same date exactly when the stored day was the first.
   */
  lemma EditThenSubmitMonth(stored: string)
    requires IsoDate.IsIsoDate(stored)
    ensures IsoDate.IsIsoDate(IsoDate.FirstOfMonth(Substring(stored, 0, 7)))
    ensures IsoDate.FirstOfMonth(Substring(stored, 0, 7)) == stored <==> stored[8..] == "01"
  {
    var m := Substring(stored, 0, 7);
    SubstringInRange(stored, 0, 7);
    assert forall i :: 0 <= i < 7 ==> m[i] == stored[i];
    IsoDate.FirstOfMonthIsDate(m);
    assert stored == m + "-" + stored[8..];
  }
}
