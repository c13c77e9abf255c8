/**
 * The expense details page (screens/expense/expense_details.js): which single filter the
 * request carries, the acceptance test on the response, the category filter with its
 * heading total, and the table with its highlighted row and detail card.
 */
module ExpenseDetails {
  import opened Wrappers
  import opened JsText
  import opened JsValues
  import Money
  import Query
  import Expense
  import JsNumbers

  const ApiBaseUrl := "https://oftbrothers.com/backend/api/"

  /** `${API_BASE_URL}/expense_details.php`: the base already ends in `/`, so the path gets two. */
  const DetailsUrl := ApiBaseUrl + "/expense_details.php"

  /** The request path really holds `//expense_details.php`, right after the host's `api`. */
  lemma DetailsUrlHasDoubleSlash()
    ensures OccursAt(DetailsUrl, "//expense_details.php", |ApiBaseUrl| - 1)
    ensures DetailsUrl[..|ApiBaseUrl| - 1] == "https://oftbrothers.com/backend/api"
  {
    assert DetailsUrl[|ApiBaseUrl| - 1..] == "/" + "/expense_details.php";
  }

  // ---------------------------------------------------------------- the request

  /**
   * The one filter `fetchDetails` sends: the id alone wins; otherwise both range ends;
   * otherwise the single date; otherwise nothing.
   */
  function DetailsParams(id: Option<string>, date: Option<string>, from: string, to: string): (ps: seq<Query.Param>)
    ensures |ps| <= 2
    ensures forall k :: 0 <= k < |ps| ==> ps[k].value != ""
  {
    if Present(id) then [Query.Param("id", id.value)]
    else if from != "" && to != "" then [Query.Param("from", from), Query.Param("to", to)]
    else if Present(date) then [Query.Param("date", date.value)]
    else []
  }

  /** `key=` followed by a value is the query field of that parameter. */
  lemma FieldText(key: string, text: string, value: string)
    requires text == key + "="
    ensures text + value == Query.Field(Query.Param(key, value))
  {
  }

  /** `fetchDetails`'s URL: the chosen filter pushed into `params`, joined, after a `?`. */
  method FetchDetailsUrl(id: Option<string>, date: Option<string>, from: string, to: string) returns (url: string)
    ensures url == Query.WithQuery(DetailsUrl, DetailsParams(id, date, from, to))
  {
    url := DetailsUrl;
    var params: seq<string> := [];
    if Present(id) {
      FieldText("id", "id=", id.value);
      params := params + ["id=" + id.value];
    } else if from != "" && to != "" {
      Query.RenderPair("from", "from=", from, "to", "&to=", to);
      params := params + ["from=" + from + "&to=" + to];
    } else if Present(date) {
      FieldText("date", "date=", date.value);
      params := params + ["date=" + date.value];
    }
    if |params| > 0 {
      url := url + "?" + Join(params, '&');
    }
  }

  /**
   * Exactly one filter travels: the id whenever it is given, whatever else is; the range
   * only when both ends are filled; the date only when nothing of higher precedence is.
   */
  lemma ParamPrecedence(id: Option<string>, date: Option<string>, from: string, to: string)
    ensures Present(id) ==> Query.Keys(DetailsParams(id, date, from, to)) == ["id"]
    ensures !Present(id) && from != "" && to != "" ==> Query.Keys(DetailsParams(id, date, from, to)) == ["from", "to"]
    ensures DetailsParams(id, date, from, to) == [] <==> !Present(id) && (from == "" || to == "") && !Present(date)
    ensures Query.Keys(DetailsParams(id, date, from, to)) == ["date"] <==>
      !Present(id) && (from == "" || to == "") && Present(date)
  {
  }

  /**
   * On page load a `date` in the page's query fills both range inputs, so unless an id
   * is given the request carries `from` and `to` (both that date), never `date=` alone.
   */
  lemma LoadWithDateSendsRange(id: Option<string>, date: string)
    requires date != "" && !Present(id)
    ensures DetailsParams(id, Some(date), date, date) == [Query.Param("from", date), Query.Param("to", date)]
  {
  }

  /** The filter button calls `fetchDetails()` with no arguments: only the range inputs count. */
  lemma FilterButtonUsesRangeOnly(from: string, to: string)
    ensures DetailsParams(None, None, from, to) ==
      (if from != "" && to != "" then [Query.Param("from", from), Query.Param("to", to)] else [])
  {
  }

  /** What the server reads back from the request's query, when no value carries a `&`. */
  lemma DetailsQueryRoundTrip(id: Option<string>, date: Option<string>, from: string, to: string)
    requires DetailsParams(id, date, from, to) != []
    requires Query.Unambiguous(DetailsParams(id, date, from, to))
    ensures Query.Parse(Query.Render(DetailsParams(id, date, from, to))) == DetailsParams(id, date, from, to)
  {
    Query.ParseRender(DetailsParams(id, date, from, to));
  }

  // ---------------------------------------------------------------- the response

  /** One expense row as the details endpoint returns it; `amount` already run through `parseFloat`. */
  datatype Row = Row(id: JsValue, categoryName: string, amount: real)

  function Amount(e: Row): real { e.amount }

  /** `data.filter(exp => exp.category_name === category)`. */
  function OfCategory(xs: seq<Row>, category: string): (r: seq<Row>)
    ensures |r| <= |xs|
    ensures forall k :: 0 <= k < |r| ==> r[k].categoryName == category
    ensures (forall k :: 0 <= k < |xs| ==> xs[k].categoryName != category) ==> r == []
    ensures (forall k :: 0 <= k < |xs| ==> xs[k].categoryName == category) ==> r == xs
  {
    if xs == [] then []
    else OfCategory(xs[..|xs| - 1], category) + (if xs[|xs| - 1].categoryName == category then [xs[|xs| - 1]] else [])
  }

  /** The filter keeps every row of the category as often as it occurs, and nothing else. */
  lemma {:induction false} OfCategoryCounts(xs: seq<Row>, category: string, e: Row)
    ensures multiset(OfCategory(xs, category))[e] == if e.categoryName == category then multiset(xs)[e] else 0
  {
    if xs != [] {
      var init, last := xs[..|xs| - 1], xs[|xs| - 1];
      assert xs == init + [last];
      OfCategoryCounts(init, category, e);
    }
  }

  /** The heading total: the amounts of the filtered rows, added up. */
  function CategoryTotal(xs: seq<Row>, category: string): (t: real)
    ensures (forall k :: 0 <= k < |xs| ==> xs[k].categoryName != category) ==> t == 0.0
    ensures (forall k :: 0 <= k < |xs| ==> xs[k].categoryName == category) ==> t == Money.SumOf(xs, Amount)
  {
    Money.SumOf(OfCategory(xs, category), Amount)
  }

  /** A row's contribution to a category's total: its amount when it is of that category, else 0. */
  function AmountIn(category: string): Row -> real {
    (e: Row) => if e.categoryName == category then e.amount else 0.0
  }

  /** The heading total is the sum over all rows of what each contributes to the category. */
  lemma {:induction false} CategoryTotalOverAllRows(xs: seq<Row>, category: string)
    ensures CategoryTotal(xs, category) == Money.SumOf(xs, AmountIn(category))
  {
    if xs != [] {
      var init, last := xs[..|xs| - 1], xs[|xs| - 1];
      CategoryTotalOverAllRows(init, category);
      if last.categoryName == category {
        Money.SumOfSnoc(OfCategory(init, category), last, Amount);
      } else {
        assert OfCategory(xs, category) == OfCategory(init, category) + [];
        assert OfCategory(init, category) + [] == OfCategory(init, category);
      }
    }
  }

  /** A parsed details response. */
  datatype DetailsResponse = DetailsResponse(status: JsValue, success: JsValue, data: seq<Row>)

  /** `(data.status && data.status === 'success') || (data.success === true)`, as for a saved expense. */
  function Accepted(r: DetailsResponse): (ok: bool)
    ensures ok <==> r.status == Str("success") || r.success == Bool(true)
  {
    Expense.SaveAccepted(r.status, r.success)
  }

  // ---------------------------------------------------------------- the table

  /** A row is marked `table-warning` when an id was asked for and `String(exp.id)` matches it. */
  function Highlighted(e: Row, highlightId: Option<string>): (h: bool)
    ensures h ==> highlightId.Some? && highlightId.value != ""
    ensures e.id.Str? && e.id.s != "" && highlightId == Some(e.id.s) ==> h
  {
    Present(highlightId) && ToString(e.id) == highlightId.value
  }

  function RowClass(e: Row, highlightId: Option<string>): (c: string)
    ensures c == "table-warning" <==> Highlighted(e, highlightId)
    ensures c != "table-warning" ==> c == ""
  {
    if Highlighted(e, highlightId) then "table-warning" else ""
  }

  /** What one `renderTable` call writes: the "no expenses" alert, or an optional detail card over the table. */
  datatype TableView = NoExpensesAlert | Table(card: Option<Row>, rowClasses: seq<string>)

  /** What `renderTable` writes for a list of rows and the requested id. */
  function TableOf(expenses: seq<Row>, highlightId: Option<string>): (v: TableView)
    ensures expenses == [] <==> v == NoExpensesAlert
    ensures v.Table? ==> (v.card.Some? <==> Present(highlightId) && |expenses| == 1)
    ensures v.Table? && v.card.Some? ==> v.card.value == expenses[0]
    ensures v.Table? ==> |v.rowClasses| == |expenses|
    ensures v.Table? ==> forall k :: 0 <= k < |expenses| ==>
      (v.rowClasses[k] == "table-warning" <==> Highlighted(expenses[k], highlightId))
  {
    if expenses == [] then NoExpensesAlert
    else
      Table(if Present(highlightId) && |expenses| == 1 then Some(expenses[0]) else None,
            seq(|expenses|, k requires 0 <= k < |expenses| => RowClass(expenses[k], highlightId)))
  }

  /** A piece of the container's HTML. */
  datatype Block = AlertBlock | CardBlock(row: Row) | TableBlock(rowClasses: seq<string>)

  /** A container whose pieces are one alert, or an optional card followed by one table. */
  predicate ShowsOneResult(c: seq<Block>) {
    c == [AlertBlock]
    || (|c| == 1 && c[0].TableBlock?)
    || (|c| == 2 && c[0].CardBlock? && c[1].TableBlock?)
  }

  /**
   * The container after `renderTable` as written: the alert and the card are assigned to
   * `innerHTML`, replacing what was there, but the table is added with `innerHTML +=`, so
   * without a card it lands after whatever the container already held.
   */
  function AfterRender(previous: seq<Block>, v: TableView): (c: seq<Block>)
    ensures v == NoExpensesAlert ==> c == [AlertBlock]
    ensures v.Table? && v.card.Some? ==> c == [CardBlock(v.card.value), TableBlock(v.rowClasses)]
    ensures v.Table? && v.card.None? ==> c == previous + [TableBlock(v.rowClasses)]
  {
    match v
    case NoExpensesAlert => [AlertBlock]
    case Table(card, classes) =>
      if card.Some? then [CardBlock(card.value), TableBlock(classes)]
      else previous + [TableBlock(classes)]
  }

  /**
   * The container as evidently intended: only the latest result, the card (if any) over
   * its table, whatever was shown before.
   */
  function Rendered(v: TableView): (c: seq<Block>)
    ensures ShowsOneResult(c)
  {
    match v
    case NoExpensesAlert => [AlertBlock]
    case Table(card, classes) =>
      if card.Some? then [CardBlock(card.value), TableBlock(classes)] else [TableBlock(classes)]
  }

  /**
   * The written and the intended container agree exactly when the render replaces: for the
   * alert, for a card, or when the container was empty; otherwise the old content stays on
   * top of the new table.
   */
  lemma AfterRenderVersusRendered(previous: seq<Block>, v: TableView)
    ensures v.NoExpensesAlert? || v.card.Some? ==> AfterRender(previous, v) == Rendered(v)
    ensures v.Table? && v.card.None? ==> AfterRender(previous, v) == previous + Rendered(v)
    ensures AfterRender(previous, v) == Rendered(v) <==> v.NoExpensesAlert? || v.card.Some? || previous == []
  {
    if v.Table? && v.card.None? && previous != [] {
      assert |AfterRender(previous, v)| == |previous| + 1;
    }
  }

  /**
   * Two loads with rows and no requested id, the page's first load and then the filter
   * button: the container holds both tables, the first one on top.
   */
  lemma FilterTwiceStacksTables(previous: seq<Block>, first: seq<Row>, second: seq<Row>)
    requires first != [] && second != []
    ensures var c := AfterRender(AfterRender(previous, TableOf(first, None)), TableOf(second, None));
      c == previous + [TableBlock(TableOf(first, None).rowClasses), TableBlock(TableOf(second, None).rowClasses)]
      && !ShowsOneResult(c)
  {
    var t1, t2 := TableOf(first, None), TableOf(second, None);
    var c1 := AfterRender(previous, t1);
    assert c1 == previous + [TableBlock(t1.rowClasses)];
    var c := AfterRender(c1, t2);
    assert c == c1 + [TableBlock(t2.rowClasses)];
    assert c == previous + [TableBlock(t1.rowClasses), TableBlock(t2.rowClasses)];
    assert |c| >= 2 && c[|c| - 2].TableBlock? && c[|c| - 1].TableBlock?;
  }

  /** The page's table container. */
  class DetailsContainer {
    var content: seq<Block>

    /** The container starts with whatever the page's HTML puts there. */
    constructor (initial: seq<Block>)
      ensures content == initial
    {
      content := initial;
    }

    /**
     * `renderTable`: the alert for no rows; else the card for a single requested row, then
     * one `<tr>` per row, added after what the container holds.
     */
    method RenderTable(expenses: seq<Row>, highlightId: Option<string>) returns (v: TableView)
      modifies this
      ensures v == TableOf(expenses, highlightId)
      ensures content == AfterRender(old(content), v)
    {
      if |expenses| == 0 {
        content := [AlertBlock];
        return NoExpensesAlert;
      }
      var card := None;
      if Present(highlightId) && |expenses| == 1 {
        card := Some(expenses[0]);
        content := [CardBlock(expenses[0])];
      }
      var classes: seq<string> := [];
      var i := 0;
      while i < |expenses|
        invariant 0 <= i <= |expenses| && |classes| == i
        invariant forall k :: 0 <= k < i ==> classes[k] == RowClass(expenses[k], highlightId)
      {
        var highlight := if Present(highlightId) && ToString(expenses[i].id) == highlightId.value
                         then "table-warning" else "";
        classes := classes + [highlight];
        i := i + 1;
      }
      content := content + [TableBlock(classes)];
      v := Table(card, classes);
    }
  }

  /** A numeric id and the same number in the page's query match, so that row is highlighted. */
  lemma NumericIdHighlighted(e: Row, n: int)
    requires e.id == Int(n)
    ensures Highlighted(e, Some(JsNumbers.IntToString(n)))
  {
    JsNumbers.ParseIntOfIntToString(n);
  }

  // ---------------------------------------------------------------- fetchDetails, after the request

  /** What a request leads to: the `renderTable` call, and the heading total when one is computed. */
  datatype Page = Page(table: TableView, headingTotal: Option<real>)

  /**
   * The end of `fetchDetails`: `None` for a failed request or unreadable body (the `catch`),
   * an empty table for a response that is not accepted, else the rows (of the category,
   * when one is given) with the heading total.
   */
  function ShowDetails(resp: Option<DetailsResponse>, id: Option<string>, category: Option<string>): (p: Page)
    ensures resp.None? || !Accepted(resp.value) ==> p == Page(NoExpensesAlert, None)
    ensures resp.Some? && Accepted(resp.value) && Present(category) ==>
      p.headingTotal == Some(CategoryTotal(resp.value.data, category.value))
      && p.table == TableOf(OfCategory(resp.value.data, category.value), id)
    ensures resp.Some? && Accepted(resp.value) && !Present(category) ==>
      p == Page(TableOf(resp.value.data, id), None)
  {
    match resp
    case None => Page(TableOf([], id), None)
    case Some(r) =>
      if !Accepted(r) then Page(TableOf([], id), None)
      else if Present(category) then
        var filtered := OfCategory(r.data, category.value);
        Page(TableOf(filtered, id), Some(Money.SumOf(filtered, Amount)))
      else Page(TableOf(r.data, id), None)
  }
}
