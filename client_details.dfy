/**
 * The client details screen (screens/client-details/client-details.js): the sales total and
 * the balance left after the receipts, the date-range filter and the request URL it leads
 * to, the table/PDF switch, and the sale picked for editing.
 */
module ClientDetails {
  import opened Wrappers
  import opened JsText
  import opened JsValues
  import opened JsNumbers
  import Money
  import Query
  import IsoDate

  const BaseUrl := "https://oftbrothers.com/backend/api"

  // ---------------------------------------------------------------- dates

  /** `formatDate`: `date.toISOString().split('T')[0]`, the date part of an ISO timestamp. */
  function FormatDate(iso: string): (r: string)
    ensures |r| <= |iso| && r == iso[..|r|]
    ensures 'T' !in r
    ensures |r| < |iso| ==> iso[|r|] == 'T'
  {
    var r := BeforeFirst(iso, "T");
    assert 'T' !in r by {
      forall j | 0 <= j < |r| ensures r[j] != 'T' {
        assert !OccursAt(r, "T", j);
        assert r[j..j + 1] == [r[j]];
      }
    }
    assert |r| < |iso| ==> iso[|r|] == 'T' by {
      if |r| < |iso| {
        assert OccursAt(iso, "T", |r|);
        assert iso[|r|..|r| + 1] == [iso[|r|]];
      }
    }
    r
  }

  /** A timestamp `<date>T<time>` formats as its date. */
  lemma FormatDateOfTimestamp(date: string, time: string)
    requires 'T' !in date
    ensures FormatDate(date + "T" + time) == date
  {
    var iso := date + "T" + time;
    var r := FormatDate(iso);
    assert iso[|date|] == 'T';
    assert forall i :: 0 <= i < |date| ==> iso[i] == date[i] && date[i] != 'T';
    assert forall i :: 0 <= i < |r| ==> iso[i] == r[i] && r[i] != 'T';
    assert iso[..|date|] == date;
  }

  // ---------------------------------------------------------------- totals

  /** A sale row of the `client_sales` response, fields as the JSON gives them. */
  datatype ClientSale = ClientSale(saleId: JsValue, productId: JsValue, quantity: JsValue,
                                   pricePerKg: JsValue, packing: JsValue, totalPrice: JsValue)

  /** A receipt of the `receives.php` response. */
  datatype Receipt = Receipt(amount: JsValue)

  /** `parseFloat(sale.total_price || 0)`: a missing or empty price counts as 0. */
  function SaleAmount(s: ClientSale): (a: JsNumber)
    ensures s.totalPrice.Int? ==> a == Finite(s.totalPrice.i as real)
    ensures a == NaN ==> Truthy(s.totalPrice)
  {
    if !Truthy(s.totalPrice) then Finite(0.0)
    else if s.totalPrice.Int? then ParseFloatOfIntToString(s.totalPrice.i); ParseFloat(ToString(s.totalPrice))
    else ParseFloat(ToString(s.totalPrice))
  }

  /** `parseFloat(receive.amount)`: no fallback, so a missing amount reads `parseFloat("null")`. */
  function ReceiptAmount(r: Receipt): (a: JsNumber)
    ensures r.amount.Int? ==> a == Finite(r.amount.i as real)
    ensures r.amount == Undefined ==> a == NaN
  {
    match r.amount
    case Int(i) => ParseFloatOfIntToString(i); ParseFloat(ToString(r.amount))
    case Undefined =>
      assert !IsJsSpace('u');
      ParseFloatOfNonNumeric("undefined");
      ParseFloat(ToString(r.amount))
    case _ => ParseFloat(ToString(r.amount))
  }

  /** `xs.reduce((sum, x) => sum + amount(x), 0)` on doubles. */
  function JsSum<T>(xs: seq<T>, amount: T -> JsNumber): (r: JsNumber)
    ensures r.Finite? ==> forall k :: 0 <= k < |xs| ==> amount(xs[k]).Finite?
  {
    if xs == [] then Finite(0.0)
    else
      var r := Add(JsSum(xs[..|xs| - 1], amount), amount(xs[|xs| - 1]));
      assert forall k :: 0 <= k < |xs| - 1 ==> xs[..|xs| - 1][k] == xs[k];
      r
  }

  /** `calculateTotalSales`. */
  function TotalSales(sales: seq<ClientSale>): (r: JsNumber)
    ensures (forall k :: 0 <= k < |sales| ==> SaleAmount(sales[k]).Finite?) ==>
      r == Finite(Money.SumOf(sales, ValueOf(SaleAmount)))
  {
    JsSumWhenFinite(sales, SaleAmount);
    JsSum(sales, SaleAmount)
  }

  /** The total received from the client. */
  function TotalReceived(receipts: seq<Receipt>): (r: JsNumber)
    ensures (forall k :: 0 <= k < |receipts| ==> ReceiptAmount(receipts[k]).Finite?) ==>
      r == Finite(Money.SumOf(receipts, ValueOf(ReceiptAmount)))
  {
    JsSumWhenFinite(receipts, ReceiptAmount);
    JsSum(receipts, ReceiptAmount)
  }

  /** `totalSales - totalReceived`, not clamped: an overpaid client has a negative balance. */
  function RemainingBalance(sales: seq<ClientSale>, receipts: seq<Receipt>): (r: JsNumber)
    ensures TotalSales(sales) == NaN || TotalReceived(receipts) == NaN ==> r == NaN
  {
    Subtract(TotalSales(sales), TotalReceived(receipts))
  }

  /** The value of a finite amount, 0 otherwise. */
  function ValueOf<T>(amount: T -> JsNumber): T -> real {
    (x: T) => if amount(x).Finite? then amount(x).value else 0.0
  }

  /** When every amount reads as a number, the double sum is the exact sum of the amounts. */
  lemma {:induction false} JsSumFinite<T>(xs: seq<T>, amount: T -> JsNumber)
    requires forall k :: 0 <= k < |xs| ==> amount(xs[k]).Finite?
    ensures JsSum(xs, amount) == Finite(Money.SumOf(xs, ValueOf(amount)))
    decreases |xs|
  {
    if xs != [] {
      JsSumFinite(xs[..|xs| - 1], amount);
    }
  }

  /** `JsSumFinite`, stated for every list: the exact sum whenever every amount reads as a number. */
  lemma JsSumWhenFinite<T>(xs: seq<T>, amount: T -> JsNumber)
    ensures (forall k :: 0 <= k < |xs| ==> amount(xs[k]).Finite?) ==>
      JsSum(xs, amount) == Finite(Money.SumOf(xs, ValueOf(amount)))
  {
    if forall k :: 0 <= k < |xs| ==> amount(xs[k]).Finite? {
      JsSumFinite(xs, amount);
    }
  }

  /** One amount that reads as `NaN` makes the whole sum `NaN`. */
  lemma {:induction false} JsSumNaN<T>(xs: seq<T>, amount: T -> JsNumber, k: nat)
    requires k < |xs| && amount(xs[k]) == NaN
    ensures JsSum(xs, amount) == NaN
    decreases |xs|
  {
    if k < |xs| - 1 {
      JsSumNaN(xs[..|xs| - 1], amount, k);
    }
  }

  /** A sale without a price adds nothing; a receipt without an amount makes the total `NaN`. */
  lemma MissingValues(s: ClientSale, r: Receipt)
    requires !Truthy(s.totalPrice) && r.amount == Null
    ensures SaleAmount(s) == Finite(0.0)
    ensures ReceiptAmount(r) == NaN
  {
    ParseFloatOfNonNumeric("null");
  }

  /** A client with a receipt lacking its amount shows a `NaN` total received and balance. */
  lemma ReceiptWithoutAmountPoisonsBalance(sales: seq<ClientSale>, receipts: seq<Receipt>, k: nat)
    requires k < |receipts| && receipts[k].amount == Null
    ensures TotalReceived(receipts) == NaN
    ensures RemainingBalance(sales, receipts) == NaN
  {
    ParseFloatOfNonNumeric("null");
    JsSumNaN(receipts, ReceiptAmount, k);
  }

  /**
   * With readable amounts, what was received and what remains add up to the sales total;
   * the balance is below zero exactly when more was received than sold.
   */
  lemma BalanceSplitsTotal(sales: seq<ClientSale>, receipts: seq<Receipt>)
    requires forall k :: 0 <= k < |sales| ==> SaleAmount(sales[k]).Finite?
    requires forall k :: 0 <= k < |receipts| ==> ReceiptAmount(receipts[k]).Finite?
    ensures TotalSales(sales).Finite? && TotalReceived(receipts).Finite?
    ensures RemainingBalance(sales, receipts).Finite?
    ensures RemainingBalance(sales, receipts).value + TotalReceived(receipts).value == TotalSales(sales).value
    ensures RemainingBalance(sales, receipts).value < 0.0 <==> TotalReceived(receipts).value > TotalSales(sales).value
  {
    JsSumFinite(sales, SaleAmount);
    JsSumFinite(receipts, ReceiptAmount);
  }

  // ---------------------------------------------------------------- the request

  /** The client id kept in `localStorage`, as a template literal prints it. */
  function IdText(clientId: Option<string>): string {
    match clientId
    case Some(id) => id
    case None => "null"
  }

  /** The query of `fetchClientSalesDetails`: the date pair only when both dates are given. */
  function SalesParams(clientId: Option<string>, startDate: Option<string>, endDate: Option<string>): (ps: seq<Query.Param>)
    ensures |ps| >= 2 && ps[..2] == [Query.Param("action", "client_sales"), Query.Param("client_id", IdText(clientId))]
  {
    [Query.Param("action", "client_sales"), Query.Param("client_id", IdText(clientId))]
    + (if Present(startDate) && Present(endDate)
       then [Query.Param("start_date", startDate.value), Query.Param("end_date", endDate.value)] else [])
  }

  /** The URL of `fetchClientSalesDetails`. */
  method SalesDetailsUrl(clientId: Option<string>, startDate: Option<string>, endDate: Option<string>) returns (url: string)
    ensures url == Query.WithQuery(BaseUrl + "/client.php", SalesParams(clientId, startDate, endDate))
  {
    var id := IdText(clientId);
    // the template literal `${BASE_URL}/client.php?action=client_sales&client_id=${clientId}`
    url := BaseUrl + "/client.php" + "?" + "action=" + "client_sales" + "&client_id=" + id;
    var ps := [Query.Param("action", "client_sales"), Query.Param("client_id", id)];
    assert url == BaseUrl + "/client.php" + "?" + Query.Render(ps) by {
      Query.RenderPair("action", "action=", "client_sales", "client_id", "&client_id=", id);
    }
    if Present(startDate) && Present(endDate) {
      var s, e := startDate.value, endDate.value;
      AppendParam(url, ps, "start_date", "&start_date=", s);
      url, ps := url + "&start_date=" + s, ps + [Query.Param("start_date", s)];
      AppendParam(url, ps, "end_date", "&end_date=", e);
      url, ps := url + "&end_date=" + e, ps + [Query.Param("end_date", e)];
    }
    assert ps == SalesParams(clientId, startDate, endDate);
  }

  /** Appending `&key=value` to the URL of `ps` gives the URL of `ps` with that parameter. */
  lemma AppendParam(url: string, ps: seq<Query.Param>, key: string, text: string, value: string)
    requires |ps| >= 1 && url == BaseUrl + "/client.php" + "?" + Query.Render(ps)
    requires text == "&" + key + "="
    ensures url + text + value == BaseUrl + "/client.php" + "?" + Query.Render(ps + [Query.Param(key, value)])
  {
    Query.RenderSnoc(ps, Query.Param(key, value));
  }

  /** The dates reach the server only as a pair. */
  lemma DatesOnlyAsPair(clientId: Option<string>, startDate: Option<string>, endDate: Option<string>)
    ensures |SalesParams(clientId, startDate, endDate)| == 4 <==> Present(startDate) && Present(endDate)
    ensures |SalesParams(clientId, startDate, endDate)| == 2 <==> !(Present(startDate) && Present(endDate))
  {
  }

  /** When no value holds `&`, the server reads back exactly these parameters. */
  lemma SalesQueryRoundTrip(clientId: Option<string>, startDate: Option<string>, endDate: Option<string>)
    requires Query.Unambiguous(SalesParams(clientId, startDate, endDate))
    ensures Query.Parse(Query.Render(SalesParams(clientId, startDate, endDate))) == SalesParams(clientId, startDate, endDate)
  {
    Query.ParseRender(SalesParams(clientId, startDate, endDate));
  }

  /** What the filter button leads to: an error message, or a fetch for the range. */
  datatype FilterOutcome = FilterError(message: string) | FetchRange(startDate: string, endDate: string)

  /** `handleDateFilter`. */
  function HandleDateFilter(startDate: string, endDate: string): (r: FilterOutcome)
    ensures r == FilterError("Please select both start and end dates") <==> startDate == "" || endDate == ""
    ensures r == FilterError("Start date cannot be after end date") <==>
      startDate != "" && endDate != "" && IsoDate.After(startDate, endDate)
    ensures r.FetchRange? <==> startDate != "" && endDate != "" && !IsoDate.After(startDate, endDate)
    ensures r.FetchRange? ==> r == FetchRange(startDate, endDate)
  {
    if startDate == "" || endDate == "" then FilterError("Please select both start and end dates")
    else if IsoDate.After(startDate, endDate) then FilterError("Start date cannot be after end date")
    else FetchRange(startDate, endDate)
  }

  /** A one-day range (start equal to end) is accepted. */
  lemma SameDayAccepted(d: string)
    requires IsoDate.IsIsoDate(d)
    ensures HandleDateFilter(d, d) == FetchRange(d, d)
  {
    IsoDate.AfterIsStrictTotalOrder(d, d);
  }

  /** Of two distinct calendar dates, exactly one order of the pair passes the filter. */
  lemma ExactlyOneOrderAccepted(a: string, b: string)
    requires IsoDate.IsIsoDate(a) && IsoDate.IsIsoDate(b) && a != b
    ensures HandleDateFilter(a, b).FetchRange? != HandleDateFilter(b, a).FetchRange?
  {
    IsoDate.AfterIsStrictTotalOrder(a, b);
  }

  /** An accepted filter always sends both dates. */
  lemma AcceptedFilterSendsRange(clientId: Option<string>, startDate: string, endDate: string)
    requires HandleDateFilter(startDate, endDate).FetchRange?
    ensures SalesParams(clientId, Some(startDate), Some(endDate))[2..] ==
      [Query.Param("start_date", startDate), Query.Param("end_date", endDate)]
  {
  }

  // ---------------------------------------------------------------- the screen

  /** The `clientDetails` object: the fields the page shows. */
  datatype ClientInfo = ClientInfo(name: string, firmName: JsValue, contact: JsValue)

  /** The update modal's inputs. */
  datatype SaleEditForm = SaleEditForm(saleId: string, productId: string, quantity: string,
                                       pricePerKg: string, packing: string)

  /**
   * `sale_id == saleId` for the number the edit button passes: loose equality with a number.
   * A string is trimmed and read as a number, so a blank one equals 0.
   */
  function LooselyEquals(v: JsValue, n: int): (r: bool)
    ensures v.Int? ==> (r <==> v.i == n)
    ensures v == Null || v == Undefined ==> !r
    ensures v.Str? && Trim(v.s) == "" ==> (r <==> n == 0)
  {
    match v
    case Int(i) => i == n
    case Str(s) => var t := Trim(s); if t == [] then n == 0 else n >= 0 && AllDigits(t) && DecValue(t) == n
    case Bool(b) => n == (if b then 1 else 0)
    case _ => false
  }

  /** `salesData.find(s => s.sale_id == saleId)`. */
  function FindSale(sales: seq<ClientSale>, saleId: int): (r: Option<ClientSale>)
    ensures r.Some? ==> r.value in sales && LooselyEquals(r.value.saleId, saleId)
    ensures r.None? <==> forall k :: 0 <= k < |sales| ==> !LooselyEquals(sales[k].saleId, saleId)
  {
    if sales == [] then None
    else if LooselyEquals(sales[0].saleId, saleId) then Some(sales[0])
    else
      var r := FindSale(sales[1..], saleId);
      assert forall k :: 1 <= k < |sales| ==> sales[k] == sales[1..][k - 1];
      r
  }

  /**
   * The inputs `editSale` fills from a sale, as they read back: the product select keeps the
   * sale's product only when an option of that value is loaded, and a `null` quantity or price
   * leaves its input empty; `packing || ''`.
   */
  function EditFormOf(s: ClientSale, productOptions: seq<string>): (f: SaleEditForm)
    ensures f.productId == "" || f.productId in productOptions
    ensures s.saleId.Str? ==> f.saleId == s.saleId.s
    ensures s.quantity == Null ==> f.quantity == ""
    ensures s.pricePerKg == Null ==> f.pricePerKg == ""
    ensures !Truthy(s.packing) ==> f.packing == ""
  {
    SaleEditForm(InputText(s.saleId), SelectText(productOptions, s.productId), InputText(s.quantity),
                 InputText(s.pricePerKg), if Truthy(s.packing) then InputText(s.packing) else "")
  }

  /** The product select's option values, one per product `loadProducts` received: `${product.id}`. */
  function OptionValues(productIds: seq<JsValue>): (vs: seq<string>)
    ensures |vs| == |productIds|
    ensures forall k :: 0 <= k < |productIds| ==> vs[k] == ToString(productIds[k])
  {
    seq(|productIds|, k requires 0 <= k < |productIds| => ToString(productIds[k]))
  }

  /** The decimal text of a non-negative number, `String(n)`, loosely equals that number. */
  lemma NumberTextLooselyEquals(n: nat)
    ensures LooselyEquals(Str(IntToString(n)), n)
  {
    var t := IntToString(n);
    assert t == NatToString(n);
    assert IsDigit(t[0]) && IsDigit(t[|t| - 1]);
    TrimOfUnpadded(t);
    DecValueOfNatToString(n);
  }

  /**
   * A sale whose id the server sends as the text of the number on the edit button is found:
   * some sale is picked, and it is that sale when it comes first.
   */
  lemma StringIdFound(sales: seq<ClientSale>, k: nat, n: nat)
    requires k < |sales| && sales[k].saleId == Str(IntToString(n))
    ensures FindSale(sales, n).Some?
    ensures k == 0 ==> FindSale(sales, n) == Some(sales[0])
  {
    NumberTextLooselyEquals(n);
  }

  /**
   * The body `handleSaleUpdate` sends with PUT to `sales.php`: the modal's inputs as they
   * stand, unchecked, and the stored client id (`null` when none).
   */
  datatype SaleUpdate = SaleUpdate(id: string, productId: string, quantity: string, pricePerKg: string,
                                   packing: string, clientId: Option<string>)

  function UpdateBody(form: SaleEditForm, clientId: Option<string>): (b: SaleUpdate)
    ensures SaleEditForm(b.id, b.productId, b.quantity, b.pricePerKg, b.packing) == form
    ensures b.clientId == clientId
  {
    SaleUpdate(form.saleId, form.productId, form.quantity, form.pricePerKg, form.packing, clientId)
  }

  /**
   * Picking a sale and saving the modal untouched sends that sale back under its own id;
   * the product comes back only when the select has an option for it (none before the
   * products are loaded), a `null` quantity or price comes back empty, and the packing is
   * empty when the sale had none.
   */
  lemma EditThenUpdate(sales: seq<ClientSale>, saleId: int, clientId: Option<string>, productOptions: seq<string>)
    requires FindSale(sales, saleId).Some?
    ensures var s := FindSale(sales, saleId).value;
      var body := UpdateBody(EditFormOf(s, productOptions), clientId);
      s in sales && LooselyEquals(s.saleId, saleId)
      && body.id == ToString(s.saleId)
      && (ToString(s.productId) in productOptions ==> body.productId == ToString(s.productId))
      && (ToString(s.productId) !in productOptions ==> body.productId == "")
      && (s.quantity != Null ==> body.quantity == ToString(s.quantity))
      && (s.quantity == Null ==> body.quantity == "")
      && (s.pricePerKg != Null ==> body.pricePerKg == ToString(s.pricePerKg))
      && (s.pricePerKg == Null ==> body.pricePerKg == "")
      && (body.packing == "" <==> !Truthy(s.packing) || ToString(s.packing) == "")
      && body.clientId == clientId
  {
  }

  /** Once the products are loaded, a sale of one of them is sent back with its own product. */
  lemma LoadedProductKept(s: ClientSale, productIds: seq<JsValue>, clientId: Option<string>)
    requires s.productId in productIds
    ensures UpdateBody(EditFormOf(s, OptionValues(productIds)), clientId).productId == ToString(s.productId)
  {
    var k :| 0 <= k < |productIds| && productIds[k] == s.productId;
    assert OptionValues(productIds)[k] == ToString(s.productId);
  }

  class ClientDetailsScreen {
    var salesData: seq<ClientSale>
    var clientDetails: Option<ClientInfo>
    var pdfDisabled: bool
    var tableShown: bool
    var editForm: SaleEditForm
    var editModalShown: bool
    var productOptions: seq<string>

    constructor ()
      ensures salesData == [] && clientDetails == None && !editModalShown && productOptions == []
    {
      productOptions := [];
      salesData := [];
      clientDetails := None;
      pdfDisabled := false;
      tableShown := false;
      editForm := SaleEditForm("", "", "", "", "");
      editModalShown := false;
    }

    /**
     * `fetchClientSalesDetails` after the response: on success the details and the rows
     * (`sales_data || []`) are stored and the PDF button and table follow whether there are
     * rows; otherwise the message (or a default) is returned, the stored data stay, and the
     * table stays hidden: `showLoading(true)` hid it before the request and only `updateUI`
     * shows it again.
     */
    method ReceiveSalesDetails(success: bool, message: Option<string>, details: ClientInfo,
                               rows: Option<seq<ClientSale>>) returns (error: Option<string>)
      modifies this
      ensures success ==> error == None && clientDetails == Some(details)
      ensures success ==> salesData == rows.GetOr([])
      ensures success ==> (pdfDisabled <==> salesData == []) && (tableShown <==> salesData != [])
      ensures !success ==> error == Some(if Present(message) then message.value else "Failed to fetch sales details")
      ensures !success ==> (salesData == old(salesData) && clientDetails == old(clientDetails)
        && pdfDisabled == old(pdfDisabled) && !tableShown)
      ensures editForm == old(editForm) && editModalShown == old(editModalShown)
      ensures productOptions == old(productOptions)
    {
      if success {
        clientDetails := Some(details);
        salesData := if rows.Some? then rows.value else [];
        pdfDisabled := |salesData| == 0;
        tableShown := |salesData| != 0;
        error := None;
      } else {
        tableShown := false;
        error := Some(if Present(message) then message.value else "Failed to fetch sales details");
      }
    }

    /**
     * `loadProducts`: on success the select's options become the products' ids; a failed
     * request or unreadable body shows `Error loading products`; an unsuccessful response
     * changes nothing. Replacing the options makes the select pick its first option (none
     * when the list is empty), so an open update modal loses the product `editSale` put there.
     */
    method LoadProducts(failed: bool, success: bool, productIds: seq<JsValue>) returns (error: Option<string>)
      modifies this
      ensures failed ==> error == Some("Error loading products") && productOptions == old(productOptions)
      ensures !failed ==> error == None
      ensures !failed && success ==> productOptions == OptionValues(productIds)
      ensures !failed && !success ==> productOptions == old(productOptions)
      ensures salesData == old(salesData) && clientDetails == old(clientDetails)
      ensures pdfDisabled == old(pdfDisabled) && tableShown == old(tableShown)
      ensures !failed && success ==>
        editForm == old(editForm).(productId := if productIds == [] then "" else ToString(productIds[0]))
      ensures failed || !success ==> editForm == old(editForm)
      ensures editModalShown == old(editModalShown)
    {
      if failed {
        return Some("Error loading products");
      }
      if success {
        productOptions := OptionValues(productIds);
        editForm := editForm.(productId := if productIds == [] then "" else productOptions[0]);
      }
      error := None;
    }

    /** `editSale`: nothing happens when no row matches; otherwise the first match fills the modal. */
    method EditSale(saleId: int)
      modifies this
      ensures FindSale(salesData, saleId) == None ==> editForm == old(editForm) && editModalShown == old(editModalShown)
      ensures FindSale(salesData, saleId).Some? ==>
        editForm == EditFormOf(FindSale(salesData, saleId).value, productOptions) && editModalShown
      ensures salesData == old(salesData) && clientDetails == old(clientDetails)
      ensures pdfDisabled == old(pdfDisabled) && tableShown == old(tableShown)
      ensures productOptions == old(productOptions)
    {
      var sale := FindSale(salesData, saleId);
      if sale.Some? {
        editForm, editModalShown := EditFormOf(sale.value, productOptions), true;
      }
    }

    /** `handleSaleUpdate`: the body sent is the modal's inputs as they stand and the stored client id. */
    method HandleSaleUpdate(clientId: Option<string>) returns (body: SaleUpdate)
      ensures body.id == editForm.saleId && body.productId == editForm.productId
      ensures body.quantity == editForm.quantity && body.pricePerKg == editForm.pricePerKg
      ensures body.packing == editForm.packing && body.clientId == clientId
    {
      body := SaleUpdate(editForm.saleId, editForm.productId, editForm.quantity, editForm.pricePerKg,
                         editForm.packing, clientId);
    }
  }
}
