/**
 * The sales screen (screens/sales/sales.js): the loose and ready price formulas, the
 * stock check, the list request's date filter, the name fallback for listed sales, and
 * the add/edit flag that picks PUT or POST.
 */
module Sales {
  import opened Wrappers
  import opened JsText
  import opened JsValues
  import opened JsNumbers
  import Query
  import Http

  // ---------------------------------------------------------------- numbers from inputs

  /**
   * `parseFloat(value) || 0`: `NaN` (an empty or unreadable input) and 0 become 0.
   * A number input never holds the text `Infinity`, so the infinite case is taken as 0 too.
   */
  function OrZero(n: JsNumber): (r: real)
    ensures n.Finite? ==> r == n.value
    ensures r != 0.0 ==> n == Finite(r)
    ensures n == NaN ==> r == 0.0
  {
    match n
    case Finite(v) => v
    case _ => 0.0
  }

  /** An input's value as the price formulas read it. */
  function InputValue(s: string): (r: real)
    ensures !ParseFloat(s).Finite? ==> r == 0.0
    ensures r != 0.0 ==> ParseFloat(s) == Finite(r)
  {
    OrZero(ParseFloat(s))
  }

  /** An empty input reads as 0. */
  lemma EmptyInputIsZero()
    ensures InputValue("") == 0.0
  {
    assert ParseFloat("") == NaN by {
      assert TrimStart("") == "";
    }
  }

  /** An input holding an integer reads as that integer. */
  lemma IntegerInputValue(n: int)
    ensures InputValue(IntToString(n)) == n as real
  {
    ParseFloatOfIntToString(n);
  }

  /** `a / b` on doubles: a quotient, or `NaN` for 0/0, or a signed infinity for x/0. */
  function Divide(a: real, b: real): (r: JsNumber)
    ensures b != 0.0 ==> r.Finite? && r.value * b == a
    ensures b == 0.0 ==> (r == NaN <==> a == 0.0)
    ensures b == 0.0 && a != 0.0 ==> r == Infinite(a < 0.0)
  {
    if b != 0.0 then Finite(a / b)
    else if a == 0.0 then NaN
    else Infinite(a < 0.0)
  }

  // ---------------------------------------------------------------- loose goods

  /** `calculateLooseTotalPrice`: quantity (kg) times price per kg, unreadable inputs as 0. */
  function LooseTotal(quantity: string, pricePerKg: string): (t: real)
    ensures InputValue(quantity) == 0.0 || InputValue(pricePerKg) == 0.0 ==> t == 0.0
    ensures InputValue(quantity) > 0.0 && InputValue(pricePerKg) > 0.0 ==> t > 0.0
  {
    KgTimesPrice(InputValue(quantity), InputValue(pricePerKg))
  }

  /** The product `quantity * pricePerKg`, once both inputs are read. */
  function KgTimesPrice(kg: real, price: real): (r: real)
    ensures kg == 0.0 || price == 0.0 ==> r == 0.0
    ensures kg > 0.0 && price > 0.0 ==> r > 0.0
  {
    kg * price
  }

  /** An empty quantity or price gives a total of 0. */
  lemma LooseTotalOfEmpty(quantity: string, pricePerKg: string)
    requires quantity == "" || pricePerKg == ""
    ensures LooseTotal(quantity, pricePerKg) == 0.0
  {
    EmptyInputIsZero();
  }

  /** Whole-number inputs give their product. */
  lemma LooseTotalOfIntegers(q: int, p: int)
    ensures LooseTotal(IntToString(q), IntToString(p)) == (q as real) * (p as real)
  {
    IntegerInputValue(q);
    IntegerInputValue(p);
  }

  /**
   * The shown total read back: `total.toFixed(2)` rounds to the nearest cent (halves away
   * from zero, the sign set aside first) and `parseFloat` reads the digits back.
   */
  function ShownCents(x: real): (r: real)
    ensures -0.005 <= r - x <= 0.005
  {
    if x >= 0.0 then ((x * 100.0 + 0.5).Floor as real) / 100.0
    else -((((-x) * 100.0 + 0.5).Floor as real) / 100.0)
  }

  /** A whole number of cents is shown as it is. */
  lemma ShownCentsOfCents(n: int)
    ensures ShownCents((n as real) / 100.0) == (n as real) / 100.0
  {
    var x := (n as real) / 100.0;
    var m := if n >= 0 then n else -n;
    assert (if n >= 0 then x else -x) * 100.0 + 0.5 == m as real + 0.5;
    FloorOfHalf(m);
  }

  /** Half above a whole number rounds down to it. */
  lemma FloorOfHalf(m: int)
    ensures (m as real + 0.5).Floor == m
  {
  }

  // ---------------------------------------------------------------- ready goods

  /** The six inputs of the ready (boxed) pricing, as read. */
  datatype ReadyInputs = ReadyInputs(pieces: real, gramsPerPiece: real, ratePerGram: real,
                                     packingCost: real, totalBoxes: real, dozensPerBox: real)

  function ReadInputs(pieces: string, gramsPerPiece: string, ratePerGram: string,
                      packingCost: string, totalBoxes: string, dozensPerBox: string): ReadyInputs {
    ReadyInputs(InputValue(pieces), InputValue(gramsPerPiece), InputValue(ratePerGram),
                InputValue(packingCost), InputValue(totalBoxes), InputValue(dozensPerBox))
  }

  /** The intermediate values shown and the fields sent to the backend. */
  datatype ReadyCalc = ReadyCalc(weight: real, perDozen: real, boxPrice: real, totalPrice: real,
                                 quantity: real, pricePerKg: JsNumber)

  /**
   * `calculateReadyTotalPrice`: weight value, per-dozen cost, box price and total, then
   * the total weight in kg and the price per kg derived from them.
   */
  function CalculateReady(i: ReadyInputs): (c: ReadyCalc)
    ensures c.pricePerKg == Divide(c.totalPrice, c.quantity)
  {
    var weight := (i.pieces * i.gramsPerPiece * i.ratePerGram) / 1000.0;
    var perDozen := weight + i.packingCost;
    var boxPrice := i.dozensPerBox * perDozen;
    var totalPrice := boxPrice * i.totalBoxes;
    var totalKg := (i.pieces * i.gramsPerPiece * i.totalBoxes) / 1000.0;
    ReadyCalc(weight, perDozen, boxPrice, totalPrice, totalKg, Divide(totalPrice, totalKg))
  }

  /** The total in closed form: boxes times dozens per box times the per-dozen cost. */
  lemma ReadyTotalClosedForm(i: ReadyInputs)
    ensures CalculateReady(i).totalPrice ==
      i.totalBoxes * i.dozensPerBox * ((i.pieces * i.gramsPerPiece * i.ratePerGram) / 1000.0 + i.packingCost)
  {
  }

  /** When some weight is sold, price per kg times kilograms gives back the total. */
  lemma ReadyPricePerKgTimesQuantity(i: ReadyInputs)
    requires CalculateReady(i).quantity != 0.0
    ensures CalculateReady(i).pricePerKg.Finite?
    ensures CalculateReady(i).pricePerKg.value * CalculateReady(i).quantity == CalculateReady(i).totalPrice
  {
  }

  /** Without packing cost, the price per kg is the gram rate times the dozens per box. */
  lemma ReadyPricePerKgWithoutPacking(i: ReadyInputs)
    requires i.packingCost == 0.0 && CalculateReady(i).quantity != 0.0
    ensures CalculateReady(i).pricePerKg == Finite(i.ratePerGram * i.dozensPerBox)
  {
    var c := CalculateReady(i);
    var w := i.pieces * i.gramsPerPiece;
    assert c.quantity == w * i.totalBoxes / 1000.0;
    assert c.totalPrice == (i.ratePerGram * i.dozensPerBox) * (w * i.totalBoxes / 1000.0);
  }

  /**
   * With no weight (no pieces, no grams or no boxes) the price per kg is not a number:
   * `NaN` when the total is 0 as well, an infinity when packing alone gives a total.
   */
  lemma ReadyWithoutWeight(i: ReadyInputs)
    requires i.pieces * i.gramsPerPiece * i.totalBoxes == 0.0
    ensures CalculateReady(i).quantity == 0.0
    ensures CalculateReady(i).pricePerKg == NaN <==> CalculateReady(i).totalPrice == 0.0
    ensures !CalculateReady(i).pricePerKg.Finite?
  {
  }

  // ---------------------------------------------------------------- the stock check

  /** JavaScript `a > b`: false whenever either side is `NaN`. */
  function Greater(a: JsNumber, b: JsNumber): (r: bool)
    ensures r ==> a != NaN && b != NaN
    ensures a.Finite? && b.Finite? ==> (r <==> a.value > b.value)
    ensures a == b ==> !r
  {
    match (a, b)
    case (Finite(x), Finite(y)) => x > y
    case (Infinite(na), Finite(_)) => !na
    case (Finite(_), Infinite(nb)) => nb
    case (Infinite(na), Infinite(nb)) => !na && nb
    case _ => false
  }

  /** `validateQuantity`: refuses only a quantity greater than the stock the option carries. */
  function ValidateQuantity(quantity: JsNumber, availableQuantity: string): (ok: bool)
    ensures !ok ==> quantity != NaN && ParseFloat(availableQuantity) != NaN
    ensures !ok ==> quantity != Infinite(true) && ParseFloat(availableQuantity) != Infinite(false)
  {
    !Greater(quantity, ParseFloat(availableQuantity))
  }

  /** For readable numbers, the sale is refused exactly when it asks for more than the stock. */
  lemma ValidateQuantityFinite(q: real, availableQuantity: string)
    requires ParseFloat(availableQuantity).Finite?
    ensures ValidateQuantity(Finite(q), availableQuantity) <==> q <= ParseFloat(availableQuantity).value
  {
  }

  /** Selling exactly the available stock is allowed. */
  lemma ValidateQuantityEqual(availableQuantity: string)
    requires ParseFloat(availableQuantity).Finite?
    ensures ValidateQuantity(ParseFloat(availableQuantity), availableQuantity)
  {
  }

  /** An unreadable quantity, or an option without a readable stock, lets the sale through. */
  lemma ValidateQuantityNaN(q: JsNumber, availableQuantity: string)
    requires q == NaN || ParseFloat(availableQuantity) == NaN
    ensures ValidateQuantity(q, availableQuantity)
  {
  }

  // ---------------------------------------------------------------- the list request

  /** The sales endpoint under the configured API base (read from the environment, so a parameter here). */
  function SaleUrl(apiBase: string): (url: string)
    ensures |url| == |apiBase| + 9 && url[..|apiBase|] == apiBase && url[|apiBase|..] == "/sale.php"
  {
    apiBase + "/sale.php"
  }

  /** The date filter of `fetchSales`, `from` before `to`, each only when set. */
  function SalesParams(fromDate: string, toDate: string): (ps: seq<Query.Param>)
    ensures Query.Keys(ps) == (if fromDate != "" then ["from"] else []) + (if toDate != "" then ["to"] else [])
    ensures forall k :: 0 <= k < |ps| ==> ps[k].value != ""
  {
    (if fromDate != "" then [Query.Param("from", fromDate)] else [])
    + (if toDate != "" then [Query.Param("to", toDate)] else [])
  }

  /** `fetchSales`'s URL: a query only when one of the dates is set. */
  method FetchSalesUrl(apiBase: string, fromDate: string, toDate: string) returns (url: string)
    ensures url == Query.WithQuery(SaleUrl(apiBase), SalesParams(fromDate, toDate))
  {
    url := SaleUrl(apiBase);
    if fromDate != "" || toDate != "" {
      var params: seq<Query.Param> := [];
      if fromDate != "" {
        params := params + [Query.Param("from", fromDate)];
      }
      if toDate != "" {
        params := params + [Query.Param("to", toDate)];
      }
      url := url + "?" + Query.Render(params);
    }
  }

  /** The request carries a query exactly when a date is set, and `from` comes first. */
  lemma SalesParamsShape(fromDate: string, toDate: string)
    ensures SalesParams(fromDate, toDate) == [] <==> fromDate == "" && toDate == ""
    ensures |SalesParams(fromDate, toDate)| == (if fromDate != "" then 1 else 0) + (if toDate != "" then 1 else 0)
    ensures fromDate != "" ==> SalesParams(fromDate, toDate)[0] == Query.Param("from", fromDate)
    ensures toDate != "" ==> SalesParams(fromDate, toDate)[|SalesParams(fromDate, toDate)| - 1] == Query.Param("to", toDate)
  {
  }

  // ---------------------------------------------------------------- names of listed sales

  /** An `<option>` of the client or product select. */
  datatype SelectOption = SelectOption(value: string, text: string)

  /** `Array.from(select.options).find(opt => opt.value === v)`. */
  function FindOption(options: seq<SelectOption>, v: string): (r: Option<SelectOption>)
    ensures r.Some? ==> r.value in options && r.value.value == v
    ensures r.None? <==> forall k :: 0 <= k < |options| ==> options[k].value != v
  {
    if options == [] then None
    else if options[0].value == v then Some(options[0])
    else
      var r := FindOption(options[1..], v);
      assert forall k :: 1 <= k < |options| ==> options[k] == options[1..][k - 1];
      r
  }

  /** A sale from the list; a missing name is `None`. */
  datatype Sale = Sale(id: JsValue, clientId: JsValue, clientName: Option<string>,
                       productId: JsValue, productName: Option<string>)

  /** The product's name in an option text such as `Biscuits (120 kg)`: the text before ` (`. */
  function ProductName(optionText: string): (r: string)
    ensures |r| <= |optionText| && r == optionText[..|r|]
    ensures forall j :: 0 <= j && j + 2 <= |r| ==> !OccursAt(r, " (", j)
    ensures |r| < |optionText| ==> OccursAt(optionText, " (", |r|)
  {
    BeforeFirst(optionText, " (")
  }

  /** Two characters at `i` of a prefix of `t` are the same two characters of `t`. */
  lemma SlicePairOfPrefix(p: string, t: string, i: int)
    requires |p| <= |t| && p == t[..|p|]
    ensures 0 <= i && i + 2 <= |p| ==> p[i..i + 2] == t[i..i + 2]
  {
  }

  /** An occurrence of ` (` is a space followed by a parenthesis. */
  lemma SeparatorChars(s: string, i: int)
    ensures OccursAt(s, " (", i) ==> s[i] == ' ' && s[i + 1] == '('
  {
    if OccursAt(s, " (", i) {
      assert s[i..i + 2][1] == s[i + 1];
    }
  }

  /** An option text `name (…)` yields `name` when the name itself holds no ` (`. */
  lemma ProductNameOfLabel(name: string, rest: string)
    requires forall j :: 0 <= j && j + 2 <= |name| ==> !OccursAt(name, " (", j)
    ensures ProductName(name + " (" + rest) == name
  {
    var t := name + " (" + rest;
    var r := ProductName(t);
    assert t[..|name|] == name;
    assert t[|name|..|name| + 2] == " (";
    assert OccursAt(t, " (", |name|);
    SlicePairOfPrefix(r, t, |name|);
    SlicePairOfPrefix(name, t, |r|);
    // the separator at `|name|` would lie inside `r` if `r` were longer
    assert |name| + 2 <= |r| ==> OccursAt(r, " (", |name|);
    // an earlier separator would lie inside `name`, or start at its last character
    assert |r| + 2 <= |name| ==> OccursAt(name, " (", |r|);
    SeparatorChars(t, |r|);
    assert t[|name|] == ' ';
    assert |r| == |name|;
  }

  /**
   * The `map` of `fetchSales`: a sale without a client name but with a client id takes the
   * matching option's text, or `Unknown Client`; the same for products, cut before ` (`,
   * or `Unknown Product`.
   */
  function FillNames(sale: Sale, clients: seq<SelectOption>, products: seq<SelectOption>): (r: Sale)
    ensures r.id == sale.id && r.clientId == sale.clientId && r.productId == sale.productId
    ensures Present(sale.clientName) || !Truthy(sale.clientId) ==> r.clientName == sale.clientName
    ensures Present(sale.productName) || !Truthy(sale.productId) ==> r.productName == sale.productName
  {
    var clientName :=
      if !Present(sale.clientName) && Truthy(sale.clientId) then
        match FindOption(clients, ToString(sale.clientId))
        case Some(opt) => Some(opt.text)
        case None => Some("Unknown Client")
      else sale.clientName;
    var productName :=
      if !Present(sale.productName) && Truthy(sale.productId) then
        match FindOption(products, ToString(sale.productId))
        case Some(opt) => Some(ProductName(opt.text))
        case None => Some("Unknown Product")
      else sale.productName;
    sale.(clientName := clientName, productName := productName)
  }

  /** A nameless sale whose ids match no option shows the fallback names. */
  lemma UnmatchedIdsFallBack(sale: Sale, clients: seq<SelectOption>, products: seq<SelectOption>)
    requires !Present(sale.clientName) && Truthy(sale.clientId)
    requires !Present(sale.productName) && Truthy(sale.productId)
    requires forall k :: 0 <= k < |clients| ==> clients[k].value != ToString(sale.clientId)
    requires forall k :: 0 <= k < |products| ==> products[k].value != ToString(sale.productId)
    ensures FillNames(sale, clients, products).clientName == Some("Unknown Client")
    ensures FillNames(sale, clients, products).productName == Some("Unknown Product")
  {
  }

  /** A nameless sale whose numeric product id has an option gets that option's name. */
  lemma MatchedProductNamed(sale: Sale, clients: seq<SelectOption>, products: seq<SelectOption>,
                            n: int, k: nat, name: string, rest: string)
    requires !Present(sale.productName) && sale.productId == Int(n) && n != 0
    requires k < |products| && products[k] == SelectOption(IntToString(n), name + " (" + rest)
    requires forall j :: 0 <= j < k ==> products[j].value != IntToString(n)
    requires forall j :: 0 <= j && j + 2 <= |name| ==> !OccursAt(name, " (", j)
    ensures FillNames(sale, clients, products).productName == Some(name)
  {
    var v := ToString(sale.productId);
    assert v == IntToString(n);
    FindOptionFirst(products, v, k);
    ProductNameOfLabel(name, rest);
  }

  /** A nameless sale whose client id has an option gets that option's whole text. */
  lemma MatchedClientNamed(sale: Sale, clients: seq<SelectOption>, products: seq<SelectOption>, k: nat)
    requires !Present(sale.clientName) && Truthy(sale.clientId)
    requires k < |clients| && clients[k].value == ToString(sale.clientId)
    requires forall j :: 0 <= j < k ==> clients[j].value != ToString(sale.clientId)
    ensures FillNames(sale, clients, products).clientName == Some(clients[k].text)
  {
    FindOptionFirst(clients, ToString(sale.clientId), k);
  }

  /** `find` returns the first option with the value. */
  lemma {:induction false} FindOptionFirst(options: seq<SelectOption>, v: string, k: nat)
    requires k < |options| && options[k].value == v
    requires forall j :: 0 <= j < k ==> options[j].value != v
    ensures FindOption(options, v) == Some(options[k])
  {
    if k > 0 {
      FindOptionFirst(options[1..], v, k - 1);
    }
  }

  // ---------------------------------------------------------------- the screen

  /** The fields only a ready sale carries; the grams per dozen are fixed at 300. */
  datatype ReadyExtras = ReadyExtras(dozenQuantity: JsNumber, gramsPerDozen: int, pricePerGram: JsNumber,
                                     pricePerCarton: JsNumber)

  /** The sale form's fields that the saved record carries. */
  datatype SaleBody = SaleBody(clientId: string, clientName: string, productId: string, productName: string,
                               quantity: JsNumber, pricePerKg: JsNumber, totalPrice: real, productType: string,
                               extras: Option<ReadyExtras>, packing: string)

  /** A save request; `saleId` is the id of the sale being edited (see `HandleSubmit`). */
  datatype SaleRequest = SaleRequest(verb: Http.Method, saleId: Option<JsValue>, body: SaleBody)

  /** The texts of the inputs `handleSubmit` reads besides the price formulas' own. */
  datatype ReadyTexts = ReadyTexts(dozenQuantity: string, pricePerGram: string, pricePerCarton: string)

  /**
   * The form's payload as `handleSubmit` builds it: the ready pricing and the ready-only
   * fields for ready goods, else the loose inputs; the product's name cut before ` (`;
   * the packing as typed.
   */
  function SubmittedBody(productType: string, clientId: string, clientText: string,
                         productId: string, productText: string,
                         looseQuantity: string, loosePrice: string, ready: ReadyInputs,
                         readyTexts: ReadyTexts, packing: string): (b: SaleBody)
    ensures b.clientId == clientId && b.clientName == clientText && b.productId == productId
    ensures b.productName == ProductName(productText) && b.packing == packing
    ensures productType == "ready" ==>
      (b.productType == "ready" && b.quantity == Finite(CalculateReady(ready).quantity)
       && b.pricePerKg == CalculateReady(ready).pricePerKg
       && b.totalPrice == CalculateReady(ready).totalPrice
       && b.extras == Some(ReadyExtras(ParseFloat(readyTexts.dozenQuantity), 300,
                                       ParseFloat(readyTexts.pricePerGram), ParseFloat(readyTexts.pricePerCarton))))
    ensures productType != "ready" ==>
      (b.productType == "loose" && b.quantity == ParseFloat(looseQuantity)
       && b.pricePerKg == ParseFloat(loosePrice)
       && b.totalPrice == ShownCents(LooseTotal(looseQuantity, loosePrice)) && b.extras == None)
  {
    if productType == "ready" then
      var c := CalculateReady(ready);
      var extras := ReadyExtras(ParseFloat(readyTexts.dozenQuantity), 300,
                                ParseFloat(readyTexts.pricePerGram), ParseFloat(readyTexts.pricePerCarton));
      SaleBody(clientId, clientText, productId, ProductName(productText),
               Finite(c.quantity), c.pricePerKg, c.totalPrice, "ready", Some(extras), packing)
    else
      SaleBody(clientId, clientText, productId, ProductName(productText),
               ParseFloat(looseQuantity), ParseFloat(loosePrice), ShownCents(LooseTotal(looseQuantity, loosePrice)), "loose",
               None, packing)
  }

  /** The module-level state of the sales screen. */
  class SalesScreen {
    var isEditMode: bool
    /** The id of the sale `handleEdit` opened (kept only in the corrected submit). */
    var editingSaleId: Option<JsValue>
    var sales: seq<Sale>

    constructor ()
      ensures !isEditMode && editingSaleId == None && sales == []
    {
      isEditMode := false;
      editingSaleId := None;
      sales := [];
    }

    /** `handleAddSale`: a new sale. */
    method HandleAddSale()
      modifies this
      ensures !isEditMode && editingSaleId == None && sales == old(sales)
    {
      isEditMode := false;
      editingSaleId := None;
    }

    /** `handleEdit`: edit mode for the given sale. */
    method HandleEdit(sale: Sale)
      modifies this
      ensures isEditMode && editingSaleId == Some(sale.id) && sales == old(sales)
    {
      isEditMode := true;
      editingSaleId := Some(sale.id);
    }

    /** A successful list response: every sale with its names filled in. */
    method ReceiveSales(data: seq<Sale>, clients: seq<SelectOption>, products: seq<SelectOption>)
      modifies this
      ensures |sales| == |data|
      ensures forall k :: 0 <= k < |data| ==> sales[k] == FillNames(data[k], clients, products)
      ensures isEditMode == old(isEditMode) && editingSaleId == old(editingSaleId)
    {
      sales := seq(|data|, k requires 0 <= k < |data| => FillNames(data[k], clients, products));
    }

    /**
     * `handleSubmit`: nothing while the form is invalid or the quantity exceeds the stock;
     * otherwise PUT in edit mode and POST otherwise. The request names the edited sale.
     */
    method HandleSubmit(formValid: bool, productType: string, clientId: string, clientText: string,
                        productId: string, productText: string, looseQuantity: string, loosePrice: string,
                        ready: ReadyInputs, readyTexts: ReadyTexts, packing: string, availableQuantity: string)
      returns (req: Option<SaleRequest>)
      ensures req.Some? <==> formValid && ValidateQuantity(SubmittedBody(productType, clientId, clientText,
        productId, productText, looseQuantity, loosePrice, ready, readyTexts, packing).quantity, availableQuantity)
      ensures req.Some? ==> req.value.body == SubmittedBody(productType, clientId, clientText,
        productId, productText, looseQuantity, loosePrice, ready, readyTexts, packing)
      ensures req.Some? ==> (req.value.verb == Http.Put <==> isEditMode)
      ensures req.Some? ==> (req.value.verb == Http.Post <==> !isEditMode)
      ensures req.Some? ==> req.value.saleId == (if isEditMode then editingSaleId else None)
    {
      if !formValid {
        return None;
      }
      var body := SubmittedBody(productType, clientId, clientText, productId, productText,
                                looseQuantity, loosePrice, ready, readyTexts, packing);
      if !ValidateQuantity(body.quantity, availableQuantity) {
        return None;
      }
      var verb := if isEditMode then Http.Put else Http.Post;
      req := Some(SaleRequest(verb, if isEditMode then editingSaleId else None, body));
    }
  }

  /**
   * The request as the source builds it: the method from the flag and the form's body.
   * `handleEdit` keeps nothing of the sale it opens, so the sale being edited has no
   * part in it.
   */
  function AsWrittenRequest(isEditMode: bool, edited: Option<Sale>, body: SaleBody): (r: (Http.Method, SaleBody))
    ensures r.0 == Http.Put <==> isEditMode
    ensures r.0 == Http.Post <==> !isEditMode
    ensures r.1 == body
  {
    (if isEditMode then Http.Put else Http.Post, body)
  }

  /**
   * Editing two different sales with the same form values sends the same PUT as written,
   * so the backend cannot tell which sale to update; the corrected requests differ.
   */
  lemma EditedSalesIndistinguishable(a: Sale, b: Sale, body: SaleBody)
    requires a.id != b.id
    ensures AsWrittenRequest(true, Some(a), body) == AsWrittenRequest(true, Some(b), body)
    ensures SaleRequest(Http.Put, Some(a.id), body) != SaleRequest(Http.Put, Some(b.id), body)
  {
  }
}
