/**
 * The dashboard screen (screens/home/home.js): the brace scan that digs the first
 * `{...}` object out of a response whose text may carry junk around it, the gate that
 * requires all five responses to report success, the five totals and the balance.
 */
module Home {
  import opened Wrappers
  import opened JsText
  import opened JsValues
  import Money

  // ---------------------------------------------------------------- brace depth

  /** How a character moves the brace depth. */
  function Delta(c: char): int {
    if c == '{' then 1 else if c == '}' then -1 else 0
  }

  /** The net brace depth of a text: the number of `{` minus the number of `}`. */
  function Depth(s: string): int {
    if s == [] then 0 else Delta(s[0]) + Depth(s[1..])
  }

  /** The depth counts braces: opening ones minus closing ones. */
  lemma {:induction false} DepthCountsBraces(s: string)
    ensures Depth(s) == (multiset(s)['{'] as int) - (multiset(s)['}'] as int)
  {
    if s != [] {
      assert s == [s[0]] + s[1..];
      DepthCountsBraces(s[1..]);
    }
  }

  /** Depth of a slice that starts with one character. */
  lemma DepthSliceCons(text: string, i: nat, j: nat)
    requires i < j <= |text|
    ensures Depth(text[i..j]) == Delta(text[i]) + Depth(text[i + 1..j])
  {
    assert text[i..j][1..] == text[i + 1..j];
  }

  // ---------------------------------------------------------------- the scan

  /**
   * Where the scan loop stops when it is at index `i` with depth `depth`: the exclusive end
   * (`i + 1` at the `}` that brings the depth back to 0), or `None` if the text runs out.
   * The depth is compared with 0 only right after a `}`.
   */
  function MatchEnd(text: string, i: nat, depth: int): (r: Option<nat>)
    requires i <= |text|
    ensures r.Some? ==> i < r.value <= |text| && text[r.value - 1] == '}'
    decreases |text| - i
  {
    if i == |text| then None
    else if text[i] == '}' then
      if depth - 1 == 0 then Some(i + 1) else MatchEnd(text, i + 1, depth - 1)
    else
      MatchEnd(text, i + 1, depth + Delta(text[i]))
  }

  /** Why no object could be extracted. */
  datatype ExtractError = NoJsonObject | NoCompleteObject

  /** The message each failure is thrown with; the two are told apart by it. */
  function ErrorMessage(e: ExtractError): (m: string)
    ensures e.NoJsonObject? <==> m == "No JSON object found"
    ensures e.NoCompleteObject? <==> m == "No complete JSON object found"
  {
    match e
    case NoJsonObject => "No JSON object found"
    case NoCompleteObject => "No complete JSON object found"
  }

  /** The first complete `{...}` object of a response text, by brace counting alone. */
  function FirstObject(text: string): (r: Result<string, ExtractError>)
    ensures r.Success? ==> 2 <= |r.value| <= |text|
  {
    var start := IndexOf(text, '{');
    if start == -1 then Failure(NoJsonObject)
    else
      match MatchEnd(text, start, 0)
      case None => Failure(NoCompleteObject)
      case Some(end) => Success(text[start..end])
  }

  /** The scan of `safeParseJSON`: from the first `{`, count braces until the depth returns to 0. */
  method ExtractFirstObject(text: string) returns (r: Result<string, ExtractError>)
    ensures r == FirstObject(text)
  {
    var start := IndexOf(text, '{');
    if start == -1 {
      return Failure(NoJsonObject);
    }
    var depth := 0;
    var end := -1;
    var i := start;
    while i < |text|
      invariant start <= i <= |text|
      invariant end == -1
      invariant MatchEnd(text, i, depth) == MatchEnd(text, start, 0)
      decreases |text| - i
    {
      if text[i] == '{' {
        depth := depth + 1;
      }
      if text[i] == '}' {
        depth := depth - 1;
        if depth == 0 {
          end := i + 1;
          break;
        }
      }
      i := i + 1;
    }
    if end == -1 {
      return Failure(NoCompleteObject);
    }
    r := Success(text[start..end]);
  }

  /**
   * From a positive depth, the scan stops at the first index where the depth comes back to
   * 0, and every earlier point of the scan is still at a positive depth; when it runs out,
   * the depth stayed positive throughout.
   */
  lemma {:induction false} MatchEndFromPositive(text: string, i: nat, d: int)
    requires i <= |text| && d >= 1
    ensures MatchEnd(text, i, d).Some? ==>
      var e := MatchEnd(text, i, d).value;
      d + Depth(text[i..e]) == 0 && forall j :: i <= j < e ==> d + Depth(text[i..j]) > 0
    ensures MatchEnd(text, i, d).None? ==> forall j :: i <= j <= |text| ==> d + Depth(text[i..j]) > 0
    decreases |text| - i
  {
    if i < |text| {
      var c := text[i];
      var d' := d + Delta(c);
      forall j | i < j <= |text| {
        DepthSliceCons(text, i, j);
      }
      if !(c == '}' && d' == 0) {
        MatchEndFromPositive(text, i + 1, d');
      }
    }
  }

  /** What the scan finds when it starts at an opening brace. */
  lemma MatchEndFromOpen(text: string, start: nat)
    requires start < |text| && text[start] == '{'
    ensures MatchEnd(text, start, 0).Some? ==>
      var e := MatchEnd(text, start, 0).value;
      Depth(text[start..e]) == 0 && forall j :: start < j < e ==> Depth(text[start..j]) > 0
    ensures MatchEnd(text, start, 0).None? <==> forall j :: start < j <= |text| ==> Depth(text[start..j]) > 0
  {
    MatchEndFromPositive(text, start + 1, 1);
    forall j | start < j <= |text| {
      DepthSliceCons(text, start, j);
    }
  }

  /** A balanced object: it opens with `{`, its braces cancel out, and no shorter prefix does. */
  predicate IsBalancedObject(s: string) {
    |s| >= 2 && s[0] == '{' && s[|s| - 1] == '}' && Depth(s) == 0
    && forall k :: 0 < k < |s| ==> Depth(s[..k]) > 0
  }

  /**
   * The extraction, stated without the loop: it fails with `NoJsonObject` exactly when there
   * is no `{`, fails with `NoCompleteObject` exactly when the depth counted from the first
   * `{` never comes back to 0, and otherwise returns the balanced object that starts at the
   * first `{`.
   */
  lemma FirstObjectCharacterization(text: string)
    ensures FirstObject(text) == Failure(NoJsonObject) <==> '{' !in text
    ensures FirstObject(text) == Failure(NoCompleteObject) <==>
      var start := IndexOf(text, '{');
      start >= 0 && forall j :: start < j <= |text| ==> Depth(text[start..j]) > 0
    ensures FirstObject(text).Success? ==>
      var start := IndexOf(text, '{');
      var s := FirstObject(text).value;
      0 <= start && start + |s| <= |text| && '{' !in text[..start]
      && s == text[start..start + |s|] && IsBalancedObject(s)
  {
    var start := IndexOf(text, '{');
    if start >= 0 {
      MatchEndFromOpen(text, start);
      FoundObjectIsBalanced(text, start);
    }
  }

  /** What the scan returns from the first `{` is a balanced object. */
  lemma FoundObjectIsBalanced(text: string, start: nat)
    requires start < |text| && text[start] == '{'
    ensures MatchEnd(text, start, 0).Some? ==> IsBalancedObject(text[start..MatchEnd(text, start, 0).value])
  {
    MatchEndFromOpen(text, start);
    var r := MatchEnd(text, start, 0);
    if r.Some? {
      var s := text[start..r.value];
      forall k | 0 < k < |s| ensures Depth(s[..k]) > 0 {
        assert s[..k] == text[start..start + k];
      }
    }
  }

  /**
   * Junk before the object (without a `{`) and anything after it are ignored: the balanced
   * object is what comes out.
   */
  lemma FirstObjectOfWrapped(junk: string, obj: string, rest: string)
    requires '{' !in junk && IsBalancedObject(obj)
    ensures FirstObject(junk + obj + rest) == Success(obj)
  {
    var text := junk + obj + rest;
    var start, e := |junk|, |junk| + |obj|;
    assert text == junk + ['{'] + (obj[1..] + rest);
    IndexOfAfter(junk, '{', obj[1..] + rest);
    forall j | start <= j <= e ensures text[start..j] == obj[..j - start] {
      WrappedSlice(junk, obj, rest, j - start);
    }
    assert obj[..|obj|] == obj;
    MatchEndFromOpen(text, start);
    assert Depth(text[start..e]) == 0;
    var r := MatchEnd(text, start, 0);
    assert r.Some?;
    assert r.value <= e;
    assert text[start..r.value] == obj[..r.value - start];
  }

  /** The slices of `junk + obj + rest` that start where `obj` does are prefixes of `obj`. */
  lemma WrappedSlice(junk: string, obj: string, rest: string, n: nat)
    requires n <= |obj|
    ensures (junk + obj + rest)[|junk|..|junk| + n] == obj[..n]
  {
    var text := junk + obj + rest;
    forall k | 0 <= k < n ensures text[|junk|..|junk| + n][k] == obj[k] {
      assert text[|junk| + k] == obj[k];
    }
  }

  /** Text after a complete object never changes what is extracted. */
  lemma FirstObjectIgnoresSuffix(text: string, rest: string)
    requires FirstObject(text).Success?
    ensures FirstObject(text + rest) == FirstObject(text)
  {
    var start := IndexOf(text, '{');
    var e := MatchEnd(text, start, 0).value;
    var junk, s, tail := text[..start], text[start..e], text[e..];
    assert FirstObject(text) == Success(s);
    FoundObjectIsBalanced(text, start);
    SplitAround(text, start, e - start);
    Regroup(junk, s, tail, rest);
    FirstObjectOfWrapped(junk, s, tail + rest);
  }

  /** Regrouping a concatenation. */
  lemma Regroup(a: string, b: string, c: string, d: string)
    ensures (a + b + c) + d == a + b + (c + d)
  {
  }

  /** A text is the part before `i`, the `n` characters from `i`, and the rest. */
  lemma SplitAround(text: string, i: nat, n: nat)
    requires i + n <= |text|
    ensures text == text[..i] + text[i..i + n] + text[i + n..]
  {
  }

  /**
   * The scan does not know about JSON strings: a `}` inside a quoted value closes the
   * object, so `{"a":"}"}` yields `{"a":"}`, which is not valid JSON.
   */
  lemma BraceInsideStringClosesObject(key: string, after: string)
    requires '{' !in key && '}' !in key
    ensures FirstObject("{\"" + key + "\":\"}" + after) == Success("{\"" + key + "\":\"}")
  {
    var m := "\"" + key + "\":\"";
    var obj := "{\"" + key + "\":\"}";
    assert obj == ['{'] + m + ['}'];
    assert '{' !in m && '}' !in m;
    BraceFreeInBraces(m);
    assert "{\"" + key + "\":\"}" + after == [] + obj + after;
    FirstObjectOfWrapped([], obj, after);
  }

  /** Text without braces between `{` and `}` is a balanced object. */
  lemma BraceFreeInBraces(m: string)
    requires '{' !in m && '}' !in m
    ensures IsBalancedObject(['{'] + m + ['}'])
  {
    var s := ['{'] + m + ['}'];
    BraceFreeDepth(m);
    DepthAppend(['{'] + m, ['}']);
    DepthAppend(['{'], m);
    forall k | 0 < k < |s| ensures Depth(s[..k]) > 0 {
      assert s[..k] == ['{'] + m[..k - 1];
      assert '{' !in m[..k - 1] && '}' !in m[..k - 1];
      BraceFreeDepth(m[..k - 1]);
      DepthAppend(['{'], m[..k - 1]);
    }
  }

  /** Text without braces has depth 0. */
  lemma BraceFreeDepth(s: string)
    requires '{' !in s && '}' !in s
    ensures Depth(s) == 0
  {
    DepthCountsBraces(s);
  }

  /** Depth adds up over concatenation. */
  lemma {:induction false} DepthAppend(a: string, b: string)
    ensures Depth(a + b) == Depth(a) + Depth(b)
  {
    if a != [] {
      assert (a + b)[0] == a[0] && (a + b)[1..] == a[1..] + b;
      DepthAppend(a[1..], b);
    } else {
      assert a + b == b;
    }
  }

  // ---------------------------------------------------------------- the dashboard

  /** One row of a response's `data` array, with the numeric fields the totals read. */
  datatype Row = Row(amount: real, quantity: real)

  /** A parsed response: its `success` and `status` members and its `data` array. */
  datatype Envelope = Envelope(success: JsValue, status: JsValue, data: seq<Row>)

  /** `x.success || x.status === "success"`. */
  predicate IsOk(e: Envelope) {
    Truthy(e.success) || e.status == Str("success")
  }

  /**
   * `safeParseJSON`: extract the first object and hand it to `parse` (`JSON.parse`, `None`
   * when it throws); every failure becomes "Invalid JSON response from <endpoint>".
   */
  function SafeParseJson(text: string, endpoint: string, parse: string -> Option<Envelope>): (r: Result<Envelope, string>)
    ensures r.Failure? ==> r.error == "Invalid JSON response from " + endpoint
    ensures r.Success? <==> FirstObject(text).Success? && parse(FirstObject(text).value).Some?
    ensures r.Success? ==> r.value == parse(FirstObject(text).value).value
  {
    match FirstObject(text)
    case Failure(_) => Failure("Invalid JSON response from " + endpoint)
    case Success(s) =>
      match parse(s)
      case None => Failure("Invalid JSON response from " + endpoint)
      case Some(e) => Success(e)
  }

  /** The endpoints, in the order the five requests are made. */
  const Endpoints: seq<string> := ["payments", "receives", "products", "expenses", "salaries"]

  /** The first failure of a sequence of results, in order. */
  function FirstError<T>(rs: seq<Result<T, string>>): (r: Option<string>)
    ensures r.None? <==> forall k :: 0 <= k < |rs| ==> rs[k].Success?
    ensures r.Some? ==> exists k :: 0 <= k < |rs| && rs[k] == Failure(r.value)
                                  && forall j :: 0 <= j < k ==> rs[j].Success?
  {
    if rs == [] then None
    else if rs[0].Failure? then Some(rs[0].error)
    else
      var r := FirstError(rs[1..]);
      assert forall k :: 1 <= k < |rs| ==> rs[k] == rs[1..][k - 1];
      r
  }

  datatype Stats = Stats(received: real, paid: real, totalQuantity: real, totalExpenses: real, totalSalaries: real)

  /** What the dashboard ends up showing. */
  datatype Outcome = Shown(stats: Stats) | ShowError(message: string)

  function Amount(r: Row): real { r.amount }
  function Quantity(r: Row): real { r.quantity }

  /** The five bodies run through `safeParseJSON`, each with its own endpoint name. */
  function ParseAll(bodies: seq<Result<string, string>>, parse: string -> Option<Envelope>): (ps: seq<Result<Envelope, string>>)
    requires |bodies| == 5 && forall k :: 0 <= k < 5 ==> bodies[k].Success?
    ensures |ps| == 5
    ensures forall k :: 0 <= k < 5 ==> ps[k] == SafeParseJson(bodies[k].value, Endpoints[k], parse)
  {
    seq(5, k requires 0 <= k < 5 => SafeParseJson(bodies[k].value, Endpoints[k], parse))
  }

  /**
   * `fetchData`: `bodies` are the five response texts (`Failure` when the request itself
   * failed, with its message), in the order of `Endpoints`. Any failure, fetching or
   * parsing, shows "Network error: <message>"; responses that do not all report success
   * show "Failed to fetch data"; otherwise the five totals are shown.
   */
  function FetchData(bodies: seq<Result<string, string>>, parse: string -> Option<Envelope>): (r: Outcome)
    requires |bodies| == 5
    ensures FirstError(bodies).Some? ==> r == ShowError("Network error: " + FirstError(bodies).value)
    ensures r.ShowError? ==>
      r.message == "Failed to fetch data" || (|r.message| >= 15 && r.message[..15] == "Network error: ")
  {
    match FirstError(bodies)
    case Some(m) => ShowError("Network error: " + m)
    case None =>
      var parsed := ParseAll(bodies, parse);
      match FirstError(parsed)
      case Some(m) => ShowError("Network error: " + m)
      case None =>
        if forall k :: 0 <= k < 5 ==> IsOk(parsed[k].value) then
          Shown(Stats(
            received := Money.SumOf(parsed[1].value.data, Amount),
            paid := Money.SumOf(parsed[0].value.data, Amount),
            totalQuantity := Money.SumOf(parsed[2].value.data, Quantity),
            totalExpenses := Money.SumOf(parsed[3].value.data, Amount),
            totalSalaries := Money.SumOf(parsed[4].value.data, Amount)))
        else
          ShowError("Failed to fetch data")
  }

  /**
   * The totals are shown exactly when all five requests succeeded, all five bodies parsed
   * and all five report success; they are then the sums of the `amount` fields (of the
   * `quantity` fields for products).
   */
  lemma FetchDataShown(bodies: seq<Result<string, string>>, parse: string -> Option<Envelope>)
    requires |bodies| == 5
    ensures FetchData(bodies, parse).Shown? <==>
      (forall k :: 0 <= k < 5 ==> bodies[k].Success?) &&
      var ps := ParseAll(bodies, parse);
      forall k :: 0 <= k < 5 ==> ps[k].Success? && IsOk(ps[k].value)
    ensures FetchData(bodies, parse).Shown? ==>
      var st := FetchData(bodies, parse).stats;
      var ps := ParseAll(bodies, parse);
      && st.paid == Money.SumOf(ps[0].value.data, Amount)
      && st.received == Money.SumOf(ps[1].value.data, Amount)
      && st.totalQuantity == Money.SumOf(ps[2].value.data, Quantity)
      && st.totalExpenses == Money.SumOf(ps[3].value.data, Amount)
      && st.totalSalaries == Money.SumOf(ps[4].value.data, Amount)
  {
  }

  /** The first failed request, in request order, is the one whose message is shown. */
  lemma FetchDataNetworkError(bodies: seq<Result<string, string>>, parse: string -> Option<Envelope>, k: nat)
    requires |bodies| == 5 && k < 5 && bodies[k].Failure?
    requires forall j :: 0 <= j < k ==> bodies[j].Success?
    ensures FetchData(bodies, parse) == ShowError("Network error: " + bodies[k].error)
  {
    var r := FirstError(bodies);
    var k' :| 0 <= k' < 5 && bodies[k'] == Failure(r.value) && forall j :: 0 <= j < k' ==> bodies[j].Success?;
    assert k' == k;
  }

  /** A body that cannot be parsed (all requests having succeeded) shows its endpoint's name. */
  lemma FetchDataParseError(bodies: seq<Result<string, string>>, parse: string -> Option<Envelope>, k: nat)
    requires |bodies| == 5 && k < 5 && forall j :: 0 <= j < 5 ==> bodies[j].Success?
    requires FirstObject(bodies[k].value).Failure?
    requires forall j :: 0 <= j < k ==> SafeParseJson(bodies[j].value, Endpoints[j], parse).Success?
    ensures FetchData(bodies, parse) == ShowError("Network error: " + ("Invalid JSON response from " + Endpoints[k]))
  {
    assert FirstError(bodies).None?;
    var ps := ParseAll(bodies, parse);
    assert FirstError(ps) == Some("Invalid JSON response from " + Endpoints[k]) by {
      var r := FirstError(ps);
      assert ps[k].Failure?;
      var k' :| 0 <= k' < 5 && ps[k'] == Failure(r.value) && forall j :: 0 <= j < k' ==> ps[j].Success?;
      assert k' == k;
    }
  }

  /** The balance line: money received minus money paid, spent on expenses and on salaries. */
  function Balance(st: Stats): (b: real)
    ensures b + st.paid + st.totalExpenses + st.totalSalaries == st.received
    ensures st.paid >= 0.0 && st.totalExpenses >= 0.0 && st.totalSalaries >= 0.0 ==> b <= st.received
  {
    st.received - st.paid - st.totalExpenses - st.totalSalaries
  }

  /**
   * The balance is the total received minus the total of every outgoing row (payments,
   * expenses and salaries taken together).
   */
  lemma BalanceIsInMinusOut(receives: seq<Row>, payments: seq<Row>, expenses: seq<Row>, salaries: seq<Row>, quantity: real)
    ensures Balance(Stats(Money.SumOf(receives, Amount), Money.SumOf(payments, Amount), quantity,
                          Money.SumOf(expenses, Amount), Money.SumOf(salaries, Amount)))
         == Money.SumOf(receives, Amount) - Money.SumOf(payments + expenses + salaries, Amount)
  {
    Money.SumOfAppend(payments, expenses, Amount);
    Money.SumOfAppend(payments + expenses, salaries, Amount);
  }
}
