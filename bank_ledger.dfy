/**
 * The bank ledger screen (screens/banksLedger/bank_ledger.js): the credit and debit
 * totals with the sign of the net change, the party filter split, and the request URL.
 */
module BankLedger {
  import opened Wrappers
  import opened JsText
  import Money
  import Query

  /** One ledger line: its `transaction_type` and its (parsed) `amount`. */
  datatype LedgerEntry = LedgerEntry(transactionType: string, amount: real)

  function Amount(e: LedgerEntry): real { e.amount }

  function IsCredit(e: LedgerEntry): (b: bool)
    ensures b <==> e.transactionType == "credit"
    ensures e.transactionType == "Credit" || e.transactionType == "CREDIT" ==> !b
  {
    e.transactionType == "credit"
  }

  /** The entries counted as credits, in order. */
  function Credits(es: seq<LedgerEntry>): (r: seq<LedgerEntry>)
    ensures forall k :: 0 <= k < |r| ==> IsCredit(r[k])
  {
    if es == [] then []
    else Credits(es[..|es| - 1]) + (if IsCredit(es[|es| - 1]) then [es[|es| - 1]] else [])
  }

  /** The entries counted as debits: every entry that is not a credit, whatever its type. */
  function Debits(es: seq<LedgerEntry>): (r: seq<LedgerEntry>)
    ensures forall k :: 0 <= k < |r| ==> !IsCredit(r[k])
  {
    if es == [] then []
    else Debits(es[..|es| - 1]) + (if IsCredit(es[|es| - 1]) then [] else [es[|es| - 1]])
  }

  /** One more entry joins exactly one side. */
  lemma CreditsSnoc(es: seq<LedgerEntry>, e: LedgerEntry)
    ensures IsCredit(e) ==> Credits(es + [e]) == Credits(es) + [e] && Debits(es + [e]) == Debits(es)
    ensures !IsCredit(e) ==> Credits(es + [e]) == Credits(es) && Debits(es + [e]) == Debits(es) + [e]
  {
    assert (es + [e])[..|es|] == es;
    assert Credits(es) + [] == Credits(es);
    assert Debits(es) + [] == Debits(es);
  }

  /** Credits and debits split the ledger: each entry lands on exactly one side. */
  lemma {:induction false} CreditsDebitsPartition(es: seq<LedgerEntry>)
    ensures multiset(Credits(es)) + multiset(Debits(es)) == multiset(es)
  {
    if es != [] {
      var init, last := es[..|es| - 1], es[|es| - 1];
      assert es == init + [last];
      CreditsDebitsPartition(init);
      CreditsSnoc(init, last);
    }
  }

  /** The credit total and the debit total add up to the total of all amounts. */
  lemma {:induction false} CreditsDebitsSum(es: seq<LedgerEntry>)
    ensures Money.SumOf(Credits(es), Amount) + Money.SumOf(Debits(es), Amount) == Money.SumOf(es, Amount)
  {
    if es != [] {
      var init, last := es[..|es| - 1], es[|es| - 1];
      assert es == init + [last];
      CreditsDebitsSum(init);
      TotalsSnoc(init, last);
      Money.SumOfSnoc(init, last, Amount);
    }
  }

  /** One more entry adds its amount to exactly one of the two totals. */
  lemma TotalsSnoc(es: seq<LedgerEntry>, e: LedgerEntry)
    ensures Money.SumOf(Credits(es + [e]), Amount)
      == Money.SumOf(Credits(es), Amount) + (if IsCredit(e) then e.amount else 0.0)
    ensures Money.SumOf(Debits(es + [e]), Amount)
      == Money.SumOf(Debits(es), Amount) + (if IsCredit(e) then 0.0 else e.amount)
  {
    CreditsSnoc(es, e);
    Money.SumOfSnoc(Credits(es), e, Amount);
    Money.SumOfSnoc(Debits(es), e, Amount);
  }

  /** `TotalsSnoc` for the prefixes a loop over `es` goes through. */
  lemma TotalsStep(es: seq<LedgerEntry>, i: int)
    requires 0 <= i < |es|
    ensures Money.SumOf(Credits(es[..i + 1]), Amount)
      == Money.SumOf(Credits(es[..i]), Amount) + (if IsCredit(es[i]) then es[i].amount else 0.0)
    ensures Money.SumOf(Debits(es[..i + 1]), Amount)
      == Money.SumOf(Debits(es[..i]), Amount) + (if IsCredit(es[i]) then 0.0 else es[i].amount)
  {
    assert es[..i + 1] == es[..i] + [es[i]];
    TotalsSnoc(es[..i], es[i]);
  }

  /** What `updateTotals` writes into the summary. */
  datatype Totals = Totals(credits: real, debits: real, netShown: real, netClass: string)

  /** `updateTotals`: one pass over the entries, then the net change and its colour. */
  method UpdateTotals(entries: seq<LedgerEntry>) returns (t: Totals)
    ensures t.credits == Money.SumOf(Credits(entries), Amount)
    ensures t.debits == Money.SumOf(Debits(entries), Amount)
    ensures t.netShown == Money.Abs(t.credits - t.debits)
    ensures t.netClass == "text-success" <==> t.credits - t.debits >= 0.0
    ensures t.netClass == "text-danger" <==> t.credits - t.debits < 0.0
  {
    var totalCredits := 0.0;
    var totalDebits := 0.0;
    var i := 0;
    while i < |entries|
      invariant 0 <= i <= |entries|
      invariant totalCredits == Money.SumOf(Credits(entries[..i]), Amount)
      invariant totalDebits == Money.SumOf(Debits(entries[..i]), Amount)
    {
      TotalsStep(entries, i);
      if IsCredit(entries[i]) {
        totalCredits := totalCredits + entries[i].amount;
      } else {
        totalDebits := totalDebits + entries[i].amount;
      }
      i := i + 1;
    }
    assert entries[..|entries|] == entries;
    var netChange := totalCredits - totalDebits;
    t := Totals(totalCredits, totalDebits, Money.Abs(netChange),
                if netChange >= 0.0 then "text-success" else "text-danger");
  }

  /** The two totals shown add up to the sum of every amount in the ledger. */
  lemma TotalsCoverLedger(entries: seq<LedgerEntry>, t: Totals)
    requires t.credits == Money.SumOf(Credits(entries), Amount)
    requires t.debits == Money.SumOf(Debits(entries), Amount)
    ensures t.credits + t.debits == Money.SumOf(entries, Amount)
  {
    CreditsDebitsSum(entries);
  }

  // ---------------------------------------------------------------- filters

  /** The `filters` object: a member is `None` when it was never set (or set to `undefined`). */
  datatype LedgerFilters = LedgerFilters(partyType: Option<string>, partyId: Option<string>,
                                         fromDate: Option<string>, toDate: Option<string>)

  /** `handleFilterSubmit`: the form's values, the party value split on `-` into type and id. */
  method HandleFilterSubmit(partyFilter: string, fromDate: string, toDate: string) returns (filters: LedgerFilters)
    ensures partyFilter == "" ==> filters.partyType == None && filters.partyId == None
    ensures partyFilter != "" ==>
      var parts := Split(partyFilter, '-');
      filters.partyType == Some(parts[0])
      && filters.partyId == (if |parts| >= 2 then Some(parts[1]) else None)
    ensures filters.fromDate == (if fromDate == "" then None else Some(fromDate))
    ensures filters.toDate == (if toDate == "" then None else Some(toDate))
  {
    filters := LedgerFilters(None, None, None, None);
    if partyFilter != "" {
      var parts := Split(partyFilter, '-');
      filters := filters.(partyType := Some(parts[0]));
      filters := filters.(partyId := if |parts| >= 2 then Some(parts[1]) else None);
    }
    if fromDate != "" {
      filters := filters.(fromDate := Some(fromDate));
    }
    if toDate != "" {
      filters := filters.(toDate := Some(toDate));
    }
  }

  /**
   * A party option `<type>-<id>` (as the filter list builds them, `client-7`, `vendor-3`)
   * splits back into its type and id; anything after a second `-` is dropped.
   */
  lemma PartyFilterSplit(kind: string, id: string, more: seq<string>)
    requires '-' !in kind && '-' !in id && kind != ""
    requires forall k :: 0 <= k < |more| ==> '-' !in more[k]
    ensures var parts := Split(Join([kind, id] + more, '-'), '-');
      |parts| >= 2 && parts[0] == kind && parts[1] == id
  {
    var ps := [kind, id] + more;
    assert forall k :: 0 <= k < |ps| ==> '-' !in ps[k];
    SplitJoin(ps, '-');
  }

  /** Truthiness of an optional string member. */
  predicate Set(o: Option<string>) { o.Some? && o.value != "" }

  const BankLedgerUrl := "https://oftbrothers.com/backend/api/bank_ledger.php"

  /** The query parameters, in the order `fetchBankLedger` appends them. */
  function LedgerParams(bankId: string, f: LedgerFilters): (ps: seq<Query.Param>)
    ensures |ps| >= 1 && ps[0] == Query.Param("bank_id", bankId)
  {
    [Query.Param("bank_id", bankId)]
    + (if Set(f.partyType) && Set(f.partyId)
       then [Query.Param("party_type", f.partyType.value), Query.Param("party_id", f.partyId.value)] else [])
    + (if Set(f.fromDate) then [Query.Param("from_date", f.fromDate.value)] else [])
    + (if Set(f.toDate) then [Query.Param("to_date", f.toDate.value)] else [])
  }

  /** `fetchBankLedger`'s URL, grown one `&key=value` at a time. */
  method LedgerUrl(bankId: string, filters: LedgerFilters) returns (url: string)
    ensures url == Query.WithQuery(BankLedgerUrl, LedgerParams(bankId, filters))
  {
    var ps := [Query.Param("bank_id", bankId)];
    Query.RenderSingle("bank_id", "bank_id=", bankId);
    url := BankLedgerUrl + "?" + "bank_id=" + bankId;
    url, ps := AppendParty(url, ps, filters.partyType, filters.partyId);
    url, ps := AppendIfSet(url, ps, "from_date", "&from_date=", filters.fromDate);
    url, ps := AppendIfSet(url, ps, "to_date", "&to_date=", filters.toDate);
  }

  /** The party pair, appended only when both halves are set. */
  method AppendParty(url: string, ps: seq<Query.Param>, partyType: Option<string>, partyId: Option<string>)
    returns (url': string, ps': seq<Query.Param>)
    requires |ps| >= 1 && url == BankLedgerUrl + "?" + Query.Render(ps)
    ensures ps' == ps + (if Set(partyType) && Set(partyId)
      then [Query.Param("party_type", partyType.value), Query.Param("party_id", partyId.value)] else [])
    ensures |ps'| >= 1 && url' == BankLedgerUrl + "?" + Query.Render(ps')
  {
    url', ps' := url, ps;
    if Set(partyType) && Set(partyId) {
      var t, id := partyType.value, partyId.value;
      AppendParam(url', ps', "party_type", "&party_type=", t);
      url', ps' := url' + "&party_type=" + t, ps' + [Query.Param("party_type", t)];
      AppendParam(url', ps', "party_id", "&party_id=", id);
      url', ps' := url' + "&party_id=" + id, ps' + [Query.Param("party_id", id)];
    } else {
      assert ps + [] == ps;
    }
  }

  /** `if (value) url += `&key=${value}``. */
  method AppendIfSet(url: string, ps: seq<Query.Param>, key: string, text: string, value: Option<string>)
    returns (url': string, ps': seq<Query.Param>)
    requires |ps| >= 1 && url == BankLedgerUrl + "?" + Query.Render(ps)
    requires text == "&" + key + "="
    ensures ps' == ps + (if Set(value) then [Query.Param(key, value.value)] else [])
    ensures |ps'| >= 1 && url' == BankLedgerUrl + "?" + Query.Render(ps')
  {
    url', ps' := url, ps;
    if Set(value) {
      AppendParam(url, ps, key, text, value.value);
      url', ps' := url + text + value.value, ps + [Query.Param(key, value.value)];
    } else {
      assert ps + [] == ps;
    }
  }

  /** Appending `&key=value` to the URL of `ps` gives the URL of `ps` with that parameter. */
  lemma AppendParam(url: string, ps: seq<Query.Param>, key: string, text: string, value: string)
    requires |ps| >= 1 && url == BankLedgerUrl + "?" + Query.Render(ps)
    requires text == "&" + key + "="
    ensures url + text + value == BankLedgerUrl + "?" + Query.Render(ps + [Query.Param(key, value)])
  {
    Query.RenderSnoc(ps, Query.Param(key, value));
  }

  /**
   * Which parameters the request carries: always `bank_id` first; the party pair only
   * when both halves are set; each date on its own.
   */
  lemma LedgerParamKeys(bankId: string, f: LedgerFilters)
    ensures Query.Keys(LedgerParams(bankId, f)) ==
      ["bank_id"]
      + (if Set(f.partyType) && Set(f.partyId) then ["party_type", "party_id"] else [])
      + (if Set(f.fromDate) then ["from_date"] else [])
      + (if Set(f.toDate) then ["to_date"] else [])
  {
  }

  /**
   * The server reads back exactly the filters that were set, when no value carries a `&`:
   * the query of the URL parses to the parameter list.
   */
  lemma LedgerQueryRoundTrip(bankId: string, f: LedgerFilters)
    requires Query.Unambiguous(LedgerParams(bankId, f))
    ensures Query.Parse(Query.Render(LedgerParams(bankId, f))) == LedgerParams(bankId, f)
  {
    Query.ParseRender(LedgerParams(bankId, f));
  }
}
