/**
 * The expense screen (screens/expense/expense.js): expenses grouped by category name with
 * a running total per group, the groups ordered by total (highest first), one summary row
 * per category, and the add form with its required fields.
 */
module Expense {
  import opened Wrappers
  import opened JsText
  import opened JsValues
  import Money

  /** One expense as the list returns it (its amount already parsed). */
  datatype Expense = Expense(id: int, categoryName: string, amount: real)

  function Amount(e: Expense): real { e.amount }

  /** One category's entry in the grouping accumulator. */
  datatype Group = Group(name: string, expenses: seq<Expense>, total: real)

  // ---------------------------------------------------------------- specification

  function CategoryNames(xs: seq<Expense>): (ns: seq<string>)
    ensures |ns| == |xs| && forall k :: 0 <= k < |xs| ==> ns[k] == xs[k].categoryName
  {
    seq(|xs|, k requires 0 <= k < |xs| => xs[k].categoryName)
  }

  function Names(gs: seq<Group>): (ns: seq<string>)
    ensures |ns| == |gs| && forall k :: 0 <= k < |gs| ==> ns[k] == gs[k].name
  {
    seq(|gs|, k requires 0 <= k < |gs| => gs[k].name)
  }

  predicate Distinct(ns: seq<string>) {
    forall i, j :: 0 <= i < j < |ns| ==> ns[i] != ns[j]
  }

  /** Each name once, in the order of its first appearance (the key order of a JS object). */
  function FirstAppearances(ns: seq<string>): seq<string> {
    if ns == [] then []
    else
      var init, last := ns[..|ns| - 1], ns[|ns| - 1];
      var p := FirstAppearances(init);
      if last in init then p else p + [last]
  }

  /** The first appearances are distinct and are exactly the names of the list. */
  lemma {:induction false} FirstAppearancesSpec(ns: seq<string>)
    ensures Distinct(FirstAppearances(ns))
    ensures forall k :: 0 <= k < |FirstAppearances(ns)| ==> FirstAppearances(ns)[k] in ns
    ensures forall k :: 0 <= k < |ns| ==> ns[k] in FirstAppearances(ns)
  {
    if ns != [] {
      var init, last := ns[..|ns| - 1], ns[|ns| - 1];
      assert ns == init + [last];
      FirstAppearancesSpec(init);
      var p := FirstAppearances(init);
      if last !in init {
        forall i, j | 0 <= i < j < |p| + 1 ensures (p + [last])[i] != (p + [last])[j] {
          if j == |p| {
            assert p[i] in init;
          }
        }
      }
      forall k | 0 <= k < |ns| ensures ns[k] in FirstAppearances(ns) {
        if k < |init| {
          assert init[k] == ns[k];
        }
      }
    }
  }

  /** The expenses of one category, in input order. */
  function InCategory(xs: seq<Expense>, name: string): (r: seq<Expense>)
    ensures forall k :: 0 <= k < |r| ==> r[k].categoryName == name
    ensures name !in CategoryNames(xs) ==> r == []
  {
    if xs == [] then []
    else
      var init, last := xs[..|xs| - 1], xs[|xs| - 1];
      assert CategoryNames(xs) == CategoryNames(init) + [last.categoryName];
      InCategory(init, name) + (if last.categoryName == name then [last] else [])
  }

  /** An expense is in a category's list exactly when it is in the list and carries that name. */
  lemma {:induction false} InCategoryMembers(xs: seq<Expense>, name: string, e: Expense)
    ensures e in InCategory(xs, name) <==> e in xs && e.categoryName == name
  {
    if xs != [] {
      var init, last := xs[..|xs| - 1], xs[|xs| - 1];
      assert xs == init + [last];
      InCategoryMembers(init, name, e);
    }
  }

  lemma InCategorySnoc(xs: seq<Expense>, e: Expense, name: string)
    ensures e.categoryName == name ==> InCategory(xs + [e], name) == InCategory(xs, name) + [e]
    ensures e.categoryName != name ==> InCategory(xs + [e], name) == InCategory(xs, name)
  {
    assert (xs + [e])[..|xs|] == xs;
    assert InCategory(xs, name) + [] == InCategory(xs, name);
  }

  /**
   * `gs` is the grouping of `xs`: one group per distinct category name, in order of first
   * appearance, holding exactly that category's expenses in input order, with their sum.
   */
  predicate IsGrouping(xs: seq<Expense>, gs: seq<Group>) {
    Names(gs) == FirstAppearances(CategoryNames(xs))
    && (forall k :: 0 <= k < |gs| ==> gs[k].expenses == InCategory(xs, gs[k].name))
    && (forall k :: 0 <= k < |gs| ==> gs[k].total == Money.SumOf(gs[k].expenses, Amount))
  }

  // ---------------------------------------------------------------- grouping

  /** `acc[name]`: the index of the group with that name, or -1 when there is none yet. */
  function GroupIndex(gs: seq<Group>, name: string): (r: int)
    ensures -1 <= r < |gs|
    ensures r >= 0 ==> gs[r].name == name
    ensures r == -1 ==> forall k :: 0 <= k < |gs| ==> gs[k].name != name
  {
    if gs == [] then -1
    else if gs[|gs| - 1].name == name then |gs| - 1
    else GroupIndex(gs[..|gs| - 1], name)
  }

  /** The accumulator with a (still empty) group for `name`, created on first sight. */
  function WithGroup(gs: seq<Group>, name: string): (ws: seq<Group>)
    ensures GroupIndex(ws, name) >= 0
  {
    if GroupIndex(gs, name) == -1 then gs + [Group(name, [], 0.0)] else gs
  }

  /** One step of the `reduce`: push the expense onto its group and add its amount. */
  function Step(gs: seq<Group>, exp: Expense): seq<Group> {
    var ws := WithGroup(gs, exp.categoryName);
    var k := GroupIndex(ws, exp.categoryName);
    ws[k := ws[k].(expenses := ws[k].expenses + [exp], total := ws[k].total + exp.amount)]
  }

  lemma FirstAppearancesSnoc(ns: seq<string>, n: string)
    ensures n in ns ==> FirstAppearances(ns + [n]) == FirstAppearances(ns)
    ensures n !in ns ==> FirstAppearances(ns + [n]) == FirstAppearances(ns) + [n]
  {
    assert (ns + [n])[..|ns|] == ns;
  }

  /** The names after one step: a new name is appended, a known one changes nothing. */
  lemma StepNames(gs: seq<Group>, exp: Expense)
    ensures GroupIndex(gs, exp.categoryName) == -1 ==> Names(Step(gs, exp)) == Names(gs) + [exp.categoryName]
    ensures GroupIndex(gs, exp.categoryName) >= 0 ==> Names(Step(gs, exp)) == Names(gs)
  {
  }

  /** A name is already a group exactly when it has already been seen in the expenses. */
  lemma SeenIffGrouped(prefix: seq<Expense>, gs: seq<Group>, name: string)
    requires Names(gs) == FirstAppearances(CategoryNames(prefix))
    ensures name in CategoryNames(prefix) <==> GroupIndex(gs, name) >= 0
  {
    var ns, fa := CategoryNames(prefix), FirstAppearances(CategoryNames(prefix));
    FirstAppearancesSpec(ns);
    if name in ns {
      var i :| 0 <= i < |ns| && ns[i] == name;
      assert ns[i] in fa;
      var j :| 0 <= j < |fa| && fa[j] == name;
      assert gs[j].name == name;
    }
    if GroupIndex(gs, name) >= 0 {
      var j := GroupIndex(gs, name);
      assert fa[j] == name;
    }
  }

  /** The names after one step are the first appearances of the names seen so far. */
  lemma StepKeepsNames(prefix: seq<Expense>, gs: seq<Group>, exp: Expense)
    requires Names(gs) == FirstAppearances(CategoryNames(prefix))
    ensures Names(Step(gs, exp)) == FirstAppearances(CategoryNames(prefix + [exp]))
  {
    var name := exp.categoryName;
    assert CategoryNames(prefix + [exp]) == CategoryNames(prefix) + [name];
    FirstAppearancesSnoc(CategoryNames(prefix), name);
    SeenIffGrouped(prefix, gs, name);
    StepNames(gs, exp);
  }

  /** The group at `j` after one step holds that category's expenses so far, and their sum. */
  lemma StepGroupContents(prefix: seq<Expense>, gs: seq<Group>, exp: Expense, j: nat)
    requires Distinct(Names(gs))
    requires forall k :: 0 <= k < |gs| ==> gs[k].expenses == InCategory(prefix, gs[k].name)
    requires forall k :: 0 <= k < |gs| ==> gs[k].total == Money.SumOf(gs[k].expenses, Amount)
    requires GroupIndex(gs, exp.categoryName) == -1 ==> InCategory(prefix, exp.categoryName) == []
    requires j < |Step(gs, exp)|
    ensures Step(gs, exp)[j].expenses == InCategory(prefix + [exp], Step(gs, exp)[j].name)
    ensures Step(gs, exp)[j].total == Money.SumOf(Step(gs, exp)[j].expenses, Amount)
  {
    var name := exp.categoryName;
    var r := Step(gs, exp);
    var i := GroupIndex(gs, name);
    if i == -1 {
      var ws := gs + [Group(name, [], 0.0)];
      assert ws[..|gs|] == gs;
      assert GroupIndex(ws, name) == |gs|;
      if j == |gs| {
        assert r[j] == Group(name, [exp], exp.amount);
        InCategorySnoc(prefix, exp, name);
        Money.SumOfSnoc([], exp, Amount);
      } else {
        assert r[j] == gs[j] && gs[j].name != name;
        InCategorySnoc(prefix, exp, gs[j].name);
      }
    } else {
      if j == i {
        assert r[j] == gs[i].(expenses := gs[i].expenses + [exp], total := gs[i].total + exp.amount);
        InCategorySnoc(prefix, exp, name);
        Money.SumOfSnoc(gs[i].expenses, exp, Amount);
      } else {
        assert Names(gs)[j] != Names(gs)[i];
        assert r[j] == gs[j] && gs[j].name != name;
        InCategorySnoc(prefix, exp, gs[j].name);
      }
    }
  }

  /** One step of the `reduce` keeps the accumulator a grouping of the expenses seen so far. */
  lemma StepKeepsGrouping(prefix: seq<Expense>, gs: seq<Group>, exp: Expense)
    requires IsGrouping(prefix, gs)
    ensures IsGrouping(prefix + [exp], Step(gs, exp))
  {
    var r := Step(gs, exp);
    FirstAppearancesSpec(CategoryNames(prefix));
    StepKeepsNames(prefix, gs, exp);
    SeenIffGrouped(prefix, gs, exp.categoryName);
    forall j | 0 <= j < |r|
      ensures r[j].expenses == InCategory(prefix + [exp], r[j].name)
      ensures r[j].total == Money.SumOf(r[j].expenses, Amount)
    {
      StepGroupContents(prefix, gs, exp, j);
    }
  }

  /** The step for the next expense of a list extends the grouping of its prefix by one. */
  lemma GroupingExtends(xs: seq<Expense>, i: nat, gs: seq<Group>)
    requires i < |xs| && IsGrouping(xs[..i], gs)
    ensures IsGrouping(xs[..i + 1], Step(gs, xs[i]))
  {
    assert xs[..i + 1] == xs[..i] + [xs[i]];
    StepKeepsGrouping(xs[..i], gs, xs[i]);
  }

  /** `Step` unfolded: a new group holding just the expense, or the known group extended. */
  lemma StepCases(gs: seq<Group>, exp: Expense)
    ensures GroupIndex(gs, exp.categoryName) == -1 ==>
      Step(gs, exp) == gs + [Group(exp.categoryName, [exp], exp.amount)]
    ensures GroupIndex(gs, exp.categoryName) >= 0 ==>
      var k := GroupIndex(gs, exp.categoryName);
      Step(gs, exp) == gs[k := gs[k].(expenses := gs[k].expenses + [exp], total := gs[k].total + exp.amount)]
  {
    var name := exp.categoryName;
    if GroupIndex(gs, name) == -1 {
      var ws := gs + [Group(name, [], 0.0)];
      assert ws[..|gs|] == gs;
      assert GroupIndex(ws, name) == |gs|;
      assert [] + [exp] == [exp];
      assert ws[|gs| := Group(name, [exp], exp.amount)] == gs + [Group(name, [exp], exp.amount)];
    }
  }

  /** The body of the `reduce`: create the group on first sight, push the expense, add to the total. */
  method AddToGroup(groups: seq<Group>, exp: Expense) returns (r: seq<Group>)
    ensures r == Step(groups, exp)
  {
    StepCases(groups, exp);
    r := groups;
    var k := GroupIndex(r, exp.categoryName);
    if k == -1 {
      r := r + [Group(exp.categoryName, [], 0.0)];
      k := |r| - 1;
      assert [] + [exp] == [exp];
    }
    var g := r[k];
    r := r[k := g.(expenses := g.expenses + [exp], total := g.total + exp.amount)];
  }

  /** The `reduce` of `renderTable`: the expenses grouped by category name. */
  method GroupByCategory(expenses: seq<Expense>) returns (groups: seq<Group>)
    ensures IsGrouping(expenses, groups)
  {
    groups := [];
    var i := 0;
    while i < |expenses|
      invariant 0 <= i <= |expenses|
      invariant IsGrouping(expenses[..i], groups)
    {
      GroupingExtends(expenses, i, groups);
      groups := AddToGroup(groups, expenses[i]);
      i := i + 1;
    }
    assert expenses[..|expenses|] == expenses;
  }

  /** Every expense is in exactly one group: the one named after its category. */
  lemma EachExpenseInOneGroup(xs: seq<Expense>, gs: seq<Group>, e: Expense)
    requires IsGrouping(xs, gs) && e in xs
    ensures exists k :: 0 <= k < |gs| && gs[k].name == e.categoryName && e in gs[k].expenses
    ensures forall i, j :: 0 <= i < |gs| && 0 <= j < |gs| && e in gs[i].expenses && e in gs[j].expenses ==> i == j
  {
    var n := |xs| - 1;
    var i :| 0 <= i < |xs| && xs[i] == e;
    FirstAppearancesSpec(CategoryNames(xs));
    assert CategoryNames(xs)[i] == e.categoryName;
    assert e.categoryName in Names(gs);
    var k :| 0 <= k < |gs| && Names(gs)[k] == e.categoryName;
    InCategoryContains(xs, i);
    assert Distinct(Names(gs));
  }

  /** An expense is in the list of its own category. */
  lemma {:induction false} InCategoryContains(xs: seq<Expense>, i: nat)
    requires i < |xs|
    ensures xs[i] in InCategory(xs, xs[i].categoryName)
  {
    var init := xs[..|xs| - 1];
    if i < |xs| - 1 {
      InCategoryContains(init, i);
      assert init[i] == xs[i];
    }
  }

  // ---------------------------------------------------------------- ordering

  /** Totals never increase along the sequence. */
  predicate SortedByTotalDesc(gs: seq<Group>) {
    forall i, j :: 0 <= i < j < |gs| ==> gs[i].total >= gs[j].total
  }

  /** Each total is at least the next one. */
  predicate StepwiseDesc(gs: seq<Group>) {
    forall i :: 0 <= i < |gs| - 1 ==> gs[i].total >= gs[i + 1].total
  }

  /**
   * Places `g` before the first group whose total is not larger than its own, so that it
   * comes first among the groups of equal total.
   */
  function Insert(g: Group, gs: seq<Group>): (r: seq<Group>)
    requires StepwiseDesc(gs)
    ensures StepwiseDesc(r)
    ensures multiset(r) == multiset(gs) + multiset{g}
    ensures r[0] == g || (gs != [] && r[0] == gs[0])
  {
    if gs == [] || g.total >= gs[0].total then [g] + gs
    else
      assert gs == [gs[0]] + gs[1..];
      [gs[0]] + Insert(g, gs[1..])
  }

  /**
   * `sort((a, b) => b.total - a.total)`: a stable sort on descending totals (an earlier
   * group stays first among equal totals).
   */
  function SortByTotalDesc(gs: seq<Group>): (r: seq<Group>)
    ensures StepwiseDesc(r)
    ensures multiset(r) == multiset(gs)
  {
    if gs == [] then []
    else
      assert gs == [gs[0]] + gs[1..];
      Insert(gs[0], SortByTotalDesc(gs[1..]))
  }

  /** Stepwise order is the full order: every total is at least every later one. */
  lemma {:induction false} StepwiseIsSorted(gs: seq<Group>)
    requires StepwiseDesc(gs)
    ensures SortedByTotalDesc(gs)
  {
    if |gs| > 1 {
      StepwiseIsSorted(gs[1..]);
      forall i, j | 0 <= i < j < |gs| ensures gs[i].total >= gs[j].total {
        if i > 0 {
          assert gs[1..][i - 1] == gs[i] && gs[1..][j - 1] == gs[j];
        } else if j > 1 {
          assert gs[1..][0] == gs[1] && gs[1..][j - 1] == gs[j];
        }
      }
    }
  }

  /** Names with one more in front are distinct exactly when the rest are and the new one is not among them. */
  lemma DistinctCons(n: string, ns: seq<string>)
    ensures Distinct([n] + ns) <==> Distinct(ns) && n !in ns
  {
    var m := [n] + ns;
    if Distinct(ns) && n !in ns {
      forall i, j | 0 <= i < j < |m| ensures m[i] != m[j] {
        assert m[j] == ns[j - 1];
        if i > 0 {
          assert m[i] == ns[i - 1];
        }
      }
    }
    if Distinct(m) {
      forall i, j | 0 <= i < j < |ns| ensures ns[i] != ns[j] {
        assert m[i + 1] == ns[i] && m[j + 1] == ns[j];
      }
      forall j | 0 <= j < |ns| ensures ns[j] != n {
        assert m[0] == n && m[j + 1] == ns[j];
      }
    }
  }

  /** The names after an insertion: the new name first, or the first name kept in front. */
  lemma InsertNames(g: Group, gs: seq<Group>)
    requires StepwiseDesc(gs)
    ensures gs == [] || g.total >= gs[0].total ==> Names(Insert(g, gs)) == [g.name] + Names(gs)
    ensures gs != [] && g.total < gs[0].total ==>
      StepwiseDesc(gs[1..]) && Names(Insert(g, gs)) == [gs[0].name] + Names(Insert(g, gs[1..]))
  {
    if gs == [] || g.total >= gs[0].total {
      NamesCons(g, gs);
    } else {
      NamesCons(gs[0], Insert(g, gs[1..]));
    }
  }

  /** The names of a sequence with one more group in front. */
  lemma NamesCons(g: Group, gs: seq<Group>)
    ensures Names([g] + gs) == [g.name] + Names(gs)
  {
    var a, b := Names([g] + gs), [g.name] + Names(gs);
    forall k | 0 <= k < |a| ensures a[k] == b[k] {
      if k > 0 {
        assert ([g] + gs)[k] == gs[k - 1];
      }
    }
  }

  /** Inserting a group under a new name adds that name once and keeps the names distinct. */
  lemma {:induction false} InsertKeepsNamesDistinct(g: Group, gs: seq<Group>)
    requires StepwiseDesc(gs) && Distinct(Names(gs)) && g.name !in Names(gs)
    ensures Distinct(Names(Insert(g, gs)))
    ensures multiset(Names(Insert(g, gs))) == multiset(Names(gs)) + multiset{g.name}
  {
    if gs == [] || g.total >= gs[0].total {
      InsertInFront(g, gs);
    } else {
      var rest := gs[1..];
      NamesOfRest(gs);
      InsertKeepsNamesDistinct(g, rest);
      InsertBehind(g, gs);
    }
  }

  /** The case of `InsertKeepsNamesDistinct` where `g` goes in front. */
  lemma InsertInFront(g: Group, gs: seq<Group>)
    requires StepwiseDesc(gs) && Distinct(Names(gs)) && g.name !in Names(gs)
    requires gs == [] || g.total >= gs[0].total
    ensures Distinct(Names(Insert(g, gs)))
    ensures multiset(Names(Insert(g, gs))) == multiset(Names(gs)) + multiset{g.name}
  {
    assert Insert(g, gs) == [g] + gs;
    NamesCons(g, gs);
    DistinctCons(g.name, Names(gs));
  }

  /** The names after the first group: distinct, and without the first name. */
  lemma NamesOfRest(gs: seq<Group>)
    requires gs != [] && Distinct(Names(gs))
    ensures Names(gs) == [gs[0].name] + Names(gs[1..])
    ensures Distinct(Names(gs[1..])) && gs[0].name !in Names(gs[1..])
  {
    assert gs == [gs[0]] + gs[1..];
    NamesCons(gs[0], gs[1..]);
    DistinctCons(gs[0].name, Names(gs[1..]));
  }

  /** The case of `InsertKeepsNamesDistinct` where `g` goes behind the first group. */
  lemma InsertBehind(g: Group, gs: seq<Group>)
    requires StepwiseDesc(gs) && gs != [] && g.total < gs[0].total
    requires Names(gs) == [gs[0].name] + Names(gs[1..])
    requires g.name !in Names(gs) && gs[0].name !in Names(gs[1..])
    requires StepwiseDesc(gs[1..])
    requires Distinct(Names(Insert(g, gs[1..])))
    requires multiset(Names(Insert(g, gs[1..]))) == multiset(Names(gs[1..])) + multiset{g.name}
    ensures Distinct(Names(Insert(g, gs)))
    ensures multiset(Names(Insert(g, gs))) == multiset(Names(gs)) + multiset{g.name}
  {
    var rest := gs[1..];
    assert Insert(g, gs) == [gs[0]] + Insert(g, rest);
    NamesCons(gs[0], Insert(g, rest));
    ConsKeepsDistinct(gs[0].name, Names(Insert(g, rest)), Names(rest), g.name);
  }

  /** Putting a name that is neither `x` nor in `rest` in front keeps the names distinct. */
  lemma ConsKeepsDistinct(n: string, ns: seq<string>, rest: seq<string>, x: string)
    requires Distinct(ns) && multiset(ns) == multiset(rest) + multiset{x}
    requires n != x && n !in rest
    ensures Distinct([n] + ns)
    ensures multiset([n] + ns) == multiset([n] + rest) + multiset{x}
  {
    assert n !in multiset(rest);
    assert n !in multiset(ns);
    DistinctCons(n, ns);
  }

  /** Sorting keeps the names, each as often as before, and so keeps distinct names distinct. */
  lemma {:induction false} SortKeepsNamesDistinct(gs: seq<Group>)
    requires Distinct(Names(gs))
    ensures Distinct(Names(SortByTotalDesc(gs)))
    ensures multiset(Names(SortByTotalDesc(gs))) == multiset(Names(gs))
  {
    if gs != [] {
      var rest := gs[1..];
      assert Names(gs) == [gs[0].name] + Names(rest);
      DistinctCons(gs[0].name, Names(rest));
      SortKeepsNamesDistinct(rest);
      assert gs[0].name !in multiset(Names(SortByTotalDesc(rest)));
      InsertKeepsNamesDistinct(gs[0], SortByTotalDesc(rest));
    }
  }

  // ---------------------------------------------------------------- the table

  /** What `renderTable` puts in the table body. */
  datatype TableView = NoExpensesRow | SummaryRows(rows: seq<(string, real)>)

  /** `renderTable`: the empty-list row, or one summary row (category, total) per group, largest first. */
  method RenderTable(expenses: seq<Expense>) returns (view: TableView)
    ensures expenses == [] <==> view == NoExpensesRow
    ensures view.SummaryRows? ==> exists gs ::
      IsGrouping(expenses, gs)
      && var sorted := SortByTotalDesc(gs);
      |view.rows| == |sorted| && forall k :: 0 <= k < |sorted| ==> view.rows[k] == (sorted[k].name, sorted[k].total)
  {
    if |expenses| == 0 {
      return NoExpensesRow;
    }
    var groups := GroupByCategory(expenses);
    var sorted := SortByTotalDesc(groups);
    var rows := seq(|sorted|, k requires 0 <= k < |sorted| => (sorted[k].name, sorted[k].total));
    view := SummaryRows(rows);
  }

  /**
   * What the summary rows say: one row per distinct category of the list, totals never
   * increasing, each total the sum of that category's amounts.
   */
  lemma SummaryRowsMeaning(xs: seq<Expense>, gs: seq<Group>)
    requires IsGrouping(xs, gs)
    ensures var sorted := SortByTotalDesc(gs);
      && |sorted| == |FirstAppearances(CategoryNames(xs))|
      && (forall x :: x in Names(sorted) <==> x in CategoryNames(xs))
      && Distinct(Names(sorted))
      && SortedByTotalDesc(sorted)
      && forall k :: 0 <= k < |sorted| ==>
           sorted[k].total == Money.SumOf(InCategory(xs, sorted[k].name), Amount)
  {
    var sorted := SortByTotalDesc(gs);
    FirstAppearancesSpec(CategoryNames(xs));
    assert |sorted| == |gs| by {
      assert |multiset(sorted)| == |multiset(gs)|;
    }
    SortKeepsNamesDistinct(gs);
    StepwiseIsSorted(sorted);
    forall x ensures x in Names(sorted) <==> x in CategoryNames(xs) {
      assert x in Names(sorted) <==> x in multiset(Names(sorted));
      assert x in Names(gs) <==> x in CategoryNames(xs) by {
        var ns, fa := CategoryNames(xs), FirstAppearances(CategoryNames(xs));
        if x in ns {
          var i :| 0 <= i < |ns| && ns[i] == x;
          assert ns[i] in fa;
        }
        if x in fa {
          var j :| 0 <= j < |fa| && fa[j] == x;
          assert fa[j] in ns;
        }
      }
    }
    forall k | 0 <= k < |sorted|
      ensures sorted[k].total == Money.SumOf(InCategory(xs, sorted[k].name), Amount)
    {
      assert sorted[k] in multiset(gs);
      var j :| 0 <= j < |gs| && gs[j] == sorted[k];
    }
  }

  // ---------------------------------------------------------------- the add form

  /** The body posted for a new expense. */
  datatype ExpensePayload = ExpensePayload(categoryId: string, bankId: string, amount: string,
                                           date: string, description: string)

  /**
   * A save is accepted when `status` is `'success'` or `success` is `true`
   * (`(data.status && data.status === 'success') || data.success === true`).
   */
  function SaveAccepted(status: JsValue, success: JsValue): (ok: bool)
    ensures ok <==> status == Str("success") || success == Bool(true)
  {
    (Truthy(status) && status == Str("success")) || success == Bool(true)
  }

  /** The add-expense form and its error line. */
  class ExpenseForm {
    var categoryId: string
    var bankId: string
    var amount: string
    var date: string
    var description: string
    /** The error line's text; empty when hidden. */
    var error: string

    constructor ()
      ensures categoryId == "" && bankId == "" && amount == "" && date == "" && description == "" && error == ""
    {
      categoryId, bankId, amount, date, description, error := "", "", "", "", "", "";
    }

    /**
     * `handleFormSubmit`: the error line is cleared, and a POST is made only when category,
     * bank, amount and date are all filled in; the description is optional and trimmed.
     */
    method Submit() returns (req: Option<ExpensePayload>)
      modifies this
      ensures unchanged(this`categoryId, this`bankId, this`amount, this`date, this`description)
      ensures req.Some? <==> categoryId != "" && bankId != "" && amount != "" && date != ""
      ensures req.None? ==> error == "All fields except description are required"
      ensures req.Some? ==> error == "" && req.value == ExpensePayload(categoryId, bankId, amount, date, Trim(description))
    {
      error := "";
      var desc := Trim(description);
      if categoryId == "" || bankId == "" || amount == "" || date == "" {
        error := "All fields except description are required";
        return None;
      }
      req := Some(ExpensePayload(categoryId, bankId, amount, date, desc));
    }

    /**
     * The response to a save: when accepted the list is refetched and the form reset;
     * otherwise the message (or `Error`) is shown and the form kept.
     */
    method OnSaveResponse(status: JsValue, success: JsValue, message: Option<string>) returns (refetch: bool)
      modifies this
      ensures refetch <==> SaveAccepted(status, success)
      ensures refetch ==> categoryId == "" && bankId == "" && amount == "" && date == "" && description == ""
      ensures refetch ==> error == old(error)
      ensures !refetch ==> unchanged(this`categoryId, this`bankId, this`amount, this`date, this`description)
      ensures !refetch ==> error == (if Present(message) then message.value else "Error")
    {
      if SaveAccepted(status, success) {
        categoryId, bankId, amount, date, description := "", "", "", "", "";
        return true;
      }
      error := if Present(message) then message.value else "Error";
      return false;
    }
  }
}
