/** The deterministic part of the financial assistant
    (services/finance_ai_api.py): the summary it feeds every answer, the
    spending prediction, and the heuristic answers given when the text
    generator returns nothing. */
module FinanceAi {
  import opened Records
  import opened Text
  import opened CategoryTotals
  import Calculations

  // ---------------------------------------------------------------- summary

  /** `t.get("type", "")` */
  function TypeText(e: Entry): string {
    if e.txType.Some? then e.txType.value else ""
  }

  /** `ttype.lower().startswith("ingreso")` */
  predicate IsIncome(e: Entry) {
    StartsWith(Lower(TypeText(e)), "ingreso")
  }

  /** The `elif` branch: `ttype.lower().startswith("gasto")`. */
  predicate IsExpense(e: Entry) {
    !IsIncome(e) && StartsWith(Lower(TypeText(e)), "gasto")
  }

  /** Category under which an expense is counted: `t.get("category", "General")`. */
  function ExpenseCategory(e: Entry): string {
    CategoryOr(e, "General")
  }

  function Incomes(txs: seq<Entry>): real {
    if txs == [] then 0.0
    else
      var last := txs[|txs| - 1];
      Incomes(txs[..|txs| - 1]) + (if IsIncome(last) then AmountOf(last) else 0.0)
  }

  function Expenses(txs: seq<Entry>): real {
    if txs == [] then 0.0
    else
      var last := txs[|txs| - 1];
      Expenses(txs[..|txs| - 1]) + (if IsExpense(last) then AmountOf(last) else 0.0)
  }

  /** The `by_category` dictionary, built in the order of the records. */
  function ByCategory(txs: seq<Entry>): Totals {
    if txs == [] then []
    else
      var last := txs[|txs| - 1];
      var m := ByCategory(txs[..|txs| - 1]);
      if IsExpense(last) then Add(m, ExpenseCategory(last), AmountOf(last)) else m
  }

  /** The sum of the expense amounts recorded under category `k`. */
  function CategorySpend(txs: seq<Entry>, k: string): real {
    if txs == [] then 0.0
    else
      var last := txs[|txs| - 1];
      CategorySpend(txs[..|txs| - 1], k) +
        (if IsExpense(last) && ExpenseCategory(last) == k then AmountOf(last) else 0.0)
  }

  datatype Summary = Summary(incomes: real, expenses: real, disposable: real, byCategory: Totals)

  /** What `summarize_transactions` returns. */
  function Summarize(txs: seq<Entry>): Summary {
    Summary(Incomes(txs), Expenses(txs), Incomes(txs) - Expenses(txs), ByCategory(txs))
  }

  /** `summarize_transactions(transactions)` */
  method SummarizeTransactions(txs: seq<Entry>) returns (s: Summary)
    ensures s == Summarize(txs)
    ensures s.disposable == s.incomes - s.expenses
  {
    var incomes, expenses := 0.0, 0.0;
    var byCategory: Totals := [];
    for i := 0 to |txs|
      invariant incomes == Incomes(txs[..i])
      invariant expenses == Expenses(txs[..i])
      invariant byCategory == ByCategory(txs[..i])
    {
      assert txs[..i + 1][..i] == txs[..i];
      var t := txs[i];
      var amount := AmountOf(t);
      var ttype := TypeText(t);
      var cat := CategoryOr(t, "General");
      if StartsWith(Lower(ttype), "ingreso") {
        incomes := incomes + amount;
      } else if StartsWith(Lower(ttype), "gasto") {
        expenses := expenses + amount;
        byCategory := Add(byCategory, cat, amount);
      }
    }
    assert txs[..|txs|] == txs;
    s := Summary(incomes, expenses, incomes - expenses, byCategory);
  }

  /** `by_category` is a dictionary whose values add up to `expenses`, and the
      value under each category is the spend recorded under it. */
  lemma {:induction false} ByCategoryTotals(txs: seq<Entry>)
    ensures DistinctKeys(ByCategory(txs))
    ensures Sum(ByCategory(txs)) == Expenses(txs)
    ensures forall k :: Get(ByCategory(txs), k) == CategorySpend(txs, k)
  {
    if txs != [] {
      var n := |txs| - 1;
      var init, last := txs[..n], txs[n];
      assert txs == init + [last];
      ByCategoryTotals(init);
      ByCategorySnoc(init, last);
      if IsExpense(last) {
        AddGet(ByCategory(init), ExpenseCategory(last), AmountOf(last));
      }
    }
  }

  /** Some record of `txs` is an expense under category `k`. */
  predicate HasExpenseUnder(txs: seq<Entry>, k: string) {
    exists i :: 0 <= i < |txs| && IsExpense(txs[i]) && ExpenseCategory(txs[i]) == k
  }

  /** A category appears in `by_category` exactly when some expense is
      recorded under it (an expense without a category under "General"). */
  lemma {:induction false} ByCategoryKeys(txs: seq<Entry>, k: string)
    ensures k in Keys(ByCategory(txs)) <==> HasExpenseUnder(txs, k)
  {
    if txs != [] {
      var n := |txs| - 1;
      var init, last := txs[..n], txs[n];
      assert txs == init + [last];
      ByCategoryKeys(init, k);
      ByCategorySnoc(init, last);
      HasExpenseUnderSnoc(init, last, k);
      if IsExpense(last) {
        AddKeys(ByCategory(init), ExpenseCategory(last), AmountOf(last), k);
      }
    }
  }

  /** One more record updates `by_category` only when it is an expense. */
  lemma ByCategorySnoc(init: seq<Entry>, last: Entry)
    ensures ByCategory(init + [last]) ==
      if IsExpense(last) then Add(ByCategory(init), ExpenseCategory(last), AmountOf(last)) else ByCategory(init)
  {
    assert (init + [last])[..|init|] == init;
  }

  lemma HasExpenseUnderSnoc(init: seq<Entry>, last: Entry, k: string)
    ensures HasExpenseUnder(init + [last], k) <==>
      HasExpenseUnder(init, k) || (IsExpense(last) && ExpenseCategory(last) == k)
  {
    var txs := init + [last];
    if HasExpenseUnder(init, k) {
      var i :| 0 <= i < |init| && IsExpense(init[i]) && ExpenseCategory(init[i]) == k;
      assert txs[i] == init[i];
    }
    if HasExpenseUnder(txs, k) {
      var i :| 0 <= i < |txs| && IsExpense(txs[i]) && ExpenseCategory(txs[i]) == k;
      if i < |init| {
        assert init[i] == txs[i];
      }
    }
    if IsExpense(last) && ExpenseCategory(last) == k {
      assert txs[|init|] == last;
    }
  }

  /** With non-negative amounts every category total is non-negative. */
  lemma {:induction false} ByCategoryNonNegative(txs: seq<Entry>)
    requires forall i :: 0 <= i < |txs| ==> AmountOf(txs[i]) >= 0.0
    ensures NonNegative(ByCategory(txs))
  {
    if txs != [] {
      var n := |txs| - 1;
      var init, last := txs[..n], txs[n];
      assert txs == init + [last];
      ByCategoryNonNegative(init);
      ByCategorySnoc(init, last);
      if IsExpense(last) {
        AddKeepsNonNegative(ByCategory(init), ExpenseCategory(last), AmountOf(last));
      }
    }
  }

  lemma {:induction false} AddKeepsNonNegative(m: Totals, k: string, v: real)
    requires NonNegative(m) && v >= 0.0
    ensures NonNegative(Add(m, k, v))
  {
    if m != [] && m[0].0 != k {
      assert NonNegative(m[1..]) by {
        forall i | 0 <= i < |m[1..]| ensures m[1..][i].1 >= 0.0 {
          assert m[1..][i] == m[i + 1];
        }
      }
      AddKeepsNonNegative(m[1..], k, v);
    }
  }

  /** The two summaries agree whenever every type is spelled exactly
      'Ingreso' or 'Gasto'. */
  lemma {:induction false} AgreesWithCalculations(txs: seq<Entry>)
    requires forall i :: 0 <= i < |txs| ==>
      txs[i].txType == Some(Calculations.IncomeType) || txs[i].txType == Some(Calculations.ExpenseType)
    ensures Calculations.TypeTotal(txs, Calculations.IncomeType) == Incomes(txs)
    ensures Calculations.TypeTotal(txs, Calculations.ExpenseType) == Expenses(txs)
  {
    if txs != [] {
      var n := |txs| - 1;
      AgreesWithCalculations(txs[..n]);
      ExactTypes(txs[n]);
    }
  }

  /** On the exact spellings the prefix tests and the exact tests agree. */
  lemma ExactTypes(e: Entry)
    requires e.txType == Some(Calculations.IncomeType) || e.txType == Some(Calculations.ExpenseType)
    ensures IsIncome(e) <==> e.txType == Some(Calculations.IncomeType)
    ensures IsExpense(e) <==> e.txType == Some(Calculations.ExpenseType)
  {
    assert Lower("Ingreso") == "ingreso";
    assert Lower("Gasto") == "gasto";
  }

  /** They differ on any other spelling: "INGRESO" and "gastos fijos" count
      here and not in the report totals. */
  lemma CaseVariantsCountOnlyHere(e1: Entry, e2: Entry)
    requires e1.txType == Some("INGRESO") && e2.txType == Some("gastos fijos")
    ensures Incomes([e1]) == AmountOf(e1) && Calculations.TypeTotal([e1], Calculations.IncomeType) == 0.0
    ensures Expenses([e2]) == AmountOf(e2) && Calculations.TypeTotal([e2], Calculations.ExpenseType) == 0.0
  {
    assert [e1][..0] == [] && [e2][..0] == [];
    assert Lower("INGRESO") == "ingreso";
    var low := Lower("gastos fijos");
    assert low[0] == 'g' && low[..5] == "gasto";
  }

  // ------------------------------------------------------- purchase advice

  /** The three purchase sizes: 5%, 15% and 30% of the disposable amount,
      never below zero. */
  datatype Tiers = Tiers(small: real, medium: real, large: real)

  function Positive(x: real): real {
    if x > 0.0 then x else 0.0
  }

  function PurchaseTiers(disposable: real): (t: Tiers)
    ensures 0.0 <= t.small <= t.medium <= t.large
    ensures t.medium == 3.0 * t.small && t.large == 6.0 * t.small
    ensures t.small == Positive(disposable) / 20.0
  {
    var small := if disposable * 0.05 > 0.0 then disposable * 0.05 else 0.0;
    var medium := if disposable * 0.15 > 0.0 then disposable * 0.15 else 0.0;
    var large := if disposable * 0.30 > 0.0 then disposable * 0.30 else 0.0;
    Tiers(small, medium, large)
  }

  datatype PurchaseAdvice = PurchaseAdvice(tiers: Tiers, topCategories: Totals)

  /** `purchase_advice(summary)`: the tiers of the disposable amount and the
      three largest expense categories. */
  function PurchaseAdviceFor(s: Summary): (a: PurchaseAdvice)
    ensures a.tiers == PurchaseTiers(s.disposable)
    ensures a.tiers.small == Positive(s.disposable) / 20.0
    ensures a.topCategories == Top(s.byCategory, 3)
    ensures |a.topCategories| == Min(3, |s.byCategory|)
    ensures multiset(a.topCategories) <= multiset(s.byCategory)
    ensures SortedDesc(a.topCategories)
  {
    var top := Top(s.byCategory, 3);
    var sorted := SortDesc(s.byCategory);
    assert sorted == top + sorted[|top|..];
    PurchaseAdvice(PurchaseTiers(s.disposable), top)
  }

  /** "Categorías más altas": a category left out of the advice spent at most
      as much as each category listed. */
  lemma PurchaseTopAreLargest(s: Summary, k: string, v: real)
    requires (k, v) in s.byCategory
    requires forall t :: t in PurchaseAdviceFor(s).topCategories ==> t.0 != k
    ensures forall t :: t in PurchaseAdviceFor(s).topCategories ==> t.1 >= v
  {
    TopDominates(s.byCategory, 3, k, v);
  }

  /** What the free-form chat falls back to: the disposable amount and the
      same purchase tiers. The question itself only feeds the text generator. */
  datatype ChatReply = ChatReply(disposable: real, tiers: Tiers)

  function ChatFallback(txs: seq<Entry>): (r: ChatReply)
    ensures r.disposable == Incomes(txs) - Expenses(txs)
    ensures r.tiers == PurchaseAdviceFor(Summarize(txs)).tiers
  {
    var s := Summarize(txs);
    ChatReply(s.disposable, PurchaseTiers(s.disposable))
  }

  // ----------------------------------------------------------- prediction

  /** Each value divided by `d`, keys and order kept. */
  function Scaled(m: Totals, d: real): (r: Totals)
    requires d > 0.0
    ensures Keys(r) == Keys(m)
    ensures NonNegative(m) ==> NonNegative(r)
  {
    seq(|m|, i requires 0 <= i < |m| => (m[i].0, m[i].1 / d))
  }

  /** The shares add up to the total divided by `d`. */
  lemma {:induction false} ScaledSum(m: Totals, d: real)
    requires d > 0.0
    ensures Sum(Scaled(m, d)) == Sum(m) / d
  {
    if m != [] {
      var s, t := Scaled(m, d), Scaled(m[1..], d);
      ScaledSum(m[1..], d);
      assert s[1..] == t;
      assert Sum(s) == s[0].1 + Sum(t);
      DivAdd(m[0].1, Sum(m[1..]), d);
    }
  }

  /** `(x + y) / d == x / d + y / d` */
  lemma DivAdd(x: real, y: real, d: real)
    requires d > 0.0
    ensures (x + y) / d == x / d + y / d
  {
  }

  /** The top two categories of the stable descending sort. */
  function ReduceSet(m: Totals): set<string> {
    set t | t in Top(m, 2) :: t.0
  }

  /** Each category's value, times 0.9 when it is in `reduce`. */
  function Budget(m: Totals, reduce: set<string>): (r: Totals)
    ensures Keys(r) == Keys(m)
    ensures forall i :: 0 <= i < |m| ==> r[i].1 == (if m[i].0 in reduce then 0.9 * m[i].1 else m[i].1)
    ensures forall i :: 0 <= i < |m| && m[i].1 >= 0.0 ==> 0.9 * m[i].1 <= r[i].1 <= m[i].1
  {
    seq(|m|, i requires 0 <= i < |m| => (m[i].0, m[i].1 * (if m[i].0 in reduce then 0.9 else 1.0)))
  }

  datatype Prediction = Prediction(summary: Summary, distribution: Totals, suggestedBudget: Totals)

  /** The denominator of the shares, `max(expenses, 1.0)`. */
  function ShareBase(expenses: real): (b: real)
    ensures b >= 1.0 && b >= expenses
    ensures b == 1.0 || b == expenses
  {
    if expenses >= 1.0 then expenses else 1.0
  }

  /** `predict_spending(transactions)`, without the advice text. */
  function PredictSpending(txs: seq<Entry>): Prediction {
    var s := Summarize(txs);
    Prediction(s, Scaled(s.byCategory, ShareBase(s.expenses)), Budget(s.byCategory, ReduceSet(s.byCategory)))
  }

  /** `dist = {cat: val / total ...}`: each share is its category's expense
      divided by `max(expenses, 1.0)`, in the order of `by_category`. */
  lemma DistributionShares(txs: seq<Entry>)
    ensures var s := Summarize(txs);
      var dist := PredictSpending(txs).distribution;
      Keys(dist) == Keys(s.byCategory) &&
      forall i :: 0 <= i < |dist| ==> dist[i].1 == s.byCategory[i].1 / ShareBase(s.expenses)
  {
  }

  /** Shares are never negative and add up to at most one; to exactly one
      when expenses reach 1.0. */
  lemma {:induction false} DistributionBounds(txs: seq<Entry>)
    requires forall i :: 0 <= i < |txs| ==> AmountOf(txs[i]) >= 0.0
    ensures var p := PredictSpending(txs);
      NonNegative(p.distribution) && Sum(p.distribution) <= 1.0 &&
      (p.summary.expenses >= 1.0 ==> Sum(p.distribution) == 1.0)
  {
    ByCategoryNonNegative(txs);
    ByCategoryTotals(txs);
    ShareBounds(ByCategory(txs), Expenses(txs));
  }

  /** The shares of a non-negative dictionary of totals over `max(total, 1.0)`. */
  lemma ShareBounds(m: Totals, total: real)
    requires NonNegative(m) && Sum(m) == total
    ensures var d := Scaled(m, ShareBase(total));
      NonNegative(d) && Sum(d) <= 1.0 && (total >= 1.0 ==> Sum(d) == 1.0)
  {
    var base := ShareBase(total);
    ScaledSum(m, base);
    SumNonNegative(m);
    ShareOfBase(Sum(Scaled(m, base)), base, total);
  }

  /** A quotient by `max(total, 1.0)` is at most one, and one when the
      total is the base. */
  lemma ShareOfBase(share: real, base: real, total: real)
    requires base >= 1.0 && base >= total && share == total / base
    ensures share <= 1.0
    ensures total == base ==> share == 1.0
  {
    DivBelowOne(total, base);
  }

  lemma DivBelowOne(x: real, d: real)
    requires d >= 1.0 && x <= d
    ensures x / d <= 1.0
  {
  }

  /** The suggested budget has the categories of `by_category`, in the same
      order; a category is cut by 10% exactly when it is one of the two
      largest, the cut ones are at least as large as every other one, and
      at most two are cut. */
  lemma SuggestedBudgetShape(txs: seq<Entry>)
    ensures var p := PredictSpending(txs); var m := p.summary.byCategory;
      Keys(p.suggestedBudget) == Keys(m) &&
      (forall i :: 0 <= i < |m| ==>
        p.suggestedBudget[i].1 == (if m[i].0 in ReduceSet(m) then 0.9 * m[i].1 else m[i].1)) &&
      (forall i, t :: 0 <= i < |m| && m[i].0 !in ReduceSet(m) && t in Top(m, 2) ==> t.1 >= m[i].1) &&
      |ReduceSet(m)| <= 2
  {
    var m := Summarize(txs).byCategory;
    forall i, t | 0 <= i < |m| && m[i].0 !in ReduceSet(m) && t in Top(m, 2) ensures t.1 >= m[i].1 {
      TopDominates(m, 2, m[i].0, m[i].1);
    }
    KeySetSize(Top(m, 2));
  }

  lemma {:induction false} KeySetSize(s: Totals)
    ensures |set t | t in s :: t.0| <= |s|
  {
    if s != [] {
      KeySetSize(s[1..]);
      assert (set t | t in s :: t.0) == {s[0].0} + (set t | t in s[1..] :: t.0);
    }
  }

  /** With non-negative amounts the suggested total lies between 90% and
      100% of the current expenses. */
  lemma SuggestedBudgetTotal(txs: seq<Entry>)
    requires forall i :: 0 <= i < |txs| ==> AmountOf(txs[i]) >= 0.0
    ensures var p := PredictSpending(txs);
      0.9 * p.summary.expenses <= Sum(p.suggestedBudget) <= p.summary.expenses
  {
    var m := Summarize(txs).byCategory;
    ByCategoryNonNegative(txs);
    ByCategoryTotals(txs);
    BudgetSum(m, ReduceSet(m));
  }

  lemma {:induction false} BudgetSum(m: Totals, reduce: set<string>)
    requires NonNegative(m)
    ensures 0.9 * Sum(m) <= Sum(Budget(m, reduce)) <= Sum(m)
  {
    if m != [] {
      assert NonNegative(m[1..]) by {
        forall i | 0 <= i < |m[1..]| ensures m[1..][i].1 >= 0.0 {
          assert m[1..][i] == m[i + 1];
        }
      }
      BudgetSum(m[1..], reduce);
      assert Budget(m, reduce)[1..] == Budget(m[1..], reduce);
    }
  }

  // --------------------------------------------------------- quick prompts

  /** `(kind or "").strip().lower()` */
  function NormalizeKind(kind: string): (k: string)
    ensures |k| == |Strip(kind)| <= |kind|
    ensures forall i :: 0 <= i < |k| ==> k[i] == LowerChar(Strip(kind)[i]) && !IsAsciiUpper(k[i])
  {
    Lower(Strip(kind))
  }

  datatype CutLine = CutLine(category: string, percent: nat, saving: real)

  datatype QuickReply =
    | MonthlySummary(incomes: real, expenses: real, disposable: real, top: Totals)
    | Cuts(lines: seq<CutLine>, totalSave: real)
    | SafePurchase(disposable: real, safe: real, avoid: real)
    | WeeklyBudget(weekly: Totals)
    | General(chat: ChatReply)

  const CutPercents: seq<nat> := [10, 5]
  const CutRates: seq<real> := [0.10, 0.05]

  /** The "recortes" loop over the (at most two) largest categories: 10% off
      the first, 5% off the second, and the total saving. */
  method EstimateCuts(top: Totals) returns (lines: seq<CutLine>, totalSave: real)
    requires |top| <= 2
    ensures |lines| == |top|
    ensures forall i :: 0 <= i < |top| ==>
      lines[i].category == top[i].0 && lines[i].percent == CutPercents[i] && lines[i].saving == top[i].1 * CutRates[i]
    ensures totalSave == (if |top| > 0 then top[0].1 / 10.0 else 0.0) + (if |top| > 1 then top[1].1 / 20.0 else 0.0)
  {
    lines, totalSave := [], 0.0;
    for i := 0 to |top|
      invariant |lines| == i
      invariant forall j :: 0 <= j < i ==>
        lines[j].category == top[j].0 && lines[j].percent == CutPercents[j] && lines[j].saving == top[j].1 * CutRates[j]
      invariant totalSave == (if i > 0 then top[0].1 / 10.0 else 0.0) + (if i > 1 then top[1].1 / 20.0 else 0.0)
    {
      var p := CutRates[i];
      var s := top[i].1 * p;
      lines := lines + [CutLine(top[i].0, CutPercents[i], s)];
      totalSave := totalSave + s;
    }
  }

  /** The "comprar_algo" amounts: a safe 25% and an upper 60% of the
      disposable amount, never below zero. */
  function PurchaseLimits(disposable: real): (r: (real, real))
    ensures 0.0 <= r.0 <= r.1
    ensures 12.0 * r.0 == 5.0 * r.1
    ensures r.0 == Positive(disposable) / 4.0
  {
    var safe := if disposable * 0.25 > 0.0 then disposable * 0.25 else 0.0;
    var avoid := if disposable * 0.60 > 0.0 then disposable * 0.60 else 0.0;
    (safe, avoid)
  }

  /** The weekly budget is the suggested budget divided by four, category by
      category, in the order of `by_category`. */
  lemma WeeklyShares(txs: seq<Entry>)
    ensures var budget := PredictSpending(txs).suggestedBudget;
      var w := Scaled(budget, 4.0);
      Keys(w) == Keys(Summarize(txs).byCategory) &&
      forall i :: 0 <= i < |w| ==> w[i].1 == budget[i].1 / 4.0
  {
  }

  /** `quick_prompt_response(kind, transactions)` when the text generator
      gives nothing: the kind is normalised and selects one heuristic; an
      unknown kind is answered by the chat fallback. */
  method QuickPromptResponse(kind: string, txs: seq<Entry>) returns (reply: QuickReply)
    ensures var k := NormalizeKind(kind);
      (reply.MonthlySummary? <==> k == "resumen") &&
      (reply.Cuts? <==> k == "recortes") &&
      (reply.SafePurchase? <==> k == "comprar_algo") &&
      (reply.WeeklyBudget? <==> k == "presupuesto_semanal") &&
      (reply.General? <==> k !in {"resumen", "recortes", "comprar_algo", "presupuesto_semanal"})
    ensures var s := Summarize(txs);
      reply.MonthlySummary? ==>
        reply == MonthlySummary(s.incomes, s.expenses, s.disposable, Top(s.byCategory, 3))
    ensures var top := Top(Summarize(txs).byCategory, 2);
      reply.Cuts? ==>
        |reply.lines| == |top| <= 2 &&
        (forall i :: 0 <= i < |top| ==> reply.lines[i] == CutLine(top[i].0, CutPercents[i], top[i].1 * CutRates[i])) &&
        reply.totalSave == (if |top| > 0 then top[0].1 / 10.0 else 0.0) + (if |top| > 1 then top[1].1 / 20.0 else 0.0)
    ensures reply.SafePurchase? ==>
      reply.disposable == Incomes(txs) - Expenses(txs) &&
      (reply.safe, reply.avoid) == PurchaseLimits(reply.disposable) &&
      0.0 <= reply.safe <= reply.avoid && reply.safe == Positive(reply.disposable) / 4.0
    ensures reply.WeeklyBudget? ==>
      Keys(reply.weekly) == Keys(Summarize(txs).byCategory) &&
      forall i :: 0 <= i < |reply.weekly| ==> reply.weekly[i].1 == PredictSpending(txs).suggestedBudget[i].1 / 4.0
    ensures reply.General? ==> reply.chat == ChatFallback(txs)
  {
    var k := NormalizeKind(kind);
    var s := SummarizeTransactions(txs);
    var top3 := Top(s.byCategory, 3);
    if k == "resumen" {
      reply := MonthlySummary(s.incomes, s.expenses, s.disposable, top3);
    } else if k == "recortes" {
      var top2 := top3[..Min(2, |top3|)];
      TopOfTop(s.byCategory, 2, 3);
      var lines, total := EstimateCuts(top2);
      reply := Cuts(lines, total);
    } else if k == "comprar_algo" {
      var limits := PurchaseLimits(s.disposable);
      reply := SafePurchase(s.disposable, limits.0, limits.1);
    } else if k == "presupuesto_semanal" {
      var pred := PredictSpending(txs);
      WeeklyShares(txs);
      reply := WeeklyBudget(Scaled(pred.suggestedBudget, 4.0));
    } else {
      reply := General(ChatFallback(txs));
    }
  }
}
