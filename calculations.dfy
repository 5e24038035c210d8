/** The dashboard and report totals (utils/calculations.py): incomes and
    expenses matched on the exact type texts 'Ingreso' and 'Gasto'. */
module Calculations {
  import opened Records

  const IncomeType := "Ingreso"
  const ExpenseType := "Gasto"

  /** The sum of the amounts of the records whose type is exactly `t`. */
  function TypeTotal(txs: seq<Entry>, t: string): real {
    if txs == [] then 0.0
    else
      var last := txs[|txs| - 1];
      TypeTotal(txs[..|txs| - 1], t) + (if last.txType == Some(t) then AmountOf(last) else 0.0)
  }

  /** Totals of two lists joined are the totals added. */
  lemma {:induction false} TypeTotalAppend(a: seq<Entry>, b: seq<Entry>, t: string)
    ensures TypeTotal(a + b, t) == TypeTotal(a, t) + TypeTotal(b, t)
  {
    if b != [] {
      var n := |b| - 1;
      TypeTotalAppend(a, b[..n], t);
      assert (a + b)[..|a + b| - 1] == a + b[..n];
    } else {
      assert a + b == a;
    }
  }

  /** A record whose type is neither 'Ingreso' nor 'Gasto' (or is absent)
      changes neither total, wherever it stands in the list. */
  lemma OtherTypeIgnored(a: seq<Entry>, e: Entry, b: seq<Entry>)
    requires e.txType != Some(IncomeType) && e.txType != Some(ExpenseType)
    ensures TypeTotal(a + [e] + b, IncomeType) == TypeTotal(a + b, IncomeType)
    ensures TypeTotal(a + [e] + b, ExpenseType) == TypeTotal(a + b, ExpenseType)
  {
    TypeTotalAppend(a + [e], b, IncomeType);
    TypeTotalAppend(a + [e], b, ExpenseType);
    TypeTotalAppend(a, [e], IncomeType);
    TypeTotalAppend(a, [e], ExpenseType);
    TypeTotalAppend(a, b, IncomeType);
    TypeTotalAppend(a, b, ExpenseType);
  }

  /** `calculate_transaction_summary(transactions)` */
  method CalculateTransactionSummary(txs: seq<Entry>) returns (income: real, expenses: real, balance: real)
    ensures income == TypeTotal(txs, IncomeType)
    ensures expenses == TypeTotal(txs, ExpenseType)
    ensures balance == income - expenses
    ensures txs == [] ==> income == 0.0 && expenses == 0.0 && balance == 0.0
  {
    income, expenses := 0.0, 0.0;
    for i := 0 to |txs|
      invariant income == TypeTotal(txs[..i], IncomeType)
      invariant expenses == TypeTotal(txs[..i], ExpenseType)
    {
      assert txs[..i + 1][..i] == txs[..i];
      var amount := AmountOf(txs[i]);
      var kind := txs[i].txType;
      if kind == Some(IncomeType) {
        income := income + amount;
      } else if kind == Some(ExpenseType) {
        expenses := expenses + amount;
      }
    }
    assert txs[..|txs|] == txs;
    balance := income - expenses;
  }
}
