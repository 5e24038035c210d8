/** The pie chart of the reports screen (views/reports_view.py): one section
    per (type, category) pair of incomes and expenses, in first-seen order,
    coloured from a fixed palette of fifteen. */
module ReportsView {
  import opened Records
  import opened CategoryTotals
  import opened Calculations

  /** The fifteen palette entries, in palette order. */
  datatype Color =
    | BlueAccent700 | GreenAccent700 | RedAccent700 | PurpleAccent700 | OrangeAccent700
    | TealAccent700 | CyanAccent700 | PinkAccent700 | LimeAccent700 | IndigoAccent700
    | Brown700 | DeepOrange700 | LightBlue700 | LightGreen700 | Amber700

  const Palette: seq<Color> := [
    BlueAccent700, GreenAccent700, RedAccent700, PurpleAccent700, OrangeAccent700,
    TealAccent700, CyanAccent700, PinkAccent700, LimeAccent700, IndigoAccent700,
    Brown700, DeepOrange700, LightBlue700, LightGreen700, Amber700]

  /** A pie section: its key, its value and its colour (the title text with
      the formatted amount is not modelled). */
  datatype Section = Section(name: string, value: real, color: Color)

  /** The category a record is charted under: "Sin Categoría" when absent. */
  function ChartCategory(e: Entry): string {
    CategoryOr(e, "Sin Categoría")
  }

  /** `f"{type} - {category}"` */
  function SectionKey(t: string, category: string): string {
    t + " - " + category
  }

  /** The key a record adds to, if any: only the exact types 'Gasto' and
      'Ingreso' are charted. */
  function SectionKeyOf(e: Entry): Option<string> {
    if e.txType == Some(ExpenseType) then Some(SectionKey(ExpenseType, ChartCategory(e)))
    else if e.txType == Some(IncomeType) then Some(SectionKey(IncomeType, ChartCategory(e)))
    else None
  }

  /** The `category_data` dictionary after the records `txs`. */
  function PieTotals(txs: seq<Entry>): Totals {
    if txs == [] then []
    else
      var last := txs[|txs| - 1];
      var m := PieTotals(txs[..|txs| - 1]);
      match SectionKeyOf(last)
      case None => m
      case Some(k) => Add(m, k, AmountOf(last))
  }

  /** The amounts of the records of type `t` under category `c`. */
  function TypeCategoryTotal(txs: seq<Entry>, t: string, c: string): real {
    if txs == [] then 0.0
    else
      var last := txs[|txs| - 1];
      TypeCategoryTotal(txs[..|txs| - 1], t, c) +
        (if last.txType == Some(t) && ChartCategory(last) == c then AmountOf(last) else 0.0)
  }

  /** An expense key and an income key never coincide, and a key fixes its
      category. */
  lemma KeysSeparate(t1: string, c1: string, t2: string, c2: string)
    requires t1 in {ExpenseType, IncomeType} && t2 in {ExpenseType, IncomeType}
    ensures SectionKey(t1, c1) == SectionKey(t2, c2) <==> t1 == t2 && c1 == c2
  {
    var k1, k2 := SectionKey(t1, c1), SectionKey(t2, c2);
    if t1 != t2 {
      assert k1[0] != k2[0];
    } else if k1 == k2 {
      var n := |t1 + " - "|;
      assert k1[n..] == c1 && k2[n..] == c2;
    }
  }

  /** The section values add up to the income total plus the expense total of
      `calculate_transaction_summary`. */
  lemma {:induction false} PieSum(txs: seq<Entry>)
    ensures Sum(PieTotals(txs)) == TypeTotal(txs, IncomeType) + TypeTotal(txs, ExpenseType)
  {
    if txs != [] {
      PieSum(txs[..|txs| - 1]);
    }
  }

  /** No key repeats, and the value under the key of type `t` and category
      `c` is the total of exactly those records. */
  lemma {:induction false} PieValues(txs: seq<Entry>, t: string, c: string)
    requires t in {ExpenseType, IncomeType}
    ensures DistinctKeys(PieTotals(txs))
    ensures Get(PieTotals(txs), SectionKey(t, c)) == TypeCategoryTotal(txs, t, c)
  {
    if txs != [] {
      var n := |txs| - 1;
      var last := txs[n];
      PieValues(txs[..n], t, c);
      if last.txType == Some(ExpenseType) {
        KeysSeparate(ExpenseType, ChartCategory(last), t, c);
        AddGet(PieTotals(txs[..n]), SectionKey(ExpenseType, ChartCategory(last)), AmountOf(last));
      } else if last.txType == Some(IncomeType) {
        KeysSeparate(IncomeType, ChartCategory(last), t, c);
        AddGet(PieTotals(txs[..n]), SectionKey(IncomeType, ChartCategory(last)), AmountOf(last));
      }
    }
  }

  /** A record of any other type adds no section and no value. */
  lemma {:induction false} OtherTypesNotCharted(a: seq<Entry>, e: Entry)
    requires e.txType != Some(ExpenseType) && e.txType != Some(IncomeType)
    ensures PieTotals(a + [e]) == PieTotals(a)
  {
    assert (a + [e])[..|a|] == a;
  }

  /** The palette entry of section `i`. */
  function ColorAt(i: nat): Color {
    Palette[i % |Palette|]
  }

  /** Colours repeat every fifteen sections and never within fewer. */
  lemma ColorCycle(i: nat, j: nat)
    ensures ColorAt(i) == ColorAt(i + 15)
    ensures i < j < i + 15 ==> ColorAt(i) != ColorAt(j)
  {
    assert (i + 15) % 15 == i % 15;
    if i < j < i + 15 {
      assert i % 15 != j % 15;
    }
  }

  /** `_create_pie_chart_data(transactions)`: the dictionary loop, then one
      section per item with colour index `i % 15`. */
  method CreatePieChartData(txs: seq<Entry>) returns (sections: seq<Section>)
    ensures var m := PieTotals(txs);
      |sections| == |m| &&
      forall i :: 0 <= i < |m| ==> sections[i] == Section(m[i].0, m[i].1, ColorAt(i))
  {
    var categoryData: Totals := [];
    for i := 0 to |txs|
      invariant categoryData == PieTotals(txs[..i])
    {
      assert txs[..i + 1][..i] == txs[..i];
      var t := txs[i];
      var category := ChartCategory(t);
      var amount := AmountOf(t);
      if t.txType == Some(ExpenseType) {
        categoryData := Add(categoryData, SectionKey(ExpenseType, category), amount);
      } else if t.txType == Some(IncomeType) {
        categoryData := Add(categoryData, SectionKey(IncomeType, category), amount);
      }
    }
    assert txs[..|txs|] == txs;
    sections := [];
    var colorIndex := 0;
    for i := 0 to |categoryData|
      invariant colorIndex == i && |sections| == i
      invariant forall j :: 0 <= j < i ==> sections[j] == Section(categoryData[j].0, categoryData[j].1, ColorAt(j))
    {
      var (name, amount) := categoryData[i];
      sections := sections + [Section(name, amount, Palette[colorIndex % |Palette|])];
      colorIndex := colorIndex + 1;
    }
  }
}
