/** The transactions screen (views/transactions_view.py): the type and
    category filters, the category options derived from the loaded records,
    the visible list, and removal by id. */
module TransactionsView {
  import opened Records
  import opened Text
  import opened Client
  import opened OfflineStore

  /** The wildcard of the type filter. */
  const AnyType := "Todos"
  /** The wildcard of the category filter. */
  const AnyCategory := "Todas"
  const TransactionsMode := "transactions"
  const RecurringsMode := "recurrings"

  /** The options offered when no loaded record names a category. */
  const DefaultCategories: seq<string> := ["Alimentación", "Transporte", "Vivienda", "Servicios",
    "Entretenimiento", "Salud", "Educación", "Compras", "Impuestos", "Deudas", "Otros"]

  // ------------------------------------------------------------- filtering

  /** The test of `apply_filters`: a record passes unless the type filter is
      set and its `type` differs, or the category filter is set and its
      category (`"Otros"` when absent) differs. */
  predicate Matches(e: Entry, typeSel: string, catSel: string) {
    (typeSel == AnyType || e.txType == Some(typeSel)) &&
    (catSel == AnyCategory || CategoryOr(e, "Otros") == catSel)
  }

  function Keep(typeSel: string, catSel: string): Entry -> bool {
    e => Matches(e, typeSel, catSel)
  }

  /** One of the two loops of `apply_filters`. */
  method FilterEntries(s: seq<Entry>, typeSel: string, catSel: string) returns (r: seq<Entry>)
    ensures r == Filter(s, Keep(typeSel, catSel))
    ensures IsSubseq(r, s)
    ensures forall e :: e in r <==> e in s && Matches(e, typeSel, catSel)
  {
    r := [];
    for i := 0 to |s|
      invariant r == Filter(s[..i], Keep(typeSel, catSel))
    {
      assert s[..i + 1][..i] == s[..i];
      if typeSel != AnyType && s[i].txType != Some(typeSel) {
        continue;
      }
      if catSel != AnyCategory && CategoryOr(s[i], "Otros") != catSel {
        continue;
      }
      r := r + [s[i]];
    }
    assert s[..|s|] == s;
    FilterIsSubseq(s, Keep(typeSel, catSel));
    forall e ensures e in r <==> e in s && Matches(e, typeSel, catSel) {
      FilterMembers(s, Keep(typeSel, catSel), e);
    }
  }

  /** With both wildcards selected every record is shown, in its order. */
  lemma WildcardsKeepAll(s: seq<Entry>)
    ensures Filter(s, Keep(AnyType, AnyCategory)) == s
  {
    FilterKeepsAll(s, Keep(AnyType, AnyCategory));
  }

  /** Filtering again with the same selection changes nothing. */
  lemma RefilterIsStable(s: seq<Entry>, typeSel: string, catSel: string)
    ensures Filter(Filter(s, Keep(typeSel, catSel)), Keep(typeSel, catSel)) == Filter(s, Keep(typeSel, catSel))
  {
    FilterTwice(s, Keep(typeSel, catSel));
  }

  // ------------------------------------------------------------ rendering

  /** A row of one of the two lists: a record's card or the "nothing to show"
      text; `recurring` tells which list it belongs to. */
  datatype Item = Card(entry: Entry, recurring: bool) | Placeholder(recurring: bool)

  /** The rows for a filtered list: one card per record, or the placeholder
      alone when there is none. */
  function Items(filtered: seq<Entry>, recurring: bool): (r: seq<Item>)
    ensures |r| >= 1
    ensures filtered == [] <==> r == [Placeholder(recurring)]
    ensures filtered != [] ==> |r| == |filtered|
    ensures filtered != [] ==> forall i :: 0 <= i < |r| ==> r[i] == Card(filtered[i], recurring)
  {
    if filtered == [] then [Placeholder(recurring)]
    else
      var r := seq(|filtered|, i requires 0 <= i < |filtered| => Card(filtered[i], recurring));
      assert r[0].Card?;
      r
  }

  // ------------------------------------------------------ category options

  /** The categories of the records that carry one (`isinstance(..., str)`). */
  function Categories(s: seq<Entry>): set<string> {
    set e | e in s && e.category.Some? :: e.category.value
  }

  predicate StrictlySorted(s: seq<string>) {
    forall i, j :: 0 <= i < j < |s| ==> LexLess(s[i], s[j])
  }

  /** Adds `c` to a strictly increasing list, unless it is already there. */
  function InsertSorted(s: seq<string>, c: string): (r: seq<string>)
    requires StrictlySorted(s)
    ensures StrictlySorted(r)
    ensures forall x :: x in r <==> x in s || x == c
  {
    if s == [] then [c]
    else if s[0] == c then s
    else if LexLess(c, s[0]) then
      assert forall j :: 0 < j < |s| ==> LexLess(c, s[j]) by {
        forall j | 0 < j < |s| ensures LexLess(c, s[j]) {
          LexLessTransitive(c, s[0], s[j]);
        }
      }
      [c] + s
    else
      LexLessTotal(c, s[0]);
      var t := InsertSorted(s[1..], c);
      assert forall x :: x in t ==> LexLess(s[0], x);
      [s[0]] + t
  }

  /** `sorted({t["category"] for t in s if isinstance(t.get("category"), str)})` */
  function SortedCategories(s: seq<Entry>): (r: seq<string>)
    ensures StrictlySorted(r)
    ensures forall c :: c in r <==> c in Categories(s)
  {
    if s == [] then []
    else
      var init, last := s[..|s| - 1], s[|s| - 1];
      assert s == init + [last];
      var r := SortedCategories(init);
      if last.category.Some? then InsertSorted(r, last.category.value) else r
  }

  /** Two strictly increasing lists with the same elements are the same
      list: the sorted set is determined by the set alone. */
  lemma {:induction false} SortedUnique(a: seq<string>, b: seq<string>)
    requires StrictlySorted(a) && StrictlySorted(b)
    requires forall x :: x in a <==> x in b
    ensures a == b
  {
    if a != [] { assert a[0] in a; }
    if b != [] { assert b[0] in b; }
    if a != [] && b != [] {
      FirstIsLeast(b, a[0]);
      FirstIsLeast(a, b[0]);
      LexLessIrreflexive(a[0]);
      if a[0] != b[0] {
        LexLessTransitive(a[0], b[0], a[0]);
      }
      assert a == [a[0]] + a[1..] && b == [b[0]] + b[1..];
      forall x ensures x in a[1..] <==> x in b[1..] {
        if x in a[1..] {
          AfterFirst(a, x);
          assert x in b && x != b[0];
        }
        if x in b[1..] {
          AfterFirst(b, x);
          assert x in a && x != a[0];
        }
      }
      SortedUnique(a[1..], b[1..]);
    }
  }

  /** The first element of a strictly increasing list is below every other. */
  lemma FirstIsLeast(s: seq<string>, x: string)
    requires StrictlySorted(s) && x in s
    ensures x == s[0] || LexLess(s[0], x)
  {
  }

  lemma AfterFirst(s: seq<string>, x: string)
    requires StrictlySorted(s) && s != [] && x in s[1..]
    ensures x != s[0]
  {
    var i :| 0 <= i < |s[1..]| && s[1..][i] == x;
    assert LexLess(s[0], s[i + 1]);
    LexLessIrreflexive(x);
  }

  /** The options after a load: the sorted categories of transactions and
      recurrings together, or the fixed list when there are none. */
  function CategoryOptions(txs: seq<Entry>, recs: seq<Entry>): seq<string> {
    var cats := SortedCategories(txs + recs);
    if cats == [] then DefaultCategories else cats
  }

  /** The options are exactly the sorted, duplicate-free categories: any
      strictly increasing list of the categories is the options list; with no
      category the fixed list is used. */
  lemma CategoryOptionsAreSortedSet(txs: seq<Entry>, recs: seq<Entry>, r: seq<string>)
    requires StrictlySorted(r) && forall c :: c in r <==> c in Categories(txs + recs)
    ensures Categories(txs + recs) != {} ==> CategoryOptions(txs, recs) == r
    ensures Categories(txs + recs) == {} ==> CategoryOptions(txs, recs) == DefaultCategories
  {
    var cats := SortedCategories(txs + recs);
    SortedUnique(cats, r);
    if cats != [] {
      assert cats[0] in cats;
    }
    if Categories(txs + recs) != {} {
      var c :| c in Categories(txs + recs);
      assert c in cats;
    }
  }

  /** The filter's value after a load: kept when still offered, else the
      wildcard. */
  function SelectedCategory(current: string, options: seq<string>): (r: string)
    ensures r in [AnyCategory] + options
    ensures current in [AnyCategory] + options ==> r == current
    ensures current !in [AnyCategory] + options ==> r == AnyCategory
  {
    if current in [AnyCategory] + options then current else AnyCategory
  }

  // ----------------------------------------------------------------- delete

  function OtherId(id: string): Entry -> bool {
    (e: Entry) => e.id != Some(id)
  }

  /** `[t for t in s if t.get("id") != id]` */
  function WithoutId(s: seq<Entry>, id: string): seq<Entry> {
    Filter(s, OtherId(id))
  }

  /** Removal drops every record with that id and keeps all the others, in
      their order. */
  lemma DeleteById(s: seq<Entry>, id: string)
    ensures IsSubseq(WithoutId(s, id), s)
    ensures forall e :: e in WithoutId(s, id) <==> e in s && e.id != Some(id)
    ensures (forall i :: 0 <= i < |s| ==> s[i].id != Some(id)) ==> WithoutId(s, id) == s
    ensures forall e :: multiset(WithoutId(s, id))[e] == if e.id != Some(id) then multiset(s)[e] else 0
  {
    FilterIsSubseq(s, OtherId(id));
    forall e ensures multiset(WithoutId(s, id))[e] == if e.id != Some(id) then multiset(s)[e] else 0 {
      FilterCounts(s, OtherId(id), e);
    }
    forall e ensures e in WithoutId(s, id) <==> e in s && e.id != Some(id) {
      FilterMembers(s, OtherId(id), e);
    }
    if forall i :: 0 <= i < |s| ==> s[i].id != Some(id) {
      FilterKeepsAll(s, OtherId(id));
    }
  }

  // ---------------------------------------------------------------- screen

  /** The screen's state: the loaded lists, the mode, the two filter values,
      the category options and what each list view holds. */
  class TransactionsPage {
    var transactions: seq<Entry>
    var recurrings: seq<Entry>
    var viewMode: string
    var typeSel: string
    var catSel: string
    var categoryOptions: seq<string>
    var listItems: seq<Item>
    var recItems: seq<Item>
    var listVisible: bool
    var recVisible: bool

    /** The list views show what the filters let through, in the list of the
        current mode. */
    predicate Displayed()
      reads this
    {
      listVisible == (viewMode == TransactionsMode) &&
      recVisible == (viewMode == RecurringsMode) &&
      listItems == (if viewMode == TransactionsMode then Items(Filter(transactions, Keep(typeSel, catSel)), false) else []) &&
      recItems == (if viewMode == TransactionsMode then [] else Items(Filter(recurrings, Keep(typeSel, catSel)), true))
    }

    constructor ()
      ensures transactions == [] && recurrings == [] && viewMode == TransactionsMode
      ensures typeSel == AnyType && catSel == AnyCategory && categoryOptions == [AnyCategory]
      ensures listItems == [] && recItems == []
    {
      transactions, recurrings := [], [];
      viewMode := TransactionsMode;
      typeSel, catSel := AnyType, AnyCategory;
      categoryOptions := [AnyCategory];
      listItems, recItems := [], [];
      listVisible, recVisible := true, true;
    }

    /** `apply_filters` */
    method ApplyFilters()
      modifies this
      ensures Displayed()
      ensures transactions == old(transactions) && recurrings == old(recurrings) && viewMode == old(viewMode)
      ensures typeSel == old(typeSel) && catSel == old(catSel) && categoryOptions == old(categoryOptions)
    {
      var txFiltered := FilterEntries(transactions, typeSel, catSel);
      var recFiltered := FilterEntries(recurrings, typeSel, catSel);
      var showList := viewMode == TransactionsMode;
      var list := if showList then Items(txFiltered, false) else [];
      var recs := if showList then [] else Items(recFiltered, true);
      assert list == (if showList then Items(Filter(transactions, Keep(typeSel, catSel)), false) else []);
      assert recs == (if showList then [] else Items(Filter(recurrings, Keep(typeSel, catSel)), true));
      listVisible, recVisible := showList, viewMode == RecurringsMode;
      listItems, recItems := list, recs;
    }

    /** `reset_filters` */
    method ResetFilters()
      modifies this
      ensures Displayed() && typeSel == AnyType && catSel == AnyCategory
      ensures transactions == old(transactions) && recurrings == old(recurrings) && viewMode == old(viewMode)
      ensures categoryOptions == old(categoryOptions)
    {
      typeSel, catSel := AnyType, AnyCategory;
      ApplyFilters();
    }

    /** `set_mode` */
    method SetMode(mode: string)
      modifies this
      ensures Displayed() && viewMode == mode
      ensures transactions == old(transactions) && recurrings == old(recurrings)
      ensures typeSel == old(typeSel) && catSel == old(catSel) && categoryOptions == old(categoryOptions)
    {
      viewMode := mode;
      ApplyFilters();
    }

    /** `load_transactions` with the two remote reads answered by `fetched`
        (`None`: one of them raised). On success only the transactions are
        cached; on failure both lists come from the cache. Nothing happens
        without a signed-in user. */
    method LoadTransactions(session: Session, storage: ClientStorage, fetched: Option<(seq<Entry>, seq<Entry>)>)
      modifies this, storage
      ensures session.SignedInUser().None? ==>
        storage.data == old(storage.data) && transactions == old(transactions) &&
        recurrings == old(recurrings) && catSel == old(catSel) && categoryOptions == old(categoryOptions) &&
        listItems == old(listItems) && recItems == old(recItems) &&
        listVisible == old(listVisible) && recVisible == old(recVisible)
      ensures session.SignedInUser().Some? ==> Displayed()
      ensures session.SignedInUser().Some? ==>
        var user := session.SignedInUser().value;
        (fetched.Some? ==>
          transactions == fetched.value.0 && recurrings == fetched.value.1 &&
          storage.data == old(storage.data)[CacheKey(user) := Entries(transactions)]) &&
        (fetched.None? ==>
          transactions == ListIn(old(storage.data), CacheKey(user)) &&
          recurrings == ListIn(old(storage.data), RecurringKey(user)) &&
          storage.data == old(storage.data)) &&
        categoryOptions == [AnyCategory] + CategoryOptions(transactions, recurrings) &&
        catSel == SelectedCategory(old(catSel), CategoryOptions(transactions, recurrings))
      ensures viewMode == old(viewMode) && typeSel == old(typeSel)
    {
      var user := session.SignedInUser();
      if user.None? {
        return;
      }
      var uid := user.value;
      match fetched {
        case Some(lists) =>
          transactions := lists.0;
          recurrings := lists.1;
          SetCachedTransactions(storage, uid, transactions);
        case None =>
          transactions := GetCachedTransactions(storage, uid);
          recurrings := GetCachedRecurrings(storage, uid);
      }
      var cats := CategoryOptions(transactions, recurrings);
      categoryOptions := [AnyCategory] + cats;
      if catSel !in [AnyCategory] + cats {
        catSel := AnyCategory;
      }
      ApplyFilters();
    }

    /** `_delete_transaction(id)`: no effect for a missing or empty id;
        otherwise the remote delete is sent (its answer is ignored), the
        records with that id leave the list, and the signed-in user's cache
        is overwritten with what remains. `sent` is the id sent. */
    method DeleteTransaction(session: Session, storage: ClientStorage, id: Option<string>) returns (sent: Option<string>)
      modifies this, storage
      ensures id.None? || id == Some("") ==>
        sent == None && storage.data == old(storage.data) && transactions == old(transactions) &&
        listItems == old(listItems) && recItems == old(recItems)
      ensures id.Some? && id.value != "" ==>
        sent == id && transactions == WithoutId(old(transactions), id.value) && Displayed() &&
        storage.data == (if session.SignedInUser().Some?
                         then old(storage.data)[CacheKey(session.SignedInUser().value) := Entries(transactions)]
                         else old(storage.data))
      ensures recurrings == old(recurrings) && viewMode == old(viewMode)
      ensures typeSel == old(typeSel) && catSel == old(catSel) && categoryOptions == old(categoryOptions)
    {
      if id.None? || id.value == "" {
        return None;
      }
      sent := id;
      transactions := WithoutId(transactions, id.value);
      var user := session.SignedInUser();
      if user.Some? {
        SetCachedTransactions(storage, user.value, transactions);
      }
      ApplyFilters();
    }

    /** `_delete_recurring(id)`: as for transactions, but no cache is
        written. */
    method DeleteRecurring(id: Option<string>) returns (sent: Option<string>)
      modifies this
      ensures id.None? || id == Some("") ==>
        sent == None && recurrings == old(recurrings) && listItems == old(listItems) && recItems == old(recItems)
      ensures id.Some? && id.value != "" ==>
        sent == id && recurrings == WithoutId(old(recurrings), id.value) && Displayed()
      ensures transactions == old(transactions) && viewMode == old(viewMode)
      ensures typeSel == old(typeSel) && catSel == old(catSel) && categoryOptions == old(categoryOptions)
    {
      if id.None? || id.value == "" {
        return None;
      }
      sent := id;
      recurrings := WithoutId(recurrings, id.value);
      ApplyFilters();
    }
  }
}
