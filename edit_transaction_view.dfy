/** The edit screen (views/edit_transaction_view.py): which record a route
    names, how the form is filled from it, the update it sends on save, and
    the guards that make save and delete do nothing without an id. */
module EditTransactionView {
  import opened Records
  import opened Text

  const RecurringMarker := "rec:"
  const Dashboard := "/dashboard"

  /** The record a route names: its last "/"-separated segment, recurring when
      that segment starts with "rec:", in which case every "rec:" in it is
      deleted (`replace`, not a prefix strip). */
  datatype Target = Target(id: string, recurring: bool)

  function ParseRoute(route: string): (t: Target)
    ensures '/' !in t.id && |t.id| <= |route|
    ensures t.recurring <==> StartsWith(LastSegment(route, '/'), RecurringMarker)
    ensures !t.recurring ==> t.id == LastSegment(route, '/')
  {
    var segment := LastSegment(route, '/');
    if StartsWith(segment, RecurringMarker) then
      RemoveAllKeeps(segment, RecurringMarker, '/');
      Target(RemoveAll(segment, RecurringMarker), true)
    else Target(segment, false)
  }

  /** Deleting a pattern adds no character. */
  lemma {:induction false} RemoveAllKeeps(s: string, p: string, c: char)
    requires p != [] && c !in s
    ensures c !in RemoveAll(s, p)
    decreases |s|
  {
    if |s| >= |p| {
      if s[..|p|] == p {
        RemoveAllKeeps(s[|p|..], p, c);
      } else {
        RemoveAllKeeps(s[1..], p, c);
      }
    }
  }

  /** A recurring route whose id holds no further "rec:" gives that id. */
  lemma RecurringRouteId(prefix: string, id: string)
    requires '/' !in id && !Occurs(id, RecurringMarker)
    ensures ParseRoute(prefix + "/" + RecurringMarker + id) == Target(id, true)
  {
    var route := prefix + "/" + RecurringMarker + id;
    var segment := RecurringMarker + id;
    LastSegmentOfSuffix(prefix + "/", segment);
    assert route == (prefix + "/") + segment;
    assert segment[..|RecurringMarker|] == RecurringMarker;
    RemoveAllWithout(id, RecurringMarker);
    assert segment[|RecurringMarker|..] == id;
  }

  /** The last segment of `a + s`, where `a` ends with "/" and `s` holds no
      "/", is `s`. */
  lemma {:induction false} LastSegmentOfSuffix(a: string, s: string)
    requires a != [] && a[|a| - 1] == '/' && '/' !in s
    ensures LastSegment(a + s, '/') == s
    decreases |s|
  {
    if s == [] {
      assert a + s == a;
    } else {
      var n := |s| - 1;
      assert (a + s)[..|a + s| - 1] == a + s[..n];
      LastSegmentOfSuffix(a, s[..n]);
    }
  }

  /** Every "rec:" goes, not just the leading one. */
  lemma DoubleMarkerRemoved()
    ensures ParseRoute("/edit_transaction/rec:rec:x") == Target("x", true)
  {
    var r := "/edit_transaction/rec:rec:x";
    LastSegmentOfSuffix("/edit_transaction/", "rec:rec:x");
    assert r == "/edit_transaction/" + "rec:rec:x";
    var s := "rec:rec:x";
    assert s[..4] == RecurringMarker && s[4..] == "rec:x";
    assert s[4..][..4] == RecurringMarker && s[4..][4..] == "x";
    assert StartsWith(s, RecurringMarker);
    assert RemoveAll(s, RecurringMarker) == RemoveAll(s[4..], RecurringMarker);
    assert RemoveAll(s[4..], RecurringMarker) == RemoveAll("x", RecurringMarker) == "x";
  }

  /** What `get_transaction_by_id` / `get_recurring_by_id` answered. */
  datatype Fetched = Found(record: Entry) | NotFound

  /** The contents of the form's inputs. */
  datatype Form = Form(
    description: string,
    amount: AmountText,
    txType: Option<string>,
    category: Option<string>,
    frequency: Option<string>,
    dateText: Option<string>)

  /** The form filled from a record: absent fields take "Gasto" (recurring)
      or "Ingreso" (transaction) as type, "Otros" as category, "Mensual" as
      frequency (recurring only) and "" as date; a missing amount shows 0.0. */
  function Filled(e: Entry, recurring: bool, before: Form): (f: Form)
    ensures f.description == e.description
    ensures f.amount == Numeric(AmountOf(e))
    ensures f.txType == Some(if e.txType.Some? then e.txType.value else if recurring then "Gasto" else "Ingreso")
    ensures f.category == Some(CategoryOr(e, "Otros"))
    ensures recurring && e.frequency.Some? ==> f.frequency == e.frequency
    ensures recurring && e.frequency.None? ==> f.frequency == Some("Mensual")
    ensures !recurring ==> f.frequency == before.frequency
    ensures f.dateText == Some(
      if recurring then (if e.startDate.Some? then e.startDate.value else "")
      else (if e.date.Some? then e.date.value else ""))
  {
    var tt := if e.txType.Some? then e.txType.value else if recurring then "Gasto" else "Ingreso";
    if recurring then
      Form(e.description, Numeric(AmountOf(e)), Some(tt), Some(CategoryOr(e, "Otros")),
           Some(if e.frequency.Some? then e.frequency.value else "Mensual"),
           Some(if e.startDate.Some? then e.startDate.value else ""))
    else
      Form(e.description, Numeric(AmountOf(e)), Some(tt), Some(CategoryOr(e, "Otros")),
           before.frequency, Some(if e.date.Some? then e.date.value else ""))
  }

  /** The update maps `save_transaction` sends: a recurring rule's six keys
      or a transaction's five (no frequency). */
  datatype Update =
    | RecurringUpdate(description: string, amount: real, txType: Option<string>, category: string,
                      frequency: string, startDate: Option<string>)
    | TransactionUpdate(description: string, amount: real, txType: Option<string>, category: string,
                        date: Option<string>)

  /** `float(self.amount_field.value or 0.0)`: `None` when `float` raises. */
  function AmountValue(a: AmountText): Option<real> {
    match a
    case Blank => Some(0.0)
    case Numeric(v) => Some(v)
    case Unparsable => None
  }

  /** The update built from the form, or `None` when the amount raises. */
  function BuildUpdate(f: Form, recurring: bool): (u: Option<Update>)
    ensures u.None? <==> f.amount.Unparsable?
    ensures u.Some? ==> u.value.RecurringUpdate? == recurring
    ensures u.Some? ==> (u.value.category == TextOr(f.category, "Otros") && u.value.category != "" &&
      u.value.description == f.description && u.value.txType == f.txType &&
      u.value.amount == (if f.amount.Numeric? then f.amount.value else 0.0))
    ensures u.Some? && recurring ==> (u.value.frequency == TextOr(f.frequency, "Mensual") &&
      u.value.frequency != "" && u.value.startDate == f.dateText)
    ensures u.Some? && !recurring ==> u.value.date == f.dateText
  {
    match AmountValue(f.amount)
    case None => None
    case Some(amount) =>
      if recurring then
        Some(RecurringUpdate(f.description, amount, f.txType, TextOr(f.category, "Otros"),
                             TextOr(f.frequency, "Mensual"), f.dateText))
      else
        Some(TransactionUpdate(f.description, amount, f.txType, TextOr(f.category, "Otros"), f.dateText))
  }

  /** Saving a form just filled from a record with an amount sends that
      record's fields back, with the category and frequency defaults. */
  lemma SaveAfterLoad(e: Entry, recurring: bool, before: Form)
    ensures var u := BuildUpdate(Filled(e, recurring, before), recurring);
      u.Some? && u.value.amount == AmountOf(e) && u.value.description == e.description &&
      (e.category.Some? && e.category.value != "" ==> u.value.category == e.category.value) &&
      (e.category.None? ==> u.value.category == "Otros") &&
      (recurring && e.frequency.Some? && e.frequency.value != "" ==> u.value.frequency == e.frequency.value)
  {
  }

  /** A remote request the screen sends. */
  datatype Request =
    | UpdateRecord(id: string, recurring: bool, update: Update)
    | DeleteRecord(id: string, recurring: bool)

  /** The edit view's state. */
  class EditTransactionPage {
    var transactionId: Option<string>
    var recurring: bool
    var frequencyVisible: bool
    var form: Form

    constructor ()
      ensures transactionId == None && !recurring && !frequencyVisible
      ensures form == Form("", Blank, None, None, None, None)
    {
      transactionId := None;
      recurring, frequencyVisible := false, false;
      form := Form("", Blank, None, None, None, None);
    }

    /** `did_mount`: reads the id from the route; a recurring id also shows the
        frequency input. */
    method DidMount(route: string)
      modifies this
      ensures transactionId == Some(ParseRoute(route).id)
      ensures recurring == (ParseRoute(route).recurring || old(recurring))
      ensures frequencyVisible == (ParseRoute(route).recurring || old(frequencyVisible))
      ensures form == old(form)
    {
      var target := ParseRoute(route);
      transactionId := Some(target.id);
      if target.recurring {
        recurring := true;
        frequencyVisible := true;
      }
    }

    /** `load_transaction_data` with the remote read answered by `fetched`:
        no read without an id; a found record fills the form; a missing one
        moves to the dashboard. `asked` is whether a read was made. */
    method LoadTransactionData(fetched: Fetched) returns (asked: bool, next: Option<string>)
      modifies this
      ensures asked <==> transactionId.Some? && transactionId.value != ""
      ensures !asked ==> next == None && form == old(form)
      ensures asked && fetched.NotFound? ==> next == Some(Dashboard) && form == old(form)
      ensures asked && fetched.Found? ==> next == None && form == Filled(fetched.record, recurring, old(form))
      ensures transactionId == old(transactionId) && recurring == old(recurring)
      ensures frequencyVisible == old(frequencyVisible)
    {
      if transactionId.None? || transactionId.value == "" {
        return false, None;
      }
      asked := true;
      match fetched {
        case NotFound =>
          next := Some(Dashboard);
        case Found(e) =>
          form := Filled(e, recurring, form);
          next := None;
      }
    }

    /** `save_transaction`: nothing without an id; a raising amount stops the
        handler before any call; otherwise the update is sent and the screen
        moves to the dashboard. */
    method SaveTransaction() returns (sent: Option<Request>, next: Option<string>)
      ensures transactionId.None? || transactionId == Some("") ==> sent == None && next == None
      ensures transactionId.Some? && transactionId.value != "" ==>
        match BuildUpdate(form, recurring)
        case None => sent == None && next == None
        case Some(u) => sent == Some(UpdateRecord(transactionId.value, recurring, u)) && next == Some(Dashboard)
    {
      if transactionId.None? || transactionId.value == "" {
        return None, None;
      }
      var update := BuildUpdate(form, recurring);
      if update.None? {
        return None, None;
      }
      sent := Some(UpdateRecord(transactionId.value, recurring, update.value));
      next := Some(Dashboard);
    }

    /** `delete_transaction`: nothing without an id; otherwise the delete of
        the right kind is sent and the screen moves to the dashboard. */
    method DeleteTransaction() returns (sent: Option<Request>, next: Option<string>)
      ensures transactionId.None? || transactionId == Some("") ==> sent == None && next == None
      ensures transactionId.Some? && transactionId.value != "" ==>
        sent == Some(DeleteRecord(transactionId.value, recurring)) && next == Some(Dashboard)
    {
      if transactionId.None? || transactionId.value == "" {
        return None, None;
      }
      sent := Some(DeleteRecord(transactionId.value, recurring));
      next := Some(Dashboard);
    }
  }
}
