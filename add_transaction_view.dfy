/** The save handler of the add-transaction form
    (views/add_transaction_view.py): the checks in their order, the record it
    builds, and what it leaves in the pending queue and the local cache. */
module AddTransactionView {
  import opened Records
  import opened Client
  import opened OfflineStore

  /** What the form's inputs hold when "Guardar" is pressed. */
  datatype Form = Form(
    amount: AmountText,
    description: string,
    txType: Option<string>,
    date: string,
    category: Option<string>)

  datatype AmountProblem = NotANumber | NotPositive

  /** The text of the message line. */
  datatype Notice =
    | Idle
    | NotAuthenticated
    | AmountRejected(problem: AmountProblem)
    | EmptyDescription
    | SavedOffline
    | Saved

  /** The outcome of the checks: a notice, or the owner and the new record. */
  datatype Checked = Rejected(notice: Notice) | Accepted(user: string, record: Entry)

  /** The record `save_transaction` builds, before the remote call stamps it;
      the category is the selected one, or "Otros" when none is. */
  function NewRecord(f: Form, amount: real, timestamp: string): Entry {
    Entry(None, None, Some(amount), f.description, f.txType, Some(TextOr(f.category, "Otros")),
          Some(f.date), None, None, Some(timestamp))
  }

  /** The checks of `save_transaction`, in order: a signed-in user, then an
      amount that parses and is positive, then a non-empty description. */
  function Check(user: Option<string>, f: Form, timestamp: string): (r: Checked)
    ensures r.Accepted? <==>
      user.Some? && f.amount.Numeric? && f.amount.value > 0.0 && f.description != ""
    ensures r.Accepted? ==>
      r.user == user.value && r.record.amount == Some(f.amount.value) &&
      r.record.category == Some(TextOr(f.category, "Otros")) && r.record.category.value != "" &&
      r.record.description == f.description && r.record.txType == f.txType &&
      r.record.date == Some(f.date) && r.record.timestamp == Some(timestamp) &&
      r.record.id == None && r.record.userId == None &&
      r.record.frequency == None && r.record.startDate == None
    ensures r == Rejected(NotAuthenticated) <==> user.None?
    ensures user.Some? && !f.amount.Numeric? ==> r == Rejected(AmountRejected(NotANumber))
    ensures user.Some? && f.amount.Numeric? && f.amount.value <= 0.0 ==> r == Rejected(AmountRejected(NotPositive))
    ensures user.Some? && f.amount.Numeric? && f.amount.value > 0.0 && f.description == "" ==>
      r == Rejected(EmptyDescription)
  {
    if user.None? then Rejected(NotAuthenticated)
    else if !f.amount.Numeric? then Rejected(AmountRejected(NotANumber))
    else if f.amount.value <= 0.0 then Rejected(AmountRejected(NotPositive))
    else if f.description == "" then Rejected(EmptyDescription)
    else Accepted(user.value, NewRecord(f, f.amount.value, timestamp))
  }

  /** Without a signed-in user nothing else about the form matters. */
  lemma UserCheckedFirst(f: Form, g: Form, timestamp: string)
    ensures Check(None, f, timestamp) == Check(None, g, timestamp) == Rejected(NotAuthenticated)
  {
  }

  /** A bad amount is reported whatever the description says. */
  lemma AmountCheckedBeforeDescription(user: string, f: Form, timestamp: string)
    requires !f.amount.Numeric? || f.amount.value <= 0.0
    ensures Check(Some(user), f, timestamp).Rejected?
    ensures Check(Some(user), f, timestamp) == Check(Some(user), f.(description := ""), timestamp)
    ensures Check(Some(user), f, timestamp).notice.AmountRejected?
  {
  }

  /** The storage once the remote call has answered `outcome` for the accepted
      record: on an error the (stamped) record joins the end of the pending
      queue and the end of the cache; on success only the cache gains it, with
      the new id. */
  function AfterSave(data: map<string, Stored>, user: string, record: Entry, outcome: AddOutcome): map<string, Stored> {
    var stamped := StampUser(record, user);
    var cached := ListIn(data, CacheKey(user));
    match outcome
    case Failed(_) =>
      data[QueueKey(user) := Entries(Pending(data, user) + [stamped])]
          [CacheKey(user) := Entries(cached + [stamped])]
    case Added(id) =>
      data[CacheKey(user) := Entries(cached + [stamped.(id := Some(id))])]
  }

  /** In both branches the cache grows by exactly the saved record, at its
      end; the queue grows by it only when the remote call failed; no other
      key changes. */
  lemma {:induction false} SaveEffects(data: map<string, Stored>, user: string, record: Entry, outcome: AddOutcome, key: string)
    ensures var after := AfterSave(data, user, record, outcome);
      var cached := ListIn(data, CacheKey(user));
      var added := ListIn(after, CacheKey(user));
      |added| == |cached| + 1 && added[..|cached|] == cached &&
      added[|cached|].(id := record.id) == StampUser(record, user) &&
      (outcome.Added? ==> added[|cached|] == StampUser(record, user).(id := Some(outcome.id))) &&
      (outcome.Failed? ==> added[|cached|] == StampUser(record, user)) &&
      Pending(after, user) == Pending(data, user) + (if outcome.Failed? then [StampUser(record, user)] else [])
    ensures key != CacheKey(user) && key != QueueKey(user) ==>
      (key in AfterSave(data, user, record, outcome) <==> key in data) &&
      (key in data ==> AfterSave(data, user, record, outcome)[key] == data[key])
  {
    KeysDistinct(CachedTransactions, user, PendingTransactions, user);
    var cached := ListIn(data, CacheKey(user));
    var stamped := StampUser(record, user);
    match outcome
    case Failed(_) =>
      assert (cached + [stamped])[..|cached|] == cached;
    case Added(id) =>
      assert (cached + [stamped.(id := Some(id))])[..|cached|] == cached;
  }

  /** A record saved offline is the last one the next sync sends, carrying
      the user it was saved for. */
  lemma {:induction false} OfflineSaveIsSentLast(data: map<string, Stored>, user: string, record: Entry, error: string)
    ensures var queue := Pending(AfterSave(data, user, record, Failed(error)), user);
      |queue| == |Pending(data, user)| + 1 &&
      StampAll(queue, user)[|queue| - 1] == StampUser(record, user) &&
      StampAll(queue, user)[|queue| - 1].userId == Some(user)
  {
    SaveEffects(data, user, record, Failed(error), CacheKey(user));
  }

  /** The add-transaction view: its form and its message line. */
  class AddTransactionPage {
    var form: Form
    var notice: Notice

    constructor (form: Form)
      ensures this.form == form && notice == Idle
    {
      this.form := form;
      notice := Idle;
    }

    /** `save_transaction`. `timestamp` is `datetime.now().isoformat()` and
        `outcome` the remote `add_transaction` answer. `sent` is the record
        handed to the remote (`None`: no call); `next` the route it moves to. */
    method SaveTransaction(session: Session, storage: ClientStorage, timestamp: string, outcome: AddOutcome)
      returns (sent: Option<Entry>, next: Option<string>)
      modifies this, storage
      ensures form == old(form)
      ensures match Check(session.SignedInUser(), form, timestamp)
        case Rejected(n) =>
          notice == n && sent == None && next == None && storage.data == old(storage.data)
        case Accepted(user, record) =>
          sent == Some(StampUser(record, user)) &&
          storage.data == AfterSave(old(storage.data), user, record, outcome) &&
          notice == (if outcome.Failed? then SavedOffline else Saved) &&
          next == (if outcome.Failed? then None else Some("/dashboard"))
    {
      var user := session.SignedInUser();
      if user.None? {
        notice := NotAuthenticated;
        return None, None;
      }
      var uid := user.value;
      if !form.amount.Numeric? {
        notice := AmountRejected(NotANumber);
        return None, None;
      }
      var amount := form.amount.value;
      if amount <= 0.0 {
        notice := AmountRejected(NotPositive);
        return None, None;
      }
      if form.description == "" {
        notice := EmptyDescription;
        return None, None;
      }
      var record := NewRecord(form, amount, timestamp);
      var stamped := StampUser(record, uid);
      sent := Some(stamped);
      match outcome {
        case Failed(_) =>
          AddPendingTransaction(storage, uid, stamped);
          var cached := GetCachedTransactions(storage, uid);
          cached := cached + [stamped];
          SetCachedTransactions(storage, uid, cached);
          notice := SavedOffline;
          next := None;
        case Added(id) =>
          var cached := GetCachedTransactions(storage, uid);
          cached := cached + [stamped.(id := Some(id))];
          SetCachedTransactions(storage, uid, cached);
          notice := Saved;
          next := Some("/dashboard");
      }
    }
  }
}
