/** The per-user local cache and pending-write queue (utils/offline_store.py),
    and the drain of that queue against the remote ledger. */
module OfflineStore {
  import opened Records
  import opened Client

  /** The three kinds of list kept per user. */
  datatype Kind = CachedTransactions | PendingTransactions | CachedRecurrings

  function Prefix(kind: Kind): string {
    match kind
    case CachedTransactions => "cached_transactions:"
    case PendingTransactions => "pending_transactions:"
    case CachedRecurrings => "cached_recurrings:"
  }

  /** The storage key of a user's list of the given kind. */
  function KeyOf(kind: Kind, user: string): (k: string)
    ensures |k| >= 18
  {
    Prefix(kind) + user
  }

  /** `_cache_key` */
  function CacheKey(user: string): string { KeyOf(CachedTransactions, user) }
  /** `_queue_key` */
  function QueueKey(user: string): string { KeyOf(PendingTransactions, user) }
  /** `_recurring_key` */
  function RecurringKey(user: string): string { KeyOf(CachedRecurrings, user) }

  /** Distinct (kind, user) pairs never share a storage key: the prefixes
      differ within their own length, and a shared prefix fixes the user. */
  lemma {:induction false} KeysDistinct(k1: Kind, u1: string, k2: Kind, u2: string)
    requires (k1, u1) != (k2, u2)
    ensures KeyOf(k1, u1) != KeyOf(k2, u2)
  {
    var a, b := KeyOf(k1, u1), KeyOf(k2, u2);
    if k1 == k2 {
      var n := |Prefix(k1)|;
      assert a[n..] == u1 && b[n..] == u2;
    } else if k1 == PendingTransactions || k2 == PendingTransactions {
      assert a[0] != b[0];
    } else {
      assert a[7] != b[7];
    }
  }

  /** The session keys of the profile and login views are never one of the
      namespaced list keys. */
  lemma SessionKeysAreNotNamespaced(kind: Kind, user: string)
    ensures KeyOf(kind, user) !in {"email", "id_token", "user_id", "is_logged_in"}
  {
  }

  /** The user's pending queue as stored. */
  function Pending(data: map<string, Stored>, user: string): seq<Entry> {
    ListIn(data, QueueKey(user))
  }

  /** `get_cached_transactions`: `[]` when nothing is stored. */
  method GetCachedTransactions(storage: ClientStorage, user: string) returns (txs: seq<Entry>)
    ensures CacheKey(user) !in storage.data ==> txs == []
    ensures CacheKey(user) in storage.data && storage.data[CacheKey(user)].Entries? ==>
              txs == storage.data[CacheKey(user)].list
    ensures txs == ListIn(storage.data, CacheKey(user))
  {
    txs := ListIn(storage.data, CacheKey(user));
  }

  /** `set_cached_transactions`: a read afterwards gives exactly `txs`. */
  method SetCachedTransactions(storage: ClientStorage, user: string, txs: seq<Entry>)
    modifies storage
    ensures storage.data == old(storage.data)[CacheKey(user) := Entries(txs)]
    ensures ListIn(storage.data, CacheKey(user)) == txs
  {
    storage.Set(CacheKey(user), Entries(txs));
  }

  /** `get_cached_recurrings`: `[]` when nothing is stored. */
  method GetCachedRecurrings(storage: ClientStorage, user: string) returns (recs: seq<Entry>)
    ensures RecurringKey(user) !in storage.data ==> recs == []
    ensures RecurringKey(user) in storage.data && storage.data[RecurringKey(user)].Entries? ==>
              recs == storage.data[RecurringKey(user)].list
    ensures recs == ListIn(storage.data, RecurringKey(user))
  {
    recs := ListIn(storage.data, RecurringKey(user));
  }

  /** `set_cached_recurrings` */
  method SetCachedRecurrings(storage: ClientStorage, user: string, recs: seq<Entry>)
    modifies storage
    ensures storage.data == old(storage.data)[RecurringKey(user) := Entries(recs)]
    ensures ListIn(storage.data, RecurringKey(user)) == recs
  {
    storage.Set(RecurringKey(user), Entries(recs));
  }

  /** `add_pending_transaction`: the queue gains `tx` at its end; no other key
      changes. */
  method AddPendingTransaction(storage: ClientStorage, user: string, tx: Entry)
    modifies storage
    ensures storage.data == old(storage.data)[QueueKey(user) := Entries(old(Pending(storage.data, user)) + [tx])]
    ensures Pending(storage.data, user) == old(Pending(storage.data, user)) + [tx]
  {
    var queue := ListIn(storage.data, QueueKey(user));
    queue := queue + [tx];
    storage.Set(QueueKey(user), Entries(queue));
  }

  /** `get_pending_transactions`: `[]` when nothing is stored. */
  method GetPendingTransactions(storage: ClientStorage, user: string) returns (queue: seq<Entry>)
    ensures QueueKey(user) !in storage.data ==> queue == []
    ensures QueueKey(user) in storage.data && storage.data[QueueKey(user)].Entries? ==>
              queue == storage.data[QueueKey(user)].list
    ensures queue == ListIn(storage.data, QueueKey(user))
  {
    queue := ListIn(storage.data, QueueKey(user));
  }

  /** `clear_pending_transactions`: removes the key, so a read gives `[]`. */
  method ClearPendingTransactions(storage: ClientStorage, user: string)
    modifies storage
    ensures storage.data == old(storage.data) - {QueueKey(user)}
    ensures Pending(storage.data, user) == []
  {
    storage.Remove(QueueKey(user));
  }

  /** What one drain of the queue produces. */
  datatype DrainResult = DrainResult(synced: nat, errors: seq<string>, remaining: seq<Entry>)

  /** The records as `add_transaction` leaves them: stamped with the owner. */
  function StampAll(queue: seq<Entry>, user: string): (r: seq<Entry>)
    ensures |r| == |queue|
    ensures forall i :: 0 <= i < |queue| ==> r[i] == StampUser(queue[i], user)
  {
    seq(|queue|, i requires 0 <= i < |queue| => StampUser(queue[i], user))
  }

  /** The messages of the failed outcomes, in order. */
  function FailureMessages(outcomes: seq<AddOutcome>): seq<string> {
    if outcomes == [] then []
    else
      var last := outcomes[|outcomes| - 1];
      FailureMessages(outcomes[..|outcomes| - 1]) + (if last.Failed? then [last.error] else [])
  }

  /** What the loop in `sync_pending_transactions` computes: each queued
      record, in order, meets the remote outcome at its position; a success is
      counted, a failure contributes its message and keeps the (stamped) record. */
  function Drain(queue: seq<Entry>, user: string, outcomes: seq<AddOutcome>): DrainResult
    requires |outcomes| == |queue|
  {
    if queue == [] then DrainResult(0, [], [])
    else
      var n := |queue| - 1;
      var d := Drain(queue[..n], user, outcomes[..n]);
      match outcomes[n]
      case Added(_) => d.(synced := d.synced + 1)
      case Failed(e) => DrainResult(d.synced, d.errors + [e], d.remaining + [StampUser(queue[n], user)])
  }

  /** Every queued record is either synced or retained, and each retained
      record has exactly one error message. */
  lemma {:induction false} DrainCounts(queue: seq<Entry>, user: string, outcomes: seq<AddOutcome>)
    requires |outcomes| == |queue|
    ensures var d := Drain(queue, user, outcomes);
      d.synced + |d.remaining| == |queue| && |d.errors| == |d.remaining|
    ensures Drain(queue, user, outcomes).errors == FailureMessages(outcomes)
  {
    if queue != [] {
      var n := |queue| - 1;
      DrainCounts(queue[..n], user, outcomes[..n]);
    }
  }

  /** The retained records keep their queue order. */
  lemma {:induction false} DrainKeepsOrder(queue: seq<Entry>, user: string, outcomes: seq<AddOutcome>)
    requires |outcomes| == |queue|
    ensures IsSubseq(Drain(queue, user, outcomes).remaining, StampAll(queue, user))
  {
    if queue != [] {
      var n := |queue| - 1;
      DrainKeepsOrder(queue[..n], user, outcomes[..n]);
      var d := Drain(queue[..n], user, outcomes[..n]);
      var all := StampAll(queue, user);
      assert all[..n] == StampAll(queue[..n], user);
      if outcomes[n].Failed? {
        var r := d.remaining + [StampUser(queue[n], user)];
        assert r[..|r| - 1] == d.remaining;
      } else {
        SubseqExtend(d.remaining, all[..n], all[n]);
        assert all[..n] + [all[n]] == all;
      }
    }
  }

  /** A record is retained exactly when its own outcome was a failure. */
  lemma {:induction false} DrainRetainsFailed(queue: seq<Entry>, user: string, outcomes: seq<AddOutcome>, e: Entry)
    requires |outcomes| == |queue|
    ensures e in Drain(queue, user, outcomes).remaining <==>
      exists i :: 0 <= i < |queue| && outcomes[i].Failed? && e == StampUser(queue[i], user)
  {
    if queue != [] {
      var n := |queue| - 1;
      DrainRetainsFailed(queue[..n], user, outcomes[..n], e);
      if e in Drain(queue, user, outcomes).remaining && e in Drain(queue[..n], user, outcomes[..n]).remaining {
        var i :| 0 <= i < n && outcomes[..n][i].Failed? && e == StampUser(queue[..n][i], user);
        assert outcomes[i].Failed? && e == StampUser(queue[i], user);
      }
      if exists i :: 0 <= i < |queue| && outcomes[i].Failed? && e == StampUser(queue[i], user) {
        var i :| 0 <= i < |queue| && outcomes[i].Failed? && e == StampUser(queue[i], user);
        if i < n {
          assert outcomes[..n][i].Failed? && e == StampUser(queue[..n][i], user);
        }
      }
    }
  }

  /** When every remote call succeeds, everything is synced and nothing stays. */
  lemma {:induction false} DrainAllAdded(queue: seq<Entry>, user: string, outcomes: seq<AddOutcome>)
    requires |outcomes| == |queue|
    requires forall i :: 0 <= i < |outcomes| ==> outcomes[i].Added?
    ensures Drain(queue, user, outcomes) == DrainResult(|queue|, [], [])
  {
    if queue != [] {
      var n := |queue| - 1;
      DrainAllAdded(queue[..n], user, outcomes[..n]);
    }
  }

  /** When every remote call fails, the whole queue stays, in order. */
  lemma {:induction false} DrainAllFailed(queue: seq<Entry>, user: string, outcomes: seq<AddOutcome>)
    requires |outcomes| == |queue|
    requires forall i :: 0 <= i < |outcomes| ==> outcomes[i].Failed?
    ensures Drain(queue, user, outcomes).synced == 0
    ensures Drain(queue, user, outcomes).remaining == StampAll(queue, user)
  {
    if queue != [] {
      var n := |queue| - 1;
      DrainAllFailed(queue[..n], user, outcomes[..n]);
      assert StampAll(queue, user) == StampAll(queue[..n], user) + [StampUser(queue[n], user)];
    }
  }

  /** The storage after `sync_pending_transactions`: unchanged for an empty
      queue; otherwise the queue key holds exactly the retained records, or is
      removed when none are retained. */
  function AfterSync(data: map<string, Stored>, user: string, outcomes: seq<AddOutcome>): map<string, Stored>
    requires |outcomes| == |Pending(data, user)|
  {
    var queue := Pending(data, user);
    if queue == [] then data
    else
      var d := Drain(queue, user, outcomes);
      if d.remaining == [] then data - {QueueKey(user)}
      else data[QueueKey(user) := Entries(d.remaining)]
  }

  /** A sync changes no key but the user's own queue key, so the caches and
      every other user's queue stay as they were. */
  lemma SyncTouchesOnlyQueue(data: map<string, Stored>, user: string, outcomes: seq<AddOutcome>, key: string)
    requires |outcomes| == |Pending(data, user)|
    requires key != QueueKey(user)
    ensures key in AfterSync(data, user, outcomes) <==> key in data
    ensures key in data ==> AfterSync(data, user, outcomes)[key] == data[key]
  {
  }

  /** After a sync the stored queue is exactly the retained records. */
  lemma SyncLeavesRetained(data: map<string, Stored>, user: string, outcomes: seq<AddOutcome>)
    requires |outcomes| == |Pending(data, user)|
    ensures Pending(AfterSync(data, user, outcomes), user) == Drain(Pending(data, user), user, outcomes).remaining
  {
  }

  /** A sync in which every call succeeds leaves an empty queue, so running
      sync again makes no call, reports nothing and changes nothing. */
  lemma {:induction false} SyncAgainAfterSuccess(data: map<string, Stored>, user: string, outcomes: seq<AddOutcome>)
    requires |outcomes| == |Pending(data, user)|
    requires forall i :: 0 <= i < |outcomes| ==> outcomes[i].Added?
    ensures var after := AfterSync(data, user, outcomes);
      Pending(after, user) == [] &&
      Drain(Pending(after, user), user, []) == DrainResult(0, [], []) &&
      AfterSync(after, user, []) == after
  {
    DrainAllAdded(Pending(data, user), user, outcomes);
  }

  /** One more queued record extends the drain and the stamped list by its
      own outcome. */
  lemma DrainStep(queue: seq<Entry>, user: string, outcomes: seq<AddOutcome>, i: nat)
    requires |outcomes| == |queue| && i < |queue|
    ensures var d := Drain(queue[..i], user, outcomes[..i]);
      Drain(queue[..i + 1], user, outcomes[..i + 1]) ==
        match outcomes[i]
        case Added(_) => d.(synced := d.synced + 1)
        case Failed(e) => DrainResult(d.synced, d.errors + [e], d.remaining + [StampUser(queue[i], user)])
    ensures StampAll(queue[..i + 1], user) == StampAll(queue[..i], user) + [StampUser(queue[i], user)]
  {
    assert queue[..i + 1][..i] == queue[..i];
    assert outcomes[..i + 1][..i] == outcomes[..i];
  }

  /** `sync_pending_transactions(page, user_id)` with the remote
      `add_transaction` answered by `outcomes`, one per queued record.
      `sent` lists the records handed to the remote, in order. */
  method SyncPendingTransactions(storage: ClientStorage, user: string, outcomes: seq<AddOutcome>)
    returns (synced: nat, errors: seq<string>, sent: seq<Entry>)
    requires |outcomes| == |Pending(storage.data, user)|
    modifies storage
    ensures var d := Drain(old(Pending(storage.data, user)), user, outcomes);
      synced == d.synced && errors == d.errors
    ensures sent == StampAll(old(Pending(storage.data, user)), user)
    ensures storage.data == AfterSync(old(storage.data), user, outcomes)
  {
    var queue := ListIn(storage.data, QueueKey(user));
    if queue == [] {
      return 0, [], [];
    }
    synced, errors, sent := 0, [], [];
    var remaining: seq<Entry> := [];
    var i := 0;
    while i < |queue|
      invariant 0 <= i <= |queue|
      invariant Drain(queue[..i], user, outcomes[..i]) == DrainResult(synced, errors, remaining)
      invariant sent == StampAll(queue[..i], user)
      invariant storage.data == old(storage.data)
    {
      DrainStep(queue, user, outcomes, i);
      var tx := StampUser(queue[i], user);
      sent := sent + [tx];
      match outcomes[i] {
        case Added(_) =>
          synced := synced + 1;
        case Failed(e) =>
          errors := errors + [e];
          remaining := remaining + [tx];
      }
      i := i + 1;
    }
    assert queue[..i] == queue && outcomes[..i] == outcomes;
    assert queue == Pending(old(storage.data), user);
    assert Drain(queue, user, outcomes).remaining == remaining;
    if remaining != [] {
      storage.Set(QueueKey(user), Entries(remaining));
    } else {
      ClearPendingTransactions(storage, user);
    }
  }
}
