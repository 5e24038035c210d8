/** The field maps that the app stores locally and exchanges with the remote
    ledger, and the small generic facts about lists that the views rely on. */
module Records {

  datatype Option<T> = None | Some(value: T)

  /** A transaction or a recurring rule as the field map the app passes around.
      `None` marks a key that is absent from the map (`t.get(key)` gives the
      default). Every field is optional except the description, where an absent
      key and an empty text behave alike everywhere in the core. */
  datatype Entry = Entry(
    id: Option<string>,
    userId: Option<string>,
    amount: Option<real>,
    description: string,
    txType: Option<string>,
    category: Option<string>,
    date: Option<string>,
    frequency: Option<string>,
    startDate: Option<string>,
    timestamp: Option<string>)

  /** `t.get("amount", 0.0)`: an absent amount counts as zero. */
  function AmountOf(e: Entry): real {
    if e.amount.Some? then e.amount.value else 0.0
  }

  /** `t.get("category", default)` */
  function CategoryOr(e: Entry, default: string): string {
    if e.category.Some? then e.category.value else default
  }

  /** `value or default` for an optional text: `None` and `""` both give the
      default. */
  function TextOr(o: Option<string>, default: string): (r: string)
    ensures default != "" ==> r != ""
    ensures o.Some? && o.value != "" ==> r == o.value
    ensures o.None? || o == Some("") ==> r == default
  {
    if o.Some? && o.value != "" then o.value else default
  }

  /** `add_transaction` writes the owner into the record it is given before it
      talks to the store, so every record it has seen carries `userId`. */
  function StampUser(e: Entry, user: string): (r: Entry)
    ensures r.userId == Some(user) && r.(userId := e.userId) == e
  {
    e.(userId := Some(user))
  }

  /** The text of a numeric input field as `float(...)` sees it: empty, a
      number, or text that `float` rejects with `ValueError`. */
  datatype AmountText = Blank | Numeric(value: real) | Unparsable

  /** Outcome of the remote create call: `{"success": True, "id": ...}` or
      `{"error": message}` (a raised exception is folded into the latter). */
  datatype AddOutcome = Added(id: string) | Failed(error: string)

  /** Outcome of a remote call whose payload is ignored (update, delete). */
  datatype RemoteAck = Ack | Nack(message: string)

  /** `a` is `b` with some elements left out, the rest in their order. */
  ghost predicate IsSubseq<T>(a: seq<T>, b: seq<T>)
    decreases |b|
  {
    a == [] ||
    (b != [] &&
     ((a[|a| - 1] == b[|b| - 1] && IsSubseq(a[..|a| - 1], b[..|b| - 1])) ||
      IsSubseq(a, b[..|b| - 1])))
  }

  /** `[x for x in s if keep(x)]` */
  function Filter<T>(s: seq<T>, keep: T -> bool): (r: seq<T>)
    ensures |r| <= |s|
  {
    if s == [] then []
    else Filter(s[..|s| - 1], keep) + (if keep(s[|s| - 1]) then [s[|s| - 1]] else [])
  }

  lemma {:induction false} FilterIsSubseq<T>(s: seq<T>, keep: T -> bool)
    ensures IsSubseq(Filter(s, keep), s)
  {
    if s != [] {
      var init, last := s[..|s| - 1], s[|s| - 1];
      FilterIsSubseq(init, keep);
      var f := Filter(init, keep);
      if keep(last) {
        assert Filter(s, keep) == f + [last];
        assert (f + [last])[..|f|] == f;
      } else {
        assert Filter(s, keep) == f;
        SubseqExtend(f, init, last);
        assert init + [last] == s;
      }
    }
  }

  lemma {:induction false} SubseqExtend<T>(a: seq<T>, b: seq<T>, x: T)
    requires IsSubseq(a, b)
    ensures IsSubseq(a, b + [x])
  {
    assert (b + [x])[..|b|] == b;
  }

  lemma {:induction false} FilterMembers<T>(s: seq<T>, keep: T -> bool, x: T)
    ensures x in Filter(s, keep) <==> x in s && keep(x)
  {
    if s != [] {
      var init, last := s[..|s| - 1], s[|s| - 1];
      FilterMembers(init, keep, x);
      assert s == init + [last];
    }
  }

  /** Every kept value keeps all its copies; every dropped value loses them all. */
  lemma {:induction false} FilterCounts<T>(s: seq<T>, keep: T -> bool, x: T)
    ensures multiset(Filter(s, keep))[x] == if keep(x) then multiset(s)[x] else 0
  {
    if s != [] {
      var init, last := s[..|s| - 1], s[|s| - 1];
      FilterCounts(init, keep, x);
      assert s == init + [last];
      assert multiset(s) == multiset(init) + multiset{last};
    }
  }

  lemma {:induction false} FilterKeepsAll<T>(s: seq<T>, keep: T -> bool)
    requires forall i :: 0 <= i < |s| ==> keep(s[i])
    ensures Filter(s, keep) == s
  {
    if s != [] {
      FilterKeepsAll(s[..|s| - 1], keep);
    }
  }

  lemma {:induction false} FilterTwice<T>(s: seq<T>, keep: T -> bool)
    ensures Filter(Filter(s, keep), keep) == Filter(s, keep)
  {
    var f := Filter(s, keep);
    forall i | 0 <= i < |f| ensures keep(f[i]) {
      FilterMembers(s, keep, f[i]);
    }
    FilterKeepsAll(f, keep);
  }
}
