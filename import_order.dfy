/**
 * The report order of Automator.sorted_importers (automation.py:255-257):
 * Python's stable `sorted` on the key list
 * [initialized, errored, _should_transfer, transferred, processed, subject],
 * compared with Python 2 rules (False < True, None below both, strings
 * lexicographically).
 */
module ImportOrder {
  import opened Wrappers
  import opened PyCompare

  datatype SortKey = SortKey(
    initialized: bool,
    errored: bool,
    shouldTransfer: Option<bool>,
    transferred: bool,
    processed: bool,
    subject: string)

  function BoolRank(b: bool): int
  {
    if b then 1 else 0
  }

  /** Python 2 orders None below every other value, so None < False < True. */
  function DecisionRank(d: Option<bool>): int
  {
    match d
    case None => 0
    case Some(b) => 1 + BoolRank(b)
  }

  /** `a < b` on the key lists: the first field that differs decides. */
  predicate KeyLess(a: SortKey, b: SortKey)
  {
    if a.initialized != b.initialized then BoolRank(a.initialized) < BoolRank(b.initialized)
    else if a.errored != b.errored then BoolRank(a.errored) < BoolRank(b.errored)
    else if a.shouldTransfer != b.shouldTransfer then DecisionRank(a.shouldTransfer) < DecisionRank(b.shouldTransfer)
    else if a.transferred != b.transferred then BoolRank(a.transferred) < BoolRank(b.transferred)
    else if a.processed != b.processed then BoolRank(a.processed) < BoolRank(b.processed)
    else StrLess(a.subject, b.subject)
  }

  lemma KeyLessIrreflexive(a: SortKey)
    ensures !KeyLess(a, a)
  {
    StrLessIrreflexive(a.subject);
  }

  lemma KeyLessTransitive(a: SortKey, b: SortKey, c: SortKey)
    requires KeyLess(a, b) && KeyLess(b, c)
    ensures KeyLess(a, c)
  {
    if a.initialized == b.initialized == c.initialized && a.errored == b.errored == c.errored
       && a.shouldTransfer == b.shouldTransfer == c.shouldTransfer
       && a.transferred == b.transferred == c.transferred && a.processed == b.processed == c.processed
    {
      StrLessTransitive(a.subject, b.subject, c.subject);
    }
  }

  lemma KeyLessTotal(a: SortKey, b: SortKey)
    ensures a == b || KeyLess(a, b) || KeyLess(b, a)
  {
    StrLessTotal(a.subject, b.subject);
  }

  /**
   * Where a stable sort puts index `i` relative to index `j`: a smaller key
   * first, and equal keys in their original order.
   */
  predicate Precedes(keys: seq<SortKey>, i: nat, j: nat)
    requires i < |keys| && j < |keys|
  {
    KeyLess(keys[i], keys[j]) || (keys[i] == keys[j] && i < j)
  }

  lemma PrecedesTransitive(keys: seq<SortKey>, i: nat, j: nat, k: nat)
    requires i < |keys| && j < |keys| && k < |keys|
    requires Precedes(keys, i, j) && Precedes(keys, j, k)
    ensures Precedes(keys, i, k)
  {
    if KeyLess(keys[i], keys[j]) && KeyLess(keys[j], keys[k]) {
      KeyLessTransitive(keys[i], keys[j], keys[k]);
    }
  }

  lemma PrecedesTotal(keys: seq<SortKey>, i: nat, j: nat)
    requires i < |keys| && j < |keys| && i != j
    ensures Precedes(keys, i, j) || Precedes(keys, j, i)
  {
    KeyLessTotal(keys[i], keys[j]);
  }

  lemma PrecedesIrreflexive(keys: seq<SortKey>, i: nat)
    requires i < |keys|
    ensures !Precedes(keys, i, i)
  {
    KeyLessIrreflexive(keys[i]);
  }

  /** Indices into `keys`, each appearing in stable sorted position. */
  predicate SortedBy(keys: seq<SortKey>, order: seq<nat>)
  {
    && (forall p :: 0 <= p < |order| ==> order[p] < |keys|)
    && (forall p, q :: 0 <= p < q < |order| ==> Precedes(keys, order[p], order[q]))
  }

  function Range(n: nat): (r: seq<nat>)
    ensures |r| == n && forall i :: 0 <= i < n ==> r[i] == i
  {
    if n == 0 then [] else Range(n - 1) + [n - 1]
  }

  /** An index that precedes the head of a sorted list may be put in front of it. */
  lemma InsertBeforeHead(keys: seq<SortKey>, x: nat, order: seq<nat>)
    requires x < |keys| && SortedBy(keys, order) && order != [] && Precedes(keys, x, order[0])
    ensures SortedBy(keys, [x] + order)
  {
    forall q | 0 < q < |order|
      ensures Precedes(keys, x, order[q])
    {
      PrecedesTransitive(keys, x, order[0], order[q]);
    }
  }

  /**
   * When `x` does not precede the head, the head still precedes everything in
   * the rest with `x` inserted.
   */
  lemma InsertAfterHead(keys: seq<SortKey>, x: nat, order: seq<nat>, rest: seq<nat>)
    requires x < |keys| && SortedBy(keys, order) && order != [] && x != order[0]
    requires !Precedes(keys, x, order[0])
    requires SortedBy(keys, rest) && multiset(rest) == multiset(order[1..]) + multiset{x}
    ensures SortedBy(keys, [order[0]] + rest)
  {
    PrecedesTotal(keys, x, order[0]);
    forall q | 0 <= q < |rest|
      ensures Precedes(keys, order[0], rest[q])
    {
      assert rest[q] in multiset(rest);
      if rest[q] != x {
        assert rest[q] in multiset(order[1..]);
        var j :| 0 <= j < |order[1..]| && order[1..][j] == rest[q];
        assert order[j + 1] == rest[q];
      }
    }
  }

  lemma SortedTail(keys: seq<SortKey>, order: seq<nat>)
    requires SortedBy(keys, order) && order != []
    ensures SortedBy(keys, order[1..])
  {
    forall p, q | 0 <= p < q < |order[1..]|
      ensures Precedes(keys, order[1..][p], order[1..][q])
    {
      assert order[1..][p] == order[p + 1] && order[1..][q] == order[q + 1];
    }
  }

  /** Inserts index `x` into a stably sorted list of indices. */
  function Insert(keys: seq<SortKey>, x: nat, order: seq<nat>): (r: seq<nat>)
    requires x < |keys| && SortedBy(keys, order) && x !in order
    ensures SortedBy(keys, r)
    ensures multiset(r) == multiset(order) + multiset{x}
  {
    if order == [] then [x]
    else if Precedes(keys, x, order[0]) then
      InsertBeforeHead(keys, x, order);
      [x] + order
    else
      assert order == [order[0]] + order[1..];
      SortedTail(keys, order);
      assert x !in order[1..];
      var rest := Insert(keys, x, order[1..]);
      InsertAfterHead(keys, x, order, rest);
      assert multiset([order[0]] + rest) == multiset{order[0]} + multiset(rest);
      assert multiset(order) == multiset{order[0]} + multiset(order[1..]);
      [order[0]] + rest
  }

  /** The stable sort of the first `n` indices of `keys`. */
  function SortPrefix(keys: seq<SortKey>, n: nat): (r: seq<nat>)
    requires n <= |keys|
    ensures SortedBy(keys, r)
    ensures multiset(r) == multiset(Range(n))
  {
    if n == 0 then []
    else
      var sorted := SortPrefix(keys, n - 1);
      assert n - 1 !in multiset(Range(n - 1));
      Insert(keys, n - 1, sorted)
  }

  /**
   * `sorted(range(len(keys)), key=...)`: every index exactly once, smaller keys
   * first, ties kept in their original order.
   */
  function SortedOrder(keys: seq<SortKey>): (order: seq<nat>)
    ensures |order| == |keys|
    ensures forall i :: 0 <= i < |keys| ==> multiset(order)[i] == 1
    ensures forall p :: 0 <= p < |order| ==> order[p] < |keys|
    ensures forall p, q :: 0 <= p < q < |order| ==>
              KeyLess(keys[order[p]], keys[order[q]])
              || (keys[order[p]] == keys[order[q]] && order[p] < order[q])
  {
    var order := SortPrefix(keys, |keys|);
    assert |order| == |multiset(order)| == |multiset(Range(|keys|))| == |keys|;
    forall i | 0 <= i < |keys|
      ensures multiset(order)[i] == 1
    {
      RangeCountsOnce(|keys|, i);
    }
    order
  }

  lemma {:induction false} RangeCountsOnce(n: nat, i: nat)
    requires i < n
    ensures multiset(Range(n))[i] == 1
  {
    if i < n - 1 {
      RangeCountsOnce(n - 1, i);
      assert Range(n) == Range(n - 1) + [n - 1];
    } else {
      assert Range(n) == Range(n - 1) + [n - 1];
      assert i !in multiset(Range(n - 1));
    }
  }

  /** Every index of `keys` appears in the sorted order. */
  lemma SortedOrderCovers(keys: seq<SortKey>)
    ensures forall i :: 0 <= i < |keys| ==> i in SortedOrder(keys)
  {
    var order := SortedOrder(keys);
    var counts: multiset<nat> := multiset(order);
    forall i: nat | i < |keys|
      ensures i in order
    {
      assert counts[i] == 1;
    }
  }

  /** No entry of the sorted order has a strictly smaller key than an earlier one. */
  lemma SortedOrderNoInversion(keys: seq<SortKey>)
    ensures var order := SortedOrder(keys);
            forall p, q :: 0 <= p < q < |order| ==> !KeyLess(keys[order[q]], keys[order[p]])
  {
    var order := SortedOrder(keys);
    forall p, q | 0 <= p < q < |order|
      ensures !KeyLess(keys[order[q]], keys[order[p]])
    {
      if KeyLess(keys[order[q]], keys[order[p]]) {
        if KeyLess(keys[order[p]], keys[order[q]]) {
          KeyLessTransitive(keys[order[p]], keys[order[q]], keys[order[p]]);
        }
        KeyLessIrreflexive(keys[order[p]]);
      }
    }
  }

  /** The elements of `s` in the order the indices of `order` list them. */
  function Permute<T>(s: seq<T>, order: seq<nat>): (r: seq<T>)
    requires forall p :: 0 <= p < |order| ==> order[p] < |s|
    ensures |r| == |order| && forall p :: 0 <= p < |order| ==> r[p] == s[order[p]]
  {
    seq(|order|, p requires 0 <= p < |order| => s[order[p]])
  }

  /** When `order` lists every index of `s`, every element of `s` is in the permuted list. */
  lemma PermuteCovers<T>(s: seq<T>, order: seq<nat>)
    requires forall p :: 0 <= p < |order| ==> order[p] < |s|
    requires forall i :: 0 <= i < |s| ==> i in order
    ensures forall i :: 0 <= i < |s| ==> s[i] in Permute(s, order)
  {
    var r := Permute(s, order);
    forall i | 0 <= i < |s|
      ensures s[i] in r
    {
      assert i in order;
      var p :| 0 <= p < |order| && order[p] == i;
      assert r[p] == s[i];
    }
  }
}
