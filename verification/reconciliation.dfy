/** The list reconciliation behind Cart.updateCart (src/Cart/Cart.js): the new
    list is split by a membership test against the current list into the
    entries to keep and the entries to add, and the result is the kept entries
    followed by the added ones. Membership is the only comparison made, so the
    model is generic in the entry type; for cart items, which are objects, it
    is reference identity, as with Array.prototype.includes. */
module Reconciliation {

  /** The entries of `incoming` already in `current`, in `incoming`'s order. */
  function Kept<T(==)>(current: seq<T>, incoming: seq<T>): (r: seq<T>)
    ensures |r| <= |incoming|
    ensures forall x :: x in r ==> x in current && x in incoming
    ensures forall x :: x in incoming && x in current ==> x in r
  {
    if incoming == [] then []
    else (if incoming[0] in current then [incoming[0]] else []) + Kept(current, incoming[1..])
  }

  /** The entries of `incoming` not in `current`, in `incoming`'s order. */
  function Added<T(==)>(current: seq<T>, incoming: seq<T>): (r: seq<T>)
    ensures |r| <= |incoming|
    ensures forall x :: x in r ==> x !in current && x in incoming
    ensures forall x :: x in incoming && x !in current ==> x in r
  {
    if incoming == [] then []
    else (if incoming[0] !in current then [incoming[0]] else []) + Added(current, incoming[1..])
  }

  /** The list a cart that already holds `current` ends up with: the kept
      entries followed by the added ones. It is always a rearrangement of the
      new list (same entries, same multiplicities, same length); `current`
      only decides the order. */
  function Reconcile<T(==)>(current: seq<T>, incoming: seq<T>): (r: seq<T>)
    ensures multiset(r) == multiset(incoming)
    ensures |r| == |incoming|
  {
    PartsPartitionIncoming(current, incoming);
    var joined := Kept(current, incoming) + Added(current, incoming);
    assert |joined| == |multiset(joined)| == |multiset(incoming)| == |incoming|;
    joined
  }

  /** Every entry of `incoming` lands in exactly one of the two parts, so
      together they hold the same entries as `incoming`, duplicates included. */
  lemma {:induction false} PartsPartitionIncoming<T>(current: seq<T>, incoming: seq<T>)
    ensures multiset(Kept(current, incoming)) + multiset(Added(current, incoming)) == multiset(incoming)
  {
    if incoming != [] {
      var head, tail := incoming[0], incoming[1..];
      PartsPartitionIncoming(current, tail);
      assert incoming == [head] + tail;
      if head in current {
        assert Kept(current, incoming) == [head] + Kept(current, tail);
        assert Added(current, incoming) == Added(current, tail);
      } else {
        assert Kept(current, incoming) == Kept(current, tail);
        assert Added(current, incoming) == [head] + Added(current, tail);
      }
    }
  }

  /** An entry ends up in the reconciled list exactly when the new list has
      it: a current entry missing from the new list is dropped. */
  lemma ReconcileMembership<T>(current: seq<T>, incoming: seq<T>, x: T)
    ensures x in Reconcile(current, incoming) <==> x in incoming
    ensures x in current && x !in incoming ==> x !in Reconcile(current, incoming)
  {
  }

  /** The reconciled list is kept entries first, then added entries: a prefix
      of entries all found in `current` followed by a suffix of entries none of
      which is. */
  lemma ReconcileOrder<T>(current: seq<T>, incoming: seq<T>)
    ensures var r, k := Reconcile(current, incoming), |Kept(current, incoming)|;
      k <= |r| &&
      (forall i :: 0 <= i < k ==> r[i] in current) &&
      (forall i :: k <= i < |r| ==> r[i] !in current)
  {
  }

  /** When every new entry is already in the cart, nothing is added and the
      kept part is the whole new list, in its own order. */
  lemma {:induction false} ReconcileKnownEntries<T>(current: seq<T>, incoming: seq<T>)
    requires forall x :: x in incoming ==> x in current
    ensures Reconcile(current, incoming) == incoming
  {
    KeptAll(current, incoming);
    AddedNone(current, incoming);
  }

  lemma {:induction false} KeptAll<T>(current: seq<T>, incoming: seq<T>)
    requires forall x :: x in incoming ==> x in current
    ensures Kept(current, incoming) == incoming
  {
    if incoming != [] {
      KeptAll(current, incoming[1..]);
    }
  }

  lemma {:induction false} AddedNone<T>(current: seq<T>, incoming: seq<T>)
    requires forall x :: x in incoming ==> x in current
    ensures Added(current, incoming) == []
  {
    if incoming != [] {
      AddedNone(current, incoming[1..]);
    }
  }

  /** When no new entry is in the cart, everything is added in the new
      list's order, so the result is the new list again. */
  lemma {:induction false} ReconcileUnknownEntries<T>(current: seq<T>, incoming: seq<T>)
    requires forall x :: x in incoming ==> x !in current
    ensures Reconcile(current, incoming) == incoming
  {
    if incoming != [] {
      ReconcileUnknownEntries(current, incoming[1..]);
      assert Kept(current, incoming) == Kept(current, incoming[1..]);
    }
  }

  /** Reconciling the same list a second time sets the list to exactly that
      list: after the first call every entry of it is present. */
  lemma ReconcileTwice<T>(current: seq<T>, incoming: seq<T>)
    ensures Reconcile(Reconcile(current, incoming), incoming) == incoming
  {
    forall x | x in incoming ensures x in Reconcile(current, incoming) {
      ReconcileMembership(current, incoming, x);
    }
    ReconcileKnownEntries(Reconcile(current, incoming), incoming);
  }

  /** The documented example: holding [a, b] and updating with [b, c] keeps b,
      drops a and adds c. */
  lemma ReconcileExample<T>(a: T, b: T, c: T)
    requires a != b && b != c && a != c
    ensures Reconcile([a, b], [b, c]) == [b, c]
  {
  }

  /** A first reconciling update can reorder the given list: holding [b] and
      updating with [a, b] gives [b, a], because held entries come first. So
      two carts given the same list agree as multisets but not always in
      order. */
  lemma ReconcileReorders<T>(a: T, b: T)
    requires a != b
    ensures Reconcile([b], [a, b]) == [b, a]
    ensures Reconcile([b], [a, b]) != [a, b]
  {
    assert [a, b][1..] == [b] && [b][1..] == [];
    assert Kept([b], [a, b]) == [b] && Added([b], [a, b]) == [a];
  }
}
