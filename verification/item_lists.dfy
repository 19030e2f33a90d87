/** The aggregates a cart computes over its list: the sum of the line totals
    and the sum of the quantities. Both read the items' current fields, so a
    setter called on a shared item changes them. */
module ItemLists {
  import opened Items

  /** Sum of quantity * price over the list, accumulated front to back. */
  function SumTotals(xs: seq<CartItem>): int
    reads xs
  {
    if xs == [] then 0 else SumTotals(xs[..|xs| - 1]) + xs[|xs| - 1].Total()
  }

  /** Sum of the quantities over the list, accumulated front to back. */
  function SumQuantities(xs: seq<CartItem>): int
    reads xs
  {
    if xs == [] then 0 else SumQuantities(xs[..|xs| - 1]) + xs[|xs| - 1].quantity
  }

  lemma {:induction false} SumTotalsAppend(a: seq<CartItem>, b: seq<CartItem>)
    ensures SumTotals(a + b) == SumTotals(a) + SumTotals(b)
    decreases |b|
  {
    if b == [] {
      assert a + b == a;
    } else {
      var b' := b[..|b| - 1];
      assert (a + b)[..|a + b| - 1] == a + b';
      SumTotalsAppend(a, b');
    }
  }

  lemma {:induction false} SumQuantitiesAppend(a: seq<CartItem>, b: seq<CartItem>)
    ensures SumQuantities(a + b) == SumQuantities(a) + SumQuantities(b)
    decreases |b|
  {
    if b == [] {
      assert a + b == a;
    } else {
      var b' := b[..|b| - 1];
      assert (a + b)[..|a + b| - 1] == a + b';
      SumQuantitiesAppend(a, b');
    }
  }

  /** If b holds the same items as a (with multiplicity), then b splits around
      one occurrence of a's last item, and what is left on both sides is again
      the same multiset. */
  lemma SplitAtLast<T>(a: seq<T>, b: seq<T>) returns (j: nat)
    requires a != [] && multiset(a) == multiset(b)
    ensures j < |b| && b[j] == a[|a| - 1]
    ensures b == b[..j] + [b[j]] + b[j + 1..]
    ensures multiset(a[..|a| - 1]) == multiset(b[..j] + b[j + 1..])
  {
    var x := a[|a| - 1];
    assert a == a[..|a| - 1] + [x];
    assert x in multiset(b);
    j :| 0 <= j < |b| && b[j] == x;
    assert b == b[..j] + [x] + b[j + 1..];
    calc {
      multiset(a[..|a| - 1]) + multiset{x};
      multiset(a);
      multiset(b);
      multiset(b[..j]) + multiset([x]) + multiset(b[j + 1..]);
      multiset(b[..j] + b[j + 1..]) + multiset{x};
    }
    var front, rest := multiset(a[..|a| - 1]), multiset(b[..j] + b[j + 1..]);
    assert front == (front + multiset{x}) - multiset{x};
    assert rest == (rest + multiset{x}) - multiset{x};
  }

  /** The price total does not depend on the order of the lines. */
  lemma {:induction false} SumTotalsPermutation(a: seq<CartItem>, b: seq<CartItem>)
    requires multiset(a) == multiset(b)
    ensures SumTotals(a) == SumTotals(b)
    decreases |a|
  {
    if a == [] {
      assert |b| == |multiset(b)| == 0;
    } else {
      var j := SplitAtLast(a, b);
      var rest := b[..j] + b[j + 1..];
      assert |rest| == |multiset(rest)| == |multiset(a[..|a| - 1])| == |a| - 1;
      SumTotalsPermutation(a[..|a| - 1], rest);
      SumTotalsAppend(b[..j] + [b[j]], b[j + 1..]);
      SumTotalsAppend(b[..j], [b[j]]);
      SumTotalsAppend(b[..j], b[j + 1..]);
      assert SumTotals([b[j]]) == b[j].Total() by {
        assert [b[j]][..0] == [];
      }
    }
  }

  /** The quantity total does not depend on the order of the lines. */
  lemma {:induction false} SumQuantitiesPermutation(a: seq<CartItem>, b: seq<CartItem>)
    requires multiset(a) == multiset(b)
    ensures SumQuantities(a) == SumQuantities(b)
    decreases |a|
  {
    if a == [] {
      assert |b| == |multiset(b)| == 0;
    } else {
      var j := SplitAtLast(a, b);
      var rest := b[..j] + b[j + 1..];
      assert |rest| == |multiset(rest)| == |multiset(a[..|a| - 1])| == |a| - 1;
      SumQuantitiesPermutation(a[..|a| - 1], rest);
      SumQuantitiesAppend(b[..j] + [b[j]], b[j + 1..]);
      SumQuantitiesAppend(b[..j], [b[j]]);
      SumQuantitiesAppend(b[..j], b[j + 1..]);
      assert SumQuantities([b[j]]) == b[j].quantity by {
        assert [b[j]][..0] == [];
      }
    }
  }
}
