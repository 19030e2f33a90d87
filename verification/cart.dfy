/** The cart of src/Cart/Cart.js: an item list that is either absent (the
    source's `null`) or present, the aggregates read from it, and updateCart,
    which reconciles the present list with a new one. */
module CurrentCart {
  import opened Errors
  import opened Items
  import opened ItemLists
  import opened Reconciliation

  class Cart {
    /** None until a list is given; a present list may be empty. */
    var items: Option<seq<CartItem>>

    /** Stores the given list as it is; with no argument the list is absent. */
    constructor (initial: Option<seq<CartItem>> := None)
      ensures items == initial
    {
      items := initial;
    }

    /** The `items` getter: fails with EmptyCart when the list is absent and
        returns the stored list unchanged otherwise. */
    function Items(): (r: Result<seq<CartItem>>)
      reads this
      ensures r.Failure? <==> items.None?
      ensures r.Failure? ==> r.error == EmptyCart
      ensures r.Success? ==> r.value == items.value
    {
      match items
      case None => Failure(EmptyCart)
      case Some(xs) => Success(xs)
    }

    /** Sum of quantity * price over the list; 0 for a present empty list. */
    method TotalPrice() returns (r: Result<int>)
      ensures items.None? ==> r == Failure(EmptyCart)
      ensures items.Some? ==> r == Success(SumTotals(items.value))
      ensures items == Some([]) ==> r == Success(0)
    {
      var listed := Items();
      if listed.Failure? {
        return Failure(listed.error);
      }
      var xs := listed.value;
      var total := 0;
      for i := 0 to |xs|
        invariant total == SumTotals(xs[..i])
      {
        assert xs[..i + 1][..i] == xs[..i];
        total := total + xs[i].Total();
      }
      assert xs[..|xs|] == xs;
      return Success(total);
    }

    /** Number of lines when `distinct`, otherwise the sum of the quantities. */
    method Count(distinct: bool := false) returns (r: Result<int>)
      ensures items.None? ==> r == Failure(EmptyCart)
      ensures items.Some? && distinct ==> r == Success(|items.value|)
      ensures items.Some? && !distinct ==> r == Success(SumQuantities(items.value))
    {
      var listed := Items();
      if listed.Failure? {
        return Failure(listed.error);
      }
      var xs := listed.value;
      var total := 0;
      for i := 0 to |xs|
        invariant total == if distinct then i else SumQuantities(xs[..i])
      {
        assert xs[..i + 1][..i] == xs[..i];
        total := total + if distinct then 1 else xs[i].quantity;
      }
      assert xs[..|xs|] == xs;
      return Success(total);
    }

    /** Rejects an absent list and leaves the cart as it was; fills an absent
        cart with the given list verbatim; otherwise replaces the list with the
        given entries already in the cart followed by those that are not. */
    method UpdateCart(incoming: Option<seq<CartItem>>) returns (r: Outcome)
      modifies this
      ensures incoming.None? ==> r == Fail(CartError.UpdateCart) && items == old(items)
      ensures incoming.Some? ==> r == Pass
      ensures incoming.Some? && old(items).None? ==> items == incoming
      ensures incoming.Some? && old(items).Some? ==>
        items == Some(Reconcile(old(items).value, incoming.value))
      ensures incoming.Some? ==>
        items.Some? && multiset(items.value) == multiset(incoming.value)
    {
      if incoming.None? {
        return Fail(CartError.UpdateCart);
      }
      var given := incoming.value;
      if items.None? {
        items := Some(given);
      } else {
        var held := items.value;
        var toKeep := Kept(held, given);
        var toAdd := Added(held, given);
        items := Some(toKeep + toAdd);
      }
      return Pass;
    }
  }

  /** Whatever the cart held before, a successful update leaves it with the
      same price total and the same quantity total as the given list: the
      reconciled list only reorders it. */
  lemma ReconcileKeepsAggregates(current: seq<CartItem>, incoming: seq<CartItem>)
    ensures SumTotals(Reconcile(current, incoming)) == SumTotals(incoming)
    ensures SumQuantities(Reconcile(current, incoming)) == SumQuantities(incoming)
    ensures |Reconcile(current, incoming)| == |incoming|
  {
    SumTotalsPermutation(Reconcile(current, incoming), incoming);
    SumQuantitiesPermutation(Reconcile(current, incoming), incoming);
  }
}
