/** The earlier cart of src/Cart.js: the same two-state list as the current
    cart, with only the `items` getter and the price total. */
module EarlyCart {
  import opened Errors
  import opened Items
  import opened ItemLists

  class Cart {
    /** None until a list is given; a present list may be empty. */
    var items: Option<seq<CartItem>>

    /** Stores the given list as it is; with no argument the list is absent. */
    constructor (initial: Option<seq<CartItem>> := None)
      ensures items == initial
    {
      items := initial;
    }

    /** The `items` getter: fails with EmptyCart when the list is absent and
        returns the stored list unchanged otherwise. */
    function Items(): (r: Result<seq<CartItem>>)
      reads this
      ensures r.Failure? <==> items.None?
      ensures r.Failure? ==> r.error == EmptyCart
      ensures r.Success? ==> r.value == items.value
    {
      match items
      case None => Failure(EmptyCart)
      case Some(xs) => Success(xs)
    }

    /** Sum of quantity * price over the list, 0 for a present empty list;
        fails with EmptyCart, through Items, when the list is absent. */
    method TotalPrice() returns (r: Result<int>)
      ensures items.None? ==> r == Failure(EmptyCart)
      ensures items.Some? ==> r == Success(SumTotals(items.value))
      ensures items == Some([]) ==> r == Success(0)
    {
      var listed := Items();
      if listed.Failure? {
        return Failure(listed.error);
      }
      var xs := listed.value;
      var total := 0;
      for i := 0 to |xs|
        invariant total == SumTotals(xs[..i])
      {
        assert xs[..i + 1][..i] == xs[..i];
        total := total + xs[i].Total();
      }
      assert xs[..|xs|] == xs;
      return Success(total);
    }
  }
}
