/** A cart line: one article with a quantity and a unit price (src/CartItem.js).
    Prices are whole numbers of the smallest currency unit, so totals are exact. */
module Items {
  import opened Errors

  class CartItem {
    /** Identity of the referenced article; set once, never below zero. */
    const articleId: nat
    var quantity: int
    var price: int

    /** Builds an item whose article id has already passed the check. */
    constructor (articleId: nat, quantity: int, price: int)
      ensures this.articleId == articleId
      ensures this.quantity == quantity && this.price == price
    {
      this.articleId := articleId;
      this.quantity := quantity;
      this.price := price;
    }

    /** The source's constructor: it rejects a negative article id and stores
        the three arguments unchanged otherwise. Zero is accepted. Quantity
        and price are not checked at all. */
    static method Create(articleId: int, quantity: int, price: int) returns (r: Result<CartItem>)
      ensures r.Failure? <==> articleId < 0
      ensures r.Failure? ==> r.error == InvalidArticleId
      ensures r.Success? ==> fresh(r.value)
      ensures r.Success? ==> r.value.articleId == articleId
      ensures r.Success? ==> r.value.quantity == quantity && r.value.price == price
    {
      if articleId < 0 {
        return Failure(InvalidArticleId);
      }
      var item := new CartItem(articleId, quantity, price);
      return Success(item);
    }

    /** The amount this line adds to a cart, read from the current fields. */
    function Total(): int
      reads this
    {
      quantity * price
    }

    /** Replaces the quantity with any value; nothing else changes. */
    method SetQuantity(value: int)
      modifies this
      ensures quantity == value && price == old(price)
      ensures Total() == value * old(price)
    {
      quantity := value;
    }

    /** Replaces the price with any value; nothing else changes. */
    method SetPrice(value: int)
      modifies this
      ensures price == value && quantity == old(quantity)
      ensures Total() == old(quantity) * value
    {
      price := value;
    }
  }
}
