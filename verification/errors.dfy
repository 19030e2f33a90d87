/** Error tags for the exceptions the cart classes throw, and the result types
    that carry them back to the caller instead of a thrown exception. */
module Errors {

  /** One tag per exception class: InvalidArticleIdException from the item
      constructor, EmptyCartException from reading a cart that has no list, and
      UpdateCartException from updateCart(null). */
  datatype CartError = InvalidArticleId | EmptyCart | UpdateCart

  /** The value an operation returns, or the exception it throws. */
  datatype Result<T> = Success(value: T) | Failure(error: CartError)

  /** The outcome of an operation that returns nothing. */
  datatype Outcome = Pass | Fail(error: CartError)

  /** An item list that may be absent: None stands for the source's `null`. */
  datatype Option<T> = None | Some(value: T)
}
