/**
 * The records of the coffee settlement: payments, orders, the product
 * catalog and the per-user settlement, plus the ways a run can fail.
 * Amounts are exact reals; the source uses `Double`.
 */
module Models {

  /** One payment event: `user` paid `amount` (models/Payments.java). */
  datatype Payments = Payments(user: string, amount: real)

  /** One order: `user` ordered one `drink` in one `size` (models/Order.java). */
  datatype Order = Order(user: string, drink: string, size: string)

  /** A catalog entry: a drink and its price per size label (models/Product.java). */
  datatype Product = Product(drinkName: string, prices: map<string, real>)

  /** What one user paid and still owes; a negative `amountOwed` is a credit (models/Settlement.java). */
  datatype Settlement = Settlement(amountPaid: real, amountOwed: real)

  /** The message of the exception raised for an order whose drink is not in the catalog. */
  const UnexpectedProductMessage: string := "Unexpected Product found in Order by user."

  /** Why a settlement run aborts. */
  datatype Failure =
      /** `CoffeePaymentManagerException` with its message. */
    | CoffeePaymentManagerException(message: string)
      /** The `NullPointerException` raised when a `null` price is unboxed in `val + null`. */
    | NullUnboxing
}
