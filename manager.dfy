/**
 * `evaluateAmountPaidAndOwedPerUser` without its file loading: the three
 * record lists are parameters, and the steps run in the source's order.
 */
module CoffeePaymentManager {
  import opened Wrappers
  import opened Models
  import opened Catalog
  import opened PaidTotals
  import opened Billing
  import opened SettlementCalculator

  /**
   * Paid totals, then billed totals, then settlements. A billing failure
   * propagates and no settlement is produced: its error is the one raised by
   * a failing order that no failing order of the same user precedes.
   * Otherwise the settlement is the one computed from the two totals.
   */
  method EvaluateAmountPaidAndOwedPerUser(amountPaidByUsers: seq<Payments>, products: seq<Product>, orders: seq<Order>)
    returns (r: Result<map<string, Settlement>, Failure>)
    ensures r.Ok? <==> !(exists i :: 0 <= i < |orders| && OrderFails(orders, products, i))
    ensures r.Ok? ==> r.value == OverallSettlement(TotalAmountPaidPerUser(amountPaidByUsers), BilledTotals(orders, products))
    ensures r.Err? ==> exists i :: (0 <= i < |orders| && OrderFails(orders, products, i)
      && (forall j :: 0 <= j < i && orders[j].user == orders[i].user ==> !OrderFails(orders, products, j))
      && r.error == FailureOf(LookupPrice(products, orders[i])))
    ensures r.Err? && r.error.CoffeePaymentManagerException? ==>
      r.error.message == UnexpectedProductMessage
      && exists i :: 0 <= i < |orders| && LookupPrice(products, orders[i]).UnknownDrink?
    ensures r.Err? && (forall o :: o in orders ==> !LookupPrice(products, o).MissingSize?) ==>
      r.error == CoffeePaymentManagerException(UnexpectedProductMessage)
  {
    var totalAmountPaidPerUser := TotalAmountPaidPerUser(amountPaidByUsers);
    var totalAmountBilledPerUser := CalculateTotalAmountBilledPerUser(orders, products);
    BillingFailsIffSomeOrderFails(orders, products);
    if totalAmountBilledPerUser.Err? {
      ghost var u, k :| u in Customers(orders) && 0 <= k < |OrdersOf(orders, u)|
        && FailsAt(OrdersOf(orders, u), products, k)
        && (forall j :: 0 <= j < k ==> !FailsAt(OrdersOf(orders, u), products, j))
        && totalAmountBilledPerUser.error == FailureOf(LookupPrice(products, OrdersOf(orders, u)[k]));
      ghost var i := FirstFailureOnFlatList(orders, u, k, products);
      return Err(totalAmountBilledPerUser.error);
    }
    var settlements := CalculateOverallSettlementPerUser(totalAmountPaidPerUser, totalAmountBilledPerUser.value);
    return Ok(settlements);
  }

  /**
   * What a successful run reports, in terms of the input lists: every payer
   * and every user with a priced order is settled, `amountPaid` is the sum
   * of the user's payments (0 if none) and `amountOwed` is the sum of the
   * prices of the user's orders (0 if none) minus `amountPaid`.
   */
  lemma SettlementOfEveryUser(payments: seq<Payments>, orders: seq<Order>, products: seq<Product>)
    ensures var s := OverallSettlement(TotalAmountPaidPerUser(payments), BilledTotals(orders, products));
      && s.Keys == Payers(payments) + BilledTotals(orders, products).Keys
      && forall u :: u in s ==>
        && s[u].amountPaid == AmountPaidBy(payments, u)
        && s[u].amountOwed == PricedSum(OrdersOf(orders, u), products) - AmountPaidBy(payments, u)
  {
    var paid, billed := TotalAmountPaidPerUser(payments), BilledTotals(orders, products);
    forall u | u in paid.Keys + billed.Keys
      ensures GetOrZero(paid, u) == AmountPaidBy(payments, u)
      ensures GetOrZero(billed, u) == PricedSum(OrdersOf(orders, u), products)
    {
      if u !in paid {
        AmountPaidByNonPayer(payments, u);
      }
      if u !in billed {
        if u in Customers(orders) {
          PricedSumOfUnpriced(OrdersOf(orders, u), products);
        } else {
          OrdersOfNonCustomer(orders, u);
        }
      }
    }
  }
}
