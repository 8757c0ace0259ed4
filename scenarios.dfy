/** Concrete runs of the settlement, stated on the specification functions and on the pipeline. */
module Scenarios {
  import opened Wrappers
  import opened Models
  import opened Catalog
  import opened PaidTotals
  import opened Billing
  import opened SettlementCalculator
  import opened CoffeePaymentManager

  const LatteCatalog: seq<Product> := [Product("latte", map["small" := 2.5, "large" := 3.5])]
  const TwoPayments: seq<Payments> := [Payments("alice", 5.0), Payments("bob", 3.0)]
  const TwoOrders: seq<Order> := [Order("alice", "latte", "large"), Order("bob", "latte", "small")]

  lemma TwoUsersPaid()
    ensures var paid := TotalAmountPaidPerUser(TwoPayments);
      paid.Keys == {"alice", "bob"} && paid["alice"] == 5.0 && paid["bob"] == 3.0
  {
    assert Payers(TwoPayments) == {"alice", "bob"};
    assert AmountPaidBy(TwoPayments, "alice") == 5.0;
    assert AmountPaidBy(TwoPayments, "bob") == 3.0;
  }

  lemma TwoOrdersPriced()
    ensures forall o :: o in TwoOrders ==> LookupPrice(LatteCatalog, o).Priced?
    ensures LookupPrice(LatteCatalog, TwoOrders[0]) == Priced(3.5)
    ensures LookupPrice(LatteCatalog, TwoOrders[1]) == Priced(2.5)
  {
    assert EqualsIgnoreCase("latte", "latte");
  }

  lemma TwoUsersBilled()
    ensures !BillingFails(TwoOrders, LatteCatalog)
    ensures var billed := BilledTotals(TwoOrders, LatteCatalog);
      billed.Keys == {"alice", "bob"} && billed["alice"] == 3.5 && billed["bob"] == 2.5
  {
    TwoOrdersPriced();
    BilledWhenEveryOrderPriced(TwoOrders, LatteCatalog);
    assert Customers(TwoOrders) == {"alice", "bob"};
    assert OrdersOf(TwoOrders, "alice") == [TwoOrders[0]];
    assert OrdersOf(TwoOrders, "bob") == [TwoOrders[1]];
  }

  lemma SettleTwoUsers(paid: map<string, real>, billed: map<string, real>)
    requires paid.Keys == {"alice", "bob"} && paid["alice"] == 5.0 && paid["bob"] == 3.0
    requires billed.Keys == {"alice", "bob"} && billed["alice"] == 3.5 && billed["bob"] == 2.5
    ensures var settled := OverallSettlement(paid, billed);
      && settled.Keys == {"alice", "bob"}
      && settled["alice"] == Settlement(5.0, -1.5)
      && settled["bob"] == Settlement(3.0, -0.5)
  {
  }

  /**
   * Two users who each paid more than their one latte costs end with
   * credits: alice paid 5.0 for a 3.5 large, bob 3.0 for a 2.5 small.
   */
  lemma TwoUsersWithCredits()
    ensures !BillingFails(TwoOrders, LatteCatalog)
    ensures var settled := OverallSettlement(TotalAmountPaidPerUser(TwoPayments), BilledTotals(TwoOrders, LatteCatalog));
      && settled.Keys == {"alice", "bob"}
      && settled["alice"] == Settlement(5.0, -1.5)
      && settled["bob"] == Settlement(3.0, -0.5)
  {
    TwoUsersPaid();
    TwoUsersBilled();
    SettleTwoUsers(TotalAmountPaidPerUser(TwoPayments), BilledTotals(TwoOrders, LatteCatalog));
  }

  /** A user who ordered an espresso but paid nothing owes its price. */
  lemma OrderWithoutPayment()
    ensures var products := [Product("espresso", map["small" := 2.0])];
      var orders := [Order("carol", "espresso", "small")];
      && !BillingFails(orders, products)
      && OverallSettlement(TotalAmountPaidPerUser([]), BilledTotals(orders, products))
        == map["carol" := Settlement(0.0, 2.0)]
  {
    var products := [Product("espresso", map["small" := 2.0])];
    var orders := [Order("carol", "espresso", "small")];
    assert EqualsIgnoreCase("espresso", "espresso");
    assert LookupPrice(products, orders[0]) == Priced(2.0);
    BilledWhenEveryOrderPriced(orders, products);
    assert Customers(orders) == {"carol"};
    assert OrdersOf(orders, "carol") == orders;
  }

  /**
   * An order for a drink the catalog does not list makes the run fail with
   * the product exception and its fixed message.
   */
  method UnknownDrinkScenario() returns (r: Result<map<string, Settlement>, Failure>)
    ensures r == Err(CoffeePaymentManagerException(UnexpectedProductMessage))
  {
    var orders := [Order("dave", "mocha", "small")];
    assert LowerAscii("mocha"[0]) != LowerAscii("latte"[0]);
    assert LookupPrice(LatteCatalog, orders[0]) == UnknownDrink;
    assert OrderFails(orders, LatteCatalog, 0);
    r := EvaluateAmountPaidAndOwedPerUser([], LatteCatalog, orders);
  }

  /**
   * A size missing from a known drink's prices, on a user's first order, is
   * passed over: billing succeeds and the user is not billed at all.
   */
  lemma MissingSizeOnFirstOrderIsSkipped()
    ensures var orders := [Order("erin", "latte", "medium")];
      && !BillingFails(orders, LatteCatalog)
      && BilledTotals(orders, LatteCatalog) == map[]
  {
    var orders := [Order("erin", "latte", "medium")];
    assert EqualsIgnoreCase("latte", "latte");
    assert LookupPrice(LatteCatalog, orders[0]) == MissingSize;
    BillingFailsIffSomeOrderFails(orders, LatteCatalog);
    assert !OrderFails(orders, LatteCatalog, 0);
    assert Customers(orders) == {"erin"};
    assert OrdersOf(orders, "erin") == orders;
    assert !AnyPriced(orders, LatteCatalog);
  }

  /**
   * The same missing size after a priced order of the same user makes the
   * run fail on unboxing the missing price, not with the product exception.
   */
  method MissingSizeAfterPricedOrderFails() returns (r: Result<map<string, Settlement>, Failure>)
    ensures r == Err(NullUnboxing)
  {
    var orders := [Order("erin", "latte", "small"), Order("erin", "latte", "medium")];
    assert EqualsIgnoreCase("latte", "latte");
    assert LookupPrice(LatteCatalog, orders[0]) == Priced(2.5);
    assert LookupPrice(LatteCatalog, orders[1]) == MissingSize;
    assert OrderFails(orders, LatteCatalog, 1);
    r := EvaluateAmountPaidAndOwedPerUser([], LatteCatalog, orders);
  }

  /**
   * A skipped missing size of one user does not change the failure of
   * another user's unknown drink: the run fails with the product exception.
   */
  method SkippedSizeThenUnknownDrink() returns (r: Result<map<string, Settlement>, Failure>)
    ensures r == Err(CoffeePaymentManagerException(UnexpectedProductMessage))
  {
    var orders := [Order("erin", "latte", "medium"), Order("dave", "mocha", "small")];
    assert EqualsIgnoreCase("latte", "latte");
    assert LowerAscii("mocha"[0]) != LowerAscii("latte"[0]);
    assert LookupPrice(LatteCatalog, orders[0]) == MissingSize;
    assert LookupPrice(LatteCatalog, orders[1]) == UnknownDrink;
    assert !OrderFails(orders, LatteCatalog, 0);
    assert OrderFails(orders, LatteCatalog, 1);
    r := EvaluateAmountPaidAndOwedPerUser([], LatteCatalog, orders);
  }

  /**
   * One user's unknown drink after a priced order and before a missing size:
   * the orders are billed in list order, so the unknown drink fails first
   * and the run ends with the product exception, not the unboxing error.
   */
  method UnknownDrinkBeforeMissingSize() returns (r: Result<map<string, Settlement>, Failure>)
    ensures r == Err(CoffeePaymentManagerException(UnexpectedProductMessage))
  {
    var orders := [Order("erin", "latte", "small"), Order("erin", "mocha", "small"), Order("erin", "latte", "medium")];
    assert EqualsIgnoreCase("latte", "latte");
    assert LowerAscii("mocha"[0]) != LowerAscii("latte"[0]);
    assert LookupPrice(LatteCatalog, orders[0]) == Priced(2.5);
    assert LookupPrice(LatteCatalog, orders[1]) == UnknownDrink;
    assert LookupPrice(LatteCatalog, orders[2]) == MissingSize;
    assert !OrderFails(orders, LatteCatalog, 0);
    assert OrderFails(orders, LatteCatalog, 1);
    r := EvaluateAmountPaidAndOwedPerUser([], LatteCatalog, orders);
  }
}
