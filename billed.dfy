/**
 * The amount billed to each user: orders grouped by user, each order priced
 * against the catalog and added into a per-user running total with the
 * `computeIfPresent` / `computeIfAbsent` pair of `calculateTotalAmountBilledPerUser`.
 */
module Billing {
  import opened Wrappers
  import opened Models
  import opened Catalog

  /** The users that placed at least one order. */
  function Customers(orders: seq<Order>): set<string>
  {
    set o | o in orders :: o.user
  }

  /** The orders of user `u`, in list order (what `groupingBy(Order::getUser)` collects for `u`). */
  function OrdersOf(orders: seq<Order>, u: string): seq<Order>
  {
    if orders == [] then []
    else (if orders[0].user == u then [orders[0]] else []) + OrdersOf(orders[1..], u)
  }

  /** A user's orders are exactly the orders in the list placed by that user. */
  lemma {:induction false} OrdersOfMembers(orders: seq<Order>, u: string)
    ensures forall o :: o in OrdersOf(orders, u) <==> o in orders && o.user == u
  {
    if orders != [] {
      OrdersOfMembers(orders[1..], u);
      assert orders == [orders[0]] + orders[1..];
    }
  }

  /** Appending an order extends its own user's group and no other. */
  lemma {:induction false} OrdersOfAppend(orders: seq<Order>, o: Order, u: string)
    ensures OrdersOf(orders + [o], u) == OrdersOf(orders, u) + (if o.user == u then [o] else [])
  {
    if orders != [] {
      assert (orders + [o])[1..] == orders[1..] + [o];
      OrdersOfAppend(orders[1..], o, u);
    }
  }

  /** Appending an order adds its user to the customers. */
  lemma CustomersAppend(orders: seq<Order>, o: Order)
    ensures Customers(orders + [o]) == Customers(orders) + {o.user}
  {
    assert forall x :: x in orders + [o] <==> x in orders || x == o;
  }

  /** A user who placed no order has no orders. */
  lemma OrdersOfNonCustomer(orders: seq<Order>, u: string)
    requires u !in Customers(orders)
    ensures OrdersOf(orders, u) == []
  {
    OrdersOfMembers(orders, u);
  }

  /** Adding an order to the grouping of the orders before it groups the longer list. */
  lemma GroupAppend(earlier: seq<Order>, o: Order, groups: map<string, seq<Order>>)
    requires groups.Keys == Customers(earlier)
    requires forall u :: u in groups ==> groups[u] == OrdersOf(earlier, u)
    ensures var g := groups[o.user := (if o.user in groups then groups[o.user] else []) + [o]];
      g.Keys == Customers(earlier + [o]) && forall u :: u in g ==> g[u] == OrdersOf(earlier + [o], u)
  {
    CustomersAppend(earlier, o);
    forall u
      ensures OrdersOf(earlier + [o], u) == OrdersOf(earlier, u) + (if o.user == u then [o] else [])
    {
      OrdersOfAppend(earlier, o, u);
    }
    if o.user !in groups {
      OrdersOfNonCustomer(earlier, o.user);
    }
  }

  /**
   * `orders.stream().collect(groupingBy(Order::getUser))`: one key per user
   * who ordered, holding that user's orders in list order.
   */
  function GroupOrdersByUser(orders: seq<Order>): (g: map<string, seq<Order>>)
    ensures g.Keys == Customers(orders)
    ensures forall u :: u in g ==> g[u] == OrdersOf(orders, u)
  {
    if orders == [] then map[]
    else
      var earlier, o := orders[..|orders| - 1], orders[|orders| - 1];
      assert orders == earlier + [o];
      var groups := GroupOrdersByUser(earlier);
      GroupAppend(earlier, o, groups);
      groups[o.user := (if o.user in groups then groups[o.user] else []) + [o]]
  }

  // ---------------------------------------------------------------------
  // Specification of one user's billing, over that user's orders `os`.
  // ---------------------------------------------------------------------

  /** Some order in `os` resolves to a price. */
  predicate AnyPriced(os: seq<Order>, products: seq<Product>)
  {
    exists j :: 0 <= j < |os| && LookupPrice(products, os[j]).Priced?
  }

  /** The price a lookup contributes to a running total: nothing unless it found one. */
  function PriceOrZero(l: PriceLookup): real
  {
    if l.Priced? then l.price else 0.0
  }

  /** The sum, in list order, of the prices of the orders in `os` that resolve to a price. */
  function PricedSum(os: seq<Order>, products: seq<Product>): real
  {
    if os == [] then 0.0 else PriceOrZero(LookupPrice(products, os[0])) + PricedSum(os[1..], products)
  }

  /**
   * Order `os[k]` aborts the run: its drink is not in the catalog, or its
   * size has no price while an earlier order of `os` already opened the
   * user's running total (the `val + null` of `computeIfPresent`).
   */
  predicate FailsAt(os: seq<Order>, products: seq<Product>, k: int)
    requires 0 <= k < |os|
  {
    var l := LookupPrice(products, os[k]);
    l.UnknownDrink? || (l.MissingSize? && AnyPriced(os[..k], products))
  }

  /** The failure a failing order raises. */
  function FailureOf(l: PriceLookup): Failure
  {
    if l.UnknownDrink? then CoffeePaymentManagerException(UnexpectedProductMessage) else NullUnboxing
  }

  /** Some order of `os` aborts the run. */
  predicate UserFails(os: seq<Order>, products: seq<Product>)
  {
    exists k :: 0 <= k < |os| && FailsAt(os, products, k)
  }

  /** Billing aborts: some user's orders contain a failing order. */
  predicate BillingFails(orders: seq<Order>, products: seq<Product>)
  {
    exists u :: u in Customers(orders) && UserFails(OrdersOf(orders, u), products)
  }

  /**
   * The billed totals of a run that does not abort: one key per user with at
   * least one priced order, holding the sum of that user's prices.
   */
  function BilledTotals(orders: seq<Order>, products: seq<Product>): map<string, real>
  {
    map u | u in Customers(orders) && AnyPriced(OrdersOf(orders, u), products) :: PricedSum(OrdersOf(orders, u), products)
  }

  /** A list with one more order has a priced order iff the list had one or the new order is priced. */
  lemma AnyPricedAppend(os: seq<Order>, o: Order, products: seq<Product>)
    ensures AnyPriced(os + [o], products) <==> AnyPriced(os, products) || LookupPrice(products, o).Priced?
  {
    if AnyPriced(os + [o], products) && !LookupPrice(products, o).Priced? {
      var j :| 0 <= j < |os + [o]| && LookupPrice(products, (os + [o])[j]).Priced?;
      assert (os + [o])[j] == os[j];
    }
    if AnyPriced(os, products) {
      var j :| 0 <= j < |os| && LookupPrice(products, os[j]).Priced?;
      assert (os + [o])[j] == os[j];
    }
    if LookupPrice(products, o).Priced? {
      assert (os + [o])[|os|] == o;
    }
  }

  /** Appending an order adds its price, or nothing, to the priced sum. */
  lemma {:induction false} PricedSumAppend(os: seq<Order>, o: Order, products: seq<Product>)
    ensures PricedSum(os + [o], products) == PricedSum(os, products) + PriceOrZero(LookupPrice(products, o))
  {
    if os != [] {
      assert (os + [o])[1..] == os[1..] + [o];
      PricedSumAppend(os[1..], o, products);
    }
  }

  /** A user none of whose orders resolve to a price has a sum of 0. */
  lemma {:induction false} PricedSumOfUnpriced(os: seq<Order>, products: seq<Product>)
    requires !AnyPriced(os, products)
    ensures PricedSum(os, products) == 0.0
  {
    if os != [] {
      assert !LookupPrice(products, os[0]).Priced?;
      assert forall j :: 0 <= j < |os[1..]| ==> os[1..][j] == os[j + 1];
      PricedSumOfUnpriced(os[1..], products);
    }
  }

  /** How billing the order at index `i` extends the specification of the prefix before it. */
  lemma PrefixStep(os: seq<Order>, i: int, products: seq<Product>)
    requires 0 <= i < |os|
    ensures var l := LookupPrice(products, os[i]);
      && (FailsAt(os, products, i) <==> l.UnknownDrink? || (l.MissingSize? && AnyPriced(os[..i], products)))
      && (AnyPriced(os[..i + 1], products) <==> AnyPriced(os[..i], products) || l.Priced?)
      && PricedSum(os[..i + 1], products) == PricedSum(os[..i], products) + PriceOrZero(l)
      && (!AnyPriced(os[..i], products) ==> PricedSum(os[..i], products) == 0.0)
  {
    assert os[..i + 1] == os[..i] + [os[i]];
    AnyPricedAppend(os[..i], os[i], products);
    PricedSumAppend(os[..i], os[i], products);
    if !AnyPriced(os[..i], products) {
      PricedSumOfUnpriced(os[..i], products);
    }
  }

  /** The billed totals of the users in `done`, from their groups of orders. */
  ghost function BilledFor(groups: map<string, seq<Order>>, done: set<string>, products: seq<Product>): map<string, real>
  {
    map u | u in done && u in groups && AnyPriced(groups[u], products) :: PricedSum(groups[u], products)
  }

  /** Finishing one more user adds that user's total if one of their orders is priced, and nothing otherwise. */
  lemma BilledForAdd(groups: map<string, seq<Order>>, done: set<string>, user: string, products: seq<Product>)
    requires user in groups && user !in done
    ensures user !in BilledFor(groups, done, products)
    ensures BilledFor(groups, done + {user}, products) == (
      if AnyPriced(groups[user], products)
      then BilledFor(groups, done, products)[user := PricedSum(groups[user], products)]
      else BilledFor(groups, done, products))
  {
  }

  /** Once every customer's group is billed, the totals are the billed totals of the order list. */
  lemma BilledForAllCustomers(orders: seq<Order>, products: seq<Product>)
    ensures BilledFor(GroupOrdersByUser(orders), Customers(orders), products) == BilledTotals(orders, products)
  {
  }

  // ---------------------------------------------------------------------
  // The failure condition restated on the flat order list.
  // ---------------------------------------------------------------------

  /**
   * Order `orders[i]` aborts billing: its drink is unknown, or its size is
   * missing while an earlier order of the same user was priced.
   */
  predicate OrderFails(orders: seq<Order>, products: seq<Product>, i: int)
    requires 0 <= i < |orders|
  {
    var l := LookupPrice(products, orders[i]);
    l.UnknownDrink?
    || (l.MissingSize? && exists j :: 0 <= j < i && orders[j].user == orders[i].user && LookupPrice(products, orders[j]).Priced?)
  }

  /** Whether appending order `o` to a user's orders `os` makes it fail. */
  predicate FailsAfter(os: seq<Order>, o: Order, products: seq<Product>)
  {
    var l := LookupPrice(products, o);
    l.UnknownDrink? || (l.MissingSize? && AnyPriced(os, products))
  }

  /** A list with one more order fails iff the list failed or the new order fails after it. */
  lemma UserFailsAppend(os: seq<Order>, o: Order, products: seq<Product>)
    ensures UserFails(os + [o], products) <==> UserFails(os, products) || FailsAfter(os, o, products)
  {
    var longer := os + [o];
    forall k | 0 <= k < |os|
      ensures FailsAt(longer, products, k) <==> FailsAt(os, products, k)
    {
      assert longer[..k] == os[..k];
    }
    assert longer[..|os|] == os;
    assert FailsAt(longer, products, |os|) <==> FailsAfter(os, o, products);
  }

  /** A user has a priced order iff some order of the flat list placed by that user is priced. */
  lemma AnyPricedOrdersOf(orders: seq<Order>, u: string, products: seq<Product>)
    ensures AnyPriced(OrdersOf(orders, u), products)
      <==> exists j :: 0 <= j < |orders| && orders[j].user == u && LookupPrice(products, orders[j]).Priced?
  {
    var os := OrdersOf(orders, u);
    OrdersOfMembers(orders, u);
    if AnyPriced(os, products) {
      var k :| 0 <= k < |os| && LookupPrice(products, os[k]).Priced?;
      assert os[k] in orders;
      var j :| 0 <= j < |orders| && orders[j] == os[k];
      assert orders[j].user == u;
    }
    if exists j :: 0 <= j < |orders| && orders[j].user == u && LookupPrice(products, orders[j]).Priced? {
      var j :| 0 <= j < |orders| && orders[j].user == u && LookupPrice(products, orders[j]).Priced?;
      assert orders[j] in os;
      var k :| 0 <= k < |os| && os[k] == orders[j];
      assert LookupPrice(products, os[k]).Priced?;
    }
  }

  /** Billing a list with one more order fails iff billing the list failed or the new order fails after its user's earlier orders. */
  lemma BillingFailsAppend(orders: seq<Order>, o: Order, products: seq<Product>)
    ensures BillingFails(orders + [o], products)
      <==> BillingFails(orders, products) || FailsAfter(OrdersOf(orders, o.user), o, products)
  {
    CustomersAppend(orders, o);
    if BillingFails(orders + [o], products) {
      BillingFailsAppendShrinks(orders, o, products);
    }
    if BillingFails(orders, products) {
      var u :| u in Customers(orders) && UserFails(OrdersOf(orders, u), products);
      OrdersOfAppend(orders, o, u);
      if u == o.user {
        UserFailsAppend(OrdersOf(orders, u), o, products);
      } else {
        assert OrdersOf(orders + [o], u) == OrdersOf(orders, u) + [] == OrdersOf(orders, u);
      }
      assert UserFails(OrdersOf(orders + [o], u), products);
    }
    if FailsAfter(OrdersOf(orders, o.user), o, products) {
      OrdersOfAppend(orders, o, o.user);
      UserFailsAppend(OrdersOf(orders, o.user), o, products);
      assert UserFails(OrdersOf(orders + [o], o.user), products);
    }
  }

  /** The left-to-right half of `BillingFailsAppend`. */
  lemma BillingFailsAppendShrinks(orders: seq<Order>, o: Order, products: seq<Product>)
    requires BillingFails(orders + [o], products)
    ensures BillingFails(orders, products) || FailsAfter(OrdersOf(orders, o.user), o, products)
  {
    CustomersAppend(orders, o);
    var u :| u in Customers(orders + [o]) && UserFails(OrdersOf(orders + [o], u), products);
    OrdersOfAppend(orders, o, u);
    if u != o.user {
      assert OrdersOf(orders + [o], u) == OrdersOf(orders, u) + [] == OrdersOf(orders, u);
      assert u in Customers(orders) && UserFails(OrdersOf(orders, u), products);
    } else {
      UserFailsAppend(OrdersOf(orders, u), o, products);
      if o.user !in Customers(orders) {
        OrdersOfNonCustomer(orders, o.user);
      }
    }
  }

  /** A flat list with one more order has a failing order iff the list had one or the new order fails after its user's earlier orders. */
  lemma SomeOrderFailsAppend(orders: seq<Order>, o: Order, products: seq<Product>)
    ensures (exists i :: 0 <= i < |orders + [o]| && OrderFails(orders + [o], products, i))
      <==> ((exists i :: 0 <= i < |orders| && OrderFails(orders, products, i))
        || FailsAfter(OrdersOf(orders, o.user), o, products))
  {
    var longer := orders + [o];
    forall i | 0 <= i < |orders|
      ensures OrderFails(longer, products, i) <==> OrderFails(orders, products, i)
    {
      assert forall j :: 0 <= j <= i ==> longer[j] == orders[j];
    }
    AnyPricedOrdersOf(orders, o.user, products);
    assert forall j :: 0 <= j < |orders| ==> longer[j] == orders[j];
    assert OrderFails(longer, products, |orders|) <==> FailsAfter(OrdersOf(orders, o.user), o, products);
  }

  /**
   * Billing aborts exactly when some order fails on the flat list: an unknown
   * drink fails for a new user and for a user with a running total alike; a
   * missing size fails only after a priced order of the same user and is
   * otherwise passed over.
   */
  lemma {:induction false} BillingFailsIffSomeOrderFails(orders: seq<Order>, products: seq<Product>)
    ensures BillingFails(orders, products) <==> exists i :: 0 <= i < |orders| && OrderFails(orders, products, i)
  {
    if orders == [] {
      assert Customers(orders) == {};
    } else {
      var earlier, o := orders[..|orders| - 1], orders[|orders| - 1];
      assert orders == earlier + [o];
      BillingFailsIffSomeOrderFails(earlier, products);
      BillingFailsAppend(earlier, o, products);
      SomeOrderFailsAppend(earlier, o, products);
    }
  }

  /**
   * The `k`-th order of user `u` sits at some index `i` of the flat list, and
   * the orders of `u` before it are the orders of `u` in `orders[..i]`.
   */
  lemma {:induction false} OrdersOfIndex(orders: seq<Order>, u: string, k: int) returns (i: int)
    requires 0 <= k < |OrdersOf(orders, u)|
    ensures 0 <= i < |orders| && orders[i] == OrdersOf(orders, u)[k]
    ensures OrdersOf(orders[..i], u) == OrdersOf(orders, u)[..k]
  {
    var rest := orders[1..];
    var mine := if orders[0].user == u then [orders[0]] else [];
    assert OrdersOf(orders, u) == mine + OrdersOf(rest, u);
    if orders[0].user == u && k == 0 {
      i := 0;
    } else {
      var i' := OrdersOfIndex(rest, u, k - |mine|);
      i := i' + 1;
      assert orders[..i][1..] == rest[..i'];
      assert OrdersOf(orders[..i], u) == mine + OrdersOf(rest, u)[..k - |mine|];
      assert (mine + OrdersOf(rest, u))[..k] == mine + OrdersOf(rest, u)[..k - |mine|];
    }
  }

  /** The orders of `u` in two lists placed one after the other. */
  lemma {:induction false} OrdersOfConcat(a: seq<Order>, b: seq<Order>, u: string)
    ensures OrdersOf(a + b, u) == OrdersOf(a, u) + OrdersOf(b, u)
  {
    if a == [] {
      assert a + b == b;
    } else {
      assert (a + b)[1..] == a[1..] + b;
      OrdersOfConcat(a[1..], b, u);
    }
  }

  /** An order of `u` at `j`, before `i`, makes the orders of `u` before `i` outnumber those before `j`. */
  lemma PrefixesGrow(orders: seq<Order>, j: int, i: int, u: string)
    requires 0 <= j < i <= |orders| && orders[j].user == u
    ensures |OrdersOf(orders[..j], u)| < |OrdersOf(orders[..i], u)|
  {
    assert orders[..i] == orders[..j] + ([orders[j]] + orders[j + 1..i]);
    OrdersOfConcat(orders[..j], [orders[j]] + orders[j + 1..i], u);
    OrdersOfConcat([orders[j]], orders[j + 1..i], u);
    assert OrdersOf([orders[j]], u) == [orders[j]];
  }

  /**
   * The order at flat index `j` is the `k`-th order of its user, where `k`
   * counts that user's orders before `j`; it fails on the flat list exactly
   * when it fails within its user's group.
   */
  lemma FlatToGroup(orders: seq<Order>, j: int, products: seq<Product>) returns (k: int)
    requires 0 <= j < |orders|
    ensures var os := OrdersOf(orders, orders[j].user);
      && k == |OrdersOf(orders[..j], orders[j].user)| && k < |os| && os[k] == orders[j]
      && os[..k] == OrdersOf(orders[..j], orders[j].user)
      && (OrderFails(orders, products, j) <==> FailsAt(os, products, k))
  {
    var u := orders[j].user;
    assert orders == orders[..j] + ([orders[j]] + orders[j + 1..]);
    OrdersOfConcat(orders[..j], [orders[j]] + orders[j + 1..], u);
    OrdersOfConcat([orders[j]], orders[j + 1..], u);
    assert OrdersOf([orders[j]], u) == [orders[j]];
    var os := OrdersOf(orders, u);
    k := |OrdersOf(orders[..j], u)|;
    assert os[..k] == OrdersOf(orders[..j], u);
    AnyPricedOrdersOf(orders[..j], u, products);
    assert forall m :: 0 <= m < j ==> orders[..j][m] == orders[m];
  }

  /**
   * The first failing order of a user's group is, on the flat list, a failing
   * order with no failing order of the same user before it.
   */
  lemma FirstFailureOnFlatList(orders: seq<Order>, u: string, k: int, products: seq<Product>) returns (i: int)
    requires 0 <= k < |OrdersOf(orders, u)| && FailsAt(OrdersOf(orders, u), products, k)
    requires forall j :: 0 <= j < k ==> !FailsAt(OrdersOf(orders, u), products, j)
    ensures 0 <= i < |orders| && orders[i] == OrdersOf(orders, u)[k] && OrderFails(orders, products, i)
    ensures forall j :: 0 <= j < i && orders[j].user == orders[i].user ==> !OrderFails(orders, products, j)
  {
    var os := OrdersOf(orders, u);
    i := OrdersOfIndex(orders, u, k);
    OrdersOfMembers(orders, u);
    assert orders[i] in os;
    var k' := FlatToGroup(orders, i, products);
    forall j | 0 <= j < i && orders[j].user == orders[i].user
      ensures !OrderFails(orders, products, j)
    {
      var kj := FlatToGroup(orders, j, products);
      PrefixesGrow(orders, j, i, u);
    }
  }

  /** An order whose drink is in no catalog entry aborts billing. */
  lemma UnknownDrinkAbortsBilling(orders: seq<Order>, products: seq<Product>, i: int)
    requires 0 <= i < |orders| && LookupPrice(products, orders[i]).UnknownDrink?
    ensures BillingFails(orders, products)
  {
    BillingFailsIffSomeOrderFails(orders, products);
    assert OrderFails(orders, products, i);
  }

  /**
   * When every order is priced, billing succeeds, every user who ordered has
   * a total, and that total is the sum of the prices of their orders.
   */
  lemma BilledWhenEveryOrderPriced(orders: seq<Order>, products: seq<Product>)
    requires forall o :: o in orders ==> LookupPrice(products, o).Priced?
    ensures !BillingFails(orders, products)
    ensures BilledTotals(orders, products).Keys == Customers(orders)
    ensures forall u :: u in Customers(orders) ==> BilledTotals(orders, products)[u] == PricedSum(OrdersOf(orders, u), products)
  {
    forall u | u in Customers(orders)
      ensures AnyPriced(OrdersOf(orders, u), products) && !UserFails(OrdersOf(orders, u), products)
    {
      var os := OrdersOf(orders, u);
      OrdersOfMembers(orders, u);
      var o :| o in orders && o.user == u;
      assert o in os;
      var k :| 0 <= k < |os| && os[k] == o;
      assert LookupPrice(products, os[k]).Priced?;
      forall k | 0 <= k < |os|
        ensures !FailsAt(os, products, k)
      {
        assert os[k] in orders;
      }
    }
  }

  // ---------------------------------------------------------------------
  // The source's algorithm.
  // ---------------------------------------------------------------------

  /**
   * One iteration of the inner `forEach`: `computeIfPresent` then
   * `computeIfAbsent` on the running totals. An unknown drink raises the
   * exception whether or not the user already has a total; a priced order
   * opens the user's total or adds to it, exactly once; a missing size adds
   * nothing to a user without a total (`computeIfAbsent` records no `null`)
   * and fails on unboxing for a user with one.
   */
  method BillOrder(total: map<string, real>, eachOrder: Order, products: seq<Product>)
    returns (r: Result<map<string, real>, Failure>)
    ensures match LookupPrice(products, eachOrder)
      case UnknownDrink => r == Err(CoffeePaymentManagerException(UnexpectedProductMessage))
      case MissingSize => r == if eachOrder.user in total then Err(NullUnboxing) else Ok(total)
      case Priced(price) =>
        r == Ok(total[eachOrder.user := (if eachOrder.user in total then total[eachOrder.user] else 0.0) + price])
  {
    var totals := total;
    // computeIfPresent: runs only for a user who already has a running total.
    if eachOrder.user in totals {
      var product := FindProduct(products, eachOrder.drink);
      if product.None? {
        return Err(CoffeePaymentManagerException(UnexpectedProductMessage));
      }
      var price := Get(product.value.prices, eachOrder.size);
      if price.None? {
        return Err(NullUnboxing);
      }
      totals := totals[eachOrder.user := totals[eachOrder.user] + price.value];
    }
    // computeIfAbsent: runs only for a user without one; a null price is not recorded.
    if eachOrder.user !in totals {
      var product := FindProduct(products, eachOrder.drink);
      if product.None? {
        return Err(CoffeePaymentManagerException(UnexpectedProductMessage));
      }
      var price := Get(product.value.prices, eachOrder.size);
      if price.Some? {
        totals := totals[eachOrder.user := price.value];
      }
    }
    return Ok(totals);
  }

  /**
   * The inner `forEach` of `calculateTotalAmountBilledPerUser`: bill the
   * orders of one user who has no running total yet, in list order. On
   * success the user's total is the sum of their priced orders, recorded
   * only if one of them was priced; no other user's total changes.
   */
  method BillUserOrders(total: map<string, real>, user: string, listOfOrders: seq<Order>, products: seq<Product>)
    returns (r: Result<map<string, real>, Failure>)
    requires user !in total
    requires forall o :: o in listOfOrders ==> o.user == user
    ensures r.Ok? <==> !UserFails(listOfOrders, products)
    ensures r.Ok? && AnyPriced(listOfOrders, products) ==> r.value == total[user := PricedSum(listOfOrders, products)]
    ensures r.Ok? && !AnyPriced(listOfOrders, products) ==> r.value == total
    ensures r.Err? ==> exists k :: (0 <= k < |listOfOrders| && FailsAt(listOfOrders, products, k)
      && (forall j :: 0 <= j < k ==> !FailsAt(listOfOrders, products, j))
      && r.error == FailureOf(LookupPrice(products, listOfOrders[k])))
  {
    var totals := total;
    var i := 0;
    while i < |listOfOrders|
      invariant 0 <= i <= |listOfOrders|
      invariant forall k :: 0 <= k < i ==> !FailsAt(listOfOrders, products, k)
      invariant totals ==
        if AnyPriced(listOfOrders[..i], products)
        then total[user := PricedSum(listOfOrders[..i], products)]
        else total
    {
      var eachOrder := listOfOrders[i];
      assert eachOrder.user == user by {
        assert eachOrder in listOfOrders;
      }
      PrefixStep(listOfOrders, i, products);
      ghost var lookup, sum := LookupPrice(products, eachOrder), PricedSum(listOfOrders[..i], products);
      ghost var previous := totals;
      var billed := BillOrder(totals, eachOrder, products);
      if billed.Err? {
        return billed;
      }
      totals := billed.value;
      if lookup.Priced? {
        assert totals == total[user := sum + lookup.price];
      } else {
        assert totals == previous;
      }
      i := i + 1;
    }
    assert listOfOrders[..i] == listOfOrders;
    return Ok(totals);
  }

  /**
   * `calculateTotalAmountBilledPerUser`: group the orders by user, then bill
   * each user's orders in list order. The users are visited in an
   * unspecified order (the source iterates a `HashMap`), so when several
   * users have a failing order, the failure reported is that of one of
   * them: the first failing order of that user's list.
   */
  method CalculateTotalAmountBilledPerUser(orders: seq<Order>, products: seq<Product>)
    returns (r: Result<map<string, real>, Failure>)
    ensures r.Ok? <==> !BillingFails(orders, products)
    ensures r.Ok? ==> r.value == BilledTotals(orders, products)
    ensures r.Err? ==> exists u, k :: (u in Customers(orders) && 0 <= k < |OrdersOf(orders, u)|
      && FailsAt(OrdersOf(orders, u), products, k)
      && (forall j :: 0 <= j < k ==> !FailsAt(OrdersOf(orders, u), products, j))
      && r.error == FailureOf(LookupPrice(products, OrdersOf(orders, u)[k])))
  {
    var totalAmountBilledPerUser: map<string, real> := map[];
    var orderPlacedByUser := GroupOrdersByUser(orders);
    var pending := orderPlacedByUser.Keys;
    ghost var done: set<string> := {};
    while pending != {}
      invariant pending + done == orderPlacedByUser.Keys && pending !! done
      invariant forall u :: u in done ==> !UserFails(orderPlacedByUser[u], products)
      invariant totalAmountBilledPerUser == BilledFor(orderPlacedByUser, done, products)
      decreases pending
    {
      var user :| user in pending;
      var listOfOrders := orderPlacedByUser[user];
      OrdersOfMembers(orders, user);
      BilledForAdd(orderPlacedByUser, done, user, products);
      var billed := BillUserOrders(totalAmountBilledPerUser, user, listOfOrders, products);
      if billed.Err? {
        return billed;
      }
      totalAmountBilledPerUser := billed.value;
      pending := pending - {user};
      done := done + {user};
    }
    BilledForAllCustomers(orders, products);
    return Ok(totalAmountBilledPerUser);
  }
}
