# Coffee settlement: a Dafny model

This project models the settlement calculation of a small coffee-club
application. Three lists are the input: the payments each user made, the
product catalog (a drink name and a price per size), and the orders placed
(user, drink, size). From these, `CoffeePaymentManager` computes:

1. the total each user paid (`calculateTotalAmountPaidPerUser`), the payment
   list grouped by user with the amounts summed;
2. the total billed to each user (`calculateTotalAmountBilledPerUser`), the
   orders grouped by user. Each order's drink is matched against the catalog
   ignoring case, its size is looked up in that product's prices, and the
   price is added into a per-user running total. A `computeIfPresent` /
   `computeIfAbsent` pair on a `HashMap` does the update;
3. one `Settlement(amountPaid, amountOwed)` per user in either total
   (`calculateOverallSettlementPerUser`), where `amountOwed` is the billed
   total minus the paid total and a negative value is a credit;
4. the composition of the three (`evaluateAmountPaidAndOwedPerUser`).

Modules, one per component:

- `Wrappers`: `Option` and `Result`.
- `Models`: the records `Payments`, `Order`, `Product` and `Settlement`, the
  exception message, and the two ways a run aborts. These are
  `CoffeePaymentManagerException` with its message, and the
  `NullPointerException` raised when a missing price is unboxed
  (`NullUnboxing`).
- `Catalog`: ASCII `equalsIgnoreCase`, the first-match catalog search
  standing in for `findAny`, and `LookupPrice`, which classifies an order as
  unknown drink, missing size or priced.
- `PaidTotals`: the paid totals, as a left fold proved equal to a
  per-user sum.
- `Billing`: the billed totals. `BillOrder` is the
  `computeIfPresent`/`computeIfAbsent` pair. `BillUserOrders` is the inner
  `forEach`. `CalculateTotalAmountBilledPerUser` is the outer `forEach`, which
  visits the grouped users in an unspecified order. A declarative
  specification (`BilledTotals`, `BillingFails`) is given alongside, with the
  lemmas that tie it to the flat order list.
- `SettlementCalculator`: the union of the key sets and the per-user
  settlement.
- `CoffeePaymentManager`: the pipeline and an end-to-end lemma.
- `Scenarios`: concrete runs.

Amounts are `real`, so sums and differences are exact.

A size missing from the matched product's prices does not raise
`CoffeePaymentManagerException` (`CoffeePaymentManager.java:148-163`):

- If the user has no running total yet, `computeIfAbsent` receives `null`
  and records nothing, so the order is skipped.
- If the user already has a running total, `val + null` in `computeIfPresent`
  fails with a null-unboxing error.

`Scenarios.MissingSizeOnFirstOrderIsSkipped` and
`Scenarios.MissingSizeAfterPricedOrderFails` show both outcomes, and
`Scenarios.SkippedSizeThenUnknownDrink` shows a skipped size next to another
user's unknown drink.

## Model

| member | source | states |
|---|---|---|
| `Catalog.EqualsIgnoreCaseIsEquivalence` | src/main/java/com/accenture/coffeeassignment/CoffeePaymentManager.java:150 | matching drink names ignoring case is reflexive, symmetric and transitive |
| `Catalog.CaseVariantsMatch` | src/main/java/com/accenture/coffeeassignment/CoffeePaymentManager.java:150 | two names of equal length whose characters differ at most in ASCII case match |
| `Catalog.FindProductMeaning` | src/main/java/com/accenture/coffeeassignment/CoffeePaymentManager.java:149-152 | the catalog search finds nothing exactly when no product name matches the drink ignoring case; otherwise it returns the first matching product |
| `Catalog.FindProductIgnoresCase` | src/main/java/com/accenture/coffeeassignment/CoffeePaymentManager.java:150 | two ordered drink names equal ignoring case find the same product |
| `Catalog.LookupPriceMeaning` | src/main/java/com/accenture/coffeeassignment/CoffeePaymentManager.java:149-154 | an order is an unknown drink iff no product matches it; otherwise a matching product has no price for its size (missing size) or prices it (priced) |
| `Catalog.LookupPriceOfAnyMatch` | src/main/java/com/accenture/coffeeassignment/CoffeePaymentManager.java:150-151 | with catalog names unique ignoring case, any matching product decides the lookup, so `findAny`'s choice does not matter |
| `Catalog.LatteIsPricedFromLowerCaseEntry` | src/main/java/com/accenture/coffeeassignment/CoffeePaymentManager.java:158-163 | an order for "Latte" is priced from the catalog entry "latte" |
| `PaidTotals.TotalAmountPaidPerUser` | src/main/java/com/accenture/coffeeassignment/CoffeePaymentManager.java:120-125 | the paid map's keys are exactly the users in the payment list; each value is the sum of that user's amounts; an empty list gives an empty map |
| `PaidTotals.AmountPaidByNonPayer` | src/main/java/com/accenture/coffeeassignment/CoffeePaymentManager.java:66 | a user with no payment has paid 0, the `getOrDefault` value |
| `Billing.OrdersOfMembers` | src/main/java/com/accenture/coffeeassignment/CoffeePaymentManager.java:141-142 | a user's group holds exactly the orders that user placed |
| `Billing.GroupOrdersByUser` | src/main/java/com/accenture/coffeeassignment/CoffeePaymentManager.java:141-142 | the grouping has one key per user who ordered, holding that user's orders in list order |
| `Billing.BillOrder` | src/main/java/com/accenture/coffeeassignment/CoffeePaymentManager.java:148-163 | an unknown drink raises the product exception whether or not the user has a running total; a priced order opens the user's total or adds its price to it exactly once; a missing size leaves a user without a total unchanged and fails on unboxing for a user with one |
| `Billing.BillUserOrders` | src/main/java/com/accenture/coffeeassignment/CoffeePaymentManager.java:145-165 | billing one user's orders fails iff one of them fails, and the error is that of the first failing order in list order; on success, the user's total is the sum of their priced orders, recorded only if some order was priced; no other user's total changes |
| `Billing.CalculateTotalAmountBilledPerUser` | src/main/java/com/accenture/coffeeassignment/CoffeePaymentManager.java:136-168 | billing succeeds iff no user's orders contain a failing order, and then returns the billed totals; on failure the error is that of the first failing order of some user's list |
| `Billing.BillingFailsIffSomeOrderFails` | src/main/java/com/accenture/coffeeassignment/CoffeePaymentManager.java:148-163 | billing aborts iff some order in the flat list has an unknown drink, or has a missing size after an earlier priced order of the same user |
| `Billing.UnknownDrinkAbortsBilling` | src/test/java/com/accenture/coffeeassignment/CoffeePaymentManagerTest.java:46-66 | any order whose drink matches no product aborts billing, for an existing user and a new user alike |
| `Billing.BilledWhenEveryOrderPriced` | src/main/java/com/accenture/coffeeassignment/CoffeePaymentManager.java:138-167 | when every order is priced, billing succeeds, the billed keys are exactly the users who ordered, and each value is the sum of the prices of that user's orders |
| `SettlementCalculator.OverallSettlement` | src/main/java/com/accenture/coffeeassignment/CoffeePaymentManager.java:59-71 | keys are exactly the union of the paid and billed keys; `amountPaid` is paid-or-0 and `amountPaid + amountOwed` is billed-or-0; a payer billed nothing holds a credit of what they paid; a user billed without paying owes the whole bill |
| `SettlementCalculator.CalculateOverallSettlementPerUser` | src/main/java/com/accenture/coffeeassignment/CoffeePaymentManager.java:61-69 | the `HashSet` union and the `put` loop build exactly that settlement map |
| `CoffeePaymentManager.EvaluateAmountPaidAndOwedPerUser` | src/main/java/com/accenture/coffeeassignment/CoffeePaymentManager.java:36-50 | the run succeeds iff no order fails and returns the settlement of the paid and billed totals; on failure the error is the one raised by a failing order of the flat list that no failing order of the same user precedes (the product exception with its fixed message for an unknown drink, the unboxing error for a missing size after a priced order of the same user); with no missing sizes, every failure is the product exception |
| `CoffeePaymentManager.SettlementOfEveryUser` | src/main/java/com/accenture/coffeeassignment/CoffeePaymentManager.java:43-48 | every payer and every user with a priced order is settled; `amountPaid` is the sum of the user's payments and `amountOwed` is the sum of their order prices minus that |
| `Scenarios.TwoUsersWithCredits` | src/main/java/com/accenture/coffeeassignment/CoffeePaymentManager.java:43-48 | alice paying 5.0 for a 3.5 latte and bob paying 3.0 for a 2.5 latte end with credits of 1.5 and 0.5 |
| `Scenarios.OrderWithoutPayment` | src/main/java/com/accenture/coffeeassignment/CoffeePaymentManager.java:66-68 | a user who ordered a 2.0 espresso and paid nothing is settled as paid 0, owed 2.0 |
| `Scenarios.UnknownDrinkScenario` | src/test/java/com/accenture/coffeeassignment/CoffeePaymentManagerTest.java:57-66 | the run on an order for a drink missing from the catalog ends with `CoffeePaymentManagerException` carrying the message "Unexpected Product found in Order by user." |
| `Scenarios.MissingSizeOnFirstOrderIsSkipped` | src/main/java/com/accenture/coffeeassignment/CoffeePaymentManager.java:157-163 | a missing size on a user's first order is passed over: billing succeeds and the user is not billed |
| `Scenarios.MissingSizeAfterPricedOrderFails` | src/main/java/com/accenture/coffeeassignment/CoffeePaymentManager.java:148-154 | the run on a missing size after a priced order of the same user ends with the unboxing error, not the product exception |
| `Scenarios.SkippedSizeThenUnknownDrink` | src/main/java/com/accenture/coffeeassignment/CoffeePaymentManager.java:145-163 | a skipped missing size on one user's first order, next to another user's unknown drink, leaves the run ending with the product exception |
| `Scenarios.UnknownDrinkBeforeMissingSize` | src/main/java/com/accenture/coffeeassignment/CoffeePaymentManager.java:145-163 | one user's priced order, unknown drink and missing size, billed in list order, end the run with the product exception, not the unboxing error |

## Left out

- Reading the three JSON files through Jackson (`CoffeePaymentManager.java:25`, `:80-110`) and its `IOException` are I/O and a foreign library. The three record lists are parameters of the pipeline instead.
- `MainApp.java` reads file paths from the console and prints the result. It is I/O only.
- `Double` arithmetic and the compensated summation of `summingDouble` are floating point. Amounts are exact `real`s, so sums and differences hold exactly.
- Null fields in the input records are not modelled: a null user, amount, order drink or prices map crashes on a null reference, and a null catalog drink name never matches because `equalsIgnoreCase` returns false for a null argument. The model's records have no nulls. The one `null` that well-formed input reaches, a missing size, is modelled.
- Unicode case folding in `equalsIgnoreCase` is not modelled; matching folds ASCII letters only.
- `models/Payment.java` is an unused duplicate of `Payments.java`.
- Duplicate drink names in the catalog: `findAny` is modelled as the first match. `Catalog.LookupPriceOfAnyMatch` shows that the choice does not matter when names are unique ignoring case.
- Billing.CalculateTotalAmountBilledPerUser: when several users have a failing order, it says only that the error is that of the first failing order of one of them. Users are visited in `HashMap` iteration order, which the model leaves unspecified, so which user's failure surfaces is not determined.
- CoffeePaymentManager.EvaluateAmountPaidAndOwedPerUser: for the same reason, it ties the error to a failing order that no failing order of the same user precedes, and does not say which user's first failing order surfaces when several users have one.
- The resource-based tests (`CoffeePaymentManagerTest.java:32-66`) depend on JSON fixtures that are not part of this model. Only their expected error behaviour is stated here, for example as `Billing.UnknownDrinkAbortsBilling`.
- Running the pipeline twice on the same input gives the same result on success, because the specification functions are deterministic. No separate lemma states this.
