/**
 * The amount each user paid: the payment list grouped by user, with the
 * amounts of each group summed (`groupingBy` with `summingDouble`).
 */
module PaidTotals {
  import opened Models

  /** The users that appear in the payment list. */
  function Payers(payments: seq<Payments>): set<string>
  {
    set p | p in payments :: p.user
  }

  /** The sum of the amounts `u` paid, in list order; 0 for a user with no payment. */
  function AmountPaidBy(payments: seq<Payments>, u: string): real
  {
    if payments == [] then 0.0
    else (if payments[0].user == u then payments[0].amount else 0.0) + AmountPaidBy(payments[1..], u)
  }

  /** Appending a payment adds its amount to its own user's sum and to no other. */
  lemma {:induction false} AmountPaidByAppend(payments: seq<Payments>, p: Payments, u: string)
    ensures AmountPaidBy(payments + [p], u) == AmountPaidBy(payments, u) + (if p.user == u then p.amount else 0.0)
  {
    if payments != [] {
      assert (payments + [p])[1..] == payments[1..] + [p];
      AmountPaidByAppend(payments[1..], p, u);
    }
  }

  /** A user who made no payment has paid 0. */
  lemma {:induction false} AmountPaidByNonPayer(payments: seq<Payments>, u: string)
    requires u !in Payers(payments)
    ensures AmountPaidBy(payments, u) == 0.0
  {
    if payments != [] {
      assert Payers(payments[1..]) <= Payers(payments);
      AmountPaidByNonPayer(payments[1..], u);
    }
  }

  /**
   * `calculateTotalAmountPaidPerUser`: the collector folds the list left to
   * right, creating a user's total at 0.0 on their first payment and adding
   * each amount to it. The result has one key per payer, holding the sum of
   * that payer's amounts; an empty list gives an empty map.
   */
  function TotalAmountPaidPerUser(payments: seq<Payments>): (r: map<string, real>)
    ensures r.Keys == Payers(payments)
    ensures forall u :: u in r ==> r[u] == AmountPaidBy(payments, u)
  {
    if payments == [] then map[]
    else
      var earlier, p := payments[..|payments| - 1], payments[|payments| - 1];
      assert payments == earlier + [p];
      var totals := TotalAmountPaidPerUser(earlier);
      var r := totals[p.user := (if p.user in totals then totals[p.user] else 0.0) + p.amount];
      assert forall u :: u in r ==> r[u] == AmountPaidBy(payments, u) by {
        forall u | u in r
          ensures r[u] == AmountPaidBy(payments, u)
        {
          AmountPaidByAppend(earlier, p, u);
          if u !in totals {
            AmountPaidByNonPayer(earlier, u);
          }
        }
      }
      r
  }
}
