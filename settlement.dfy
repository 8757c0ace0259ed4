/**
 * Combining the paid and billed totals into one settlement per user
 * (`calculateOverallSettlementPerUser`).
 */
module SettlementCalculator {
  import opened Models

  /** `m.getOrDefault(key, 0.0)`. */
  function GetOrZero(m: map<string, real>, key: string): real
  {
    if key in m then m[key] else 0.0
  }

  /**
   * The settlement of every user in either map: what they paid, and what
   * they were billed minus what they paid. Nobody is dropped or invented,
   * paid plus owed is the billed total, a user who paid but was billed
   * nothing holds a credit of what they paid, and a user billed without
   * paying owes the whole bill.
   */
  function OverallSettlement(paid: map<string, real>, billed: map<string, real>): (r: map<string, Settlement>)
    ensures r.Keys == paid.Keys + billed.Keys
    ensures forall u :: u in r ==> r[u].amountPaid == GetOrZero(paid, u)
    ensures forall u :: u in r ==> r[u].amountPaid + r[u].amountOwed == GetOrZero(billed, u)
    ensures forall u :: u in paid && u !in billed ==> r[u] == Settlement(paid[u], -paid[u])
    ensures forall u :: u in billed && u !in paid ==> r[u] == Settlement(0.0, billed[u])
  {
    map u | u in paid.Keys + billed.Keys :: Settlement(GetOrZero(paid, u), GetOrZero(billed, u) - GetOrZero(paid, u))
  }

  /**
   * `calculateOverallSettlementPerUser`: collect the union of both key sets,
   * then put one settlement per key into a fresh map.
   */
  method CalculateOverallSettlementPerUser(totalAmountPaidPerUser: map<string, real>, totalAmountBilledPerUser: map<string, real>)
    returns (overallSettlementPerUsers: map<string, Settlement>)
    ensures overallSettlementPerUsers == OverallSettlement(totalAmountPaidPerUser, totalAmountBilledPerUser)
  {
    var keys := totalAmountPaidPerUser.Keys;
    keys := keys + totalAmountBilledPerUser.Keys;
    ghost var target := OverallSettlement(totalAmountPaidPerUser, totalAmountBilledPerUser);
    overallSettlementPerUsers := map[];
    var remaining := keys;
    while remaining != {}
      invariant remaining <= keys
      invariant overallSettlementPerUsers.Keys == keys - remaining
      invariant forall u :: u in overallSettlementPerUsers ==> overallSettlementPerUsers[u] == target[u]
      decreases remaining
    {
      var k :| k in remaining;
      var paid := GetOrZero(totalAmountPaidPerUser, k);
      overallSettlementPerUsers := overallSettlementPerUsers[k := Settlement(paid, GetOrZero(totalAmountBilledPerUser, k) - paid)];
      remaining := remaining - {k};
    }
  }
}
