/** The upgrade offers shown by the plan-upgrade panel: the catalog plans
    strictly more expensive than the user's current price. */
module PlanUpgradeView {
  import opened Wrappers
  import opened UserModel

  /** `p.price > currentPrice`; comparing with an absent price is false. */
  predicate Exceeds(p: Plan, currentPrice: Option<real>) {
    currentPrice.Some? && p.price > currentPrice.value
  }

  /** `products.filter(p => p.price > currentPlan.price)`. */
  function AvailableUpgrades(catalog: seq<Plan>, currentPrice: Option<real>): (offered: seq<Plan>)
    ensures |offered| <= |catalog|
    ensures forall p | p in offered :: p in catalog && Exceeds(p, currentPrice)
    ensures forall p | p in catalog && Exceeds(p, currentPrice) :: p in offered
    decreases |catalog|
  {
    if |catalog| == 0 then []
    else
      (if Exceeds(catalog[0], currentPrice) then [catalog[0]] else [])
      + AvailableUpgrades(catalog[1..], currentPrice)
  }

  /** Filtering distributes over concatenation, so offers keep the
      catalog's order. */
  lemma {:induction false} UpgradesKeepOrder(a: seq<Plan>, b: seq<Plan>, currentPrice: Option<real>)
    ensures AvailableUpgrades(a + b, currentPrice)
         == AvailableUpgrades(a, currentPrice) + AvailableUpgrades(b, currentPrice)
    decreases |a|
  {
    if |a| > 0 {
      assert (a + b)[1..] == a[1..] + b;
      UpgradesKeepOrder(a[1..], b, currentPrice);
    } else {
      assert a + b == b;
    }
  }

  /** No plan priced at or below the current price is offered; with no
      current price nothing is. */
  lemma NeverOffersCheaperOrEqual(catalog: seq<Plan>, currentPrice: Option<real>, p: Plan)
    requires currentPrice.None? || p.price <= currentPrice.value
    ensures p !in AvailableUpgrades(catalog, currentPrice)
  {
  }
}
