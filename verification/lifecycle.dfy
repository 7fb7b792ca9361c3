/** Sequences of requests against one user record, and the worked upgrade
    scenarios, stated over the handler models. */
module Lifecycle {
  import opened Wrappers
  import opened UserModel
  import opened Proration
  import opened UpgradeRoute
  import opened PaymentSuccessRoute
  import opened CancelRoute
  import opened SyncRoute

  /** Two payments for the same plan by a user never seen before: the first
      is `initial` and starts the cycle, the second is `renewal` and leaves
      the snapshot (and so the cycle end) of the first. */
  lemma FirstPaymentThenRenewal(store: Store, catalog: seq<Plan>, req1: PaymentRequest, req2: PaymentRequest, c1: Clock, c2: Clock)
    requires RecordPayment(store, catalog, req1, c1).response.Success?
    requires req1.clerkId.value !in store
    requires req2.clerkId == req1.clerkId && req2.planId == req1.planId
    requires RecordPayment(RecordPayment(store, catalog, req1, c1).store, catalog, req2, c2).response.Success?
    ensures var s1 := RecordPayment(store, catalog, req1, c1).store;
      var s2 := RecordPayment(s1, catalog, req2, c2).store;
      var id := req1.clerkId.value;
      && |s2[id].paymentHistory| == 2
      && s2[id].paymentHistory[0].kind == Initial
      && s2[id].paymentHistory[1].kind == Renewal
      && s2[id].currentPlan == s1[id].currentPlan
      && s2[id].currentPlan.endDate == Some(c1.oneMonthLater)
  {
    var s1 := RecordPayment(store, catalog, req1, c1).store;
    var id := req1.clerkId.value;
    CreatesUnknownUser(store, catalog, req1, c1);
    AppendsOneEntry(s1, catalog, req2, c2);
    PlanResetIff(s1, catalog, req2, c2);
  }

  /** A user created by sign-in sync has no plan; the first payment is
      `initial` and activates the paid plan, whatever plan id is paid. */
  lemma SyncThenFirstPayment(store: Store, catalog: seq<Plan>, sreq: SyncRequest, preq: PaymentRequest, t: Timestamp, clock: Clock)
    requires Sync(store, sreq, t).response.Success?
    requires sreq.clerkId.value !in store
    requires preq.clerkId == sreq.clerkId
    requires RecordPayment(Sync(store, sreq, t).store, catalog, preq, clock).response.Success?
    ensures var s1 := Sync(store, sreq, t).store;
      var u := RecordPayment(s1, catalog, preq, clock).store[sreq.clerkId.value];
      var plan := FindPlan(catalog, preq.planId.value).value;
      && |u.paymentHistory| == 1 && u.paymentHistory[0].kind == Initial
      && u.currentPlan == ActivePlan(plan.id, plan.name, plan.price, clock)
      && u.email == sreq.email.value
      && u.credits == 0.0
  {
    var s1 := Sync(store, sreq, t).store;
    AppendsOneEntry(s1, catalog, preq, clock);
    PlanResetIff(s1, catalog, preq, clock);
  }

  /** Cancelling and then paying again for the same plan does not
      reactivate the subscription: a payment for the same plan keeps
      `cancelled` (an upgrade does reactivate it, see
      `CancelThenUpgradeReactivates`). */
  lemma CancelThenRenewStaysCancelled(store: Store, catalog: seq<Plan>, id: string, req: PaymentRequest, t: Timestamp, clock: Clock)
    requires id in store && id != ""
    requires |store[id].paymentHistory| > 0
    requires req.clerkId == Some(id) && store[id].currentPlan.planId == req.planId
    requires RecordPayment(Cancel(store, Some(id), t).store, catalog, req, clock).response.Success?
    ensures var s1 := Cancel(store, Some(id), t).store;
      var u := RecordPayment(s1, catalog, req, clock).store[id];
      && u.currentPlan.status == Cancelled
      && u.currentPlan.endDate == store[id].currentPlan.endDate
      && |u.paymentHistory| == |store[id].paymentHistory| + 1
      && u.paymentHistory[|u.paymentHistory| - 1].kind == Renewal
  {
    var s1 := Cancel(store, Some(id), t).store;
    SamePlanKeepsSnapshot(s1, catalog, req, clock);
    AppendsOneEntry(s1, catalog, req, clock);
  }

  /** An upgrade after cancelling reactivates the subscription, for any
      catalog plan, the one already held included: the upgrade handler
      never compares the new plan with the stored one. */
  lemma CancelThenUpgradeReactivates(store: Store, catalog: seq<Plan>, id: string, req: UpgradeRequest, t: Timestamp, now: Timestamp)
    requires id in store && id != ""
    requires req.clerkId == Some(id) && UpgradeRoute.WellFormed(req) && InCatalog(catalog, req.newPlanId.value)
    ensures var s1 := Cancel(store, Some(id), t).store;
      var o := HandleUpgrade(s1, catalog, req, now);
      && s1[id].currentPlan.status == Cancelled
      && o.response.Success?
      && o.store[id].currentPlan.status == Active
      && o.store[id].currentPlan.planId == req.newPlanId
      && (store[id].currentPlan.planId == req.newPlanId ==> o.store[id].currentPlan.planId == store[id].currentPlan.planId)
  {
    var s1 := Cancel(store, Some(id), t).store;
    UpgradeEffect(s1, catalog, req, now);
  }

  // Worked upgrade scenarios: a Pro plan (2999 per month) moved to an
  // Enterprise plan (9999 per month).

  const Pro := Plan("pro", "Pro Plan", 2999.0)
  const Enterprise := Plan("enterprise", "Enterprise Plan", 9999.0)

  function Subscriber(credits: real, endDate: Timestamp): User {
    User("user_1", "a@example.com",
         CurrentPlan(Some(Pro.id), Some(Pro.name), Some(Pro.price), Some(0), Some(endDate), Active),
         [], credits, 0, 0)
  }

  /** Fifteen days before the cycle end with no credits: 15 days remain, the
      old plan has 1499.5 left, the new one 4999.5, and the full difference
      3500 is charged. */
  lemma ScenarioNoCredits(now: Timestamp)
    ensures var store := map["user_1" := Subscriber(0.0, now + 15 * MsPerDay)];
      var req := UpgradeRequest(Some("user_1"), Some("enterprise"), Some("pi_1"));
      var o := HandleUpgrade(store, [Pro, Enterprise], req, now);
      && o.response.Success?
      && o.response.value.upgradeDetails
         == UpgradeDetails(1499.5, 4999.5, 3500.0, 0.0, 3500.0, 0.0)
  {
    assert DaysRemaining(now + 15 * MsPerDay, now) == 15;
    assert FindPlan([Pro, Enterprise], "enterprise") == Some(Enterprise) by {
      assert IndexOfPlan([Pro, Enterprise], "enterprise") == 1 by {
        assert [Pro, Enterprise][1..] == [Enterprise];
      }
    }
  }

  /** The same with 2000 credits: 1500 is charged and the history records
      2000 credits applied, while the reply reports 0 because it is taken
      against the new balance, which is 0. */
  lemma ScenarioWithCredits(now: Timestamp)
    ensures var store := map["user_1" := Subscriber(2000.0, now + 15 * MsPerDay)];
      var req := UpgradeRequest(Some("user_1"), Some("enterprise"), Some("pi_1"));
      var o := HandleUpgrade(store, [Pro, Enterprise], req, now);
      && o.response.Success?
      && o.response.value.upgradeDetails
         == UpgradeDetails(1499.5, 4999.5, 3500.0, 0.0, 1500.0, 0.0)
      && o.store["user_1"].paymentHistory[0].creditApplied == Some(2000.0)
      && o.store["user_1"].credits == 0.0
  {
    assert DaysRemaining(now + 15 * MsPerDay, now) == 15;
    assert ProrationFor(Subscriber(2000.0, now + 15 * MsPerDay), Enterprise, now)
        == Proration(1499.5, 4999.5, 3500.0, 1500.0, 2000.0, 0.0);
    assert FindPlan([Pro, Enterprise], "enterprise") == Some(Enterprise) by {
      assert IndexOfPlan([Pro, Enterprise], "enterprise") == 1 by {
        assert [Pro, Enterprise][1..] == [Enterprise];
      }
    }
  }

  /** One day after the cycle ended: the remaining days are -1, not 0, so
      the upgrade is free and a positive balance loses the old plan's daily
      value. */
  lemma ScenarioExpired(now: Timestamp)
    ensures DaysRemaining(now - MsPerDay, now) == -1
    ensures var p := Prorate(999.0, 9999.0, 100.0, -1);
      && p.currentPlanRemainingValue == -33.3
      && p.upgradeAmount == 0.0 && p.finalAmount == 0.0
      && p.newCredits == 66.7
  {
  }
}
