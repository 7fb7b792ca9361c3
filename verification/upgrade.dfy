/** `POST /api/users/upgrade`: moves a user to another catalog plan,
    prorating the price difference over the rest of the cycle. */
module UpgradeRoute {
  import opened Wrappers
  import opened UserModel
  import opened Api
  import opened Proration

  datatype UpgradeRequest = UpgradeRequest(
    clerkId: Option<string>,
    newPlanId: Option<string>,
    paymentIntentId: Option<string>)

  /** The `upgradeDetails` block of the reply. */
  datatype UpgradeDetails = UpgradeDetails(
    currentPlanRemainingValue: real,
    newPlanRemainingValue: real,
    upgradeAmount: real,
    creditsApplied: real,
    finalAmount: real,
    remainingCredits: real)

  datatype UpgradeReply = UpgradeReply(user: User, upgradeDetails: UpgradeDetails)

  /** The request carries every field the handler needs. */
  predicate WellFormed(req: UpgradeRequest) {
    Present(req.clerkId) && Present(req.newPlanId) && Present(req.paymentIntentId)
  }

  /** The end of the current cycle; a missing end date reads as `now`. */
  function CycleEnd(plan: CurrentPlan, now: Timestamp): Timestamp {
    plan.endDate.GetOr(now)
  }

  /** The proration figures for moving `user` to `plan` at `now`; a missing
      current price reads as 0. */
  function ProrationFor(user: User, plan: Plan, now: Timestamp): Proration {
    var days := DaysRemaining(CycleEnd(user.currentPlan, now), now);
    Prorate(user.currentPlan.price.GetOr(0.0), plan.price, user.credits, days)
  }

  /** The record after the upgrade, before it is saved. */
  function Upgraded(user: User, plan: Plan, paymentIntentId: string, now: Timestamp): User {
    var p := ProrationFor(user, plan, now);
    var snapshot := CurrentPlan(
      Some(plan.id), Some(plan.name), Some(plan.price),
      Some(now), Some(CycleEnd(user.currentPlan, now)), Active);
    var entry := PaymentEntry(
      paymentIntentId, p.finalAmount, plan.id, plan.name, now, Upgrade,
      Some(p.upgradeAmount), Some(p.creditApplied));
    user.(currentPlan := snapshot,
          paymentHistory := user.paymentHistory + [entry],
          credits := p.newCredits)
  }

  /** The handler. Validation failures answer 400, an unknown user or plan
      answers 404, and none of them touches the store; a success rewrites
      exactly the requesting user's record. */
  function HandleUpgrade(store: Store, catalog: seq<Plan>, req: UpgradeRequest, now: Timestamp): (o: Outcome<UpgradeReply>)
    ensures !WellFormed(req) ==> o == Outcome(Failure(BadRequest(MissingFields)), store)
    ensures WellFormed(req) && req.clerkId.value !in store ==> o == Outcome(Failure(NotFound(UserNotFound)), store)
    ensures WellFormed(req) && req.clerkId.value in store && !InCatalog(catalog, req.newPlanId.value)
            ==> o == Outcome(Failure(NotFound(PlanNotFound)), store)
    ensures o.response.Success? <==>
            WellFormed(req) && req.clerkId.value in store && InCatalog(catalog, req.newPlanId.value)
    ensures o.response.Success? ==>
            && o.store.Keys == store.Keys
            && (forall k | k in store && k != req.clerkId.value :: o.store[k] == store[k])
            && o.response.value.user == o.store[req.clerkId.value]
            && o.response.value.user.updatedAt == now
  {
    if !WellFormed(req) then
      Outcome(Failure(BadRequest(MissingFields)), store)
    else if req.clerkId.value !in store then
      Outcome(Failure(NotFound(UserNotFound)), store)
    else
      match FindPlan(catalog, req.newPlanId.value)
      case None => Outcome(Failure(NotFound(PlanNotFound)), store)
      case Some(plan) =>
        var user := store[req.clerkId.value];
        var p := ProrationFor(user, plan, now);
        var updated := Upgraded(user, plan, req.paymentIntentId.value, now);
        var store' := Save(store, req.clerkId.value, updated, now);
        var details := UpgradeDetails(
          p.currentPlanRemainingValue, p.newPlanRemainingValue, p.upgradeAmount,
          Min(p.newCredits, p.upgradeAmount), p.finalAmount, p.newCredits);
        Outcome(Success(UpgradeReply(store'[req.clerkId.value], details)), store')
  }

  /** Every failed upgrade answers 400 when a field is missing and 404
      otherwise: the handler never answers 500. */
  lemma UpgradeErrorStatus(store: Store, catalog: seq<Plan>, req: UpgradeRequest, now: Timestamp)
    ensures var o := HandleUpgrade(store, catalog, req, now);
      o.response.Failure? ==> o.response.error.Status() == (if WellFormed(req) then 404 else 400)
  {
  }

  /** On success, the new snapshot is an active copy of the catalog plan
      starting now, and the cycle end is kept (a missing one becomes now);
      email, creation time and every earlier history entry are kept, and the
      history grows by exactly one `upgrade` entry whose figures are the
      proration's: the charge, the prorated amount and the part of the OLD
      balance applied. */
  lemma UpgradeEffect(store: Store, catalog: seq<Plan>, req: UpgradeRequest, now: Timestamp)
    requires HandleUpgrade(store, catalog, req, now).response.Success?
    ensures var id := req.clerkId.value;
      var prior := store[id];
      var after := HandleUpgrade(store, catalog, req, now).store[id];
      var plan := FindPlan(catalog, req.newPlanId.value).value;
      var p := ProrationFor(prior, plan, now);
      && plan.id == req.newPlanId.value
      && after.currentPlan.planId == Some(plan.id)
      && after.currentPlan.planName == Some(plan.name)
      && after.currentPlan.price == Some(plan.price)
      && after.currentPlan.startDate == Some(now)
      && after.currentPlan.status == Active
      && (prior.currentPlan.endDate.Some? ==> after.currentPlan.endDate == prior.currentPlan.endDate)
      && (prior.currentPlan.endDate.None? ==> after.currentPlan.endDate == Some(now))
      && after.clerkId == prior.clerkId && after.email == prior.email && after.createdAt == prior.createdAt
      && |after.paymentHistory| == |prior.paymentHistory| + 1
      && after.paymentHistory[..|prior.paymentHistory|] == prior.paymentHistory
      && after.paymentHistory[|prior.paymentHistory|] == PaymentEntry(
           req.paymentIntentId.value, p.finalAmount, plan.id, plan.name, now, Upgrade,
           Some(p.upgradeAmount), Some(Min(prior.credits, p.upgradeAmount)))
      && after.credits == p.newCredits
  {
  }

  /** On success the reply agrees with what was stored: its charge and
      upgrade amount are those of the appended history entry, and its
      remaining credits are the stored balance. */
  lemma ReplyAgreesWithRecord(store: Store, catalog: seq<Plan>, req: UpgradeRequest, now: Timestamp)
    requires HandleUpgrade(store, catalog, req, now).response.Success?
    ensures var o := HandleUpgrade(store, catalog, req, now);
      var u := o.store[req.clerkId.value];
      var details := o.response.value.upgradeDetails;
      && |u.paymentHistory| > 0
      && var entry := u.paymentHistory[|u.paymentHistory| - 1];
      && entry.kind == Upgrade
      && details.finalAmount == entry.amount
      && entry.proratedAmount == Some(details.upgradeAmount)
      && details.remainingCredits == u.credits
      && o.response.value.user == u
  {
  }

  /** The reply's `creditsApplied` is taken against the NEW balance, unlike
      the history entry's `creditApplied`, which uses the old one. */
  lemma ReportedCreditsUseNewBalance(store: Store, catalog: seq<Plan>, req: UpgradeRequest, now: Timestamp)
    requires HandleUpgrade(store, catalog, req, now).response.Success?
    ensures var o := HandleUpgrade(store, catalog, req, now);
      var details := o.response.value.upgradeDetails;
      details.creditsApplied == Min(o.store[req.clerkId.value].credits, details.upgradeAmount)
  {
  }

  /** With a non-negative balance, the charge and the applied credit add up
      to the upgrade amount, and the charge is never negative. */
  lemma ChargePlusCreditIsUpgradeAmount(store: Store, catalog: seq<Plan>, req: UpgradeRequest, now: Timestamp)
    requires HandleUpgrade(store, catalog, req, now).response.Success?
    requires store[req.clerkId.value].credits >= 0.0
    ensures var o := HandleUpgrade(store, catalog, req, now);
      var u := o.store[req.clerkId.value];
      var entry := u.paymentHistory[|u.paymentHistory| - 1];
      && entry.amount >= 0.0 && u.credits >= 0.0
      && entry.proratedAmount.Some? && entry.creditApplied.Some?
      && entry.amount + entry.creditApplied.value == entry.proratedAmount.value
  {
    UpgradeEffect(store, catalog, req, now);
  }

  /** The handler keeps the store invariant. */
  lemma UpgradePreservesInvariant(store: Store, catalog: seq<Plan>, req: UpgradeRequest, now: Timestamp)
    requires ValidStore(store) && ValidCatalog(catalog)
    ensures ValidStore(HandleUpgrade(store, catalog, req, now).store)
  {
    var o := HandleUpgrade(store, catalog, req, now);
    if o.response.Success? {
      var id := req.clerkId.value;
      var plan := FindPlan(catalog, req.newPlanId.value).value;
      var updated := Upgraded(store[id], plan, req.paymentIntentId.value, now);
      assert ValidUser(updated) by {
        var h := updated.paymentHistory;
        forall i | 0 <= i < |h| ensures ValidEntry(h[i]) {
          if i < |store[id].paymentHistory| {
            assert h[i] == store[id].paymentHistory[i];
          }
        }
      }
    }
  }
}
