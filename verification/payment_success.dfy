/** `POST /api/payment-success`: records a completed payment, creating the
    user on first sight and starting a new cycle on a first payment or a
    plan change. */
module PaymentSuccessRoute {
  import opened Wrappers
  import opened UserModel
  import opened Api

  datatype PaymentRequest = PaymentRequest(
    clerkId: Option<string>,
    paymentIntentId: Option<string>,
    planId: Option<string>,
    amount: Option<real>)

  /** Every field is truthy; in particular an amount of 0 is refused. */
  predicate WellFormed(req: PaymentRequest) {
    Present(req.clerkId) && Present(req.paymentIntentId) && Present(req.planId) && NonZero(req.amount)
  }

  /** The record the payment applies to: the stored one, or a fresh record
      with an empty email and an active snapshot of the plan. */
  function Payer(store: Store, clerkId: string, plan: Plan, clock: Clock): User {
    if clerkId in store then store[clerkId]
    else NewUser(clerkId, "", ActivePlan(plan.id, plan.name, plan.price, clock), clock.now)
  }

  /** The record with the payment appended and the snapshot reset when the
      history was empty or the stored plan id differs from the paid one. */
  function Paid(user: User, plan: Plan, paymentIntentId: string, amount: real, clock: Clock): User {
    var kind := if |user.paymentHistory| == 0 then Initial else Renewal;
    var entry := PaymentEntry(paymentIntentId, amount, plan.id, plan.name, clock.now, kind, None, None);
    var history := user.paymentHistory + [entry];
    var snapshot :=
      if |history| == 1 || user.currentPlan.planId != Some(plan.id)
      then ActivePlan(plan.id, plan.name, plan.price, clock)
      else user.currentPlan;
    user.(paymentHistory := history, currentPlan := snapshot)
  }

  /** The handler. A missing or falsy field answers 400 and an unknown plan
      404, both before any record is touched; otherwise exactly the payer's
      record is written. */
  function RecordPayment(store: Store, catalog: seq<Plan>, req: PaymentRequest, clock: Clock): (o: Outcome<User>)
    ensures !WellFormed(req) ==> o == Outcome(Failure(BadRequest(MissingFields)), store)
    ensures WellFormed(req) && !InCatalog(catalog, req.planId.value)
            ==> o == Outcome(Failure(NotFound(PlanNotFound)), store)
    ensures o.response.Success? <==> WellFormed(req) && InCatalog(catalog, req.planId.value)
    ensures o.response.Failure? ==> o.response.error.Status() == (if WellFormed(req) then 404 else 400)
    ensures o.response.Success? ==>
            && o.store.Keys == store.Keys + {req.clerkId.value}
            && (forall k | k in store && k != req.clerkId.value :: o.store[k] == store[k])
            && o.response.value == o.store[req.clerkId.value]
            && o.response.value.updatedAt == clock.now
  {
    if !WellFormed(req) then
      Outcome(Failure(BadRequest(MissingFields)), store)
    else
      match FindPlan(catalog, req.planId.value)
      case None => Outcome(Failure(NotFound(PlanNotFound)), store)
      case Some(plan) =>
        var id := req.clerkId.value;
        var user := Paid(Payer(store, id, plan, clock), plan, req.paymentIntentId.value, req.amount.value, clock);
        var store' := Save(store, id, user, clock.now);
        Outcome(Success(store'[id]), store')
  }

  const RecordFailed := "Failed to record payment"

  /** The handler with the schema check applied when the record is saved.
      A payer seen for the first time is built with an empty email, which
      the required `email` field refuses; the save then throws and the
      request is answered 500 with nothing saved. `RecordPayment` is the
      evidently intended behaviour, in which that record is created. */
  function RecordPaymentAsWritten(store: Store, catalog: seq<Plan>, req: PaymentRequest, clock: Clock): (o: Outcome<User>)
    ensures o.response.Failure? ==> o.store == store
    ensures o.response.Success? ==> o == RecordPayment(store, catalog, req, clock)
    ensures RecordPayment(store, catalog, req, clock).response.Failure? ==> o == RecordPayment(store, catalog, req, clock)
  {
    if !WellFormed(req) then
      Outcome(Failure(BadRequest(MissingFields)), store)
    else
      match FindPlan(catalog, req.planId.value)
      case None => Outcome(Failure(NotFound(PlanNotFound)), store)
      case Some(plan) =>
        var id := req.clerkId.value;
        var user := Paid(Payer(store, id, plan, clock), plan, req.paymentIntentId.value, req.amount.value, clock);
        match SaveValidated(store, id, user, clock.now)
        case None => Outcome(Failure(ServerError(RecordFailed)), store)
        case Some(store') => Outcome(Success(store'[id]), store')
  }

  /** As written, every payment by a payer with no stored record fails
      with 500 and saves nothing, where the intended handler creates the
      record. */
  lemma UnstoredPayerPaymentFails(store: Store, catalog: seq<Plan>, req: PaymentRequest, clock: Clock)
    requires WellFormed(req) && InCatalog(catalog, req.planId.value)
    requires req.clerkId.value !in store
    ensures RecordPaymentAsWritten(store, catalog, req, clock) == Outcome(Failure(ServerError(RecordFailed)), store)
    ensures RecordPaymentAsWritten(store, catalog, req, clock).response.error.Status() == 500
    ensures RecordPayment(store, catalog, req, clock).response.Success?
  {
    var plan := FindPlan(catalog, req.planId.value).value;
    var user := Paid(Payer(store, req.clerkId.value, plan, clock), plan, req.paymentIntentId.value, req.amount.value, clock);
    assert user.email == "";
  }

  /** For a stored payer with an email, the handler as written and the
      intended one answer and save the same. */
  lemma AsWrittenAgreesForStoredPayer(store: Store, catalog: seq<Plan>, req: PaymentRequest, clock: Clock)
    requires ValidStore(store) && ValidCatalog(catalog)
    requires Present(req.clerkId) ==> req.clerkId.value in store && store[req.clerkId.value].email != ""
    ensures RecordPaymentAsWritten(store, catalog, req, clock) == RecordPayment(store, catalog, req, clock)
  {
    if WellFormed(req) && InCatalog(catalog, req.planId.value) {
      var id := req.clerkId.value;
      var plan := FindPlan(catalog, req.planId.value).value;
      var payer := Payer(store, id, plan, clock);
      var user := Paid(payer, plan, req.paymentIntentId.value, req.amount.value, clock);
      assert RequiredFieldsPresent(user) by {
        var h := user.paymentHistory;
        forall i | 0 <= i < |h| ensures ValidEntry(h[i]) {
          if i < |payer.paymentHistory| {
            assert h[i] == payer.paymentHistory[i];
          }
        }
      }
    }
  }

  /** On success exactly one entry is appended and earlier entries are kept;
      it is typed `initial` exactly when the user had no history before
      (a user seen for the first time has none), and `renewal` otherwise. */
  lemma AppendsOneEntry(store: Store, catalog: seq<Plan>, req: PaymentRequest, clock: Clock)
    requires RecordPayment(store, catalog, req, clock).response.Success?
    ensures var id := req.clerkId.value;
      var before := if id in store then store[id].paymentHistory else [];
      var after := RecordPayment(store, catalog, req, clock).store[id].paymentHistory;
      var plan := FindPlan(catalog, req.planId.value).value;
      && |after| == |before| + 1
      && after[..|before|] == before
      && after[|before|] == PaymentEntry(req.paymentIntentId.value, req.amount.value, plan.id, plan.name,
                                         clock.now, if |before| == 0 then Initial else Renewal, None, None)
      && (after[|before|].kind == Initial <==> |before| == 0)
  {
  }

  /** On success the snapshot becomes an active copy of the paid plan for
      one calendar month from now exactly when the history was empty or the
      stored plan id differs from the paid one; otherwise it is untouched. */
  lemma PlanResetIff(store: Store, catalog: seq<Plan>, req: PaymentRequest, clock: Clock)
    requires RecordPayment(store, catalog, req, clock).response.Success?
    requires req.clerkId.value in store
    ensures var prior := store[req.clerkId.value];
      var after := RecordPayment(store, catalog, req, clock).store[req.clerkId.value];
      var plan := FindPlan(catalog, req.planId.value).value;
      var reset := |prior.paymentHistory| == 0 || prior.currentPlan.planId != Some(plan.id);
      && (reset ==> after.currentPlan == ActivePlan(plan.id, plan.name, plan.price, clock))
      && (!reset ==> after.currentPlan == prior.currentPlan)
  {
  }

  /** Paying again for the stored plan with a non-empty history changes
      nothing in the snapshot: a cancelled status and the old end date
      persist. */
  lemma SamePlanKeepsSnapshot(store: Store, catalog: seq<Plan>, req: PaymentRequest, clock: Clock)
    requires RecordPayment(store, catalog, req, clock).response.Success?
    requires req.clerkId.value in store
    requires |store[req.clerkId.value].paymentHistory| > 0
    requires store[req.clerkId.value].currentPlan.planId == Some(req.planId.value)
    ensures RecordPayment(store, catalog, req, clock).store[req.clerkId.value].currentPlan
         == store[req.clerkId.value].currentPlan
  {
  }

  /** For a stored user, the credit balance, email and creation time are
      never modified. */
  lemma ExistingUserKeepsCredits(store: Store, catalog: seq<Plan>, req: PaymentRequest, clock: Clock)
    requires RecordPayment(store, catalog, req, clock).response.Success?
    requires req.clerkId.value in store
    ensures var prior := store[req.clerkId.value];
      var after := RecordPayment(store, catalog, req, clock).store[req.clerkId.value];
      after.credits == prior.credits && after.email == prior.email && after.createdAt == prior.createdAt
  {
  }

  /** A user seen for the first time is created with an empty email, no
      credits, a single `initial` entry and an active snapshot of the paid
      plan for one calendar month. */
  lemma CreatesUnknownUser(store: Store, catalog: seq<Plan>, req: PaymentRequest, clock: Clock)
    requires RecordPayment(store, catalog, req, clock).response.Success?
    requires req.clerkId.value !in store
    ensures var u := RecordPayment(store, catalog, req, clock).store[req.clerkId.value];
      var plan := FindPlan(catalog, req.planId.value).value;
      && u.clerkId == req.clerkId.value && u.email == ""
      && u.credits == 0.0
      && |u.paymentHistory| == 1 && u.paymentHistory[0].kind == Initial
      && u.currentPlan == ActivePlan(plan.id, plan.name, plan.price, clock)
      && u.createdAt == clock.now && u.updatedAt == clock.now
  {
  }

  /** The handler keeps the store invariant. */
  lemma RecordPaymentPreservesInvariant(store: Store, catalog: seq<Plan>, req: PaymentRequest, clock: Clock)
    requires ValidStore(store) && ValidCatalog(catalog)
    ensures ValidStore(RecordPayment(store, catalog, req, clock).store)
  {
    var o := RecordPayment(store, catalog, req, clock);
    if o.response.Success? {
      var id := req.clerkId.value;
      var plan := FindPlan(catalog, req.planId.value).value;
      var payer := Payer(store, id, plan, clock);
      var user := Paid(payer, plan, req.paymentIntentId.value, req.amount.value, clock);
      assert ValidUser(user) by {
        var h := user.paymentHistory;
        forall i | 0 <= i < |h| ensures ValidEntry(h[i]) {
          if i < |payer.paymentHistory| {
            assert h[i] == payer.paymentHistory[i];
          }
        }
      }
    }
  }
}
