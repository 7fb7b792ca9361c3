/** `POST /api/users/cancel`: marks the user's current plan as cancelled. */
module CancelRoute {
  import opened Wrappers
  import opened UserModel
  import opened Api

  datatype CancelReply = CancelReply(clerkId: string, currentPlan: CurrentPlan)

  const IdRequired := "User ID is required"

  /** The record with its plan status flipped; nothing else changes. */
  function WithCancelledPlan(user: User): User {
    user.(currentPlan := user.currentPlan.(status := Cancelled))
  }

  /** The handler. A missing id answers 400 and an unknown user 404, leaving
      the store as it was. Otherwise the status becomes `cancelled` whatever
      it was before, and the plan fields, credits, history and email are
      kept. */
  function Cancel(store: Store, clerkId: Option<string>, now: Timestamp): (o: Outcome<CancelReply>)
    ensures !Present(clerkId) ==> o == Outcome(Failure(BadRequest(IdRequired)), store)
    ensures Present(clerkId) && clerkId.value !in store ==> o == Outcome(Failure(NotFound(UserNotFound)), store)
    ensures o.response.Failure? ==> o.response.error.Status() == (if Present(clerkId) then 404 else 400)
    ensures o.response.Success? <==> Present(clerkId) && clerkId.value in store
    ensures o.response.Success? ==>
            && o.store.Keys == store.Keys
            && (forall k | k in store && k != clerkId.value :: o.store[k] == store[k])
    ensures o.response.Success? ==>
            var prior := store[clerkId.value];
            var after := o.store[clerkId.value];
            && after.currentPlan.status == Cancelled
            && after.currentPlan.planId == prior.currentPlan.planId
            && after.currentPlan.planName == prior.currentPlan.planName
            && after.currentPlan.price == prior.currentPlan.price
            && after.currentPlan.startDate == prior.currentPlan.startDate
            && after.currentPlan.endDate == prior.currentPlan.endDate
            && after.credits == prior.credits
            && after.paymentHistory == prior.paymentHistory
            && after.email == prior.email && after.clerkId == prior.clerkId
            && after.createdAt == prior.createdAt
            && after.updatedAt == now
            && o.response.value == CancelReply(prior.clerkId, after.currentPlan)
  {
    if !Present(clerkId) then
      Outcome(Failure(BadRequest(IdRequired)), store)
    else if clerkId.value !in store then
      Outcome(Failure(NotFound(UserNotFound)), store)
    else
      var user := store[clerkId.value];
      var store' := Save(store, clerkId.value, WithCancelledPlan(user), now);
      Outcome(Success(CancelReply(user.clerkId, store'[clerkId.value].currentPlan)), store')
  }

  /** Cancelling twice leaves the same store as cancelling once at the
      later time. */
  lemma CancelIdempotent(store: Store, clerkId: Option<string>, t1: Timestamp, t2: Timestamp)
    ensures Cancel(Cancel(store, clerkId, t1).store, clerkId, t2).store == Cancel(store, clerkId, t2).store
  {
  }

  /** The handler keeps the store invariant. */
  lemma CancelPreservesInvariant(store: Store, clerkId: Option<string>, now: Timestamp)
    requires ValidStore(store)
    ensures ValidStore(Cancel(store, clerkId, now).store)
  {
  }
}
