/** `POST /api/users/sync`: makes sure a record exists for a signed-in user
    and refreshes its email. */
module SyncRoute {
  import opened Wrappers
  import opened UserModel
  import opened Api

  datatype SyncRequest = SyncRequest(clerkId: Option<string>, email: Option<string>)

  predicate WellFormed(req: SyncRequest) {
    Present(req.clerkId) && Present(req.email)
  }

  /** The handler. A missing id or email answers 400. An unknown user is
      created with no plan (status `expired`), no credits and no history; a
      known user gets only the new email (and the save time). */
  function Sync(store: Store, req: SyncRequest, now: Timestamp): (o: Outcome<User>)
    ensures !WellFormed(req) ==> o == Outcome(Failure(BadRequest(MissingFields)), store)
    ensures o.response.Success? <==> WellFormed(req)
    ensures o.response.Success? ==>
            var id := req.clerkId.value;
            && o.store.Keys == store.Keys + {id}
            && (forall k | k in store && k != id :: o.store[k] == store[k])
            && o.response.value == o.store[id]
            && o.store[id].email == req.email.value
            && o.store[id].updatedAt == now
    ensures o.response.Success? && req.clerkId.value !in store ==>
            var u := o.store[req.clerkId.value];
            && u.clerkId == req.clerkId.value
            && u.currentPlan == NoPlan
            && u.credits == 0.0 && u.paymentHistory == []
            && u.createdAt == now
    ensures o.response.Success? && req.clerkId.value in store ==>
            o.store[req.clerkId.value]
            == store[req.clerkId.value].(email := req.email.value, updatedAt := now)
  {
    if !WellFormed(req) then
      Outcome(Failure(BadRequest(MissingFields)), store)
    else
      var id := req.clerkId.value;
      var user :=
        if id !in store then NewUser(id, req.email.value, NoPlan, now)
        else store[id].(email := req.email.value);
      var store' := Save(store, id, user, now);
      Outcome(Success(store'[id]), store')
  }

  /** Syncing again with the same request changes nothing but the record's
      save time. */
  lemma SyncIdempotent(store: Store, req: SyncRequest, t1: Timestamp, t2: Timestamp)
    requires WellFormed(req)
    ensures var once := Sync(store, req, t1).store;
      var id := req.clerkId.value;
      Sync(once, req, t2).store == once[id := once[id].(updatedAt := t2)]
  {
  }

  /** The handler keeps the store invariant. */
  lemma SyncPreservesInvariant(store: Store, req: SyncRequest, now: Timestamp)
    requires ValidStore(store)
    ensures ValidStore(Sync(store, req, now).store)
  {
  }
}
