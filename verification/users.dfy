/** `GET` and `POST /api/users`: look a user up, and create a user with an
    active plan. */
module UsersRoute {
  import opened Wrappers
  import opened UserModel
  import opened Api

  const IdRequired := "clerkId is required"
  const CreateFailed := "Failed to create user"

  /** `GET`: a missing id answers 400, an unknown one 404, and a known one
      the stored record as it is. Nothing is written. */
  function GetUser(store: Store, clerkId: Option<string>): (r: Result<User, ApiError>)
    ensures !Present(clerkId) ==> r == Failure(BadRequest(IdRequired))
    ensures Present(clerkId) && clerkId.value !in store ==> r == Failure(NotFound(UserNotFound))
    ensures r.Failure? ==> r.error.Status() == (if Present(clerkId) then 404 else 400)
    ensures r.Success? <==> Present(clerkId) && clerkId.value in store
    ensures r.Success? ==> r.value == store[clerkId.value]
  {
    if !Present(clerkId) then Failure(BadRequest(IdRequired))
    else if clerkId.value !in store then Failure(NotFound(UserNotFound))
    else Success(store[clerkId.value])
  }

  datatype CreateUserRequest = CreateUserRequest(
    clerkId: Option<string>,
    email: Option<string>,
    planId: Option<string>,
    planName: Option<string>,
    price: Option<real>)

  /** Every field is truthy; a price of 0 is refused (a negative one is not). */
  predicate WellFormed(req: CreateUserRequest) {
    && Present(req.clerkId) && Present(req.email) && Present(req.planId) && Present(req.planName)
    && NonZero(req.price)
  }

  /** `POST`: a falsy field answers 400. A new id gets a record with the
      requested plan active for one calendar month, no credits and no
      history; an id already stored is refused by the unique index, which
      surfaces as a 500, and the store is left as it was. */
  function CreateUser(store: Store, req: CreateUserRequest, clock: Clock): (o: Outcome<User>)
    ensures !WellFormed(req) ==> o == Outcome(Failure(BadRequest(MissingFields)), store)
    ensures WellFormed(req) && req.clerkId.value in store ==> o == Outcome(Failure(ServerError(CreateFailed)), store)
    ensures o.response.Failure? ==> o.response.error.Status() == (if WellFormed(req) then 500 else 400)
    ensures o.response.Success? <==> WellFormed(req) && req.clerkId.value !in store
    ensures o.response.Success? ==>
            var u := o.response.value;
            && o.store == store[req.clerkId.value := u]
            && u.clerkId == req.clerkId.value && u.email == req.email.value
            && u.currentPlan.planId == req.planId && u.currentPlan.planName == req.planName
            && u.currentPlan.price == req.price
            && u.currentPlan.status == Active
            && u.currentPlan.startDate == Some(clock.now)
            && u.currentPlan.endDate == Some(clock.oneMonthLater)
            && u.credits == 0.0 && u.paymentHistory == []
            && u.createdAt == clock.now && u.updatedAt == clock.now
  {
    if !WellFormed(req) then
      Outcome(Failure(BadRequest(MissingFields)), store)
    else
      var plan := ActivePlan(req.planId.value, req.planName.value, req.price.value, clock);
      var user := NewUser(req.clerkId.value, req.email.value, plan, clock.now);
      match Insert(store, user)
      case None => Outcome(Failure(ServerError(CreateFailed)), store)
      case Some(store') => Outcome(Success(user), store')
  }

  /** Creating and then looking up the same id returns the created record. */
  lemma CreateThenGet(store: Store, req: CreateUserRequest, clock: Clock)
    requires CreateUser(store, req, clock).response.Success?
    ensures GetUser(CreateUser(store, req, clock).store, req.clerkId)
         == Success(CreateUser(store, req, clock).response.value)
  {
  }

  /** The create handler keeps the store invariant. */
  lemma CreateUserPreservesInvariant(store: Store, req: CreateUserRequest, clock: Clock)
    requires ValidStore(store)
    ensures ValidStore(CreateUser(store, req, clock).store)
  {
  }
}
