/** The persisted user record of `src/models/User.ts` and the document store
    that holds one record per authentication-provider user id. */
module UserModel {
  import opened Wrappers

  /** Milliseconds since the epoch, as a JavaScript `Date` holds them. */
  type Timestamp = int

  /** The `currentPlan.status` enumeration. */
  datatype PlanStatus = Active | Cancelled | Expired

  /** The `paymentHistory[].type` enumeration (`type` is a Dafny keyword,
      so the field is called `kind`). */
  datatype PaymentKind = Initial | Upgrade | Downgrade | Renewal

  /** The plan snapshot embedded in a user record. Every field except
      `status` is optional. */
  datatype CurrentPlan = CurrentPlan(
    planId: Option<string>,
    planName: Option<string>,
    price: Option<real>,
    startDate: Option<Timestamp>,
    endDate: Option<Timestamp>,
    status: PlanStatus)

  /** One entry of the append-only payment history. */
  datatype PaymentEntry = PaymentEntry(
    paymentIntentId: string,
    amount: real,
    planId: string,
    planName: string,
    date: Timestamp,
    kind: PaymentKind,
    proratedAmount: Option<real>,
    creditApplied: Option<real>)

  datatype User = User(
    clerkId: string,
    email: string,
    currentPlan: CurrentPlan,
    paymentHistory: seq<PaymentEntry>,
    credits: real,
    createdAt: Timestamp,
    updatedAt: Timestamp)

  /** The user collection, keyed by `clerkId` (required and unique). */
  type Store = map<string, User>

  /** An entry of the static plan catalog. */
  datatype Plan = Plan(id: string, name: string, price: real)

  /** The two clock readings a handler makes: the current time and what
      adding one calendar month to it yields (`setMonth(getMonth() + 1)`,
      whose calendar arithmetic is left to the environment). */
  datatype Clock = Clock(now: Timestamp, oneMonthLater: Timestamp)

  /** The snapshot a fresh record gets when none is given: no plan fields and
      the schema's default status. */
  const NoPlan: CurrentPlan := CurrentPlan(None, None, None, None, None, Expired)

  /** A freshly constructed record: empty history, and `createdAt` and
      `updatedAt` defaulting to the construction time. */
  function NewUser(clerkId: string, email: string, plan: CurrentPlan, now: Timestamp): (u: User)
    ensures u.clerkId == clerkId && u.email == email && u.currentPlan == plan
    ensures u.credits == 0.0 && u.paymentHistory == []
    ensures u.createdAt == now && u.updatedAt == now
  {
    User(clerkId, email, plan, [], 0.0, now, now)
  }

  /** An active snapshot of a plan running from `clock.now` for one
      calendar month. */
  function ActivePlan(planId: string, planName: string, price: real, clock: Clock): CurrentPlan {
    CurrentPlan(Some(planId), Some(planName), Some(price), Some(clock.now), Some(clock.oneMonthLater), Active)
  }

  /** Saving a record: the pre-save hook stamps `updatedAt` with the save
      time, and the document is written back under its key. */
  function Save(store: Store, key: string, u: User, now: Timestamp): (s: Store)
    ensures key in s && s[key] == u.(updatedAt := now)
    ensures s.Keys == store.Keys + {key}
    ensures forall k | k in store && k != key :: k in s && s[k] == store[k]
    ensures ValidStore(store) && u.clerkId == key && ValidUser(u) ==> ValidStore(s)
  {
    store[key := u.(updatedAt := now)]
  }

  /** The schema's `required` check as the document store applies it on
      save: a required string must be non-empty, so `clerkId`, `email` and
      each history entry's `paymentIntentId`, `planId` and `planName` must
      be non-empty. */
  predicate RequiredFieldsPresent(u: User) {
    && u.clerkId != ""
    && u.email != ""
    && forall i | 0 <= i < |u.paymentHistory| :: ValidEntry(u.paymentHistory[i])
  }

  /** Saving with the schema check: a record missing a required field makes
      the save throw and nothing is written; otherwise it is `Save`. */
  function SaveValidated(store: Store, key: string, u: User, now: Timestamp): (r: Option<Store>)
    ensures r.None? <==> !RequiredFieldsPresent(u)
    ensures r.Some? ==> key in r.value && r.value[key] == u.(updatedAt := now)
    ensures r.Some? ==> forall k | k in store && k != key :: k in r.value && r.value[k] == store[k]
  {
    if RequiredFieldsPresent(u) then Some(Save(store, key, u, now)) else None
  }

  /** Inserting a new document: the unique index on `clerkId` refuses a
      second record for an id already stored. */
  function Insert(store: Store, u: User): (r: Option<Store>)
    ensures r.None? <==> u.clerkId in store
    ensures r.Some? ==> r.value.Keys == store.Keys + {u.clerkId} && r.value[u.clerkId] == u
    ensures r.Some? ==> forall k | k in store :: k in r.value && r.value[k] == store[k]
  {
    if u.clerkId in store then None else Some(store[u.clerkId := u])
  }

  /** A history entry carries the fields the schema requires. */
  predicate ValidEntry(e: PaymentEntry) {
    e.paymentIntentId != "" && e.planId != "" && e.planName != ""
  }

  /** The record invariant: a non-empty id, a non-negative credit balance,
      and well-formed history entries. */
  predicate ValidUser(u: User) {
    && u.clerkId != ""
    && u.credits >= 0.0
    && forall i | 0 <= i < |u.paymentHistory| :: ValidEntry(u.paymentHistory[i])
  }

  /** The store invariant: each record sits under its own `clerkId`, so the
      store holds at most one record per id, and every record is valid. */
  predicate ValidStore(store: Store) {
    forall k | k in store :: store[k].clerkId == k && ValidUser(store[k])
  }

  /** Catalog entries have non-empty ids and names and non-negative prices. */
  predicate ValidCatalog(catalog: seq<Plan>) {
    forall i | 0 <= i < |catalog| :: catalog[i].id != "" && catalog[i].name != "" && catalog[i].price >= 0.0
  }

  /** Whether some catalog entry has the given id. */
  predicate InCatalog(catalog: seq<Plan>, id: string) {
    exists i | 0 <= i < |catalog| :: catalog[i].id == id
  }

  /** Index of the first catalog entry with the given id, or `|catalog|`. */
  function IndexOfPlan(catalog: seq<Plan>, id: string): (i: nat)
    ensures i <= |catalog|
    ensures i < |catalog| ==> catalog[i].id == id
    ensures forall j | 0 <= j < i :: catalog[j].id != id
    decreases |catalog|
  {
    if |catalog| == 0 then 0
    else if catalog[0].id == id then 0
    else 1 + IndexOfPlan(catalog[1..], id)
  }

  /** `products.find(p => p.id === id)`: the first entry with that id. */
  function FindPlan(catalog: seq<Plan>, id: string): (r: Option<Plan>)
    ensures r.None? <==> !InCatalog(catalog, id)
    ensures r.Some? ==> r.value in catalog && r.value.id == id
    ensures r.Some? ==> exists i | 0 <= i < |catalog| ::
              catalog[i] == r.value && forall j | 0 <= j < i :: catalog[j].id != id
    ensures r.Some? && ValidCatalog(catalog) ==> r.value.name != "" && r.value.price >= 0.0
  {
    var i := IndexOfPlan(catalog, id);
    if i < |catalog| then Some(catalog[i]) else None
  }
}
