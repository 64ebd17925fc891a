/**
 * The client-side domain store. `AppState` holds the five collections; each
 * operation is the pure state transform its source counterpart hands to the
 * collection's setter. The clock readings the source takes (`Date.now()`,
 * the current ISO time) arrive as `stamp`/`createdAt` parameters.
 */
module AppProvider {
  import opened Types
  import opened SeedData

  datatype AppState = AppState(
    inventory: seq<BloodInventory>,
    requests: seq<UrgentRequest>,
    camps: seq<DonationCamp>,
    donors: seq<Donor>,
    registrants: seq<CampRegistrant>)

  /** The state used when no collection has been persisted yet. */
  function InitialState(clock: DateOffset -> string): (s: AppState)
    ensures s.inventory == INITIAL_INVENTORY
    ensures s.requests == InitialRequests(clock)
    ensures s.camps == InitialCamps(clock) && s.donors == InitialDonors(clock)
    ensures s.registrants == []
  {
    AppState(INITIAL_INVENTORY, InitialRequests(clock), InitialCamps(clock), InitialDonors(clock), [])
  }

  /* ---------------------------------------------------------------------- */
  /* Inventory status rule                                                  */
  /* ---------------------------------------------------------------------- */

  /** The status an item with `quantity` units is given when its quantity is set. */
  function DeriveStatus(quantity: int): (r: ResourceStatus)
    ensures r == Critical <==> quantity <= 5
    ensures r == Low <==> 6 <= quantity <= 10
    ensures r == Available <==> quantity > 10
  {
    if quantity <= 5 then Critical
    else if quantity <= 10 then Low
    else Available
  }

  /** Rank of a status; a larger rank means more stock. */
  function StockRank(st: ResourceStatus): nat {
    match st
    case Critical => 0
    case Low => 1
    case Available => 2
  }

  /** More units never give a worse status. */
  lemma DeriveStatusMonotone(q1: int, q2: int)
    requires q1 <= q2
    ensures StockRank(DeriveStatus(q1)) <= StockRank(DeriveStatus(q2))
  {
  }

  /** Every item's stored status is the one its quantity derives. */
  ghost predicate InventoryConsistent(inv: seq<BloodInventory>) {
    forall i :: 0 <= i < |inv| ==> inv[i].status == DeriveStatus(inv[i].quantity)
  }

  /** The seeded statuses agree with the rule (25 Available, 8 Low, 3 Critical, 5 Critical, 9 Low, ...). */
  lemma SeedInventoryConsistent()
    ensures InventoryConsistent(INITIAL_INVENTORY)
  {
  }

  /* ---------------------------------------------------------------------- */
  /* updateInventory                                                        */
  /* ---------------------------------------------------------------------- */

  /**
   * `inv'` is `inv` with every item whose id is `id` given quantity `q` and
   * the status `q` derives, its other fields kept; all other items as they were.
   */
  ghost predicate IsQuantityUpdate(inv: seq<BloodInventory>, id: string, q: int, inv': seq<BloodInventory>) {
    && |inv'| == |inv|
    && (forall i :: 0 <= i < |inv| && inv[i].id != id ==> inv'[i] == inv[i])
    && (forall i :: 0 <= i < |inv| && inv[i].id == id ==>
          && inv'[i].id == inv[i].id
          && inv'[i].bloodType == inv[i].bloodType
          && inv'[i].location == inv[i].location
          && inv'[i].quantity == q
          && inv'[i].status == DeriveStatus(q))
  }

  /** The map over the inventory list that `updateInventory` passes to the setter. */
  function SetQuantity(inv: seq<BloodInventory>, id: string, q: int): (r: seq<BloodInventory>)
    ensures IsQuantityUpdate(inv, id, q, r)
  {
    if |inv| == 0 then []
    else
      var item := inv[0];
      var item' := if item.id == id then item.(quantity := q, status := DeriveStatus(q)) else item;
      [item'] + SetQuantity(inv[1..], id, q)
  }

  /** `IsQuantityUpdate` determines its result: `SetQuantity` is the only list meeting it. */
  lemma QuantityUpdateIsUnique(inv: seq<BloodInventory>, id: string, q: int, inv': seq<BloodInventory>)
    ensures IsQuantityUpdate(inv, id, q, inv') <==> inv' == SetQuantity(inv, id, q)
  {
  }

  /** An id that matches no item leaves the inventory as it was, with no error. */
  lemma SetQuantityUnknownId(inv: seq<BloodInventory>, id: string, q: int)
    requires forall i :: 0 <= i < |inv| ==> inv[i].id != id
    ensures SetQuantity(inv, id, q) == inv
  {
  }

  /** Setting the same item twice keeps only the second quantity. */
  lemma SetQuantityLastWins(inv: seq<BloodInventory>, id: string, q1: int, q2: int)
    ensures SetQuantity(SetQuantity(inv, id, q1), id, q2) == SetQuantity(inv, id, q2)
  {
  }

  /** Applying the same update twice gives the same list as applying it once. */
  lemma SetQuantityIdempotent(inv: seq<BloodInventory>, id: string, q: int)
    ensures SetQuantity(SetQuantity(inv, id, q), id, q) == SetQuantity(inv, id, q)
  {
  }

  /** A consistent inventory stays consistent: the status is recomputed with the quantity. */
  lemma SetQuantityKeepsConsistent(inv: seq<BloodInventory>, id: string, q: int)
    requires InventoryConsistent(inv)
    ensures InventoryConsistent(SetQuantity(inv, id, q))
  {
  }

  function UpdateInventory(s: AppState, id: string, q: int): (s': AppState)
    ensures IsQuantityUpdate(s.inventory, id, q, s'.inventory)
    ensures s'.requests == s.requests && s'.camps == s.camps
    ensures s'.donors == s.donors && s'.registrants == s.registrants
  {
    s.(inventory := SetQuantity(s.inventory, id, q))
  }

  /**
   * Seed item "3" (3 units, Critical) set to 12 units becomes Available with
   * 12 units; its neighbours are untouched.
   */
  lemma RestockSeedItemScenario(clock: DateOffset -> string)
    ensures UpdateInventory(InitialState(clock), "3", 12).inventory[2]
            == BloodInventory("3", BPos, 12, "MGM Hospital, Vashi", Available)
    ensures UpdateInventory(InitialState(clock), "3", 12).inventory[1] == INITIAL_INVENTORY[1]
    ensures UpdateInventory(InitialState(clock), "3", 12).inventory[3] == INITIAL_INVENTORY[3]
  {
  }

  /* ---------------------------------------------------------------------- */
  /* addRequest                                                             */
  /* ---------------------------------------------------------------------- */

  /**
   * Puts a new `Active` request built from `draft` at the front of the
   * list. Its id is "req" followed by the clock reading `stamp`.
   */
  function AddRequest(s: AppState, draft: RequestDraft, stamp: string, createdAt: string): (s': AppState)
    ensures |s'.requests| == |s.requests| + 1
    ensures s'.requests[1..] == s.requests
    ensures s'.requests[0].status == Active
    ensures s'.requests[0].id == "req" + stamp && s'.requests[0].createdAt == createdAt
    ensures var r := s'.requests[0];
            && r.bloodType == draft.bloodType && r.quantity == draft.quantity
            && r.urgency == draft.urgency && r.hospitalName == draft.hospitalName
            && r.hospitalLocation == draft.hospitalLocation
            && r.broadcastRadius == draft.broadcastRadius && r.fulfilledBy == draft.fulfilledBy
    ensures s'.inventory == s.inventory && s'.camps == s.camps
    ensures s'.donors == s.donors && s'.registrants == s.registrants
  {
    var newRequest := UrgentRequest(
      "req" + stamp, draft.bloodType, draft.quantity, draft.urgency,
      draft.hospitalName, draft.hospitalLocation, draft.broadcastRadius,
      createdAt, Active, draft.fulfilledBy);
    s.(requests := [newRequest] + s.requests)
  }

  /* ---------------------------------------------------------------------- */
  /* fulfillRequest                                                         */
  /* ---------------------------------------------------------------------- */

  /**
   * `reqs'` is `reqs` with every request whose id is `rid` marked Fulfilled by
   * `donor`, whatever its status was; all other requests as they were.
   */
  ghost predicate IsFulfilment(reqs: seq<UrgentRequest>, rid: string, donor: string, reqs': seq<UrgentRequest>) {
    && |reqs'| == |reqs|
    && (forall i :: 0 <= i < |reqs| && reqs[i].id != rid ==> reqs'[i] == reqs[i])
    && (forall i :: 0 <= i < |reqs| && reqs[i].id == rid ==>
          reqs'[i] == reqs[i].(status := Fulfilled, fulfilledBy := Some(donor)))
  }

  /** The map over the request list that `fulfillRequest` passes to the setter. */
  function MarkFulfilled(reqs: seq<UrgentRequest>, rid: string, donor: string): (r: seq<UrgentRequest>)
    ensures IsFulfilment(reqs, rid, donor, r)
  {
    if |reqs| == 0 then []
    else
      var req := reqs[0];
      var req' := if req.id == rid then req.(status := Fulfilled, fulfilledBy := Some(donor)) else req;
      [req'] + MarkFulfilled(reqs[1..], rid, donor)
  }

  /** `IsFulfilment` determines its result: `MarkFulfilled` is the only list meeting it. */
  lemma FulfilmentIsUnique(reqs: seq<UrgentRequest>, rid: string, donor: string, reqs': seq<UrgentRequest>)
    ensures IsFulfilment(reqs, rid, donor, reqs') <==> reqs' == MarkFulfilled(reqs, rid, donor)
  {
  }

  /** An id that matches no request leaves the list as it was. */
  lemma MarkFulfilledUnknownId(reqs: seq<UrgentRequest>, rid: string, donor: string)
    requires forall i :: 0 <= i < |reqs| ==> reqs[i].id != rid
    ensures MarkFulfilled(reqs, rid, donor) == reqs
  {
  }

  /**
   * There is no guard on the prior status: fulfilling an already fulfilled
   * request again replaces the recorded donor with the later one.
   */
  lemma MarkFulfilledLastDonorWins(reqs: seq<UrgentRequest>, rid: string, first: string, second: string)
    ensures MarkFulfilled(MarkFulfilled(reqs, rid, first), rid, second) == MarkFulfilled(reqs, rid, second)
  {
  }

  function FulfillRequest(s: AppState, rid: string, donor: string): (s': AppState)
    ensures IsFulfilment(s.requests, rid, donor, s'.requests)
    ensures s'.inventory == s.inventory && s'.camps == s.camps
    ensures s'.donors == s.donors && s'.registrants == s.registrants
  {
    s.(requests := MarkFulfilled(s.requests, rid, donor))
  }

  /** An Expired request is overwritten too: it ends Fulfilled with the given donor. */
  lemma FulfillOverwritesExpired(s: AppState, i: nat, donor: string)
    requires i < |s.requests| && s.requests[i].status == Expired
    ensures FulfillRequest(s, s.requests[i].id, donor).requests[i].status == Fulfilled
    ensures FulfillRequest(s, s.requests[i].id, donor).requests[i].fulfilledBy == Some(donor)
  {
  }

  /** A request is well formed when it names a donor exactly when it is Fulfilled. */
  ghost predicate RequestsWellFormed(reqs: seq<UrgentRequest>) {
    forall i :: 0 <= i < |reqs| ==> (reqs[i].fulfilledBy.Some? <==> reqs[i].status == Fulfilled)
  }

  lemma SeedRequestsWellFormed(clock: DateOffset -> string)
    ensures RequestsWellFormed(InitialRequests(clock))
  {
  }

  lemma MarkFulfilledKeepsWellFormed(reqs: seq<UrgentRequest>, rid: string, donor: string)
    requires RequestsWellFormed(reqs)
    ensures RequestsWellFormed(MarkFulfilled(reqs, rid, donor))
  {
  }

  /* ---------------------------------------------------------------------- */
  /* registerForCamp (the version the provider exports)                     */
  /* ---------------------------------------------------------------------- */

  /** The new state together with the registrant record handed back to the caller. */
  datatype Registration = Registration(state: AppState, registrant: CampRegistrant)

  /**
   * Appends a registrant built from `draft` and returns it. Its id is "reg-"
   * followed by the clock reading `idStamp`, its ticket id "TICKET-"
   * followed by the clock reading `ticketStamp`.
   */
  function RegisterForCamp(s: AppState, draft: RegistrationDraft, idStamp: string, ticketStamp: string): (r: Registration)
    ensures r.state.registrants == s.registrants + [r.registrant]
    ensures r.registrant.fullName == draft.fullName && r.registrant.age == draft.age
    ensures r.registrant.idProof == draft.idProof && r.registrant.photo == draft.photo
    ensures r.registrant.campId == draft.campId
    ensures r.registrant.id == "reg-" + idStamp
    ensures r.registrant.ticketId == "TICKET-" + ticketStamp
    ensures r.registrant.id != r.registrant.ticketId
    ensures r.state.inventory == s.inventory && r.state.requests == s.requests
    ensures r.state.camps == s.camps && r.state.donors == s.donors
  {
    var reg := CampRegistrant(
      "reg-" + idStamp, draft.fullName, draft.age, draft.idProof,
      draft.photo, draft.campId, "TICKET-" + ticketStamp);
    assert reg.id[0] != reg.ticketId[0];
    Registration(s.(registrants := s.registrants + [reg]), reg)
  }
}
