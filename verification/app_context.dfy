/**
 * The store as its consumers see it: the four operations of the context
 * value, any sequence of calls to them, and the invariants every reachable
 * state keeps.
 */
module AppContext {
  import opened Types
  import opened SeedData
  import opened AppProvider

  /** One call to an operation of the context value, with the clock readings it takes. */
  datatype Action =
    | UpdateInventoryCall(id: string, quantity: int)
    | AddRequestCall(request: RequestDraft, stamp: string, createdAt: string)
    | FulfillRequestCall(requestId: string, donorName: string)
    | RegisterForCampCall(registration: RegistrationDraft, idStamp: string, ticketStamp: string)

  /** The state after one call; the record `registerForCamp` returns is not kept. */
  function Apply(s: AppState, a: Action): AppState {
    match a
    case UpdateInventoryCall(id, q) => UpdateInventory(s, id, q)
    case AddRequestCall(d, stamp, createdAt) => AddRequest(s, d, stamp, createdAt)
    case FulfillRequestCall(rid, donor) => FulfillRequest(s, rid, donor)
    case RegisterForCampCall(d, idStamp, ticketStamp) => RegisterForCamp(s, d, idStamp, ticketStamp).state
  }

  /** The state after the calls in `trace`, in order. */
  function Run(s: AppState, trace: seq<Action>): AppState
    decreases |trace|
  {
    if |trace| == 0 then s else Run(Apply(s, trace[0]), trace[1..])
  }

  /** The store's invariants: statuses follow quantities, and a donor is named exactly on fulfilled requests. */
  ghost predicate Valid(s: AppState) {
    InventoryConsistent(s.inventory) && RequestsWellFormed(s.requests)
  }

  /** No new request in the trace arrives with a donor already filled in. */
  predicate NoPresetDonor(trace: seq<Action>) {
    forall i :: 0 <= i < |trace| && trace[i].AddRequestCall? ==> trace[i].request.fulfilledBy.None?
  }

  lemma InitialStateValid(clock: DateOffset -> string)
    ensures Valid(InitialState(clock))
  {
  }

  lemma ApplyKeepsValid(s: AppState, a: Action)
    requires Valid(s)
    requires a.AddRequestCall? ==> a.request.fulfilledBy.None?
    ensures Valid(Apply(s, a))
  {
  }

  /**
   * The only way to break the invariant: the request input still admits a
   * donor name, and `addRequest` copies it onto a request it marks Active.
   */
  lemma PresetDonorBreaksWellFormed(s: AppState, d: RequestDraft, stamp: string, createdAt: string)
    requires d.fulfilledBy.Some?
    ensures !RequestsWellFormed(AddRequest(s, d, stamp, createdAt).requests)
  {
  }

  lemma {:induction false} RunKeepsValid(s: AppState, trace: seq<Action>)
    requires Valid(s) && NoPresetDonor(trace)
    ensures Valid(Run(s, trace))
    decreases |trace|
  {
    if |trace| > 0 {
      ApplyKeepsValid(s, trace[0]);
      assert NoPresetDonor(trace[1..]) by {
        forall i | 0 <= i < |trace[1..]| && trace[1..][i].AddRequestCall?
          ensures trace[1..][i].request.fulfilledBy.None?
        {
          assert trace[1..][i] == trace[i + 1];
        }
      }
      RunKeepsValid(Apply(s, trace[0]), trace[1..]);
    }
  }

  /** Every state the store reaches from the seed, by calls without a preset donor, is valid. */
  lemma ReachableStatesValid(clock: DateOffset -> string, trace: seq<Action>)
    requires NoPresetDonor(trace)
    ensures Valid(Run(InitialState(clock), trace))
  {
    InitialStateValid(clock);
    RunKeepsValid(InitialState(clock), trace);
  }

  /** The ids of `reqs`, newest first. */
  function RequestIds(reqs: seq<UrgentRequest>): seq<string> {
    Project(reqs, (r: UrgentRequest) => r.id)
  }

  /** `a` is the tail of `b`. */
  predicate IsSuffix<T(==)>(a: seq<T>, b: seq<T>) {
    |a| <= |b| && a == b[|b| - |a|..]
  }

  lemma SuffixTransitive<T>(a: seq<T>, b: seq<T>, c: seq<T>)
    requires IsSuffix(a, b) && IsSuffix(b, c)
    ensures IsSuffix(a, c)
  {
    assert c[|c| - |a|..] == c[|c| - |b|..][|b| - |a|..];
  }

  /** A fulfilment changes no request's id. */
  lemma MarkFulfilledKeepsIds(reqs: seq<UrgentRequest>, rid: string, donor: string)
    ensures RequestIds(MarkFulfilled(reqs, rid, donor)) == RequestIds(reqs)
  {
  }

  /**
   * One call keeps camps, donors and the inventory size. The earlier request
   * ids stay, in order, at the end of the list, and registrants are only appended.
   */
  lemma ApplyShape(s: AppState, a: Action)
    ensures Apply(s, a).camps == s.camps && Apply(s, a).donors == s.donors
    ensures |Apply(s, a).inventory| == |s.inventory|
    ensures |Apply(s, a).requests| >= |s.requests|
    ensures IsSuffix(RequestIds(s.requests), RequestIds(Apply(s, a).requests))
    ensures s.registrants <= Apply(s, a).registrants
  {
    if a.FulfillRequestCall? {
      MarkFulfilledKeepsIds(s.requests, a.requestId, a.donorName);
    }
  }

  /**
   * Camps and donors are read-only, the inventory never gains or loses items,
   * no request is ever removed (the ids present before a sequence of calls are
   * still the last ids of the list, in the same order), and registrants are
   * only ever appended.
   */
  lemma {:induction false} RunShape(s: AppState, trace: seq<Action>)
    ensures Run(s, trace).camps == s.camps && Run(s, trace).donors == s.donors
    ensures |Run(s, trace).inventory| == |s.inventory|
    ensures |Run(s, trace).requests| >= |s.requests|
    ensures IsSuffix(RequestIds(s.requests), RequestIds(Run(s, trace).requests))
    ensures s.registrants <= Run(s, trace).registrants
    decreases |trace|
  {
    if |trace| > 0 {
      var s1 := Apply(s, trace[0]);
      ApplyShape(s, trace[0]);
      RunShape(s1, trace[1..]);
      SuffixTransitive(RequestIds(s.requests), RequestIds(s1.requests), RequestIds(Run(s1, trace[1..]).requests));
    }
  }
}
