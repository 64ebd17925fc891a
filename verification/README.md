# Blood Bridge domain store, in Dafny

Blood Bridge is a browser dashboard that coordinates hospital blood inventory,
urgent blood requests, donation camps and donors. This project models its one
piece of business logic: the client-side store behind the dashboard. The store
holds five collections (inventory, requests, camps, donors, camp registrants)
and offers four operations:

- `updateInventory` sets an item's quantity and recomputes its stock status.
- `addRequest` puts a new Active request at the front of the list.
- `fulfillRequest` marks a request Fulfilled and records the donor.
- `registerForCamp` appends a registrant with a fresh id and ticket id, and returns it.

The project also models the record shapes and closed enumerations these
operations work on, and the seed data the store starts from.

Modules:

- `Types` (`types.dfy`): the enumerations `BloodType`, `ResourceStatus`,
  `UrgencyLevel` and `RequestStatus`, with their string literals. Also the
  records, and the operation inputs with the store-assigned fields removed.
- `SeedData` (`data.dfy`): the initial inventory, requests, camps and donors.
  Seed dates are relative to "now", so they come from a `clock` parameter.
  Every seed property holds for every clock.
- `AppProvider` (`app_provider.dfy`): the state, the status rule and the four
  operations as pure state transforms, plus the laws of each operation.
- `AppContext` (`app_context.dfy`): calls to the four operations as an
  `Action`, traces of calls, and the invariants every reachable state keeps.

Clock readings become string parameters of the operations: `stamp`,
`createdAt`, `idStamp` and `ticketStamp`. The source takes them from
`Date.now()` and the current ISO time. The ids keep the source's prefixes:
`req`, `reg-` and `TICKET-`.

Two behaviours of the code worth knowing:

- `fulfillRequest` (src/context/app-provider.tsx:52-55) does not check a
  request's current status, so a Fulfilled or Expired request is overwritten.
  `MarkFulfilledLastDonorWins` and `FulfillOverwritesExpired` show this. The
  alerts page only offers Active requests for donation, but the store itself
  has no guard.
- `src/lib/types.ts:74` declares that `registerForCamp` returns `void`. The
  exported implementation returns the new record, and the model returns it too.

## Model

| member | source | states |
|---|---|---|
| Types.BloodTypeFromLabel | src/lib/types.ts:1 | Only the eight ABO/Rh literals are accepted. An accepted string is exactly the label of the type returned. Any other string matches no blood type. |
| Types.BloodTypeLabelsRoundTrip | src/lib/types.ts:1 | Each blood type's literal reads back as that same type, so no two types share a literal. |
| Types.BloodTypeIsClosed | src/lib/types.ts:1 | The blood-type union has exactly eight pairwise different values, and every value is among them. |
| Types.ResourceStatusFromLabel | src/lib/types.ts:2 | Only "Available", "Low" and "Critical" are stock statuses. Each one reads back to the status carrying that label. |
| Types.UrgencyLevelFromLabel | src/lib/types.ts:3 | Only "Critical", "High" and "Moderate" are urgency levels. Each one reads back to the level carrying that label. |
| Types.RequestStatusFromLabel | src/lib/types.ts:4 | Only "Active", "Fulfilled" and "Expired" are request statuses. Each one reads back to the status carrying that label. |
| Types.StatusLabelsRoundTrip | src/lib/types.ts:2-4 | Each status and urgency value's literal reads back as that same value, so each of these three unions has three values. |
| SeedData.SeedInventoryIdsDistinct | src/lib/data.ts:4-13 | The seeded inventory ids "1" to "8" are pairwise different. |
| SeedData.SeedInventoryCoversEachBloodTypeOnce | src/lib/data.ts:4-13 | Every blood type is stocked by a seeded item, and no two seeded items have the same type. So each type appears exactly once. |
| SeedData.SeedRequestsShape | src/lib/data.ts:15-20 | For any clock, the seeded request ids are pairwise different and every broadcast radius is 5 or 10 km. |
| SeedData.SeedCampAndDonorIdsDistinct | src/lib/data.ts:22-34 | For any clock, the seeded camp ids are pairwise different, and so are the seeded donor ids. |
| AppProvider.InitialState | src/context/app-provider.tsx:12-16 | With nothing persisted, the store starts from the seed inventory, requests, camps and donors, and with no registrants. |
| AppProvider.DeriveStatus | src/context/app-provider.tsx:22-25 | A quantity gives Critical exactly when it is at most 5, Low exactly when it is 6 to 10, and Available exactly when it is above 10. |
| AppProvider.DeriveStatusMonotone | src/context/app-provider.tsx:22-25 | More units never give a worse status (Critical < Low < Available). |
| AppProvider.SeedInventoryConsistent | src/lib/data.ts:5-12 | Every seeded item's stored status equals the status its quantity derives. |
| AppProvider.SetQuantity | src/context/app-provider.tsx:20-29 | Length and order are kept, and every item with another id is unchanged. A matching item gets the new quantity and the status it derives. Its id, blood type and location are kept. |
| AppProvider.QuantityUpdateIsUnique | src/context/app-provider.tsx:20-29 | The per-item description of an update is met by exactly one list, the one the update produces. |
| AppProvider.SetQuantityUnknownId | src/context/app-provider.tsx:20-29 | An id that matches no item leaves the inventory exactly as it was. |
| AppProvider.SetQuantityLastWins | src/context/app-provider.tsx:18-30 | Setting the same item twice gives the same list as setting it once, to the later quantity. |
| AppProvider.SetQuantityIdempotent | src/context/app-provider.tsx:18-30 | Repeating an update with the same id and quantity gives the same list as doing it once. |
| AppProvider.SetQuantityKeepsConsistent | src/context/app-provider.tsx:20-29 | If every status matched its quantity before an update, every status still matches after it. |
| AppProvider.UpdateInventory | src/context/app-provider.tsx:18-30 | The inventory changes as described for SetQuantity, and no other collection changes. |
| AppProvider.RestockSeedItemScenario | src/context/app-provider.tsx:18-30 | Seed item "3" (3 units, Critical) set to 12 units becomes Available with 12 units. Its neighbours, items "2" and "4", are untouched. |
| AppProvider.AddRequest | src/context/app-provider.tsx:37-44 | The list grows by one. The old list follows the new head unchanged. The head is Active, its id is "req" plus the clock reading, and every caller field is copied. No other collection changes. |
| AppProvider.MarkFulfilled | src/context/app-provider.tsx:52-56 | Length is kept, and every request with another id is unchanged. Every matching request becomes Fulfilled by the donor, whatever its status was. |
| AppProvider.FulfilmentIsUnique | src/context/app-provider.tsx:52-56 | The per-request description of a fulfilment is met by exactly one list, the one the operation produces. |
| AppProvider.MarkFulfilledUnknownId | src/context/app-provider.tsx:52-56 | An id that matches no request leaves the list exactly as it was. |
| AppProvider.MarkFulfilledLastDonorWins | src/context/app-provider.tsx:52-56 | A second fulfilment of the same request replaces the first donor with the second, because the prior status is not checked. |
| AppProvider.FulfillRequest | src/context/app-provider.tsx:51-61 | The requests change as described for MarkFulfilled, and no other collection changes. |
| AppProvider.FulfillOverwritesExpired | src/context/app-provider.tsx:52-56 | An Expired request that is fulfilled ends up Fulfilled, with the donor recorded. |
| AppProvider.SeedRequestsWellFormed | src/lib/data.ts:15-20 | A seeded request names a donor exactly when it is Fulfilled. |
| AppProvider.MarkFulfilledKeepsWellFormed | src/context/app-provider.tsx:52-56 | If donors were named exactly on fulfilled requests before a fulfilment, the same holds after it. |
| AppProvider.RegisterForCamp | src/context/app-provider.tsx:83-91 | The registrant list grows by exactly the returned record, appended at the end. The record carries the caller's fields, an id "reg-" plus a clock reading, and a different ticket id "TICKET-" plus a clock reading. No other collection changes. |
| AppContext.InitialStateValid | src/context/app-provider.tsx:12-16 | The starting state meets both store invariants: statuses follow quantities, and donors are named exactly on fulfilled requests. |
| AppContext.ApplyKeepsValid | src/context/app-provider.tsx:74-92 | Each of the four operations keeps both store invariants, provided a new request does not arrive with a donor already set. |
| AppContext.PresetDonorBreaksWellFormed | src/lib/types.ts:72 | The request input still admits the optional donor name. A request added with one is Active yet names a donor, which breaks well-formedness. |
| AppContext.RunKeepsValid | src/context/app-provider.tsx:74-92 | Any sequence of operation calls keeps both invariants, provided no new request carries a preset donor. |
| AppContext.ReachableStatesValid | src/context/app-provider.tsx:12-92 | Every state reachable from the seed by such calls meets both invariants. |
| AppContext.MarkFulfilledKeepsIds | src/context/app-provider.tsx:52-56 | A fulfilment leaves every request's id, and the order of the ids, unchanged. |
| AppContext.ApplyShape | src/context/app-provider.tsx:74-92 | One call never changes camps or donors and keeps the inventory size. The request ids from before the call remain, in order, as the tail of the list. Registrants are only appended. |
| AppContext.RunShape | src/context/app-provider.tsx:74-92 | Over any sequence of calls, camps and donors never change and the inventory keeps its size. No request is removed: the earlier request ids remain, in order, as the tail of the list. Registrants are only appended. |

## Left out

- Persistence to browser local storage, the toast notifications and the React context plumbing (`useLocalStorage`, `toast`, `createContext`, `useApp`): these are browser I/O and framework glue. The model works on the in-memory state only.
- Wall-clock values: `Date.now()` and the ISO timestamps are string parameters supplied by the caller. Ids from different calls are not shown to be unique, because that depends on the clock.
- The earlier `registerForCamp` definition at src/context/app-provider.tsx:63-71: the provider never exports it, because the context value uses the inline version.
- JavaScript numbers: quantities, ages and radii are unbounded integers. Fractional values, NaN and infinities, which the status comparisons would also accept, are not modelled.
- Seed dates: `subHours`, `subDays` and `setDate` come from a date library and the clock. They are represented by the `clock` parameter of the seed functions.
- The camps' `lat`/`lng` floating-point coordinates: no logic reads them.
- The `File` object behind `idProof`: it is an opaque string handle.
- The AI advisory flows, all UI pages and components, and the logistics simulation: they are prompt templates over an external model, presentation code, or code that is not part of this model.
- Validation done by the forms: non-negative quantity, age 18 to 65, radius 5/10/15. The store does not check these, so the model places no preconditions on them.
