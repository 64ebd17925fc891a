/**
 * The seed collections the store starts from when nothing has been
 * persisted. Dates in the seed are computed from the wall clock relative to
 * "now"; here they come from a `clock` parameter that renders each offset as
 * an ISO date string, so every property below holds for every clock.
 */
module SeedData {
  import opened Types

  /** A date relative to the moment the seed is built. */
  datatype DateOffset = HoursAgo(hours: nat) | DaysAgo(days: nat) | DaysAhead(days: nat)

  const INITIAL_INVENTORY: seq<BloodInventory> := [
    BloodInventory("1", APos, 25, "D Y Patil Hospital, Nerul", Available),
    BloodInventory("2", ONeg, 8, "Apollo Hospital, Belapur", Low),
    BloodInventory("3", BPos, 3, "MGM Hospital, Vashi", Critical),
    BloodInventory("4", ABPos, 15, "Fortis Hiranandani Hospital, Vashi", Available),
    BloodInventory("5", ANeg, 12, "D Y Patil Hospital, Nerul", Available),
    BloodInventory("6", OPos, 50, "Apollo Hospital, Belapur", Available),
    BloodInventory("7", BNeg, 5, "MGM Hospital, Vashi", Critical),
    BloodInventory("8", ABNeg, 9, "Fortis Hiranandani Hospital, Vashi", Low)
  ]

  function InitialRequests(clock: DateOffset -> string): seq<UrgentRequest> {
    [
      UrgentRequest("req1", ONeg, 5, UrgencyCritical, "City General Hospital", "Mumbai", 10,
                    clock(HoursAgo(2)), Active, None),
      UrgentRequest("req2", APos, 10, High, "Metro Health Center", "Pune", 5,
                    clock(HoursAgo(15)), Active, None),
      UrgentRequest("req3", BPos, 8, Moderate, "Sunshine Medical", "Nagpur", 10,
                    clock(DaysAgo(2)), Fulfilled, Some("Anjali Sharma")),
      UrgentRequest("req4", ABNeg, 3, UrgencyCritical, "Hope County Hospital", "Mumbai", 5,
                    clock(DaysAgo(5)), Expired, None)
    ]
  }

  function InitialCamps(clock: DateOffset -> string): seq<DonationCamp> {
    [
      DonationCamp("camp1", "Annual Blood Drive", "Red Cross Society", "Shivaji Park, Mumbai",
                   "Shivaji Park, Dadar, Mumbai, Maharashtra 400028",
                   clock(DaysAhead(10)), "9:00 AM - 5:00 PM"),
      DonationCamp("camp2", "Tech Park Donation Day", "Infosys Foundation", "Hinjewadi IT Park, Pune",
                   "Rajiv Gandhi Infotech Park, Hinjawadi, Pune, Maharashtra 411057",
                   clock(DaysAhead(25)), "10:00 AM - 4:00 PM"),
      DonationCamp("camp3", "Community Health Camp", "Lions Club", "Gandhibagh, Nagpur",
                   "Gandhibagh, Nagpur, Maharashtra 440002",
                   clock(DaysAhead(40)), "11:00 AM - 6:00 PM")
    ]
  }

  function InitialDonors(clock: DateOffset -> string): seq<Donor> {
    [
      Donor("don1", "Rohan Sharma", OPos, "Mumbai, MH", clock(DaysAgo(90)),
            Contact("+919876543210", "rohan.s@example.com")),
      Donor("don2", "Priya Mehta", APos, "Pune, MH", clock(DaysAgo(120)),
            Contact("+919123456789", "priya.m@example.com")),
      Donor("don3", "Amit Singh", BNeg, "Nagpur, MH", clock(DaysAgo(50)),
            Contact("+919988776655", "amit.s@example.com")),
      Donor("don4", "Sunita Patel", ABPos, "Mumbai, MH", clock(DaysAgo(200)),
            Contact("+919654321098", "sunita.p@example.com")),
      Donor("don5", "Vikram Reddy", ONeg, "Pune, MH", clock(DaysAgo(75)),
            Contact("+919000011111", "vikram.r@example.com"))
    ]
  }

  /* ---------------------------------------------------------------------- */
  /* Identifier projections and distinctness                                */
  /* ---------------------------------------------------------------------- */

  predicate Distinct<T(==)>(s: seq<T>) {
    forall i, j :: 0 <= i < j < |s| ==> s[i] != s[j]
  }

  /** The field `f` of each record, in order (`xs.map(f)`). */
  function Project<T, U>(xs: seq<T>, f: T -> U): seq<U> {
    seq(|xs|, i requires 0 <= i < |xs| => f(xs[i]))
  }

  /* ---------------------------------------------------------------------- */
  /* Facts about the seed                                                   */
  /* ---------------------------------------------------------------------- */

  /** The seeded inventory ids "1".."8" are pairwise different. */
  lemma SeedInventoryIdsDistinct()
    ensures Distinct(Project(INITIAL_INVENTORY, (x: BloodInventory) => x.id))
  {
  }

  /** The blood type of each item, in inventory order. */
  function StockedTypes(inv: seq<BloodInventory>): seq<BloodType> {
    Project(inv, (x: BloodInventory) => x.bloodType)
  }

  /** Each of the eight blood types is stocked by exactly one seeded item. */
  lemma SeedInventoryCoversEachBloodTypeOnce()
    ensures forall bt: BloodType :: bt in StockedTypes(INITIAL_INVENTORY)
    ensures Distinct(StockedTypes(INITIAL_INVENTORY))
  {
    var types := StockedTypes(INITIAL_INVENTORY);
    forall bt: BloodType
      ensures bt in types
    {
      match bt
      case APos => assert types[0] == bt;
      case ONeg => assert types[1] == bt;
      case BPos => assert types[2] == bt;
      case ABPos => assert types[3] == bt;
      case ANeg => assert types[4] == bt;
      case OPos => assert types[5] == bt;
      case BNeg => assert types[6] == bt;
      case ABNeg => assert types[7] == bt;
    }
  }

  /** Seeded request ids are pairwise different and each radius is 5 or 10 km. */
  lemma SeedRequestsShape(clock: DateOffset -> string)
    ensures Distinct(Project(InitialRequests(clock), (r: UrgentRequest) => r.id))
    ensures forall r :: r in InitialRequests(clock) ==> r.broadcastRadius == 5 || r.broadcastRadius == 10
  {
  }

  /** Seeded camp ids and seeded donor ids are each pairwise different. */
  lemma SeedCampAndDonorIdsDistinct(clock: DateOffset -> string)
    ensures Distinct(Project(InitialCamps(clock), (c: DonationCamp) => c.id))
    ensures Distinct(Project(InitialDonors(clock), (d: Donor) => d.id))
  {
  }
}
