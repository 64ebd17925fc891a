/**
 * The domain vocabulary of the Blood Bridge store: the closed string
 * enumerations, the record shapes held in each collection, and the input
 * shapes the store's operations accept (records with the store-assigned
 * fields removed).
 */
module Types {

  /** An optional value; models a TypeScript field declared with `?` or `| null`. */
  datatype Option<+T> = None | Some(value: T)

  /* ---------------------------------------------------------------------- */
  /* Closed enumerations. Each is a union of string literals in the source; */
  /* `Label` is the literal, and `...FromLabel` recognises exactly those.   */
  /* ---------------------------------------------------------------------- */

  /** The eight ABO/Rh combinations. */
  datatype BloodType = APos | ANeg | BPos | BNeg | ABPos | ABNeg | OPos | ONeg
  {
    function Label(): string {
      match this
      case APos => "A+"
      case ANeg => "A-"
      case BPos => "B+"
      case BNeg => "B-"
      case ABPos => "AB+"
      case ABNeg => "AB-"
      case OPos => "O+"
      case ONeg => "O-"
    }
  }

  const ALL_BLOOD_TYPES: seq<BloodType> := [APos, ANeg, BPos, BNeg, ABPos, ABNeg, OPos, ONeg]

  /** Reads one of the eight literals back; any other string is rejected. */
  function BloodTypeFromLabel(s: string): (r: Option<BloodType>)
    ensures r.Some? ==> r.value.Label() == s
    ensures r.None? ==> forall bt: BloodType :: bt.Label() != s
  {
    if s == "A+" then Some(APos)
    else if s == "A-" then Some(ANeg)
    else if s == "B+" then Some(BPos)
    else if s == "B-" then Some(BNeg)
    else if s == "AB+" then Some(ABPos)
    else if s == "AB-" then Some(ABNeg)
    else if s == "O+" then Some(OPos)
    else if s == "O-" then Some(ONeg)
    else None
  }

  /** Stock level of one inventory item. */
  datatype ResourceStatus = Available | Low | Critical
  {
    function Label(): string {
      match this
      case Available => "Available"
      case Low => "Low"
      case Critical => "Critical"
    }
  }

  function ResourceStatusFromLabel(s: string): (r: Option<ResourceStatus>)
    ensures r.Some? ==> r.value.Label() == s
    ensures r.None? ==> forall st: ResourceStatus :: st.Label() != s
  {
    if s == "Available" then Some(Available)
    else if s == "Low" then Some(Low)
    else if s == "Critical" then Some(Critical)
    else None
  }

  /** How pressing an urgent request is. */
  datatype UrgencyLevel = UrgencyCritical | High | Moderate
  {
    function Label(): string {
      match this
      case UrgencyCritical => "Critical"
      case High => "High"
      case Moderate => "Moderate"
    }
  }

  function UrgencyLevelFromLabel(s: string): (r: Option<UrgencyLevel>)
    ensures r.Some? ==> r.value.Label() == s
    ensures r.None? ==> forall u: UrgencyLevel :: u.Label() != s
  {
    if s == "Critical" then Some(UrgencyCritical)
    else if s == "High" then Some(High)
    else if s == "Moderate" then Some(Moderate)
    else None
  }

  /** Lifecycle state of an urgent request. */
  datatype RequestStatus = Active | Fulfilled | Expired
  {
    function Label(): string {
      match this
      case Active => "Active"
      case Fulfilled => "Fulfilled"
      case Expired => "Expired"
    }
  }

  function RequestStatusFromLabel(s: string): (r: Option<RequestStatus>)
    ensures r.Some? ==> r.value.Label() == s
    ensures r.None? ==> forall st: RequestStatus :: st.Label() != s
  {
    if s == "Active" then Some(Active)
    else if s == "Fulfilled" then Some(Fulfilled)
    else if s == "Expired" then Some(Expired)
    else None
  }

  /** Every blood type has its own literal, and reading it back gives the same type. */
  lemma BloodTypeLabelsRoundTrip(bt: BloodType)
    ensures BloodTypeFromLabel(bt.Label()) == Some(bt)
  {
  }

  /** The blood-type union is closed: exactly eight pairwise different values. */
  lemma BloodTypeIsClosed()
    ensures |ALL_BLOOD_TYPES| == 8
    ensures forall bt: BloodType :: bt in ALL_BLOOD_TYPES
    ensures forall i, j :: 0 <= i < j < |ALL_BLOOD_TYPES| ==> ALL_BLOOD_TYPES[i] != ALL_BLOOD_TYPES[j]
  {
    forall bt: BloodType
      ensures bt in ALL_BLOOD_TYPES
    {
      match bt
      case APos => assert ALL_BLOOD_TYPES[0] == bt;
      case ANeg => assert ALL_BLOOD_TYPES[1] == bt;
      case BPos => assert ALL_BLOOD_TYPES[2] == bt;
      case BNeg => assert ALL_BLOOD_TYPES[3] == bt;
      case ABPos => assert ALL_BLOOD_TYPES[4] == bt;
      case ABNeg => assert ALL_BLOOD_TYPES[5] == bt;
      case OPos => assert ALL_BLOOD_TYPES[6] == bt;
      case ONeg => assert ALL_BLOOD_TYPES[7] == bt;
    }
  }

  lemma StatusLabelsRoundTrip(st: ResourceStatus, u: UrgencyLevel, rs: RequestStatus)
    ensures ResourceStatusFromLabel(st.Label()) == Some(st)
    ensures UrgencyLevelFromLabel(u.Label()) == Some(u)
    ensures RequestStatusFromLabel(rs.Label()) == Some(rs)
  {
  }

  /* ---------------------------------------------------------------------- */
  /* Records                                                                */
  /* ---------------------------------------------------------------------- */

  /** One blood stock entry held by a hospital; `quantity` is in units. */
  datatype BloodInventory = BloodInventory(
    id: string,
    bloodType: BloodType,
    quantity: int,
    location: string,
    status: ResourceStatus)

  /** A broadcast request for blood; `fulfilledBy` is its only optional field. */
  datatype UrgentRequest = UrgentRequest(
    id: string,
    bloodType: BloodType,
    quantity: int,
    urgency: UrgencyLevel,
    hospitalName: string,
    hospitalLocation: string,
    broadcastRadius: int,     // km
    createdAt: string,        // ISO date string
    status: RequestStatus,
    fulfilledBy: Option<string>)

  /** A donation camp; the source's `lat`/`lng` coordinates are not modelled. */
  datatype DonationCamp = DonationCamp(
    id: string,
    name: string,
    organizer: string,
    location: string,
    address: string,
    date: string,             // ISO date string
    timings: string)

  datatype Contact = Contact(phone: string, email: string)

  datatype Donor = Donor(
    id: string,
    name: string,
    bloodType: BloodType,
    location: string,
    lastDonationDate: string, // ISO date string
    contact: Contact)

  /** An opaque handle to an uploaded identity document. */
  type FileRef = string

  /** A person registered for a camp, with the ticket issued to them. */
  datatype CampRegistrant = CampRegistrant(
    id: string,
    fullName: string,
    age: int,
    idProof: Option<FileRef>,
    photo: string,            // data URL
    campId: string,
    ticketId: string)

  /* ---------------------------------------------------------------------- */
  /* Operation inputs: the records minus the fields the store assigns.      */
  /* ---------------------------------------------------------------------- */

  /**
   * An urgent request without `id`, `createdAt` and `status`. The caller
   * cannot choose the initial status. The optional `fulfilledBy` is not
   * among the removed fields, so it is still part of the input shape.
   */
  datatype RequestDraft = RequestDraft(
    bloodType: BloodType,
    quantity: int,
    urgency: UrgencyLevel,
    hospitalName: string,
    hospitalLocation: string,
    broadcastRadius: int,
    fulfilledBy: Option<string>)

  /** A camp registrant without `id` and `ticketId`. */
  datatype RegistrationDraft = RegistrationDraft(
    fullName: string,
    age: int,
    idProof: Option<FileRef>,
    photo: string,
    campId: string)
}
