/** The booking document of backend/models/Booking.js: its fields, the
    validation Mongoose runs on `save` (required fields, `min: 1`, the two
    enumerations), the `trim: true` setters applied when a document is built,
    the defaults, and the pre-save hook that stamps `updatedAt`. Dates are
    millisecond timestamps; money is whole currency units. */
module BookingModel {
  import opened Wrappers
  import opened Text

  /** The `status` enumeration; the type itself keeps every stored status
      one of the four values. */
  datatype Status = Pending | Confirmed | Cancelled | Completed

  function StatusName(s: Status): string
  {
    match s
    case Pending => "Pending"
    case Confirmed => "Confirmed"
    case Cancelled => "Cancelled"
    case Completed => "Completed"
  }

  /** Membership in `['Pending', 'Confirmed', 'Cancelled', 'Completed']`,
      case-sensitive as JavaScript's `includes`. */
  function ParseStatus(s: string): (r: Option<Status>)
    ensures r.Some? ==> StatusName(r.value) == s
    ensures r.None? ==> forall st: Status :: StatusName(st) != s
  {
    if s == "Pending" then Some(Pending)
    else if s == "Confirmed" then Some(Confirmed)
    else if s == "Cancelled" then Some(Cancelled)
    else if s == "Completed" then Some(Completed)
    else None
  }

  /** Every status name parses back to its status. */
  lemma ParseStatusName(st: Status)
    ensures ParseStatus(StatusName(st)) == Some(st)
  {
  }

  /** The `tourPackage` enumeration. */
  const TourPackages: seq<string> := [
    "Desert Safari", "Camel Trekking", "Luxury Camp", "Berber Experience", "Custom Package",
    "Sunset Camel Trek", "Luxury Desert Camp", "Stargazing Night Tour", "Nomadic Lifestyle Experience"
  ]

  datatype ExtraOption = ExtraOption(id: Option<string>, name: Option<string>, price: Option<int>)

  datatype Booking = Booking(
    id: nat,
    name: Option<string>,
    email: Option<string>,
    phone: Option<string>,
    tourPackage: Option<string>,
    experienceId: Option<string>,
    experienceTitle: Option<string>,
    experienceImage: Option<string>,
    startDate: Option<int>,
    endDate: Option<int>,
    date: Option<int>,
    numberOfPeople: Option<int>,
    specialRequests: Option<string>,
    totalPrice: Option<int>,
    totalAmount: Option<int>,
    extraOptions: seq<ExtraOption>,
    status: Status,
    createdAt: int,
    updatedAt: int)

  /** Mongoose's `required` check on a string: present and not empty. */
  predicate RequiredString(s: Option<string>)
  {
    TruthyText(s)
  }

  /** What validation on `save` accepts: the required fields, at least one
      person, and a tour package from the list when one is given. */
  predicate SchemaValid(b: Booking)
  {
    && RequiredString(b.name) && RequiredString(b.email) && RequiredString(b.phone)
    && (b.tourPackage.Some? ==> b.tourPackage.value in TourPackages)
    && b.date.Some?
    && b.numberOfPeople.Some? && b.numberOfPeople.value >= 1
    && b.totalAmount.Some?
  }

  predicate IsTrimmed(s: Option<string>)
  {
    s.None? || NoOuterSpace(s.value)
  }

  /** The fields declared with `trim: true` hold trimmed text. */
  predicate Trimmed(b: Booking)
  {
    && IsTrimmed(b.name) && IsTrimmed(b.email) && IsTrimmed(b.phone)
    && IsTrimmed(b.experienceTitle) && IsTrimmed(b.experienceImage)
    && IsTrimmed(b.specialRequests)
  }

  /** What every document in the collection satisfies. */
  predicate Stored(b: Booking)
  {
    SchemaValid(b) && Trimmed(b)
  }

  /** A `trim: true` field: absent stays absent, a given value is stored
      trimmed. */
  function TrimField(s: Option<string>): (r: Option<string>)
    ensures IsTrimmed(r)
    ensures r.Some? <==> s.Some?
    ensures r.Some? ==> r.value == Trim(s.value)
  {
    match s
    case None => None
    case Some(v) => Some(Trim(v))
  }

  /** The fields a caller may hand to `new Booking({...})`. */
  datatype Fields = Fields(
    name: Option<string>,
    email: Option<string>,
    phone: Option<string>,
    tourPackage: Option<string>,
    date: Option<int>,
    numberOfPeople: Option<int>,
    specialRequests: Option<string>,
    totalAmount: Option<int>)

  /** `new Booking(fields)` at time `now`: the trim setters run, `status`
      defaults to Pending, both timestamps default to `now`, `extraOptions`
      to the empty array, and every field not given stays absent. */
  function NewDocument(id: nat, f: Fields, now: int): (b: Booking)
    ensures Trimmed(b)
    ensures b.id == id
    ensures b.status == Pending && b.createdAt == now && b.updatedAt == now
    ensures b.name == TrimField(f.name) && b.email == TrimField(f.email) && b.phone == TrimField(f.phone)
    ensures b.specialRequests == TrimField(f.specialRequests)
    ensures b.tourPackage == f.tourPackage && b.date == f.date
    ensures b.numberOfPeople == f.numberOfPeople && b.totalAmount == f.totalAmount
    ensures b.experienceId.None? && b.experienceTitle.None? && b.experienceImage.None?
    ensures b.startDate.None? && b.endDate.None? && b.totalPrice.None? && b.extraOptions == []
  {
    Booking(
      id, TrimField(f.name), TrimField(f.email), TrimField(f.phone), f.tourPackage,
      None, None, None, None, None, f.date, f.numberOfPeople,
      TrimField(f.specialRequests), None, f.totalAmount, [], Pending, now, now)
  }

  /** The `pre('save')` hook: stamp `updatedAt` with the save time. */
  function PreSave(b: Booking, now: int): (r: Booking)
    ensures r.updatedAt == now
    ensures r.(updatedAt := b.updatedAt) == b
  {
    b.(updatedAt := now)
  }

}
