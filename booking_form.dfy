/** The single-page booking form of frontend/src/components/BookingForm.js:
    field validation, the price for the chosen number of people, the request
    it sends to the booking API, how it reports the outcome, and the
    "Book Another Experience" reset. The API outcome is an input. */
module BookingForm {
  import opened Wrappers
  import opened Text
  import BookingModel
  import BookingRoutes
  import Http

  datatype FormData = FormData(
    name: string,
    email: string,
    phone: string,
    date: string,
    numberOfPeople: int,
    specialRequests: string)

  /** The form as it starts and as "Book Another Experience" restores it. */
  const InitialForm := FormData("", "", "", "", 1, "")

  /** The people selector offers one to eight. */
  function PeopleOptions(): (r: seq<int>)
    ensures |r| == 8 && forall i | 0 <= i < 8 :: r[i] == i + 1
  {
    [1, 2, 3, 4, 5, 6, 7, 8]
  }

  /** The messages `validateForm` can give; `MessageText` is their wording. */
  datatype Message = EnterFullName | EnterEmail | InvalidEmail | EnterPhone | SelectDate

  function MessageText(m: Message): string
  {
    match m
    case EnterFullName => "Please enter your full name"
    case EnterEmail => "Please enter your email"
    case InvalidEmail => "Please enter a valid email"
    case EnterPhone => "Please enter your phone number"
    case SelectDate => "Please select a booking date"
  }

  /** The error object: one optional message per checked field. */
  datatype Errors = Errors(name: Option<Message>, email: Option<Message>,
                           phone: Option<Message>, date: Option<Message>)

  const NoErrors := Errors(None, None, None, None)

  /** What `validateForm` finds: a missing name, phone or date, and an
      e-mail that is missing or fails the shape test. */
  function FormErrors(f: FormData): (e: Errors)
    ensures e.name.Some? <==> f.name == ""
    ensures e.phone.Some? <==> f.phone == ""
    ensures e.date.Some? <==> f.date == ""
    ensures f.email == "" ==> e.email == Some(EnterEmail)
    ensures f.email != "" && !IsEmailLike(f.email) ==> e.email == Some(InvalidEmail)
    ensures f.email != "" && IsEmailLike(f.email) ==> e.email.None?
  {
    Errors(
      if f.name == "" then Some(EnterFullName) else None,
      if f.email == "" then Some(EnterEmail)
      else if !IsEmailLike(f.email) then Some(InvalidEmail) else None,
      if f.phone == "" then Some(EnterPhone) else None,
      if f.date == "" then Some(SelectDate) else None)
  }

  /** The total the effect keeps: price per person times people. The
      price is the experience's `pricePerPerson`, which may be missing;
      then the product is `NaN` (`None`). */
  function TotalPrice(experiencePrice: Option<int>, people: int): (t: Option<int>)
    ensures t.None? <==> experiencePrice.None?
    ensures people == 1 ==> t == experiencePrice
    ensures t.Some? ==> t.value == experiencePrice.value * people
  {
    if experiencePrice.None? then None else Some(experiencePrice.value * people)
  }

  /** One more person adds one price per person, one person costs exactly
      that price, and without a price every count gives `NaN`. */
  lemma TotalPriceStep(experiencePrice: int, people: int)
    ensures TotalPrice(Some(experiencePrice), people + 1).value
         == TotalPrice(Some(experiencePrice), people).value + experiencePrice
    ensures TotalPrice(Some(experiencePrice), 1) == Some(experiencePrice)
    ensures TotalPrice(None, people).None?
  {
  }

  /** For a price that is not negative, more people never cost less. */
  lemma TotalPriceMonotone(experiencePrice: int, a: int, b: int)
    requires experiencePrice >= 0 && a <= b
    ensures TotalPrice(Some(experiencePrice), a).value <= TotalPrice(Some(experiencePrice), b).value
  {
    assert experiencePrice * b - experiencePrice * a == experiencePrice * (b - a) >= 0;
  }

  /** The body `handleSubmit` posts: the form's fields, `listing` set to the
      experience id, the total as `totalAmount` (a `NaN` total is sent as
      `null`, here `None`), and no `tourPackage`. */
  datatype Payload = Payload(
    name: string,
    email: string,
    phone: string,
    date: string,
    numberOfPeople: int,
    specialRequests: string,
    listing: Option<string>,
    totalAmount: Option<int>)

  function PayloadOf(f: FormData, experienceId: Option<string>, totalPrice: Option<int>): (p: Payload)
    ensures p.name == f.name && p.email == f.email && p.phone == f.phone && p.date == f.date
    ensures p.numberOfPeople == f.numberOfPeople && p.specialRequests == f.specialRequests
    ensures p.listing == experienceId && p.totalAmount == totalPrice
  {
    Payload(f.name, f.email, f.phone, f.date, f.numberOfPeople, f.specialRequests,
            experienceId, totalPrice)
  }

  /** The payload as the booking route reads it. The date arrives as the
      route sees it (`serverDate`); the payload has no `tourPackage`. */
  function AsCreateRequest(p: Payload, serverDate: Option<int>): (r: BookingRoutes.CreateRequest)
    ensures r.tourPackage.None? && r.listing == p.listing
  {
    BookingRoutes.CreateRequest(
      Some(p.name), Some(p.email), Some(p.phone), None, serverDate,
      Some(p.numberOfPeople), Some(p.specialRequests), p.totalAmount, None, p.listing)
  }

  /** Nothing of the form is lost on the way to the route: reading the
      request's fields back gives the form again (the date as the route
      reads it aside), with the experience as `listing` and the total as the
      amount. */
  lemma PayloadCarriesForm(f: FormData, experienceId: Option<string>, total: Option<int>, serverDate: Option<int>)
    ensures var r := AsCreateRequest(PayloadOf(f, experienceId, total), serverDate);
      && r.name.Some? && r.email.Some? && r.phone.Some? && r.numberOfPeople.Some? && r.specialRequests.Some?
      && FormData(r.name.value, r.email.value, r.phone.value, f.date,
                  r.numberOfPeople.value, r.specialRequests.value) == f
      && r.listing == experienceId && r.totalAmount == total && r.date == serverDate
  {
  }

  /** Without a `pricePerPerson` the total is `NaN` whatever the number of
      people, and the request then carries no amount. */
  lemma MissingPriceSendsNoAmount(f: FormData, experienceId: Option<string>, serverDate: Option<int>)
    ensures TotalPrice(None, f.numberOfPeople).None?
    ensures AsCreateRequest(PayloadOf(f, experienceId, TotalPrice(None, f.numberOfPeople)), serverDate).totalAmount.None?
  {
  }

  /** Whatever the customer enters, the booking route refuses what this form
      sends with 400, because `tourPackage` is never included. */
  lemma ServerRefusesEveryPayload(p: Payload, serverDate: Option<int>, id: nat, builtAt: int, savedAt: int)
    ensures BookingRoutes.CreateResult(AsCreateRequest(p, serverDate), id, builtAt, savedAt)
         == (Http.Failure(400, BookingRoutes.MissingFields), None)
  {
  }

  const Fallback := "Failed to submit booking. Please try again."


  /** What the API call ended with. */
  datatype Outcome = Created | Failed(message: Option<string>)

  /** The component's state. */
  class BookingFormState {
    const experienceId: Option<string>
    const experiencePrice: Option<int>
    var formData: FormData
    var totalPrice: Option<int>
    var loading: bool
    var error: string
    var success: bool
    var errors: Errors

    constructor (id: Option<string>, price: Option<int>)
      ensures experienceId == id && experiencePrice == price
      ensures formData == InitialForm && totalPrice == Some(0) && !loading && error == ""
      ensures !success && errors == NoErrors
    {
      experienceId := id;
      experiencePrice := price;
      formData := InitialForm;
      totalPrice := Some(0);
      loading := false;
      error := "";
      success := false;
      errors := NoErrors;
    }

    /** `validateForm`: build the error object entry by entry, replace the
        old one, and report whether it is empty. */
    method ValidateForm() returns (ok: bool)
      modifies this
      ensures errors == FormErrors(formData)
      ensures ok <==> errors == NoErrors
      ensures formData == old(formData) && totalPrice == old(totalPrice)
      ensures loading == old(loading) && error == old(error) && success == old(success)
    {
      var newErrors := NoErrors;
      if formData.name == "" { newErrors := newErrors.(name := Some(EnterFullName)); }
      if formData.email == "" {
        newErrors := newErrors.(email := Some(EnterEmail));
      } else if !IsEmailLike(formData.email) {
        newErrors := newErrors.(email := Some(InvalidEmail));
      }
      if formData.phone == "" { newErrors := newErrors.(phone := Some(EnterPhone)); }
      if formData.date == "" { newErrors := newErrors.(date := Some(SelectDate)); }
      errors := newErrors;
      ok := newErrors == NoErrors;
    }

    /** The effect that runs when the number of people (or the price)
        changes. */
    method RecomputeTotal()
      modifies this
      ensures totalPrice == TotalPrice(experiencePrice, formData.numberOfPeople)
      ensures formData == old(formData) && errors == old(errors) && success == old(success)
    {
      if experiencePrice.None? {
        totalPrice := None;
      } else {
        totalPrice := Some(experiencePrice.value * formData.numberOfPeople);
      }
    }

    /** `handleChange` on the people selector. */
    method ChoosePeople(n: int)
      requires n in PeopleOptions()
      modifies this
      ensures formData == old(formData).(numberOfPeople := n)
      ensures 1 <= formData.numberOfPeople <= 8
      ensures totalPrice == old(totalPrice) && errors == old(errors)
    {
      formData := formData.(numberOfPeople := n);
    }

    /** `handleSubmit`, first half: with errors nothing is sent; otherwise
        loading starts, the old error is cleared and the payload goes out. */
    method Submit() returns (sent: Option<Payload>)
      modifies this
      ensures errors == FormErrors(formData) && formData == old(formData)
      ensures sent.Some? <==> errors == NoErrors
      ensures sent.Some? ==> (sent.value == PayloadOf(formData, experienceId, totalPrice)
                              && loading && error == "")
      ensures sent.None? ==> loading == old(loading) && error == old(error)
      ensures success == old(success) && totalPrice == old(totalPrice)
    {
      var ok := ValidateForm();
      if !ok {
        sent := None;
        return;
      }
      loading := true;
      error := "";
      sent := Some(PayloadOf(formData, experienceId, totalPrice));
    }

    /** `handleSubmit`, second half: success, or the server's message or
        the fallback; loading ends either way. */
    method Finish(outcome: Outcome)
      modifies this
      ensures !loading
      ensures outcome.Created? ==> success && error == old(error)
      ensures outcome.Failed? ==> success == old(success) && error == Http.ErrorText(outcome.message, Fallback)
      ensures formData == old(formData) && errors == old(errors)
    {
      if outcome.Created? {
        success := true;
      } else {
        error := Http.ErrorText(outcome.message, Fallback);
      }
      loading := false;
    }

    /** "Book Another Experience": back to the empty form. */
    method BookAnother()
      modifies this
      ensures !success && formData == InitialForm
      ensures error == old(error) && errors == old(errors) && totalPrice == old(totalPrice)
    {
      success := false;
      formData := InitialForm;
    }
  }

  /** The empty form never validates: every checked field is missing. */
  lemma InitialFormInvalid()
    ensures FormErrors(InitialForm) == Errors(Some(EnterFullName), Some(EnterEmail),
                                              Some(EnterPhone), Some(SelectDate))
  {
  }
}
